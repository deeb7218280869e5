/**
 How often a file of a session can land on disk: once, unless the future of the
 handler that landed it was dropped before the file was recorded
 (src/server/handlers.rs:775-852, src/core/session.rs:43-123).
 */
module EngineLanding {
  import opened Options
  import opened Lifecycle
  import opened Engine
  import opened EngineInvariant
  import opened EngineCancellation
  import opened EngineIds

  predicate SameSlot(a: Upload, b: Upload) {
    a.session == b.session && a.file == b.file
  }

  /** A landed upload that ended without being lost: its slot is Published, or its session is over. */
  predicate Settled(w: World, u: nat)
    requires Known(w, u)
  {
    var me := w.uploads[u];
    && (me.landed && me.pc.Leaving? ==> w.current != Some(me.session))
    && (me.landed && !me.lost && me.pc.Gone? ==> SlotOf(w, u).phase.Published? || w.current != Some(me.session))
  }

  /** What an earlier and a later claim of one slot can look like side by side. */
  predicate InOrder(a: Upload, b: Upload) {
    SameSlot(a, b) ==>
      a.hold.NoHold? && (a.landed ==> a.lost)
  }

  predicate LandOk(w: World)
    requires WellFormed(w)
  {
    && (forall u :: 0 <= u < |w.uploads| ==> Settled(w, u))
    && (forall u, v :: 0 <= u < v < |w.uploads| ==> InOrder(w.uploads[u], w.uploads[v]))
  }

  /** The slot went to nobody, to a session built just now, or stayed. */
  predicate CurrentMoves(w: World, w': World) {
    w'.current == w.current || w'.current.None? || w'.current.value >= |w.sessions|
  }

  lemma PrepareCurrentMoves(cfg: Config, w: World, step: Step)
    requires PrepareStep(step) || CancelStep(step)
    ensures CurrentMoves(w, Apply(cfg, w, step)) && Apply(cfg, w, step).uploads == w.uploads
  {
  }

  lemma SameUploadsLand(w: World, w': World)
    requires Inv(w) && LandOk(w) && Inv(w') && Preserves(w, w')
    requires CurrentMoves(w, w') && w'.uploads == w.uploads
    ensures LandOk(w')
  {
    forall u | 0 <= u < |w'.uploads|
      ensures Settled(w', u)
    {
      HandlerFacts(w, u);
      assert Settled(w, u);
    }
  }

  /** A claim of a slot leaves every earlier upload settled, and comes after those of the same slot. */
  lemma ClaimSettles(w: World, s: SessionId, f: FileId, token: Token, u: nat)
    requires Inv(w) && LandOk(w) && u < |w.uploads|
    requires Preserves(w, DoClaim(w, s, f, token)) && Inv(DoClaim(w, s, f, token))
    ensures var w' := DoClaim(w, s, f, token);
            && u < |w'.uploads| && w'.uploads[u] == w.uploads[u] && Settled(w', u)
            && (w' != w ==> InOrder(w.uploads[u], Claimant(s, f)))
  {
    HandlerFacts(w, u);
    assert Settled(w, u);
  }

  /** The table of uploads grew by one that has not landed. */
  lemma GrownLands(w: World, w': World, added: Upload)
    requires Inv(w) && LandOk(w) && Inv(w')
    requires w'.uploads == w.uploads + [added] && !added.landed
    requires forall u :: 0 <= u < |w.uploads| ==> Settled(w', u) && InOrder(w.uploads[u], added)
    ensures LandOk(w')
  {
    forall u, v | 0 <= u < v < |w'.uploads|
      ensures InOrder(w'.uploads[u], w'.uploads[v])
    {
      assert v < |w.uploads| ==> InOrder(w.uploads[u], w.uploads[v]);
    }
  }

  lemma ClaimLands(w: World, s: SessionId, f: FileId, token: Token)
    requires Inv(w) && LandOk(w)
    ensures Inv(DoClaim(w, s, f, token)) && LandOk(DoClaim(w, s, f, token))
  {
    var w' := DoClaim(w, s, f, token);
    ClaimKeepsInv(w, s, f, token);
    ClaimPreserves(w, s, f, token);
    if w' != w {
      forall u | 0 <= u < |w.uploads|
        ensures Settled(w', u) && InOrder(w.uploads[u], Claimant(s, f))
      {
        ClaimSettles(w, s, f, token, u);
      }
      GrownLands(w, w', Claimant(s, f));
    }
  }

  /** Upload `u` alone moved on: it gained no token, and if it landed it had the permit, or had lost it. */
  lemma MoveLands(w: World, u: nat, w': World)
    requires Inv(w) && LandOk(w) && Inv(w') && Preserves(w, w') && CurrentMoves(w, w')
    requires OnlyUpload(w, u, w') && u < |w.uploads|
    requires w.uploads[u].hold.NoHold? ==> w'.uploads[u].hold.NoHold?
    requires w'.uploads[u].landed && !w.uploads[u].landed ==> w.uploads[u].hold.Permit? || w'.uploads[u].lost
    requires w.uploads[u].lost ==> w'.uploads[u].lost
    requires w.uploads[u].landed ==> w'.uploads[u].landed
    requires Known(w', u) && Settled(w', u)
    ensures LandOk(w')
  {
    forall v | 0 <= v < |w'.uploads|
      ensures Settled(w', v)
    {
      if v != u {
        HandlerFacts(w, v);
        assert Settled(w, v);
      }
    }
    forall a, b | 0 <= a < b < |w'.uploads|
      ensures InOrder(w'.uploads[a], w'.uploads[b])
    {
      assert InOrder(w.uploads[a], w.uploads[b]);
    }
  }

  lemma DropHoldLands(w: World, u: nat)
    requires Inv(w) && LandOk(w) && u < |w.uploads|
    ensures Inv(DoDropHold(w, u)) && LandOk(DoDropHold(w, u))
  {
    HandlerFacts(w, u);
    assert Settled(w, u);
    DropHoldKeepsInv(w, u);
    DropFrame(w, u, false);
    HoldStepPreserves(w, u, false);
    MoveLands(w, u, DoDropHold(w, u));
  }

  lemma DropLands(w: World, u: nat, renaming: bool)
    requires Inv(w) && LandOk(w) && u < |w.uploads|
    ensures Inv(DoDropUpload(w, u, renaming)) && LandOk(DoDropUpload(w, u, renaming))
  {
    HandlerFacts(w, u);
    assert Settled(w, u);
    DropUploadKeepsInv(w, u, renaming);
    DropFrame(w, u, renaming);
    HoldStepPreserves(w, u, renaming);
    MoveLands(w, u, DoDropUpload(w, u, renaming));
  }

  lemma RecordLands(w: World, u: nat)
    requires Inv(w) && LandOk(w) && u < |w.uploads| && Inv(DoRecord(w, u))
    ensures LandOk(DoRecord(w, u))
  {
    HandlerFacts(w, u);
    assert Settled(w, u);
    TokenFrame(w, u);
    RecordPreserves(w, u);
    MoveLands(w, u, DoRecord(w, u));
  }

  lemma PublishLands(w: World, u: nat)
    requires Inv(w) && LandOk(w) && u < |w.uploads| && Inv(DoPublish(w, u))
    ensures LandOk(DoPublish(w, u))
  {
    HandlerFacts(w, u);
    assert Settled(w, u);
    TokenFrame(w, u);
    PublishPreserves(w, u);
    MoveLands(w, u, DoPublish(w, u));
  }

  /** What such a step leaves of its own upload is settled. */
  lemma QuietSettles(cfg: Config, w: World, step: Step)
    requires Inv(w) && LandOk(w) && UploadStep(step) && Quiet(step) && step.u < |w.uploads|
    requires Inv(Apply(cfg, w, step)) && Preserves(w, Apply(cfg, w, step))
    requires OnlyUpload(w, step.u, Apply(cfg, w, step))
    ensures Known(Apply(cfg, w, step), step.u) && Settled(Apply(cfg, w, step), step.u)
  {
    HandlerFacts(w, step.u);
    assert Settled(w, step.u);
    HandlerFacts(Apply(cfg, w, step), step.u);
    QuietUpload(cfg, w, step);
  }

  /** A step between two awaits of a body: the token stays, and only a commit lands. */
  lemma QuietLands(cfg: Config, w: World, step: Step)
    requires Inv(w) && LandOk(w) && UploadStep(step) && Quiet(step) && step.u < |w.uploads|
    ensures Inv(Apply(cfg, w, step)) && LandOk(Apply(cfg, w, step))
  {
    var w' := Apply(cfg, w, step);
    StepKeepsInv(cfg, w, step);
    StepPreserves(cfg, w, step);
    HandlerFacts(w, step.u);
    QuietUpload(cfg, w, step);
    UploadFrame(cfg, w, step);
    QuietSettles(cfg, w, step);
    MoveLands(w, step.u, w');
  }

  lemma QuietUpload(cfg: Config, w: World, step: Step)
    requires UploadStep(step) && Quiet(step) && step.u < |w.uploads| && UploadOk(w.uploads[step.u])
    ensures var w' := Apply(cfg, w, step); var me, me' := w.uploads[step.u], w'.uploads[step.u];
            && w'.current == w.current
            && me'.hold == me.hold && (me.lost ==> me'.lost)
            && (|| me'.landed == me.landed
                || (me'.landed && me.pc.Committing? && me'.pc.Committed?)
                || (me'.landed && me.pc.Orphaned? && me'.lost))
            && (me'.pc.Gone? && !me.pc.Orphaned? ==> me' == me)
            && (me'.pc.Leaving? && me'.landed ==> me' == me)
  {
  }

  lemma OutsideStepLands(cfg: Config, w: World, step: Step)
    requires Inv(w) && LandOk(w) && (PrepareStep(step) || CancelStep(step))
    ensures Inv(Apply(cfg, w, step)) && LandOk(Apply(cfg, w, step))
  {
    StepKeepsInv(cfg, w, step);
    StepPreserves(cfg, w, step);
    PrepareCurrentMoves(cfg, w, step);
    SameUploadsLand(w, Apply(cfg, w, step));
  }

  lemma UploadStepLands(cfg: Config, w: World, step: Step)
    requires Inv(w) && LandOk(w) && UploadStep(step)
    ensures Inv(Apply(cfg, w, step)) && LandOk(Apply(cfg, w, step))
  {
    if step.u >= |w.uploads| {
      NobodysStep(cfg, w, step);
    } else if Quiet(step) {
      QuietLands(cfg, w, step);
    } else {
      StepKeepsInv(cfg, w, step);
      match step
      case Publish(u) => PublishLands(w, u);
      case Record(u) => RecordLands(w, u);
      case DropHold(u) => DropHoldLands(w, u);
      case DropUpload(u, renaming) => DropLands(w, u, renaming);
    }
  }

  lemma StepKeepsLand(cfg: Config, w: World, step: Step)
    requires Inv(w) && LandOk(w)
    ensures Inv(Apply(cfg, w, step)) && LandOk(Apply(cfg, w, step))
  {
    if step.Claim? {
      ClaimLands(w, step.session, step.file, step.token);
    } else if UploadStep(step) {
      UploadStepLands(cfg, w, step);
    } else {
      OutsideStepLands(cfg, w, step);
    }
  }

  lemma {:induction false} RunKeepsLand(cfg: Config, steps: seq<Step>)
    ensures Inv(Run(cfg, steps)) && LandOk(Run(cfg, steps))
  {
    if steps != [] {
      RunKeepsLand(cfg, steps[..|steps| - 1]);
      StepKeepsLand(cfg, Run(cfg, steps[..|steps| - 1]), steps[|steps| - 1]);
    }
  }

  /**
   An upload after which its file was claimed once more landed if and only if it was
   lost: its future was dropped before its record.  So a file lands again exactly after
   a lost landing.
   */
  lemma LandsTwiceIffLost(cfg: Config, steps: seq<Step>, w: World, u: nat, v: nat)
    requires w == Run(cfg, steps)
    requires u < v < |w.uploads|
    requires SameSlot(w.uploads[u], w.uploads[v])
    ensures w.uploads[u].landed <==> w.uploads[u].lost
  {
    RunKeepsLand(cfg, steps);
    HandlerFacts(w, u);
    assert InOrder(w.uploads[u], w.uploads[v]);
  }
}
