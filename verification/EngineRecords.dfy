/**
 What the slot tables know of the landings: without displacement a slot is Published
 exactly when an upload of its file landed and was recorded, and then by one upload
 (src/server/handlers.rs:775-852).
 */
module EngineRecords {
  import opened Options
  import opened Lifecycle
  import opened Engine
  import opened EngineInvariant
  import opened EngineCancellation
  import opened EngineIds
  import opened EngineLanding
  import opened EngineKeeping
  import opened EngineEvents

  /** Upload `u` of the file landed, and its future came to the record. */
  predicate Kept(w: World, u: nat, s: SessionId, f: FileId) {
    && u < |w.uploads| && w.uploads[u].session == s && w.uploads[u].file == f
    && w.uploads[u].landed && !w.uploads[u].lost
  }

  predicate KeptAndGone(w: World, u: nat, s: SessionId, f: FileId) {
    Kept(w, u, s, f) && w.uploads[u].pc.Gone?
  }

  predicate Recorded(w: World, s: SessionId, f: FileId) {
    s < |w.sessions| && At(w.sessions[s].slots, f, Published)
  }

  ghost predicate RecordsOk(w: World) {
    && (forall u: nat, s, f :: KeptAndGone(w, u, s, f) ==> Recorded(w, s, f))
    && (forall s, f :: Recorded(w, s, f) ==> exists u: nat :: KeptAndGone(w, u, s, f))
  }

  /** No landed upload is on its way out without a record. */
  predicate NoneTurnedAway(w: World) {
    forall u :: 0 <= u < |w.uploads| && w.uploads[u].pc.Leaving? ==> !w.uploads[u].landed
  }

  /** Landed and recorded uploads are the same ones before and after. */
  ghost predicate SameKept(w: World, w': World) {
    forall u: nat, s, f :: KeptAndGone(w', u, s, f) <==> KeptAndGone(w, u, s, f)
  }

  ghost predicate SameRecorded(w: World, w': World) {
    forall s, f :: Recorded(w', s, f) <==> Recorded(w, s, f)
  }

  /** Only a record makes a slot Published. */
  lemma OnlyRecordsPublish(cfg: Config, w: World, step: Step)
    requires Inv(w) && !step.Record?
    ensures SameRecorded(w, Apply(cfg, w, step))
  {
    var w' := Apply(cfg, w, step);
    StepKeepsInv(cfg, w, step);
    StepReceived(cfg, w, step);
    forall s: SessionId, f
      ensures Recorded(w', s, f) <==> Recorded(w, s, f)
    {
      assert s < |w.sessions| ==> SessionOk(w.sessions[s]);
      assert s < |w'.sessions| ==> SessionOk(w'.sessions[s]);
      assert Recorded(w, s, f) <==> s < |w.sessions| && f in w.sessions[s].received;
      assert Recorded(w', s, f) <==> s < |w'.sessions| && f in w'.sessions[s].received;
    }
  }

  lemma QuietKeeps(cfg: Config, w: World, step: Step)
    requires UploadStep(step) && Quiet(step) && step.u < |w.uploads| && UploadOk(w.uploads[step.u])
    requires OnlyUpload(w, step.u, Apply(cfg, w, step))
    ensures var me, me' := w.uploads[step.u], Apply(cfg, w, step).uploads[step.u];
            (me'.landed && !me'.lost && me'.pc.Gone?) <==> (me.landed && !me.lost && me.pc.Gone?)
  {
    QuietUpload(cfg, w, step);
  }

  lemma TokenKeeps(cfg: Config, w: World, step: Step)
    requires TokenStep(step) && !step.Record? && step.u < |w.uploads| && UploadOk(w.uploads[step.u])
    requires w.uploads[step.u].pc.Leaving? ==> !w.uploads[step.u].landed
    requires OnlyUpload(w, step.u, Apply(cfg, w, step))
    ensures var me, me' := w.uploads[step.u], Apply(cfg, w, step).uploads[step.u];
            (me'.landed && !me'.lost && me'.pc.Gone?) <==> (me.landed && !me.lost && me.pc.Gone?)
  {
  }

  lemma UploadStepKeepsKept(cfg: Config, w: World, step: Step)
    requires Inv(w) && NoneTurnedAway(w) && UploadStep(step) && !step.Record?
    ensures SameKept(w, Apply(cfg, w, step))
  {
    var u := step.u;
    UploadFrame(cfg, w, step);
    if u < |w.uploads| {
      HandlerFacts(w, u);
      if Quiet(step) { QuietKeeps(cfg, w, step); } else { TokenKeeps(cfg, w, step); }
    }
  }

  lemma OutsideStepKeepsKept(cfg: Config, w: World, step: Step)
    requires !UploadStep(step)
    ensures SameKept(w, Apply(cfg, w, step))
  {
    if step.Claim? {
      ClaimedIsNew(w, step.session, step.file, step.token);
    } else {
      PrepareCurrentMoves(cfg, w, step);
    }
  }

  lemma SameRecordsOk(w: World, w': World)
    requires RecordsOk(w) && SameKept(w, w') && SameRecorded(w, w')
    ensures RecordsOk(w')
  {
    forall s, f | Recorded(w', s, f)
      ensures exists u: nat :: KeptAndGone(w', u, s, f)
    {
      assert Recorded(w, s, f);
      var u: nat :| KeptAndGone(w, u, s, f);
      assert KeptAndGone(w', u, s, f);
    }
  }

  lemma RecordMovesKept(w: World, u: nat)
    requires Inv(w) && InPc(w, u, Committed)
    ensures var me, w' := w.uploads[u], DoRecord(w, u);
            forall v: nat, s, f :: KeptAndGone(w', v, s, f) <==>
              KeptAndGone(w, v, s, f) ||
              (v == u && s == me.session && f == me.file && w.current == Some(s))
  {
    HandlerFacts(w, u);
  }

  lemma RecordMovesRecorded(w: World, u: nat)
    requires Inv(w) && InPc(w, u, Committed)
    ensures var me, w' := w.uploads[u], DoRecord(w, u);
            forall s, f :: Recorded(w', s, f) <==>
              Recorded(w, s, f) || (s == me.session && f == me.file && w.current == Some(s))
  {
    HandlerFacts(w, u);
  }

  lemma RecordKeepsRecords(w: World, u: nat)
    requires Inv(w) && RecordsOk(w)
    ensures RecordsOk(DoRecord(w, u))
  {
    if InPc(w, u, Committed) {
      var w' := DoRecord(w, u);
      RecordMovesKept(w, u);
      RecordMovesRecorded(w, u);
      forall s, f | Recorded(w', s, f)
        ensures exists v: nat :: KeptAndGone(w', v, s, f)
      {
        if Recorded(w, s, f) {
          var v: nat :| KeptAndGone(w, v, s, f);
          assert KeptAndGone(w', v, s, f);
        } else {
          assert KeptAndGone(w', u, s, f);
        }
      }
    }
  }

  lemma StepKeepsRecords(cfg: Config, w: World, step: Step)
    requires Inv(w) && NoneTurnedAway(w) && RecordsOk(w)
    ensures RecordsOk(Apply(cfg, w, step))
  {
    if step.Record? {
      RecordKeepsRecords(w, step.u);
    } else {
      OnlyRecordsPublish(cfg, w, step);
      if UploadStep(step) { UploadStepKeepsKept(cfg, w, step); } else { OutsideStepKeepsKept(cfg, w, step); }
      SameRecordsOk(w, Apply(cfg, w, step));
    }
  }

  lemma {:induction false} RunKeepsRecords(cfg: Config, steps: seq<Step>, w: World)
    requires NeverDisplaces(cfg, steps) && w == Run(cfg, steps)
    ensures Inv(w) && RecordsOk(w)
  {
    RunKeepsInv(cfg, steps);
    if steps != [] {
      var k := |steps| - 1;
      var w0 := Run(cfg, steps[..k]);
      NeverDisplacesBefore(cfg, steps, k);
      RunKeepsRecords(cfg, steps[..k], w0);
      forall u | 0 <= u < |w0.uploads| && w0.uploads[u].pc.Leaving?
        ensures !w0.uploads[u].landed
      {
        PermitKeepsItsSession(cfg, steps[..k], w0, u);
      }
      StepKeepsRecords(cfg, w0, steps[k]);
    }
  }

  /**
   In a run without displacement a slot is Published exactly when an upload of its file
   landed, came to its record and is over; and no second upload of the file ever does.
   */
  lemma PublishedIffRecorded(cfg: Config, steps: seq<Step>, w: World, s: SessionId, f: FileId)
    requires NeverDisplaces(cfg, steps) && w == Run(cfg, steps)
    ensures Recorded(w, s, f) <==> exists u: nat :: KeptAndGone(w, u, s, f)
    ensures forall u: nat, v: nat :: Kept(w, u, s, f) && Kept(w, v, s, f) ==> u == v
  {
    RunKeepsRecords(cfg, steps, w);
    RunKeepsLand(cfg, steps);
    forall u: nat, v: nat | Kept(w, u, s, f) && Kept(w, v, s, f)
      ensures u == v
    {
      assert u < v ==> InOrder(w.uploads[u], w.uploads[v]);
      assert v < u ==> InOrder(w.uploads[v], w.uploads[u]);
    }
  }
}
