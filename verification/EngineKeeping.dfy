/**
 A session with a body or a publication under way stays the current session, and
 exactly which steps can break that (src/server/handlers.rs:258-271, 357-424,
 775-821, 946-962; src/server/server.rs:254-260, 386-392).
 */
module EngineKeeping {
  import opened Options
  import opened Lifecycle
  import opened Sets
  import opened Engine
  import opened EngineInvariant
  import opened EngineCancellation
  import opened EngineIds
  import opened EngineLanding

  predicate AnyActive(slots: Slots) {
    exists f :: f in slots && Active(slots[f].phase)
  }

  predicate Idle(slots: Slots) {
    forall f :: f in slots ==> !Active(slots[f].phase)
  }

  predicate ActiveIsCurrent(w: World) {
    forall s :: 0 <= s < |w.sessions| && w.current != Some(s) ==> Idle(w.sessions[s].slots)
  }

  /**
   The decline, refuse, install and message steps replace whatever session is
   current.  They do harm when a publication (for the message step: any transfer)
   is under way in it.
   */
  predicate Displaces(w: World, step: Step) {
    && w.current.Some? && w.current.value < |w.sessions|
    && var slots := w.sessions[w.current.value].slots;
       match step
       case Resolve(p) => p < |w.prepares| && w.prepares[p].pc.Cleared? && AnyPublishing(slots)
       case DeliverText(p) =>
         p < |w.prepares| && w.prepares[p].pc.Installed? && IsMessage(w.prepares[p].offered) && AnyActive(slots)
       case _ => false
  }

  /** The session the handler itself put into the slot. */
  function OwnSession(prepare: Prepare): SessionId {
    if prepare.pc.Installed? then prepare.pc.session else prepare.reserved
  }

  /** A displacing step always hits a session that is not its own. */
  lemma DisplacedIsForeign(w: World, step: Step)
    requires Inv(w) && Secrets(w) && Displaces(w, step)
    ensures step.p < |w.prepares| && w.current != Some(OwnSession(w.prepares[step.p]))
  {
    var s := w.current.value;
    var own := OwnSession(w.prepares[step.p]);
    assert own !in w.disclosed && own < |w.sessions|;
    assert NoTransfer(w.sessions[own].slots);
    assert step.Resolve? ==> !AnyPublishing(w.sessions[own].slots);
  }

  // ---- steps that do not displace ----

  lemma NoTransferIdle(slots: Slots)
    requires NoTransfer(slots)
    ensures Idle(TryCancel(slots)) && NoTransfer(TryCancel(slots))
  {
  }

  lemma CancelIdles(w: World, s: SessionId)
    requires Inv(w) && s < |w.sessions| && !AnyPublishing(w.sessions[s].slots)
    ensures Idle(CancelSession(w, s).sessions[s].slots)
  {
    assert SessionOk(w.sessions[s]);
    TryCancelOutcome(w.sessions[s].slots);
  }

  lemma ReservationStepKeeps(w: World, peer: Peer, reserved: SessionId)
    requires Inv(w) && Secrets(w) && ActiveIsCurrent(w)
    ensures ActiveIsCurrent(DoRelease(w, reserved))
    ensures ActiveIsCurrent(DoWithdrawOffer(w, peer))
  {
    if w.awaiting.Some? {
      var r := w.awaiting.value.session;
      var p: nat :| Responsible(w, p, r);
      assert r !in w.disclosed;
      NoTransferIdle(w.sessions[r].slots);
      if w.current == Some(r) && !AnyPublishing(w.sessions[r].slots) { CancelIdles(w, r); }
    }
  }

  lemma CancelStepKeeps(cfg: Config, w: World, step: Step)
    requires Inv(w) && Secrets(w) && ActiveIsCurrent(w) && CancelStep(step)
    ensures ActiveIsCurrent(Apply(cfg, w, step))
  {
    if step.Release? {
      ReservationStepKeeps(w, 0, step.reserved);
    } else if step.WithdrawOffer? {
      ReservationStepKeeps(w, step.peer, 0);
    } else if w.current.Some? && !AnyPublishing(w.sessions[w.current.value].slots) {
      CancelIdles(w, w.current.value);
    }
  }

  lemma PrepareStepKeeps(cfg: Config, w: World, step: Step)
    requires Inv(w) && ActiveIsCurrent(w) && PrepareStep(step) && !Displaces(w, step)
    ensures ActiveIsCurrent(Apply(cfg, w, step))
  {
    if w.current.Some? && !AnyPublishing(w.sessions[w.current.value].slots) { CancelIdles(w, w.current.value); }
    if step.DeliverText? && w.current.Some? && !AnyActive(w.sessions[w.current.value].slots) {
      assert Idle(w.sessions[w.current.value].slots);
    }
  }

  /** Slots active afterwards were active before, and the slot is held as before. */
  lemma SlotsKeep(w: World, w': World)
    requires ActiveIsCurrent(w) && w'.current == w.current && |w'.sessions| == |w.sessions|
    requires forall s :: 0 <= s < |w.sessions| ==> w'.sessions[s].slots.Keys == w.sessions[s].slots.Keys
    requires forall s, f ::
               0 <= s < |w.sessions| && f in w.sessions[s].slots && Active(w'.sessions[s].slots[f].phase) ==>
               Active(w.sessions[s].slots[f].phase)
    ensures ActiveIsCurrent(w')
  {
    forall s | 0 <= s < |w'.sessions| && w'.current != Some(s)
      ensures Idle(w'.sessions[s].slots)
    {
      assert Idle(w.sessions[s].slots);
    }
  }

  lemma ReleasedKeeps(w: World, u: nat, upload: Upload)
    requires Inv(w) && ActiveIsCurrent(w) && u < |w.uploads| && Known(w, u)
    ensures ActiveIsCurrent(Released(w, u, upload))
  {
    HandlerFacts(w, u);
    SlotsKeep(w, Released(w, u, upload));
  }

  /** A session is complete exactly when every accepted file is Published. */
  lemma CompleteMeansPublished(s: Session)
    requires SessionOk(s)
    ensures AllReceived(s) <==> forall f :: f in s.files ==> s.slots[f].phase.Published?
  {
    SubsetSize(s.received, s.files.Keys);
    assert |s.files| == |s.files.Keys|;
    if forall f :: f in s.files ==> s.slots[f].phase.Published? {
      assert s.files.Keys <= s.received;
    } else {
      var f :| f in s.files && !s.slots[f].phase.Published?;
      assert f !in s.received;
    }
  }

  lemma RecordKeeps(w: World, u: nat)
    requires Inv(w) && ActiveIsCurrent(w)
    ensures ActiveIsCurrent(DoRecord(w, u))
  {
    if InPc(w, u, Committed) {
      HandlerFacts(w, u);
      var me := w.uploads[u];
      if w.current == Some(me.session) {
        var s1 := Recorded(w.sessions[me.session], me.file);
        RecordedOk(w.sessions[me.session], me.file);
        CompleteMeansPublished(s1);
        assert DoRecord(w, u).sessions == w.sessions[me.session := s1];
        assert AllReceived(s1) ==> Idle(s1.slots);
      } else {
        SlotsKeep(w, DoRecord(w, u));
      }
    }
  }

  lemma PublishKeeps(w: World, u: nat)
    requires Inv(w) && ActiveIsCurrent(w)
    ensures ActiveIsCurrent(DoPublish(w, u))
  {
    if InPc(w, u, Validated) {
      HandlerFacts(w, u);
      SlotsKeep(w, DoPublish(w, u));
    }
  }

  lemma DropKeeps(w: World, u: nat, renaming: bool)
    requires Inv(w) && ActiveIsCurrent(w)
    ensures ActiveIsCurrent(DoDropHold(w, u)) && ActiveIsCurrent(DoDropUpload(w, u, renaming))
  {
    if u < |w.uploads| {
      ReleasedKeeps(w, u, w.uploads[u].(pc := Gone));
      ReleasedKeeps(w, u, Dropped(w.uploads[u], renaming));
    }
  }

  lemma UploadStepKeeps(cfg: Config, w: World, step: Step)
    requires Inv(w) && ActiveIsCurrent(w) && UploadStep(step)
    ensures ActiveIsCurrent(Apply(cfg, w, step))
  {
    match step
    case Publish(u) => PublishKeeps(w, u);
    case Record(u) => RecordKeeps(w, u);
    case DropHold(u) => DropKeeps(w, u, false);
    case DropUpload(u, renaming) => DropKeeps(w, u, renaming);
    case _ =>
      QuietStepPreserves(cfg, w, step);
      SlotsKeep(w, Apply(cfg, w, step));
  }

  lemma ClaimKeeps(w: World, s: SessionId, f: FileId, token: Token)
    requires ActiveIsCurrent(w)
    ensures ActiveIsCurrent(DoClaim(w, s, f, token))
  {
    ClaimFrame(w, s, f, token);
    assert DoClaim(w, s, f, token).current == w.current;
  }

  lemma StepKeepsActive(cfg: Config, w: World, step: Step)
    requires Inv(w) && Secrets(w) && ActiveIsCurrent(w) && !Displaces(w, step)
    ensures ActiveIsCurrent(Apply(cfg, w, step))
  {
    if PrepareStep(step) {
      PrepareStepKeeps(cfg, w, step);
    } else if CancelStep(step) {
      CancelStepKeeps(cfg, w, step);
    } else if step.Claim? {
      ClaimKeeps(w, step.session, step.file, step.token);
    } else {
      UploadStepKeeps(cfg, w, step);
    }
  }

  /** A displacing step leaves a transfer under way in a session that lost the slot. */
  lemma DisplacingBreaks(cfg: Config, w: World, step: Step)
    requires Inv(w) && Displaces(w, step)
    ensures !ActiveIsCurrent(Apply(cfg, w, step))
  {
    var s := w.current.value;
    var slots := w.sessions[s].slots;
    var w' := Apply(cfg, w, step);
    assert w'.current != Some(s) && w'.sessions[s].slots == slots;
    if step.Resolve? {
      var f :| f in slots && At(slots, f, Publishing);
      assert Active(slots[f].phase);
    }
    assert !Idle(w'.sessions[s].slots);
  }

  // ---- theorems ----

  ghost predicate DisplacesAt(cfg: Config, steps: seq<Step>, n: nat)
    requires n < |steps|
  {
    Displaces(Run(cfg, steps[..n]), steps[n])
  }

  /** No step of the schedule displaces a session it did not put there. */
  ghost predicate NeverDisplaces(cfg: Config, steps: seq<Step>) {
    forall n :: 0 <= n < |steps| ==> !DisplacesAt(cfg, steps, n)
  }

  lemma NeverDisplacesBefore(cfg: Config, steps: seq<Step>, k: nat)
    requires k <= |steps| && NeverDisplaces(cfg, steps)
    ensures NeverDisplaces(cfg, steps[..k])
  {
    forall n | 0 <= n < k
      ensures !DisplacesAt(cfg, steps[..k], n)
    {
      assert steps[..k][..n] == steps[..n];
      assert !DisplacesAt(cfg, steps, n);
    }
  }

  lemma {:induction false} RunKeepsActive(cfg: Config, steps: seq<Step>)
    requires NeverDisplaces(cfg, steps)
    ensures ActiveIsCurrent(Run(cfg, steps))
  {
    if steps != [] {
      var k := |steps| - 1;
      NeverDisplacesBefore(cfg, steps, k);
      RunKeepsActive(cfg, steps[..k]);
      RunKeepsSecrets(cfg, steps[..k]);
      assert !DisplacesAt(cfg, steps, k);
      StepKeepsActive(cfg, Run(cfg, steps[..k]), steps[k]);
    }
  }

  /**
   Through a whole run every transfer under way belongs to the current session if
   and only if no step of the run displaces a session with a transfer in it.
   */
  lemma KeptExactlyWithoutDisplacement(cfg: Config, steps: seq<Step>)
    ensures (forall n :: 0 <= n <= |steps| ==> ActiveIsCurrent(Run(cfg, steps[..n]))) <==> NeverDisplaces(cfg, steps)
  {
    if NeverDisplaces(cfg, steps) {
      forall n | 0 <= n <= |steps|
        ensures ActiveIsCurrent(Run(cfg, steps[..n]))
      {
        NeverDisplacesBefore(cfg, steps, n);
        RunKeepsActive(cfg, steps[..n]);
      }
    } else {
      var n :| 0 <= n < |steps| && DisplacesAt(cfg, steps, n);
      assert steps[..n + 1][..n] == steps[..n];
      RunKeepsInv(cfg, steps[..n]);
      DisplacingBreaks(cfg, Run(cfg, steps[..n]), steps[n]);
      assert !ActiveIsCurrent(Run(cfg, steps[..n + 1]));
    }
  }

  /**
   Without displacement an outstanding permit keeps its session current until it is
   finished or dropped, so a committed file always finds its session and the
   "invariant violated" exit of the upload handler is never taken.
   */
  lemma PermitKeepsItsSession(cfg: Config, steps: seq<Step>, w: World, u: nat)
    requires w == Run(cfg, steps)
    requires NeverDisplaces(cfg, steps)
    requires u < |w.uploads|
    ensures var me := w.uploads[u];
            && (me.hold.Permit? ==> w.current == Some(me.session))
            && (me.pc.Committed? ==> w.current == Some(me.session) && DoRecord(w, u).uploads[u].pc.Gone?)
            && !(me.pc.Leaving? && me.landed)
  {
    RunKeepsActive(cfg, steps);
    RunKeepsInv(cfg, steps);
    HandlerFacts(w, u);
    if w.uploads[u].hold.Permit? {
      assert !Idle(w.sessions[w.uploads[u].session].slots);
    }
    RunKeepsLand(cfg, steps);
    assert Settled(w, u);
  }
}
