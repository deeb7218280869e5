/**
 Who owns a slot, which phases are final, and what one cancellation does
 (src/core/session.rs, and the four callers that honour the answer of
 `try_cancel_receives`).
 */
module EngineCancellation {
  import opened Options
  import opened Lifecycle
  import opened Engine
  import opened EngineInvariant

  // ---- one owner per slot ----

  predicate HasLease(w: World, u: nat, s: SessionId, f: FileId) {
    Owns(w, u, s, f) && w.uploads[u].hold.Lease?
  }

  predicate HasPermit(w: World, u: nat, s: SessionId, f: FileId) {
    Owns(w, u, s, f) && w.uploads[u].hold.Permit?
  }

  /**
   A slot is Publishing exactly when an armed permit for it exists, and Receiving
   exactly when an armed lease for it exists and it was not cancelled meanwhile.
   At most one handler owns a token for a slot.
   */
  lemma SlotsHaveOneOwner(cfg: Config, steps: seq<Step>, w: World, s: SessionId, f: FileId)
    requires w == Run(cfg, steps)
    requires s < |w.sessions| && f in w.sessions[s].slots
    ensures var phase := w.sessions[s].slots[f].phase;
            && (phase.Publishing? <==> exists u :: HasPermit(w, u, s, f))
            && (phase.Receiving? <==> !phase.Cancelled? && exists u :: HasLease(w, u, s, f))
            && (forall u, v :: Owns(w, u, s, f) && Owns(w, v, s, f) ==> u == v)
  {
    RunKeepsInv(cfg, steps);
    forall u: nat | Owns(w, u, s, f)
      ensures TokenMatches(w.uploads[u].hold, w.sessions[s].slots[f].phase)
    {
      assert Known(w, u);
    }
    if Active(w.sessions[s].slots[f].phase) {
      var u :| Owns(w, u, s, f);
      assert HasLease(w, u, s, f) || HasPermit(w, u, s, f);
    }
  }

  // ---- final phases ----

  /** Sessions stay, with the files they were built from, and final phases stay final. */
  predicate Preserves(w: World, w': World) {
    && |w.sessions| <= |w'.sessions|
    && forall s :: 0 <= s < |w.sessions| ==>
         && w'.sessions[s].files == w.sessions[s].files
         && KeepsTerminal(w.sessions[s].slots, w'.sessions[s].slots)
  }

  lemma CancelPreserves(w: World, s: SessionId)
    requires Inv(w)
    ensures Preserves(w, CancelSession(w, s))
  {
    if s < |w.sessions| {
      assert SessionOk(w.sessions[s]);
      TryCancelOutcome(w.sessions[s].slots);
    }
  }

  /** Only the slot table of session `s` was touched, and no final phase in it. */
  lemma SlotsPreserve(w: World, w': World, s: SessionId)
    requires Inv(w)
    requires |w'.sessions| == |w.sessions|
    requires forall t :: 0 <= t < |w.sessions| && t != s ==>
               w'.sessions[t].files == w.sessions[t].files && w'.sessions[t].slots == w.sessions[t].slots
    requires s < |w.sessions| ==>
               w'.sessions[s].files == w.sessions[s].files && KeepsTerminal(w.sessions[s].slots, w'.sessions[s].slots)
    ensures Preserves(w, w')
  {
  }

  lemma PublishPreserves(w: World, u: nat)
    requires Inv(w) && u < |w.uploads|
    ensures Preserves(w, DoPublish(w, u))
  {
    HandlerFacts(w, u);
    SlotsPreserve(w, DoPublish(w, u), w.uploads[u].session);
  }

  lemma RecordPreserves(w: World, u: nat)
    requires Inv(w) && u < |w.uploads|
    ensures Preserves(w, DoRecord(w, u))
  {
    HandlerFacts(w, u);
    var me, w' := w.uploads[u], DoRecord(w, u);
    if InPc(w, u, Committed) && w.current == Some(me.session) {
      var slots := w.sessions[me.session].slots;
      assert w'.sessions == w.sessions[me.session := w'.sessions[me.session]];
      assert w'.sessions[me.session].slots == FinishPermit(slots, me.file) && At(slots, me.file, Publishing);
      SlotsPreserve(w, w', me.session);
    }
  }

  lemma ReleasedPreserves(w: World, u: nat, upload: Upload)
    requires Inv(w) && u < |w.uploads| && Known(w, u)
    ensures Preserves(w, Released(w, u, upload))
  {
    HandlerFacts(w, u);
    SlotsPreserve(w, Released(w, u, upload), w.uploads[u].session);
  }

  lemma HoldStepPreserves(w: World, u: nat, renaming: bool)
    requires Inv(w) && u < |w.uploads|
    ensures Preserves(w, DoDropHold(w, u))
    ensures Preserves(w, DoDropUpload(w, u, renaming))
  {
    HandlerFacts(w, u);
    ReleasedPreserves(w, u, w.uploads[u].(pc := Gone));
    ReleasedPreserves(w, u, Dropped(w.uploads[u], renaming));
  }

  lemma ClaimPreserves(w: World, s: SessionId, f: FileId, token: Token)
    requires Inv(w)
    ensures Preserves(w, DoClaim(w, s, f, token))
  {
    SlotsPreserve(w, DoClaim(w, s, f, token), s);
  }

  lemma ReleasePreserves(w: World, reserved: SessionId)
    requires Inv(w)
    ensures Preserves(w, DoRelease(w, reserved))
  {
    CancelPreserves(w, reserved);
  }

  lemma WithdrawPreserves(w: World, peer: Peer)
    requires Inv(w)
    ensures Preserves(w, DoWithdrawOffer(w, peer))
  {
    if w.awaiting.Some? { CancelPreserves(w, w.awaiting.value.session); }
  }

  lemma NamedPreserves(w: World, peer: Peer, s: SessionId)
    requires Inv(w)
    ensures Preserves(w, DoCancelById(w, peer, s))
  {
    CancelPreserves(w, s);
  }

  lemma PrepareStepPreserves(w: World, p: nat, peer: Peer, offered: Files, timedOut: bool)
    requires Inv(w)
    ensures Preserves(w, DoReserve(w, peer, offered, timedOut))
    ensures Preserves(w, DoResolve(w, p))
    ensures Preserves(w, DoSweep(w, timedOut))
  {
    if w.current.Some? { CancelPreserves(w, w.current.value); }
  }

  /** The steps that leave every slot table alone. */
  predicate Quiet(step: Step) {
    || step.Decide? || step.ClearConsent? || step.DeliverText? || step.Respond? || step.DropPrepare?
    || step.CreateDone? || step.WriteChunk? || step.Report? || step.FailBody? || step.ObserveCancel?
    || step.EndBody? || step.Rollback? || step.AbortDone? || step.CommitDone? || step.LateCommit?
  }

  predicate SameSlots(w: World, w': World) {
    && |w'.sessions| == |w.sessions|
    && forall s :: 0 <= s < |w.sessions| ==>
         w'.sessions[s].files == w.sessions[s].files && w'.sessions[s].slots == w.sessions[s].slots
  }

  lemma CounterPreserves(w: World, u: nat)
    ensures SameSlots(w, DoReport(w, u))
    ensures SameSlots(w, DoRollback(w, u))
  {
  }

  lemma BodyPreserves(cfg: Config, w: World, step: Step)
    requires Quiet(step) && !step.Report? && !step.Rollback?
    ensures Apply(cfg, w, step).sessions == w.sessions
  {
  }

  lemma QuietStepPreserves(cfg: Config, w: World, step: Step)
    requires Quiet(step)
    ensures SameSlots(w, Apply(cfg, w, step))
  {
    match step
    case Report(u) => CounterPreserves(w, u);
    case Rollback(u) => CounterPreserves(w, u);
    case _ => BodyPreserves(cfg, w, step);
  }

  /** The steps that cancel the receives of a session, or may. */
  predicate Cancelling(step: Step) {
    step.Reserve? || step.Resolve? || CancelStep(step)
  }

  lemma CancellingPreserves(cfg: Config, w: World, step: Step)
    requires Inv(w) && Cancelling(step)
    ensures Preserves(w, Apply(cfg, w, step))
  {
    match step
    case Reserve(peer, offered, timedOut) => PrepareStepPreserves(w, 0, peer, offered, timedOut);
    case Resolve(p) => PrepareStepPreserves(w, p, 0, map[], false);
    case Sweep(timedOut) => PrepareStepPreserves(w, 0, 0, map[], timedOut);
    case Stop => PrepareStepPreserves(w, 0, 0, map[], true);
    case Release(reserved) => ReleasePreserves(w, reserved);
    case WithdrawOffer(peer) => WithdrawPreserves(w, peer);
    case CancelById(peer, s) => NamedPreserves(w, peer, s);
  }

  lemma TokenStepPreserves(cfg: Config, w: World, step: Step)
    requires Inv(w) && !Cancelling(step) && !Quiet(step)
    ensures Preserves(w, Apply(cfg, w, step))
  {
    match step
    case Claim(s, f, token) => ClaimPreserves(w, s, f, token);
    case Publish(u) => if u < |w.uploads| { PublishPreserves(w, u); }
    case Record(u) => if u < |w.uploads| { RecordPreserves(w, u); }
    case DropHold(u) => if u < |w.uploads| { HoldStepPreserves(w, u, false); }
    case DropUpload(u, renaming) => if u < |w.uploads| { HoldStepPreserves(w, u, renaming); }
  }

  lemma StepPreserves(cfg: Config, w: World, step: Step)
    requires Inv(w)
    ensures Preserves(w, Apply(cfg, w, step))
  {
    if Cancelling(step) {
      CancellingPreserves(cfg, w, step);
    } else if Quiet(step) {
      QuietStepPreserves(cfg, w, step);
    } else {
      TokenStepPreserves(cfg, w, step);
    }
  }

  lemma {:induction false} RunPreserves(cfg: Config, steps: seq<Step>, n: nat)
    requires n <= |steps|
    ensures Preserves(Run(cfg, steps[..n]), Run(cfg, steps))
    decreases |steps| - n
  {
    if n == |steps| {
      assert steps[..n] == steps;
    } else {
      RunKeepsInv(cfg, steps[..n]);
      StepPreserves(cfg, Run(cfg, steps[..n]), steps[n]);
      assert steps[..n + 1][..n] == steps[..n];
      RunPreserves(cfg, steps, n + 1);
      PreservesTrans(Run(cfg, steps[..n]), Run(cfg, steps[..n + 1]), Run(cfg, steps));
    }
  }

  lemma PreservesTrans(w0: World, w1: World, w2: World)
    requires Preserves(w0, w1) && Preserves(w1, w2)
    ensures Preserves(w0, w2)
  {
    forall s | 0 <= s < |w0.sessions|
      ensures w2.sessions[s].files == w0.sessions[s].files && KeepsTerminal(w0.sessions[s].slots, w2.sessions[s].slots)
    {
      assert w1.sessions[s].files == w0.sessions[s].files;
    }
  }

  // ---- cancellation against publication ----

  /** The step asks session `s` to cancel its receives and honours the answer. */
  predicate AsksToCancel(w: World, step: Step, s: SessionId) {
    && w.current == Some(s)
    && match step
       case CancelById(peer, id) => id == s && s in w.disclosed && (w.currentFrom.Some? ==> w.currentFrom == Some(peer))
       case Reserve(_, offered, timedOut) => offered != map[] && timedOut
       case Sweep(timedOut) => timedOut
       case Stop => true
       case _ => false
  }

  predicate Closed(w: World, s: SessionId) {
    s < |w.sessions| && AllTerminal(w.sessions[s].slots)
  }

  predicate StartsPublication(w: World, step: Step, s: SessionId) {
    && step.Publish?
    && InPc(w, step.u, Validated) && Known(w, step.u)
    && w.uploads[step.u].session == s
    && At(w.sessions[s].slots, w.uploads[step.u].file, Receiving)
  }

  predicate Lands(w: World, step: Step, s: SessionId) {
    && ((step.CommitDone? && step.ok && InPc(w, step.u, Committing)) ||
        (step.LateCommit? && step.ok && InPc(w, step.u, Orphaned)))
    && w.uploads[step.u].session == s
  }

  /** The asked session either closes and loses the slot, or nothing at all changes. */
  lemma CancelOutcome(cfg: Config, w: World, step: Step, s: SessionId)
    requires Inv(w) && AsksToCancel(w, step, s)
    ensures Cancellable(w, s) ==> Closed(Apply(cfg, w, step), s) && Apply(cfg, w, step).current != Some(s)
    ensures !Cancellable(w, s) ==> Apply(cfg, w, step) == w
  {
    assert SessionOk(w.sessions[s]);
    TryCancelOutcome(w.sessions[s].slots);
  }

  lemma ClosedNeverPublishes(w: World, step: Step, s: SessionId)
    requires Inv(w) && Closed(w, s)
    ensures !StartsPublication(w, step, s) && (Lands(w, step, s) ==> step.LateCommit?)
  {
    if (step.Publish? || step.CommitDone?) && step.u < |w.uploads| {
      HandlerFacts(w, step.u);
    }
  }
}
