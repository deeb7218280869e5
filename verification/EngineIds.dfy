/**
 Which ids a peer can know, and who is responsible for a reservation that still
 waits for consent (src/server/handlers.rs:57-89, 273-305, 339-352, 886-904).
 */
module EngineIds {
  import opened Options
  import opened Lifecycle
  import opened Engine
  import opened EngineInvariant

  /** A placeholder is never disclosed; an installed session only by its own response. */
  predicate OwnIds(w: World, me: Prepare) {
    && me.reserved < |w.sessions| && me.reserved !in w.disclosed
    && (me.pc.Installed? ==>
          me.pc.session < |w.sessions| && me.pc.session !in w.disclosed && me.pc.session != me.reserved)
  }

  /** Two handlers share no session. */
  predicate Apart(a: Prepare, b: Prepare) {
    && a.reserved != b.reserved
    && (a.pc.Installed? ==> a.pc.session != b.reserved)
    && (b.pc.Installed? ==> b.pc.session != a.reserved)
    && (a.pc.Installed? && b.pc.Installed? ==> a.pc.session != b.pc.session)
  }

  predicate IdsOk(w: World) {
    && (forall s :: s in w.disclosed ==> s < |w.sessions|)
    && (forall p :: 0 <= p < |w.prepares| ==> OwnIds(w, w.prepares[p]))
    && (forall p, q :: 0 <= p < q < |w.prepares| ==> Apart(w.prepares[p], w.prepares[q]))
  }

  /** Handler `p` still has to clear reservation `r`, or its spawned release is pending. */
  predicate Responsible(w: World, p: nat, r: SessionId) {
    && p < |w.prepares|
    && w.prepares[p].reserved == r
    && (w.prepares[p].pc.Deciding? || w.prepares[p].pc.Decided? || r in w.releases)
  }

  ghost predicate AwaitOk(w: World) {
    && (w.awaiting.Some? ==> exists p :: Responsible(w, p, w.awaiting.value.session))
    && (forall r :: r in w.releases ==> exists p :: 0 <= p < |w.prepares| && w.prepares[p].reserved == r)
  }

  predicate NoTransfer(slots: Slots) {
    forall f :: f in slots ==> slots[f].phase.Ready? || slots[f].phase.Cancelled?
  }

  /** Nobody uploads to a session whose tokens were not given out. */
  predicate Untouched(w: World) {
    && (forall u :: 0 <= u < |w.uploads| ==> w.uploads[u].session in w.disclosed)
    && (forall s :: 0 <= s < |w.sessions| && s !in w.disclosed ==> NoTransfer(w.sessions[s].slots))
  }

  ghost predicate Secrets(w: World) {
    IdsOk(w) && AwaitOk(w) && Untouched(w)
  }

  // ---- what a step leaves alone ----

  /** Upload `u` and its session are all that changed, besides the event log and the slot. */
  predicate OnlyUpload(w: World, u: nat, w': World) {
    && w'.prepares == w.prepares && w'.disclosed == w.disclosed
    && w'.awaiting == w.awaiting && w'.releases == w.releases
    && |w'.sessions| == |w.sessions| && |w'.uploads| == |w.uploads|
    && (forall v :: 0 <= v < |w.uploads| ==>
          && w'.uploads[v].session == w.uploads[v].session
          && w'.uploads[v].file == w.uploads[v].file
          && (v != u ==> w'.uploads[v] == w.uploads[v]))
    && (forall s :: 0 <= s < |w.sessions| ==>
          w'.sessions[s] == w.sessions[s] || (u < |w.uploads| && w.uploads[u].session == s))
  }

  lemma DestinationFrame(w: World, u: nat, ok: bool)
    ensures OnlyUpload(w, u, DoCreateDone(w, u, ok))
    ensures OnlyUpload(w, u, DoAbortDone(w, u))
    ensures OnlyUpload(w, u, DoCommitDone(w, u, ok))
    ensures OnlyUpload(w, u, DoLateCommit(w, u, ok))
  {
  }

  lemma BodyFrame(cfg: Config, w: World, u: nat, chunk: Bytes)
    ensures OnlyUpload(w, u, DoWriteChunk(w, u, chunk))
    ensures OnlyUpload(w, u, DoEndBody(cfg, w, u))
  {
  }

  lemma GiveUpFrame(w: World, u: nat)
    ensures OnlyUpload(w, u, DoFailBody(w, u))
    ensures OnlyUpload(w, u, DoObserveCancel(w, u))
  {
  }

  lemma CounterFrame(w: World, u: nat)
    ensures OnlyUpload(w, u, DoReport(w, u))
    ensures OnlyUpload(w, u, DoRollback(w, u))
  {
  }

  lemma TokenFrame(w: World, u: nat)
    ensures OnlyUpload(w, u, DoPublish(w, u))
    ensures OnlyUpload(w, u, DoRecord(w, u))
  {
  }

  lemma ReleasedFrame(w: World, u: nat, upload: Upload)
    requires Known(w, u)
    requires upload.session == w.uploads[u].session && upload.file == w.uploads[u].file
    ensures OnlyUpload(w, u, Released(w, u, upload))
  {
  }

  lemma DropFrame(w: World, u: nat, renaming: bool)
    ensures OnlyUpload(w, u, DoDropHold(w, u))
    ensures OnlyUpload(w, u, DoDropUpload(w, u, renaming))
  {
    if Known(w, u) {
      ReleasedFrame(w, u, w.uploads[u].(pc := Gone));
      ReleasedFrame(w, u, Dropped(w.uploads[u], renaming));
    }
  }

  /** The steps that move the token of an upload. */
  predicate TokenStep(step: Step) {
    step.Publish? || step.Record? || step.DropHold? || step.DropUpload?
  }

  lemma TokenStepFrame(cfg: Config, w: World, step: Step)
    requires TokenStep(step)
    ensures OnlyUpload(w, step.u, Apply(cfg, w, step))
  {
    match step
    case Publish(u) => TokenFrame(w, u);
    case Record(u) => TokenFrame(w, u);
    case DropHold(u) => DropFrame(w, u, false);
    case DropUpload(u, renaming) => DropFrame(w, u, renaming);
  }

  lemma UploadFrame(cfg: Config, w: World, step: Step)
    requires UploadStep(step)
    ensures OnlyUpload(w, step.u, Apply(cfg, w, step))
  {
    match step
    case CreateDone(u, ok) => DestinationFrame(w, u, ok);
    case WriteChunk(u, chunk) => BodyFrame(cfg, w, u, chunk);
    case Report(u) => CounterFrame(w, u);
    case Rollback(u) => CounterFrame(w, u);
    case FailBody(u) => GiveUpFrame(w, u);
    case ObserveCancel(u) => GiveUpFrame(w, u);
    case EndBody(u) => BodyFrame(cfg, w, u, []);
    case AbortDone(u) => DestinationFrame(w, u, true);
    case CommitDone(u, ok) => DestinationFrame(w, u, ok);
    case LateCommit(u, ok) => DestinationFrame(w, u, ok);
    case _ => TokenStepFrame(cfg, w, step);
  }

  /** A step of an upload that does not exist changes nothing. */
  lemma NobodysStep(cfg: Config, w: World, step: Step)
    requires UploadStep(step) && step.u >= |w.uploads|
    ensures Apply(cfg, w, step) == w
  {
  }

  lemma ClaimFrame(w: World, s: SessionId, f: FileId, token: Token)
    ensures var w' := DoClaim(w, s, f, token);
            && w'.prepares == w.prepares && w'.disclosed == w.disclosed
            && w'.awaiting == w.awaiting && w'.releases == w.releases
            && |w'.sessions| == |w.sessions|
            && (forall t :: 0 <= t < |w.sessions| && t != s ==> w'.sessions[t] == w.sessions[t])
            && (w' != w ==> s in w.disclosed && |w'.uploads| == |w.uploads| + 1 &&
                            w'.uploads == w.uploads + [w'.uploads[|w.uploads|]] && w'.uploads[|w.uploads|].session == s)
  {
  }

  lemma ClaimedIsNew(w: World, s: SessionId, f: FileId, token: Token)
    ensures var w' := DoClaim(w, s, f, token);
            w' != w ==>
              && s < |w.sessions| && f in w.sessions[s].files
              && w'.uploads == w.uploads + [Claimant(s, f)]
  {
  }

  lemma CancelFrame(cfg: Config, w: World, step: Step)
    requires CancelStep(step)
    ensures var w' := Apply(cfg, w, step);
            && w'.prepares == w.prepares && w'.disclosed == w.disclosed
            && |w'.sessions| == |w.sessions| && w'.uploads == w.uploads
            && w'.releases <= w.releases
            && (w'.awaiting.None? || w'.awaiting == w.awaiting)
            && (step.Release? && w'.awaiting.Some? ==>
                  w'.awaiting.value.session != step.reserved || w'.releases == w.releases)
            && (w'.releases == w.releases || (step.Release? && w'.releases == w.releases - {step.reserved}))
  {
  }

  // ---- ids ----

  lemma MoveIds(w: World, p: nat, w': World)
    requires IdsOk(w) && p < |w.prepares| && |w'.prepares| == |w.prepares|
    requires w'.prepares == w.prepares[p := w'.prepares[p]] && w'.prepares[p].reserved == w.prepares[p].reserved
    requires |w'.sessions| >= |w.sessions|
    requires w'.prepares[p].pc.Installed? ==> |w.sessions| <= w'.prepares[p].pc.session < |w'.sessions|
    requires w'.disclosed == w.disclosed ||
             (w.prepares[p].pc.Installed? && !w'.prepares[p].pc.Installed? &&
              w'.disclosed == w.disclosed + {w.prepares[p].pc.session})
    ensures IdsOk(w')
  {
  }

  lemma GrowIds(w: World, w': World)
    requires IdsOk(w) && w'.prepares == w.prepares && w'.disclosed == w.disclosed && |w'.sessions| >= |w.sessions|
    ensures IdsOk(w')
  {
  }

  lemma ReserveIds(w: World, peer: Peer, offered: Files, timedOut: bool)
    requires IdsOk(w)
    ensures IdsOk(DoReserve(w, peer, offered, timedOut))
  {
    var w' := DoReserve(w, peer, offered, timedOut);
    if w' != w { NewHandlerIds(w, w', Prepare(Deciding, |w.sessions|, offered)); }
  }

  lemma NewHandlerIds(w: World, w': World, handler: Prepare)
    requires IdsOk(w) && handler.reserved == |w.sessions| < |w'.sessions| && !handler.pc.Installed?
    requires w'.prepares == w.prepares + [handler] && w'.disclosed == w.disclosed
    ensures IdsOk(w')
  {
    forall p | 0 <= p < |w.prepares|
      ensures OwnIds(w', w'.prepares[p]) && Apart(w'.prepares[p], handler)
    {
      assert OwnIds(w, w.prepares[p]);
    }
  }

  lemma HandlerStepKeepsIds(w: World, p: nat, decision: Decision, autoAccept: bool)
    requires IdsOk(w) && p < |w.prepares|
    ensures IdsOk(DoDecide(w, p, decision, autoAccept))
    ensures IdsOk(DoClearConsent(w, p))
    ensures IdsOk(DoDropPrepare(w, p))
  {
    if DoDecide(w, p, decision, autoAccept) != w { MoveIds(w, p, DoDecide(w, p, decision, autoAccept)); }
    if DoClearConsent(w, p) != w { MoveIds(w, p, DoClearConsent(w, p)); }
    if DoDropPrepare(w, p) != w { MoveIds(w, p, DoDropPrepare(w, p)); }
  }

  lemma OutcomeStepKeepsIds(w: World, p: nat)
    requires IdsOk(w) && p < |w.prepares|
    ensures IdsOk(DoResolve(w, p))
    ensures IdsOk(DoDeliverText(w, p))
    ensures IdsOk(DoRespond(w, p))
  {
    if w.prepares[p].pc.Cleared? { MoveIds(w, p, DoResolve(w, p)); }
    if DoDeliverText(w, p) != w { MoveIds(w, p, DoDeliverText(w, p)); }
    if DoRespond(w, p) != w { MoveIds(w, p, DoRespond(w, p)); }
  }

  lemma PrepareStepKeepsIds(cfg: Config, w: World, step: Step)
    requires IdsOk(w) && PrepareStep(step)
    ensures IdsOk(Apply(cfg, w, step))
  {
    match step
    case Reserve(peer, offered, timedOut) => ReserveIds(w, peer, offered, timedOut);
    case Decide(p, d, a) => if p < |w.prepares| { HandlerStepKeepsIds(w, p, d, a); }
    case ClearConsent(p) => if p < |w.prepares| { HandlerStepKeepsIds(w, p, Decline, false); }
    case DropPrepare(p) => if p < |w.prepares| { HandlerStepKeepsIds(w, p, Decline, false); }
    case Resolve(p) => if p < |w.prepares| { OutcomeStepKeepsIds(w, p); }
    case DeliverText(p) => if p < |w.prepares| { OutcomeStepKeepsIds(w, p); }
    case Respond(p) => if p < |w.prepares| { OutcomeStepKeepsIds(w, p); }
  }

  lemma StepKeepsIds(cfg: Config, w: World, step: Step)
    requires IdsOk(w)
    ensures IdsOk(Apply(cfg, w, step))
  {
    if PrepareStep(step) {
      PrepareStepKeepsIds(cfg, w, step);
    } else {
      if CancelStep(step) {
        CancelFrame(cfg, w, step);
      } else if step.Claim? {
        ClaimFrame(w, step.session, step.file, step.token);
      } else {
        UploadFrame(cfg, w, step);
      }
      GrowIds(w, Apply(cfg, w, step));
    }
  }

  // ---- reservations ----

  lemma SameAwait(w: World, w': World)
    requires AwaitOk(w)
    requires w'.prepares == w.prepares && w'.releases <= w.releases
    requires w'.awaiting.None? || w'.awaiting == w.awaiting
    requires forall r :: r in w.releases && r !in w'.releases ==> w'.awaiting.None? || w'.awaiting.value.session != r
    ensures AwaitOk(w')
  {
    if w'.awaiting.Some? {
      var p: nat :| Responsible(w, p, w'.awaiting.value.session);
      assert Responsible(w', p, w'.awaiting.value.session);
    }
  }

  /** Handler `p` moved on: it still answers for its reservation, or cleared it. */
  lemma MoveAwait(w: World, p: nat, w': World)
    requires IdsOk(w) && AwaitOk(w) && p < |w.prepares| && |w'.prepares| == |w.prepares|
    requires w'.prepares == w.prepares[p := w'.prepares[p]] && w'.prepares[p].reserved == w.prepares[p].reserved
    requires w'.releases == w.releases || w'.releases == w.releases + {w.prepares[p].reserved}
    requires w'.awaiting == w.awaiting || w'.awaiting.None?
    requires w'.awaiting.Some? && w'.awaiting.value.session == w.prepares[p].reserved ==>
               (w'.prepares[p].pc.Decided? || w.prepares[p].reserved in w'.releases ||
                (!w.prepares[p].pc.Deciding? && !w.prepares[p].pc.Decided?))
    ensures AwaitOk(w')
  {
    if w'.awaiting.Some? {
      var r := w'.awaiting.value.session;
      var q: nat :| Responsible(w, q, r);
      assert Responsible(w', q, r);
    }
    forall r | r in w'.releases
      ensures exists q :: 0 <= q < |w'.prepares| && w'.prepares[q].reserved == r
    {
      if r in w.releases {
        var q :| 0 <= q < |w.prepares| && w.prepares[q].reserved == r;
        assert w'.prepares[q].reserved == r;
      } else {
        assert w'.prepares[p].reserved == r;
      }
    }
  }

  lemma ReserveAwait(w: World, peer: Peer, offered: Files, timedOut: bool)
    requires AwaitOk(w)
    ensures AwaitOk(DoReserve(w, peer, offered, timedOut))
  {
    var w' := DoReserve(w, peer, offered, timedOut);
    if w' != w {
      assert Responsible(w', |w.prepares|, |w.sessions|);
      forall r | r in w'.releases
        ensures exists q :: 0 <= q < |w'.prepares| && w'.prepares[q].reserved == r
      {
        var q :| 0 <= q < |w.prepares| && w.prepares[q].reserved == r;
        assert w'.prepares[q].reserved == r;
      }
    }
  }

  lemma HandlerStepKeepsAwait(w: World, p: nat, decision: Decision, autoAccept: bool)
    requires IdsOk(w) && AwaitOk(w) && p < |w.prepares|
    ensures AwaitOk(DoDecide(w, p, decision, autoAccept))
    ensures AwaitOk(DoClearConsent(w, p))
    ensures AwaitOk(DoDropPrepare(w, p))
  {
    if DoDecide(w, p, decision, autoAccept) != w { MoveAwait(w, p, DoDecide(w, p, decision, autoAccept)); }
    if DoClearConsent(w, p) != w { MoveAwait(w, p, DoClearConsent(w, p)); }
    if DoDropPrepare(w, p) != w { MoveAwait(w, p, DoDropPrepare(w, p)); }
  }

  lemma OutcomeStepKeepsAwait(w: World, p: nat)
    requires IdsOk(w) && AwaitOk(w) && p < |w.prepares|
    ensures AwaitOk(DoResolve(w, p))
    ensures AwaitOk(DoDeliverText(w, p))
    ensures AwaitOk(DoRespond(w, p))
  {
    if w.prepares[p].pc.Cleared? { MoveAwait(w, p, DoResolve(w, p)); }
    if DoDeliverText(w, p) != w { MoveAwait(w, p, DoDeliverText(w, p)); }
    if DoRespond(w, p) != w { MoveAwait(w, p, DoRespond(w, p)); }
  }

  lemma StepKeepsAwait(cfg: Config, w: World, step: Step)
    requires IdsOk(w) && AwaitOk(w)
    ensures AwaitOk(Apply(cfg, w, step))
  {
    if PrepareStep(step) {
      match step
      case Reserve(peer, offered, timedOut) => ReserveAwait(w, peer, offered, timedOut);
      case Decide(p, d, a) => if p < |w.prepares| { HandlerStepKeepsAwait(w, p, d, a); }
      case ClearConsent(p) => if p < |w.prepares| { HandlerStepKeepsAwait(w, p, Decline, false); }
      case DropPrepare(p) => if p < |w.prepares| { HandlerStepKeepsAwait(w, p, Decline, false); }
      case Resolve(p) => if p < |w.prepares| { OutcomeStepKeepsAwait(w, p); }
      case DeliverText(p) => if p < |w.prepares| { OutcomeStepKeepsAwait(w, p); }
      case Respond(p) => if p < |w.prepares| { OutcomeStepKeepsAwait(w, p); }
    } else {
      if CancelStep(step) {
        CancelFrame(cfg, w, step);
      } else if step.Claim? {
        ClaimFrame(w, step.session, step.file, step.token);
      } else {
        UploadFrame(cfg, w, step);
      }
      SameAwait(w, Apply(cfg, w, step));
    }
  }

  // ---- undisclosed sessions ----

  lemma CancelUntouched(w: World, s: SessionId)
    requires Untouched(w)
    ensures Untouched(CancelSession(w, s))
  {
    if s < |w.sessions| && s !in w.disclosed {
      assert NoTransfer(w.sessions[s].slots);
      assert NoTransfer(TryCancel(w.sessions[s].slots));
    }
  }

  /** Sessions that are still undisclosed were so before with the same slots, or are new. */
  lemma SameUntouched(w: World, w': World)
    requires Untouched(w) && w.disclosed <= w'.disclosed && |w.sessions| <= |w'.sessions|
    requires forall u :: 0 <= u < |w'.uploads| ==> w'.uploads[u].session in w'.disclosed
    requires forall s :: 0 <= s < |w.sessions| && s !in w'.disclosed ==> w'.sessions[s].slots == w.sessions[s].slots
    requires forall s :: |w.sessions| <= s < |w'.sessions| ==> NoTransfer(w'.sessions[s].slots)
    ensures Untouched(w')
  {
  }

  lemma ReleaseKeepsUntouched(w: World, reserved: SessionId, peer: Peer)
    requires Untouched(w)
    ensures Untouched(DoRelease(w, reserved)) && Untouched(DoWithdrawOffer(w, peer))
  {
    CancelUntouched(w, reserved);
    if w.awaiting.Some? { CancelUntouched(w, w.awaiting.value.session); }
  }

  lemma CancelStepKeepsUntouched(cfg: Config, w: World, step: Step)
    requires CancelStep(step) && Untouched(w)
    ensures Untouched(Apply(cfg, w, step))
  {
    if w.current.Some? { CancelUntouched(w, w.current.value); }
    if step.Release? {
      ReleaseKeepsUntouched(w, step.reserved, 0);
    } else if step.WithdrawOffer? {
      ReleaseKeepsUntouched(w, 0, step.peer);
    } else if step.CancelById? {
      CancelUntouched(w, step.session);
    }
  }

  lemma PrepareStepKeepsUntouched(cfg: Config, w: World, step: Step)
    requires PrepareStep(step) && Untouched(w)
    ensures Untouched(Apply(cfg, w, step))
  {
    if w.current.Some? { CancelUntouched(w, w.current.value); }
    if Apply(cfg, w, step) != w && (step.Reserve? || step.Resolve?) {
      SameUntouched(CancelCurrentBlindly(w), Apply(cfg, w, step));
    } else {
      SameUntouched(w, Apply(cfg, w, step));
    }
  }

  lemma StepKeepsUntouched(cfg: Config, w: World, step: Step)
    requires Untouched(w)
    ensures Untouched(Apply(cfg, w, step))
  {
    if PrepareStep(step) {
      PrepareStepKeepsUntouched(cfg, w, step);
    } else if CancelStep(step) {
      CancelStepKeepsUntouched(cfg, w, step);
    } else if step.Claim? {
      ClaimFrame(w, step.session, step.file, step.token);
      SameUntouched(w, Apply(cfg, w, step));
    } else {
      UploadFrame(cfg, w, step);
      SameUntouched(w, Apply(cfg, w, step));
    }
  }

  lemma StepKeepsSecrets(cfg: Config, w: World, step: Step)
    requires Inv(w) && Secrets(w)
    ensures Secrets(Apply(cfg, w, step))
  {
    StepKeepsIds(cfg, w, step);
    StepKeepsAwait(cfg, w, step);
    StepKeepsUntouched(cfg, w, step);
  }

  lemma {:induction false} RunKeepsSecrets(cfg: Config, steps: seq<Step>)
    ensures Inv(Run(cfg, steps)) && Secrets(Run(cfg, steps))
  {
    RunKeepsInv(cfg, steps);
    if steps != [] {
      var before := steps[..|steps| - 1];
      RunKeepsSecrets(cfg, before);
      StepKeepsSecrets(cfg, Run(cfg, before), steps[|steps| - 1]);
    }
  }

  // ---- theorems ----

  /**
   A reservation waits for consent only while its own handler is still to clear it
   or its release is pending; once all handlers and releases are over, none is left.
   */
  lemma NoOrphanedReservation(cfg: Config, steps: seq<Step>, w: World)
    requires w == Run(cfg, steps)
    ensures w.awaiting.Some? ==> exists p :: Responsible(w, p, w.awaiting.value.session)
    ensures w.releases == {} && (forall p :: 0 <= p < |w.prepares| ==> w.prepares[p].pc.Ended?) ==> w.awaiting.None?
  {
    RunKeepsSecrets(cfg, steps);
  }

  /** A release frees the slot only if the slot is held by its own placeholder, and then nothing was in transfer. */
  lemma ReleaseFreesOnlyItsOwn(cfg: Config, steps: seq<Step>, w: World, reserved: SessionId)
    requires w == Run(cfg, steps)
    ensures var w' := DoRelease(w, reserved);
            w'.current != w.current ==>
              w.current == Some(reserved) && reserved < |w.sessions| && NoTransfer(w.sessions[reserved].slots)
  {
    RunKeepsSecrets(cfg, steps);
    if reserved in w.releases {
      var p :| 0 <= p < |w.prepares| && w.prepares[p].reserved == reserved;
      assert reserved !in w.disclosed;
    }
  }
}
