/**
 The event log: every recorded file is announced exactly once, every session is
 closed at most once, and a session closes exactly when its last file is in
 (src/core/session.rs:251-258, src/server/handlers.rs:796-852, 946-962).
 */
module EngineEvents {
  import opened Options
  import opened Lifecycle
  import opened Engine
  import opened EngineInvariant
  import opened EngineCancellation
  import opened EngineIds
  import opened EngineLanding
  import opened EngineKeeping

  predicate Announces(e: Event, s: SessionId, f: FileId) {
    e.FileReceived? && e.session == s && e.file == f
  }

  predicate Pending(w: World, s: SessionId) {
    exists p :: 0 <= p < |w.prepares| && w.prepares[p].pc == Installed(s)
  }

  /** A closed session is no longer current and no message of it is still to be delivered. */
  predicate DoneOk(w: World) {
    && (forall i :: 0 <= i < |w.events| && w.events[i].SessionDone? ==>
          && w.events[i].session < |w.sessions|
          && w.current != Some(w.events[i].session)
          && !Pending(w, w.events[i].session))
    && (forall i, j :: 0 <= i < j < |w.events| && w.events[i].SessionDone? ==> w.events[i] != w.events[j])
  }

  predicate Announced(w: World, s: SessionId, f: FileId) {
    exists i :: 0 <= i < |w.events| && Announces(w.events[i], s, f)
  }

  predicate ReceivedOk(w: World) {
    && (forall i :: 0 <= i < |w.events| && w.events[i].FileReceived? ==>
          w.events[i].session < |w.sessions| && w.events[i].file in w.sessions[w.events[i].session].received)
    && (forall s, f :: 0 <= s < |w.sessions| && f in w.sessions[s].received ==> Announced(w, s, f))
    && (forall i, j :: 0 <= i < j < |w.events| && w.events[i].FileReceived? ==>
          !Announces(w.events[j], w.events[i].session, w.events[i].file))
  }

  // ---- closing ----

  predicate Silent(step: Step) {
    !step.DeliverText? && !step.CancelById? && !step.Record?
  }

  /** What a step that logs nothing does: pending installs are old ones or of new sessions. */
  predicate SilentMove(w: World, w': World) {
    && w'.events == w.events && CurrentMoves(w, w')
    && |w.sessions| <= |w'.sessions|
    && (forall p :: 0 <= p < |w'.prepares| && w'.prepares[p].pc.Installed? ==>
          || w'.prepares[p].pc.session >= |w.sessions|
          || (p < |w.prepares| && w.prepares[p].pc == w'.prepares[p].pc))
  }

  lemma SilentPrepare(cfg: Config, w: World, step: Step)
    requires Silent(step) && PrepareStep(step)
    ensures SilentMove(w, Apply(cfg, w, step))
  {
  }

  lemma SilentCancel(cfg: Config, w: World, step: Step)
    requires Silent(step) && CancelStep(step)
    ensures SilentMove(w, Apply(cfg, w, step))
  {
  }

  lemma SilentUpload(cfg: Config, w: World, step: Step)
    requires Silent(step) && UploadStep(step)
    ensures SilentMove(w, Apply(cfg, w, step))
  {
    UploadFrame(cfg, w, step);
    QuietEvents(cfg, w, step);
  }

  lemma SilentFrame(cfg: Config, w: World, step: Step)
    requires Silent(step)
    ensures SilentMove(w, Apply(cfg, w, step))
  {
    if step.Claim? {
      ClaimFrame(w, step.session, step.file, step.token);
    } else if PrepareStep(step) {
      SilentPrepare(cfg, w, step);
    } else if CancelStep(step) {
      SilentCancel(cfg, w, step);
    } else {
      SilentUpload(cfg, w, step);
    }
  }

  lemma SilentKeepsDone(w: World, w': World)
    requires DoneOk(w) && SilentMove(w, w')
    ensures DoneOk(w')
  {
    forall s: SessionId | s < |w.sessions| && Pending(w', s)
      ensures Pending(w, s)
    {
    }
  }

  lemma QuietEvents(cfg: Config, w: World, step: Step)
    requires UploadStep(step) && !step.Record?
    ensures Apply(cfg, w, step).events == w.events && Apply(cfg, w, step).current == w.current
  {
  }

  /** Closing session `s` at a point where it was not closed yet. */
  lemma CloseOnce(w: World, s: SessionId, w': World)
    requires DoneOk(w) && |w'.sessions| == |w.sessions| && s < |w.sessions|
    requires w.current == Some(s) || Pending(w, s)
    requires w'.current.None? && !Pending(w', s)
    requires forall t :: Pending(w', t) ==> Pending(w, t)
    requires |w.events| <= |w'.events| && w'.events[..|w.events|] == w.events
    requires forall i :: |w.events| <= i < |w'.events| && w'.events[i].SessionDone? ==>
               w'.events[i] == SessionDone(s) && i == |w'.events| - 1
    ensures DoneOk(w')
  {
    forall i | 0 <= i < |w.events|
      ensures w'.events[i] == w.events[i]
    {
      assert w'.events[..|w.events|][i] == w'.events[i];
    }
  }

  lemma PendingAfterEnd(w: World, p: nat, w': World)
    requires IdsOk(w) && p < |w.prepares| && |w'.prepares| == |w.prepares|
    requires w'.prepares == w.prepares[p := w'.prepares[p]] && w'.prepares[p].pc.Ended?
    requires w.prepares[p].pc.Installed?
    ensures !Pending(w', w.prepares[p].pc.session)
    ensures forall t :: Pending(w', t) ==> Pending(w, t)
  {
    forall t | Pending(w', t)
      ensures Pending(w, t)
    {
      var q :| 0 <= q < |w'.prepares| && w'.prepares[q].pc == Installed(t);
      assert w.prepares[q].pc == Installed(t);
    }
  }

  lemma DeliverCloses(w: World, p: nat)
    requires IdsOk(w) && DoneOk(w)
    ensures DoneOk(DoDeliverText(w, p))
  {
    var w' := DoDeliverText(w, p);
    if w' != w {
      assert Pending(w, w.prepares[p].pc.session);
      PendingAfterEnd(w, p, w');
      CloseOnce(w, w.prepares[p].pc.session, w');
    }
  }

  lemma CancelCloses(w: World, peer: Peer, s: SessionId)
    requires IdsOk(w) && DoneOk(w)
    ensures DoneOk(DoCancelById(w, peer, s))
  {
    var w' := DoCancelById(w, peer, s);
    if w' != w {
      assert w'.prepares == w.prepares;
      forall t | Pending(w', t)
        ensures Pending(w, t)
      {
      }
      CloseOnce(w, s, w');
    }
  }

  /** A record leaves the prepares alone, and its session is no pending one. */
  lemma RecordPending(w: World, u: nat)
    requires Inv(w) && Secrets(w) && InPc(w, u, Committed)
    ensures DoRecord(w, u).prepares == w.prepares && |DoRecord(w, u).sessions| == |w.sessions|
    ensures w.uploads[u].session < |w.sessions| && !Pending(w, w.uploads[u].session)
    ensures forall t :: Pending(DoRecord(w, u), t) ==> Pending(w, t)
  {
    HandlerFacts(w, u);
    TokenFrame(w, u);
    assert w.uploads[u].session in w.disclosed;
    forall t | Pending(DoRecord(w, u), t)
      ensures Pending(w, t)
    {
    }
  }

  /** A record of the current session announces its file and may close that session. */
  lemma RecordLogs(w: World, u: nat)
    requires DoneOk(w) && InPc(w, u, Committed) && Known(w, u) && w.current == Some(w.uploads[u].session)
    requires forall t :: Pending(DoRecord(w, u), t) ==> Pending(w, t)
    requires !Pending(w, w.uploads[u].session)
    ensures DoneOk(DoRecord(w, u))
  {
    var w' := DoRecord(w, u);
    assert w'.events[..|w.events|] == w.events;
    if w'.current.None? { CloseOnce(w, w.uploads[u].session, w'); }
  }

  lemma RecordCloses(w: World, u: nat)
    requires Inv(w) && Secrets(w) && DoneOk(w)
    ensures DoneOk(DoRecord(w, u))
  {
    if InPc(w, u, Committed) {
      RecordPending(w, u);
      if w.current == Some(w.uploads[u].session) { RecordLogs(w, u); }
    }
  }

  lemma StepKeepsDone(cfg: Config, w: World, step: Step)
    requires Inv(w) && Secrets(w) && DoneOk(w)
    ensures DoneOk(Apply(cfg, w, step))
  {
    if step.DeliverText? {
      DeliverCloses(w, step.p);
    } else if step.CancelById? {
      CancelCloses(w, step.peer, step.session);
    } else if step.Record? {
      RecordCloses(w, step.u);
    } else {
      SilentFrame(cfg, w, step);
      SilentKeepsDone(w, Apply(cfg, w, step));
    }
  }

  // ---- recording ----

  /** The received sets are as they were, and those of new sessions are empty. */
  predicate SameReceived(w: World, w': World) {
    && |w.sessions| <= |w'.sessions|
    && (forall s :: 0 <= s < |w.sessions| ==> w'.sessions[s].received == w.sessions[s].received)
    && (forall s :: |w.sessions| <= s < |w'.sessions| ==> w'.sessions[s].received == {})
  }

  lemma CancelReceived(cfg: Config, w: World, step: Step)
    requires CancelStep(step) || step.Claim?
    ensures SameReceived(w, Apply(cfg, w, step))
  {
  }

  lemma PrepareReceived(cfg: Config, w: World, step: Step)
    requires PrepareStep(step)
    ensures SameReceived(w, Apply(cfg, w, step))
  {
  }

  lemma CounterReceived(w: World, u: nat)
    ensures SameReceived(w, DoReport(w, u))
    ensures SameReceived(w, DoRollback(w, u))
  {
  }

  lemma TokenReceived(w: World, u: nat, renaming: bool)
    ensures SameReceived(w, DoPublish(w, u))
    ensures SameReceived(w, DoDropHold(w, u))
    ensures SameReceived(w, DoDropUpload(w, u, renaming))
  {
  }

  lemma UploadReceived(cfg: Config, w: World, step: Step)
    requires UploadStep(step) && !step.Record?
    ensures SameReceived(w, Apply(cfg, w, step))
  {
    match step
    case Report(u) => CounterReceived(w, u);
    case Rollback(u) => CounterReceived(w, u);
    case Publish(u) => TokenReceived(w, u, false);
    case DropHold(u) => TokenReceived(w, u, false);
    case DropUpload(u, renaming) => TokenReceived(w, u, renaming);
    case _ => BodyPreserves(cfg, w, step);
  }

  lemma LogFrame(cfg: Config, w: World, step: Step)
    requires !step.Record?
    ensures var w' := Apply(cfg, w, step);
            && |w.events| <= |w'.events|
            && (forall i :: 0 <= i < |w.events| ==> w'.events[i] == w.events[i])
            && (forall i :: |w.events| <= i < |w'.events| ==> !w'.events[i].FileReceived?)
  {
    if UploadStep(step) { QuietEvents(cfg, w, step); }
  }

  lemma SameLog(w: World, w': World)
    requires ReceivedOk(w) && SameReceived(w, w')
    requires |w.events| <= |w'.events|
    requires forall i :: 0 <= i < |w.events| ==> w'.events[i] == w.events[i]
    requires forall i :: |w.events| <= i < |w'.events| ==> !w'.events[i].FileReceived?
    ensures ReceivedOk(w')
  {
    forall s, f | 0 <= s < |w'.sessions| && f in w'.sessions[s].received
      ensures Announced(w', s, f)
    {
      assert Announced(w, s, f);
      var i :| 0 <= i < |w.events| && Announces(w.events[i], s, f);
      assert Announces(w'.events[i], s, f);
    }
  }

  /** One announcement of one new file, possibly followed by the closing of its session. */
  lemma AnnounceOnce(w: World, s: SessionId, f: FileId, w': World)
    requires ReceivedOk(w) && |w'.sessions| == |w.sessions| && s < |w.sessions| && f !in w.sessions[s].received
    requires forall t :: 0 <= t < |w.sessions| ==>
               w'.sessions[t].received == w.sessions[t].received + if t == s then {f} else {}
    requires |w.events| < |w'.events| && Announces(w'.events[|w.events|], s, f)
    requires forall i :: 0 <= i < |w.events| ==> w'.events[i] == w.events[i]
    requires forall i :: |w.events| < i < |w'.events| ==> !w'.events[i].FileReceived?
    ensures ReceivedOk(w')
  {
    forall t, g | 0 <= t < |w'.sessions| && g in w'.sessions[t].received
      ensures Announced(w', t, g)
    {
      if g in w.sessions[t].received {
        assert Announced(w, t, g);
        var i :| 0 <= i < |w.events| && Announces(w.events[i], t, g);
        assert Announces(w'.events[i], t, g);
      }
    }
  }

  lemma RecordReceived(w: World, u: nat)
    requires Inv(w) && ReceivedOk(w)
    ensures ReceivedOk(DoRecord(w, u))
  {
    if InPc(w, u, Committed) {
      HandlerFacts(w, u);
      var me, w' := w.uploads[u], DoRecord(w, u);
      if w.current == Some(me.session) {
        assert w'.events[|w.events|].FileReceived?;
        AnnounceOnce(w, me.session, me.file, w');
      } else {
        SameLog(w, w');
      }
    }
  }

  /** Only a record adds to a received set. */
  lemma StepReceived(cfg: Config, w: World, step: Step)
    requires !step.Record?
    ensures SameReceived(w, Apply(cfg, w, step))
  {
    if UploadStep(step) {
      UploadReceived(cfg, w, step);
    } else if PrepareStep(step) {
      PrepareReceived(cfg, w, step);
    } else {
      CancelReceived(cfg, w, step);
    }
  }

  lemma StepKeepsReceived(cfg: Config, w: World, step: Step)
    requires Inv(w) && ReceivedOk(w)
    ensures ReceivedOk(Apply(cfg, w, step))
  {
    if step.Record? {
      RecordReceived(w, step.u);
    } else {
      StepReceived(cfg, w, step);
      LogFrame(cfg, w, step);
      SameLog(w, Apply(cfg, w, step));
    }
  }

  lemma {:induction false} RunKeepsEvents(cfg: Config, steps: seq<Step>)
    ensures DoneOk(Run(cfg, steps)) && ReceivedOk(Run(cfg, steps))
  {
    if steps != [] {
      var before := steps[..|steps| - 1];
      RunKeepsEvents(cfg, before);
      RunKeepsSecrets(cfg, before);
      StepKeepsDone(cfg, Run(cfg, before), steps[|steps| - 1]);
      StepKeepsReceived(cfg, Run(cfg, before), steps[|steps| - 1]);
    }
  }

  // ---- theorems ----

  /** Received sets are the Published slots, and each of them was announced exactly once. */
  lemma ReceivedExactly(cfg: Config, steps: seq<Step>, w: World, s: SessionId, f: FileId)
    requires w == Run(cfg, steps)
    requires s < |w.sessions|
    ensures f in w.sessions[s].received <==> At(w.sessions[s].slots, f, Published)
    ensures f in w.sessions[s].received <==> exists i :: 0 <= i < |w.events| && Announces(w.events[i], s, f)
    ensures forall i, j :: 0 <= i < j < |w.events| && Announces(w.events[i], s, f) ==> !Announces(w.events[j], s, f)
  {
    RunKeepsInv(cfg, steps);
    RunKeepsEvents(cfg, steps);
    assert SessionOk(w.sessions[s]);
    assert f in w.sessions[s].received ==> Announced(w, s, f);
  }

  lemma ClosedAtMostOnce(cfg: Config, steps: seq<Step>, w: World, s: SessionId)
    requires w == Run(cfg, steps)
    ensures forall i, j :: 0 <= i < j < |w.events| && w.events[i] == SessionDone(s) ==> w.events[j] != SessionDone(s)
    ensures SessionDone(s) in w.events ==> s < |w.sessions| && w.current != Some(s)
  {
    RunKeepsEvents(cfg, steps);
  }

  /**
   Recording a committed file of the current session closes the session, with its
   `SessionDone`, exactly when every accepted file is Published.
   */
  lemma CompletionIsExact(cfg: Config, steps: seq<Step>, w: World, u: nat)
    requires w == Run(cfg, steps)
    requires InPc(w, u, Committed)
    requires w.current == Some(w.uploads[u].session)
    ensures var s := w.uploads[u].session; var w' := DoRecord(w, u);
            && s < |w'.sessions|
            && var complete := forall f :: f in w'.sessions[s].files ==> At(w'.sessions[s].slots, f, Published);
               && (w'.current.None? <==> complete)
               && (SessionDone(s) in w'.events <==> complete)
               && (!complete ==> w'.current == Some(s))
  {
    RunKeepsInv(cfg, steps);
    RunKeepsEvents(cfg, steps);
    HandlerFacts(w, u);
    var me := w.uploads[u];
    var s1 := Recorded(w.sessions[me.session], me.file);
    RecordedOk(w.sessions[me.session], me.file);
    CompleteMeansPublished(s1);
    assert DoRecord(w, u).sessions[me.session] == s1;
    assert SessionDone(me.session) !in w.events;
  }
}
