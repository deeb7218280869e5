/**
 What every reachable world of the receive engine satisfies: session tables are
 coherent, handlers hold the token their program counter says, and a slot is
 owned by at most one handler.
 */
module EngineInvariant {
  import opened Options
  import opened Lifecycle
  import opened Engine

  predicate SessionOk(s: Session) {
    && s.slots.Keys == s.files.Keys
    && TokensAgree(s.slots)
    && s.received == set f | f in s.slots && s.slots[f].phase.Published?
  }

  /** The token and the byte count a handler has at each program point. */
  predicate UploadOk(u: Upload) {
    && (u.lost ==> u.landed && u.pc.Gone?)
    && match u.pc
       case Creating => u.hold.Lease? && u.chunks == [] && u.reported == 0 && !u.landed
       case Streaming => u.hold.Lease? && u.reported <= |Body(u)| && !u.landed
       case Validated => u.hold.Lease? && u.reported == |Body(u)| && !u.landed
       case RollingBack(amount) => amount == u.reported && !u.landed
       case Aborting => !u.hold.Permit? && u.reported == 0 && !u.landed
       case Committing => u.hold.Permit? && u.reported == |Body(u)| && !u.landed
       case Committed => u.hold.Permit? && u.reported == |Body(u)| && u.landed
       case Leaving => if u.landed then u.hold.Permit? && u.reported == |Body(u)| else u.reported == 0
       case Orphaned => u.hold.NoHold? && u.reported == |Body(u)| && !u.landed
       case Gone => u.hold.NoHold?
  }

  predicate WellFormed(w: World) {
    && (w.current.Some? ==> w.current.value < |w.sessions|)
    && (forall s :: 0 <= s < |w.sessions| ==> SessionOk(w.sessions[s]))
    && (forall u :: 0 <= u < |w.uploads| ==> Known(w, u) && UploadOk(w.uploads[u]))
  }

  predicate Owns(w: World, u: nat, s: SessionId, f: FileId) {
    && u < |w.uploads|
    && !w.uploads[u].hold.NoHold?
    && w.uploads[u].session == s
    && w.uploads[u].file == f
  }

  predicate TokenMatches(hold: Hold, phase: Phase) {
    match hold
    case NoHold => true
    case Lease => phase.Receiving? || phase.Cancelled?
    case Permit => phase.Publishing?
  }

  ghost predicate Ownership(w: World)
    requires WellFormed(w)
  {
    && (forall u :: 0 <= u < |w.uploads| ==> TokenMatches(w.uploads[u].hold, SlotOf(w, u).phase))
    && (forall u, v, s, f :: Owns(w, u, s, f) && Owns(w, v, s, f) ==> u == v)
    && (forall s, f :: 0 <= s < |w.sessions| && f in w.sessions[s].slots && Active(w.sessions[s].slots[f].phase) ==>
          exists u :: Owns(w, u, s, f))
  }

  ghost predicate Inv(w: World) {
    WellFormed(w) && Ownership(w)
  }

  lemma HandlerFacts(w: World, u: nat)
    requires Inv(w) && u < |w.uploads|
    ensures Known(w, u) && UploadOk(w.uploads[u]) && SessionOk(w.sessions[w.uploads[u].session])
    ensures TokenMatches(w.uploads[u].hold, SlotOf(w, u).phase)
  {
  }

  lemma FlattenAppend(chunks: seq<Bytes>, chunk: Bytes)
    ensures Flatten(chunks + [chunk]) == Flatten(chunks) + chunk
  {
    assert (chunks + [chunk])[..|chunks|] == chunks;
  }

  // ---- shapes of a step ----

  /** Nothing the invariant speaks of changed. */
  lemma SameCore(w: World, w': World)
    requires Inv(w)
    requires w'.sessions == w.sessions && w'.uploads == w.uploads
    requires w'.current.Some? ==> w'.current.value < |w.sessions|
    ensures Inv(w')
  {
    forall u | 0 <= u < |w'.uploads|
      ensures Known(w', u) && UploadOk(w'.uploads[u]) && TokenMatches(w'.uploads[u].hold, SlotOf(w', u).phase)
    {
      assert Known(w, u);
    }
    forall s, f | 0 <= s < |w'.sessions| && f in w'.sessions[s].slots && Active(w'.sessions[s].slots[f].phase)
      ensures exists u :: Owns(w', u, s, f)
    {
      var u :| Owns(w, u, s, f);
      assert Owns(w', u, s, f);
    }
    forall u: nat, v: nat, s, f | Owns(w', u, s, f) && Owns(w', v, s, f)
      ensures u == v
    {
      assert Owns(w, u, s, f) && Owns(w, v, s, f);
    }
  }

  lemma CancelKeepsInv(w: World, s: SessionId)
    requires Inv(w)
    ensures Inv(CancelSession(w, s))
  {
    if s < |w.sessions| {
      var w' := CancelSession(w, s);
      var slots := w.sessions[s].slots;
      TryCancelOutcome(slots);
      forall u | 0 <= u < |w'.uploads|
        ensures Known(w', u) && TokenMatches(w'.uploads[u].hold, SlotOf(w', u).phase)
      {
        assert Known(w, u);
        if !AnyPublishing(slots) && w.uploads[u].session == s && w.uploads[u].hold.Permit? {
          assert At(slots, w.uploads[u].file, Publishing);
        }
      }
      OwnersKept(w, w');
    }
  }

  /** Slots that are active afterwards were active before, and the handlers are the same. */
  lemma OwnersKept(w: World, w': World)
    requires Inv(w)
    requires w'.uploads == w.uploads
    requires |w'.sessions| >= |w.sessions|
    requires forall s, f ::
               0 <= s < |w'.sessions| && f in w'.sessions[s].slots && Active(w'.sessions[s].slots[f].phase) ==>
               s < |w.sessions| && f in w.sessions[s].slots && Active(w.sessions[s].slots[f].phase)
    ensures forall u, v, s, f :: Owns(w', u, s, f) && Owns(w', v, s, f) ==> u == v
    ensures forall s, f ::
              0 <= s < |w'.sessions| && f in w'.sessions[s].slots && Active(w'.sessions[s].slots[f].phase) ==>
              exists u :: Owns(w', u, s, f)
  {
    forall u: nat, v: nat, s, f | Owns(w', u, s, f) && Owns(w', v, s, f)
      ensures u == v
    {
      assert Owns(w, u, s, f) && Owns(w, v, s, f);
    }
    forall s, f | 0 <= s < |w'.sessions| && f in w'.sessions[s].slots && Active(w'.sessions[s].slots[f].phase)
      ensures exists u :: Owns(w', u, s, f)
    {
      var u :| Owns(w, u, s, f);
      assert Owns(w', u, s, f);
    }
  }

  lemma AddSessionKeepsInv(w: World, files: Files)
    requires Inv(w)
    ensures Inv(AddSession(w, files))
  {
    var w' := AddSession(w, files);
    assert forall s :: 0 <= s < |w.sessions| ==> w'.sessions[s] == w.sessions[s];
    assert SessionOk(NewSession(files));
    forall u | 0 <= u < |w'.uploads|
      ensures Known(w', u) && TokenMatches(w'.uploads[u].hold, SlotOf(w', u).phase)
    {
      assert Known(w, u);
    }
    OwnersKept(w, w');
  }

  /** One handler moved on, keeping its slot and its token; its session may have changed its counter. */
  predicate Moved(w: World, u: nat, w': World) {
    && u < |w.uploads| == |w'.uploads|
    && w'.uploads == w.uploads[u := w'.uploads[u]]
    && w'.uploads[u].session == w.uploads[u].session
    && w'.uploads[u].file == w.uploads[u].file
    && w'.current == w.current
    && |w'.sessions| == |w.sessions|
    && forall s :: 0 <= s < |w.sessions| ==>
         w'.sessions[s] == w.sessions[s].(receivedBytes := w'.sessions[s].receivedBytes)
  }

  lemma MoveKeepsInv(w: World, u: nat, w': World)
    requires Inv(w) && Moved(w, u, w')
    requires w'.uploads[u].hold == w.uploads[u].hold && UploadOk(w'.uploads[u])
    ensures Inv(w')
  {
    forall v | 0 <= v < |w'.uploads|
      ensures Known(w', v) && UploadOk(w'.uploads[v]) && TokenMatches(w'.uploads[v].hold, SlotOf(w', v).phase)
    {
      assert Known(w, v);
    }
    forall v: nat, x: nat, s, f | Owns(w', v, s, f) && Owns(w', x, s, f)
      ensures v == x
    {
      assert Owns(w, v, s, f) && Owns(w, x, s, f);
    }
    forall s, f | 0 <= s < |w'.sessions| && f in w'.sessions[s].slots && Active(w'.sessions[s].slots[f].phase)
      ensures exists v :: Owns(w', v, s, f)
    {
      var v :| Owns(w, v, s, f);
      assert Owns(w', v, s, f);
    }
  }

  /** The owner of a slot and the slot itself changed together. */
  predicate Handed(w: World, u: nat, w': World) {
    && Known(w, u)
    && |w'.uploads| == |w.uploads|
    && w'.uploads == w.uploads[u := w'.uploads[u]]
    && w'.uploads[u].session == w.uploads[u].session
    && w'.uploads[u].file == w.uploads[u].file
    && |w'.sessions| == |w.sessions|
    && w'.sessions == w.sessions[w.uploads[u].session := w'.sessions[w.uploads[u].session]]
    && var s, s', f := w.sessions[w.uploads[u].session], w'.sessions[w.uploads[u].session], w.uploads[u].file;
       && s'.files == s.files
       && f in s'.slots
       && s'.slots == s.slots[f := s'.slots[f]]
  }

  lemma HandKeepsInv(w: World, u: nat, w': World)
    requires Inv(w) && Handed(w, u, w') && !w.uploads[u].hold.NoHold?
    requires w'.current.Some? ==> w'.current.value < |w.sessions|
    requires UploadOk(w'.uploads[u]) && SessionOk(w'.sessions[w.uploads[u].session])
    requires var phase := w'.sessions[w.uploads[u].session].slots[w.uploads[u].file].phase;
             TokenMatches(w'.uploads[u].hold, phase) && (Active(phase) ==> !w'.uploads[u].hold.NoHold?)
    ensures Inv(w')
  {
    var me := w.uploads[u];
    assert Owns(w, u, me.session, me.file);
    forall v | 0 <= v < |w'.uploads|
      ensures Known(w', v) && UploadOk(w'.uploads[v]) && TokenMatches(w'.uploads[v].hold, SlotOf(w', v).phase)
    {
      assert Known(w, v);
      assert Owns(w, v, me.session, me.file) ==> v == u;
    }
    forall v: nat, x: nat, s, f | Owns(w', v, s, f) && Owns(w', x, s, f)
      ensures v == x
    {
      assert Owns(w, v, s, f) && Owns(w, x, s, f);
    }
    forall s, f | 0 <= s < |w'.sessions| && f in w'.sessions[s].slots && Active(w'.sessions[s].slots[f].phase)
      ensures exists v :: Owns(w', v, s, f)
    {
      if s == me.session && f == me.file {
        assert Owns(w', u, s, f);
      } else {
        var v :| Owns(w, v, s, f);
        assert Owns(w', v, s, f);
      }
    }
  }

  // ---- prepare, cancel, sweep ----

  lemma ReserveKeepsInv(w: World, peer: Peer, offered: Files, timedOut: bool)
    requires Inv(w)
    ensures Inv(DoReserve(w, peer, offered, timedOut))
  {
    var w1 := CancelCurrentBlindly(w);
    if w.current.Some? { CancelKeepsInv(w, w.current.value); }
    AddSessionKeepsInv(w1, offered);
    if offered != map[] && CanReserve(w, timedOut) {
      SameCore(AddSession(w1, offered), DoReserve(w, peer, offered, timedOut));
    }
  }

  lemma ResolveKeepsInv(w: World, p: nat)
    requires Inv(w)
    ensures Inv(DoResolve(w, p))
  {
    if p < |w.prepares| && w.prepares[p].pc.Cleared? {
      var me := w.prepares[p];
      var ids := AcceptedIds(me.pc.decision, me.offered);
      var w1 := CancelCurrentBlindly(w);
      if w.current.Some? { CancelKeepsInv(w, w.current.value); }
      if ids == {} {
        SameCore(w1, DoResolve(w, p));
      } else {
        AddSessionKeepsInv(w1, Restrict(me.offered, ids));
        SameCore(AddSession(w1, Restrict(me.offered, ids)), DoResolve(w, p));
      }
    }
  }

  lemma ReleaseKeepsInv(w: World, reserved: SessionId)
    requires Inv(w)
    ensures Inv(DoRelease(w, reserved))
  {
    CancelKeepsInv(w, reserved);
    if w.current == Some(reserved) && DoRelease(w, reserved).current.None? {
      SameCore(CancelSession(w, reserved), DoRelease(w, reserved));
    } else {
      SameCore(w, DoRelease(w, reserved));
    }
  }

  lemma WithdrawKeepsInv(w: World, peer: Peer)
    requires Inv(w)
    ensures Inv(DoWithdrawOffer(w, peer))
  {
    var w' := DoWithdrawOffer(w, peer);
    if w.awaiting.Some? && w.awaiting.value.from == peer && w.current == Some(w.awaiting.value.session) {
      CancelKeepsInv(w, w.awaiting.value.session);
      SameCore(CancelSession(w, w.awaiting.value.session), w');
    } else {
      SameCore(w, w');
    }
  }

  lemma CancelNamedKeepsInv(w: World, peer: Peer, s: SessionId)
    requires Inv(w)
    ensures Inv(DoCancelNamed(w, peer, s))
  {
    if DoCancelNamed(w, peer, s) != w {
      CancelKeepsInv(w, s);
      SameCore(CancelSession(w, s), DoCancelNamed(w, peer, s));
    }
  }

  lemma SweepKeepsInv(w: World, timedOut: bool)
    requires Inv(w)
    ensures Inv(DoSweep(w, timedOut))
  {
    if w.current.Some? && timedOut && Cancellable(w, w.current.value) {
      CancelKeepsInv(w, w.current.value);
      SameCore(CancelSession(w, w.current.value), DoSweep(w, timedOut));
    }
  }

  // ---- upload ----

  /** The world with slot `f` of session `s` claimed by a new upload. */
  predicate ClaimedBy(w: World, s: SessionId, f: FileId, w': World) {
    && s < |w.sessions| && f in w.sessions[s].files && At(w.sessions[s].slots, f, Ready)
    && w' == WithSlots(w, s, WithPhase(w.sessions[s].slots, f, Receiving)).(
               uploads := w.uploads + [Upload(Creating, Lease, s, f, [], 0, false, false)])
  }

  lemma ClaimHandlers(w: World, s: SessionId, f: FileId, w': World)
    requires Inv(w) && ClaimedBy(w, s, f, w')
    ensures WellFormed(w')
    ensures forall u :: 0 <= u < |w'.uploads| ==> TokenMatches(w'.uploads[u].hold, SlotOf(w', u).phase)
  {
    assert SessionOk(w.sessions[s]);
    forall v | 0 <= v < |w'.uploads|
      ensures Known(w', v) && UploadOk(w'.uploads[v]) && TokenMatches(w'.uploads[v].hold, SlotOf(w', v).phase)
    {
      if v < |w.uploads| { HandlerFacts(w, v); }
    }
  }

  lemma ClaimOwners(w: World, s: SessionId, f: FileId, w': World)
    requires Inv(w) && ClaimedBy(w, s, f, w')
    ensures forall u, v, t, g :: Owns(w', u, t, g) && Owns(w', v, t, g) ==> u == v
    ensures forall t, g ::
              0 <= t < |w'.sessions| && g in w'.sessions[t].slots && Active(w'.sessions[t].slots[g].phase) ==>
              exists u :: Owns(w', u, t, g)
  {
    var n := |w.uploads|;
    forall v: nat, x: nat, t, g | Owns(w', v, t, g) && Owns(w', x, t, g)
      ensures v == x
    {
      assert v < n ==> Owns(w, v, t, g) && TokenMatches(w.uploads[v].hold, SlotOf(w, v).phase);
      assert x < n ==> Owns(w, x, t, g) && TokenMatches(w.uploads[x].hold, SlotOf(w, x).phase);
    }
    forall t, g | 0 <= t < |w'.sessions| && g in w'.sessions[t].slots && Active(w'.sessions[t].slots[g].phase)
      ensures exists v :: Owns(w', v, t, g)
    {
      if t == s && g == f {
        assert Owns(w', n, t, g);
      } else {
        var v :| Owns(w, v, t, g);
        assert Owns(w', v, t, g);
      }
    }
  }

  lemma ClaimKeepsInv(w: World, s: SessionId, f: FileId, token: Token)
    requires Inv(w)
    ensures Inv(DoClaimWith(w, s, f, token)) && Inv(DoClaim(w, s, f, token))
  {
    var w' := DoClaimWith(w, s, f, token);
    if w' != w {
      ClaimHandlers(w, s, f, w');
      ClaimOwners(w, s, f, w');
    }
  }

  lemma CreateDoneKeepsInv(w: World, u: nat, ok: bool)
    requires Inv(w)
    ensures Inv(DoCreateDone(w, u, ok))
  {
    if InPc(w, u, Creating) {
      assert UploadOk(w.uploads[u]);
      MoveKeepsInv(w, u, DoCreateDone(w, u, ok));
    }
  }

  lemma WriteChunkKeepsInv(w: World, u: nat, chunk: Bytes)
    requires Inv(w)
    ensures Inv(DoWriteChunk(w, u, chunk))
  {
    if DoWriteChunk(w, u, chunk) != w {
      assert UploadOk(w.uploads[u]);
      FlattenAppend(w.uploads[u].chunks, chunk);
      MoveKeepsInv(w, u, DoWriteChunk(w, u, chunk));
    }
  }

  lemma ReportKeepsInv(w: World, u: nat)
    requires Inv(w)
    ensures Inv(DoReport(w, u))
  {
    if InPc(w, u, Streaming) {
      assert Known(w, u) && UploadOk(w.uploads[u]);
      MoveKeepsInv(w, u, DoReport(w, u));
    }
  }

  lemma FailBodyKeepsInv(w: World, u: nat)
    requires Inv(w)
    ensures Inv(DoFailBody(w, u))
  {
    if InPc(w, u, Streaming) {
      assert UploadOk(w.uploads[u]);
      MoveKeepsInv(w, u, DoFailBody(w, u));
    }
  }

  lemma ObserveCancelKeepsInv(w: World, u: nat)
    requires Inv(w)
    ensures Inv(DoObserveCancel(w, u))
  {
    if DoObserveCancel(w, u) != w {
      assert UploadOk(w.uploads[u]);
      MoveKeepsInv(w, u, DoObserveCancel(w, u));
    }
  }

  lemma EndBodyKeepsInv(cfg: Config, w: World, u: nat)
    requires Inv(w)
    ensures Inv(DoEndBody(cfg, w, u))
  {
    if DoEndBody(cfg, w, u) != w {
      assert UploadOk(w.uploads[u]);
      MoveKeepsInv(w, u, DoEndBody(cfg, w, u));
    }
  }

  lemma PublishKeepsInv(w: World, u: nat)
    requires Inv(w)
    ensures Inv(DoPublish(w, u))
  {
    if InPc(w, u, Validated) {
      assert Known(w, u) && UploadOk(w.uploads[u]) && SessionOk(w.sessions[w.uploads[u].session]);
      assert TokenMatches(w.uploads[u].hold, SlotOf(w, u).phase);
      HandKeepsInv(w, u, DoPublish(w, u));
    }
  }

  lemma RollbackKeepsInv(w: World, u: nat)
    requires Inv(w)
    ensures Inv(DoRollback(w, u))
  {
    if u < |w.uploads| && w.uploads[u].pc.RollingBack? {
      assert Known(w, u) && UploadOk(w.uploads[u]);
      MoveKeepsInv(w, u, DoRollback(w, u));
    }
  }

  lemma AbortDoneKeepsInv(w: World, u: nat)
    requires Inv(w)
    ensures Inv(DoAbortDone(w, u))
  {
    if InPc(w, u, Aborting) {
      assert UploadOk(w.uploads[u]);
      MoveKeepsInv(w, u, DoAbortDone(w, u));
    }
  }

  lemma CommitDoneKeepsInv(w: World, u: nat, ok: bool)
    requires Inv(w)
    ensures Inv(DoCommitDone(w, u, ok))
  {
    if InPc(w, u, Committing) {
      assert UploadOk(w.uploads[u]);
      MoveKeepsInv(w, u, DoCommitDone(w, u, ok));
    }
  }

  /** What the session looks like once `f` is recorded and its permit finished. */
  function Recorded(s: Session, f: FileId): Session
    requires f in s.slots
  {
    s.(received := s.received + {f}, slots := FinishPermit(s.slots, f))
  }

  lemma RecordedOk(s: Session, f: FileId)
    requires SessionOk(s) && f in s.slots && s.slots[f].phase.Publishing?
    ensures SessionOk(Recorded(s, f))
  {
    var s' := Recorded(s, f);
    assert s'.slots.Keys == s.slots.Keys;
    assert s'.received == set g | g in s'.slots && s'.slots[g].phase.Published?;
  }

  lemma RecordKeepsInv(w: World, u: nat)
    requires Inv(w)
    ensures Inv(DoRecord(w, u))
  {
    if InPc(w, u, Committed) {
      assert Known(w, u) && UploadOk(w.uploads[u]) && SessionOk(w.sessions[w.uploads[u].session]);
      assert TokenMatches(w.uploads[u].hold, SlotOf(w, u).phase);
      if w.current == Some(w.uploads[u].session) {
        var s := w.sessions[w.uploads[u].session];
        RecordedOk(s, w.uploads[u].file);
        var w' := DoRecord(w, u);
        assert w'.sessions == w.sessions[w.uploads[u].session := Recorded(s, w.uploads[u].file)];
        HandKeepsInv(w, u, w');
      } else {
        MoveKeepsInv(w, u, DoRecord(w, u));
      }
    }
  }

  lemma ReleasedKeepsInv(w: World, u: nat, upload: Upload)
    requires Inv(w) && Known(w, u)
    requires upload.session == w.uploads[u].session && upload.file == w.uploads[u].file
    requires UploadOk(upload.(hold := NoHold))
    ensures Inv(Released(w, u, upload))
  {
    assert UploadOk(w.uploads[u]) && SessionOk(w.sessions[w.uploads[u].session]);
    assert TokenMatches(w.uploads[u].hold, SlotOf(w, u).phase);
    var w' := Released(w, u, upload);
    if w.uploads[u].hold.NoHold? {
      assert w'.sessions == w.sessions;
      MoveKeepsInv(w, u, w');
    } else {
      HandKeepsInv(w, u, w');
    }
  }

  lemma DropHoldKeepsInv(w: World, u: nat)
    requires Inv(w)
    ensures Inv(DoDropHold(w, u))
  {
    if InPc(w, u, Leaving) {
      assert UploadOk(w.uploads[u]);
      ReleasedKeepsInv(w, u, w.uploads[u].(pc := Gone));
    }
  }

  lemma DropUploadKeepsInv(w: World, u: nat, renaming: bool)
    requires Inv(w)
    ensures Inv(DoDropUpload(w, u, renaming))
  {
    if u < |w.uploads| && Droppable(w.uploads[u].pc) {
      assert Known(w, u) && UploadOk(w.uploads[u]);
      ReleasedKeepsInv(w, u, Dropped(w.uploads[u], renaming));
    }
  }

  lemma LateCommitKeepsInv(w: World, u: nat, ok: bool)
    requires Inv(w)
    ensures Inv(DoLateCommit(w, u, ok))
  {
    if InPc(w, u, Orphaned) {
      assert UploadOk(w.uploads[u]);
      MoveKeepsInv(w, u, DoLateCommit(w, u, ok));
    }
  }

  // ---- any step, any run ----

  lemma PrepareStepKeepsInv(cfg: Config, w: World, step: Step)
    requires Inv(w) && PrepareStep(step)
    ensures Inv(Apply(cfg, w, step))
  {
    match step
    case Reserve(peer, offered, timedOut) => ReserveKeepsInv(w, peer, offered, timedOut);
    case Decide(p, decision, autoAccept) => SameCore(w, Apply(cfg, w, step));
    case ClearConsent(p) => SameCore(w, Apply(cfg, w, step));
    case Resolve(p) => ResolveKeepsInv(w, p);
    case DeliverText(p) => SameCore(w, Apply(cfg, w, step));
    case Respond(p) => SameCore(w, Apply(cfg, w, step));
    case DropPrepare(p) => SameCore(w, Apply(cfg, w, step));
  }

  lemma CancelStepKeepsInv(cfg: Config, w: World, step: Step)
    requires Inv(w) && CancelStep(step)
    ensures Inv(Apply(cfg, w, step))
  {
    match step
    case Release(reserved) => ReleaseKeepsInv(w, reserved);
    case WithdrawOffer(peer) => WithdrawKeepsInv(w, peer);
    case CancelById(peer, s) => CancelNamedKeepsInv(w, peer, s);
    case Sweep(timedOut) => SweepKeepsInv(w, timedOut);
    case Stop => SweepKeepsInv(w, true);
  }

  lemma UploadStepKeepsInv(cfg: Config, w: World, step: Step)
    requires Inv(w) && UploadStep(step)
    ensures Inv(Apply(cfg, w, step))
  {
    match step
    case CreateDone(u, ok) => CreateDoneKeepsInv(w, u, ok);
    case WriteChunk(u, chunk) => WriteChunkKeepsInv(w, u, chunk);
    case Report(u) => ReportKeepsInv(w, u);
    case FailBody(u) => FailBodyKeepsInv(w, u);
    case ObserveCancel(u) => ObserveCancelKeepsInv(w, u);
    case EndBody(u) => EndBodyKeepsInv(cfg, w, u);
    case Publish(u) => PublishKeepsInv(w, u);
    case Rollback(u) => RollbackKeepsInv(w, u);
    case AbortDone(u) => AbortDoneKeepsInv(w, u);
    case CommitDone(u, ok) => CommitDoneKeepsInv(w, u, ok);
    case Record(u) => RecordKeepsInv(w, u);
    case DropHold(u) => DropHoldKeepsInv(w, u);
    case DropUpload(u, renaming) => DropUploadKeepsInv(w, u, renaming);
    case LateCommit(u, ok) => LateCommitKeepsInv(w, u, ok);
  }

  lemma StepKeepsInv(cfg: Config, w: World, step: Step)
    requires Inv(w)
    ensures Inv(Apply(cfg, w, step))
  {
    if PrepareStep(step) {
      PrepareStepKeepsInv(cfg, w, step);
    } else if CancelStep(step) {
      CancelStepKeepsInv(cfg, w, step);
    } else if step.Claim? {
      ClaimKeepsInv(w, step.session, step.file, step.token);
    } else {
      UploadStepKeepsInv(cfg, w, step);
    }
  }

  lemma {:induction false} RunKeepsInv(cfg: Config, steps: seq<Step>)
    ensures Inv(Run(cfg, steps))
  {
    if steps != [] {
      RunKeepsInv(cfg, steps[..|steps| - 1]);
      StepKeepsInv(cfg, Run(cfg, steps[..|steps| - 1]), steps[|steps| - 1]);
    }
  }
}
