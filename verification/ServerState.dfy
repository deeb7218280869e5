/**
 The receiver's shared state as the object the handlers lock (src/server/state.rs:28-73).
 Every method is the code of one hold of the state lock, and is proved to be one step
 of the engine with the HTTP status that goes with it.
 */
module ServerState {
  import opened Options
  import opened Lifecycle
  import opened MapSums
  import E = Engine
  import EI = EngineInvariant

  datatype Status =
    | Continue
    | Ok
    | NoContent
    | BadRequest
    | Forbidden
    | NotFound
    | Conflict
    | InternalServerError

  class ServerState {
    /** Every session ever built, under its id; handlers keep theirs after it lost the slot. */
    var sessions: seq<E.Session>
    var currentSession: Option<E.SessionId>
    var currentSessionFrom: Option<E.Peer>
    var awaitingConsent: Option<E.Reservation>
    var withdrawn: set<E.SessionId>
    var disclosed: set<E.SessionId>
    var prepares: seq<E.Prepare>
    var releases: set<E.SessionId>
    var uploads: seq<E.Upload>
    var events: seq<E.Event>

    function World(): E.World
      reads this
    {
      E.World(sessions, currentSession, currentSessionFrom, awaitingConsent, withdrawn, disclosed, prepares, releases,
              uploads, events)
    }

    /** The slot names a session that was built. */
    predicate SlotOk()
      reads this
    {
      currentSession.Some? ==> currentSession.value < |sessions|
    }

    /** The engine's invariant: coherent tables, and every token with its one handler. */
    ghost predicate Valid()
      reads this
    {
      EI.Inv(World())
    }

    constructor ()
      ensures World() == E.INIT && Valid()
    {
      sessions, currentSession, currentSessionFrom, awaitingConsent := [], None, None, None;
      withdrawn, disclosed, prepares, releases, uploads, events := {}, {}, [], {}, [], [];
    }

    /** `try_cancel_receives` of a session in the table. */
    method TryCancelReceives(s: E.SessionId) returns (cancelled: bool)
      requires s < |sessions|
      modifies this`sessions
      ensures World() == E.CancelSession(old(World()), s)
      ensures cancelled <==> E.Cancellable(old(World()), s)
    {
      var after;
      cancelled, after := CancelSlots(sessions[s].slots);
      sessions := sessions[s := sessions[s].(slots := after)];
    }

    /** Whatever session holds the slot is asked to cancel, and its answer is not looked at. */
    method CancelCurrent()
      requires SlotOk()
      modifies this`sessions
      ensures SlotOk() && World() == E.CancelCurrentBlindly(old(World()))
    {
      if currentSession.Some? {
        var _ := TryCancelReceives(currentSession.value);
      }
    }

    method InstallSession(files: E.Files) returns (id: E.SessionId)
      modifies this`sessions, this`currentSession
      ensures id == |old(sessions)| && SlotOk()
      ensures World() == E.AddSession(old(World()), files).(current := Some(id))
    {
      id := |sessions|;
      sessions := sessions + [E.NewSession(files)];
      currentSession := Some(id);
    }

    // ---- prepare-upload ----

    method ReserveSlot(peer: E.Peer, offered: E.Files, timedOut: bool) returns (status: Status, handler: nat)
      requires Valid()
      modifies this
      ensures Valid() && World() == E.DoReserve(old(World()), peer, offered, timedOut)
      ensures status == if offered == map[] then NoContent
                        else if E.CanReserve(old(World()), timedOut) then Continue
                        else Conflict
      ensures status.Continue? ==> handler == |old(prepares)| == |prepares| - 1
    {
      EI.ReserveKeepsInv(World(), peer, offered, timedOut);
      handler := |prepares|;
      if offered == map[] {
        return NoContent, handler;
      }
      if currentSession.Some? {
        if !timedOut {
          return Conflict, handler;
        }
        var cancelled := TryCancelReceives(currentSession.value);
        if !cancelled {
          assert World() == old(World());
          return Conflict, handler;
        }
        currentSession := None;
      }
      var reserved := InstallSession(offered);
      awaitingConsent := Some(E.Reservation(reserved, peer));
      currentSessionFrom := Some(peer);
      prepares := prepares + [E.Prepare(E.Deciding, reserved, offered)];
      status := Continue;
    }

    method ClearConsent(p: nat)
      requires Valid() && p < |prepares| && prepares[p].pc.Decided?
      modifies this`awaitingConsent, this`prepares
      ensures Valid() && World() == E.DoClearConsent(old(World()), p)
      ensures awaitingConsent.Some? ==> awaitingConsent.value.session != old(prepares)[p].reserved
      ensures awaitingConsent == old(awaitingConsent) || awaitingConsent.None?
    {
      EI.PrepareStepKeepsInv(E.Config(_ => ""), World(), E.Step.ClearConsent(p));
      if awaitingConsent.Some? && awaitingConsent.value.session == prepares[p].reserved {
        awaitingConsent := None;
      }
      prepares := prepares[p := prepares[p].(pc := E.Cleared(prepares[p].pc.decision))];
    }

    /** A prepare handler returns: its reservation guard is dropped, and spawns a release. */
    method FinishPrepare(p: nat)
      requires SlotOk() && p < |prepares|
      modifies this`prepares, this`releases
      ensures SlotOk() && World() == E.EndPrepare(old(World()), p)
    {
      releases := releases + {prepares[p].reserved};
      prepares := prepares[p := prepares[p].(pc := E.Ended)];
    }

    method ResolveOffer(p: nat) returns (status: Status)
      requires Valid() && p < |prepares| && prepares[p].pc.Cleared?
      modifies this
      ensures Valid() && World() == E.DoResolve(old(World()), p)
      ensures var me := old(prepares)[p];
              status == if me.pc.decision.Refuse? then BadRequest
                        else if E.AcceptedIds(me.pc.decision, me.offered) == {} then Forbidden
                        else Continue
    {
      EI.ResolveKeepsInv(World(), p);
      var me := prepares[p];
      if me.pc.decision.Refuse? {
        CancelCurrent();
        currentSession := None;
        FinishPrepare(p);
        return BadRequest;
      }
      var acceptedIds := E.AcceptedIds(me.pc.decision, me.offered);
      if acceptedIds == {} {
        CancelCurrent();
        currentSession := None;
        FinishPrepare(p);
        return Forbidden;
      }
      var acceptedFiles := map f | f in me.offered && f in acceptedIds :: me.offered[f];
      CancelCurrent();
      var id := InstallSession(acceptedFiles);
      prepares := prepares[p := me.(pc := E.Installed(id))];
      status := Continue;
    }

    /** A message is delivered and its session is over; anything else is answered with its tokens. */
    method Answer(p: nat) returns (status: Status)
      requires Valid() && p < |prepares| && prepares[p].pc.Installed?
      modifies this
      ensures Valid()
      ensures status == if E.IsMessage(old(prepares)[p].offered) then NoContent else Ok
      ensures World() == if status.NoContent? then E.DoDeliverText(old(World()), p) else E.DoRespond(old(World()), p)
    {
      EI.SameCore(World(), E.DoDeliverText(World(), p));
      EI.SameCore(World(), E.DoRespond(World(), p));
      var id := prepares[p].pc.session;
      if E.IsMessage(prepares[p].offered) {
        events := events + [E.TextReceived(id)];
        events := events + [E.SessionDone(id)];
        currentSession := None;
        FinishPrepare(p);
        assert events == old(events) + [E.TextReceived(id), E.SessionDone(id)];
        return NoContent;
      }
      disclosed := disclosed + {id};
      FinishPrepare(p);
      status := Ok;
    }

    /** What a dropped reservation guard spawned. */
    method ReleaseReservation(reserved: E.SessionId)
      requires Valid() && reserved in releases
      modifies this
      ensures Valid() && World() == E.DoRelease(old(World()), reserved)
      ensures reserved !in releases && (awaitingConsent.Some? ==> awaitingConsent.value.session != reserved)
      ensures currentSession == old(currentSession) ||
              (old(currentSession) == Some(reserved) && currentSession.None? && currentSessionFrom.None?)
    {
      EI.ReleaseKeepsInv(World(), reserved);
      releases := releases - {reserved};
      if awaitingConsent.None? || awaitingConsent.value.session != reserved {
        return;
      }
      awaitingConsent := None;
      if currentSession == Some(reserved) {
        var _ := TryCancelReceives(reserved);
        currentSession := None;
        currentSessionFrom := None;
      }
    }

    // ---- cancel, sweep, stop ----

    /** Source address first, session id second. */
    method HandleCancel(peer: E.Peer, sessionId: Option<E.SessionId>) returns (status: Status)
      requires Valid()
      modifies this
      ensures Valid()
      ensures sessionId.None? ==> World() == E.DoWithdrawOffer(old(World()), peer)
      ensures sessionId.Some? ==> World() == E.DoCancelNamed(old(World()), peer, sessionId.value)
      ensures sessionId.None? ==>
                status == if old(awaitingConsent).None? then BadRequest
                          else if old(awaitingConsent).value.from != peer then Forbidden
                          else Ok
      ensures sessionId.Some? ==>
                status == if old(currentSessionFrom).Some? && old(currentSessionFrom).value != peer then Forbidden
                          else if old(currentSession) == sessionId && !E.Cancellable(old(World()), sessionId.value)
                          then Conflict
                          else Ok
      ensures status.BadRequest? || status.Forbidden? || status.Conflict? ==> World() == old(World())
    {
      EI.WithdrawKeepsInv(World(), peer);
      if sessionId.Some? { EI.CancelNamedKeepsInv(World(), peer, sessionId.value); }
      if sessionId.None? {
        if awaitingConsent.None? {
          return BadRequest;
        }
        var reservation := awaitingConsent.value;
        awaitingConsent := None;
        if reservation.from != peer {
          awaitingConsent := Some(reservation);
          return Forbidden;
        }
        if currentSession == Some(reservation.session) {
          var _ := TryCancelReceives(reservation.session);
          currentSession := None;
          currentSessionFrom := None;
        }
        withdrawn := withdrawn + {reservation.session};
        return Ok;
      }
      if currentSessionFrom.Some? && currentSessionFrom.value != peer {
        return Forbidden;
      }
      if currentSession == sessionId {
        var cancelled := TryCancelReceives(sessionId.value);
        if !cancelled {
          assert World() == old(World());
          return Conflict;
        }
        events := events + [E.SessionDone(sessionId.value)];
        currentSession := None;
        currentSessionFrom := None;
      }
      status := Ok;
    }

    /** One tick of the sweep; an orderly stop does the same without asking for the age. */
    method SweepSession(timedOut: bool)
      requires Valid()
      modifies this`sessions, this`currentSession
      ensures Valid() && World() == E.DoSweep(old(World()), timedOut)
    {
      EI.SweepKeepsInv(World(), timedOut);
      if currentSession.Some? && timedOut {
        var cancelled := TryCancelReceives(currentSession.value);
        if cancelled {
          currentSession := None;
        } else {
          assert World() == old(World());
        }
      }
    }

    method StopStandard()
      requires Valid()
      modifies this`sessions, this`currentSession
      ensures Valid() && World() == E.DoStop(old(World()))
    {
      SweepSession(true);
    }

    // ---- upload ----

    /** The checks of an upload in their order, up to the lease on its slot. */
    method ClaimSlot(s: E.SessionId, f: FileId, token: E.Token) returns (status: Status)
      requires Valid()
      modifies this`sessions, this`uploads
      ensures Valid()
      ensures World() == E.DoClaimWith(old(World()), s, f, token)
      ensures status.Continue? <==>
                && old(currentSession) == Some(s) && f in old(sessions)[s].files && token == E.Issued(s, f)
                && At(old(sessions)[s].slots, f, Ready)
      ensures status.Conflict? <==>
                && old(currentSession) == Some(s) && f in old(sessions)[s].files && token == E.Issued(s, f)
                && !At(old(sessions)[s].slots, f, Ready)
      ensures !status.Continue? ==> World() == old(World()) && (status.Forbidden? || status.Conflict?)
    {
      EI.ClaimKeepsInv(World(), s, f, token);
      if currentSession.None? {
        return Forbidden;
      }
      if currentSession.value != s {
        return Forbidden;
      }
      var session := sessions[s];
      if f !in session.files || token != E.Issued(s, f) {
        return Forbidden;
      }
      if f !in session.slots || !session.slots[f].phase.Ready? {
        return Conflict;
      }
      sessions := sessions[s := session.(slots := session.slots[f := session.slots[f].(phase := Receiving)])];
      uploads := uploads + [E.Upload(E.Creating, E.Lease, s, f, [], 0, false, false)];
      status := Continue;
    }

    /** After the commit: record the file, tell the consumer, finish the permit, close a complete session. */
    method RecordUpload(u: nat) returns (status: Status)
      requires Valid() && E.InPc(World(), u, E.Committed) && E.Known(World(), u)
      modifies this
      ensures Valid() && World() == E.DoRecord(old(World()), u)
      ensures status == if old(currentSession) == Some(old(uploads)[u].session) then Ok else InternalServerError
    {
      EI.RecordKeepsInv(World(), u);
      var me := uploads[u];
      if currentSession != Some(me.session) {
        uploads := uploads[u := me.(pc := E.Leaving)];
        return InternalServerError;
      }
      var session := sessions[me.session];
      session := session.(received := session.received + {me.file});
      var allDone := |session.received| == |session.files|;
      events := events + [E.FileReceived(me.session, me.file, |E.Body(me)|)];
      session := session.(slots := session.slots[me.file := session.slots[me.file].(phase := Published)]);
      sessions := sessions[me.session := session];
      uploads := uploads[u := me.(pc := E.Gone, hold := E.NoHold)];
      if allDone {
        events := events + [E.SessionDone(me.session)];
        currentSession := None;
      }
      assert World() == E.DoRecord(old(World()), u);
      status := Ok;
    }

    // ---- a prepare nobody interrupts ----

    /** From the reservation to the answer. */
    method AnswerOffer(handler: nat, decision: E.Decision) returns (status: Status)
      requires Valid() && handler < |prepares| && prepares[handler].pc.Deciding?
      requires awaitingConsent.Some? ==> awaitingConsent.value.session == prepares[handler].reserved
      modifies this
      ensures Valid() && awaitingConsent.None? && currentSessionFrom == old(currentSessionFrom)
      ensures var offered := old(prepares)[handler].offered; var accepted := E.AcceptedIds(decision, offered);
              match status
              case BadRequest => decision.Refuse?
              case Forbidden => !decision.Refuse? && accepted == {}
              case NoContent => accepted != {} && E.IsMessage(offered)
              case Ok =>
                && accepted != {} && !E.IsMessage(offered)
                && currentSession.Some? && currentSession.value in disclosed
                && sessions[currentSession.value] == E.NewSession(E.Restrict(offered, accepted))
              case _ => false
      ensures !status.Ok? ==> currentSession.None? && disclosed == old(disclosed)
      ensures status.NoContent? ==>
                && |sessions| > 0
                && events == old(events) + [E.TextReceived(|sessions| - 1), E.SessionDone(|sessions| - 1)]
      ensures !status.NoContent? ==> events == old(events)
    {
      EI.SameCore(World(), E.WithPrepare(World(), handler, E.Decided(decision)));
      prepares := prepares[handler := prepares[handler].(pc := E.Decided(decision))];
      ClearConsent(handler);
      status := ResolveOffer(handler);
      if !status.Continue? {
        return;
      }
      status := Answer(handler);
    }

    /**
     The whole prepare handler with the lock to itself.  Accepted, the slot holds a
     session of exactly the accepted files, all of them ready, and the sender knows its
     id; otherwise the slot is free, or as it was.  No reservation is left waiting.
     */
    method HandlePrepareUpload(peer: E.Peer, offered: E.Files, timedOut: bool, decision: E.Decision)
      returns (status: Status)
      requires Valid()
      modifies this
      ensures Valid()
      ensures status.Conflict? || (status.NoContent? && offered == map[]) ==> World() == old(World())
      ensures status.Conflict? <==> offered != map[] && !E.CanReserve(old(World()), timedOut)
      ensures status.Ok? ==>
                && currentSession.Some? && currentSession.value in disclosed && currentSessionFrom == Some(peer)
                && sessions[currentSession.value] ==
                     E.NewSession(E.Restrict(offered, E.AcceptedIds(decision, offered)))
                && E.AcceptedIds(decision, offered) != {} && !E.IsMessage(offered)
      ensures status.BadRequest? ==> decision.Refuse?
      ensures status.Forbidden? ==> E.AcceptedIds(decision, offered) == {}
      ensures status.BadRequest? || status.Forbidden? ==> currentSession.None? && disclosed == old(disclosed)
      ensures status.NoContent? && offered != map[] ==>
                && currentSession.None? && disclosed == old(disclosed)
                && |sessions| > 0
                && events == old(events) + [E.TextReceived(|sessions| - 1), E.SessionDone(|sessions| - 1)]
      ensures !status.NoContent? ==> events == old(events)
      ensures !status.Conflict? && offered != map[] ==> awaitingConsent.None?
    {
      var handler: nat;
      status, handler := ReserveSlot(peer, offered, timedOut);
      if !status.Continue? {
        return;
      }
      status := AnswerOffer(handler, decision);
    }
  }

  // ---- the declared total ----

  ghost predicate IsSum(m: map<nat, nat>, sum: nat) {
    SumOf(m) == sum
  }

  /** What is left to add, and what was added so far: only the end is clamped. */
  ghost predicate Added(rest: map<nat, nat>, sum: nat, total: nat) {
    forall left: nat :: IsSum(rest, left) ==> left <= sum && total == E.Min(sum - left, E.U64_MAX)
  }

  /** One saturating addition: whatever the order, it commutes with the sum. */
  lemma AddOne(rest: map<nat, nat>, k: nat, sum: nat, total: nat)
    requires k in rest && Added(rest, sum, total)
    ensures Added(rest - {k}, sum, E.Min(total + rest[k], E.U64_MAX))
  {
    SumRemove(rest, k);
    assert IsSum(rest, SumOf(rest));
  }

  lemma NothingAdded(rest: map<nat, nat>)
    ensures Added(rest, SumOf(rest), 0)
  {
  }

  lemma AllAdded(sum: nat, total: nat)
    requires Added(map[], sum, total)
    ensures total == E.Min(sum, E.U64_MAX)
  {
    assert IsSum(map[], 0);
  }

  /** The sizes are added one by one, each addition clamped; whatever the order, the sum clamped at the end. */
  method TotalBytes(files: E.Files) returns (total: nat)
    ensures total == E.TotalBytes(files) <= E.U64_MAX
  {
    total := 0;
    var rest := E.Sizes(files);
    ghost var sum := SumOf(rest);
    NothingAdded(rest);
    while rest != map[]
      invariant Added(rest, sum, total)
      decreases |rest|
    {
      var f :| f in rest;
      AddOne(rest, f, sum, total);
      total := if total + rest[f] < E.U64_MAX then total + rest[f] else E.U64_MAX;
      rest := rest - {f};
    }
    AllAdded(sum, total);
  }
}
