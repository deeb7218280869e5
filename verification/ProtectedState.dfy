/**
 The protected-upload fields of the shared state as the handlers, the sweep and the
 stop update them (src/server/state.rs:54-67); each method is one step of module
 ProtectedOwner.
 */
module ProtectedState {
  import opened Options
  import opened ProtectedOwner

  datatype Status = Accepted | Forbidden | Conflict | ServiceUnavailable

  class ProtectedState {
    var authorizedSession: Option<Owner>
    var activeUpload: Option<Owner>
    var stopping: bool
    var taken: nat
    var received: set<Owner>
    var cancelled: set<Owner>
    var signalled: set<Owner>
    var tasks: seq<Task>

    function World(): World
      reads this
    {
      ProtectedOwner.World(authorizedSession, activeUpload, stopping, taken, received, cancelled, signalled, tasks)
    }

    constructor ()
      ensures World() == INIT
    {
      authorizedSession, activeUpload, stopping := None, None, false;
      taken, received, cancelled, signalled, tasks := 0, {}, {}, {}, [];
    }

    /** The check before the gate is asked: it spares an owner, but promises nothing. */
    method Preflight() returns (status: Status)
      modifies this`tasks
      ensures World() == Apply(old(World()), Prepare)
      ensures status == if stopping then ServiceUnavailable else if authorizedSession.Some? then Conflict else Accepted
    {
      if stopping {
        return ServiceUnavailable;
      }
      if authorizedSession.Some? {
        return Conflict;
      }
      tasks := tasks + [Preparing];
      status := Accepted;
    }

    /** A rejected owner stays with its handler, which cancels it. */
    method InstallSession(t: nat) returns (status: Status)
      requires t < |tasks| && tasks[t].Holding?
      modifies this`authorizedSession, this`tasks
      ensures World() == Apply(old(World()), Install(t))
      ensures status == if old(stopping) then ServiceUnavailable
                        else if old(authorizedSession).Some? then Conflict
                        else Accepted
      ensures if status.Accepted?
              then authorizedSession == Some(old(tasks)[t].owner) && tasks[t].Finished?
              else authorizedSession == old(authorizedSession) && tasks[t] == Discarding(old(tasks)[t].owner)
    {
      var owner := tasks[t].owner;
      if stopping {
        tasks := tasks[t := Discarding(owner)];
        return ServiceUnavailable;
      }
      if authorizedSession.Some? {
        tasks := tasks[t := Discarding(owner)];
        return Conflict;
      }
      authorizedSession := Some(owner);
      tasks := tasks[t := Finished];
      status := Accepted;
    }

    /** The upload takes the session whatever its token says; a wrong one costs the owner. */
    method TakeForUpload(session: Owner, genuine: bool) returns (status: Status)
      requires authorizedSession == Some(session)
      modifies this`authorizedSession, this`activeUpload, this`tasks
      ensures World() == Apply(old(World()), Upload(session, genuine))
      ensures status == if genuine then Accepted else Forbidden
    {
      authorizedSession := None;
      if !genuine {
        tasks := tasks + [Discarding(session)];
        return Forbidden;
      }
      activeUpload := Some(session);
      tasks := tasks + [Receiving(session)];
      status := Accepted;
    }

    /** The record goes only if it still names this upload. */
    method ClearActiveUpload(t: nat)
      requires t < |tasks| && tasks[t].Clearing?
      modifies this`activeUpload, this`tasks
      ensures World() == Apply(old(World()), ClearActive(t))
      ensures activeUpload != Some(old(tasks)[t].owner)
      ensures old(activeUpload) != Some(old(tasks)[t].owner) ==> activeUpload == old(activeUpload)
    {
      if activeUpload == Some(tasks[t].owner) {
        activeUpload := None;
      }
      tasks := tasks[t := Finished];
    }

    method CancelSession(session: Owner)
      modifies this`authorizedSession, this`signalled, this`tasks
      ensures World() == Apply(old(World()), CancelById(session, true))
      ensures authorizedSession != Some(session)
      ensures old(authorizedSession) == Some(session) ==> tasks == old(tasks) + [Discarding(session)]
      ensures old(authorizedSession) != Some(session) ==> authorizedSession == old(authorizedSession)
    {
      if authorizedSession == Some(session) {
        authorizedSession := None;
        tasks := tasks + [Discarding(session)];
        return;
      }
      if activeUpload == Some(session) {
        signalled := signalled + {session};
      }
    }

    method SweepProtected(timedOut: bool)
      modifies this`authorizedSession, this`tasks
      ensures World() == Apply(old(World()), Sweep(timedOut))
      ensures timedOut ==> authorizedSession.None?
      ensures !timedOut ==> World() == old(World())
    {
      if authorizedSession.Some? && timedOut {
        tasks := tasks + [Discarding(authorizedSession.value)];
        authorizedSession := None;
      }
    }

    /** The barrier, the owner and the cancellation are taken under one lock. */
    method StopProtected()
      modifies this
      ensures World() == Apply(old(World()), Stop)
      ensures stopping && authorizedSession.None? && activeUpload.None?
    {
      stopping := true;
      if authorizedSession.Some? {
        tasks := tasks + [Discarding(authorizedSession.value)];
        authorizedSession := None;
      }
      if activeUpload.Some? {
        signalled := signalled + {activeUpload.value};
        activeUpload := None;
      }
    }
  }
}
