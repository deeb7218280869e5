/**
 The session with its shared slot table, and the lease and permit handlers own, as
 objects (src/core/session.rs).  Every method is one hold of the lifecycle lock.
 */
module SessionObjects {
  import opened Options
  import opened Lifecycle
  import E = Engine

  class ReceiveLifecycle {
    var slots: Slots

    constructor (files: set<FileId>)
      ensures slots == NewSlots(files)
    {
      slots := NewSlots(files);
    }
  }

  class StandardPublicationPermit {
    const lifecycle: ReceiveLifecycle
    const fileId: FileId
    var armed: bool

    constructor (lifecycle: ReceiveLifecycle, fileId: FileId)
      ensures this.lifecycle == lifecycle && this.fileId == fileId && armed
    {
      this.lifecycle := lifecycle;
      this.fileId := fileId;
      armed := true;
    }

    method Finish()
      requires fileId in lifecycle.slots
      modifies this`armed, lifecycle
      ensures lifecycle.slots == FinishPermit(old(lifecycle.slots), fileId) && !armed
    {
      lifecycle.slots := lifecycle.slots[fileId := lifecycle.slots[fileId].(phase := Published)];
      armed := false;
    }

    method Drop()
      modifies this`armed, lifecycle
      ensures lifecycle.slots == if old(armed) then DropPermit(old(lifecycle.slots), fileId) else old(lifecycle.slots)
      ensures !armed
    {
      if !armed {
        return;
      }
      armed := false;
      if fileId in lifecycle.slots && lifecycle.slots[fileId].phase.Publishing? {
        lifecycle.slots := lifecycle.slots[fileId := lifecycle.slots[fileId].(phase := Ready)];
      }
    }
  }

  class StandardReceiveLease {
    const lifecycle: ReceiveLifecycle
    const fileId: FileId
    var armed: bool

    constructor (lifecycle: ReceiveLifecycle, fileId: FileId)
      ensures this.lifecycle == lifecycle && this.fileId == fileId && armed
    {
      this.lifecycle := lifecycle;
      this.fileId := fileId;
      armed := true;
    }

    /** Consumes the lease: it becomes a permit, or is dropped because a cancellation came first. */
    method BeginPublication() returns (permit: StandardPublicationPermit?)
      requires armed
      modifies this`armed, lifecycle
      ensures !armed
      ensures permit != null <==> At(old(lifecycle.slots), fileId, Receiving)
      ensures permit != null ==>
                && fresh(permit) && permit.armed && permit.lifecycle == lifecycle && permit.fileId == fileId
                && Lifecycle.BeginPublication(old(lifecycle.slots), fileId) == Some(lifecycle.slots)
      ensures permit == null ==> lifecycle.slots == old(lifecycle.slots)
    {
      if fileId in lifecycle.slots && lifecycle.slots[fileId].phase.Receiving? {
        lifecycle.slots := lifecycle.slots[fileId := lifecycle.slots[fileId].(phase := Publishing)];
        armed := false;
        permit := new StandardPublicationPermit(lifecycle, fileId);
      } else {
        Drop();
        permit := null;
      }
    }

    method Drop()
      modifies this`armed, lifecycle
      ensures lifecycle.slots == if old(armed) then DropLease(old(lifecycle.slots), fileId) else old(lifecycle.slots)
      ensures !armed
    {
      if !armed {
        return;
      }
      armed := false;
      if fileId in lifecycle.slots && lifecycle.slots[fileId].phase.Receiving? {
        lifecycle.slots := lifecycle.slots[fileId := lifecycle.slots[fileId].(phase := Ready)];
      }
    }
  }

  class Session {
    const files: E.Files
    const lifecycle: ReceiveLifecycle
    var received: set<FileId>
    var receivedBytes: nat

    /** The session as the engine's value. */
    function State(): E.Session
      reads this, lifecycle
    {
      E.Session(files, lifecycle.slots, received, receivedBytes)
    }

    constructor (files: E.Files)
      ensures State() == E.NewSession(files) && fresh(lifecycle)
    {
      this.files := files;
      this.lifecycle := new ReceiveLifecycle(files.Keys);
      received := {};
      receivedBytes := 0;
    }

    method BeginReceive(fileId: FileId) returns (lease: StandardReceiveLease?)
      modifies lifecycle
      ensures lease != null <==> At(old(lifecycle.slots), fileId, Ready)
      ensures lease != null ==>
                && fresh(lease) && lease.armed && lease.lifecycle == lifecycle && lease.fileId == fileId
                && Lifecycle.BeginReceive(old(lifecycle.slots), fileId) == Some(lifecycle.slots)
      ensures lease == null ==> lifecycle.slots == old(lifecycle.slots)
    {
      if fileId !in lifecycle.slots || !lifecycle.slots[fileId].phase.Ready? {
        return null;
      }
      lifecycle.slots := lifecycle.slots[fileId := lifecycle.slots[fileId].(phase := Receiving)];
      lease := new StandardReceiveLease(lifecycle, fileId);
    }

    /** False, and nothing changed, if a publication is under way; otherwise every slot is final afterwards. */
    method TryCancelReceives() returns (cancelled: bool)
      modifies lifecycle
      ensures cancelled <==> !AnyPublishing(old(lifecycle.slots))
      ensures lifecycle.slots == TryCancel(old(lifecycle.slots))
    {
      var after;
      cancelled, after := CancelSlots(lifecycle.slots);
      lifecycle.slots := after;
    }

    /** A foreign id is ignored; true when every accepted file is in. */
    method MarkReceived(fileId: FileId) returns (complete: bool)
      modifies this`received
      ensures received == old(received) + if fileId in files then {fileId} else {}
      ensures complete <==> fileId in files && |received| == |files|
    {
      if fileId !in files {
        return false;
      }
      received := received + {fileId};
      complete := |received| == |files|;
    }

    /** `ReceiveProgressContext::add`: clamped at the declared total; answers what is reported. */
    method AddProgress(amount: nat, total: nat) returns (reported: nat)
      modifies this`receivedBytes
      ensures receivedBytes == E.Min(E.Min(old(receivedBytes) + amount, E.U64_MAX), total) == reported
    {
      var next := if receivedBytes + amount < E.U64_MAX then receivedBytes + amount else E.U64_MAX;
      receivedBytes := if next < total then next else total;
      reported := receivedBytes;
    }

    method RollbackProgress(amount: nat) returns (reported: nat)
      modifies this`receivedBytes
      ensures receivedBytes == E.SaturatingSub(old(receivedBytes), amount) == reported
    {
      receivedBytes := if amount <= receivedBytes then receivedBytes - amount else 0;
      reported := receivedBytes;
    }
  }

  /**
   Cancellation against publication on the objects: whichever of the two comes first
   under the lifecycle lock, the other one is refused and changes nothing.
   */
  method CancelThenPublish(session: Session, lease: StandardReceiveLease)
    returns (cancelled: bool, permit: StandardPublicationPermit?)
    requires lease.lifecycle == session.lifecycle && lease.armed
    requires At(session.lifecycle.slots, lease.fileId, Receiving) && !AnyPublishing(session.lifecycle.slots)
    modifies session.lifecycle, lease`armed
    ensures cancelled && permit == null && At(session.lifecycle.slots, lease.fileId, Cancelled)
  {
    cancelled := session.TryCancelReceives();
    permit := lease.BeginPublication();
  }

  method PublishThenCancel(session: Session, lease: StandardReceiveLease)
    returns (cancelled: bool, permit: StandardPublicationPermit?)
    requires lease.lifecycle == session.lifecycle && lease.armed
    requires At(session.lifecycle.slots, lease.fileId, Receiving)
    modifies session.lifecycle, lease`armed
    ensures !cancelled && permit != null && fresh(permit)
    ensures session.lifecycle.slots == WithPhase(old(session.lifecycle.slots), lease.fileId, Publishing)
  {
    permit := lease.BeginPublication();
    assert At(session.lifecycle.slots, lease.fileId, Publishing);
    cancelled := session.TryCancelReceives();
  }
}
