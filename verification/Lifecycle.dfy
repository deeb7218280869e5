/**
 The phase machine every accepted file of a session goes through
 (`ReceiveLifecycle` in src/core/session.rs).  Each function below is one hold of
 the lifecycle lock, written on the value of the slot table.
 */
module Lifecycle {
  import opened Options

  type FileId = nat

  datatype Phase = Ready | Receiving | Publishing | Published | Cancelled

  /** `fired` is the state of the slot's cancellation token. */
  datatype Slot = Slot(phase: Phase, fired: bool)

  type Slots = map<FileId, Slot>

  function NewSlots(files: set<FileId>): Slots {
    map f | f in files :: Slot(Ready, false)
  }

  predicate Terminal(phase: Phase) {
    phase.Published? || phase.Cancelled?
  }

  /** A body or a publication is under way. */
  predicate Active(phase: Phase) {
    phase.Receiving? || phase.Publishing?
  }

  predicate At(slots: Slots, f: FileId, phase: Phase) {
    f in slots && slots[f].phase == phase
  }

  predicate AnyPublishing(slots: Slots) {
    exists f :: f in slots && At(slots, f, Publishing)
  }

  function WithPhase(slots: Slots, f: FileId, phase: Phase): Slots
    requires f in slots
  {
    slots[f := slots[f].(phase := phase)]
  }

  function BeginReceive(slots: Slots, f: FileId): Option<Slots> {
    if At(slots, f, Ready) then Some(WithPhase(slots, f, Receiving)) else None
  }

  function BeginPublication(slots: Slots, f: FileId): Option<Slots> {
    if At(slots, f, Receiving) then Some(WithPhase(slots, f, Publishing)) else None
  }

  function DropLease(slots: Slots, f: FileId): Slots {
    if At(slots, f, Receiving) then WithPhase(slots, f, Ready) else slots
  }

  function DropPermit(slots: Slots, f: FileId): Slots {
    if At(slots, f, Publishing) then WithPhase(slots, f, Ready) else slots
  }

  function FinishPermit(slots: Slots, f: FileId): Slots
    requires f in slots
  {
    WithPhase(slots, f, Published)
  }

  function CancelSlot(slot: Slot): Slot {
    if slot.phase.Ready? || slot.phase.Receiving? then Slot(Cancelled, true) else slot
  }

  /** The table a cancellation leaves behind; it answers whether no slot was publishing. */
  function TryCancel(slots: Slots): Slots {
    if AnyPublishing(slots) then slots else map f | f in slots :: CancelSlot(slots[f])
  }

  /** A cancellation token has fired exactly when its slot is `Cancelled`. */
  predicate TokensAgree(slots: Slots) {
    forall f :: f in slots ==> (slots[f].fired <==> slots[f].phase.Cancelled?)
  }

  predicate AllTerminal(slots: Slots) {
    forall f :: f in slots ==> Terminal(slots[f].phase)
  }

  /** Terminal phases are kept by every lock hold that can change a slot. */
  predicate KeepsTerminal(before: Slots, after: Slots) {
    && before.Keys == after.Keys
    && forall f :: f in before && Terminal(before[f].phase) ==> after[f] == before[f]
  }

  lemma TryCancelOutcome(slots: Slots)
    requires TokensAgree(slots)
    ensures TokensAgree(TryCancel(slots)) && KeepsTerminal(slots, TryCancel(slots))
    ensures AllTerminal(TryCancel(slots)) <==> !AnyPublishing(slots)
    ensures AnyPublishing(slots) ==> TryCancel(slots) == slots
    ensures !AnyPublishing(slots) ==>
      forall f :: f in slots ==> (TryCancel(slots)[f].fired <==> !slots[f].phase.Published?)
  {
    if AnyPublishing(slots) {
      var f :| f in slots && At(slots, f, Publishing);
      assert !Terminal(slots[f].phase);
    } else {
      forall f | f in slots
        ensures Terminal(CancelSlot(slots[f]).phase)
      {
        assert !At(slots, f, Publishing);
      }
    }
  }

  /** One pass to look for a publication, a second one to cancel what can be. */
  method CancelSlots(slots: Slots) returns (cancelled: bool, after: Slots)
    ensures cancelled <==> !AnyPublishing(slots)
    ensures after == TryCancel(slots)
  {
    after := slots;
    var rest := slots.Keys;
    while rest != {}
      invariant rest <= slots.Keys
      invariant forall f :: f in slots && f !in rest ==> !At(slots, f, Publishing)
      decreases rest
    {
      var f :| f in rest;
      if slots[f].phase.Publishing? {
        assert At(slots, f, Publishing);
        return false, slots;
      }
      rest := rest - {f};
    }
    rest := slots.Keys;
    while rest != {}
      invariant rest <= slots.Keys == after.Keys
      invariant forall f :: f in slots ==> after[f] == if f in rest then slots[f] else CancelSlot(slots[f])
      decreases rest
    {
      var f :| f in rest;
      if slots[f].phase.Ready? || slots[f].phase.Receiving? {
        after := after[f := Slot(Cancelled, true)];
      }
      rest := rest - {f};
    }
    cancelled := true;
  }
}
