/**
 The owner of a protected upload: a one-shot resource that moves between prepare,
 upload, cancel, sweep and stop (src/server/handlers.rs:144-196, 508-542, 918-944;
 src/server/server.rs:247-279, 393-406).  A step is one hold of the state lock or
 one `take`, `receive` or `cancel` outside it.
 */
module ProtectedOwner {
  import opened Options

  /** The n-th owner the gate gave out; its session carries the same fresh number. */
  type Owner = nat

  /** A running handler, sweep or stop, by what it still has to do. */
  datatype Task =
    | Preparing
    | Holding(owner: Owner)
    | Discarding(owner: Owner)
    | Receiving(owner: Owner)
    | Clearing(owner: Owner)
    | Finished

  datatype World = World(
    installed: Option<Owner>,
    active: Option<Owner>,
    stopping: bool,
    taken: nat,
    received: set<Owner>,
    cancelled: set<Owner>,
    signalled: set<Owner>,
    tasks: seq<Task>)

  const INIT := World(None, None, false, 0, {}, {}, {}, [])

  datatype Step =
    | Prepare
    | TakeOwner(t: nat, granted: bool)
    | Install(t: nat)
    | CancelOwner(t: nat)
    | Upload(session: Owner, genuine: bool)
    | ReceiveDone(t: nat)
    | ClearActive(t: nat)
    | CancelById(session: Owner, allowed: bool)
    | Sweep(timedOut: bool)
    | Stop

  function Goto(w: World, t: nat, task: Task): World
    requires t < |w.tasks|
  {
    w.(tasks := w.tasks[t := task])
  }

  function Spawn(w: World, task: Task): World {
    w.(tasks := w.tasks + [task])
  }

  predicate Carries(w: World, t: nat, o: Owner) {
    && t < |w.tasks|
    && (w.tasks[t] == Holding(o) || w.tasks[t] == Discarding(o) || w.tasks[t] == Receiving(o))
  }

  /** The installed owner is taken out, to be cancelled outside the lock. */
  function TakeInstalled(w: World): World
    requires w.installed.Some?
  {
    Spawn(w, Discarding(w.installed.value)).(installed := None)
  }

  function Apply(w: World, step: Step): World {
    match step
    case Prepare => if w.stopping || w.installed.Some? then w else Spawn(w, Preparing)
    case TakeOwner(t, granted) =>
      if t < |w.tasks| && w.tasks[t].Preparing? then
        if granted then Goto(w, t, Holding(w.taken)).(taken := w.taken + 1) else Goto(w, t, Finished)
      else w
    case Install(t) =>
      if t < |w.tasks| && w.tasks[t].Holding? then
        if w.stopping || w.installed.Some? then Goto(w, t, Discarding(w.tasks[t].owner))
        else Goto(w, t, Finished).(installed := Some(w.tasks[t].owner))
      else w
    case CancelOwner(t) =>
      if t < |w.tasks| && w.tasks[t].Discarding?
      then Goto(w, t, Finished).(cancelled := w.cancelled + {w.tasks[t].owner})
      else w
    case Upload(session, genuine) =>
      if w.installed != Some(session) then w
      else if !genuine then TakeInstalled(w)
      else Spawn(w, Receiving(session)).(installed := None, active := Some(session))
    case ReceiveDone(t) =>
      if t < |w.tasks| && w.tasks[t].Receiving?
      then Goto(w, t, Clearing(w.tasks[t].owner)).(received := w.received + {w.tasks[t].owner})
      else w
    case ClearActive(t) =>
      if t < |w.tasks| && w.tasks[t].Clearing? then
        Goto(w, t, Finished).(active := if w.active == Some(w.tasks[t].owner) then None else w.active)
      else w
    case CancelById(session, allowed) =>
      if !allowed then w
      else if w.installed == Some(session) then TakeInstalled(w)
      else if w.active == Some(session) then w.(signalled := w.signalled + {session})
      else w
    case Sweep(timedOut) => if w.installed.Some? && timedOut then TakeInstalled(w) else w
    case Stop =>
      var w1 := if w.installed.Some? then TakeInstalled(w) else w;
      w1.(stopping := true,
          active := None,
          signalled := if w.active.Some? then w.signalled + {w.active.value} else w.signalled)
  }

  function Run(steps: seq<Step>): World {
    if steps == [] then INIT else Apply(Run(steps[..|steps| - 1]), steps[|steps| - 1])
  }

  // ---- linearity ----

  ghost predicate InHandler(w: World, o: Owner) {
    exists t: nat :: Carries(w, t, o)
  }

  /** Every owner that was taken is in one place, and no place holds two claims to it. */
  ghost predicate Linear(w: World) {
    && (forall t: nat, u: nat, o: Owner :: Carries(w, t, o) && Carries(w, u, o) ==> t == u)
    && (forall t: nat, o: Owner :: Carries(w, t, o) ==>
          o < w.taken && w.installed != Some(o) && o !in w.received && o !in w.cancelled)
    && (w.installed.Some? ==>
          w.installed.value < w.taken && w.installed.value !in w.received && w.installed.value !in w.cancelled)
    && (forall o :: o in w.received ==> o < w.taken && o !in w.cancelled)
    && (forall o :: o in w.cancelled ==> o < w.taken)
    && (forall o: Owner :: o < w.taken ==>
          InHandler(w, o) || w.installed == Some(o) || o in w.received || o in w.cancelled)
    && (w.stopping ==> w.installed.None?)
  }

  /** A task changed; owners other than `o` are carried as before. */
  lemma CarriedElsewhere(w: World, w': World, o: Owner)
    requires forall t: nat, p :: p != o && Carries(w, t, p) ==> Carries(w', t, p)
    ensures forall p :: p != o && InHandler(w, p) ==> InHandler(w', p)
  {
    forall p | p != o && InHandler(w, p)
      ensures InHandler(w', p)
    {
      var t: nat :| Carries(w, t, p);
      assert Carries(w', t, p);
    }
  }

  lemma TakenKeepsLinear(w: World)
    requires Linear(w) && w.installed.Some?
    ensures Linear(TakeInstalled(w))
  {
    var w' := TakeInstalled(w);
    var o := w.installed.value;
    assert Carries(w', |w.tasks|, o);
    CarriedElsewhere(w, w', o);
    forall t: nat, p | Carries(w', t, p)
      ensures if t == |w.tasks| then p == o else Carries(w, t, p)
    {
    }
  }

  lemma TaskKeepsLinear(w: World, step: Step)
    requires Linear(w)
    requires step.TakeOwner? || step.Install? || step.CancelOwner? || step.ReceiveDone? || step.ClearActive?
    ensures Linear(Apply(w, step))
  {
    var w' := Apply(w, step);
    if w' != w {
      var t := step.t;
      var o := if step.TakeOwner? then w.taken else w.tasks[t].owner;
      assert !step.TakeOwner? && !step.ClearActive? ==> Carries(w, t, o);
      CarriedElsewhere(w, w', o);
      if w'.tasks[t].Holding? || w'.tasks[t].Discarding? { assert Carries(w', t, o); }
      forall u: nat, p | Carries(w', u, p)
        ensures if u == t then p == o else Carries(w, u, p)
      {
      }
      if step.ClearActive? && InHandler(w, o) {
        var u: nat :| Carries(w, u, o);
        assert Carries(w', u, o);
      }
    }
  }

  lemma UploadKeepsLinear(w: World, session: Owner)
    requires Linear(w) && w.installed == Some(session)
    ensures Linear(Apply(w, Upload(session, true)))
  {
    var w' := Apply(w, Upload(session, true));
    assert Carries(w', |w.tasks|, session);
    CarriedElsewhere(w, w', session);
    forall t: nat, p | Carries(w', t, p)
      ensures if t == |w.tasks| then p == session else Carries(w, t, p)
    {
    }
  }

  /** The same tasks and the same places. */
  lemma SamePlaces(w: World, w': World)
    requires Linear(w) && w'.installed == w.installed && w'.taken == w.taken
    requires w'.received == w.received && w'.cancelled == w.cancelled
    requires w'.tasks == w.tasks || w'.tasks == w.tasks + [Preparing]
    requires w'.stopping ==> w.installed.None?
    ensures Linear(w')
  {
    forall t: nat, o
      ensures Carries(w', t, o) <==> Carries(w, t, o)
    {
    }
    forall o | InHandler(w, o)
      ensures InHandler(w', o)
    {
      var t: nat :| Carries(w, t, o);
      assert Carries(w', t, o);
    }
  }

  lemma StepKeepsLinear(w: World, step: Step)
    requires Linear(w)
    ensures Linear(Apply(w, step))
  {
    if w.installed.Some? { TakenKeepsLinear(w); }
    match step
    case Prepare => SamePlaces(w, Apply(w, step));
    case Upload(session, genuine) => if w.installed == Some(session) && genuine { UploadKeepsLinear(w, session); }
    case CancelById(session, allowed) =>
      if w.installed != Some(session) { SamePlaces(w, Apply(w, step)); }
    case Sweep(_) =>
    case Stop => SamePlaces(if w.installed.Some? then TakeInstalled(w) else w, Apply(w, step));
    case _ => TaskKeepsLinear(w, step);
  }

  lemma {:induction false} RunKeepsLinear(steps: seq<Step>)
    ensures Linear(Run(steps))
  {
    if steps != [] {
      RunKeepsLinear(steps[..|steps| - 1]);
      StepKeepsLinear(Run(steps[..|steps| - 1]), steps[|steps| - 1]);
    }
  }

  // ---- theorems ----

  function Count(b: bool): nat {
    if b then 1 else 0
  }

  /**
   At every point of every run each owner the gate gave out is in exactly one place:
   carried by one handler, installed, received or cancelled.
   */
  lemma OwnerIsInOnePlace(steps: seq<Step>, o: Owner)
    requires o < Run(steps).taken
    ensures var w := Run(steps);
            Count(InHandler(w, o)) + Count(w.installed == Some(o))
            + Count(o in w.received) + Count(o in w.cancelled) == 1
    ensures forall t: nat, u: nat :: Carries(Run(steps), t, o) && Carries(Run(steps), u, o) ==> t == u
  {
    RunKeepsLinear(steps);
    var w := Run(steps);
    if InHandler(w, o) {
      var t: nat :| Carries(w, t, o);
    }
  }

  /** Once stopping, no owner is ever installed again. */
  lemma {:induction false} StoppingIsFinal(steps: seq<Step>, n: nat)
    requires n <= |steps| && Run(steps[..n]).stopping
    ensures Run(steps).stopping && Run(steps).installed.None?
  {
    RunKeepsLinear(steps);
    if n == |steps| {
      assert steps[..n] == steps;
    } else {
      var k := |steps| - 1;
      assert steps[..k][..n] == steps[..n];
      StoppingIsFinal(steps[..k], n);
    }
  }

  lemma {:induction false} CountBelow(s: set<Owner>, n: nat)
    requires forall o :: o in s <==> 0 <= o < n
    ensures |s| == n
  {
    if n == 0 {
      assert s == {};
    } else {
      CountBelow(s - {n - 1}, n - 1);
    }
  }

  /** After an orderly stop, when all handlers have returned, every owner taken was received or cancelled. */
  lemma AllOwnersSettled(steps: seq<Step>)
    requires Run(steps).stopping
    requires forall t :: 0 <= t < |Run(steps).tasks| ==> Run(steps).tasks[t].Finished?
    ensures var w := Run(steps); w.taken == |w.received| + |w.cancelled|
  {
    RunKeepsLinear(steps);
    var w := Run(steps);
    forall o: Owner | o < w.taken
      ensures o in w.received + w.cancelled
    {
      assert !InHandler(w, o);
    }
    assert w.received !! w.cancelled;
    CountBelow(w.received + w.cancelled, w.taken);
  }

  // ---- which upload the record names ----

  /** The two steps that write another record over the active upload's. */
  predicate Overwrites(w: World, step: Step) {
    step.Stop? || (step.Upload? && step.genuine && w.installed == Some(step.session))
  }

  predicate OverwritesAt(steps: seq<Step>, n: nat)
    requires n < |steps|
  {
    Overwrites(Run(steps[..n]), steps[n])
  }

  predicate Leaves(w: World, t: nat, o: Owner) {
    t < |w.tasks| && (w.tasks[t] == Receiving(o) || w.tasks[t] == Discarding(o))
  }

  /** The owner was installed once and will not be again. */
  ghost predicate Past(w: World, o: Owner) {
    (exists t: nat :: Leaves(w, t, o)) || o in w.received || o in w.cancelled
  }

  predicate ClearingIsReceived(w: World) {
    forall t :: 0 <= t < |w.tasks| && w.tasks[t].Clearing? ==> w.tasks[t].owner in w.received
  }

  lemma StepKeepsPast(w: World, step: Step, o: Owner)
    requires Past(w, o)
    ensures Past(Apply(w, step), o)
  {
    if o !in w.received && o !in w.cancelled {
      var t: nat :| Leaves(w, t, o);
      var w' := Apply(w, step);
      if w'.tasks[t] == w.tasks[t] { assert Leaves(w', t, o); }
    }
  }

  lemma {:induction false} RunKeepsClearing(steps: seq<Step>)
    ensures ClearingIsReceived(Run(steps))
  {
    if steps != [] { RunKeepsClearing(steps[..|steps| - 1]); }
  }

  /** An owner that was uploaded is past, and so is not installed again. */
  lemma {:induction false} UploadedIsPast(steps: seq<Step>, n: nat, o: Owner)
    requires n < |steps| && steps[n] == Upload(o, true) && Run(steps[..n]).installed == Some(o)
    ensures Past(Run(steps), o) && Run(steps).installed != Some(o)
  {
    var k := |steps| - 1;
    if k == n {
      assert Leaves(Run(steps), |Run(steps[..n]).tasks|, o);
    } else {
      assert steps[..k][..n] == steps[..n];
      UploadedIsPast(steps[..k], n, o);
      StepKeepsPast(Run(steps[..k]), steps[k], o);
    }
    RunKeepsLinear(steps);
    PastIsNotInstalled(Run(steps), o);
  }

  lemma PastIsNotInstalled(w: World, o: Owner)
    requires Linear(w) && Past(w, o)
    ensures w.installed != Some(o)
  {
    if o !in w.received && o !in w.cancelled {
      var t: nat :| Leaves(w, t, o);
      assert Carries(w, t, o);
    }
  }

  /** One step while `o` is being received: the record of `o` stays unless it is overwritten, and does not come back. */
  lemma RecordStep(w: World, step: Step, t: nat, o: Owner)
    requires Linear(w) && ClearingIsReceived(w) && Past(w, o)
    requires t < |Apply(w, step).tasks| && Apply(w, step).tasks[t] == Receiving(o)
    ensures t < |w.tasks| && w.tasks[t] == Receiving(o)
    ensures Apply(w, step).active == Some(o) <==> w.active == Some(o) && !Overwrites(w, step)
  {
    PastIsNotInstalled(w, o);
    assert w.tasks[t] == Receiving(o);
    assert Carries(w, t, o);
  }

  /**
   While an upload of owner `o` is being received, the active-upload record names it
   if and only if no later step was a stop or another protected upload.
   */
  lemma {:induction false} RecordNamesUnlessOverwritten(steps: seq<Step>, n: nat, t: nat, o: Owner)
    requires n < |steps| && steps[n] == Upload(o, true) && Run(steps[..n]).installed == Some(o)
    requires t < |Run(steps).tasks| && Run(steps).tasks[t] == Receiving(o)
    ensures Run(steps).active == Some(o) <==> forall k :: n < k < |steps| ==> !OverwritesAt(steps, k)
  {
    var k := |steps| - 1;
    if k > n {
      var front := steps[..k];
      assert front[..n] == steps[..n];
      UploadedIsPast(front, n, o);
      RunKeepsLinear(front);
      RunKeepsClearing(front);
      RecordStep(Run(front), steps[k], t, o);
      RecordNamesUnlessOverwritten(front, n, t, o);
      SameOverwrites(steps, n);
    }
  }

  lemma SameOverwrites(steps: seq<Step>, n: nat)
    requires steps != [] && n < |steps| - 1
    ensures var front := steps[..|steps| - 1];
            (forall k :: n < k < |steps| ==> !OverwritesAt(steps, k)) <==>
            (forall k :: n < k < |front| ==> !OverwritesAt(front, k)) && !OverwritesAt(steps, |steps| - 1)
  {
    var front := steps[..|steps| - 1];
    forall k | n < k < |front|
      ensures OverwritesAt(front, k) == OverwritesAt(steps, k)
    {
      assert front[..k] == steps[..k];
    }
  }

  /** So a cancel by id reaches the owner of a running upload exactly as long as nothing overwrote its record. */
  lemma CancelReachesUnlessOverwritten(steps: seq<Step>, n: nat, t: nat, o: Owner)
    requires n < |steps| && steps[n] == Upload(o, true) && Run(steps[..n]).installed == Some(o)
    requires t < |Run(steps).tasks| && Run(steps).tasks[t] == Receiving(o)
    ensures o in Apply(Run(steps), CancelById(o, true)).signalled <==>
              || o in Run(steps).signalled
              || (forall k :: n < k < |steps| ==> !OverwritesAt(steps, k))
  {
    RecordNamesUnlessOverwritten(steps, n, t, o);
    UploadedIsPast(steps, n, o);
  }

  lemma RunSnoc(steps: seq<Step>, step: Step)
    ensures Run(steps + [step]) == Apply(Run(steps), step)
  {
    assert (steps + [step])[..|steps|] == steps;
  }

  /** A prepare that wins an owner and installs it, and the upload that comes for it. */
  lemma OneUpload(before: seq<Step>) returns (steps: seq<Step>)
    requires Run(before).installed.None? && !Run(before).stopping
    ensures var w, t := Run(before), |Run(before).tasks|;
            Run(steps) == w.(active := Some(w.taken), taken := w.taken + 1,
                             tasks := w.tasks + [Finished, Receiving(w.taken)])
  {
    var w, t := Run(before), |Run(before).tasks|;
    RunSnoc(before, Prepare);
    steps := before + [Prepare];
    RunSnoc(steps, TakeOwner(t, true));
    steps := steps + [TakeOwner(t, true)];
    RunSnoc(steps, Install(t));
    steps := steps + [Install(t)];
    assert Run(steps) == w.(installed := Some(w.taken), taken := w.taken + 1, tasks := w.tasks + [Finished]);
    RunSnoc(steps, Upload(w.taken, true));
    steps := steps + [Upload(w.taken, true)];
    assert w.tasks + [Finished] + [Receiving(w.taken)] == w.tasks + [Finished, Receiving(w.taken)];
  }

  /** A second protected upload overwrites that record, and the first can no longer be cancelled. */
  lemma SecondUploadHidesTheFirst() returns (steps: seq<Step>, t: nat, o: Owner)
    ensures t < |Run(steps).tasks| && Run(steps).tasks[t] == Receiving(o)
    ensures Apply(Run(steps), CancelById(o, true)) == Run(steps)
  {
    assert Run([]) == INIT;
    steps := OneUpload([]);
    assert Run(steps).tasks == [Finished, Receiving(0)];
    steps := OneUpload(steps);
    t, o := 1, 0;
  }
}
