/**
 What a receive that is over leaves behind: a failed commit, a failed opening of the
 temporary and a removal that does not go through are never made good
 (src/core/sink.rs:131-153, 175-221).
 */
module SinkLeftovers {
  import opened Options
  import opened Names
  import opened PathSafety
  import opened FileTree
  import opened Sink
  import opened SinkInvariant

  /** The step fails, or ends its future, where nobody is left to remove the temporary. */
  predicate LeavesTemp(d: Disk, step: Step, a: nat) {
    && a < |d.pending| && !step.Begin? && step.a == a
    && match d.pending[a].stage
       case Open => (step.Commit? && step.fault) || step.Abandon?
       case DiscardTemp => (step.RemoveTemp? && step.fault) || step.Abandon? || step.Vanish?
       case _ => false
  }

  /** The same for the reservation. */
  predicate LeavesFinal(saveDir: Path, d: Disk, step: Step, a: nat) {
    && a < |d.pending| && !step.Begin? && step.a == a
    && match d.pending[a].stage
       case Opening =>
         || (step.OpenTemp? &&
             (step.fault || !Lookup(d.tree, DirectoryOf(saveDir, d.pending[a]), TempName(step.uuid)).Vacant?))
         || step.Abandon? || step.Vanish?
       case Open => (step.Commit? && step.fault) || step.Abandon?
       case DiscardTemp => step.Abandon? || step.Vanish?
       case DiscardFinal => (step.RemoveFinal? && step.fault) || step.Abandon? || step.Vanish?
       case _ => false
  }

  predicate TempLeft(p: Pending) {
    p.hasTemp && !p.stage.Open? && !p.stage.DiscardTemp?
  }

  predicate FinalLeft(p: Pending) {
    p.hasFinal && p.stage.Stopped? && !p.published
  }

  /** Receive `a` has left behind what it had, or what this step leaves of it. */
  predicate LeavesThese(saveDir: Path, d: Disk, step: Step, a: nat, d': Disk)
    requires a < |d.pending|
  {
    && a < |d'.pending|
    && (TempLeft(d'.pending[a]) <==> TempLeft(d.pending[a]) || LeavesTemp(d, step, a))
    && (FinalLeft(d'.pending[a]) <==> FinalLeft(d.pending[a]) || LeavesFinal(saveDir, d, step, a))
  }

  // ---- one step ----

  lemma StatLeaves(saveDir: Path, d: Disk, b: nat, fault: bool, a: nat)
    requires a < |d.pending| && (d.pending[a].stage.Walking? ==> !d.pending[a].hasFinal && !d.pending[a].hasTemp)
    ensures LeavesThese(saveDir, d, Stat(b, fault), a, DoStat(saveDir, d, b, fault))
  {
  }

  lemma MakeLeaves(saveDir: Path, d: Disk, b: nat, fault: bool, a: nat)
    requires a < |d.pending| && (d.pending[a].stage.Making? ==> !d.pending[a].hasFinal && !d.pending[a].hasTemp)
    ensures LeavesThese(saveDir, d, Make(b, fault), a, DoMake(saveDir, d, b, fault))
  {
  }

  lemma OpenLeaves(saveDir: Path, before: Tree, root: Path, d: Disk, b: nat, uuid: Uuid, fault: bool, a: nat)
    requires Inv(saveDir, before, root, d) && a < |d.pending|
    ensures LeavesThese(saveDir, d, OpenTemp(b, uuid, fault), a, DoOpenTemp(saveDir, d, b, uuid, fault))
  {
    HolderFacts(saveDir, before, root, d, a);
  }

  lemma TriedLeaves(saveDir: Path, d: Disk, a: nat, n: nat, candidate: Name, found: Finding)
    requires a < |d.pending| && d.pending[a].stage == Reserving(n) && !d.pending[a].hasFinal && !d.pending[a].hasTemp
    ensures LeavesThese(saveDir, d, TryName(a, false), a, Tried(d, a, n, candidate, found))
    ensures LeavesThese(saveDir, d, TryName(a, true), a, Stop(d, a))
  {
  }

  lemma TryLeaves(saveDir: Path, before: Tree, root: Path, d: Disk, b: nat, fault: bool, a: nat)
    requires Inv(saveDir, before, root, d) && a < |d.pending|
    ensures LeavesThese(saveDir, d, TryName(b, fault), a, DoTryName(saveDir, d, b, fault))
  {
    HolderFacts(saveDir, before, root, d, a);
    if b == a && d.pending[a].stage.Reserving? {
      var me, n := d.pending[a], d.pending[a].stage.attempt;
      var candidate := Candidate(me.leaf, n);
      TriedLeaves(saveDir, d, a, n, candidate, Lookup(d.tree, DirectoryOf(saveDir, me), candidate));
    }
  }

  lemma BodyLeaves(saveDir: Path, before: Tree, root: Path, d: Disk, step: Step, a: nat)
    requires Inv(saveDir, before, root, d) && a < |d.pending|
    requires step.Write? || step.Commit?
    ensures LeavesThese(saveDir, d, step, a, Apply(saveDir, d, step))
  {
    HolderFacts(saveDir, before, root, d, a);
    if step.a == a && d.pending[a].stage.Open? { TwoFiles(saveDir, before, root, d, a); }
  }

  lemma RemovalLeaves(saveDir: Path, before: Tree, root: Path, d: Disk, step: Step, a: nat)
    requires Inv(saveDir, before, root, d) && a < |d.pending|
    requires step.RemoveTemp? || step.RemoveFinal?
    ensures LeavesThese(saveDir, d, step, a, Apply(saveDir, d, step))
  {
    HolderFacts(saveDir, before, root, d, a);
    var me := d.pending[a];
    if step.a == a && step.RemoveTemp? && me.stage.DiscardTemp? { TwoFiles(saveDir, before, root, d, a); }
    if step.a == a && step.RemoveFinal? && me.stage.DiscardFinal? {
      LookupHere(saveDir, before, root, d, a, me.chosen);
      assert Holder(root, d, a, Place(root, me, me.chosen));
    }
  }

  lemma EndLeaves(saveDir: Path, before: Tree, root: Path, d: Disk, step: Step, a: nat)
    requires Inv(saveDir, before, root, d) && a < |d.pending|
    requires step.Begin? || step.Discard? || step.Vanish? || step.Abandon?
    ensures LeavesThese(saveDir, d, step, a, Apply(saveDir, d, step))
  {
    HolderFacts(saveDir, before, root, d, a);
  }

  lemma StepLeaves(saveDir: Path, before: Tree, root: Path, d: Disk, step: Step, a: nat)
    requires Inv(saveDir, before, root, d) && a < |d.pending|
    ensures LeavesThese(saveDir, d, step, a, Apply(saveDir, d, step))
  {
    HolderFacts(saveDir, before, root, d, a);
    if step.Stat? {
      StatLeaves(saveDir, d, step.a, step.fault, a);
    } else if step.Make? {
      MakeLeaves(saveDir, d, step.a, step.fault, a);
    } else if step.OpenTemp? {
      OpenLeaves(saveDir, before, root, d, step.a, step.uuid, step.fault, a);
    } else if step.TryName? {
      TryLeaves(saveDir, before, root, d, step.a, step.fault, a);
    } else if step.Write? || step.Commit? {
      BodyLeaves(saveDir, before, root, d, step, a);
    } else if step.RemoveTemp? || step.RemoveFinal? {
      RemovalLeaves(saveDir, before, root, d, step, a);
    } else {
      EndLeaves(saveDir, before, root, d, step, a);
    }
  }

  // ---- runs ----

  predicate LeavesTempAt(saveDir: Path, before: Tree, steps: seq<Step>, a: nat, n: nat)
    requires n < |steps|
  {
    LeavesTemp(Run(saveDir, before, steps[..n]), steps[n], a)
  }

  predicate LeavesFinalAt(saveDir: Path, before: Tree, steps: seq<Step>, a: nat, n: nat)
    requires n < |steps|
  {
    LeavesFinal(saveDir, Run(saveDir, before, steps[..n]), steps[n], a)
  }

  ghost predicate EverLeavesTemp(saveDir: Path, before: Tree, steps: seq<Step>, a: nat) {
    exists n :: 0 <= n < |steps| && LeavesTempAt(saveDir, before, steps, a, n)
  }

  ghost predicate EverLeavesFinal(saveDir: Path, before: Tree, steps: seq<Step>, a: nat) {
    exists n :: 0 <= n < |steps| && LeavesFinalAt(saveDir, before, steps, a, n)
  }

  /** One more step of the schedule. */
  lemma TempSnoc(saveDir: Path, before: Tree, steps: seq<Step>, a: nat)
    requires steps != []
    ensures var k := |steps| - 1;
            EverLeavesTemp(saveDir, before, steps, a) <==>
              || EverLeavesTemp(saveDir, before, steps[..k], a)
              || LeavesTemp(Run(saveDir, before, steps[..k]), steps[k], a)
  {
    var k := |steps| - 1;
    assert LeavesTempAt(saveDir, before, steps, a, k) <==> LeavesTemp(Run(saveDir, before, steps[..k]), steps[k], a);
    forall n | 0 <= n < k
      ensures LeavesTempAt(saveDir, before, steps, a, n) <==> LeavesTempAt(saveDir, before, steps[..k], a, n)
    {
      assert steps[..k][..n] == steps[..n];
    }
  }

  lemma FinalSnoc(saveDir: Path, before: Tree, steps: seq<Step>, a: nat)
    requires steps != []
    ensures var k := |steps| - 1;
            EverLeavesFinal(saveDir, before, steps, a) <==>
              || EverLeavesFinal(saveDir, before, steps[..k], a)
              || LeavesFinal(saveDir, Run(saveDir, before, steps[..k]), steps[k], a)
  {
    var k := |steps| - 1;
    assert LeavesFinalAt(saveDir, before, steps, a, k) <==>
           LeavesFinal(saveDir, Run(saveDir, before, steps[..k]), steps[k], a);
    forall n | 0 <= n < k
      ensures LeavesFinalAt(saveDir, before, steps, a, n) <==> LeavesFinalAt(saveDir, before, steps[..k], a, n)
    {
      assert steps[..k][..n] == steps[..n];
    }
  }

  lemma PendingGrows(saveDir: Path, d: Disk, step: Step)
    ensures var d' := Apply(saveDir, d, step); |d'.pending| == |d.pending| + if step.Begin? then 1 else 0
    ensures step.Begin? ==> Apply(saveDir, d, step).pending == d.pending + [Begun(step.name)]
  {
  }

  lemma {:induction false} LeftIffLeaves(saveDir: Path, before: Tree, root: Path, steps: seq<Step>, d: Disk, a: nat)
    requires Resolve(before, [], saveDir, SYMLINK_LIMIT) == Some(root) && d == Run(saveDir, before, steps)
    ensures EverLeavesTemp(saveDir, before, steps, a) <==> a < |d.pending| && TempLeft(d.pending[a])
    ensures EverLeavesFinal(saveDir, before, steps, a) <==> a < |d.pending| && FinalLeft(d.pending[a])
  {
    if steps != [] {
      var k := |steps| - 1;
      var d0 := Run(saveDir, before, steps[..k]);
      LeftIffLeaves(saveDir, before, root, steps[..k], d0, a);
      TempSnoc(saveDir, before, steps, a);
      FinalSnoc(saveDir, before, steps, a);
      PendingGrows(saveDir, d0, steps[k]);
      if a < |d0.pending| {
        RunKeepsInv(saveDir, before, root, steps[..k]);
        StepLeaves(saveDir, before, root, d0, steps[k], a);
      }
    }
  }

  /**
   Exactly what an ended receive that published nothing still holds: its temporary, or
   its reservation, if and only if one of its steps failed, or its future ended, where
   nobody was left to remove it.
   */
  lemma LeftBehindIff(saveDir: Path, before: Tree, root: Path, steps: seq<Step>, d: Disk, a: nat)
    requires Resolve(before, [], saveDir, SYMLINK_LIMIT) == Some(root) && d == Run(saveDir, before, steps)
    requires a < |d.pending| && d.pending[a].stage.Stopped? && !d.pending[a].published
    ensures var p := d.pending[a];
            && (p.hasTemp <==> EverLeavesTemp(saveDir, before, steps, a))
            && (p.hasFinal <==> EverLeavesFinal(saveDir, before, steps, a))
            && (p.hasTemp ==> Place(root, p, p.temp) in d.tree && d.tree[Place(root, p, p.temp)] == File(p.data))
            && (p.hasFinal ==> Place(root, p, p.chosen) in d.tree && d.tree[Place(root, p, p.chosen)] == File([]))
  {
    LeftIffLeaves(saveDir, before, root, steps, d, a);
    RunKeepsInv(saveDir, before, root, steps);
    var p := d.pending[a];
    HolderFacts(saveDir, before, root, d, a);
    assert p.hasTemp ==> Holder(root, d, a, Place(root, p, p.temp));
    assert p.hasFinal ==> Holder(root, d, a, Place(root, p, p.chosen));
    if p.hasTemp && p.hasFinal {
      assert Place(root, p, p.chosen)[|Place(root, p, p.chosen)| - 1] == p.chosen;
      assert Place(root, p, p.temp)[|Place(root, p, p.temp)| - 1] == p.temp;
    }
  }
}
