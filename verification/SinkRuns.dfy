/** Runs of the sink machine in which one receive is alone, extended one system call at a time. */
module SinkRuns {
  import opened Options
  import opened Names
  import opened PathSafety
  import opened FileTree
  import opened Sink

  datatype Trace = Trace(saveDir: Path, before: Tree, steps: seq<Step>)

  predicate LeadsTo(r: Trace, d: Disk) {
    Run(r.saveDir, r.before, r.steps) == d
  }

  /** The run leads to this tree with this one receive. */
  ghost predicate Shows(r: Trace, tree: Tree, p: Pending) {
    forall d :: LeadsTo(r, d) ==> d == Disk(tree, [p])
  }

  lemma ShownDisk(r: Trace, tree: Tree, p: Pending)
    requires Shows(r, tree, p)
    ensures Run(r.saveDir, r.before, r.steps) == Disk(tree, [p])
  {
    assert LeadsTo(r, Run(r.saveDir, r.before, r.steps));
  }

  function After(r: Trace, step: Step): Trace {
    r.(steps := r.steps + [step])
  }

  /** The same run, continued. */
  predicate Extends(r: Trace, longer: Trace) {
    longer.saveDir == r.saveDir && longer.before == r.before && r.steps <= longer.steps
  }

  /** One more step of a run whose disk is known. */
  lemma RunAfter(r: Trace, step: Step)
    ensures Run(r.saveDir, r.before, After(r, step).steps) == Apply(r.saveDir, Run(r.saveDir, r.before, r.steps), step)
  {
    assert (r.steps + [step])[..|r.steps|] == r.steps;
  }

  function Started(saveDir: Path, before: Tree, name: Bytes): Trace {
    Trace(saveDir, before, [Begin(name)])
  }

  lemma StartShows(saveDir: Path, before: Tree, name: Bytes)
    ensures Shows(Started(saveDir, before, name), before, Begun(name))
  {
    RunAfter(Trace(saveDir, before, []), Begin(name));
    assert [] + [Begin(name)] == [Begin(name)];
  }

  function Seen(found: Finding, k: nat): Stage {
    match found
    case Entry(_, node) => if node.Dir? then Walking(k + 1) else Stopped
    case Vacant(_) => Making(k)
    case Unreachable => Stopped
  }

  lemma StatShows(r: Trace, tree: Tree, p: Pending, k: nat, fault: bool)
    requires Shows(r, tree, p) && p.stage == Walking(k) && k < |p.directory|
    ensures var found := Lookup(tree, r.saveDir + p.directory[..k], p.directory[k]);
            Shows(After(r, Stat(0, fault)), tree, p.(stage := if fault then Stopped else Seen(found, k)))
  {
    ShownDisk(r, tree, p);
    RunAfter(r, Stat(0, fault));
  }

  lemma MakeShows(r: Trace, tree: Tree, p: Pending, k: nat)
    requires Shows(r, tree, p) && p.stage == Making(k) && k < |p.directory|
    ensures Shows(After(r, Make(0, true)), tree, p.(stage := Stopped))
    ensures var place := Lookup(tree, r.saveDir + p.directory[..k], p.directory[k]);
            place.Vacant? ==> Shows(After(r, Make(0, false)), tree[place.at := Dir], p.(stage := Walking(k + 1)))
  {
    ShownDisk(r, tree, p);
    RunAfter(r, Make(0, true));
    RunAfter(r, Make(0, false));
  }

  lemma EnteredShows(r: Trace, tree: Tree, p: Pending)
    requires Shows(r, tree, p) && p.stage == Walking(|p.directory|)
    ensures Shows(After(r, Stat(0, false)), tree, p.(stage := Reserving(0)))
  {
    ShownDisk(r, tree, p);
    RunAfter(r, Stat(0, false));
  }

  lemma TryFailsShows(r: Trace, tree: Tree, p: Pending, n: nat)
    requires Shows(r, tree, p) && p.stage == Reserving(n) && n <= MAX_COLLISION_ATTEMPTS
    ensures Shows(After(r, TryName(0, true)), tree, p.(stage := Stopped))
  {
    ShownDisk(r, tree, p);
    RunAfter(r, TryName(0, true));
    var d := Disk(tree, [p]);
    assert DoTryName(r.saveDir, d, 0, true) == Stop(d, 0);
  }

  lemma TryStep(saveDir: Path, tree: Tree, p: Pending, n: nat, candidate: Name)
    requires p.stage == Reserving(n) && n <= MAX_COLLISION_ATTEMPTS && candidate == Candidate(p.leaf, n)
    ensures DoTryName(saveDir, Disk(tree, [p]), 0, false) ==
            Tried(Disk(tree, [p]), 0, n, candidate, Lookup(tree, saveDir + p.directory, candidate))
  {
  }

  lemma TryShows(r: Trace, tree: Tree, p: Pending, n: nat, candidate: Name)
    requires Shows(r, tree, p) && p.stage == Reserving(n)
    requires n <= MAX_COLLISION_ATTEMPTS && candidate == Candidate(p.leaf, n)
    ensures Run(r.saveDir, r.before, After(r, TryName(0, false)).steps) ==
            Tried(Disk(tree, [p]), 0, n, candidate, Lookup(tree, r.saveDir + p.directory, candidate))
  {
    ShownDisk(r, tree, p);
    TryStep(r.saveDir, tree, p, n, candidate);
    RunAfter(r, TryName(0, false));
  }

  lemma Try(r: Trace, tree: Tree, p: Pending, n: nat, candidate: Name, fault: bool) returns (longer: Trace)
    requires Shows(r, tree, p) && p.stage == Reserving(n)
    requires n <= MAX_COLLISION_ATTEMPTS && candidate == Candidate(p.leaf, n)
    ensures Extends(r, longer)
    ensures Run(r.saveDir, r.before, longer.steps) ==
            if fault then Disk(tree, [p.(stage := Stopped)])
            else Tried(Disk(tree, [p]), 0, n, candidate, Lookup(tree, r.saveDir + p.directory, candidate))
  {
    ShownDisk(r, tree, p);
    longer := After(r, TryName(0, fault));
    if fault { TryFailsShows(r, tree, p, n); } else { TryShows(r, tree, p, n, candidate); }
  }

  lemma OpenShows(r: Trace, tree: Tree, p: Pending, uuid: Uuid)
    requires Shows(r, tree, p) && p.stage.Opening?
    ensures Shows(After(r, OpenTemp(0, uuid, true)), tree, p.(stage := Stopped))
    ensures var temp := TempName(uuid); var place := Lookup(tree, r.saveDir + p.directory, temp);
            place.Vacant? ==>
              Shows(After(r, OpenTemp(0, uuid, false)), tree[place.at := File([])],
                    p.(stage := Open, temp := temp, hasTemp := true))
  {
    ShownDisk(r, tree, p);
    RunAfter(r, OpenTemp(0, uuid, true));
    RunAfter(r, OpenTemp(0, uuid, false));
  }

  lemma WriteShows(r: Trace, tree: Tree, p: Pending, bytes: Bytes)
    requires Shows(r, tree, p) && p.stage.Open?
    ensures var place := Lookup(tree, r.saveDir + p.directory, p.temp);
            place.Entry? && place.node.File? ==>
              Shows(After(r, Write(0, bytes)), tree[place.at := File(place.node.content + bytes)],
                    p.(data := p.data + bytes))
  {
    ShownDisk(r, tree, p);
    RunAfter(r, Write(0, bytes));
  }

  lemma CommitShows(r: Trace, tree: Tree, p: Pending)
    requires Shows(r, tree, p) && p.stage.Open?
    ensures Shows(After(r, Commit(0, true)), tree, p.(stage := Stopped))
    ensures var from := Lookup(tree, r.saveDir + p.directory, p.temp);
            var to := Lookup(tree, r.saveDir + p.directory, p.chosen);
            from.Entry? && from.node.File? && !to.Unreachable? && !(to.Entry? && to.node.Dir?) ==>
              Shows(After(r, Commit(0, false)), (tree - {from.at})[to.at := from.node],
                    p.(stage := Stopped, hasTemp := false, published := true))
  {
    ShownDisk(r, tree, p);
    RunAfter(r, Commit(0, true));
    RunAfter(r, Commit(0, false));
  }

  lemma DiscardShows(r: Trace, tree: Tree, p: Pending)
    requires Shows(r, tree, p) && p.stage.Open?
    ensures Shows(After(r, Discard(0)), tree, p.(stage := DiscardTemp))
  {
    ShownDisk(r, tree, p);
    RunAfter(r, Discard(0));
  }

  lemma RemoveTempShows(r: Trace, tree: Tree, p: Pending)
    requires Shows(r, tree, p) && p.stage.DiscardTemp?
    ensures Shows(After(r, RemoveTemp(0, true)), tree, p.(stage := DiscardFinal))
    ensures var place := Lookup(tree, r.saveDir + p.directory, p.temp);
            place.Entry? && !place.node.Dir? ==>
              Shows(After(r, RemoveTemp(0, false)), tree - {place.at}, p.(stage := DiscardFinal, hasTemp := false))
  {
    ShownDisk(r, tree, p);
    RunAfter(r, RemoveTemp(0, true));
    RunAfter(r, RemoveTemp(0, false));
  }

  lemma RemoveFinalShows(r: Trace, tree: Tree, p: Pending)
    requires Shows(r, tree, p) && p.stage.DiscardFinal?
    ensures Shows(After(r, RemoveFinal(0, true)), tree, p.(stage := Stopped))
    ensures var place := Lookup(tree, r.saveDir + p.directory, p.chosen);
            place.Entry? && !place.node.Dir? ==>
              Shows(After(r, RemoveFinal(0, false)), tree - {place.at}, p.(stage := Stopped, hasFinal := false))
  {
    ShownDisk(r, tree, p);
    RunAfter(r, RemoveFinal(0, true));
    RunAfter(r, RemoveFinal(0, false));
  }

  function Gone(at: Path, removed: bool): set<Path> {
    if removed then {at} else {}
  }

  function Discarded(p: Pending, temp: bool, reservation: bool): Pending {
    p.(stage := Stopped, hasTemp := !temp && p.hasTemp, hasFinal := !reservation && p.hasFinal)
  }

  /** Both removals were tried, one after the other. */
  predicate DiscardRun(r: Trace, longer: Trace, temp: bool, reservation: bool) {
    longer == After(After(After(r, Discard(0)), RemoveTemp(0, !temp)), RemoveFinal(0, !reservation))
  }

  /** A whole discard, of which each removal worked or did not. */
  lemma DiscardedShows(r: Trace, tree: Tree, p: Pending, tempAt: Path, finalAt: Path, temp: bool, reservation: bool)
    returns (longer: Trace)
    requires Shows(r, tree, p) && p.stage.Open?
    requires var found := Lookup(tree, r.saveDir + p.directory, p.temp);
             found.Entry? && found.at == tempAt && !found.node.Dir?
    requires var found := Lookup(tree - Gone(tempAt, temp), r.saveDir + p.directory, p.chosen);
             found.Entry? && found.at == finalAt && !found.node.Dir?
    ensures DiscardRun(r, longer, temp, reservation) && Extends(r, longer)
    ensures Shows(longer, tree - Gone(tempAt, temp) - Gone(finalAt, reservation), Discarded(p, temp, reservation))
  {
    DiscardShows(r, tree, p);
    var r1, p1 := After(r, Discard(0)), p.(stage := DiscardTemp);
    RemoveTempShows(r1, tree, p1);
    var r2 := After(r1, RemoveTemp(0, !temp));
    var p2 := p1.(stage := DiscardFinal, hasTemp := !temp && p.hasTemp);
    var tree2 := tree - Gone(tempAt, temp);
    assert tree - {} == tree;
    assert Shows(r2, tree2, p2);
    RemoveFinalShows(r2, tree2, p2);
    assert tree2 - {} == tree2;
    longer := After(r2, RemoveFinal(0, !reservation));
  }
}
