/** What the ledger of the sink means for its callers (src/core/sink.rs:105-295). */
module SinkTheorems {
  import opened Options
  import opened Names
  import opened PathSafety
  import opened FileTree
  import opened Sink
  import opened SinkInvariant

  /**
   Containment: whatever names arrive and whatever links lie below the root, entries
   that existed stay as they are, and every new entry is the real receive root followed
   by one or more plain names, and is a directory or a regular file.
   */
  lemma NothingOutsideTheRoot(saveDir: Path, before: Tree, root: Path, steps: seq<Step>, d: Disk, q: Path)
    requires d == Run(saveDir, before, steps)
    requires Resolve(before, [], saveDir, SYMLINK_LIMIT) == Some(root)
    ensures var t := d.tree;
            && (q in before ==> q in t && t[q] == before[q])
            && (q in t && q !in before ==> Inside(root, q) && !t[q].Symlink?)
  {
    RunKeepsInv(saveDir, before, root, steps);
    if q in d.tree && q !in before && Held(root, d, q) {
      var a: nat :| Holder(root, d, a, q);
      var me := d.pending[a];
      assert q[..|root|] == root;
      HolderFacts(saveDir, before, root, d, a);
    }
  }

  /**
   A reserved destination is the receive root followed by plain components, entered
   only through real directories while the receive is under way.
   */
  lemma ReservedThroughRealDirectories(saveDir: Path, before: Tree, root: Path, steps: seq<Step>, d: Disk, a: nat)
    requires d == Run(saveDir, before, steps)
    requires Resolve(before, [], saveDir, SYMLINK_LIMIT) == Some(root)
    requires a < |d.pending|
    requires d.pending[a].hasFinal
    ensures var me := d.pending[a];
            && AllPlain(me.directory) && Plain(me.chosen) && AllPlain(me.directory + [me.chosen])
            && Place(root, me, me.chosen) in d.tree && d.tree[Place(root, me, me.chosen)].File?
            && (!me.stage.Stopped? ==>
                  && RealChain(d.tree, root, me.directory)
                  && var at := Place(root, me, me.chosen);
                  Lookup(d.tree, DirectoryOf(saveDir, me), me.chosen) == Entry(at, d.tree[at]))
  {
    RunKeepsInv(saveDir, before, root, steps);
    var me := d.pending[a];
    HolderFacts(saveDir, before, root, d, a);
    assert Holds(root, me, Place(root, me, me.chosen));
    if !me.stage.Stopped? {
      LookupHere(saveDir, before, root, d, a, me.chosen);
    }
  }

  /** No two receives ever hold the same path, and a receive's own two files differ. */
  lemma DestinationsDisjoint(saveDir: Path, before: Tree, root: Path, steps: seq<Step>, d: Disk, a: nat, b: nat)
    requires d == Run(saveDir, before, steps)
    requires Resolve(before, [], saveDir, SYMLINK_LIMIT) == Some(root)
    requires a < |d.pending| && b < |d.pending|
    ensures var p, q := d.pending[a], d.pending[b];
            && (a != b && p.hasFinal && q.hasFinal ==> Place(root, p, p.chosen) != Place(root, q, q.chosen))
            && (a != b && p.hasTemp && q.hasTemp ==> Place(root, p, p.temp) != Place(root, q, q.temp))
            && (p.hasFinal && q.hasTemp ==> Place(root, p, p.chosen) != Place(root, q, q.temp))
  {
    RunKeepsInv(saveDir, before, root, steps);
    var p, q := d.pending[a], d.pending[b];
    assert PendingOk(d.tree, root, p);
    assert p.hasFinal ==> Holder(root, d, a, Place(root, p, p.chosen));
    assert p.hasTemp ==> Holder(root, d, a, Place(root, p, p.temp));
    assert q.hasFinal ==> Holder(root, d, b, Place(root, q, q.chosen));
    assert q.hasTemp ==> Holder(root, d, b, Place(root, q, q.temp));
    if a == b && p.hasFinal && p.hasTemp {
      assert Place(root, p, p.chosen)[|Place(root, p, p.chosen)| - 1] == p.chosen;
      assert Place(root, p, p.temp)[|Place(root, p, p.temp)| - 1] == p.temp;
    }
  }

  /** No step changes an entry that existed before the run or that another receive holds. */
  lemma NoInterference(saveDir: Path, before: Tree, root: Path, steps: seq<Step>, d: Disk, step: Step, q: Path)
    requires d == Run(saveDir, before, steps)
    requires Resolve(before, [], saveDir, SYMLINK_LIMIT) == Some(root)
    requires q in before || (exists b: nat :: Holder(root, d, b, q) && (step.Begin? || step.a != b))
    ensures var d' := Apply(saveDir, d, step);
            q in d.tree && q in d'.tree && d'.tree[q] == d.tree[q]
  {
    RunKeepsInv(saveDir, before, root, steps);
    StepKeepsInv(saveDir, before, root, d, step);
    if q !in before {
      var b: nat :| Holder(root, d, b, q) && (step.Begin? || step.a != b);
      assert !step.Begin? ==> !Holder(root, d, step.a, q);
    }
  }

  /** Once both removals of a discard succeed the receive holds nothing any more. */
  lemma DiscardReleases(saveDir: Path, before: Tree, root: Path, steps: seq<Step>, d: Disk, a: nat)
    requires d == Run(saveDir, before, steps)
    requires Resolve(before, [], saveDir, SYMLINK_LIMIT) == Some(root)
    requires a < |d.pending|
    requires d.pending[a].stage.DiscardTemp?
    ensures var d' := DoRemoveFinal(saveDir, DoRemoveTemp(saveDir, d, a, false), a, false);
            var me := d.pending[a];
            && a < |d'.pending|
            && !d'.pending[a].hasFinal && !d'.pending[a].hasTemp
            && d'.tree == d.tree - {Place(root, me, me.temp), Place(root, me, me.chosen)}
  {
    RunKeepsInv(saveDir, before, root, steps);
    var me := d.pending[a];
    HolderFacts(saveDir, before, root, d, a);
    TwoFiles(saveDir, before, root, d, a);
    RemoveTempKeepsInv(saveDir, before, root, d, a, false);
    var d1 := DoRemoveTemp(saveDir, d, a, false);
    LookupHere(saveDir, before, root, d1, a, me.chosen);
    assert Holder(root, d1, a, Place(root, me, me.chosen));
  }

  /**
   Conservation: when no receive holds a file any more, the files and links of the
   tree are exactly those it had before; only directories can have come.
   */
  lemma NothingHeldNothingLeft(saveDir: Path, before: Tree, root: Path, steps: seq<Step>, d: Disk, q: Path)
    requires d == Run(saveDir, before, steps)
    requires Resolve(before, [], saveDir, SYMLINK_LIMIT) == Some(root)
    requires forall a :: 0 <= a < |d.pending| ==>
               !d.pending[a].hasFinal && !d.pending[a].hasTemp
    ensures var t := d.tree;
            && (q in before ==> q in t && t[q] == before[q])
            && (q in t && q !in before ==> t[q].Dir? && Inside(root, q))
  {
    RunKeepsInv(saveDir, before, root, steps);
    assert !Held(root, d, q);
  }

  // ---- a receive directory that does not resolve ----

  lemma {:induction false} ResolveFails(t: Tree, base: Path, directory: Path, hops: nat, names: Path)
    requires Resolve(t, base, directory, hops).None?
    ensures Resolve(t, base, directory + names, hops).None?
    decreases hops, |directory|
  {
    var rest := directory[1..];
    assert (directory + names)[1..] == rest + names;
    if directory[0] == [] || directory[0] == [DOT] {
      ResolveFails(t, base, rest, hops, names);
    } else if directory[0] == [DOT, DOT] {
      ResolveFails(t, Parent(base), rest, hops, names);
    } else {
      var next := base + [directory[0]];
      if next in t && t[next].Dir? {
        ResolveFails(t, next, rest, hops, names);
      } else if next in t && t[next].Symlink? && hops > 0 {
        var target := t[next].target;
        assert target + (rest + names) == (target + rest) + names;
        ResolveFails(t, if t[next].absolute then [] else base, target + rest, hops - 1, names);
      }
    }
  }

  predicate NeverOpened(d: Disk) {
    forall a :: 0 <= a < |d.pending| ==>
      d.pending[a].stage.Walking? || d.pending[a].stage.Reserving? || d.pending[a].stage.Stopped?
  }

  lemma UnresolvedStep(saveDir: Path, d: Disk, step: Step)
    requires Resolve(d.tree, [], saveDir, SYMLINK_LIMIT).None? && NeverOpened(d)
    ensures Apply(saveDir, d, step).tree == d.tree && NeverOpened(Apply(saveDir, d, step))
  {
    if (step.Stat? || step.TryName?) && step.a < |d.pending| {
      var me := d.pending[step.a];
      if step.Stat? && me.stage.Walking? && me.stage.k < |me.directory| {
        ResolveFails(d.tree, [], saveDir, SYMLINK_LIMIT, me.directory[..me.stage.k]);
      }
      ResolveFails(d.tree, [], saveDir, SYMLINK_LIMIT, me.directory);
    }
  }

  /** With a receive directory that does not resolve, nothing is ever created or changed. */
  lemma {:induction false} UnresolvedRootStaysUntouched(saveDir: Path, before: Tree, steps: seq<Step>)
    requires Resolve(before, [], saveDir, SYMLINK_LIMIT).None?
    ensures Run(saveDir, before, steps).tree == before && NeverOpened(Run(saveDir, before, steps))
  {
    if steps != [] {
      UnresolvedRootStaysUntouched(saveDir, before, steps[..|steps| - 1]);
      UnresolvedStep(saveDir, Run(saveDir, before, steps[..|steps| - 1]), steps[|steps| - 1]);
    }
  }
}
