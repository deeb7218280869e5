/**
 The atomic file sink as the code a single receive runs, over a file system whose
 every call may fail (src/core/sink.rs:105-314).  What it does is a run of module
 Sink, which interleaves receives; the run is kept as a ghost trace.
 */
module AtomicSink {
  import opened Options
  import Utf8
  import opened Names
  import opened PathSafety
  import opened FileTree
  import opened Sets
  import S = Sink
  import SinkInvariant
  import opened SinkRuns

  datatype IoError = NotFound | AlreadyExists | OtherError

  datatype Metadata = Metadata(isDir: bool) | StatError(error: IoError)

  /** A healthy file system fails a call only for what is in the tree, or for a name that is too long. */
  class FileSystem {
    const healthy: bool
    var tree: Tree

    constructor (tree: Tree, healthy: bool)
      ensures this.tree == tree && this.healthy == healthy
    {
      this.tree := tree;
      this.healthy := healthy;
    }

    predicate Works(leaf: Name) {
      healthy && |leaf| <= MAX_COMPONENT_BYTES
    }

    method Fault(leaf: Name) returns (fault: bool)
      ensures Works(leaf) ==> !fault
      ensures |leaf| > MAX_COMPONENT_BYTES ==> fault
    {
      fault := *;
      if healthy { fault := false; }
      if |leaf| > MAX_COMPONENT_BYTES { fault := true; }
    }

    method SymlinkMetadata(directory: Path, leaf: Name) returns (r: Metadata)
      ensures r.Metadata? ==>
                var found := Lookup(tree, directory, leaf); found.Entry? && (r.isDir <==> found.node.Dir?)
      ensures r == StatError(NotFound) ==> !Lookup(tree, directory, leaf).Entry?
      ensures Works(leaf) && Lookup(tree, directory, leaf).Entry? ==> r.Metadata?
      ensures Works(leaf) && Lookup(tree, directory, leaf).Vacant? ==> r == StatError(NotFound)
    {
      var fault := Fault(leaf);
      if fault {
        return StatError(OtherError);
      }
      match Lookup(tree, directory, leaf)
      case Entry(_, node) => r := Metadata(node.Dir?);
      case Vacant(_) => r := StatError(NotFound);
      case Unreachable =>
        var missing: bool := *;
        r := StatError(if missing then NotFound else OtherError);
    }

    method CreateDir(directory: Path, leaf: Name) returns (ok: bool)
      modifies this
      ensures ok ==>
                var place := Lookup(old(tree), directory, leaf); place.Vacant? && tree == old(tree)[place.at := Dir]
      ensures !ok ==> tree == old(tree)
      ensures Works(leaf) ==> (ok <==> Lookup(old(tree), directory, leaf).Vacant?)
    {
      var fault := Fault(leaf);
      var place := Lookup(tree, directory, leaf);
      ok := !fault && place.Vacant?;
      if ok {
        tree := tree[place.at := Dir];
      }
    }

    /** An exclusive create; `None` is success. */
    method CreateNew(directory: Path, leaf: Name) returns (error: Option<IoError>)
      modifies this
      ensures error.None? ==>
                var place := Lookup(old(tree), directory, leaf);
                place.Vacant? && tree == old(tree)[place.at := File([])]
      ensures error.None? ==> |leaf| <= MAX_COMPONENT_BYTES
      ensures error.Some? ==> tree == old(tree)
      ensures error == Some(AlreadyExists) ==> Lookup(old(tree), directory, leaf).Entry?
      ensures Works(leaf) && Lookup(old(tree), directory, leaf).Vacant? ==> error.None?
      ensures Works(leaf) && Lookup(old(tree), directory, leaf).Entry? ==> error == Some(AlreadyExists)
    {
      var fault := Fault(leaf);
      if fault {
        return Some(OtherError);
      }
      match Lookup(tree, directory, leaf)
      case Entry(_, _) => error := Some(AlreadyExists);
      case Vacant(at) =>
        tree := tree[at := File([])];
        error := None;
      case Unreachable => error := Some(OtherError);
    }

    /** A failing write may have written part of its bytes. */
    method Append(directory: Path, leaf: Name, bytes: Bytes) returns (ok: bool)
      modifies this
      ensures ok ==>
                var place := Lookup(old(tree), directory, leaf);
                place.Entry? && place.node.File? && tree == old(tree)[place.at := File(place.node.content + bytes)]
      ensures !ok ==>
                || tree == old(tree)
                || (var place := Lookup(old(tree), directory, leaf);
                    && place.Entry? && place.node.File?
                    && (exists n :: 0 <= n <= |bytes| &&
                          tree == old(tree)[place.at := File(place.node.content + bytes[..n])]))
      ensures Works(leaf) ==>
                (ok <==> var place := Lookup(old(tree), directory, leaf); place.Entry? && place.node.File?)
    {
      var fault := Fault(leaf);
      var place := Lookup(tree, directory, leaf);
      ok := false;
      if place.Entry? && place.node.File? {
        var n: nat :| n <= |bytes|;
        ok := !fault;
        tree := tree[place.at := File(place.node.content + if ok then bytes else bytes[..n])];
      }
    }

    method Rename(directory: Path, from: Name, to: Name) returns (ok: bool)
      modifies this
      ensures ok ==>
                var source, target := Lookup(old(tree), directory, from), Lookup(old(tree), directory, to);
                && source.Entry? && source.node.File? && !target.Unreachable?
                && !(target.Entry? && target.node.Dir?)
                && tree == (old(tree) - {source.at})[target.at := source.node]
      ensures !ok ==> tree == old(tree)
      ensures Works(from) && Works(to) ==>
                (ok <==>
                   var source, target := Lookup(old(tree), directory, from), Lookup(old(tree), directory, to);
                   source.Entry? && source.node.File? && !target.Unreachable? && !(target.Entry? && target.node.Dir?))
    {
      var f := Fault(from);
      var g := Fault(to);
      var source, target := Lookup(tree, directory, from), Lookup(tree, directory, to);
      ok := !f && !g && source.Entry? && source.node.File? && !target.Unreachable?
            && !(target.Entry? && target.node.Dir?);
      if ok {
        tree := (tree - {source.at})[target.at := source.node];
      }
    }

    method RemoveFile(directory: Path, leaf: Name) returns (ok: bool)
      modifies this
      ensures ok ==>
                var place := Lookup(old(tree), directory, leaf);
                place.Entry? && !place.node.Dir? && tree == old(tree) - {place.at}
      ensures !ok ==> tree == old(tree)
      ensures Works(leaf) ==>
                (ok <==> var place := Lookup(old(tree), directory, leaf); place.Entry? && !place.node.Dir?)
    {
      var fault := Fault(leaf);
      var place := Lookup(tree, directory, leaf);
      ok := !fault && place.Entry? && !place.node.Dir?;
      if ok {
        tree := tree - {place.at};
      }
    }
  }

  // ---- the walk ----

  datatype Walk = Walked | NotADirectory(k: nat) | WalkFailed

  /** The tree with every missing directory of the chain added, and nothing else changed. */
  function WithDirectories(t: Tree, at: Path, names: Path): Tree {
    if names == [] then t
    else
      var u := WithDirectories(t, at, names[..|names| - 1]);
      if at + names in u then u else u[at + names := Dir]
  }

  lemma {:induction false} DirectoriesOnly(t: Tree, at: Path, names: Path)
    ensures var u := WithDirectories(t, at, names);
            && (forall p :: p in t ==> p in u && u[p] == t[p])
            && (forall p :: p in u && p !in t ==>
                  u[p] == Dir && exists k :: 0 < k <= |names| && p == at + names[..k])
            && KeepsShape(t, u)
  {
    if names != [] {
      var front := names[..|names| - 1];
      DirectoriesOnly(t, at, front);
      var u := WithDirectories(t, at, names);
      forall p | p in u && p !in t
        ensures exists k :: 0 < k <= |names| && p == at + names[..k]
      {
        if p in WithDirectories(t, at, front) {
          var k :| 0 < k <= |front| && p == at + front[..k];
          assert front[..k] == names[..k];
        } else {
          assert names[..|names|] == names;
        }
      }
    }
  }

  /** One more component of the chain is there. */
  lemma NextDirectory(t: Tree, at: Path, names: Path, k: nat)
    requires k < |names|
    ensures var u := WithDirectories(t, at, names[..k]); var next := at + names[..k + 1];
            WithDirectories(t, at, names[..k + 1]) == if next in u then u else u[next := Dir]
    ensures at + names[..k] + [names[k]] == at + names[..k + 1]
  {
    assert names[..k + 1][..k] == names[..k];
  }

  predicate AllShort(names: Path) {
    forall i :: 0 <= i < |names| ==> |names[i]| <= MAX_COMPONENT_BYTES
  }

  /** How far a walk has come: `k` components below the real root, with what was missing made. */
  predicate WalkedTo(before: Tree, saveDir: Path, root: Path, names: Path, k: nat, t: Tree)
    requires k <= |names|
  {
    && t == WithDirectories(before, root, names[..k])
    && RealChain(t, root, names[..k])
    && Resolve(t, [], saveDir, SYMLINK_LIMIT) == Some(root)
  }

  lemma WalkSees(before: Tree, saveDir: Path, root: Path, names: Path, k: nat, t: Tree)
    requires k < |names| && AllPlain(names) && WalkedTo(before, saveDir, root, names, k, t)
    ensures var at := root + names[..k + 1];
            && Lookup(t, saveDir + names[..k], names[k]) == (if at in t then Entry(at, t[at]) else Vacant(at))
            && (at in t && !t[at].Dir? ==> at in before && before[at] == t[at])
  {
    LookupBelow(t, saveDir, root, names[..k], names[k]);
    NextDirectory(before, root, names, k);
    DirectoriesOnly(before, root, names[..k]);
  }

  lemma WalkGoesOn(before: Tree, saveDir: Path, root: Path, names: Path, k: nat, t: Tree, t': Tree)
    requires k < |names| && AllPlain(names) && WalkedTo(before, saveDir, root, names, k, t)
    requires var at := root + names[..k + 1];
             (at in t && t[at].Dir? && t' == t) || (at !in t && t' == t[at := Dir])
    ensures WalkedTo(before, saveDir, root, names, k + 1, t')
  {
    NextDirectory(before, root, names, k);
    ResolveStable(t, t', [], saveDir, SYMLINK_LIMIT);
    ChainStable(t, t', root, names[..k]);
    SinkInvariant.ChainGrows(t', root, names, k);
  }

  /** What one component did to the tree. */
  predicate ComponentOutcome(t: Tree, current: Path, name: Name, k: nat, r: Walk, t': Tree) {
    var found := Lookup(t, current, name);
    match r
    case Walked => (found.Entry? && found.node.Dir? && t' == t) || (found.Vacant? && t' == t[found.at := Dir])
    case NotADirectory(j) => j == k && found.Entry? && !found.node.Dir? && t' == t
    case WalkFailed => t' == t
  }

  /** What a walk that got to component `k` did; with no real root it does not get anywhere. */
  predicate WalkState(before: Tree, saveDir: Path, names: Path, k: nat, t: Tree)
    requires k <= |names|
  {
    match Resolve(before, [], saveDir, SYMLINK_LIMIT)
    case None => k == 0 && t == before
    case Some(root) => WalkedTo(before, saveDir, root, names, k, t)
  }

  predicate Refused(before: Tree, saveDir: Path, names: Path, k: nat) {
    var root := Resolve(before, [], saveDir, SYMLINK_LIMIT);
    && root.Some? && k < |names|
    && var at := root.value + names[..k + 1]; at in before && !before[at].Dir?
  }

  lemma ComponentDone(before: Tree, saveDir: Path, names: Path, k: nat, t: Tree, r: Walk, t': Tree)
    requires k < |names| && AllPlain(names) && WalkState(before, saveDir, names, k, t)
    requires ComponentOutcome(t, saveDir + names[..k], names[k], k, r, t')
    ensures r.Walked? ==> WalkState(before, saveDir, names, k + 1, t')
    ensures r.NotADirectory? ==> Refused(before, saveDir, names, r.k)
    ensures Resolve(before, [], saveDir, SYMLINK_LIMIT).Some? <==>
              !Lookup(t, saveDir + names[..k], names[k]).Unreachable?
  {
    match Resolve(before, [], saveDir, SYMLINK_LIMIT)
    case None => assert saveDir + names[..0] == saveDir;
    case Some(root) =>
      WalkSees(before, saveDir, root, names, k, t);
      if r.Walked? { WalkGoesOn(before, saveDir, root, names, k, t, t'); }
  }

  /** One component: it is a real directory, or is made one, or is refused. */
  method EnterComponent(fs: FileSystem, current: Path, name: Name, k: nat, ghost start: Trace, ghost p: S.Pending)
    returns (r: Walk, ghost trace: Trace)
    requires Shows(start, fs.tree, p) && p.stage == S.Walking(k)
    requires k < |p.directory| && p.directory[k] == name && current == start.saveDir + p.directory[..k]
    modifies fs
    ensures Extends(start, trace)
    ensures Shows(trace, fs.tree, p.(stage := if r.Walked? then S.Walking(k + 1) else S.Stopped))
    ensures ComponentOutcome(old(fs.tree), current, name, k, r, fs.tree)
    ensures r.WalkFailed? && fs.Works(name) ==> Lookup(fs.tree, current, name).Unreachable?
  {
    var metadata := fs.SymlinkMetadata(current, name);
    ghost var fault := metadata.StatError? && metadata.error != NotFound;
    StatShows(start, fs.tree, p, k, fault);
    trace := After(start, S.Stat(0, fault));
    if metadata.Metadata? {
      return if metadata.isDir then Walked else NotADirectory(k), trace;
    }
    if metadata.error != NotFound {
      return WalkFailed, trace;
    }
    ghost var found := Lookup(fs.tree, current, name);
    if found.Vacant? { MakeShows(trace, fs.tree, p.(stage := S.Making(k)), k); }
    var ok := fs.CreateDir(current, name);
    if found.Vacant? { trace := After(trace, S.Make(0, !ok)); }
    r := if ok then Walked else WalkFailed;
  }

  /**
   Enters `names` below the receive directory one component at a time.  Only
   directories are added, and only in place of missing components; a component that is
   anything but a real directory, a symbolic link included, is refused.
   */
  method WalkOrCreateDirectory(fs: FileSystem, saveDir: Path, names: Path, ghost start: Trace, ghost p: S.Pending)
    returns (r: Walk, ghost reached: nat, ghost trace: Trace)
    requires AllPlain(names)
    requires Shows(start, fs.tree, p) && start.saveDir == saveDir && p.directory == names && p.stage == S.Walking(0)
    modifies fs
    ensures Extends(start, trace)
    ensures Shows(trace, fs.tree, p.(stage := if r.Walked? then S.Reserving(0) else S.Stopped))
    ensures reached <= |names| && (r.Walked? ==> reached == |names|)
    ensures WalkState(old(fs.tree), saveDir, names, reached, fs.tree)
    ensures r.NotADirectory? ==> Refused(old(fs.tree), saveDir, names, r.k)
    ensures fs.healthy && AllShort(names) && Resolve(old(fs.tree), [], saveDir, SYMLINK_LIMIT).Some? ==>
              !r.WalkFailed?
  {
    ghost var before := fs.tree;
    var k := 0;
    reached, trace := 0, start;
    ghost var q := p;
    while k < |names|
      invariant 0 <= k == reached <= |names|
      invariant WalkState(before, saveDir, names, k, fs.tree)
      invariant Extends(start, trace) && Shows(trace, fs.tree, q) && q == p.(stage := S.Walking(k))
    {
      ghost var shorter := fs.tree;
      var entered;
      entered, trace := EnterComponent(fs, saveDir + names[..k], names[k], k, trace, q);
      ComponentDone(before, saveDir, names, k, shorter, entered, fs.tree);
      if !entered.Walked? {
        return entered, reached, trace;
      }
      k := k + 1;
      reached := k;
      q := p.(stage := S.Walking(k));
    }
    assert names[..k] == names;
    EnteredShows(trace, fs.tree, q);
    return Walked, reached, After(trace, S.Stat(0, false));
  }

  // ---- the reservation ----

  datatype Reservation = Reserved(attempt: nat, name: Name) | AllTaken | ReserveFailed

  predicate Taken(t: Tree, directory: Path, leaf: Name, n: nat)
    requires n <= MAX_COLLISION_ATTEMPTS
  {
    Lookup(t, directory, Candidate(leaf, n)).Entry?
  }

  predicate TakenBelow(t: Tree, directory: Path, leaf: Name, n: nat)
    requires n <= MAX_COLLISION_ATTEMPTS + 1
  {
    forall m :: 0 <= m < n ==> Taken(t, directory, leaf, m)
  }

  predicate AllNamesTaken(t: Tree, directory: Path, leaf: Name) {
    TakenBelow(t, directory, leaf, MAX_COLLISION_ATTEMPTS + 1)
  }

  /** The entries of a directory. */
  function Children(t: Tree, at: Path): set<Path> {
    set p | p in t && p != [] && Parent(p) == at
  }

  /** A text that fits a component and is none of its own numbered variants. */
  ghost predicate Numberable(leaf: Name) {
    Utf8.Valid(leaf) && 0 < |leaf| <= MAX_COMPONENT_BYTES && !FullAndNumbered(leaf)
  }

  /** Where a candidate would be. */
  function CandidatePath(at: Path, leaf: Name, n: nat): Path {
    if n <= MAX_COLLISION_ATTEMPTS then at + [Candidate(leaf, n)] else []
  }

  lemma AnotherPath(at: Path, leaf: Name, m: nat, n: nat)
    requires Numberable(leaf) && m < n <= MAX_COLLISION_ATTEMPTS
    ensures CandidatePath(at, leaf, m) != CandidatePath(at, leaf, n)
  {
    CandidatesDistinct(leaf, m, n);
    assert CandidatePath(at, leaf, m)[|at|] != CandidatePath(at, leaf, n)[|at|];
  }

  lemma TakenIsChild(t: Tree, directory: Path, leaf: Name, at: Path, n: nat)
    requires n <= MAX_COLLISION_ATTEMPTS && Taken(t, directory, leaf, n)
    requires Resolve(t, [], directory, SYMLINK_LIMIT) == Some(at)
    ensures CandidatePath(at, leaf, n) in Children(t, at)
  {
    var c := Candidate(leaf, n);
    assert (at + [c])[..|at|] == at;
  }

  /** Pigeonhole: the series of such a leaf is exhausted only in a directory of at least 1025 entries. */
  lemma ExhaustedMeansFull(t: Tree, directory: Path, leaf: Name)
    requires Numberable(leaf) && AllNamesTaken(t, directory, leaf)
    ensures Resolve(t, [], directory, SYMLINK_LIMIT).Some?
    ensures |Children(t, Resolve(t, [], directory, SYMLINK_LIMIT).value)| > MAX_COLLISION_ATTEMPTS
  {
    assert Taken(t, directory, leaf, 0);
    var at := Resolve(t, [], directory, SYMLINK_LIMIT).value;
    var path: nat -> Path := (n: nat) => CandidatePath(at, leaf, n);
    forall m, n | 0 <= m < n <= MAX_COLLISION_ATTEMPTS
      ensures path(m) != path(n)
    {
      AnotherPath(at, leaf, m, n);
    }
    forall n | 0 <= n <= MAX_COLLISION_ATTEMPTS
      ensures path(n) in Children(t, at)
    {
      assert Taken(t, directory, leaf, n);
      TakenIsChild(t, directory, leaf, at, n);
    }
    Pigeonhole(path, MAX_COLLISION_ATTEMPTS + 1, Children(t, at));
  }

  /** One exclusive create of the series. */
  method TryCandidate(fs: FileSystem, directory: Path, leaf: Name, attempt: nat, ghost start: Trace, ghost p: S.Pending)
    returns (candidate: Name, error: Option<IoError>, ghost trace: Trace, ghost q: S.Pending)
    requires attempt <= MAX_COLLISION_ATTEMPTS
    requires Shows(start, fs.tree, p) && p.stage == S.Reserving(attempt)
    requires p.leaf == leaf && directory == start.saveDir + p.directory
    modifies fs
    ensures Extends(start, trace) && candidate == Candidate(leaf, attempt)
    ensures Shows(trace, fs.tree, q)
    ensures q == if error.None? then p.(stage := S.Opening, chosen := candidate, hasFinal := true)
                 else if error.value == AlreadyExists && attempt < MAX_COLLISION_ATTEMPTS
                 then p.(stage := S.Reserving(attempt + 1))
                 else p.(stage := S.Stopped)
    ensures error.None? ==>
              && |candidate| <= MAX_COMPONENT_BYTES && !Taken(old(fs.tree), directory, leaf, attempt)
              && var place := Lookup(old(fs.tree), directory, candidate);
              place.Vacant? && fs.tree == old(fs.tree)[place.at := File([])]
    ensures error.Some? ==> fs.tree == old(fs.tree)
    ensures error == Some(AlreadyExists) ==> Taken(fs.tree, directory, leaf, attempt)
    ensures fs.Works(leaf) && Resolve(old(fs.tree), [], directory, SYMLINK_LIMIT).Some? ==>
              error.None? || error.value == AlreadyExists
  {
    candidate := leaf;
    if attempt != 0 {
      candidate := MakeCollisionLeaf(leaf, attempt);
    }
    ghost var before := fs.tree;
    error := fs.CreateNew(directory, candidate);
    trace := Try(start, before, p, attempt, candidate, error.Some? && error.value != AlreadyExists);
    q := if error.None? then p.(stage := S.Opening, chosen := candidate, hasFinal := true)
         else if error.value == AlreadyExists && attempt < MAX_COLLISION_ATTEMPTS
         then p.(stage := S.Reserving(attempt + 1))
         else p.(stage := S.Stopped);
  }

  /** The first free name of the series was created, or nothing was. */
  predicate SearchOutcome(t: Tree, directory: Path, leaf: Name, r: Reservation, t': Tree) {
    match r
    case Reserved(n, name) =>
      && n <= MAX_COLLISION_ATTEMPTS && name == Candidate(leaf, n) && |name| <= MAX_COMPONENT_BYTES
      && TakenBelow(t, directory, leaf, n)
      && var place := Lookup(t, directory, name); place.Vacant? && t' == t[place.at := File([])]
    case AllTaken => t' == t && AllNamesTaken(t, directory, leaf)
    case ReserveFailed => t' == t
  }

  function Chosen(p: S.Pending, r: Reservation): S.Pending {
    if r.Reserved? then p.(stage := S.Opening, chosen := r.name, hasFinal := true) else p.(stage := S.Stopped)
  }

  lemma AnotherTaken(t: Tree, directory: Path, leaf: Name, n: nat)
    requires n <= MAX_COLLISION_ATTEMPTS && TakenBelow(t, directory, leaf, n) && Taken(t, directory, leaf, n)
    ensures TakenBelow(t, directory, leaf, n + 1)
  {
  }

  /** The search itself: candidates are tried in order until one can be created. */
  method SearchSeries(fs: FileSystem, directory: Path, leaf: Name, ghost start: Trace, ghost p: S.Pending)
    returns (r: Reservation, ghost trace: Trace)
    requires Shows(start, fs.tree, p) && start.saveDir + p.directory == directory
    requires p.leaf == leaf && p.stage == S.Reserving(0)
    modifies fs
    ensures Extends(start, trace) && Shows(trace, fs.tree, Chosen(p, r))
    ensures SearchOutcome(old(fs.tree), directory, leaf, r, fs.tree)
    ensures fs.Works(leaf) && Resolve(old(fs.tree), [], directory, SYMLINK_LIMIT).Some? ==> !r.ReserveFailed?
  {
    var attempt := 0;
    trace := start;
    ghost var q := p;
    while attempt <= MAX_COLLISION_ATTEMPTS
      invariant 0 <= attempt <= MAX_COLLISION_ATTEMPTS + 1
      invariant fs.tree == old(fs.tree) && Extends(start, trace)
      invariant Shows(trace, fs.tree, q)
      invariant q == p.(stage := if attempt > MAX_COLLISION_ATTEMPTS then S.Stopped else S.Reserving(attempt))
      invariant TakenBelow(fs.tree, directory, leaf, attempt)
    {
      var candidate, error;
      candidate, error, trace, q := TryCandidate(fs, directory, leaf, attempt, trace, q);
      if error.None? {
        return Reserved(attempt, candidate), trace;
      }
      if error.value != AlreadyExists {
        return ReserveFailed, trace;
      }
      AnotherTaken(fs.tree, directory, leaf, attempt);
      attempt := attempt + 1;
    }
    return AllTaken, trace;
  }

  /**
   Creates the first free name of the series: every earlier candidate was taken.  On a
   healthy file system that always succeeds unless the whole series is taken, which all
   but a full and numbered leaf can only find in a directory of more than 1024 entries.
   */
  method ReserveFreeName(fs: FileSystem, directory: Path, leaf: Name, ghost start: Trace, ghost p: S.Pending)
    returns (r: Reservation, ghost trace: Trace)
    requires Shows(start, fs.tree, p) && start.saveDir + p.directory == directory
    requires p.leaf == leaf && p.stage == S.Reserving(0)
    modifies fs
    ensures Extends(start, trace) && Shows(trace, fs.tree, Chosen(p, r))
    ensures SearchOutcome(old(fs.tree), directory, leaf, r, fs.tree)
    ensures r.AllTaken? && Numberable(leaf) ==>
              && Resolve(fs.tree, [], directory, SYMLINK_LIMIT).Some?
              && |Children(fs.tree, Resolve(fs.tree, [], directory, SYMLINK_LIMIT).value)| > MAX_COLLISION_ATTEMPTS
    ensures fs.Works(leaf) && Resolve(old(fs.tree), [], directory, SYMLINK_LIMIT).Some? ==>
              (r.AllTaken? <==> AllNamesTaken(old(fs.tree), directory, leaf)) && !r.ReserveFailed?
  {
    r, trace := SearchSeries(fs, directory, leaf, start, p);
    if r.Reserved? { assert !Taken(old(fs.tree), directory, leaf, r.attempt); }
    if r.AllTaken? && Numberable(leaf) { ExhaustedMeansFull(fs.tree, directory, leaf); }
  }

  // ---- a pending receive ----

  class AtomicPendingFile {
    const fs: FileSystem
    const directory: Path
    const finalName: Name
    const tempName: Name
    /** The real directory `directory` leads to. */
    ghost const at: Path
    /** The temporary has not been handed on yet. */
    var open: bool
    /** The run of the sink machine so far, and this receive in it. */
    ghost var trace: Trace
    ghost var state: S.Pending

    ghost function FinalPath(): Path {
      at + [finalName]
    }

    ghost function TempPath(): Path {
      at + [tempName]
    }

    /** While it is open both files are there, and nothing has reached the reservation. */
    ghost predicate Valid()
      reads this, fs
    {
      && Resolve(fs.tree, [], directory, SYMLINK_LIMIT) == Some(at)
      && FinalPath() != TempPath()
      && |finalName| <= MAX_COMPONENT_BYTES && |tempName| <= MAX_COMPONENT_BYTES
      && (open ==>
            && FinalPath() in fs.tree && fs.tree[FinalPath()] == File([])
            && TempPath() in fs.tree && fs.tree[TempPath()] == File(state.data))
      && Shows(trace, fs.tree, state)
      && trace.saveDir + state.directory == directory && state.chosen == finalName && state.temp == tempName
      && (open <==> state.stage.Open?)
    }

    constructor (fs: FileSystem, directory: Path, finalName: Name, tempName: Name, ghost at: Path,
                 ghost trace: Trace, ghost state: S.Pending)
      ensures this.fs == fs && this.directory == directory && this.at == at && open
      ensures this.finalName == finalName && this.tempName == tempName
      ensures this.trace == trace && this.state == state
    {
      this.trace := trace;
      this.state := state;
      this.fs := fs;
      this.directory := directory;
      this.finalName := finalName;
      this.tempName := tempName;
      this.at := at;
      open := true;
    }

    method Write(bytes: Bytes) returns (ok: bool)
      requires Valid() && open
      modifies fs, this`trace, this`state
      ensures Valid() && Extends(old(trace), trace)
      ensures ok ==> fs.tree == old(fs.tree)[TempPath() := File(old(fs.tree[TempPath()].content) + bytes)]
      ensures !ok ==>
                || fs.tree == old(fs.tree)
                || exists n :: 0 <= n <= |bytes| &&
                     fs.tree == old(fs.tree)[TempPath() := File(old(fs.tree[TempPath()].content) + bytes[..n])]
      ensures fs.healthy ==> ok
    {
      ghost var before := fs.tree;
      ok := fs.Append(directory, tempName, bytes);
      ResolveStable(before, fs.tree, [], directory, SYMLINK_LIMIT);
      if fs.tree != before {
        ghost var written := bytes;
        if !ok {
          var n :| 0 <= n <= |bytes| && fs.tree == before[TempPath() := File(state.data + bytes[..n])];
          written := bytes[..n];
        }
        WriteShows(trace, before, state, written);
        trace := After(trace, S.Write(0, written));
        state := state.(data := state.data + written);
      }
    }

    /** Publishes the temporary by one rename, or leaves both files behind. */
    method Commit() returns (ok: bool)
      requires Valid() && open
      modifies fs, this`open, this`trace, this`state
      ensures Valid() && !open && Extends(old(trace), trace)
      ensures fs.tree ==
              if ok then (old(fs.tree) - {TempPath()})[FinalPath() := old(fs.tree)[TempPath()]] else old(fs.tree)
      ensures fs.healthy ==> ok
    {
      ghost var before := fs.tree;
      open := false;
      CommitShows(trace, before, state);
      var flushed: bool := *;
      if !flushed && !fs.healthy {
        trace, state := After(trace, S.Commit(0, true)), state.(stage := S.Stopped);
        return false;
      }
      ok := fs.Rename(directory, tempName, finalName);
      ResolveStable(before, fs.tree, [], directory, SYMLINK_LIMIT);
      trace := After(trace, S.Commit(0, !ok));
      state := if ok then state.(stage := S.Stopped, hasTemp := false, published := true)
               else state.(stage := S.Stopped);
    }

    /** Removes both files; each removal is tried whatever becomes of the other. */
    method Abort() returns (ok: bool)
      requires Valid() && open
      modifies fs, this`open, this`trace, this`state
      ensures Valid() && !open && Extends(old(trace), trace)
      ensures exists temp, reservation :: DiscardRun(old(trace), trace, temp, reservation) &&
                fs.tree == old(fs.tree) - Gone(TempPath(), temp) - Gone(FinalPath(), reservation) &&
                (ok <==> temp && reservation)
      ensures ok ==> fs.tree == old(fs.tree) - {TempPath(), FinalPath()}
      ensures fs.healthy ==> ok
    {
      ghost var before := fs.tree;
      open := false;
      var temp := fs.RemoveFile(directory, tempName);
      assert fs.tree == before - Gone(TempPath(), temp);
      ResolveStable(before, fs.tree, [], directory, SYMLINK_LIMIT);
      var reservation := fs.RemoveFile(directory, finalName);
      assert fs.tree == before - Gone(TempPath(), temp) - Gone(FinalPath(), reservation);
      ResolveStable(before, fs.tree, [], directory, SYMLINK_LIMIT);
      trace := DiscardedShows(trace, before, state, TempPath(), FinalPath(), temp, reservation);
      state := Discarded(state, temp, reservation);
      ok := temp && reservation;
    }

    /** The drop: after `Commit` or `Abort` there is nothing left to do. */
    method Drop()
      requires Valid()
      modifies fs, this`open, this`trace, this`state
      ensures Valid() && !open && Extends(old(trace), trace)
      ensures !old(open) ==> fs.tree == old(fs.tree) && trace == old(trace)
      ensures old(open) ==>
                exists temp, reservation :: DiscardRun(old(trace), trace, temp, reservation) &&
                  fs.tree == old(fs.tree) - Gone(TempPath(), temp) - Gone(FinalPath(), reservation)
      ensures old(open) && fs.healthy ==> fs.tree == old(fs.tree) - {TempPath(), FinalPath()}
    {
      if open {
        var _ := Abort();
      }
    }
  }

  datatype Creation = Created(pending: AtomicPendingFile) | Rejected | Failed

  function DirectoryNames(name: Bytes): Path
    requires Acceptable(name)
  {
    var path := Components(Split(name)); path[..|path| - 1]
  }

  function LeafName(name: Bytes): Name
    requires Acceptable(name)
  {
    var path := Components(Split(name)); path[|path| - 1]
  }

  /** The tree a create that got as far as its directory leaves, before it reserves a name in it. */
  function Prepared(t: Tree, root: Path, name: Bytes): Tree
    requires Acceptable(name)
  {
    WithDirectories(t, root, DirectoryNames(name))
  }

  /** The first free name of the series in the prepared tree. */
  predicate FirstFree(t: Tree, directory: Path, leaf: Name, chosen: Name) {
    exists n :: 0 <= n <= MAX_COLLISION_ATTEMPTS && chosen == Candidate(leaf, n) && !Taken(t, directory, leaf, n) &&
      TakenBelow(t, directory, leaf, n)
  }

  /** A file that was not there before; directories do not count. */
  predicate Appeared(before: Tree, after: Tree, p: Path) {
    p in after && p !in before && after[p] != Dir
  }

  /** Nothing was lost or changed, and at most one file appeared, an empty one. */
  ghost predicate LeftBehind(before: Tree, after: Tree) {
    && (forall p :: p in before ==> p in after && after[p] == before[p])
    && (forall p, q :: Appeared(before, after, p) && Appeared(before, after, q) ==> p == q && after[p] == File([]))
  }

  lemma DirectoriesLeftBehind(t: Tree, at: Path, names: Path, after: Tree)
    requires var u := WithDirectories(t, at, names); after == u || exists p :: p !in u && after == u[p := File([])]
    ensures LeftBehind(t, after)
  {
    DirectoriesOnly(t, at, names);
  }

  predicate IsCandidate(leaf: Name, n: nat, name: Name) {
    n <= MAX_COLLISION_ATTEMPTS && Candidate(leaf, n) == name
  }

  /** The name of the temporary is in use, or is one the leaf itself may take. */
  ghost predicate TempBlocked(t: Tree, directory: Path, leaf: Name, temp: Name) {
    Lookup(t, directory, temp).Entry? || exists n: nat :: IsCandidate(leaf, n, temp)
  }

  /** The name is unacceptable, or something on its way is there and is not a real directory. */
  ghost predicate RefusedName(t: Tree, saveDir: Path, name: Bytes) {
    !Acceptable(name) || exists k: nat :: Refused(t, saveDir, DirectoryNames(name), k)
  }

  lemma WalkedNotRefused(before: Tree, saveDir: Path, names: Path, t: Tree, k: nat)
    requires WalkState(before, saveDir, names, |names|, t)
    ensures !Refused(before, saveDir, names, k)
  {
    var root := Resolve(before, [], saveDir, SYMLINK_LIMIT);
    if root.Some? && k < |names| {
      assert names[..|names|] == names;
      DirectoriesOnly(before, root.value, names);
      assert IsDir(t, root.value + names[..k + 1]);
    }
  }

  /** `create` once its directory is there: the reservation, then the temporary beside it. */
  method OpenDestination(
      fs: FileSystem, directory: Path, leaf: Name, uuid: S.Uuid, ghost start: Trace, ghost p: S.Pending)
    returns (pending: AtomicPendingFile?, ghost trace: Trace)
    requires Shows(start, fs.tree, p) && start.saveDir + p.directory == directory
    requires p.leaf == leaf && p.stage == S.Reserving(0) && p.data == []
    modifies fs
    ensures Extends(start, trace)
    ensures if pending == null then exists q :: Shows(trace, fs.tree, q) else pending.trace == trace
    ensures pending != null ==>
              && Resolve(old(fs.tree), [], directory, SYMLINK_LIMIT) == Some(pending.at)
              && fresh(pending) && pending.fs == fs && pending.open && pending.Valid()
              && pending.tempName == S.TempName(uuid) && pending.directory == directory
              && FirstFree(old(fs.tree), directory, leaf, pending.finalName)
              && pending.FinalPath() !in old(fs.tree) && pending.TempPath() !in old(fs.tree)
              && fs.tree == old(fs.tree)[pending.FinalPath() := File([])][pending.TempPath() := File([])]
    ensures pending == null && fs.Works(leaf) && Resolve(old(fs.tree), [], directory, SYMLINK_LIMIT).Some? ==>
              || AllNamesTaken(old(fs.tree), directory, leaf)
              || TempBlocked(old(fs.tree), directory, leaf, S.TempName(uuid))
    ensures pending == null ==>
              fs.tree == old(fs.tree) || exists p :: p !in old(fs.tree) && fs.tree == old(fs.tree)[p := File([])]
  {
    ghost var before := fs.tree;
    var reservation;
    reservation, trace := ReserveFreeName(fs, directory, leaf, start, p);
    if !reservation.Reserved? {
      return null, trace;
    }
    ghost var q := p.(stage := S.Opening, chosen := reservation.name, hasFinal := true);
    var name := reservation.name;
    ghost var at := Resolve(before, [], directory, SYMLINK_LIMIT).value;
    ghost var reserved := fs.tree;
    assert !Taken(before, directory, leaf, reservation.attempt);
    assert reserved == before[at + [name] := File([])];
    ResolveStable(before, reserved, [], directory, SYMLINK_LIMIT);
    var temp := S.TempName(uuid);
    OpenShows(trace, reserved, q, uuid);
    var error := fs.CreateNew(directory, temp);
    trace := After(trace, S.OpenTemp(0, uuid, error.Some?));
    if error.Some? {
      assert temp == name ==> IsCandidate(leaf, reservation.attempt, temp);
      assert (at + [temp])[|at|] == temp && (at + [name])[|at|] == name;
      return null, trace;
    }
    ResolveStable(reserved, fs.tree, [], directory, SYMLINK_LIMIT);
    pending := new AtomicPendingFile(fs, directory, name, temp, at, trace,
                                     q.(stage := S.Open, temp := temp, hasTemp := true));
  }

  /**
   A destination below the receive directory for an untrusted wire name.  A failure can
   leave new directories, and one empty file: the reservation, if it was the temporary
   that could not be opened.
   */
  method Create(fs: FileSystem, saveDir: Path, name: Bytes, uuid: S.Uuid) returns (r: Creation, ghost trace: Trace)
    modifies fs
    ensures Extends(Started(saveDir, old(fs.tree), name), trace)
    ensures if r.Created? then r.pending.trace == trace else exists q :: Shows(trace, fs.tree, q)
    ensures !Acceptable(name) ==> r.Rejected? && fs.tree == old(fs.tree)
    ensures r.Created? ==>
              && Resolve(old(fs.tree), [], saveDir, SYMLINK_LIMIT).Some?
              && Acceptable(name)
              && var root := Resolve(old(fs.tree), [], saveDir, SYMLINK_LIMIT).value;
              var t := Prepared(old(fs.tree), root, name);
              && fresh(r.pending) && r.pending.fs == fs && r.pending.open && r.pending.Valid()
              && r.pending.tempName == S.TempName(uuid) && r.pending.directory == saveDir + DirectoryNames(name)
              && r.pending.at == root + DirectoryNames(name)
              && FirstFree(t, r.pending.directory, LeafName(name), r.pending.finalName)
              && r.pending.FinalPath() !in t && r.pending.TempPath() !in t
              && fs.tree == t[r.pending.FinalPath() := File([])][r.pending.TempPath() := File([])]
    ensures !r.Created? ==> LeftBehind(old(fs.tree), fs.tree)
    ensures r.Rejected? ==> RefusedName(old(fs.tree), saveDir, name)
    ensures var root := Resolve(old(fs.tree), [], saveDir, SYMLINK_LIMIT);
            fs.healthy && root.Some? && AllShort(Components(Split(name))) ==>
              && (r.Rejected? <==> RefusedName(old(fs.tree), saveDir, name))
              && (r.Failed? ==>
                    && Acceptable(name)
                    && var t, directory := Prepared(old(fs.tree), root.value, name), saveDir + DirectoryNames(name);
                    || AllNamesTaken(t, directory, LeafName(name))
                    || TempBlocked(t, directory, LeafName(name), S.TempName(uuid)))
  {
    trace := Started(saveDir, fs.tree, name);
    StartShows(saveDir, fs.tree, name);
    var relative := SafeJoin(name);
    if relative.None? {
      return Rejected, trace;
    }
    var path := relative.value;
    AcceptedIsPlain(name);
    var names, leaf := path[..|path| - 1], path[|path| - 1];
    ghost var root := Resolve(fs.tree, [], saveDir, SYMLINK_LIMIT);
    ghost var before := fs.tree;
    ghost var p := S.Begun(name);
    var walk;
    ghost var reached;
    walk, reached, trace := WalkOrCreateDirectory(fs, saveDir, names, trace, p);
    if !walk.Walked? {
      if root.Some? { DirectoriesLeftBehind(before, root.value, names[..reached], fs.tree); }
      assert walk.NotADirectory? ==> Refused(before, saveDir, DirectoryNames(name), walk.k);
      return if walk.NotADirectory? then Rejected else Failed, trace;
    }
    assert names[..reached] == names;
    forall k: nat
      ensures !Refused(before, saveDir, names, k)
    {
      WalkedNotRefused(before, saveDir, names, fs.tree, k);
    }
    var directory := saveDir + names;
    assert root.None? ==> directory == saveDir;
    if root.Some? { ResolveBelow(fs.tree, [], saveDir, SYMLINK_LIMIT, root.value, names); }
    var pending;
    pending, trace := OpenDestination(fs, directory, leaf, uuid, trace, p.(stage := S.Reserving(0)));
    if pending == null && root.Some? { DirectoriesLeftBehind(before, root.value, names, fs.tree); }
    if root.None? { DirectoriesLeftBehind(before, [], [], fs.tree); }
    r := if pending == null then Failed else Created(pending);
  }

  /** The complete body was published at the first free name, and that is all that happened. */
  ghost predicate Received(t: Tree, root: Path, saveDir: Path, name: Bytes, body: Bytes, t': Tree)
    requires Acceptable(name)
  {
    var prepared := Prepared(t, root, name);
    exists chosen :: FirstFree(prepared, saveDir + DirectoryNames(name), LeafName(name), chosen) &&
      t' == prepared[root + DirectoryNames(name) + [chosen] := File(body)]
  }

  /** From an open destination to its end; `t` is the tree without its two files. */
  method Finish(pending: AtomicPendingFile, body: Bytes, publish: bool, ghost t: Tree) returns (ok: bool)
    requires pending.Valid() && pending.open && pending.state.data == []
    requires pending.FinalPath() !in t && pending.TempPath() !in t
    requires pending.fs.tree == t[pending.FinalPath() := File([])][pending.TempPath() := File([])]
    modifies pending.fs, pending`open, pending`trace, pending`state
    ensures pending.Valid() && !pending.open && Extends(old(pending.trace), pending.trace)
    ensures ok ==> pending.fs.tree == if publish then t[pending.FinalPath() := File(body)] else t
    ensures pending.fs.healthy ==> ok
  {
    var written := pending.Write(body);
    assert [] + body == body;
    if publish && written {
      ok := pending.Commit();
    } else {
      ok := pending.Abort();
      ok := ok && !publish;
    }
  }

  /**
   A whole receive.  Published, the tree is what it was, plus directories, plus the
   complete body under the first free name.  Discarded, the tree is what it was, plus
   directories.  On a healthy file system a destination once created ends in one of the
   two, whichever the caller asked for.
   */
  method ReceiveFile(fs: FileSystem, saveDir: Path, name: Bytes, uuid: S.Uuid, body: Bytes, publish: bool)
    returns (created: bool, ok: bool, ghost trace: Trace)
    modifies fs
    ensures trace.saveDir == saveDir && trace.before == old(fs.tree) && exists q :: Shows(trace, fs.tree, q)
    ensures ok ==>
              && created && Acceptable(name)
              && Resolve(old(fs.tree), [], saveDir, SYMLINK_LIMIT).Some?
              && var root := Resolve(old(fs.tree), [], saveDir, SYMLINK_LIMIT).value;
              if publish
              then Received(old(fs.tree), root, saveDir, name, body, fs.tree)
              else fs.tree == Prepared(old(fs.tree), root, name)
    ensures fs.healthy && created ==> ok
  {
    var creation;
    creation, trace := Create(fs, saveDir, name, uuid);
    if !creation.Created? {
      return false, false, trace;
    }
    var pending := creation.pending;
    ghost var t := Prepared(old(fs.tree), Resolve(old(fs.tree), [], saveDir, SYMLINK_LIMIT).value, name);
    ok := Finish(pending, body, publish, t);
    pending.Drop();
    created := true;
    trace := pending.trace;
  }
}
