/**
 A file tree with symbolic links, and path lookup in it as section 4.13
 (Pathname Resolution) of POSIX.1-2017 Base Definitions describes it.
 */
module FileTree {
  import opened Options
  import opened Names
  import opened PathSafety

  datatype Node = Dir | File(content: Bytes) | Symlink(absolute: bool, target: Path)

  /** Every entry below the root directory `[]`, under the real path it has. */
  type Tree = map<Path, Node>

  /** How many links one lookup follows before it gives up. */
  const SYMLINK_LIMIT: nat := 40

  function Parent(p: Path): Path {
    if p == [] then [] else p[..|p| - 1]
  }

  /** The real directory a path leads to, from the real directory `base`. */
  function Resolve(t: Tree, base: Path, rest: Path, hops: nat): Option<Path>
    decreases hops, |rest|
  {
    if rest == [] then Some(base)
    else if rest[0] == [] || rest[0] == [DOT] then Resolve(t, base, rest[1..], hops)
    else if rest[0] == [DOT, DOT] then Resolve(t, Parent(base), rest[1..], hops)
    else
      var next := base + [rest[0]];
      if next !in t then None
      else match t[next]
        case Dir => Resolve(t, next, rest[1..], hops)
        case File(_) => None
        case Symlink(absolute, target) =>
          if hops == 0 then None
          else Resolve(t, if absolute then [] else base, target + rest[1..], hops - 1)
  }

  /** What a path names when its last component is not followed. */
  datatype Finding = Entry(at: Path, node: Node) | Vacant(at: Path) | Unreachable

  function Lookup(t: Tree, directory: Path, leaf: Name): Finding {
    match Resolve(t, [], directory, SYMLINK_LIMIT)
    case None => Unreachable
    case Some(found) =>
      var at := found + [leaf];
      if at in t then Entry(at, t[at]) else Vacant(at)
  }

  predicate IsDir(t: Tree, p: Path) {
    p in t && t[p].Dir?
  }

  /** Below the real directory `at`, every prefix of `names` is a real directory. */
  predicate RealChain(t: Tree, at: Path, names: Path) {
    forall k :: 0 < k <= |names| ==> IsDir(t, at + names[..k])
  }

  /** Directories and links stay what they are. */
  predicate KeepsShape(t: Tree, t': Tree) {
    forall p :: p in t && !t[p].File? ==> p in t' && t'[p] == t[p]
  }

  /** A chain of real directories is walked without leaving it. */
  lemma {:induction false} ResolveChain(t: Tree, at: Path, names: Path, hops: nat)
    requires RealChain(t, at, names) && AllPlain(names)
    ensures Resolve(t, at, names, hops) == Some(at + names)
    decreases |names|
  {
    if names == [] {
      assert at + names == at;
    } else {
      assert Plain(names[0]);
      assert IsDir(t, at + names[..1]);
      assert names[..1] == [names[0]];
      var next := at + [names[0]];
      forall k | 0 < k <= |names[1..]|
        ensures IsDir(t, next + names[1..][..k])
      {
        assert IsDir(t, at + names[..k + 1]);
        assert next + names[1..][..k] == at + names[..k + 1];
      }
      ResolveChain(t, next, names[1..], hops);
      assert next + names[1..] == at + names;
    }
  }

  /** Looking up `directory + names` continues from where `directory` led. */
  lemma {:induction false} ResolveBelow(t: Tree, base: Path, directory: Path, hops: nat, at: Path, names: Path)
    requires Resolve(t, base, directory, hops) == Some(at)
    requires RealChain(t, at, names) && AllPlain(names)
    ensures Resolve(t, base, directory + names, hops) == Some(at + names)
    decreases hops, |directory|
  {
    if directory == [] {
      assert directory + names == names;
      ResolveChain(t, at, names, hops);
    } else {
      var rest := directory[1..];
      assert (directory + names)[1..] == rest + names;
      if directory[0] == [] || directory[0] == [DOT] {
        ResolveBelow(t, base, rest, hops, at, names);
      } else if directory[0] == [DOT, DOT] {
        ResolveBelow(t, Parent(base), rest, hops, at, names);
      } else {
        match t[base + [directory[0]]]
        case Dir => ResolveBelow(t, base + [directory[0]], rest, hops, at, names);
        case Symlink(absolute, target) =>
          assert target + (rest + names) == (target + rest) + names;
          ResolveBelow(t, if absolute then [] else base, target + rest, hops - 1, at, names);
      }
    }
  }

  /** Lookup depends on directories and links only. */
  lemma {:induction false} ResolveStable(t: Tree, t': Tree, base: Path, rest: Path, hops: nat)
    requires KeepsShape(t, t') && Resolve(t, base, rest, hops).Some?
    ensures Resolve(t', base, rest, hops) == Resolve(t, base, rest, hops)
    decreases hops, |rest|
  {
    if rest != [] {
      if rest[0] == [] || rest[0] == [DOT] {
        ResolveStable(t, t', base, rest[1..], hops);
      } else if rest[0] == [DOT, DOT] {
        ResolveStable(t, t', Parent(base), rest[1..], hops);
      } else {
        match t[base + [rest[0]]]
        case Dir => ResolveStable(t, t', base + [rest[0]], rest[1..], hops);
        case Symlink(absolute, target) =>
          ResolveStable(t, t', if absolute then [] else base, target + rest[1..], hops - 1);
      }
    }
  }

  lemma ChainStable(t: Tree, t': Tree, at: Path, names: Path)
    requires KeepsShape(t, t') && RealChain(t, at, names)
    ensures RealChain(t', at, names)
  {
    forall k | 0 < k <= |names|
      ensures IsDir(t', at + names[..k])
    {
      assert IsDir(t, at + names[..k]);
    }
  }

  /** Inside a walked chain a lookup sees exactly the entry of the real directory. */
  lemma LookupBelow(t: Tree, directory: Path, at: Path, names: Path, leaf: Name)
    requires Resolve(t, [], directory, SYMLINK_LIMIT) == Some(at)
    requires RealChain(t, at, names) && AllPlain(names)
    ensures var entry := at + names + [leaf];
            Lookup(t, directory + names, leaf) == if entry in t then Entry(entry, t[entry]) else Vacant(entry)
  {
    ResolveBelow(t, [], directory, SYMLINK_LIMIT, at, names);
  }

  /** Strictly inside the directory `root`, and reached from it by plain names only. */
  predicate Inside(root: Path, p: Path) {
    |root| < |p| && p[..|root|] == root && AllPlain(p[|root|..])
  }
}
