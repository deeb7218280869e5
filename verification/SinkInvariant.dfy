/**
 The ledger of the sink: at every point of every run the file tree is the tree it
 started from, plus directories below the receive root, plus exactly the files
 its pending receives hold, each held by one of them.
 */
module SinkInvariant {
  import opened Options
  import opened Names
  import opened PathSafety
  import opened FileTree
  import opened Sink

  /** Where the entries of a pending receive really are, `root` being the real receive root. */
  function Place(root: Path, p: Pending, name: Name): Path {
    root + p.directory + [name]
  }

  /** The receive created the file at `q` and has not removed it or renamed it away. */
  predicate Holds(root: Path, p: Pending, q: Path) {
    || (p.hasFinal && q == Place(root, p, p.chosen))
    || (p.hasTemp && q == Place(root, p, p.temp))
  }

  /** What a held file contains: the temporary all that was written, the reservation nothing before it is published. */
  function Content(root: Path, p: Pending, q: Path): Bytes {
    if p.published || (p.hasTemp && q == Place(root, p, p.temp)) then p.data else []
  }

  /** How far down its directory a receive has checked. */
  function Checked(p: Pending): Path {
    match p.stage
    case Walking(k) => if k <= |p.directory| then p.directory[..k] else p.directory
    case Making(k) => if k <= |p.directory| then p.directory[..k] else p.directory
    case Stopped => []
    case _ => p.directory
  }

  predicate PendingOk(t: Tree, root: Path, p: Pending) {
    && AllPlain(p.directory) && (!p.stage.Stopped? ==> Plain(p.leaf))
    && RealChain(t, root, Checked(p))
    && (p.hasFinal && p.hasTemp ==> p.chosen != p.temp)
    && (p.hasFinal ==> Plain(p.chosen)) && (p.hasTemp ==> Plain(p.temp))
    && match p.stage
       case Walking(k) => k <= |p.directory| && !p.hasFinal && !p.hasTemp && !p.published && p.data == []
       case Making(k) => k < |p.directory| && !p.hasFinal && !p.hasTemp && !p.published && p.data == []
       case Reserving(n) => n <= MAX_COLLISION_ATTEMPTS && !p.hasFinal && !p.hasTemp && !p.published && p.data == []
       case Opening => p.hasFinal && !p.hasTemp && !p.published && p.data == []
       case Open => p.hasFinal && p.hasTemp && !p.published
       case DiscardTemp => p.hasFinal && p.hasTemp && !p.published
       case DiscardFinal => p.hasFinal && !p.published
       case Stopped => (p.published ==> p.hasFinal && !p.hasTemp)
  }

  predicate OldKept(before: Tree, t: Tree) {
    forall p :: p in before ==> p in t && t[p] == before[p]
  }

  predicate Holder(root: Path, d: Disk, a: nat, q: Path) {
    a < |d.pending| && Holds(root, d.pending[a], q)
  }

  ghost predicate HeldOk(before: Tree, root: Path, d: Disk) {
    forall a: nat, q :: Holder(root, d, a, q) ==>
      q !in before && q in d.tree && d.tree[q] == File(Content(root, d.pending[a], q))
  }

  ghost predicate Held(root: Path, d: Disk, q: Path) {
    exists a: nat :: Holder(root, d, a, q)
  }

  ghost predicate AllAccounted(before: Tree, root: Path, d: Disk) {
    forall q :: q in d.tree ==> q in before || (d.tree[q].Dir? && Inside(root, q)) || Held(root, d, q)
  }

  ghost predicate Disjoint(root: Path, d: Disk) {
    forall a: nat, b: nat, q :: Holder(root, d, a, q) && Holder(root, d, b, q) ==> a == b
  }

  ghost predicate Inv(saveDir: Path, before: Tree, root: Path, d: Disk) {
    && Resolve(d.tree, [], saveDir, SYMLINK_LIMIT) == Some(root)
    && (forall a :: 0 <= a < |d.pending| ==> PendingOk(d.tree, root, d.pending[a]))
    && OldKept(before, d.tree)
    && HeldOk(before, root, d)
    && AllAccounted(before, root, d)
    && Disjoint(root, d)
  }

  // ---- lookups of a pending receive ----

  lemma LookupHere(saveDir: Path, before: Tree, root: Path, d: Disk, a: nat, name: Name)
    requires Inv(saveDir, before, root, d) && a < |d.pending|
    requires Checked(d.pending[a]) == d.pending[a].directory
    ensures var at := Place(root, d.pending[a], name);
            Lookup(d.tree, DirectoryOf(saveDir, d.pending[a]), name) ==
              if at in d.tree then Entry(at, d.tree[at]) else Vacant(at)
  {
    LookupBelow(d.tree, saveDir, root, d.pending[a].directory, name);
  }

  lemma LookupNext(saveDir: Path, before: Tree, root: Path, d: Disk, a: nat, k: nat)
    requires Inv(saveDir, before, root, d) && a < |d.pending| && k < |d.pending[a].directory|
    requires Checked(d.pending[a]) == d.pending[a].directory[..k]
    ensures var me := d.pending[a]; var at := root + me.directory[..k + 1];
            Lookup(d.tree, saveDir + me.directory[..k], me.directory[k]) ==
              if at in d.tree then Entry(at, d.tree[at]) else Vacant(at)
  {
    var me := d.pending[a];
    LookupBelow(d.tree, saveDir, root, me.directory[..k], me.directory[k]);
    assert root + me.directory[..k] + [me.directory[k]] == root + me.directory[..k + 1];
  }

  lemma ChainGrows(t: Tree, root: Path, names: Path, k: nat)
    requires k < |names| && RealChain(t, root, names[..k]) && IsDir(t, root + names[..k + 1])
    ensures RealChain(t, root, names[..k + 1])
  {
    var longer := names[..k + 1];
    forall j | 0 < j <= |longer|
      ensures IsDir(t, root + longer[..j])
    {
      assert longer[..j] == names[..j];
      if j <= k {
        assert names[..k][..j] == names[..j];
        assert IsDir(t, root + names[..k][..j]);
      }
    }
  }

  // ---- shapes of a step ----

  /** Directories and links of the tree stay, so every other receive stays as it was. */
  lemma OthersOk(saveDir: Path, before: Tree, root: Path, d: Disk, a: nat, p: Pending, t: Tree)
    requires Inv(saveDir, before, root, d) && a < |d.pending|
    requires KeepsShape(d.tree, t) && PendingOk(t, root, p)
    ensures var d' := With(d, a, p).(tree := t);
            && Resolve(d'.tree, [], saveDir, SYMLINK_LIMIT) == Some(root)
            && forall b :: 0 <= b < |d'.pending| ==> PendingOk(d'.tree, root, d'.pending[b])
  {
    ResolveStable(d.tree, t, [], saveDir, SYMLINK_LIMIT);
    forall b | 0 <= b < |d.pending| && b != a
      ensures PendingOk(t, root, d.pending[b])
    {
      assert PendingOk(d.tree, root, d.pending[b]);
      ChainStable(d.tree, t, root, Checked(d.pending[b]));
    }
  }

  /** What one receive does to the tree: files of its own, a new file it holds, or a new directory. */
  ghost predicate OwnChange(root: Path, d: Disk, a: nat, p: Pending, t: Tree)
    requires a < |d.pending|
  {
    && (forall q :: q in d.tree && !Holds(root, d.pending[a], q) ==> q in t && t[q] == d.tree[q])
    && (forall q :: q in t && !Holds(root, p, q) && !Holds(root, d.pending[a], q) ==>
          q in d.tree || (t[q].Dir? && Inside(root, q)))
    && (forall q :: Holds(root, p, q) ==> q in t && t[q] == File(Content(root, p, q)))
    && (forall q :: Holds(root, p, q) ==> Holds(root, d.pending[a], q) || q !in d.tree)
    && (forall q :: Holds(root, d.pending[a], q) && !Holds(root, p, q) ==> q !in t)
  }

  /** A system call of receive `a` changed nothing but what is its own. */
  ghost predicate OwnStep(root: Path, d: Disk, a: nat, d': Disk) {
    || d' == d
    || (&& a < |d.pending| == |d'.pending|
        && d' == With(d, a, d'.pending[a]).(tree := d'.tree)
        && OwnChange(root, d, a, d'.pending[a], d'.tree))
  }

  /** The ledger moves with the receive that changed its own files. */
  lemma LedgerMoves(before: Tree, root: Path, d: Disk, a: nat, p: Pending, t: Tree)
    requires a < |d.pending| && OwnChange(root, d, a, p, t)
    requires OldKept(before, d.tree) && HeldOk(before, root, d) && AllAccounted(before, root, d) && Disjoint(root, d)
    ensures var d' := With(d, a, p).(tree := t);
            OldKept(before, t) && HeldOk(before, root, d') && AllAccounted(before, root, d') && Disjoint(root, d')
  {
    var d' := With(d, a, p).(tree := t);
    forall q | q in before
      ensures q in t && t[q] == before[q]
    {
      assert !Holder(root, d, a, q);
    }
    forall b: nat, q | Holder(root, d', b, q)
      ensures q !in before && q in t && t[q] == File(Content(root, d'.pending[b], q))
      ensures b == a || Holder(root, d, b, q)
      ensures b == a ==> Holder(root, d, a, q) || q !in d.tree
    {
      if b == a {
        assert Holds(root, d.pending[a], q) ==> Holder(root, d, a, q);
      } else {
        assert Holder(root, d, b, q);
        assert !Holder(root, d, a, q);
      }
    }
    forall q | q in t
      ensures q in before || (t[q].Dir? && Inside(root, q)) || Held(root, d', q)
    {
      if Holds(root, p, q) {
        assert Holder(root, d', a, q);
      } else if !Holds(root, d.pending[a], q) && q in d.tree && q !in before && Held(root, d, q) {
        var b: nat :| Holder(root, d, b, q);
        assert Holder(root, d', b, q);
      }
    }
  }

  lemma ChangeKeepsInv(saveDir: Path, before: Tree, root: Path, d: Disk, a: nat, p: Pending, t: Tree)
    requires Inv(saveDir, before, root, d) && a < |d.pending|
    requires KeepsShape(d.tree, t) && PendingOk(t, root, p) && OwnChange(root, d, a, p, t)
    ensures Inv(saveDir, before, root, With(d, a, p).(tree := t))
    ensures OwnStep(root, d, a, With(d, a, p).(tree := t))
  {
    OthersOk(saveDir, before, root, d, a, p, t);
    LedgerMoves(before, root, d, a, p, t);
  }

  lemma StageKeepsInv(saveDir: Path, before: Tree, root: Path, d: Disk, a: nat, p: Pending)
    requires Inv(saveDir, before, root, d) && a < |d.pending|
    requires p == d.pending[a].(stage := p.stage) && PendingOk(d.tree, root, p)
    ensures Inv(saveDir, before, root, With(d, a, p))
    ensures OwnStep(root, d, a, With(d, a, p))
  {
    HolderFacts(saveDir, before, root, d, a);
    ChangeKeepsInv(saveDir, before, root, d, a, p, d.tree);
    assert With(d, a, p).(tree := d.tree) == With(d, a, p);
  }

  lemma HolderFacts(saveDir: Path, before: Tree, root: Path, d: Disk, a: nat)
    requires Inv(saveDir, before, root, d) && a < |d.pending|
    ensures var me := d.pending[a];
            && PendingOk(d.tree, root, me)
            && forall q :: Holds(root, me, q) ==> q in d.tree && d.tree[q] == File(Content(root, me, q))
  {
    forall q | Holds(root, d.pending[a], q)
      ensures q in d.tree && d.tree[q] == File(Content(root, d.pending[a], q))
    {
      assert Holder(root, d, a, q);
    }
  }

  // ---- each system call ----

  lemma BeginKeepsInv(saveDir: Path, before: Tree, root: Path, d: Disk, name: Bytes)
    requires Inv(saveDir, before, root, d)
    ensures Inv(saveDir, before, root, DoBegin(d, name))
  {
    if Acceptable(name) { AcceptedIsPlain(name); }
    var d' := DoBegin(d, name);
    var n := |d.pending|;
    forall a | 0 <= a < |d'.pending|
      ensures PendingOk(d'.tree, root, d'.pending[a])
    {
      assert a < n ==> PendingOk(d.tree, root, d.pending[a]);
    }
    forall a: nat, q | Holder(root, d', a, q)
      ensures Holder(root, d, a, q)
    {
    }
    forall q | Held(root, d, q)
      ensures Held(root, d', q)
    {
      var a: nat :| Holder(root, d, a, q);
      assert Holder(root, d', a, q);
    }
  }

  lemma StatKeepsInv(saveDir: Path, before: Tree, root: Path, d: Disk, a: nat, fault: bool)
    requires Inv(saveDir, before, root, d)
    ensures Inv(saveDir, before, root, DoStat(saveDir, d, a, fault))
    ensures OwnStep(root, d, a, DoStat(saveDir, d, a, fault))
  {
    if a < |d.pending| && d.pending[a].stage.Walking? {
      var me := d.pending[a];
      var k := me.stage.k;
      assert PendingOk(d.tree, root, me);
      if k >= |me.directory| {
        assert me.directory[..k] == me.directory;
      } else if !fault {
        LookupNext(saveDir, before, root, d, a, k);
        if IsDir(d.tree, root + me.directory[..k + 1]) {
          ChainGrows(d.tree, root, me.directory, k);
        }
      }
      StageKeepsInv(saveDir, before, root, d, a, DoStat(saveDir, d, a, fault).pending[a]);
    }
  }

  lemma MakeKeepsInv(saveDir: Path, before: Tree, root: Path, d: Disk, a: nat, fault: bool)
    requires Inv(saveDir, before, root, d)
    ensures Inv(saveDir, before, root, DoMake(saveDir, d, a, fault))
    ensures OwnStep(root, d, a, DoMake(saveDir, d, a, fault))
  {
    if a < |d.pending| && d.pending[a].stage.Making? {
      var me := d.pending[a];
      var k := me.stage.k;
      HolderFacts(saveDir, before, root, d, a);
      LookupNext(saveDir, before, root, d, a, k);
      var at := root + me.directory[..k + 1];
      var d' := DoMake(saveDir, d, a, fault);
      if fault || at in d.tree {
        StageKeepsInv(saveDir, before, root, d, a, d'.pending[a]);
      } else {
        var t := d.tree[at := Dir];
        ChainStable(d.tree, t, root, me.directory[..k]);
        ChainGrows(t, root, me.directory, k);
        assert at[..|root|] == root && at[|root|..] == me.directory[..k + 1];
        ChangeKeepsInv(saveDir, before, root, d, a, me.(stage := Walking(k + 1)), t);
      }
    }
  }

  lemma NameTaken(saveDir: Path, before: Tree, root: Path, d: Disk, a: nat, candidate: Name)
    requires Inv(saveDir, before, root, d) && a < |d.pending| && d.pending[a].stage.Reserving?
    requires Place(root, d.pending[a], candidate) !in d.tree && Plain(candidate)
    ensures var me := d.pending[a]; var p := me.(stage := Opening, chosen := candidate, hasFinal := true);
            var d' := With(d, a, p).(tree := d.tree[Place(root, me, candidate) := File([])]);
            Inv(saveDir, before, root, d') && OwnStep(root, d, a, d')
  {
    var me := d.pending[a];
    HolderFacts(saveDir, before, root, d, a);
    var t := d.tree[Place(root, me, candidate) := File([])];
    ChainStable(d.tree, t, root, me.directory);
    ChangeKeepsInv(saveDir, before, root, d, a, me.(stage := Opening, chosen := candidate, hasFinal := true), t);
  }

  lemma TriedKeepsInv(saveDir: Path, before: Tree, root: Path, d: Disk, a: nat, candidate: Name)
    requires Inv(saveDir, before, root, d) && a < |d.pending| && d.pending[a].stage.Reserving? && Plain(candidate)
    ensures var place := Lookup(d.tree, DirectoryOf(saveDir, d.pending[a]), candidate);
            var d' := Tried(d, a, d.pending[a].stage.attempt, candidate, place);
            Inv(saveDir, before, root, d') && OwnStep(root, d, a, d')
  {
    var me := d.pending[a];
    LookupHere(saveDir, before, root, d, a, candidate);
    if Place(root, me, candidate) in d.tree {
      var d' := Tried(d, a, me.stage.attempt, candidate, Lookup(d.tree, DirectoryOf(saveDir, me), candidate));
      HolderFacts(saveDir, before, root, d, a);
      StageKeepsInv(saveDir, before, root, d, a, d'.pending[a]);
    } else {
      NameTaken(saveDir, before, root, d, a, candidate);
    }
  }

  lemma TryNameKeepsInv(saveDir: Path, before: Tree, root: Path, d: Disk, a: nat, fault: bool)
    requires Inv(saveDir, before, root, d)
    ensures Inv(saveDir, before, root, DoTryName(saveDir, d, a, fault))
    ensures OwnStep(root, d, a, DoTryName(saveDir, d, a, fault))
  {
    if a < |d.pending| && d.pending[a].stage.Reserving? {
      var me := d.pending[a];
      HolderFacts(saveDir, before, root, d, a);
      if fault {
        StageKeepsInv(saveDir, before, root, d, a, me.(stage := Stopped));
      } else {
        CandidatePlain(me.leaf, me.stage.attempt);
        TriedKeepsInv(saveDir, before, root, d, a, Candidate(me.leaf, me.stage.attempt));
      }
    }
  }

  lemma TempOpened(saveDir: Path, before: Tree, root: Path, d: Disk, a: nat, temp: Name)
    requires Inv(saveDir, before, root, d) && a < |d.pending| && d.pending[a].stage.Opening?
    requires Place(root, d.pending[a], temp) !in d.tree && Plain(temp)
    ensures var me := d.pending[a]; var p := me.(stage := Open, temp := temp, hasTemp := true);
            var d' := With(d, a, p).(tree := d.tree[Place(root, me, temp) := File([])]);
            Inv(saveDir, before, root, d') && OwnStep(root, d, a, d')
  {
    var me := d.pending[a];
    HolderFacts(saveDir, before, root, d, a);
    assert Holds(root, me, Place(root, me, me.chosen));
    var t := d.tree[Place(root, me, temp) := File([])];
    ChainStable(d.tree, t, root, me.directory);
    ChangeKeepsInv(saveDir, before, root, d, a, me.(stage := Open, temp := temp, hasTemp := true), t);
  }

  lemma OpenTempKeepsInv(saveDir: Path, before: Tree, root: Path, d: Disk, a: nat, uuid: Uuid, fault: bool)
    requires Inv(saveDir, before, root, d)
    ensures Inv(saveDir, before, root, DoOpenTemp(saveDir, d, a, uuid, fault))
    ensures OwnStep(root, d, a, DoOpenTemp(saveDir, d, a, uuid, fault))
  {
    if a < |d.pending| && d.pending[a].stage.Opening? {
      var me := d.pending[a];
      HolderFacts(saveDir, before, root, d, a);
      var temp := TempName(uuid);
      LookupHere(saveDir, before, root, d, a, temp);
      var at := Place(root, me, temp);
      var d' := DoOpenTemp(saveDir, d, a, uuid, fault);
      if fault || at in d.tree {
        StageKeepsInv(saveDir, before, root, d, a, d'.pending[a]);
      } else {
        TempOpened(saveDir, before, root, d, a, temp);
      }
    }
  }

  /** The reservation and the temporary are two different files of the same directory. */
  lemma TwoFiles(saveDir: Path, before: Tree, root: Path, d: Disk, a: nat)
    requires Inv(saveDir, before, root, d) && a < |d.pending| && d.pending[a].hasFinal && d.pending[a].hasTemp
    requires Checked(d.pending[a]) == d.pending[a].directory
    ensures var me := d.pending[a]; var final, temp := Place(root, me, me.chosen), Place(root, me, me.temp);
            && final != temp && !me.published
            && final in d.tree && d.tree[final] == File([])
            && temp in d.tree && d.tree[temp] == File(me.data)
            && Lookup(d.tree, DirectoryOf(saveDir, me), me.temp) == Entry(temp, File(me.data))
            && Lookup(d.tree, DirectoryOf(saveDir, me), me.chosen) == Entry(final, File([]))
  {
    var me := d.pending[a];
    HolderFacts(saveDir, before, root, d, a);
    LookupHere(saveDir, before, root, d, a, me.temp);
    LookupHere(saveDir, before, root, d, a, me.chosen);
    var final, temp := Place(root, me, me.chosen), Place(root, me, me.temp);
    assert Holds(root, me, final) && Holds(root, me, temp);
    assert final[|final| - 1] == me.chosen && temp[|temp| - 1] == me.temp;
  }

  lemma AppendedOk(saveDir: Path, before: Tree, root: Path, d: Disk, a: nat, bytes: Bytes)
    requires Inv(saveDir, before, root, d) && a < |d.pending| && d.pending[a].stage.Open?
    ensures var me := d.pending[a]; var t := d.tree[Place(root, me, me.temp) := File(me.data + bytes)];
            KeepsShape(d.tree, t) && PendingOk(t, root, me.(data := me.data + bytes))
  {
    var me := d.pending[a];
    HolderFacts(saveDir, before, root, d, a);
    TwoFiles(saveDir, before, root, d, a);
    ChainStable(d.tree, d.tree[Place(root, me, me.temp) := File(me.data + bytes)], root, me.directory);
  }

  lemma Appended(saveDir: Path, before: Tree, root: Path, d: Disk, a: nat, bytes: Bytes)
    requires Inv(saveDir, before, root, d) && a < |d.pending| && d.pending[a].stage.Open?
    ensures var me := d.pending[a]; var p := me.(data := me.data + bytes);
            var d' := With(d, a, p).(tree := d.tree[Place(root, me, me.temp) := File(me.data + bytes)]);
            Inv(saveDir, before, root, d') && OwnStep(root, d, a, d')
  {
    var me := d.pending[a];
    HolderFacts(saveDir, before, root, d, a);
    AppendedOk(saveDir, before, root, d, a, bytes);
    var t := d.tree[Place(root, me, me.temp) := File(me.data + bytes)];
    ChangeKeepsInv(saveDir, before, root, d, a, me.(data := me.data + bytes), t);
  }

  lemma WriteKeepsInv(saveDir: Path, before: Tree, root: Path, d: Disk, a: nat, bytes: Bytes)
    requires Inv(saveDir, before, root, d)
    ensures Inv(saveDir, before, root, DoWrite(saveDir, d, a, bytes))
    ensures OwnStep(root, d, a, DoWrite(saveDir, d, a, bytes))
  {
    if a < |d.pending| && d.pending[a].stage.Open? {
      HolderFacts(saveDir, before, root, d, a);
      TwoFiles(saveDir, before, root, d, a);
      Appended(saveDir, before, root, d, a, bytes);
    }
  }

  lemma RenamedOk(saveDir: Path, before: Tree, root: Path, d: Disk, a: nat)
    requires Inv(saveDir, before, root, d) && a < |d.pending| && d.pending[a].stage.Open?
    ensures var me := d.pending[a]; var p := me.(stage := Stopped, hasTemp := false, published := true);
            var t := (d.tree - {Place(root, me, me.temp)})[Place(root, me, me.chosen) := File(me.data)];
            KeepsShape(d.tree, t) && PendingOk(t, root, p)
  {
    HolderFacts(saveDir, before, root, d, a);
    TwoFiles(saveDir, before, root, d, a);
  }

  lemma RenamedChange(saveDir: Path, before: Tree, root: Path, d: Disk, a: nat)
    requires Inv(saveDir, before, root, d) && a < |d.pending| && d.pending[a].stage.Open?
    ensures var me := d.pending[a]; var p := me.(stage := Stopped, hasTemp := false, published := true);
            var t := (d.tree - {Place(root, me, me.temp)})[Place(root, me, me.chosen) := File(me.data)];
            OwnChange(root, d, a, p, t)
  {
    var me := d.pending[a];
    HolderFacts(saveDir, before, root, d, a);
    TwoFiles(saveDir, before, root, d, a);
    assert Holds(root, me, Place(root, me, me.temp)) && Holds(root, me, Place(root, me, me.chosen));
  }

  lemma Renamed(saveDir: Path, before: Tree, root: Path, d: Disk, a: nat)
    requires Inv(saveDir, before, root, d) && a < |d.pending| && d.pending[a].stage.Open?
    ensures var me := d.pending[a]; var p := me.(stage := Stopped, hasTemp := false, published := true);
            var t := (d.tree - {Place(root, me, me.temp)})[Place(root, me, me.chosen) := File(me.data)];
            Inv(saveDir, before, root, With(d, a, p).(tree := t)) && OwnStep(root, d, a, With(d, a, p).(tree := t))
  {
    var me := d.pending[a];
    RenamedOk(saveDir, before, root, d, a);
    RenamedChange(saveDir, before, root, d, a);
    var t := (d.tree - {Place(root, me, me.temp)})[Place(root, me, me.chosen) := File(me.data)];
    ChangeKeepsInv(saveDir, before, root, d, a, me.(stage := Stopped, hasTemp := false, published := true), t);
  }

  lemma CommitKeepsInv(saveDir: Path, before: Tree, root: Path, d: Disk, a: nat, fault: bool)
    requires Inv(saveDir, before, root, d)
    ensures Inv(saveDir, before, root, DoCommit(saveDir, d, a, fault))
    ensures OwnStep(root, d, a, DoCommit(saveDir, d, a, fault))
  {
    if a < |d.pending| && d.pending[a].stage.Open? {
      var me := d.pending[a];
      HolderFacts(saveDir, before, root, d, a);
      TwoFiles(saveDir, before, root, d, a);
      if fault {
        StageKeepsInv(saveDir, before, root, d, a, me.(stage := Stopped));
      } else {
        Renamed(saveDir, before, root, d, a);
      }
    }
  }

  lemma TempRemoved(saveDir: Path, before: Tree, root: Path, d: Disk, a: nat)
    requires Inv(saveDir, before, root, d) && a < |d.pending| && d.pending[a].stage.DiscardTemp?
    ensures var me := d.pending[a]; var p := me.(stage := DiscardFinal, hasTemp := false);
            var d' := With(d, a, p).(tree := d.tree - {Place(root, me, me.temp)});
            Inv(saveDir, before, root, d') && OwnStep(root, d, a, d')
  {
    var me := d.pending[a];
    HolderFacts(saveDir, before, root, d, a);
    TwoFiles(saveDir, before, root, d, a);
    var t := d.tree - {Place(root, me, me.temp)};
    ChainStable(d.tree, t, root, me.directory);
    ChangeKeepsInv(saveDir, before, root, d, a, me.(stage := DiscardFinal, hasTemp := false), t);
  }

  lemma RemoveTempKeepsInv(saveDir: Path, before: Tree, root: Path, d: Disk, a: nat, fault: bool)
    requires Inv(saveDir, before, root, d)
    ensures Inv(saveDir, before, root, DoRemoveTemp(saveDir, d, a, fault))
    ensures OwnStep(root, d, a, DoRemoveTemp(saveDir, d, a, fault))
  {
    if a < |d.pending| && d.pending[a].stage.DiscardTemp? {
      var me := d.pending[a];
      HolderFacts(saveDir, before, root, d, a);
      TwoFiles(saveDir, before, root, d, a);
      if fault {
        StageKeepsInv(saveDir, before, root, d, a, me.(stage := DiscardFinal));
      } else {
        TempRemoved(saveDir, before, root, d, a);
      }
    }
  }

  lemma FinalRemoved(saveDir: Path, before: Tree, root: Path, d: Disk, a: nat)
    requires Inv(saveDir, before, root, d) && a < |d.pending| && d.pending[a].stage.DiscardFinal?
    requires var me := d.pending[a]; me.hasTemp ==> Place(root, me, me.chosen) != Place(root, me, me.temp)
    ensures var me := d.pending[a]; var p := me.(stage := Stopped, hasFinal := false);
            var d' := With(d, a, p).(tree := d.tree - {Place(root, me, me.chosen)});
            Inv(saveDir, before, root, d') && OwnStep(root, d, a, d')
  {
    var me := d.pending[a];
    HolderFacts(saveDir, before, root, d, a);
    assert Holds(root, me, Place(root, me, me.chosen));
    var p := me.(stage := Stopped, hasFinal := false);
    ChangeKeepsInv(saveDir, before, root, d, a, p, d.tree - {Place(root, me, me.chosen)});
  }

  lemma RemoveFinalKeepsInv(saveDir: Path, before: Tree, root: Path, d: Disk, a: nat, fault: bool)
    requires Inv(saveDir, before, root, d)
    ensures Inv(saveDir, before, root, DoRemoveFinal(saveDir, d, a, fault))
    ensures OwnStep(root, d, a, DoRemoveFinal(saveDir, d, a, fault))
  {
    if a < |d.pending| && d.pending[a].stage.DiscardFinal? {
      var me := d.pending[a];
      HolderFacts(saveDir, before, root, d, a);
      var final := Place(root, me, me.chosen);
      assert Holds(root, me, final);
      LookupHere(saveDir, before, root, d, a, me.chosen);
      if fault {
        StageKeepsInv(saveDir, before, root, d, a, me.(stage := Stopped));
      } else {
        if me.hasTemp {
          TwoFiles(saveDir, before, root, d, a);
        }
        FinalRemoved(saveDir, before, root, d, a);
        assert DoRemoveFinal(saveDir, d, a, fault) ==
               With(d, a, me.(stage := Stopped, hasFinal := false)).(tree := d.tree - {final});
      }
    }
  }

  lemma StepKeepsInv(saveDir: Path, before: Tree, root: Path, d: Disk, step: Step)
    requires Inv(saveDir, before, root, d)
    ensures Inv(saveDir, before, root, Apply(saveDir, d, step))
    ensures !step.Begin? ==> OwnStep(root, d, step.a, Apply(saveDir, d, step))
  {
    match step
    case Begin(name) => BeginKeepsInv(saveDir, before, root, d, name);
    case Stat(a, fault) => StatKeepsInv(saveDir, before, root, d, a, fault);
    case Make(a, fault) => MakeKeepsInv(saveDir, before, root, d, a, fault);
    case TryName(a, fault) => TryNameKeepsInv(saveDir, before, root, d, a, fault);
    case OpenTemp(a, uuid, fault) => OpenTempKeepsInv(saveDir, before, root, d, a, uuid, fault);
    case Write(a, bytes) => WriteKeepsInv(saveDir, before, root, d, a, bytes);
    case Commit(a, fault) => CommitKeepsInv(saveDir, before, root, d, a, fault);
    case Discard(a) => EndKeepsInv(saveDir, before, root, d, a);
    case RemoveTemp(a, fault) => RemoveTempKeepsInv(saveDir, before, root, d, a, fault);
    case RemoveFinal(a, fault) => RemoveFinalKeepsInv(saveDir, before, root, d, a, fault);
    case Vanish(a) => EndKeepsInv(saveDir, before, root, d, a);
    case Abandon(a) => AbandonKeepsInv(saveDir, before, root, d, a);
  }

  lemma AbandonKeepsInv(saveDir: Path, before: Tree, root: Path, d: Disk, a: nat)
    requires Inv(saveDir, before, root, d)
    ensures Inv(saveDir, before, root, DoAbandon(d, a)) && OwnStep(root, d, a, DoAbandon(d, a))
  {
    if a < |d.pending| {
      HolderFacts(saveDir, before, root, d, a);
      StageKeepsInv(saveDir, before, root, d, a, d.pending[a].(stage := Stopped));
    }
  }

  lemma EndKeepsInv(saveDir: Path, before: Tree, root: Path, d: Disk, a: nat)
    requires Inv(saveDir, before, root, d)
    ensures Inv(saveDir, before, root, DoDiscard(d, a)) && Inv(saveDir, before, root, DoVanish(d, a))
    ensures OwnStep(root, d, a, DoDiscard(d, a)) && OwnStep(root, d, a, DoVanish(d, a))
  {
    if a < |d.pending| {
      var me := d.pending[a];
      HolderFacts(saveDir, before, root, d, a);
      if me.stage.Open? {
        StageKeepsInv(saveDir, before, root, d, a, me.(stage := DiscardTemp));
      } else {
        StageKeepsInv(saveDir, before, root, d, a, me.(stage := Stopped));
      }
    }
  }

  /** The ledger of every run that starts with a receive directory that resolves. */
  lemma {:induction false} RunKeepsInv(saveDir: Path, before: Tree, root: Path, steps: seq<Step>)
    requires Resolve(before, [], saveDir, SYMLINK_LIMIT) == Some(root)
    ensures Inv(saveDir, before, root, Run(saveDir, before, steps))
  {
    if steps != [] {
      var k := |steps| - 1;
      RunKeepsInv(saveDir, before, root, steps[..k]);
      StepKeepsInv(saveDir, before, root, Run(saveDir, before, steps[..k]), steps[k]);
    }
  }
}
