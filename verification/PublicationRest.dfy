/**
 The disk and the records when everything is over: every new file is the body of one
 Published slot, and every Published slot has one new file, exactly if no future was
 dropped between commit and record and no failure left a file behind
 (src/server/handlers.rs:559-852, src/core/sink.rs:111-221).
 */
module PublicationRest {
  import opened Options
  import opened Lifecycle
  import opened PathSafety
  import opened FileTree
  import E = Engine
  import EI = EngineInvariant
  import EK = EngineKeeping
  import ER = EngineRecords
  import SI = SinkInvariant
  import SL = SinkLeftovers
  import opened Publication

  /** Every handler is gone and every receive is over. */
  predicate AtRest(w: World) {
    && (forall u :: 0 <= u < |w.engine.uploads| ==> w.engine.uploads[u].pc.Gone?)
    && (forall a :: 0 <= a < |w.disk.pending| ==> w.disk.pending[a].stage.Stopped?)
  }

  predicate NewFile(before: Tree, w: World, q: Path) {
    q in w.disk.tree && q !in before && !w.disk.tree[q].Dir?
  }

  /** The file at `q` is the complete body of upload `u` of the file, which was recorded. */
  predicate IsFileOf(cfg: Config, root: Path, w: World, u: nat, s: E.SessionId, f: FileId, q: Path) {
    && Both(w, u) && ER.Kept(w.engine, u, s, f)
    && q == SI.Place(root, w.disk.pending[u], w.disk.pending[u].chosen)
    && q in w.disk.tree && w.disk.tree[q].File? && CompleteBody(cfg, w, u, w.disk.tree[q].content)
  }

  ghost predicate FileOf(cfg: Config, root: Path, w: World, s: E.SessionId, f: FileId, q: Path) {
    exists u: nat :: IsFileOf(cfg, root, w, u, s, f, q)
  }

  /** The file at `q` is that of a Published slot. */
  ghost predicate OnRecord(cfg: Config, root: Path, w: World, q: Path) {
    exists s, f :: ER.Recorded(w.engine, s, f) && FileOf(cfg, root, w, s, f, q)
  }

  /** No upload landed and lost its future before the record. */
  predicate NoneLost(w: World) {
    forall u :: 0 <= u < |w.engine.uploads| ==> !w.engine.uploads[u].lost
  }

  /** No step of the run left a temporary or a reservation behind. */
  ghost predicate NothingLeft(cfg: Config, before: Tree, steps: seq<Step>) {
    forall a: nat :: LeavesNothing(cfg, before, steps, a)
  }

  ghost predicate LeavesNothing(cfg: Config, before: Tree, steps: seq<Step>, a: nat) {
    && !SL.EverLeavesTemp(cfg.saveDir, before, DiskSteps(cfg, before, steps), a)
    && !SL.EverLeavesFinal(cfg.saveDir, before, DiskSteps(cfg, before, steps), a)
  }

  /** What is known of one upload at rest. */
  lemma RestFacts(cfg: Config, before: Tree, root: Path, w: World, u: nat)
    requires Inv(cfg, before, root, w) && AtRest(w) && u < |w.disk.pending|
    ensures Both(w, u) && E.Known(w.engine, u) && SI.PendingOk(w.disk.tree, root, w.disk.pending[u])
    ensures var me, p := w.engine.uploads[u], w.disk.pending[u];
            && (p.published <==> me.landed) && (me.landed ==> p.hasFinal && !p.hasTemp)
            && (me.lost ==> me.landed)
            && (p.hasTemp ==> SI.Holder(root, w.disk, u, SI.Place(root, p, p.temp)))
            && (p.hasFinal ==> SI.Holder(root, w.disk, u, SI.Place(root, p, p.chosen)))
  {
    EI.HandlerFacts(w.engine, u);
    assert Agree(w.engine.uploads[u], w.disk.pending[u]);
    SI.HolderFacts(cfg.saveDir, before, root, w.disk, u);
  }

  /** A landed upload has its body at the name it chose. */
  lemma LandedFile(cfg: Config, before: Tree, root: Path, w: World, u: nat)
    requires Inv(cfg, before, root, w) && AtRest(w) && u < |w.disk.pending| && w.engine.uploads[u].landed
    ensures var p := w.disk.pending[u]; var q := SI.Place(root, p, p.chosen);
            NewFile(before, w, q) && w.disk.tree[q].File? && CompleteBody(cfg, w, u, w.disk.tree[q].content)
  {
    RestFacts(cfg, before, root, w, u);
    assert Verified(cfg, w.engine, u) && Agree(w.engine.uploads[u], w.disk.pending[u]);
  }

  /** Whoever holds a file is the only one it can be the file of. */
  lemma HolderIsOwner(cfg: Config, before: Tree, root: Path, w: World, a: nat, u: nat, s: E.SessionId, f: FileId,
                      q: Path)
    requires Inv(cfg, before, root, w) && AtRest(w)
    requires SI.Holder(root, w.disk, a, q) && IsFileOf(cfg, root, w, u, s, f, q)
    ensures a == u
  {
    RestFacts(cfg, before, root, w, u);
  }

  lemma LeftoversShow(cfg: Config, before: Tree, root: Path, steps: seq<Step>, w: World, a: nat)
    requires Resolve(before, [], cfg.saveDir, SYMLINK_LIMIT) == Some(root) && w == Run(cfg, before, steps) && AtRest(w)
    ensures LeavesNothing(cfg, before, steps, a) <==>
              a < |w.disk.pending| ==>
                && (w.disk.pending[a].hasTemp ==> w.disk.pending[a].published)
                && (w.disk.pending[a].hasFinal ==> w.disk.pending[a].published)
  {
    DiskPartIsARun(cfg, before, steps);
    RunKeepsInv(cfg, before, root, steps);
    SL.LeftIffLeaves(cfg.saveDir, before, root, DiskSteps(cfg, before, steps), w.disk, a);
    if a < |w.disk.pending| { RestFacts(cfg, before, root, w, a); }
  }

  lemma PublishedHaveUploads(cfg: Config, before: Tree, steps: seq<Step>, w: World, s: E.SessionId, f: FileId)
    requires w == Run(cfg, before, steps) && EK.NeverDisplaces(cfg.engine, EngineSteps(cfg, before, steps))
    ensures ER.Recorded(w.engine, s, f) <==> exists u: nat :: ER.KeptAndGone(w.engine, u, s, f)
    ensures forall u: nat, v: nat :: ER.Kept(w.engine, u, s, f) && ER.Kept(w.engine, v, s, f) ==> u == v
  {
    EnginePartIsARun(cfg, before, steps);
    ER.PublishedIffRecorded(cfg.engine, EngineSteps(cfg, before, steps), w.engine, s, f);
  }

  /** Nobody lost and nothing left: a new file belongs to a landed upload, whose slot is Published. */
  lemma NewFileOnRecord(cfg: Config, before: Tree, root: Path, steps: seq<Step>, w: World, q: Path)
    requires Resolve(before, [], cfg.saveDir, SYMLINK_LIMIT) == Some(root) && w == Run(cfg, before, steps) && AtRest(w)
    requires EK.NeverDisplaces(cfg.engine, EngineSteps(cfg, before, steps))
    requires NoneLost(w) && NothingLeft(cfg, before, steps) && NewFile(before, w, q)
    ensures OnRecord(cfg, root, w, q)
  {
    RunKeepsInv(cfg, before, root, steps);
    assert SI.Held(root, w.disk, q);
    var u: nat :| SI.Holder(root, w.disk, u, q);
    RestFacts(cfg, before, root, w, u);
    assert LeavesNothing(cfg, before, steps, u);
    LeftoversShow(cfg, before, root, steps, w, u);
    var me := w.engine.uploads[u];
    LandedFile(cfg, before, root, w, u);
    assert ER.KeptAndGone(w.engine, u, me.session, me.file);
    PublishedHaveUploads(cfg, before, steps, w, me.session, me.file);
    assert IsFileOf(cfg, root, w, u, me.session, me.file, q);
  }

  /** A lost upload's file, and anything left behind, is on no record. */
  lemma StrayFile(cfg: Config, before: Tree, root: Path, w: World, u: nat, q: Path)
    requires Inv(cfg, before, root, w) && AtRest(w)
    requires SI.Holder(root, w.disk, u, q) && u < |w.engine.uploads|
    requires w.engine.uploads[u].lost || !w.engine.uploads[u].landed
    ensures NewFile(before, w, q) && !OnRecord(cfg, root, w, q)
  {
    forall s, f, v: nat | IsFileOf(cfg, root, w, v, s, f, q)
      ensures false
    {
      HolderIsOwner(cfg, before, root, w, u, v, s, f, q);
    }
  }

  /**
   At rest, in a run without displacement: every new file is the complete body of a
   Published slot if and only if no future was dropped between a commit and its record
   and no step left a temporary or a reservation behind.
   */
  lemma FilesOnRecordIff(cfg: Config, before: Tree, root: Path, steps: seq<Step>, w: World)
    requires Resolve(before, [], cfg.saveDir, SYMLINK_LIMIT) == Some(root) && w == Run(cfg, before, steps) && AtRest(w)
    requires EK.NeverDisplaces(cfg.engine, EngineSteps(cfg, before, steps))
    ensures (forall q :: NewFile(before, w, q) ==> OnRecord(cfg, root, w, q)) <==>
              NoneLost(w) && NothingLeft(cfg, before, steps)
  {
    RunKeepsInv(cfg, before, root, steps);
    if NoneLost(w) && NothingLeft(cfg, before, steps) {
      forall q | NewFile(before, w, q)
        ensures OnRecord(cfg, root, w, q)
      {
        NewFileOnRecord(cfg, before, root, steps, w, q);
      }
    } else if !NoneLost(w) {
      var u :| 0 <= u < |w.engine.uploads| && w.engine.uploads[u].lost;
      RestFacts(cfg, before, root, w, u);
      StrayFile(cfg, before, root, w, u, SI.Place(root, w.disk.pending[u], w.disk.pending[u].chosen));
    } else {
      var a: nat :| !LeavesNothing(cfg, before, steps, a);
      LeftoversShow(cfg, before, root, steps, w, a);
      RestFacts(cfg, before, root, w, a);
      var p := w.disk.pending[a];
      StrayFile(cfg, before, root, w, a, SI.Place(root, p, if p.hasFinal then p.chosen else p.temp));
    }
  }

  lemma FileOfRecord(cfg: Config, before: Tree, root: Path, w: World, s: E.SessionId, f: FileId, q: Path)
    requires Inv(cfg, before, root, w) && AtRest(w) && FileOf(cfg, root, w, s, f, q)
    ensures NewFile(before, w, q) && exists u: nat :: ER.KeptAndGone(w.engine, u, s, f)
  {
    var u: nat :| IsFileOf(cfg, root, w, u, s, f, q);
    LandedFile(cfg, before, root, w, u);
    assert ER.KeptAndGone(w.engine, u, s, f);
  }

  lemma RecordHasFile(cfg: Config, before: Tree, root: Path, w: World, s: E.SessionId, f: FileId, u: nat)
    requires Inv(cfg, before, root, w) && AtRest(w) && ER.KeptAndGone(w.engine, u, s, f)
    ensures exists q :: FileOf(cfg, root, w, s, f, q)
  {
    LandedFile(cfg, before, root, w, u);
    var q := SI.Place(root, w.disk.pending[u], w.disk.pending[u].chosen);
    assert IsFileOf(cfg, root, w, u, s, f, q);
    assert FileOf(cfg, root, w, s, f, q);
  }

  lemma OneSlotAFile(cfg: Config, before: Tree, root: Path, w: World, s: E.SessionId, f: FileId,
                     t: E.SessionId, g: FileId, q: Path)
    requires Inv(cfg, before, root, w) && AtRest(w)
    requires FileOf(cfg, root, w, s, f, q) && FileOf(cfg, root, w, t, g, q)
    ensures t == s && g == f
  {
    var u: nat :| IsFileOf(cfg, root, w, u, s, f, q);
    var v: nat :| IsFileOf(cfg, root, w, v, t, g, q);
    RestFacts(cfg, before, root, w, u);
    HolderIsOwner(cfg, before, root, w, u, v, t, g, q);
  }

  /** And whatever was left or lost: exactly the Published slots have a file, each has one, and no two have the same. */
  lemma OneFileARecord(cfg: Config, before: Tree, root: Path, steps: seq<Step>, w: World, s: E.SessionId, f: FileId)
    requires Resolve(before, [], cfg.saveDir, SYMLINK_LIMIT) == Some(root) && w == Run(cfg, before, steps) && AtRest(w)
    requires EK.NeverDisplaces(cfg.engine, EngineSteps(cfg, before, steps))
    ensures ER.Recorded(w.engine, s, f) <==> exists q :: FileOf(cfg, root, w, s, f, q)
    ensures forall q :: FileOf(cfg, root, w, s, f, q) ==> NewFile(before, w, q)
    ensures forall q, r :: FileOf(cfg, root, w, s, f, q) && FileOf(cfg, root, w, s, f, r) ==> q == r
    ensures forall q, t, g :: FileOf(cfg, root, w, s, f, q) && FileOf(cfg, root, w, t, g, q) ==> t == s && g == f
  {
    RunKeepsInv(cfg, before, root, steps);
    PublishedHaveUploads(cfg, before, steps, w, s, f);
    if ER.Recorded(w.engine, s, f) {
      var u: nat :| ER.KeptAndGone(w.engine, u, s, f);
      RecordHasFile(cfg, before, root, w, s, f, u);
    }
    forall q | FileOf(cfg, root, w, s, f, q)
      ensures NewFile(before, w, q) && ER.Recorded(w.engine, s, f)
    {
      FileOfRecord(cfg, before, root, w, s, f, q);
    }
    forall q, r | FileOf(cfg, root, w, s, f, q) && FileOf(cfg, root, w, s, f, r)
      ensures q == r
    {
      OnlyFile(cfg, root, w, s, f, q, r);
    }
    forall q, t, g | FileOf(cfg, root, w, s, f, q) && FileOf(cfg, root, w, t, g, q)
      ensures t == s && g == f
    {
      OneSlotAFile(cfg, before, root, w, s, f, t, g, q);
    }
  }

  lemma OnlyFile(cfg: Config, root: Path, w: World, s: E.SessionId, f: FileId, q: Path, r: Path)
    requires forall u: nat, v: nat :: ER.Kept(w.engine, u, s, f) && ER.Kept(w.engine, v, s, f) ==> u == v
    requires FileOf(cfg, root, w, s, f, q) && FileOf(cfg, root, w, s, f, r)
    ensures q == r
  {
    var u: nat :| IsFileOf(cfg, root, w, u, s, f, q);
    var v: nat :| IsFileOf(cfg, root, w, v, s, f, r);
  }
}
