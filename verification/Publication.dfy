/**
 The receive engine and the atomic sink together: every upload handler drives its
 own pending receive, and what becomes visible on disk is only ever a complete,
 checked body (src/server/handlers.rs:659-791, src/core/sink.rs:111-221).
 */
module Publication {
  import opened Options
  import opened Lifecycle
  import Names
  import opened PathSafety
  import opened FileTree
  import E = Engine
  import EI = EngineInvariant
  import EC = EngineCancellation
  import ED = EngineIds
  import EF = EngineFinality
  import EL = EngineLanding
  import S = Sink
  import SI = SinkInvariant

  /** Upload `u` of the engine owns pending receive `u` of the disk. */
  datatype World = World(engine: E.World, disk: S.Disk)

  datatype Config = Config(engine: E.Config, saveDir: Path)

  datatype Step =
    | Server(step: E.Step)
    | Claim(session: E.SessionId, file: FileId, token: E.Token)
    | Creating(call: S.Step)
    | CreateDone(u: nat)
    | WriteChunk(u: nat, chunk: Bytes)
    | FailWrite(u: nat, written: Bytes)
    | StartAbort(u: nat)
    | Aborting(call: S.Step)
    | AbortDone(u: nat)
    | CommitDone(u: nat, fault: bool)
    | DropUpload(u: nat, inFlight: bool)
    | LateCommit(u: nat, fault: bool)
    | LateCreate(call: S.Step)

  /** The engine steps that involve no file system call of the sink. */
  predicate Diskless(step: E.Step) {
    || E.PrepareStep(step) || E.CancelStep(step)
    || step.Report? || step.FailBody? || step.ObserveCancel? || step.EndBody?
    || step.Publish? || step.Rollback? || step.Record? || step.DropHold?
  }

  /** The system calls of `create`, and of `abort`. */
  predicate CreateCall(step: S.Step) {
    step.Stat? || step.Make? || step.TryName? || step.OpenTemp?
  }

  predicate AbortCall(step: S.Step) {
    step.RemoveTemp? || step.RemoveFinal?
  }

  predicate Both(w: World, u: nat) {
    u < |w.engine.uploads| && u < |w.disk.pending|
  }

  /** `sink.create` with the wire name of the claimed file. */
  function DoClaim(w: World, s: E.SessionId, f: FileId, token: E.Token): World {
    var engine := E.DoClaim(w.engine, s, f, token);
    if engine == w.engine || s >= |w.engine.sessions| || f !in w.engine.sessions[s].files then w
    else World(engine, S.DoBegin(w.disk, w.engine.sessions[s].files[f].name))
  }

  /**
   The future of an upload is dropped.  A system call in flight is not called back: the
   last call of a `create` and the rename of a `commit` still come to their end.
   */
  function DoDropUpload(w: World, u: nat, inFlight: bool): World {
    if Both(w, u)
    then World(E.DoDropUpload(w.engine, u, inFlight), DiskAfterDrop(w.disk, u, w.engine.uploads[u].pc, inFlight))
    else w
  }

  function DiskAfterDrop(d: S.Disk, u: nat, pc: E.UploadPc, inFlight: bool): S.Disk
    requires u < |d.pending|
  {
    match pc
    case Creating | Aborting => if inFlight && !d.pending[u].stage.Open? then d else S.DoVanish(d, u)
    case Streaming => S.DoVanish(d, u)
    case Committing => if inFlight then d else S.DoAbandon(d, u)
    case _ => d
  }

  function DoLateCommit(cfg: Config, w: World, u: nat, fault: bool): World {
    if E.InPc(w.engine, u, E.Orphaned)
    then World(E.DoLateCommit(w.engine, u, !fault), S.DoCommit(cfg.saveDir, w.disk, u, fault))
    else w
  }

  /** The last call of a dropped `create`: its effect stays, and nothing follows it. */
  function DoLateCreate(cfg: Config, w: World, call: S.Step): World {
    if CreateCall(call) && E.InPc(w.engine, call.a, E.Gone)
    then w.(disk := S.DoAbandon(S.Apply(cfg.saveDir, w.disk, call), call.a))
    else w
  }

  function DoCreating(cfg: Config, w: World, call: S.Step): World {
    if CreateCall(call) && E.InPc(w.engine, call.a, E.Creating)
    then w.(disk := S.Apply(cfg.saveDir, w.disk, call))
    else w
  }

  /** `create` returned, with a destination or with an error. */
  function DoCreateDone(w: World, u: nat): World {
    if Both(w, u) && (w.disk.pending[u].stage.Open? || w.disk.pending[u].stage.Stopped?)
    then w.(engine := E.DoCreateDone(w.engine, u, w.disk.pending[u].stage.Open?))
    else w
  }

  function DoWriteChunk(cfg: Config, w: World, u: nat, chunk: Bytes): World {
    var engine := E.DoWriteChunk(w.engine, u, chunk);
    if engine != w.engine then World(engine, S.DoWrite(cfg.saveDir, w.disk, u, chunk)) else w
  }

  /** A write failed after some of its bytes. */
  function DoFailWrite(cfg: Config, w: World, u: nat, written: Bytes): World {
    if E.InPc(w.engine, u, E.Streaming)
    then World(E.DoFailBody(w.engine, u), S.DoWrite(cfg.saveDir, w.disk, u, written))
    else w
  }

  function DoStartAbort(w: World, u: nat): World {
    if E.InPc(w.engine, u, E.Aborting) then w.(disk := S.DoDiscard(w.disk, u)) else w
  }

  function DoAborting(cfg: Config, w: World, call: S.Step): World {
    if AbortCall(call) then w.(disk := S.Apply(cfg.saveDir, w.disk, call)) else w
  }

  function DoAbortDone(w: World, u: nat): World {
    if Both(w, u) && w.disk.pending[u].stage.Stopped? then w.(engine := E.DoAbortDone(w.engine, u)) else w
  }

  function DoCommitDone(cfg: Config, w: World, u: nat, fault: bool): World {
    if E.InPc(w.engine, u, E.Committing)
    then World(E.DoCommitDone(w.engine, u, !fault), S.DoCommit(cfg.saveDir, w.disk, u, fault))
    else w
  }

  ghost function Apply(cfg: Config, w: World, step: Step): World {
    match step
    case Server(e) => if Diskless(e) then w.(engine := E.Apply(cfg.engine, w.engine, e)) else w
    case Claim(s, f, token) => DoClaim(w, s, f, token)
    case Creating(call) => DoCreating(cfg, w, call)
    case CreateDone(u) => DoCreateDone(w, u)
    case WriteChunk(u, chunk) => DoWriteChunk(cfg, w, u, chunk)
    case FailWrite(u, written) => DoFailWrite(cfg, w, u, written)
    case StartAbort(u) => DoStartAbort(w, u)
    case Aborting(call) => DoAborting(cfg, w, call)
    case AbortDone(u) => DoAbortDone(w, u)
    case CommitDone(u, fault) => DoCommitDone(cfg, w, u, fault)
    case DropUpload(u, inFlight) => DoDropUpload(w, u, inFlight)
    case LateCommit(u, fault) => DoLateCommit(cfg, w, u, fault)
    case LateCreate(call) => DoLateCreate(cfg, w, call)
  }

  ghost function Run(cfg: Config, before: Tree, steps: seq<Step>): World {
    if steps == [] then World(E.INIT, S.Disk(before, []))
    else Apply(cfg, Run(cfg, before, steps[..|steps| - 1]), steps[|steps| - 1])
  }

  // ---- what a handler and its destination agree on ----

  /** The upload is past the checks of its body. */
  predicate Passed(me: E.Upload) {
    me.pc.Validated? || me.pc.Committing? || me.pc.Committed? || me.pc.Orphaned? || me.landed
  }

  /** A body may be published, or was, only after it matched the offer. */
  predicate Verified(cfg: Config, w: E.World, u: nat)
    requires E.Known(w, u)
  {
    Passed(w.uploads[u]) ==> E.MatchesOffer(cfg.engine, E.MetaOf(w, u), E.Body(w.uploads[u]))
  }

  predicate Agree(e: E.Upload, p: S.Pending) {
    && (p.published <==> e.landed)
    && (e.landed ==> p.data == E.Body(e))
    && match e.pc
       case Creating => !p.stage.DiscardTemp? && !p.stage.DiscardFinal? && (p.stage.Open? ==> p.data == [])
       case Streaming => p.stage.Open? && p.data == E.Body(e)
       case Validated => p.stage.Open? && p.data == E.Body(e)
       case Committing => p.stage.Open? && p.data == E.Body(e)
       case RollingBack(_) => if e.hold.Permit? then p.stage.Stopped? else p.stage.Open?
       case Committed => p.stage.Stopped?
       case Orphaned => p.stage.Open? && p.data == E.Body(e)
       case Leaving => p.stage.Stopped?
       case _ => true
  }

  ghost predicate Inv(cfg: Config, before: Tree, root: Path, w: World) {
    && EI.Inv(w.engine)
    && SI.Inv(cfg.saveDir, before, root, w.disk)
    && |w.engine.uploads| == |w.disk.pending|
    && (forall u :: 0 <= u < |w.engine.uploads| ==>
          Verified(cfg, w.engine, u) && Agree(w.engine.uploads[u], w.disk.pending[u]))
  }

  // ---- checked bodies ----

  ghost predicate AllVerified(cfg: Config, w: E.World) {
    forall u :: 0 <= u < |w.uploads| ==> E.Known(w, u) && Verified(cfg, w, u)
  }

  /** No step but `EndBody` lets a body pass, and a body that passed stays as it is. */
  lemma PassedBefore(cfg: Config, w: E.World, step: E.Step)
    requires EI.Inv(w) && E.UploadStep(step) && !step.EndBody? && step.u < |w.uploads|
    requires ED.OnlyUpload(w, step.u, E.Apply(cfg.engine, w, step))
    ensures var me, me' := w.uploads[step.u], E.Apply(cfg.engine, w, step).uploads[step.u];
            Passed(me') ==> Passed(me) && me'.chunks == me.chunks
  {
    EI.HandlerFacts(w, step.u);
    if ED.TokenStep(step) { TokenPassed(cfg, w, step); }
  }

  lemma TokenPassed(cfg: Config, w: E.World, step: E.Step)
    requires ED.TokenStep(step) && step.u < |w.uploads| && EI.UploadOk(w.uploads[step.u])
    requires ED.OnlyUpload(w, step.u, E.Apply(cfg.engine, w, step))
    ensures var me, me' := w.uploads[step.u], E.Apply(cfg.engine, w, step).uploads[step.u];
            Passed(me') ==> Passed(me) && me'.chunks == me.chunks
  {
  }

  lemma EndBodyChecks(cfg: Config, w: E.World, u: nat)
    requires EI.Inv(w) && u < |w.uploads| && Verified(cfg, w, u)
    ensures E.Known(E.DoEndBody(cfg.engine, w, u), u) && Verified(cfg, E.DoEndBody(cfg.engine, w, u), u)
  {
    EI.HandlerFacts(w, u);
  }

  /** The step of one upload keeps its body checked: only `EndBody` lets it pass, by checking it. */
  lemma OwnBodyVerified(cfg: Config, w: E.World, step: E.Step)
    requires EI.Inv(w) && E.UploadStep(step) && step.u < |w.uploads| && Verified(cfg, w, step.u)
    requires EI.Inv(E.Apply(cfg.engine, w, step)) && EC.Preserves(w, E.Apply(cfg.engine, w, step))
    requires ED.OnlyUpload(w, step.u, E.Apply(cfg.engine, w, step))
    ensures E.Known(E.Apply(cfg.engine, w, step), step.u) && Verified(cfg, E.Apply(cfg.engine, w, step), step.u)
  {
    if step.EndBody? {
      EndBodyChecks(cfg, w, step.u);
    } else {
      EI.HandlerFacts(w, step.u);
      EI.HandlerFacts(E.Apply(cfg.engine, w, step), step.u);
      PassedBefore(cfg, w, step);
    }
  }

  lemma UploadStepVerified(cfg: Config, w: E.World, step: E.Step)
    requires EI.Inv(w) && AllVerified(cfg, w) && E.UploadStep(step)
    ensures EI.Inv(E.Apply(cfg.engine, w, step)) && AllVerified(cfg, E.Apply(cfg.engine, w, step))
  {
    var w' := E.Apply(cfg.engine, w, step);
    EI.StepKeepsInv(cfg.engine, w, step);
    EC.StepPreserves(cfg.engine, w, step);
    ED.UploadFrame(cfg.engine, w, step);
    if step.u < |w.uploads| { OwnBodyVerified(cfg, w, step); }
    forall u | 0 <= u < |w'.uploads|
      ensures E.Known(w', u) && Verified(cfg, w', u)
    {
      EI.HandlerFacts(w', u);
      if w'.uploads[u] == w.uploads[u] { SameVerified(cfg, w, w', u); }
    }
  }

  lemma OutsideStepVerified(cfg: Config, w: E.World, step: E.Step)
    requires EI.Inv(w) && AllVerified(cfg, w) && !E.UploadStep(step)
    ensures EI.Inv(E.Apply(cfg.engine, w, step)) && AllVerified(cfg, E.Apply(cfg.engine, w, step))
  {
    var w' := E.Apply(cfg.engine, w, step);
    EI.StepKeepsInv(cfg.engine, w, step);
    EC.StepPreserves(cfg.engine, w, step);
    if step.Claim? {
      ED.ClaimedIsNew(w, step.session, step.file, step.token);
    } else {
      EL.PrepareCurrentMoves(cfg.engine, w, step);
    }
    forall u | 0 <= u < |w'.uploads|
      ensures E.Known(w', u) && Verified(cfg, w', u)
    {
      EI.HandlerFacts(w', u);
      if u < |w.uploads| { SameVerified(cfg, w, w', u); }
    }
  }

  lemma StepVerified(cfg: Config, w: E.World, step: E.Step)
    requires EI.Inv(w) && AllVerified(cfg, w)
    ensures EI.Inv(E.Apply(cfg.engine, w, step)) && AllVerified(cfg, E.Apply(cfg.engine, w, step))
  {
    if E.UploadStep(step) {
      UploadStepVerified(cfg, w, step);
    } else {
      OutsideStepVerified(cfg, w, step);
    }
  }

  lemma SameVerified(cfg: Config, w: E.World, w': E.World, u: nat)
    requires EC.Preserves(w, w') && E.Known(w, u) && E.Known(w', u)
    requires w'.uploads[u] == w.uploads[u] && Verified(cfg, w, u)
    ensures Verified(cfg, w', u)
  {
    assert E.MetaOf(w', u) == E.MetaOf(w, u);
  }

  // ---- agreement ----

  predicate AllAgree(w: World) {
    && |w.engine.uploads| == |w.disk.pending|
    && forall u :: 0 <= u < |w.engine.uploads| ==> Agree(w.engine.uploads[u], w.disk.pending[u])
  }

  lemma ServerAgrees(cfg: Config, w: World, step: E.Step)
    requires EI.Inv(w.engine) && AllAgree(w) && Diskless(step)
    ensures AllAgree(w.(engine := E.Apply(cfg.engine, w.engine, step)))
  {
    if E.UploadStep(step) {
      ED.UploadFrame(cfg.engine, w.engine, step);
      if step.u < |w.engine.uploads| {
        EI.HandlerFacts(w.engine, step.u);
        OwnServerStepAgrees(cfg, w, step);
      }
    } else {
      EL.PrepareCurrentMoves(cfg.engine, w.engine, step);
    }
  }

  lemma OwnServerStepAgrees(cfg: Config, w: World, step: E.Step)
    requires AllAgree(w) && Diskless(step) && E.UploadStep(step) && step.u < |w.engine.uploads|
    requires EI.UploadOk(w.engine.uploads[step.u])
    requires step.u < |E.Apply(cfg.engine, w.engine, step).uploads|
    ensures Agree(E.Apply(cfg.engine, w.engine, step).uploads[step.u], w.disk.pending[step.u])
  {
    assert Agree(w.engine.uploads[step.u], w.disk.pending[step.u]);
    if ED.TokenStep(step) {
      TokenAgrees(cfg, w.engine, step, w.disk.pending[step.u]);
    }
  }

  lemma TokenAgrees(cfg: Config, w: E.World, step: E.Step, p: S.Pending)
    requires ED.TokenStep(step) && Diskless(step) && step.u < |w.uploads|
    requires EI.UploadOk(w.uploads[step.u]) && Agree(w.uploads[step.u], p)
    requires step.u < |E.Apply(cfg.engine, w, step).uploads|
    ensures Agree(E.Apply(cfg.engine, w, step).uploads[step.u], p)
  {
  }

  /** The sink moved upload `u`'s destination alone, and the two still agree. */
  lemma DiskAgrees(w: World, u: nat, w': World)
    requires AllAgree(w) && u < |w.engine.uploads|
    requires |w'.engine.uploads| == |w.engine.uploads| && |w'.disk.pending| == |w.disk.pending|
    requires forall v :: 0 <= v < |w.engine.uploads| && v != u ==>
               w'.engine.uploads[v] == w.engine.uploads[v] && w'.disk.pending[v] == w.disk.pending[v]
    requires Agree(w'.engine.uploads[u], w'.disk.pending[u])
    ensures AllAgree(w')
  {
  }

  lemma PairAgrees(w: World, u: nat, e: E.Upload, p: S.Pending, tree: Tree)
    requires AllAgree(w) && u < |w.engine.uploads| && Agree(e, p)
    ensures AllAgree(World(E.WithUpload(w.engine, u, e), S.Disk(tree, w.disk.pending[u := p])))
  {
  }

  lemma CreateCallAgrees(cfg: Config, before: Tree, root: Path, w: World, step: S.Step)
    requires SI.Inv(cfg.saveDir, before, root, w.disk) && AllAgree(w)
    requires CreateCall(step) && E.InPc(w.engine, step.a, E.Creating)
    ensures AllAgree(w.(disk := S.Apply(cfg.saveDir, w.disk, step)))
  {
    var d' := S.Apply(cfg.saveDir, w.disk, step);
    SI.HolderFacts(cfg.saveDir, before, root, w.disk, step.a);
    assert Agree(w.engine.uploads[step.a], w.disk.pending[step.a]);
    CreateCallStage(cfg, before, root, w.disk, step);
    DiskAgrees(w, step.a, w.(disk := d'));
  }

  /** A system call of `create` moved its own destination only, and wrote nothing to it. */
  predicate CreateShape(d: S.Disk, a: nat, d': S.Disk) {
    && a < |d.pending| == |d'.pending|
    && (forall b :: 0 <= b < |d.pending| && b != a ==> d'.pending[b] == d.pending[b])
    && var p, p' := d.pending[a], d'.pending[a];
    && (!p.stage.DiscardTemp? && !p.stage.DiscardFinal? ==> !p'.stage.DiscardTemp? && !p'.stage.DiscardFinal?)
    && p'.data == p.data && p'.published == p.published
    && (p'.stage.Open? && !p.stage.Open? ==> p.data == [])
  }

  lemma WalkShape(saveDir: Path, d: S.Disk, a: nat, fault: bool)
    requires a < |d.pending|
    ensures CreateShape(d, a, S.DoStat(saveDir, d, a, fault))
    ensures CreateShape(d, a, S.DoMake(saveDir, d, a, fault))
  {
  }

  lemma TriedShape(d: S.Disk, a: nat, n: nat, candidate: Bytes, place: Finding)
    requires a < |d.pending|
    ensures CreateShape(d, a, S.Tried(d, a, n, candidate, place))
    ensures CreateShape(d, a, S.Stop(d, a)) && CreateShape(d, a, d)
  {
  }

  lemma TryShape(saveDir: Path, d: S.Disk, a: nat, fault: bool)
    requires a < |d.pending|
    ensures CreateShape(d, a, S.DoTryName(saveDir, d, a, fault))
  {
    TriedShape(d, a, 0, [], Unreachable);
    if d.pending[a].stage.Reserving? && d.pending[a].stage.attempt <= Names.MAX_COLLISION_ATTEMPTS {
      var n, leaf := d.pending[a].stage.attempt, d.pending[a].leaf;
      var candidate := Names.Candidate(leaf, n);
      TriedShape(d, a, n, candidate, Lookup(d.tree, S.DirectoryOf(saveDir, d.pending[a]), candidate));
    }
  }

  lemma OpenShape(saveDir: Path, d: S.Disk, a: nat, uuid: S.Uuid, fault: bool)
    requires a < |d.pending| && (d.pending[a].stage.Opening? ==> d.pending[a].data == [])
    ensures CreateShape(d, a, S.DoOpenTemp(saveDir, d, a, uuid, fault))
  {
  }

  lemma CreateCallStage(cfg: Config, before: Tree, root: Path, d: S.Disk, step: S.Step)
    requires SI.Inv(cfg.saveDir, before, root, d) && CreateCall(step) && step.a < |d.pending|
    ensures CreateShape(d, step.a, S.Apply(cfg.saveDir, d, step))
  {
    SI.HolderFacts(cfg.saveDir, before, root, d, step.a);
    match step
    case Stat(a, fault) => WalkShape(cfg.saveDir, d, a, fault);
    case Make(a, fault) => WalkShape(cfg.saveDir, d, a, fault);
    case TryName(a, fault) => TryShape(cfg.saveDir, d, a, fault);
    case OpenTemp(a, uuid, fault) => OpenShape(cfg.saveDir, d, a, uuid, fault);
  }

  lemma AbortCallAgrees(cfg: Config, before: Tree, root: Path, w: World, step: S.Step)
    requires SI.Inv(cfg.saveDir, before, root, w.disk) && AllAgree(w) && AbortCall(step)
    ensures AllAgree(w.(disk := S.Apply(cfg.saveDir, w.disk, step)))
  {
    if step.a < |w.disk.pending| {
      SI.StepKeepsInv(cfg.saveDir, before, root, w.disk, step);
      SI.HolderFacts(cfg.saveDir, before, root, w.disk, step.a);
      assert Agree(w.engine.uploads[step.a], w.disk.pending[step.a]);
      DiskAgrees(w, step.a, w.(disk := S.Apply(cfg.saveDir, w.disk, step)));
    }
  }

  /** What the handler of an open destination has written so far, before and after one more write. */
  lemma WrittenData(cfg: Config, before: Tree, root: Path, w: World, u: nat, bytes: Bytes)
    requires EI.Inv(w.engine) && SI.Inv(cfg.saveDir, before, root, w.disk) && AllAgree(w)
    requires E.InPc(w.engine, u, E.Streaming)
    ensures var p, p' := w.disk.pending[u], S.DoWrite(cfg.saveDir, w.disk, u, bytes).pending;
            && !p.published && !w.engine.uploads[u].landed && w.engine.uploads[u].hold.Lease?
            && p' == w.disk.pending[u := p.(data := p.data + bytes)]
            && p.stage.Open? && p.data == E.Body(w.engine.uploads[u])
            && p.data + bytes == E.Flatten(w.engine.uploads[u].chunks + [bytes])
  {
    EI.HandlerFacts(w.engine, u);
    assert Agree(w.engine.uploads[u], w.disk.pending[u]);
    SI.HolderFacts(cfg.saveDir, before, root, w.disk, u);
    SI.TwoFiles(cfg.saveDir, before, root, w.disk, u);
    EI.FlattenAppend(w.engine.uploads[u].chunks, bytes);
  }

  lemma WriteAgrees(cfg: Config, before: Tree, root: Path, w: World, u: nat, bytes: Bytes)
    requires EI.Inv(w.engine) && SI.Inv(cfg.saveDir, before, root, w.disk) && AllAgree(w)
    requires E.InPc(w.engine, u, E.Streaming)
    requires E.DoWriteChunk(w.engine, u, bytes) != w.engine
    ensures AllAgree(DoWriteChunk(cfg, w, u, bytes))
  {
    WrittenData(cfg, before, root, w, u, bytes);
    var me, p := w.engine.uploads[u], w.disk.pending[u];
    var disk := S.DoWrite(cfg.saveDir, w.disk, u, bytes);
    PairAgrees(w, u, me.(chunks := me.chunks + [bytes]), p.(data := p.data + bytes), disk.tree);
    assert disk == S.Disk(disk.tree, w.disk.pending[u := p.(data := p.data + bytes)]);
  }

  lemma FailWriteAgrees(cfg: Config, before: Tree, root: Path, w: World, u: nat, written: Bytes)
    requires EI.Inv(w.engine) && SI.Inv(cfg.saveDir, before, root, w.disk) && AllAgree(w)
    requires E.InPc(w.engine, u, E.Streaming)
    ensures AllAgree(DoFailWrite(cfg, w, u, written))
  {
    WrittenData(cfg, before, root, w, u, written);
    var me, p := w.engine.uploads[u], w.disk.pending[u];
    var disk := S.DoWrite(cfg.saveDir, w.disk, u, written);
    PairAgrees(w, u, me.(pc := E.RollingBack(me.reported)), p.(data := p.data + written), disk.tree);
    assert disk == S.Disk(disk.tree, w.disk.pending[u := p.(data := p.data + written)]);
  }

  lemma CommittedData(cfg: Config, before: Tree, root: Path, w: World, u: nat, fault: bool)
    requires EI.Inv(w.engine) && SI.Inv(cfg.saveDir, before, root, w.disk) && AllAgree(w)
    requires E.InPc(w.engine, u, E.Committing) || E.InPc(w.engine, u, E.Orphaned)
    ensures var p, p' := w.disk.pending[u], S.DoCommit(cfg.saveDir, w.disk, u, fault).pending;
            && p' == w.disk.pending[u := if fault then p.(stage := S.Stopped)
                                         else p.(stage := S.Stopped, hasTemp := false, published := true)]
            && !p.published && !w.engine.uploads[u].landed
            && (w.engine.uploads[u].pc.Committing? ==> w.engine.uploads[u].hold.Permit?)
            && p.data == E.Body(w.engine.uploads[u])
  {
    EI.HandlerFacts(w.engine, u);
    assert Agree(w.engine.uploads[u], w.disk.pending[u]);
    SI.HolderFacts(cfg.saveDir, before, root, w.disk, u);
    SI.TwoFiles(cfg.saveDir, before, root, w.disk, u);
  }

  lemma CommitAgrees(cfg: Config, before: Tree, root: Path, w: World, u: nat, fault: bool)
    requires EI.Inv(w.engine) && SI.Inv(cfg.saveDir, before, root, w.disk) && AllAgree(w)
    requires E.InPc(w.engine, u, E.Committing)
    ensures AllAgree(DoCommitDone(cfg, w, u, fault))
  {
    CommittedData(cfg, before, root, w, u, fault);
    var me, p := w.engine.uploads[u], w.disk.pending[u];
    var disk := S.DoCommit(cfg.saveDir, w.disk, u, fault);
    if fault {
      PairAgrees(w, u, me.(pc := E.RollingBack(|E.Body(me)|)), p.(stage := S.Stopped), disk.tree);
    } else {
      PairAgrees(w, u, me.(pc := E.Committed, landed := true),
                 p.(stage := S.Stopped, hasTemp := false, published := true), disk.tree);
    }
    assert disk == S.Disk(disk.tree, disk.pending);
  }

  lemma LateCommitAgrees(cfg: Config, before: Tree, root: Path, w: World, u: nat, fault: bool)
    requires EI.Inv(w.engine) && SI.Inv(cfg.saveDir, before, root, w.disk) && AllAgree(w)
    requires E.InPc(w.engine, u, E.Orphaned)
    ensures AllAgree(DoLateCommit(cfg, w, u, fault))
  {
    CommittedData(cfg, before, root, w, u, fault);
    var me, p := w.engine.uploads[u], w.disk.pending[u];
    var disk := S.DoCommit(cfg.saveDir, w.disk, u, fault);
    PairAgrees(w, u, me.(pc := E.Gone, landed := !fault, lost := !fault),
               if fault then p.(stage := S.Stopped)
               else p.(stage := S.Stopped, hasTemp := false, published := true), disk.tree);
    assert disk == S.Disk(disk.tree, disk.pending);
  }

  lemma LateCreateAgrees(cfg: Config, before: Tree, root: Path, w: World, call: S.Step)
    requires SI.Inv(cfg.saveDir, before, root, w.disk) && AllAgree(w)
    requires CreateCall(call) && E.InPc(w.engine, call.a, E.Gone)
    ensures AllAgree(DoLateCreate(cfg, w, call))
  {
    CreateCallStage(cfg, before, root, w.disk, call);
    assert Agree(w.engine.uploads[call.a], w.disk.pending[call.a]);
    DiskAgrees(w, call.a, DoLateCreate(cfg, w, call));
  }

  lemma DropAgrees(w: World, u: nat, inFlight: bool)
    requires EI.Inv(w.engine) && AllAgree(w) && Both(w, u)
    ensures AllAgree(DoDropUpload(w, u, inFlight))
  {
    EI.HandlerFacts(w.engine, u);
    assert Agree(w.engine.uploads[u], w.disk.pending[u]);
    ED.DropFrame(w.engine, u, inFlight);
    DiskAgrees(w, u, DoDropUpload(w, u, inFlight));
  }

  // ---- any step, any run ----

  /** The step of the engine in a combined one, if it has a part in it. */
  function EngineStep(w: World, step: Step): seq<E.Step> {
    match step
    case Server(e) => if Diskless(e) then [e] else []
    case Claim(s, f, token) => [E.Step.Claim(s, f, token)]
    case CreateDone(u) =>
      if Both(w, u) && (w.disk.pending[u].stage.Open? || w.disk.pending[u].stage.Stopped?)
      then [E.Step.CreateDone(u, w.disk.pending[u].stage.Open?)]
      else []
    case WriteChunk(u, chunk) => [E.Step.WriteChunk(u, chunk)]
    case FailWrite(u, _) => [E.FailBody(u)]
    case AbortDone(u) => if Both(w, u) && w.disk.pending[u].stage.Stopped? then [E.Step.AbortDone(u)] else []
    case CommitDone(u, fault) => [E.Step.CommitDone(u, !fault)]
    case DropUpload(u, inFlight) => if Both(w, u) then [E.Step.DropUpload(u, inFlight)] else []
    case LateCommit(u, fault) => [E.Step.LateCommit(u, !fault)]
    case _ => []
  }

  /** The engine goes its own way, whatever the disk does. */
  lemma EngineFollows(cfg: Config, w: World, step: Step)
    ensures var es := EngineStep(w, step);
            Apply(cfg, w, step).engine == if es == [] then w.engine else E.Apply(cfg.engine, w.engine, es[0])
  {
    if Ending(step) { EngineFollowsEnding(cfg, w, step); }
  }

  lemma EngineFollowsEnding(cfg: Config, w: World, step: Step)
    requires Ending(step)
    ensures var es := EngineStep(w, step);
            Apply(cfg, w, step).engine == if es == [] then w.engine else E.Apply(cfg.engine, w.engine, es[0])
  {
    if step.DropUpload? || step.LateCommit? || step.LateCreate? { EngineFollowsLate(cfg, w, step); }
  }

  lemma EngineFollowsLate(cfg: Config, w: World, step: Step)
    requires step.DropUpload? || step.LateCommit? || step.LateCreate?
    ensures var es := EngineStep(w, step);
            Apply(cfg, w, step).engine == if es == [] then w.engine else E.Apply(cfg.engine, w.engine, es[0])
  {
  }

  /** The engine's own schedule inside a combined one. */
  ghost function EngineSteps(cfg: Config, before: Tree, steps: seq<Step>): seq<E.Step> {
    if steps == [] then []
    else
      var front := steps[..|steps| - 1];
      EngineSteps(cfg, before, front) + EngineStep(Run(cfg, before, front), steps[|steps| - 1])
  }

  lemma EngineRunMore(cfg: E.Config, steps: seq<E.Step>, more: seq<E.Step>)
    requires |more| <= 1
    ensures E.Run(cfg, steps + more) ==
            if more == [] then E.Run(cfg, steps) else E.Apply(cfg, E.Run(cfg, steps), more[0])
  {
    if more == [] {
      assert steps + more == steps;
    } else {
      var all := steps + more;
      assert all[..|all| - 1] == steps && all[|all| - 1] == more[0];
    }
  }

  lemma OneEngineStep(w: World, step: Step)
    ensures |EngineStep(w, step)| <= 1
  {
  }

  /** The engine part of every combined run is a run of the engine, so every theorem about those holds of it. */
  lemma {:induction false} EnginePartIsARun(cfg: Config, before: Tree, steps: seq<Step>)
    ensures E.Run(cfg.engine, EngineSteps(cfg, before, steps)) == Run(cfg, before, steps).engine
  {
    if steps != [] {
      var front := steps[..|steps| - 1];
      var w, step := Run(cfg, before, front), steps[|steps| - 1];
      EnginePartIsARun(cfg, before, front);
      EngineFollows(cfg, w, step);
      OneEngineStep(w, step);
      EngineRunMore(cfg.engine, EngineSteps(cfg, before, front), EngineStep(w, step));
    }
  }

  lemma {:induction false} EngineStepsGrow(cfg: Config, before: Tree, steps: seq<Step>, n: nat)
    requires n <= |steps|
    ensures EngineSteps(cfg, before, steps[..n]) <= EngineSteps(cfg, before, steps)
  {
    if n == |steps| {
      assert steps[..n] == steps;
    } else {
      var front := steps[..|steps| - 1];
      assert front[..n] == steps[..n];
      EngineStepsGrow(cfg, before, front, n);
    }
  }

  lemma EngineSide(cfg: Config, before: Tree, root: Path, w: World, step: Step)
    requires Inv(cfg, before, root, w)
    ensures EI.Inv(Apply(cfg, w, step).engine) && AllVerified(cfg, Apply(cfg, w, step).engine)
  {
    assert AllVerified(cfg, w.engine);
    EngineFollows(cfg, w, step);
    if EngineStep(w, step) != [] { StepVerified(cfg, w.engine, EngineStep(w, step)[0]); }
  }

  /** The system calls of the sink in a combined step, and the ends of its futures. */
  function DiskStep(w: World, step: Step): seq<S.Step> {
    match step
    case Claim(s, f, token) =>
      if E.DoClaim(w.engine, s, f, token) == w.engine || s >= |w.engine.sessions| || f !in w.engine.sessions[s].files
      then []
      else [S.Begin(w.engine.sessions[s].files[f].name)]
    case Creating(call) => if CreateCall(call) && E.InPc(w.engine, call.a, E.Creating) then [call] else []
    case WriteChunk(u, chunk) => if E.DoWriteChunk(w.engine, u, chunk) != w.engine then [S.Write(u, chunk)] else []
    case FailWrite(u, written) => if E.InPc(w.engine, u, E.Streaming) then [S.Write(u, written)] else []
    case StartAbort(u) => if E.InPc(w.engine, u, E.Aborting) then [S.Discard(u)] else []
    case Aborting(call) => if AbortCall(call) then [call] else []
    case CommitDone(u, fault) => if E.InPc(w.engine, u, E.Committing) then [S.Commit(u, fault)] else []
    case DropUpload(u, inFlight) =>
      if Both(w, u) then DropCalls(w.disk.pending[u], u, w.engine.uploads[u].pc, inFlight) else []
    case LateCommit(u, fault) => if E.InPc(w.engine, u, E.Orphaned) then [S.Commit(u, fault)] else []
    case LateCreate(call) =>
      if CreateCall(call) && E.InPc(w.engine, call.a, E.Gone) then [call, S.Abandon(call.a)] else []
    case _ => []
  }

  function DropCalls(p: S.Pending, u: nat, pc: E.UploadPc, inFlight: bool): seq<S.Step> {
    match pc
    case Creating | Aborting => if inFlight && !p.stage.Open? then [] else [S.Vanish(u)]
    case Streaming => [S.Vanish(u)]
    case Committing => if inFlight then [] else [S.Abandon(u)]
    case _ => []
  }

  function AfterCalls(saveDir: Path, d: S.Disk, calls: seq<S.Step>): S.Disk
    decreases |calls|
  {
    if calls == [] then d else AfterCalls(saveDir, S.Apply(saveDir, d, calls[0]), calls[1..])
  }

  lemma {:induction false} CallsKeepInv(saveDir: Path, before: Tree, root: Path, d: S.Disk, calls: seq<S.Step>)
    requires SI.Inv(saveDir, before, root, d)
    ensures SI.Inv(saveDir, before, root, AfterCalls(saveDir, d, calls))
    decreases |calls|
  {
    if calls != [] {
      SI.StepKeepsInv(saveDir, before, root, d, calls[0]);
      CallsKeepInv(saveDir, before, root, S.Apply(saveDir, d, calls[0]), calls[1..]);
    }
  }

  lemma OneCall(saveDir: Path, d: S.Disk, call: S.Step)
    ensures AfterCalls(saveDir, d, [call]) == S.Apply(saveDir, d, call)
  {
    assert [call][1..] == [];
  }

  lemma TwoCalls(saveDir: Path, d: S.Disk, call: S.Step, next: S.Step)
    ensures AfterCalls(saveDir, d, [call, next]) == S.Apply(saveDir, S.Apply(saveDir, d, call), next)
  {
    assert [call, next][1..] == [next];
    OneCall(saveDir, S.Apply(saveDir, d, call), next);
  }

  /** The disk goes its own way, whatever the engine does. */
  lemma DiskFollows(cfg: Config, w: World, step: Step)
    ensures Apply(cfg, w, step).disk == AfterCalls(cfg.saveDir, w.disk, DiskStep(w, step))
  {
    if Ending(step) {
      DiskFollowsEnding(cfg, w, step);
    } else if DiskStep(w, step) != [] {
      OneCall(cfg.saveDir, w.disk, DiskStep(w, step)[0]);
    }
  }

  lemma DropFollows(saveDir: Path, d: S.Disk, u: nat, pc: E.UploadPc, inFlight: bool)
    requires u < |d.pending|
    ensures DiskAfterDrop(d, u, pc, inFlight) == AfterCalls(saveDir, d, DropCalls(d.pending[u], u, pc, inFlight))
  {
    OneCall(saveDir, d, S.Vanish(u));
    OneCall(saveDir, d, S.Abandon(u));
  }

  lemma DiskFollowsEnding(cfg: Config, w: World, step: Step)
    requires Ending(step)
    ensures Apply(cfg, w, step).disk == AfterCalls(cfg.saveDir, w.disk, DiskStep(w, step))
  {
    var calls := DiskStep(w, step);
    if step.DropUpload? {
      if Both(w, step.u) { DropFollows(cfg.saveDir, w.disk, step.u, w.engine.uploads[step.u].pc, step.inFlight); }
    } else if step.LateCreate? {
      if calls != [] { TwoCalls(cfg.saveDir, w.disk, step.call, S.Abandon(step.call.a)); }
    } else if calls != [] {
      OneCall(cfg.saveDir, w.disk, calls[0]);
    }
  }

  lemma {:induction false} RunCalls(saveDir: Path, before: Tree, steps: seq<S.Step>, calls: seq<S.Step>)
    ensures S.Run(saveDir, before, steps + calls) == AfterCalls(saveDir, S.Run(saveDir, before, steps), calls)
    decreases |calls|
  {
    if calls == [] {
      assert steps + calls == steps;
    } else {
      var more := steps + [calls[0]];
      assert more[..|more| - 1] == steps;
      assert steps + calls == more + calls[1..];
      RunCalls(saveDir, before, more, calls[1..]);
    }
  }

  /** The sink's own schedule inside a combined one. */
  ghost function DiskSteps(cfg: Config, before: Tree, steps: seq<Step>): seq<S.Step> {
    if steps == [] then []
    else
      var front := steps[..|steps| - 1];
      DiskSteps(cfg, before, front) + DiskStep(Run(cfg, before, front), steps[|steps| - 1])
  }

  /** The disk part of every combined run is a run of the sink, so every theorem about those holds of it too. */
  lemma {:induction false} DiskPartIsARun(cfg: Config, before: Tree, steps: seq<Step>)
    ensures S.Run(cfg.saveDir, before, DiskSteps(cfg, before, steps)) == Run(cfg, before, steps).disk
  {
    if steps != [] {
      var front := steps[..|steps| - 1];
      var w, step := Run(cfg, before, front), steps[|steps| - 1];
      DiskPartIsARun(cfg, before, front);
      DiskFollows(cfg, w, step);
      RunCalls(cfg.saveDir, before, DiskSteps(cfg, before, front), DiskStep(w, step));
    }
  }

  lemma DiskSide(cfg: Config, before: Tree, root: Path, w: World, step: Step)
    requires SI.Inv(cfg.saveDir, before, root, w.disk)
    ensures SI.Inv(cfg.saveDir, before, root, Apply(cfg, w, step).disk)
  {
    DiskFollows(cfg, w, step);
    CallsKeepInv(cfg.saveDir, before, root, w.disk, DiskStep(w, step));
  }

  /** The last steps of a destination: its commit, its abort, its drop. */
  predicate Ending(step: Step) {
    || step.StartAbort? || step.Aborting? || step.AbortDone? || step.CommitDone?
    || step.DropUpload? || step.LateCommit? || step.LateCreate?
  }

  lemma LateAgrees(cfg: Config, before: Tree, root: Path, w: World, step: Step)
    requires Inv(cfg, before, root, w) && (step.DropUpload? || step.LateCommit? || step.LateCreate?)
    ensures AllAgree(Apply(cfg, w, step))
  {
    assert AllAgree(w);
    match step
    case DropUpload(u, inFlight) => if Both(w, u) { DropAgrees(w, u, inFlight); }
    case LateCommit(u, fault) =>
      if E.InPc(w.engine, u, E.Orphaned) { LateCommitAgrees(cfg, before, root, w, u, fault); }
    case LateCreate(call) =>
      if CreateCall(call) && E.InPc(w.engine, call.a, E.Gone) { LateCreateAgrees(cfg, before, root, w, call); }
  }

  lemma EndingAgrees(cfg: Config, before: Tree, root: Path, w: World, step: Step)
    requires Inv(cfg, before, root, w) && Ending(step)
    ensures AllAgree(Apply(cfg, w, step))
  {
    assert AllAgree(w);
    if step.StartAbort? {
      AbortAgrees(w, step.u);
    } else if step.Aborting? {
      if AbortCall(step.call) { AbortCallAgrees(cfg, before, root, w, step.call); }
    } else if step.AbortDone? {
      AbortAgrees(w, step.u);
    } else if step.CommitDone? {
      if E.InPc(w.engine, step.u, E.Committing) { CommitAgrees(cfg, before, root, w, step.u, step.fault); }
    } else {
      LateAgrees(cfg, before, root, w, step);
    }
  }

  lemma AgreementSide(cfg: Config, before: Tree, root: Path, w: World, step: Step)
    requires Inv(cfg, before, root, w)
    ensures AllAgree(Apply(cfg, w, step))
  {
    assert AllAgree(w);
    match step
    case Server(e) => if Diskless(e) { ServerAgrees(cfg, w, e); }
    case Claim(s, f, token) => ED.ClaimedIsNew(w.engine, s, f, token);
    case Creating(s) =>
      if CreateCall(s) && E.InPc(w.engine, s.a, E.Creating) { CreateCallAgrees(cfg, before, root, w, s); }
    case CreateDone(u) => CreateDoneAgrees(w, u);
    case WriteChunk(u, chunk) =>
      if E.DoWriteChunk(w.engine, u, chunk) != w.engine { WriteAgrees(cfg, before, root, w, u, chunk); }
    case FailWrite(u, written) =>
      if E.InPc(w.engine, u, E.Streaming) { FailWriteAgrees(cfg, before, root, w, u, written); }
    case _ => EndingAgrees(cfg, before, root, w, step);
  }

  lemma CreateDoneAgrees(w: World, u: nat)
    requires AllAgree(w) && EI.Inv(w.engine)
    ensures AllAgree(DoCreateDone(w, u))
  {
    if E.InPc(w.engine, u, E.Creating) {
      EI.HandlerFacts(w.engine, u);
      assert Agree(w.engine.uploads[u], w.disk.pending[u]);
      DiskAgrees(w, u, DoCreateDone(w, u));
    }
  }

  lemma AbortAgrees(w: World, u: nat)
    requires AllAgree(w)
    ensures AllAgree(DoStartAbort(w, u)) && AllAgree(DoAbortDone(w, u))
  {
    if E.InPc(w.engine, u, E.Aborting) {
      assert Agree(w.engine.uploads[u], w.disk.pending[u]);
      DiskAgrees(w, u, DoStartAbort(w, u));
      DiskAgrees(w, u, DoAbortDone(w, u));
    }
  }

  lemma {:induction false} RunKeepsInv(cfg: Config, before: Tree, root: Path, steps: seq<Step>)
    requires Resolve(before, [], cfg.saveDir, SYMLINK_LIMIT) == Some(root)
    ensures Inv(cfg, before, root, Run(cfg, before, steps))
  {
    if steps != [] {
      var w := Run(cfg, before, steps[..|steps| - 1]);
      var step := steps[|steps| - 1];
      RunKeepsInv(cfg, before, root, steps[..|steps| - 1]);
      EngineSide(cfg, before, root, w, step);
      DiskSide(cfg, before, root, w, step);
      AgreementSide(cfg, before, root, w, step);
    }
  }

  // ---- theorem ----

  /** The whole body of upload `u`: its chunks one after the other, of the declared size and digest. */
  predicate CompleteBody(cfg: Config, w: World, u: nat, content: Bytes) {
    && E.Known(w.engine, u)
    && w.engine.uploads[u].landed
    && content == E.Flatten(w.engine.uploads[u].chunks)
    && E.MatchesOffer(cfg.engine, E.MetaOf(w.engine, u), content)
  }

  /**
   The file at `q` is the temporary of upload `u`, or the name reserved for it, which
   holds the complete body once that landed and nothing before.
   */
  predicate HeldBy(cfg: Config, root: Path, w: World, q: Path, u: nat) {
    && Both(w, u)
    && q in w.disk.tree
    && var p := w.disk.pending[u];
       || (p.hasTemp && q == SI.Place(root, p, p.temp))
       || (p.hasFinal && q == SI.Place(root, p, p.chosen) && w.disk.tree[q].File? &&
           if w.engine.uploads[u].landed
           then CompleteBody(cfg, w, u, w.disk.tree[q].content)
           else w.disk.tree[q].content == [])
  }

  /**
   End-to-end publication safety.  In every interleaving of uploads, cancels, sweeps
   and stops, a file that was not there before the run is held by one upload: it is
   that upload's temporary, or it is at the name reserved for it and holds either
   nothing or the complete body of that upload, which landed.
   */
  lemma OnlyCompleteBodiesAreVisible(cfg: Config, before: Tree, root: Path, steps: seq<Step>, w: World, q: Path)
    requires w == Run(cfg, before, steps)
    requires Resolve(before, [], cfg.saveDir, SYMLINK_LIMIT) == Some(root)
    requires q in w.disk.tree && q !in before && !w.disk.tree[q].Dir?
    ensures exists u: nat :: HeldBy(cfg, root, w, q, u)
  {
    RunKeepsInv(cfg, before, root, steps);
    assert SI.Held(root, w.disk, q);
    var u: nat :| SI.Holder(root, w.disk, u, q);
    assert Both(w, u);
    EI.HandlerFacts(w.engine, u);
    assert Verified(cfg, w.engine, u) && Agree(w.engine.uploads[u], w.disk.pending[u]);
    SI.HolderFacts(cfg.saveDir, before, root, w.disk, u);
    assert HeldBy(cfg, root, w, q, u);
  }

  /** The finality of a closed session, in combined runs. */
  lemma ClosedIsFinal(cfg: Config, before: Tree, steps: seq<Step>, n: nat, s: E.SessionId)
    requires n <= |steps| && EC.Closed(Run(cfg, before, steps[..n]).engine, s)
    ensures EF.Final(Run(cfg, before, steps[..n]).engine, Run(cfg, before, steps).engine, s)
  {
    var es := EngineSteps(cfg, before, steps);
    var first := EngineSteps(cfg, before, steps[..n]);
    EnginePartIsARun(cfg, before, steps);
    EnginePartIsARun(cfg, before, steps[..n]);
    EngineStepsGrow(cfg, before, steps, n);
    assert es[..|first|] == first;
    EF.ClosedRun(cfg.engine, es, |first|, s);
  }

  lemma CancelCloses(cfg: Config, before: Tree, root: Path, steps: seq<Step>, w: World, e: E.Step, s: E.SessionId)
    requires Resolve(before, [], cfg.saveDir, SYMLINK_LIMIT) == Some(root)
    requires w == Run(cfg, before, steps) && Diskless(e)
    requires EC.AsksToCancel(w.engine, e, s) && E.Cancellable(w.engine, s)
    ensures EC.Closed(Apply(cfg, w, Server(e)).engine, s)
    ensures Apply(cfg, w, Server(e)).engine.uploads == w.engine.uploads
  {
    RunKeepsInv(cfg, before, root, steps);
    EC.CancelOutcome(cfg.engine, w.engine, e, s);
    EF.AskingKeepsUploads(cfg.engine, w.engine, e, s);
  }

  /**
   Cancellation reaches the disk: once a cancellation that honours the answer got
   `true`, an upload of that session that lands by the end of the run had landed
   already, or had lost its future with its rename in flight; the name reserved for
   any other one stays empty.
   */
  lemma CancelledStaysInvisible(cfg: Config, before: Tree, root: Path, steps: seq<Step>, n: nat, e: E.Step,
                                w0: World, w: World, s: E.SessionId, u: nat)
    requires Resolve(before, [], cfg.saveDir, SYMLINK_LIMIT) == Some(root)
    requires n < |steps| && steps[n] == Server(e) && Diskless(e)
    requires w0 == Run(cfg, before, steps[..n]) && w == Run(cfg, before, steps)
    requires EC.AsksToCancel(w0.engine, e, s) && E.Cancellable(w0.engine, s)
    requires Both(w, u) && w.engine.uploads[u].session == s && !EF.MayLand(w0.engine, u, s)
    ensures !w.engine.uploads[u].landed
    ensures var p := w.disk.pending[u];
            p.hasFinal ==> var q := SI.Place(root, p, p.chosen); q in w.disk.tree && w.disk.tree[q] == File([])
  {
    assert steps[..n + 1][..n] == steps[..n];
    CancelCloses(cfg, before, root, steps[..n], w0, e, s);
    ClosedIsFinal(cfg, before, steps, n + 1, s);
    assert w.engine.uploads[u].landed ==> EF.MayLand(w.engine, u, s);
    RunKeepsInv(cfg, before, root, steps);
    if w.disk.pending[u].hasFinal { StillEmpty(cfg, before, root, w, u); }
  }

  lemma StillEmpty(cfg: Config, before: Tree, root: Path, w: World, u: nat)
    requires Inv(cfg, before, root, w) && Both(w, u) && !w.engine.uploads[u].landed && w.disk.pending[u].hasFinal
    ensures var p := w.disk.pending[u]; var q := SI.Place(root, p, p.chosen);
            q in w.disk.tree && w.disk.tree[q] == File([])
  {
    assert Agree(w.engine.uploads[u], w.disk.pending[u]);
    SI.HolderFacts(cfg.saveDir, before, root, w.disk, u);
    var p := w.disk.pending[u];
    assert SI.Holds(root, p, SI.Place(root, p, p.chosen));
    if p.hasTemp {
      assert SI.Place(root, p, p.chosen)[|SI.Place(root, p, p.chosen)| - 1] == p.chosen;
      assert SI.Place(root, p, p.temp)[|SI.Place(root, p, p.temp)| - 1] == p.temp;
    }
  }
}
