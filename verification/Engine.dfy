/**
 The receive engine: one upload slot shared by any number of prepare, upload and
 cancel handlers, the sweep and the orderly stop (src/server/handlers.rs,
 src/server/server.rs).  A step is one hold of the state lock, one hold of a
 lifecycle lock, or one action private to a handler.  A step that is not enabled
 changes nothing, so a run is any sequence of steps.
 */
module Engine {
  import opened Options
  import opened Lifecycle
  import opened MapSums

  /** Session ids are fresh: the n-th session ever built has id n. */
  type SessionId = nat

  type Peer = nat

  const U64_MAX: nat := 0xFFFF_FFFF_FFFF_FFFF

  const MESSAGE_LIMIT: nat := 1024 * 1024

  datatype Meta = Meta(name: Bytes, size: nat, sha256: Option<string>, preview: bool)

  type Files = map<FileId, Meta>

  datatype Session = Session(files: Files, slots: Slots, received: set<FileId>, receivedBytes: nat)

  /** A random upload token: the one issued for a file, or a peer's guess. */
  datatype Token = Issued(session: SessionId, file: FileId) | Forged(n: nat)

  datatype Decision = Accept | AcceptFiles(ids: set<FileId>) | Decline | Refuse

  datatype PreparePc =
    | Deciding
    | Decided(decision: Decision)
    | Cleared(decision: Decision)
    | Installed(session: SessionId)
    | Ended

  /** A `prepare-upload` handler from the moment it reserved the slot. */
  datatype Prepare = Prepare(pc: PreparePc, reserved: SessionId, offered: Files)

  datatype Reservation = Reservation(session: SessionId, from: Peer)

  /** The armed token an upload handler owns. */
  datatype Hold = NoHold | Lease | Permit

  datatype UploadPc =
    | Creating
    | Streaming
    | Validated
    | RollingBack(amount: nat)
    | Aborting
    | Committing
    | Committed
    | Leaving
    | Orphaned
    | Gone

  /**
   An `upload` handler from the moment it claimed its slot.  `landed` says its
   commit succeeded; `lost` says that and that its future was dropped before the file
   was recorded; an `Orphaned` one was dropped with its rename in flight; `reported` is
   what it added to the session's counter and did not take back.
   */
  datatype Upload = Upload(
    pc: UploadPc,
    hold: Hold,
    session: SessionId,
    file: FileId,
    chunks: seq<Bytes>,
    reported: nat,
    landed: bool,
    lost: bool)

  datatype Event =
    | FileReceived(session: SessionId, file: FileId, size: nat)
    | TextReceived(session: SessionId)
    | SessionDone(session: SessionId)

  datatype World = World(
    sessions: seq<Session>,
    current: Option<SessionId>,
    currentFrom: Option<Peer>,
    awaiting: Option<Reservation>,
    withdrawn: set<SessionId>,
    disclosed: set<SessionId>,
    prepares: seq<Prepare>,
    releases: set<SessionId>,
    uploads: seq<Upload>,
    events: seq<Event>)

  /** What the model leaves open: the digest a body has. */
  datatype Config = Config(sha256: Bytes -> string)

  const INIT := World([], None, None, None, {}, {}, [], {}, [], [])

  datatype Step =
    | Reserve(peer: Peer, offered: Files, timedOut: bool)
    | Decide(p: nat, decision: Decision, autoAccept: bool)
    | ClearConsent(p: nat)
    | Resolve(p: nat)
    | DeliverText(p: nat)
    | Respond(p: nat)
    | DropPrepare(p: nat)
    | Release(reserved: SessionId)
    | WithdrawOffer(peer: Peer)
    | CancelById(peer: Peer, session: SessionId)
    | Sweep(timedOut: bool)
    | Stop
    | Claim(session: SessionId, file: FileId, token: Token)
    | CreateDone(u: nat, ok: bool)
    | WriteChunk(u: nat, chunk: Bytes)
    | Report(u: nat)
    | FailBody(u: nat)
    | ObserveCancel(u: nat)
    | EndBody(u: nat)
    | Publish(u: nat)
    | Rollback(u: nat)
    | AbortDone(u: nat)
    | CommitDone(u: nat, ok: bool)
    | Record(u: nat)
    | DropHold(u: nat)
    | DropUpload(u: nat, renaming: bool)
    | LateCommit(u: nat, ok: bool)

  // ---- kinds of steps ----

  predicate PrepareStep(step: Step) {
    || step.Reserve? || step.Decide? || step.ClearConsent? || step.Resolve?
    || step.DeliverText? || step.Respond? || step.DropPrepare?
  }

  predicate CancelStep(step: Step) {
    step.Release? || step.WithdrawOffer? || step.CancelById? || step.Sweep? || step.Stop?
  }

  predicate UploadStep(step: Step) {
    !PrepareStep(step) && !CancelStep(step) && !step.Claim?
  }

  // ---- bodies ----

  function Flatten(chunks: seq<Bytes>): Bytes {
    if chunks == [] then [] else Flatten(chunks[..|chunks| - 1]) + chunks[|chunks| - 1]
  }

  function Body(u: Upload): Bytes {
    Flatten(u.chunks)
  }

  function LowerChar(c: char): char {
    if 'A' <= c <= 'Z' then ((c as int) + 32) as char else c
  }

  predicate EqIgnoreAsciiCase(a: string, b: string) {
    |a| == |b| && forall i :: 0 <= i < |a| ==> LowerChar(a[i]) == LowerChar(b[i])
  }

  /** The two checks a complete body has to pass before it may be published. */
  predicate MatchesOffer(cfg: Config, meta: Meta, body: Bytes) {
    && |body| == meta.size
    && (meta.sha256.Some? ==> EqIgnoreAsciiCase(cfg.sha256(body), meta.sha256.value))
  }

  // ---- sizes ----

  function Sizes(files: Files): map<FileId, nat> {
    map f | f in files :: files[f].size
  }

  /** The declared total: the sizes added up, clamped at 64 bits. */
  ghost function TotalBytes(files: Files): nat {
    Min(SumOf(Sizes(files)), U64_MAX)
  }

  function Min(a: nat, b: nat): nat {
    if a < b then a else b
  }

  function SaturatingSub(a: nat, b: nat): nat {
    if b <= a then a - b else 0
  }

  // ---- pieces of a step ----

  function NewSession(files: Files): Session {
    Session(files, NewSlots(files.Keys), {}, 0)
  }

  function WithSlots(w: World, s: SessionId, slots: Slots): World
    requires s < |w.sessions|
  {
    w.(sessions := w.sessions[s := w.sessions[s].(slots := slots)])
  }

  function WithUpload(w: World, u: nat, upload: Upload): World
    requires u < |w.uploads|
  {
    w.(uploads := w.uploads[u := upload])
  }

  function WithPrepare(w: World, p: nat, pc: PreparePc): World
    requires p < |w.prepares|
  {
    w.(prepares := w.prepares[p := w.prepares[p].(pc := pc)])
  }

  function AddSession(w: World, files: Files): World {
    w.(sessions := w.sessions + [NewSession(files)])
  }

  /** The receives of session `s` are cancelled, if they let themselves be. */
  function CancelSession(w: World, s: SessionId): World {
    if s < |w.sessions| then WithSlots(w, s, TryCancel(w.sessions[s].slots)) else w
  }

  predicate Cancellable(w: World, s: SessionId) {
    s < |w.sessions| && !AnyPublishing(w.sessions[s].slots)
  }

  /** Whatever session is current is asked to cancel, and its answer is not looked at. */
  function CancelCurrentBlindly(w: World): World {
    if w.current.Some? then CancelSession(w, w.current.value) else w
  }

  /** A lone small item with a preview is a text message. */
  predicate IsMessage(offered: Files) {
    |offered| == 1 && forall f :: f in offered ==> offered[f].preview && offered[f].size < MESSAGE_LIMIT
  }

  function AcceptedIds(decision: Decision, offered: Files): set<FileId> {
    match decision
    case Accept => offered.Keys
    case AcceptFiles(ids) => ids * offered.Keys
    case Decline => {}
    case Refuse => {}
  }

  function Restrict(offered: Files, ids: set<FileId>): Files {
    map f | f in offered && f in ids :: offered[f]
  }

  // ---- prepare-upload ----

  /** The slot is free, or its session timed out and lets itself be cancelled. */
  predicate CanReserve(w: World, timedOut: bool) {
    w.current.None? || (timedOut && Cancellable(w, w.current.value))
  }

  function DoReserve(w: World, peer: Peer, offered: Files, timedOut: bool): World {
    if offered == map[] || !CanReserve(w, timedOut) then w
    else
      var id := |w.sessions|;
      AddSession(CancelCurrentBlindly(w), offered).(
        current := Some(id),
        currentFrom := Some(peer),
        awaiting := Some(Reservation(id, peer)),
        prepares := w.prepares + [Prepare(Deciding, id, offered)])
  }

  /** A fired withdrawal wins the wait for an answer; auto-accept does not wait. */
  function DoDecide(w: World, p: nat, decision: Decision, autoAccept: bool): World {
    if p < |w.prepares| && w.prepares[p].pc.Deciding?
       && (if autoAccept then decision.Accept?
           else w.prepares[p].reserved in w.withdrawn ==> decision.Decline?)
    then WithPrepare(w, p, Decided(decision))
    else w
  }

  function DoClearConsent(w: World, p: nat): World {
    if p < |w.prepares| && w.prepares[p].pc.Decided? then
      var me := w.prepares[p];
      var w1 := WithPrepare(w, p, Cleared(me.pc.decision));
      if w.awaiting.Some? && w.awaiting.value.session == me.reserved
      then w1.(awaiting := None)
      else w1
    else w
  }

  /** A finished handler drops its reservation guard, which spawns a release. */
  function EndPrepare(w: World, p: nat): World
    requires p < |w.prepares|
  {
    WithPrepare(w, p, Ended).(releases := w.releases + {w.prepares[p].reserved})
  }

  function DoResolve(w: World, p: nat): World {
    if p < |w.prepares| && w.prepares[p].pc.Cleared? then
      var me := w.prepares[p];
      var ids := AcceptedIds(me.pc.decision, me.offered);
      var w1 := CancelCurrentBlindly(w);
      if ids == {} then EndPrepare(w1.(current := None), p)
      else
        var id := |w.sessions|;
        WithPrepare(AddSession(w1, Restrict(me.offered, ids)).(current := Some(id)), p, Installed(id))
    else w
  }

  function DoDeliverText(w: World, p: nat): World {
    if p < |w.prepares| && w.prepares[p].pc.Installed? && IsMessage(w.prepares[p].offered) then
      var id := w.prepares[p].pc.session;
      EndPrepare(w.(events := w.events + [TextReceived(id), SessionDone(id)], current := None), p)
    else w
  }

  /** The response discloses the session id and its tokens to the sender. */
  function DoRespond(w: World, p: nat): World {
    if p < |w.prepares| && w.prepares[p].pc.Installed? && !IsMessage(w.prepares[p].offered) then
      EndPrepare(w.(disclosed := w.disclosed + {w.prepares[p].pc.session}), p)
    else w
  }

  function DoDropPrepare(w: World, p: nat): World {
    if p < |w.prepares| && !w.prepares[p].pc.Ended? then EndPrepare(w, p) else w
  }

  function DoRelease(w: World, reserved: SessionId): World {
    if reserved !in w.releases then w
    else
      var w1 := w.(releases := w.releases - {reserved});
      if w.awaiting.None? || w.awaiting.value.session != reserved then w1
      else
        var w2 := w1.(awaiting := None);
        if w.current == Some(reserved)
        then CancelSession(w2, reserved).(current := None, currentFrom := None)
        else w2
  }

  // ---- cancel, sweep, stop ----

  function DoWithdrawOffer(w: World, peer: Peer): World {
    if w.awaiting.None? || w.awaiting.value.from != peer then w
    else
      var id := w.awaiting.value.session;
      var w1 := w.(awaiting := None, withdrawn := w.withdrawn + {id});
      if w.current == Some(id)
      then CancelSession(w1, id).(current := None, currentFrom := None)
      else w1
  }

  /** `currentFrom` decides whose word counts; another session than the current one is not there to cancel. */
  function DoCancelNamed(w: World, peer: Peer, s: SessionId): World {
    if w.currentFrom.Some? && w.currentFrom != Some(peer) then w
    else if w.current != Some(s) || !Cancellable(w, s) then w
    else
      CancelSession(w, s).(
        events := w.events + [SessionDone(s)],
        current := None,
        currentFrom := None)
  }

  /** A peer can name only the ids it was given. */
  function DoCancelById(w: World, peer: Peer, s: SessionId): World {
    if s in w.disclosed then DoCancelNamed(w, peer, s) else w
  }

  function DoSweep(w: World, timedOut: bool): World {
    if w.current.Some? && timedOut && Cancellable(w, w.current.value)
    then CancelSession(w, w.current.value).(current := None)
    else w
  }

  function DoStop(w: World): World {
    DoSweep(w, true)
  }

  // ---- upload ----

  /** The peer presents a token it holds, or a guess that matches none. */
  predicate Presentable(w: World, token: Token) {
    token.Issued? ==> token.session in w.disclosed
  }

  /** A handler that has just won the lease of its slot. */
  function Claimant(s: SessionId, f: FileId): Upload {
    Upload(Creating, Lease, s, f, [], 0, false, false)
  }

  function DoClaim(w: World, s: SessionId, f: FileId, token: Token): World {
    if Presentable(w, token) then DoClaimWith(w, s, f, token) else w
  }

  function DoClaimWith(w: World, s: SessionId, f: FileId, token: Token): World {
    if w.current != Some(s) || s >= |w.sessions| then w
    else if f !in w.sessions[s].files || token != Issued(s, f) then w
    else
      var claimed := BeginReceive(w.sessions[s].slots, f);
      if claimed.None? then w
      else
        WithSlots(w, s, claimed.value).(
          uploads := w.uploads + [Claimant(s, f)])
  }

  predicate InPc(w: World, u: nat, pc: UploadPc) {
    u < |w.uploads| && w.uploads[u].pc == pc
  }

  /** The metadata the handler copied out when it claimed its slot. */
  predicate Known(w: World, u: nat) {
    && u < |w.uploads|
    && w.uploads[u].session < |w.sessions|
    && w.uploads[u].file in w.sessions[w.uploads[u].session].files
    && w.uploads[u].file in w.sessions[w.uploads[u].session].slots
  }

  function MetaOf(w: World, u: nat): Meta
    requires Known(w, u)
  {
    w.sessions[w.uploads[u].session].files[w.uploads[u].file]
  }

  function SlotOf(w: World, u: nat): Slot
    requires Known(w, u)
  {
    w.sessions[w.uploads[u].session].slots[w.uploads[u].file]
  }

  function Goto(w: World, u: nat, pc: UploadPc): World
    requires u < |w.uploads|
  {
    WithUpload(w, u, w.uploads[u].(pc := pc))
  }

  function DoCreateDone(w: World, u: nat, ok: bool): World {
    if InPc(w, u, Creating) then Goto(w, u, if ok then Streaming else Leaving) else w
  }

  function DoWriteChunk(w: World, u: nat, chunk: Bytes): World {
    if InPc(w, u, Streaming) && w.uploads[u].reported == |Body(w.uploads[u])|
    then WithUpload(w, u, w.uploads[u].(chunks := w.uploads[u].chunks + [chunk]))
    else w
  }

  ghost function WithCounter(w: World, s: SessionId, bytes: nat): World
    requires s < |w.sessions|
  {
    w.(sessions := w.sessions[s := w.sessions[s].(receivedBytes := bytes)])
  }

  /** The progress callback: `add` of what this file gained since the last report. */
  ghost function DoReport(w: World, u: nat): World {
    if InPc(w, u, Streaming) && Known(w, u) then
      var me := w.uploads[u];
      var s := w.sessions[me.session];
      var gained := SaturatingSub(|Body(me)|, me.reported);
      WithCounter(
        WithUpload(w, u, me.(reported := |Body(me)|)),
        me.session,
        Min(Min(s.receivedBytes + gained, U64_MAX), TotalBytes(s.files)))
    else w
  }

  function DoFailBody(w: World, u: nat): World {
    if InPc(w, u, Streaming) then Goto(w, u, RollingBack(w.uploads[u].reported)) else w
  }

  function DoObserveCancel(w: World, u: nat): World {
    if InPc(w, u, Streaming) && Known(w, u) && SlotOf(w, u).fired
    then Goto(w, u, RollingBack(w.uploads[u].reported))
    else w
  }

  function DoEndBody(cfg: Config, w: World, u: nat): World {
    if InPc(w, u, Streaming) && Known(w, u) && w.uploads[u].reported == |Body(w.uploads[u])| then
      Goto(w, u,
           if MatchesOffer(cfg, MetaOf(w, u), Body(w.uploads[u]))
           then Validated
           else RollingBack(|Body(w.uploads[u])|))
    else w
  }

  /** `begin_publication`: the lease becomes a permit, or is dropped for good. */
  function DoPublish(w: World, u: nat): World {
    if InPc(w, u, Validated) && Known(w, u) then
      var me := w.uploads[u];
      var slots := w.sessions[me.session].slots;
      var won := BeginPublication(slots, me.file);
      if won.Some?
      then WithUpload(WithSlots(w, me.session, won.value), u, me.(pc := Committing, hold := Permit))
      else WithUpload(WithSlots(w, me.session, DropLease(slots, me.file)), u,
                      me.(pc := RollingBack(|Body(me)|), hold := NoHold))
    else w
  }

  /** `rollback`, after which a leased upload discards its destination. */
  ghost function DoRollback(w: World, u: nat): World {
    if u < |w.uploads| && w.uploads[u].pc.RollingBack? && Known(w, u) then
      var me := w.uploads[u];
      var s := w.sessions[me.session];
      WithCounter(
        WithUpload(w, u, me.(pc := if me.hold.Permit? then Leaving else Aborting, reported := 0)),
        me.session,
        SaturatingSub(s.receivedBytes, me.pc.amount))
    else w
  }

  function DoAbortDone(w: World, u: nat): World {
    if InPc(w, u, Aborting) then Goto(w, u, Leaving) else w
  }

  function DoCommitDone(w: World, u: nat, ok: bool): World {
    if InPc(w, u, Committing) then
      if ok then WithUpload(w, u, w.uploads[u].(pc := Committed, landed := true))
      else Goto(w, u, RollingBack(|Body(w.uploads[u])|))
    else w
  }

  predicate AllReceived(s: Session) {
    |s.received| == |s.files|
  }

  /** `mark_received`, the `FileReceived` event, `finish`, and the closing of a complete session. */
  function DoRecord(w: World, u: nat): World {
    if InPc(w, u, Committed) && Known(w, u) then
      var me := w.uploads[u];
      if w.current != Some(me.session) then Goto(w, u, Leaving)
      else
        var s := w.sessions[me.session];
        var s1 := s.(received := s.received + {me.file}, slots := FinishPermit(s.slots, me.file));
        var w1 := w.(
          sessions := w.sessions[me.session := s1],
          uploads := w.uploads[u := me.(pc := Gone, hold := NoHold)],
          events := w.events + [FileReceived(me.session, me.file, |Body(me)|)]);
        if AllReceived(s1)
        then w1.(events := w1.events + [SessionDone(me.session)], current := None)
        else w1
    else w
  }

  /** The drop of an armed lease or permit when its handler ends. */
  function Released(w: World, u: nat, upload: Upload): World
    requires Known(w, u)
  {
    var me := w.uploads[u];
    var slots := w.sessions[me.session].slots;
    var after := match me.hold
      case NoHold => slots
      case Lease => DropLease(slots, me.file)
      case Permit => DropPermit(slots, me.file);
    WithUpload(WithSlots(w, me.session, after), u, upload.(hold := NoHold))
  }

  function DoDropHold(w: World, u: nat): World {
    if InPc(w, u, Leaving) && Known(w, u) then Released(w, u, w.uploads[u].(pc := Gone)) else w
  }

  /** The points at which a handler awaits something and its future can go away. */
  predicate Droppable(pc: UploadPc) {
    pc.Creating? || pc.Streaming? || pc.Aborting? || pc.Committing? || pc.Committed?
  }

  /**
   What is left of a dropped upload.  A rename that was already handed to the blocking
   pool is not called back.
   */
  function Dropped(me: Upload, renaming: bool): Upload {
    match me.pc
    case Committing => me.(pc := if renaming then Orphaned else Gone)
    case Committed => me.(pc := Gone, lost := true)
    case _ => me.(pc := Gone)
  }

  /** The handler future is dropped at an await: no rollback, and the tokens go. */
  function DoDropUpload(w: World, u: nat, renaming: bool): World {
    if u < |w.uploads| && Known(w, u) && Droppable(w.uploads[u].pc)
    then Released(w, u, Dropped(w.uploads[u], renaming))
    else w
  }

  /** The rename nobody waits for any more comes to its end. */
  function DoLateCommit(w: World, u: nat, ok: bool): World {
    if InPc(w, u, Orphaned)
    then WithUpload(w, u, w.uploads[u].(pc := Gone, landed := ok, lost := ok))
    else w
  }

  ghost function Apply(cfg: Config, w: World, step: Step): World {
    match step
    case Reserve(peer, offered, timedOut) => DoReserve(w, peer, offered, timedOut)
    case Decide(p, decision, autoAccept) => DoDecide(w, p, decision, autoAccept)
    case ClearConsent(p) => DoClearConsent(w, p)
    case Resolve(p) => DoResolve(w, p)
    case DeliverText(p) => DoDeliverText(w, p)
    case Respond(p) => DoRespond(w, p)
    case DropPrepare(p) => DoDropPrepare(w, p)
    case Release(reserved) => DoRelease(w, reserved)
    case WithdrawOffer(peer) => DoWithdrawOffer(w, peer)
    case CancelById(peer, s) => DoCancelById(w, peer, s)
    case Sweep(timedOut) => DoSweep(w, timedOut)
    case Stop => DoStop(w)
    case Claim(s, f, token) => DoClaim(w, s, f, token)
    case CreateDone(u, ok) => DoCreateDone(w, u, ok)
    case WriteChunk(u, chunk) => DoWriteChunk(w, u, chunk)
    case Report(u) => DoReport(w, u)
    case FailBody(u) => DoFailBody(w, u)
    case ObserveCancel(u) => DoObserveCancel(w, u)
    case EndBody(u) => DoEndBody(cfg, w, u)
    case Publish(u) => DoPublish(w, u)
    case Rollback(u) => DoRollback(w, u)
    case AbortDone(u) => DoAbortDone(w, u)
    case CommitDone(u, ok) => DoCommitDone(w, u, ok)
    case Record(u) => DoRecord(w, u)
    case DropHold(u) => DoDropHold(w, u)
    case DropUpload(u, renaming) => DoDropUpload(w, u, renaming)
    case LateCommit(u, ok) => DoLateCommit(w, u, ok)
  }

  /** The world a schedule leads to. */
  ghost function Run(cfg: Config, steps: seq<Step>): World {
    if steps == [] then INIT
    else Apply(cfg, Run(cfg, steps[..|steps| - 1]), steps[|steps| - 1])
  }
}
