/**
 The atomic file sink under concurrency (src/core/sink.rs): any number of pending
 receives walk, reserve, write, publish and discard in one file tree, one file
 system call a step.  A step that is not enabled changes nothing.
 */
module Sink {
  import opened Options
  import opened Names
  import opened PathSafety
  import opened FileTree

  /** The text of a random UUID: 36 lower-case hexadecimal digits and hyphens. */
  predicate UuidText(u: Bytes) {
    |u| == 36 && forall i :: 0 <= i < 36 ==> 0x30 <= u[i] <= 0x39 || 0x61 <= u[i] <= 0x66 || u[i] == 0x2D
  }

  type Uuid = u: Bytes | UuidText(u) witness seq(36, _ => 0x30)

  /** `.localsend-{uuid}.part` */
  function TempName(uuid: Uuid): (temp: Name)
    ensures Plain(temp) && |temp| == 52
  {
    [0x2E, 0x6C, 0x6F, 0x63, 0x61, 0x6C, 0x73, 0x65, 0x6E, 0x64, 0x2D] + uuid + [0x2E, 0x70, 0x61, 0x72, 0x74]
  }

  datatype Stage =
    | Walking(k: nat)
    | Making(k: nat)
    | Reserving(attempt: nat)
    | Opening
    | Open
    | DiscardTemp
    | DiscardFinal
    | Stopped

  /**
   One receive from its wire name on.  `hasFinal` and `hasTemp` say that
   the file it created under that name has not been removed or renamed away.
   */
  datatype Pending = Pending(
    stage: Stage,
    directory: Path,
    leaf: Name,
    chosen: Name,
    temp: Name,
    data: Bytes,
    hasFinal: bool,
    hasTemp: bool,
    published: bool)

  datatype Disk = Disk(tree: Tree, pending: seq<Pending>)

  datatype Step =
    | Begin(name: Bytes)
    | Stat(a: nat, fault: bool)
    | Make(a: nat, fault: bool)
    | TryName(a: nat, fault: bool)
    | OpenTemp(a: nat, uuid: Uuid, fault: bool)
    | Write(a: nat, bytes: Bytes)
    | Commit(a: nat, fault: bool)
    | Discard(a: nat)
    | RemoveTemp(a: nat, fault: bool)
    | RemoveFinal(a: nat, fault: bool)
    | Vanish(a: nat)
    | Abandon(a: nat)

  function With(d: Disk, a: nat, p: Pending): Disk
    requires a < |d.pending|
  {
    d.(pending := d.pending[a := p])
  }

  function Stop(d: Disk, a: nat): Disk
    requires a < |d.pending|
  {
    With(d, a, d.pending[a].(stage := Stopped))
  }

  function DirectoryOf(saveDir: Path, p: Pending): Path {
    saveDir + p.directory
  }

  /** A rejected wire name ends its receive at once. */
  function Begun(name: Bytes): Pending {
    if !Acceptable(name) then Pending(Stopped, [], [], [], [], [], false, false, false)
    else
      var path := Components(Split(name));
      Pending(Walking(0), path[..|path| - 1], path[|path| - 1], [], [], [], false, false, false)
  }

  function DoBegin(d: Disk, name: Bytes): Disk {
    d.(pending := d.pending + [Begun(name)])
  }

  /** `symlink_metadata` of the next component: only a real directory is entered. */
  function DoStat(saveDir: Path, d: Disk, a: nat, fault: bool): Disk {
    if a < |d.pending| && d.pending[a].stage.Walking? then
      var me := d.pending[a];
      var k := me.stage.k;
      if k >= |me.directory| then With(d, a, me.(stage := Reserving(0)))
      else if fault then Stop(d, a)
      else
        match Lookup(d.tree, saveDir + me.directory[..k], me.directory[k])
        case Entry(_, node) => if node.Dir? then With(d, a, me.(stage := Walking(k + 1))) else Stop(d, a)
        case Vacant(_) => With(d, a, me.(stage := Making(k)))
        case Unreachable => Stop(d, a)
    else d
  }

  function DoMake(saveDir: Path, d: Disk, a: nat, fault: bool): Disk {
    if a < |d.pending| && d.pending[a].stage.Making? && d.pending[a].stage.k < |d.pending[a].directory| then
      var me := d.pending[a];
      var k := me.stage.k;
      var place := Lookup(d.tree, saveDir + me.directory[..k], me.directory[k]);
      if fault || !place.Vacant? then Stop(d, a)
      else With(d, a, me.(stage := Walking(k + 1))).(tree := d.tree[place.at := Dir])
    else d
  }

  /** What an exclusive create of `candidate` at `place` comes to. */
  function Tried(d: Disk, a: nat, n: nat, candidate: Name, place: Finding): Disk
    requires a < |d.pending|
  {
    match place
    case Entry(_, _) =>
      if n == MAX_COLLISION_ATTEMPTS then Stop(d, a) else With(d, a, d.pending[a].(stage := Reserving(n + 1)))
    case Vacant(at) =>
      var me := d.pending[a];
      With(d, a, me.(stage := Opening, chosen := candidate, hasFinal := true)).(tree := d.tree[at := File([])])
    case Unreachable => Stop(d, a)
  }

  /** One exclusive create of the next candidate name. */
  function DoTryName(saveDir: Path, d: Disk, a: nat, fault: bool): Disk {
    if a < |d.pending| && d.pending[a].stage.Reserving? && d.pending[a].stage.attempt <= MAX_COLLISION_ATTEMPTS then
      var me := d.pending[a];
      var candidate := Candidate(me.leaf, me.stage.attempt);
      if fault then Stop(d, a)
      else Tried(d, a, me.stage.attempt, candidate, Lookup(d.tree, DirectoryOf(saveDir, me), candidate))
    else d
  }

  /** A failure here leaves the reservation behind. */
  function DoOpenTemp(saveDir: Path, d: Disk, a: nat, uuid: Uuid, fault: bool): Disk {
    if a < |d.pending| && d.pending[a].stage.Opening? then
      var me := d.pending[a];
      var temp := TempName(uuid);
      var place := Lookup(d.tree, DirectoryOf(saveDir, me), temp);
      if fault || !place.Vacant? then Stop(d, a)
      else With(d, a, me.(stage := Open, temp := temp, hasTemp := true)).(tree := d.tree[place.at := File([])])
    else d
  }

  function DoWrite(saveDir: Path, d: Disk, a: nat, bytes: Bytes): Disk {
    if a < |d.pending| && d.pending[a].stage.Open? then
      var me := d.pending[a];
      var place := Lookup(d.tree, DirectoryOf(saveDir, me), me.temp);
      if place.Entry? && place.node.File? then
        With(d, a, me.(data := me.data + bytes)).(tree := d.tree[place.at := File(place.node.content + bytes)])
      else Stop(d, a)
    else d
  }

  /** Flush, sync and rename; a failure leaves both files behind. */
  function DoCommit(saveDir: Path, d: Disk, a: nat, fault: bool): Disk {
    if a < |d.pending| && d.pending[a].stage.Open? then
      var me := d.pending[a];
      var from := Lookup(d.tree, DirectoryOf(saveDir, me), me.temp);
      var to := Lookup(d.tree, DirectoryOf(saveDir, me), me.chosen);
      if fault || !from.Entry? || !from.node.File? || to.Unreachable? || (to.Entry? && to.node.Dir?) then Stop(d, a)
      else
        With(d, a, me.(stage := Stopped, hasTemp := false, published := true)).(
          tree := (d.tree - {from.at})[to.at := from.node])
    else d
  }

  function DoDiscard(d: Disk, a: nat): Disk {
    if a < |d.pending| && d.pending[a].stage.Open? then With(d, a, d.pending[a].(stage := DiscardTemp)) else d
  }

  function DoRemoveTemp(saveDir: Path, d: Disk, a: nat, fault: bool): Disk {
    if a < |d.pending| && d.pending[a].stage.DiscardTemp? then
      var me := d.pending[a];
      var place := Lookup(d.tree, DirectoryOf(saveDir, me), me.temp);
      if fault || !place.Entry? || place.node.Dir? then With(d, a, me.(stage := DiscardFinal))
      else With(d, a, me.(stage := DiscardFinal, hasTemp := false)).(tree := d.tree - {place.at})
    else d
  }

  function DoRemoveFinal(saveDir: Path, d: Disk, a: nat, fault: bool): Disk {
    if a < |d.pending| && d.pending[a].stage.DiscardFinal? then
      var me := d.pending[a];
      var place := Lookup(d.tree, DirectoryOf(saveDir, me), me.chosen);
      if fault || !place.Entry? || place.node.Dir? then Stop(d, a)
      else With(d, a, me.(stage := Stopped, hasFinal := false)).(tree := d.tree - {place.at})
    else d
  }

  /** The future goes away: an open destination is discarded by its drop, anything earlier just ends. */
  function DoVanish(d: Disk, a: nat): Disk {
    if a < |d.pending| then
      if d.pending[a].stage.Open? then DoDiscard(d, a) else Stop(d, a)
    else d
  }

  /**
   The future goes away while its last system call is in flight, and nobody sees the
   result of that call: whatever is there stays.
   */
  function DoAbandon(d: Disk, a: nat): Disk {
    if a < |d.pending| then Stop(d, a) else d
  }

  function Apply(saveDir: Path, d: Disk, step: Step): Disk {
    match step
    case Begin(name) => DoBegin(d, name)
    case Stat(a, fault) => DoStat(saveDir, d, a, fault)
    case Make(a, fault) => DoMake(saveDir, d, a, fault)
    case TryName(a, fault) => DoTryName(saveDir, d, a, fault)
    case OpenTemp(a, uuid, fault) => DoOpenTemp(saveDir, d, a, uuid, fault)
    case Write(a, bytes) => DoWrite(saveDir, d, a, bytes)
    case Commit(a, fault) => DoCommit(saveDir, d, a, fault)
    case Discard(a) => DoDiscard(d, a)
    case RemoveTemp(a, fault) => DoRemoveTemp(saveDir, d, a, fault)
    case RemoveFinal(a, fault) => DoRemoveFinal(saveDir, d, a, fault)
    case Vanish(a) => DoVanish(d, a)
    case Abandon(a) => DoAbandon(d, a)
  }

  function Run(saveDir: Path, before: Tree, steps: seq<Step>): Disk {
    if steps == [] then Disk(before, [])
    else Apply(saveDir, Run(saveDir, before, steps[..|steps| - 1]), steps[|steps| - 1])
  }
}
