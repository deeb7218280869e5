/** The receiver-side PIN gate and its bounded lockout table (src/server/pin.rs). */
module Pin {
  import opened Options
  import opened Sets

  const MAX_FAILURES: nat := 3

  /** Five minutes, in nanoseconds. */
  const LOCKOUT: int := 300_000_000_000

  const MAX_TRACKED_PEERS: nat := 1024

  const U32_MAX: nat := 0xFFFF_FFFF

  type Peer = nat

  type Secret = seq<bv8>

  datatype Failure = Failure(count: nat, at: int)

  type Table = map<Peer, Failure>

  datatype Verdict = Ok(cleared: bool) | Unauthorized | LockedOut

  datatype Gate = Gate(pin: Option<Secret>, failures: Table, wrongValues: nat)

  // ---- comparing secrets ----

  function Difference(a: Secret, b: Secret): bv8
    requires |a| == |b|
  {
    if a == [] then 0 else Difference(a[..|a| - 1], b[..|b| - 1]) | (a[|a| - 1] ^ b[|b| - 1])
  }

  function ConstantTimeEq(a: Secret, b: Secret): bool {
    |a| == |b| && Difference(a, b) == 0
  }

  lemma OrIsZero(x: bv8, y: bv8, z: bv8)
    ensures x | (y ^ z) == 0 <==> x == 0 && y == z
  {
  }

  lemma {:induction false} NoDifference(a: Secret, b: Secret)
    requires |a| == |b|
    ensures Difference(a, b) == 0 <==> a == b
  {
    if a != [] {
      var k := |a| - 1;
      NoDifference(a[..k], b[..k]);
      OrIsZero(Difference(a[..k], b[..k]), a[k], b[k]);
      assert a == a[..k] + [a[k]] && b == b[..k] + [b[k]];
    }
  }

  /** The fold without early exit decides equality. */
  lemma ConstantTimeEqIsEquality(a: Secret, b: Secret)
    ensures ConstantTimeEq(a, b) <==> a == b
  {
    if |a| == |b| { NoDifference(a, b); }
  }

  // ---- one check, at one instant ----

  predicate Expired(f: Failure, now: int) {
    now - f.at >= LOCKOUT
  }

  function Swept(t: Table, now: int): Table {
    map p | p in t && !Expired(t[p], now) :: t[p]
  }

  predicate Oldest(t: Table, victim: Peer) {
    victim in t && forall p :: p in t ==> t[victim].at <= t[p].at
  }

  /** `make_room`: nothing, or a sweep, or a sweep and the eviction of an oldest live entry. */
  predicate RoomMade(t: Table, now: int, victim: Option<Peer>, t': Table) {
    if |t| < MAX_TRACKED_PEERS then t' == t && victim.None?
    else
      var swept := Swept(t, now);
      if |swept| < MAX_TRACKED_PEERS then t' == swept && victim.None?
      else victim.Some? && Oldest(swept, victim.value) && t' == swept - {victim.value}
  }

  /** The table after an expired lockout of `peer` has been forgotten. */
  function Forgiven(t: Table, peer: Peer): Table {
    if peer in t && t[peer].count >= MAX_FAILURES then t - {peer} else t
  }

  predicate Refused(g: Gate, peer: Peer, now: int) {
    peer in g.failures && g.failures[peer].count >= MAX_FAILURES && !Expired(g.failures[peer], now)
  }

  function Strike(t: Table, peer: Peer, now: int): Table {
    t[peer := Failure((if peer in t then t[peer].count else 0) + 1, now)]
  }

  function Saturating(n: nat): nat {
    if n < U32_MAX then n else U32_MAX
  }

  /** `check` may have answered `verdict` and gone from `g` to `g'`, evicting `victim` if it had to. */
  ghost predicate Checked(
    g: Gate, provided: Option<Secret>, peer: Peer, now: int, verdict: Verdict, victim: Option<Peer>, g': Gate)
  {
    if g.pin.None? then verdict == Ok(false) && g' == g && victim.None?
    else if Refused(g, peer, now) then verdict == LockedOut && g' == g && victim.None?
    else
      var t := Forgiven(g.failures, peer);
      if provided.None? then verdict == Unauthorized && g' == g.(failures := t) && victim.None?
      else if provided == g.pin then
        verdict == Ok(true) && g' == g.(failures := t - {peer}, wrongValues := 0) && victim.None?
      else
        && verdict == Unauthorized
        && exists room :: (if peer in t then room == t && victim.None? else RoomMade(t, now, victim, room)) &&
             g' == g.(failures := Strike(room, peer, now), wrongValues := Saturating(g.wrongValues + 1))
  }

  // ---- the table ----

  predicate TableOk(t: Table) {
    |t| <= MAX_TRACKED_PEERS && forall p :: p in t ==> 1 <= t[p].count <= MAX_FAILURES
  }

  lemma SweptSmaller(t: Table, now: int)
    ensures |Swept(t, now)| <= |t|
  {
    assert Swept(t, now).Keys <= t.Keys;
    SubsetSize(Swept(t, now).Keys, t.Keys);
    assert |Swept(t, now)| == |Swept(t, now).Keys| && |t| == |t.Keys|;
  }

  lemma RoomIsMade(t: Table, now: int, victim: Option<Peer>, t': Table)
    requires |t| <= MAX_TRACKED_PEERS && RoomMade(t, now, victim, t')
    ensures |t'| < MAX_TRACKED_PEERS && forall p :: p in t' ==> p in t && t'[p] == t[p]
  {
    SweptSmaller(t, now);
    if victim.Some? {
      var swept := Swept(t, now);
      assert t'.Keys == swept.Keys - {victim.value};
      assert |swept| == |swept.Keys| && |t'| == |t'.Keys|;
    }
  }

  lemma StrikeSize(t: Table, peer: Peer, now: int)
    ensures |Strike(t, peer, now)| == |t| + if peer in t then 0 else 1
  {
    assert Strike(t, peer, now).Keys == t.Keys + {peer};
    assert |Strike(t, peer, now)| == |Strike(t, peer, now).Keys| && |t| == |t.Keys|;
  }

  lemma ForgivenOk(t: Table, peer: Peer)
    requires TableOk(t)
    ensures TableOk(Forgiven(t, peer))
    ensures peer in Forgiven(t, peer) ==> Forgiven(t, peer)[peer].count < MAX_FAILURES
  {
  }

  lemma StrikeKeepsTable(t: Table, peer: Peer, now: int, victim: Option<Peer>, room: Table)
    requires TableOk(t) && (peer in t ==> t[peer].count < MAX_FAILURES)
    requires if peer in t then room == t && victim.None? else RoomMade(t, now, victim, room)
    ensures TableOk(Strike(room, peer, now))
  {
    if peer !in t { RoomIsMade(t, now, victim, room); }
    StrikeSize(room, peer, now);
  }

  /** Every check keeps at most 1024 entries, with counts between 1 and 3. */
  lemma CheckKeepsTable(
    g: Gate, provided: Option<Secret>, peer: Peer, now: int, verdict: Verdict, victim: Option<Peer>, g': Gate)
    requires TableOk(g.failures) && Checked(g, provided, peer, now, verdict, victim, g')
    ensures TableOk(g'.failures)
  {
    var t := Forgiven(g.failures, peer);
    ForgivenOk(g.failures, peer);
    if g.pin.Some? && !Refused(g, peer, now) && provided.Some? && provided != g.pin {
      var room :| (if peer in t then room == t && victim.None? else RoomMade(t, now, victim, room)) &&
        g' == g.(failures := Strike(room, peer, now), wrongValues := Saturating(g.wrongValues + 1));
      StrikeKeepsTable(t, peer, now, victim, room);
    }
  }

  /**
   A check from a peer the table already tracks changes no other peer's entry, not
   even when its lockout just expired and its own entry is forgotten first.
   */
  lemma TrackedPeerEvictsNobody(
    g: Gate, provided: Option<Secret>, peer: Peer, now: int, verdict: Verdict, victim: Option<Peer>, g': Gate,
    other: Peer)
    requires TableOk(g.failures) && Checked(g, provided, peer, now, verdict, victim, g')
    requires peer in g.failures && other != peer
    ensures other in g'.failures <==> other in g.failures
    ensures other in g.failures ==> g'.failures[other] == g.failures[other]
    ensures victim.None?
  {
  }

  /** An entry another peer's check removes had expired, or was an oldest one of a full live table. */
  lemma OnlyExpiredOrOldestGo(
    g: Gate, provided: Option<Secret>, peer: Peer, now: int, verdict: Verdict, victim: Option<Peer>, g': Gate,
    other: Peer)
    requires Checked(g, provided, peer, now, verdict, victim, g')
    requires other != peer && other in g.failures
    ensures other in g'.failures ==> g'.failures[other] == g.failures[other]
    ensures other !in g'.failures ==>
              || Expired(g.failures[other], now)
              || (victim == Some(other) &&
                  forall q :: q in g.failures && q != peer && !Expired(g.failures[q], now) ==>
                    g.failures[other].at <= g.failures[q].at)
  {
    if other !in g'.failures {
      var t := Forgiven(g.failures, peer);
      var room :| (if peer in t then room == t && victim.None? else RoomMade(t, now, victim, room)) &&
        g' == g.(failures := Strike(room, peer, now), wrongValues := Saturating(g.wrongValues + 1));
      forall q | q in g.failures && q != peer && !Expired(g.failures[q], now)
        ensures q in Swept(t, now)
      {
        assert q in t;
      }
    }
  }

  // ---- runs ----

  datatype Event =
    | Check(provided: Option<Secret>, peer: Peer, now: int, verdict: Verdict, victim: Option<Peer>)
    | Set(pin: Option<Secret>)

  ghost predicate Follows(g: Gate, e: Event, g': Gate) {
    match e
    case Check(provided, peer, now, verdict, victim) => Checked(g, provided, peer, now, verdict, victim, g')
    case Set(pin) => g' == Gate(pin, map[], 0)
  }

  /** A run of the gate: its states, its events, and a clock that never goes back. */
  ghost predicate History(gates: seq<Gate>, log: seq<Event>) {
    && |gates| == |log| + 1
    && gates[0].failures == map[] && gates[0].wrongValues == 0
    && (forall i :: 0 <= i < |log| ==> Follows(gates[i], log[i], gates[i + 1]))
    && (forall i, j :: 0 <= i < j < |log| && log[i].Check? && log[j].Check? ==> log[i].now <= log[j].now)
  }

  lemma {:induction false} HistoryKeepsTable(gates: seq<Gate>, log: seq<Event>, n: nat)
    requires History(gates, log) && n <= |log|
    ensures TableOk(gates[n].failures)
  {
    if n > 0 {
      HistoryKeepsTable(gates, log, n - 1);
      assert Follows(gates[n - 1], log[n - 1], gates[n]);
      match log[n - 1]
      case Check(provided, peer, now, verdict, victim) =>
        CheckKeepsTable(gates[n - 1], provided, peer, now, verdict, victim, gates[n]);
      case Set(_) =>
    }
  }

  predicate WrongValue(e: Event) {
    e.Check? && e.provided.Some? && e.verdict == Unauthorized
  }

  /** Wrong values since the last correct one, or the last change of the PIN. */
  function WrongSince(log: seq<Event>): nat {
    if log == [] then 0
    else
      var last := log[|log| - 1];
      if last.Set? || last.verdict == Ok(true) then 0
      else WrongSince(log[..|log| - 1]) + if WrongValue(last) then 1 else 0
  }

  /** `wrong_values` counts exactly those, saturating. */
  lemma {:induction false} WrongValuesCounted(gates: seq<Gate>, log: seq<Event>, n: nat)
    requires History(gates, log) && n <= |log|
    ensures gates[n].wrongValues == Saturating(WrongSince(log[..n]))
  {
    if n > 0 {
      WrongValuesCounted(gates, log, n - 1);
      assert log[..n][..n - 1] == log[..n - 1];
      assert Follows(gates[n - 1], log[n - 1], gates[n]);
    }
  }

  // ---- the guess rate ----

  /** How many wrong-value verdicts `peer` got at the indices from `lo` up to `hi`. */
  function Guesses(log: seq<Event>, peer: Peer, lo: nat, hi: nat): nat
    requires lo <= hi <= |log|
    decreases hi - lo
  {
    if lo == hi then 0
    else Guesses(log, peer, lo + 1, hi) + if WrongValue(log[lo]) && log[lo].peer == peer then 1 else 0
  }

  /** Nothing but guessing: no change of the PIN, never the right value, never the evicted one. */
  predicate OnlyGuesses(e: Event, peer: Peer) {
    && e.Check?
    && (e.peer == peer ==> e.verdict != Ok(true))
    && e.victim != Some(peer)
  }

  /** What a peer with entry `f` can still get until `end`. */
  function Budget(f: Failure, end: int): int {
    MAX_FAILURES - f.count + MAX_FAILURES * ((end - f.at) / LOCKOUT)
  }

  function FullBudget(now: int, end: int): int {
    MAX_FAILURES * ((end - now) / LOCKOUT + 1)
  }

  predicate EntryStays(t: Table, t': Table, peer: Peer) {
    (peer in t' <==> peer in t) && (peer in t ==> t'[peer] == t[peer])
  }

  predicate EntryExpired(t: Table, t': Table, peer: Peer, now: int) {
    peer in t && peer !in t' && Expired(t[peer], now)
  }

  /** What one event does to the entry of a peer that only guesses. */
  lemma GuessStep(g: Gate, e: Event, g': Gate, peer: Peer)
    requires TableOk(g.failures) && Follows(g, e, g') && OnlyGuesses(e, peer)
    ensures WrongValue(e) && e.peer == peer ==>
              && peer in g'.failures && g'.failures[peer].at == e.now
              && g'.failures[peer].count ==
                   (if peer in g.failures && g.failures[peer].count < MAX_FAILURES
                    then g.failures[peer].count else 0) + 1
              && (peer in g.failures && g.failures[peer].count == MAX_FAILURES ==> Expired(g.failures[peer], e.now))
    ensures !(WrongValue(e) && e.peer == peer) ==>
              EntryStays(g.failures, g'.failures, peer) || EntryExpired(g.failures, g'.failures, peer, e.now)
  {
    if e.peer != peer && peer in g.failures {
      OnlyExpiredOrOldestGo(g, e.provided, e.peer, e.now, e.verdict, e.victim, g', peer);
    }
  }

  /** Lockout periods that fit until `end` from an earlier stamp on, and from an expired one on. */
  lemma LaterPeriods(at: int, now: int, end: int)
    ensures at <= now ==> (end - now) / LOCKOUT <= (end - at) / LOCKOUT
    ensures now - at >= LOCKOUT ==> (end - now) / LOCKOUT + 1 <= (end - at) / LOCKOUT
  {
  }

  /** What the peer may still get after the event of its own or another's check, against what it may get before. */
  lemma BudgetShrinks(f: Failure, now: int, end: int)
    requires f.at <= now
    ensures Budget(Failure(f.count + 1, now), end) + 1 <= Budget(f, end)
    ensures Expired(f, now) && f.count <= MAX_FAILURES ==> FullBudget(now, end) <= Budget(f, end)
    ensures FullBudget(now, end) == Budget(Failure(1, now), end) + 1
  {
    LaterPeriods(f.at, now, end);
  }

  /** A stretch of a run during which `peer` only guesses, ending by `end`. */
  ghost predicate GuessingWindow(gates: seq<Gate>, log: seq<Event>, peer: Peer, lo: nat, hi: nat, end: int) {
    && History(gates, log) && lo <= hi <= |log|
    && forall i :: lo <= i < hi ==> OnlyGuesses(log[i], peer) && log[i].now <= end
  }

  /** From a tracked entry on, the entry's own budget is never exceeded. */
  lemma {:induction false} TrackedBudget(
    gates: seq<Gate>, log: seq<Event>, peer: Peer, lo: nat, hi: nat, end: int)
    requires GuessingWindow(gates, log, peer, lo, hi, end)
    requires peer in gates[lo].failures && gates[lo].failures[peer].at <= end
    ensures Guesses(log, peer, lo, hi) <= Budget(gates[lo].failures[peer], end)
    decreases hi - lo, 0
  {
    HistoryKeepsTable(gates, log, lo);
    if lo < hi {
      var e, f := log[lo], gates[lo].failures[peer];
      assert Follows(gates[lo], e, gates[lo + 1]);
      GuessStep(gates[lo], e, gates[lo + 1], peer);
      EntryOlder(gates, log, peer, lo);
      BudgetShrinks(f, e.now, end);
      if peer in gates[lo + 1].failures {
        TrackedBudget(gates, log, peer, lo + 1, hi, end);
        assert WrongValue(e) && e.peer == peer ==>
            gates[lo + 1].failures[peer] == Failure(if f.count < MAX_FAILURES then f.count + 1 else 1, e.now);
      } else {
        AnyBudget(gates, log, peer, lo + 1, hi, e.now, end);
      }
    }
  }

  /** With or without an entry, three guesses for every lockout period that has begun. */
  lemma {:induction false} AnyBudget(
    gates: seq<Gate>, log: seq<Event>, peer: Peer, lo: nat, hi: nat, now: int, end: int)
    requires GuessingWindow(gates, log, peer, lo, hi, end) && now <= end
    requires forall i :: lo <= i < hi ==> now <= log[i].now
    ensures Guesses(log, peer, lo, hi) <= FullBudget(now, end)
    decreases hi - lo, 1
  {
    if lo < hi {
      var e := log[lo];
      assert Follows(gates[lo], e, gates[lo + 1]);
      HistoryKeepsTable(gates, log, lo);
      HistoryKeepsTable(gates, log, lo + 1);
      GuessStep(gates[lo], e, gates[lo + 1], peer);
      if WrongValue(e) && e.peer == peer {
        TrackedBudget(gates, log, peer, lo + 1, hi, end);
      } else {
        AnyBudget(gates, log, peer, lo + 1, hi, now, end);
      }
    }
  }

  /** Entries are stamped in the past of every later check. */
  lemma {:induction false} EntryOlder(gates: seq<Gate>, log: seq<Event>, peer: Peer, n: nat)
    requires History(gates, log) && n < |log| && log[n].Check? && peer in gates[n].failures
    ensures gates[n].failures[peer].at <= log[n].now
  {
    StampedBefore(gates, log, peer, n, n);
  }

  /** An entry was stamped by the check just made, or was there before. */
  lemma EntryStamp(g: Gate, e: Event, g': Gate, peer: Peer)
    requires Follows(g, e, g') && peer in g'.failures
    ensures e.Check?
    ensures g'.failures[peer].at == e.now || (peer in g.failures && g'.failures[peer] == g.failures[peer])
  {
    if e.peer != peer {
      assert peer in g.failures;
    }
  }

  lemma {:induction false} StampedBefore(gates: seq<Gate>, log: seq<Event>, peer: Peer, n: nat, m: nat)
    requires History(gates, log) && n <= m < |log| && log[m].Check? && peer in gates[n].failures
    ensures gates[n].failures[peer].at <= log[m].now
  {
    if n > 0 {
      EntryStamp(gates[n - 1], log[n - 1], gates[n], peer);
      if gates[n].failures[peer].at != log[n - 1].now {
        StampedBefore(gates, log, peer, n - 1, m);
      }
    }
  }

  /**
   The guess rate.  In any stretch of any run without a change of the PIN, a peer
   that never presents the right value and is never the evicted one gets at most
   three wrong-value verdicts for every started lockout period, even though a sweep
   may drop its expired entries.
   */
  lemma GuessRateBound(gates: seq<Gate>, log: seq<Event>, peer: Peer, lo: nat, hi: nat, duration: nat)
    requires History(gates, log) && lo < hi <= |log|
    requires forall i :: lo <= i < hi ==> OnlyGuesses(log[i], peer)
    requires log[lo].Check? && log[hi - 1].Check? && log[hi - 1].now - log[lo].now <= duration
    ensures Guesses(log, peer, lo, hi) <= MAX_FAILURES * (duration / LOCKOUT + 1)
  {
    var now, end := log[lo].now, log[hi - 1].now;
    AnyBudget(gates, log, peer, lo, hi, now, end);
    assert (end - now) / LOCKOUT <= duration / LOCKOUT;
  }
}
