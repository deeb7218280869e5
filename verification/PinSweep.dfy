/**
 When dropping an expired entry of the lockout table changes what its peer gets
 (src/server/pin.rs:143-150, 185-194): exactly when it had not reached a lockout.
 */
module PinSweep {
  import opened Options
  import opened Pin
  import opened Sets

  function EntryOf(t: Table, peer: Peer): Option<Failure> {
    if peer in t then Some(t[peer]) else None
  }

  // ---- the gate, seen from a peer's own entry ----

  /** A lockout that is over decides nothing, and neither does no entry at all. */
  predicate Clear(entry: Option<Failure>, now: int) {
    entry.Some? ==> entry.value.count >= MAX_FAILURES && Expired(entry.value, now)
  }

  predicate LockedNow(entry: Option<Failure>, now: int) {
    entry.Some? && entry.value.count >= MAX_FAILURES && !Expired(entry.value, now)
  }

  function VerdictFor(pin: Option<Secret>, entry: Option<Failure>, provided: Option<Secret>, now: int): Verdict {
    if pin.None? then Ok(false)
    else if LockedNow(entry, now) then LockedOut
    else if provided == pin then Ok(true)
    else Unauthorized
  }

  function EntryAfter(
    pin: Option<Secret>, entry: Option<Failure>, provided: Option<Secret>, now: int): Option<Failure>
  {
    if pin.None? || LockedNow(entry, now) then entry
    else
      var kept := if entry.Some? && entry.value.count >= MAX_FAILURES then None else entry;
      if provided.None? then kept
      else if provided == pin then None
      else Some(Failure((if kept.Some? then kept.value.count else 0) + 1, now))
  }

  /** A check of the peer itself: verdict and entry depend on the PIN and its own entry alone. */
  lemma OwnCheck(g: Gate, e: Event, g': Gate)
    requires e.Check? && Follows(g, e, g')
    ensures e.verdict == VerdictFor(g.pin, EntryOf(g.failures, e.peer), e.provided, e.now)
    ensures EntryOf(g'.failures, e.peer) == EntryAfter(g.pin, EntryOf(g.failures, e.peer), e.provided, e.now)
    ensures g'.pin == g.pin
  {
  }

  /** A check of another peer leaves the entry alone, or takes it away. */
  lemma OthersCheck(g: Gate, e: Event, g': Gate, peer: Peer)
    requires e.Check? && e.peer != peer && Follows(g, e, g')
    ensures EntryOf(g'.failures, peer) == EntryOf(g.failures, peer) || EntryOf(g'.failures, peer).None?
    ensures g'.pin == g.pin
  {
    if peer in g.failures { OnlyExpiredOrOldestGo(g, e.provided, e.peer, e.now, e.verdict, e.victim, g', peer); }
  }

  // ---- two gates that are asked the same ----

  /** The same entry, or two that decide nothing. */
  predicate Alike(a: Option<Failure>, b: Option<Failure>, now: int) {
    a == b || (Clear(a, now) && Clear(b, now))
  }

  lemma AlikeCheck(
    pin: Option<Secret>, a: Option<Failure>, b: Option<Failure>, provided: Option<Secret>, now: int, later: int)
    requires Alike(a, b, now) && now <= later
    ensures VerdictFor(pin, a, provided, now) == VerdictFor(pin, b, provided, now)
    ensures Alike(EntryAfter(pin, a, provided, now), EntryAfter(pin, b, provided, now), later)
    ensures Alike(a, b, later)
  {
  }

  ghost predicate GateRun(gates: seq<Gate>, log: seq<Event>) {
    |gates| == |log| + 1 && forall i :: 0 <= i < |log| ==> Follows(gates[i], log[i], gates[i + 1])
  }

  predicate SameInput(e: Event, e': Event) {
    match e
    case Set(_) => e' == e
    case Check(provided, peer, now, _, _) =>
      e'.Check? && e'.provided == provided && e'.peer == peer && e'.now == now
  }

  predicate SameInputs(log: seq<Event>, log': seq<Event>) {
    |log| == |log'| && forall i :: 0 <= i < |log| ==> SameInput(log[i], log'[i])
  }

  /** `t` is not before `now` or any of the first `n` checks. */
  predicate NotBefore(log: seq<Event>, n: nat, now: int, t: int)
    requires n <= |log|
  {
    now <= t && forall i :: 0 <= i < n && log[i].Check? ==> log[i].now <= t
  }

  predicate Clocked(log: seq<Event>, now: int) {
    forall i :: 0 <= i < |log| && log[i].Check? ==> NotBefore(log, i, now, log[i].now)
  }

  /** The check took no entry of `peer` away that still decided something, unless it was its own. */
  predicate KeepsEntry(g: Gate, e: Event, g': Gate, peer: Peer) {
    e.Check? && e.peer != peer ==>
      EntryOf(g'.failures, peer) == EntryOf(g.failures, peer) || Clear(EntryOf(g.failures, peer), e.now)
  }

  predicate NotForgotten(gates: seq<Gate>, log: seq<Event>, peer: Peer)
    requires |gates| == |log| + 1
  {
    forall i :: 0 <= i < |log| ==> KeepsEntry(gates[i], log[i], gates[i + 1], peer)
  }

  predicate SameVerdicts(log: seq<Event>, log': seq<Event>, peer: Peer)
    requires SameInputs(log, log')
  {
    forall i :: 0 <= i < |log| && log[i].Check? && log[i].peer == peer ==>
      SameInput(log[i], log'[i]) && log[i].verdict == log'[i].verdict
  }

  /** One gate with the entry of the peer and one without, asked the same from `now` on. */
  ghost predicate Twins(
    g: Gate, peer: Peer, now: int, gates: seq<Gate>, log: seq<Event>, gates': seq<Gate>, log': seq<Event>)
  {
    && GateRun(gates, log) && GateRun(gates', log')
    && gates[0] == g && gates'[0] == g.(failures := g.failures - {peer})
    && SameInputs(log, log') && Clocked(log, now)
    && NotForgotten(gates, log, peer) && NotForgotten(gates', log', peer)
  }

  ghost predicate AlikeFrom(gates: seq<Gate>, gates': seq<Gate>, log: seq<Event>, peer: Peer, now: int, n: nat)
    requires n <= |log| && |gates| == |log| + 1 == |gates'|
  {
    && gates[n].pin == gates'[n].pin
    && forall t :: NotBefore(log, n, now, t) ==>
         Alike(EntryOf(gates[n].failures, peer), EntryOf(gates'[n].failures, peer), t)
  }

  lemma AlikeNext(
    g: Gate, peer: Peer, now: int, gates: seq<Gate>, log: seq<Event>, gates': seq<Gate>, log': seq<Event>, n: nat)
    requires Twins(g, peer, now, gates, log, gates', log') && n < |log|
    requires AlikeFrom(gates, gates', log, peer, now, n)
    ensures AlikeFrom(gates, gates', log, peer, now, n + 1)
    ensures log[n].Check? && log[n].peer == peer ==> log'[n].Check? && log[n].verdict == log'[n].verdict
  {
    var e, e' := log[n], log'[n];
    assert Follows(gates[n], e, gates[n + 1]) && Follows(gates'[n], e', gates'[n + 1]) && SameInput(e, e');
    assert KeepsEntry(gates[n], e, gates[n + 1], peer) && KeepsEntry(gates'[n], e', gates'[n + 1], peer);
    if e.Check? {
      assert NotBefore(log, n, now, e.now);
      var a, b := EntryOf(gates[n].failures, peer), EntryOf(gates'[n].failures, peer);
      assert Alike(a, b, e.now);
      if e.peer == peer {
        OwnCheck(gates[n], e, gates[n + 1]);
        OwnCheck(gates'[n], e', gates'[n + 1]);
      } else {
        OthersCheck(gates[n], e, gates[n + 1], peer);
        OthersCheck(gates'[n], e', gates'[n + 1], peer);
      }
      var m := n + 1;
      forall t | NotBefore(log, m, now, t)
        ensures Alike(EntryOf(gates[m].failures, peer), EntryOf(gates'[m].failures, peer), t)
      {
        AlikeCheck(gates[n].pin, a, b, e.provided, e.now, t);
      }
    }
  }

  lemma {:induction false} AlikeThroughout(
    g: Gate, peer: Peer, now: int, gates: seq<Gate>, log: seq<Event>, gates': seq<Gate>, log': seq<Event>, n: nat)
    requires Twins(g, peer, now, gates, log, gates', log') && n <= |log|
    requires AlikeFrom(gates, gates', log, peer, now, 0)
    ensures AlikeFrom(gates, gates', log, peer, now, n)
  {
    if n > 0 {
      AlikeThroughout(g, peer, now, gates, log, gates', log', n - 1);
      AlikeNext(g, peer, now, gates, log, gates', log', n - 1);
    }
  }

  // ---- every wrong value gets an answer ----

  lemma {:induction false} OldestExists(t: Table) returns (victim: Peer)
    requires t != map[]
    ensures Oldest(t, victim)
    decreases |t|
  {
    var p :| p in t;
    var rest := t - {p};
    if rest == map[] {
      assert forall q :: q in t ==> q == p || q in rest;
      victim := p;
    } else {
      assert |rest.Keys| < |t.Keys| by { assert rest.Keys == t.Keys - {p}; }
      var q := OldestExists(rest);
      assert forall x :: x in t ==> x == p || x in rest;
      victim := if t[p].at < t[q].at then p else q;
    }
  }

  lemma RoomExists(t: Table, now: int) returns (victim: Option<Peer>, room: Table)
    ensures RoomMade(t, now, victim, room)
  {
    if |t| < MAX_TRACKED_PEERS {
      return None, t;
    }
    var swept := Swept(t, now);
    if |swept| < MAX_TRACKED_PEERS {
      return None, swept;
    }
    var oldest := OldestExists(swept);
    return Some(oldest), swept - {oldest};
  }

  lemma WrongValueIsAnswered(g: Gate, wrong: Secret, peer: Peer, now: int) returns (e: Event, g': Gate)
    requires g.pin.Some? && g.pin != Some(wrong)
    ensures e.Check? && e.provided == Some(wrong) && e.peer == peer && e.now == now
    ensures Follows(g, e, g') && g'.pin == g.pin
    ensures e.verdict == VerdictFor(g.pin, EntryOf(g.failures, peer), Some(wrong), now)
    ensures EntryOf(g'.failures, peer) == EntryAfter(g.pin, EntryOf(g.failures, peer), Some(wrong), now)
  {
    if Refused(g, peer, now) {
      return Check(Some(wrong), peer, now, LockedOut, None), g;
    }
    var t := Forgiven(g.failures, peer);
    var victim, room := None, t;
    if peer !in t {
      victim, room := RoomExists(t, now);
    }
    g' := g.(failures := Strike(room, peer, now), wrongValues := Saturating(g.wrongValues + 1));
    e := Check(Some(wrong), peer, now, Unauthorized, victim);
  }

  /** Three wrong values at once; the third is refused exactly if one failure was there before. */
  lemma ThreeWrongValues(g: Gate, wrong: Secret, peer: Peer, now: int) returns (gates: seq<Gate>, log: seq<Event>)
    requires g.pin.Some? && g.pin != Some(wrong)
    requires EntryOf(g.failures, peer).Some? ==> 1 <= g.failures[peer].count < MAX_FAILURES
    ensures GateRun(gates, log) && gates[0] == g && |log| == 3 && NotForgotten(gates, log, peer) && Clocked(log, now)
    ensures forall i :: 0 <= i < 3 ==>
              log[i].Check? && log[i].provided == Some(wrong) && log[i].peer == peer && log[i].now == now
    ensures log[2].verdict == if peer in g.failures then LockedOut else Unauthorized
  {
    var e0, g1 := WrongValueIsAnswered(g, wrong, peer, now);
    var e1, g2 := WrongValueIsAnswered(g1, wrong, peer, now);
    var e2, g3 := WrongValueIsAnswered(g2, wrong, peer, now);
    gates, log := [g, g1, g2, g3], [e0, e1, e2];
  }

  // ---- when a dropped entry matters ----

  /**
   With and without the entry, whatever the peer and everybody else present, the peer
   gets the same verdicts, as long as nobody's check takes a counting entry of it away.
   */
  ghost predicate DropIsHarmless(g: Gate, peer: Peer, now: int) {
    forall gates, log, gates', log' ::
      Twins(g, peer, now, gates, log, gates', log') ==> SameVerdicts(log, log', peer)
  }

  lemma LockoutDropsUnseen(
    g: Gate, peer: Peer, now: int, gates: seq<Gate>, log: seq<Event>, gates': seq<Gate>, log': seq<Event>)
    requires peer in g.failures && g.failures[peer].count == MAX_FAILURES && Expired(g.failures[peer], now)
    requires Twins(g, peer, now, gates, log, gates', log')
    ensures SameVerdicts(log, log', peer)
  {
    assert AlikeFrom(gates, gates', log, peer, now, 0);
    forall i | 0 <= i < |log| && log[i].Check? && log[i].peer == peer
      ensures SameInput(log[i], log'[i]) && log[i].verdict == log'[i].verdict
    {
      AlikeThroughout(g, peer, now, gates, log, gates', log', i);
      AlikeNext(g, peer, now, gates, log, gates', log', i);
    }
  }

  /**
   Dropping an expired entry never changes what its peer is answered if and only if the
   entry had reached the lockout, which is what `check` itself forgives.
   */
  lemma DropIsHarmlessIff(g: Gate, peer: Peer, now: int)
    requires TableOk(g.failures) && g.pin.Some?
    requires peer in g.failures && Expired(g.failures[peer], now)
    ensures DropIsHarmless(g, peer, now) <==> g.failures[peer].count == MAX_FAILURES
    ensures g.failures[peer].count == MAX_FAILURES <==> Forgiven(g.failures, peer) == g.failures - {peer}
  {
    var g0 := g.(failures := g.failures - {peer});
    assert peer !in g0.failures;
    if g.failures[peer].count == MAX_FAILURES {
      forall gates, log, gates', log' | Twins(g, peer, now, gates, log, gates', log')
        ensures SameVerdicts(log, log', peer)
      {
        LockoutDropsUnseen(g, peer, now, gates, log, gates', log');
      }
    } else {
      var wrong := g.pin.value + [0];
      assert |wrong| != |g.pin.value|;
      var gates, log := ThreeWrongValues(g, wrong, peer, now);
      var gates', log' := ThreeWrongValues(g0, wrong, peer, now);
      assert Twins(g, peer, now, gates, log, gates', log');
      assert log[2].verdict != log'[2].verdict;
      assert !SameVerdicts(log, log', peer);
    }
  }

  // ---- a run in which the sweep does drop one ----

  const THE_PIN: Secret := [1]

  const WRONG: Secret := [2]

  /** Peer 0 failed twice at time 0, and `k` others once when those failures had just expired. */
  function Filled(k: nat): Table {
    if k == 0 then map[0 := Failure(2, 0)] else Filled(k - 1)[k := Failure(1, LOCKOUT)]
  }

  lemma {:induction false} FilledSize(k: nat)
    ensures |Filled(k)| == k + 1
    ensures forall p :: p in Filled(k) ==> 0 <= p <= k
    ensures 0 in Filled(k) && Filled(k)[0] == Failure(2, 0)
  {
    if k > 0 { FilledSize(k - 1); }
  }

  predicate StartsAs(gates: seq<Gate>, log: seq<Event>, last: int) {
    && |gates| == |log| + 1
    && (forall i :: 0 <= i < |log| ==> log[i].Check? && log[i].now <= last)
  }

  /** A history goes on with one more check, not earlier than those before. */
  lemma HistoryGrows(gates: seq<Gate>, log: seq<Event>, e: Event, g: Gate)
    requires History(gates, log) && e.Check? && Follows(gates[|log|], e, g) && StartsAs(gates, log, e.now)
    ensures History(gates + [g], log + [e]) && StartsAs(gates + [g], log + [e], e.now)
  {
    var gates', log' := gates + [g], log + [e];
    forall i | 0 <= i < |log'|
      ensures Follows(gates'[i], log'[i], gates'[i + 1])
    {
    }
  }

  lemma Strikes(t: Table, n: nat, peer: Peer, now: int) returns (e: Event)
    requires |t| < MAX_TRACKED_PEERS && n < U32_MAX && (peer in t ==> t[peer].count < MAX_FAILURES)
    ensures e == Check(Some(WRONG), peer, now, Unauthorized, None)
    ensures Follows(Gate(Some(THE_PIN), t, n), e, Gate(Some(THE_PIN), Strike(t, peer, now), n + 1))
  {
    e := Check(Some(WRONG), peer, now, Unauthorized, None);
    var g := Gate(Some(THE_PIN), t, n);
    assert !Refused(g, peer, now) && Forgiven(t, peer) == t;
    assert RoomMade(t, now, None, t);
    assert Saturating(n + 1) == n + 1;
  }

  lemma {:induction false} FilledIsReached(k: nat) returns (gates: seq<Gate>, log: seq<Event>)
    requires k < MAX_TRACKED_PEERS
    ensures History(gates, log) && StartsAs(gates, log, LOCKOUT)
    ensures gates[|log|] == Gate(Some(THE_PIN), Filled(k), k + 2)
  {
    FilledSize(k);
    if k == 0 {
      var empty: Table := map[];
      gates, log := [Gate(Some(THE_PIN), empty, 0)], [];
      var e := Strikes(empty, 0, 0, 0);
      HistoryGrows(gates, log, e, Gate(Some(THE_PIN), Strike(empty, 0, 0), 1));
      gates, log := gates + [Gate(Some(THE_PIN), Strike(empty, 0, 0), 1)], log + [e];
      e := Strikes(Strike(empty, 0, 0), 1, 0, 0);
      assert Strike(Strike(empty, 0, 0), 0, 0) == Filled(0);
      HistoryGrows(gates, log, e, Gate(Some(THE_PIN), Filled(0), 2));
      gates, log := gates + [Gate(Some(THE_PIN), Filled(0), 2)], log + [e];
    } else {
      FilledSize(k - 1);
      gates, log := FilledIsReached(k - 1);
      var e := Strikes(Filled(k - 1), k + 1, k, LOCKOUT);
      assert Strike(Filled(k - 1), k, LOCKOUT) == Filled(k);
      HistoryGrows(gates, log, e, Gate(Some(THE_PIN), Filled(k), k + 2));
      gates, log := gates + [Gate(Some(THE_PIN), Filled(k), k + 2)], log + [e];
    }
  }

  /** One more peer than fits: the sweep drops the expired entry of peer 0. */
  lemma NewcomerSweeps(n: nat) returns (e: Event, swept: Gate)
    requires n < U32_MAX
    ensures e == Check(Some(WRONG), MAX_TRACKED_PEERS, LOCKOUT, Unauthorized, None)
    ensures Follows(Gate(Some(THE_PIN), Filled(MAX_TRACKED_PEERS - 1), n), e, swept)
    ensures 0 !in swept.failures && swept.pin == Some(THE_PIN)
  {
    var k := MAX_TRACKED_PEERS - 1;
    FilledSize(k);
    var t := Filled(k);
    var room := Swept(t, LOCKOUT);
    assert room.Keys <= t.Keys - {0};
    SubsetSize(room.Keys, t.Keys - {0});
    assert |room| == |room.Keys| && |t| == |t.Keys|;
    assert RoomMade(t, LOCKOUT, None, room);
    assert Forgiven(t, MAX_TRACKED_PEERS) == t;
    e := Check(Some(WRONG), MAX_TRACKED_PEERS, LOCKOUT, Unauthorized, None);
    swept := Gate(Some(THE_PIN), Strike(room, MAX_TRACKED_PEERS, LOCKOUT), n + 1);
    assert Saturating(n + 1) == n + 1;
  }

  /**
   A history that reaches a full table with an expired entry of two failures, and whose
   next newcomer sweeps it: from then on that peer's wrong values are answered otherwise
   than they would have been.
   */
  lemma SweepForgetsFailures() returns (gates: seq<Gate>, log: seq<Event>, peer: Peer, now: int)
    ensures History(gates, log) && log != [] && log[|log| - 1].Check? && log[|log| - 1].now == now
    ensures var before, after := gates[|log| - 1], gates[|log|];
            && TableOk(before.failures) && before.pin.Some?
            && peer in before.failures && Expired(before.failures[peer], now)
            && peer !in after.failures
            && !DropIsHarmless(before, peer, now)
  {
    var k := MAX_TRACKED_PEERS - 1;
    FilledSize(k);
    gates, log := FilledIsReached(k);
    var e, swept := NewcomerSweeps(k + 2);
    HistoryKeepsTable(gates, log, |log|);
    var before := gates[|log|];
    DropIsHarmlessIff(before, 0, LOCKOUT);
    HistoryGrows(gates, log, e, swept);
    gates, log, peer, now := gates + [swept], log + [e], 0, LOCKOUT;
  }
}
