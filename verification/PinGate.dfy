/** The gate as the object the server holds (src/server/pin.rs:69-205). */
module PinGate {
  import opened Options
  import opened Pin

  class PinGate {
    var pin: Option<Secret>
    var failures: Table
    var wrongValues: nat

    function State(): Gate
      reads this
    {
      Gate(pin, failures, wrongValues)
    }

    constructor (pin: Option<Secret>)
      ensures State() == Gate(pin, map[], 0)
    {
      this.pin := pin;
      failures := map[];
      wrongValues := 0;
    }

    /** A new PIN retires the old one together with everything guessed at it. */
    method Set(pin: Option<Secret>)
      modifies this
      ensures Follows(old(State()), Event.Set(pin), State())
    {
      this.pin := pin;
      failures := map[];
      wrongValues := 0;
    }

    method Check(provided: Option<Secret>, peer: Peer, now: int) returns (verdict: Verdict, ghost victim: Option<Peer>)
      modifies this
      ensures Follows(old(State()), Event.Check(provided, peer, now, verdict, victim), State())
    {
      victim := None;
      ghost var before := State();
      if pin.None? {
        return Ok(false), None;
      }
      if peer in failures && failures[peer].count >= MAX_FAILURES {
        if now - failures[peer].at < LOCKOUT {
          return LockedOut, None;
        }
        failures := failures - {peer};
      }
      assert failures == Forgiven(before.failures, peer);
      if provided.None? {
        verdict := Unauthorized;
      } else {
        ConstantTimeEqIsEquality(provided.value, pin.value);
        if ConstantTimeEq(provided.value, pin.value) {
          failures := failures - {peer};
          wrongValues := 0;
          verdict := Ok(true);
        } else {
          wrongValues := if wrongValues < U32_MAX then wrongValues + 1 else U32_MAX;
          if peer !in failures {
            victim := MakeRoom(now);
          }
          ghost var room := failures;
          var entry := if peer in failures then failures[peer] else Failure(0, now);
          failures := failures[peer := Failure(entry.count + 1, now)];
          verdict := Unauthorized;
          assert State() ==
                 before.(failures := Strike(room, peer, now), wrongValues := Saturating(before.wrongValues + 1));
        }
      }
    }

    method MakeRoom(now: int) returns (ghost victim: Option<Peer>)
      modifies this`failures
      ensures RoomMade(old(failures), now, victim, failures)
    {
      victim := None;
      if |failures| < MAX_TRACKED_PEERS {
        return;
      }
      failures := map p | p in failures && now - failures[p].at < LOCKOUT :: failures[p];
      assert failures == Swept(old(failures), now);
      if |failures| < MAX_TRACKED_PEERS {
        return;
      }
      var oldest := FindOldest(failures);
      victim := Some(oldest);
      failures := failures - {oldest};
    }
  }

  /** One pass over the table, keeping the smallest timestamp seen. */
  method FindOldest(t: Table) returns (oldest: Peer)
    requires t != map[]
    ensures Oldest(t, oldest)
  {
    oldest :| oldest in t;
    var rest := t.Keys - {oldest};
    while rest != {}
      invariant oldest in t && rest <= t.Keys
      invariant forall p :: p in t && p !in rest ==> t[oldest].at <= t[p].at
      decreases rest
    {
      var p :| p in rest;
      if t[p].at < t[oldest].at {
        oldest := p;
      }
      rest := rest - {p};
    }
  }
}
