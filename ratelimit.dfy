/**
 * The per-client fixed-window rate limiter (`rate_limiter` in src/main.rs).
 *
 * The limiter keeps a table from client identity to the start of its
 * current window and the number of requests admitted in it. A call admits
 * or refuses one request from one identity and updates that identity's
 * entry; the process-wide lock of the source makes each call atomic, so
 * a run of calls is a sequence of `Admission` steps.
 *
 * Time is a reading of the wall clock in nanoseconds, passed in by the
 * caller in place of `SystemTime::now()`.
 */
module RateLimit {
  import opened Wrappers
  import opened Errors

  const NanosPerSecond: nat := 1_000_000_000
  /** Length of a window: 60 seconds. */
  const WindowNanos: nat := 60 * NanosPerSecond
  /** Requests admitted per identity per window. */
  const MaxRequests: nat := 10

  /** One identity's state: when its window began and how many requests it admitted. */
  datatype Entry = Entry(windowStart: nat, count: nat)

  type Table = map<string, Entry>

  /**
   * The identity a request is counted under: the IP of its peer address
   * (`peer` is that IP as text, the port dropped), or "unknown" when the
   * peer address is not available.
   */
  function ClientIdentity(peer: Option<string>): (id: string)
    ensures peer.Some? ==> id == peer.value
    ensures peer.None? ==> id == "unknown"
  {
    peer.GetOr("unknown")
  }

  /**
   * Time since `start` as the source measures it: a clock that has gone
   * backwards (`elapsed()` failing) reads as no time at all.
   */
  function Elapsed(start: nat, now: nat): (d: nat)
    ensures now >= start ==> d + start == now
    ensures now < start ==> d == 0
  {
    if now >= start then now - start else 0
  }

  /** Every stored count lies between 1 and the ceiling. */
  predicate WellFormed(store: Table)
  {
    forall id :: id in store ==> 1 <= store[id].count <= MaxRequests
  }

  /**
   * One call of the limiter for identity `id` at time `now`: the verdict
   * and the table afterwards. The entry is fetched, or inserted as
   * `(now, 0)`; a window older than 60 seconds restarts at `(now, 1)`; a
   * full window refuses; otherwise the count goes up by one.
   */
  function Admission(store: Table, id: string, now: nat): (o: (Result<(), ApiError>, Table))
    ensures o.0.Err? ==> o.0.error == RateLimitExceeded && o.1 == store
    ensures o.1.Keys == store.Keys + {id}
    ensures id in store && o.1[id].windowStart != store[id].windowStart ==> o.1[id] == Entry(now, 1)
    ensures forall other :: other != id && other in store ==> o.1[other] == store[other]
    ensures WellFormed(store) ==> WellFormed(o.1)
  {
    var entry := if id in store then store[id] else Entry(now, 0);
    if Elapsed(entry.windowStart, now) > WindowNanos then
      (Ok(()), store[id := Entry(now, 1)])
    else if entry.count >= MaxRequests then
      (Err(RateLimitExceeded), store[id := entry])
    else
      (Ok(()), store[id := Entry(entry.windowStart, entry.count + 1)])
  }

  /** An identity seen for the first time is admitted and its entry becomes `(now, 1)`. */
  lemma UnseenIdentityAdmitted(store: Table, id: string, now: nat)
    requires id !in store
    ensures Admission(store, id, now) == (Ok(()), store[id := Entry(now, 1)])
  {
  }

  /**
   * More than 60 seconds after its window began, an identity is admitted
   * and its window restarts with a count of 1, whatever the old count.
   */
  lemma ExpiredWindowResets(store: Table, id: string, now: nat)
    requires id in store && Elapsed(store[id].windowStart, now) > WindowNanos
    ensures Admission(store, id, now) == (Ok(()), store[id := Entry(now, 1)])
  {
  }

  /** Exactly 60 seconds after the window began is still inside it. */
  lemma SixtySecondsIsInsideWindow(store: Table, id: string)
    requires id in store && store[id].count >= MaxRequests
    ensures Admission(store, id, store[id].windowStart + WindowNanos).0 == Err(RateLimitExceeded)
  {
  }

  /** A full window refuses, and the refused request leaves the table as it was. */
  lemma FullWindowRefuses(store: Table, id: string, now: nat)
    requires id in store && Elapsed(store[id].windowStart, now) <= WindowNanos
    requires store[id].count >= MaxRequests
    ensures Admission(store, id, now) == (Err(RateLimitExceeded), store)
  {
  }

  /** Inside the window and under the ceiling, the request is admitted and counted. */
  lemma OpenWindowCounts(store: Table, id: string, now: nat)
    requires id in store && Elapsed(store[id].windowStart, now) <= WindowNanos
    requires store[id].count < MaxRequests
    ensures Admission(store, id, now)
         == (Ok(()), store[id := Entry(store[id].windowStart, store[id].count + 1)])
  {
  }

  /** A clock that went backwards counts as being inside the window. */
  lemma BackwardsClockIsInsideWindow(store: Table, id: string, now: nat)
    requires id in store && now < store[id].windowStart
    ensures Admission(store, id, now).0.Ok? <==> store[id].count < MaxRequests
  {
  }

  /** The rate limiter: the admission table, updated in place by each call. */
  class RateLimiter {
    var store: Table

    ghost predicate Valid()
      reads this
    {
      WellFormed(store)
    }

    constructor ()
      ensures Valid() && store == map[]
    {
      store := map[];
    }

    /** `rate_limiter`: admit or refuse one request from `peer` at time `now`. */
    method Admit(peer: Option<string>, now: nat) returns (r: Result<(), ApiError>)
      requires Valid()
      modifies this
      ensures Valid()
      ensures (r, store) == Admission(old(store), ClientIdentity(peer), now)
    {
      var id := ClientIdentity(peer);
      if id !in store {
        store := store[id := Entry(now, 0)];
      }
      var entry := store[id];
      assert entry == if id in old(store) then old(store)[id] else Entry(now, 0);
      var elapsed := if now >= entry.windowStart then now - entry.windowStart else 0;
      if elapsed > WindowNanos {
        store := store[id := Entry(now, 1)];
        assert store == old(store)[id := Entry(now, 1)];
      } else if entry.count >= MaxRequests {
        assert store == old(store)[id := entry];
        return Err(RateLimitExceeded);
      } else {
        store := store[id := Entry(entry.windowStart, entry.count + 1)];
        assert store == old(store)[id := Entry(entry.windowStart, entry.count + 1)];
      }
      r := Ok(());
    }
  }

  // ---------------------------------------------------------------------
  // Runs: the calls the lock serialises, one after another.
  // ---------------------------------------------------------------------

  /** One call of the limiter: who asked and when. */
  datatype Call = Call(id: string, now: nat)

  /** The verdicts of a run of calls, in order, and the table it leaves. */
  function Run(store: Table, calls: seq<Call>): (o: (seq<Result<(), ApiError>>, Table))
    ensures |o.0| == |calls|
    ensures forall i :: 0 <= i < |o.0| && o.0[i].Err? ==> o.0[i].error == RateLimitExceeded
    ensures WellFormed(store) ==> WellFormed(o.1)
    decreases |calls|
  {
    if calls == [] then ([], store)
    else
      var step := Admission(store, calls[0].id, calls[0].now);
      var rest := Run(step.1, calls[1..]);
      ([step.0] + rest.0, rest.1)
  }

  /** How many of the verdicts admitted. */
  function CountAdmitted(results: seq<Result<(), ApiError>>): (n: nat)
    ensures n <= |results|
  {
    if results == [] then 0
    else (if results[0].Ok? then 1 else 0) + CountAdmitted(results[1..])
  }

  function Min(a: nat, b: nat): (m: nat)
    ensures m <= a && m <= b && (m == a || m == b)
  {
    if a <= b then a else b
  }

  /**
   * Calls from one identity that all fall inside its current window are
   * admitted while the count is under the ceiling and refused after: the
   * i-th is admitted exactly when `count + i < 10`, and the window ends
   * with the count at the ceiling or below it.
   */
  lemma {:induction false} RunInsideWindow(store: Table, id: string, calls: seq<Call>)
    requires id in store && store[id].count <= MaxRequests
    requires forall i :: 0 <= i < |calls| ==>
      calls[i].id == id && Elapsed(store[id].windowStart, calls[i].now) <= WindowNanos
    ensures forall i :: 0 <= i < |calls| ==>
      (Run(store, calls).0[i].Ok? <==> store[id].count + i < MaxRequests)
    ensures CountAdmitted(Run(store, calls).0) == Min(|calls|, MaxRequests - store[id].count)
    ensures id in Run(store, calls).1
    ensures Run(store, calls).1[id]
         == Entry(store[id].windowStart, Min(MaxRequests, store[id].count + |calls|))
  {
    if calls != [] {
      var e := store[id];
      var step := Admission(store, id, calls[0].now);
      var next := step.1;
      if e.count < MaxRequests {
        OpenWindowCounts(store, id, calls[0].now);
      } else {
        FullWindowRefuses(store, id, calls[0].now);
      }
      assert next[id].windowStart == e.windowStart;
      RunInsideWindow(next, id, calls[1..]);
      var rest := Run(next, calls[1..]);
      assert Run(store, calls).0 == [step.0] + rest.0;
      assert ([step.0] + rest.0)[1..] == rest.0;
    }
  }

  /**
   * A burst of calls from an identity the limiter has not seen, all inside
   * the window opened by the first of them, admits exactly
   * `min(n, 10)` of them: fifty such calls admit ten and refuse forty.
   */
  lemma {:induction false} FreshBurstAdmitsCeiling(store: Table, id: string, calls: seq<Call>)
    requires id !in store && |calls| > 0
    requires forall i :: 0 <= i < |calls| ==>
      calls[i].id == id && Elapsed(calls[0].now, calls[i].now) <= WindowNanos
    ensures CountAdmitted(Run(store, calls).0) == Min(|calls|, MaxRequests)
  {
    var step := Admission(store, id, calls[0].now);
    UnseenIdentityAdmitted(store, id, calls[0].now);
    var next := step.1;
    assert next[id] == Entry(calls[0].now, 1);
    RunInsideWindow(next, id, calls[1..]);
    var rest := Run(next, calls[1..]);
    assert Run(store, calls).0 == [step.0] + rest.0;
    assert ([step.0] + rest.0)[1..] == rest.0;
  }

  /** The calls of a run that come from `id`. */
  function CallsOf(calls: seq<Call>, id: string): (r: seq<Call>)
    ensures |r| <= |calls|
    ensures forall i :: 0 <= i < |r| ==> r[i].id == id
  {
    if calls == [] then []
    else (if calls[0].id == id then [calls[0]] else []) + CallsOf(calls[1..], id)
  }

  /** The verdicts, among `results`, given to the calls from `id`. */
  function VerdictsOf(calls: seq<Call>, results: seq<Result<(), ApiError>>, id: string): (r: seq<Result<(), ApiError>>)
    requires |results| == |calls|
    ensures |r| == |CallsOf(calls, id)|
  {
    if calls == [] then []
    else (if calls[0].id == id then [results[0]] else []) + VerdictsOf(calls[1..], results[1..], id)
  }

  /** Two tables hold the same entry (or none) for `id`. */
  predicate AgreeOn(s1: Table, s2: Table, id: string)
  {
    (id in s1 <==> id in s2) && (id in s1 ==> s1[id] == s2[id])
  }

  /**
   * Isolation: the verdicts an identity receives, and the entry it ends
   * with, depend only on its own calls. Interleaving calls from other
   * identities changes nothing for it, so exhausting one identity's window
   * never refuses another.
   */
  lemma {:induction false} IdentitiesAreIsolated(s1: Table, s2: Table, calls: seq<Call>, id: string)
    requires AgreeOn(s1, s2, id)
    ensures VerdictsOf(calls, Run(s1, calls).0, id) == Run(s2, CallsOf(calls, id)).0
    ensures AgreeOn(Run(s1, calls).1, Run(s2, CallsOf(calls, id)).1, id)
    decreases |calls|
  {
    if calls != [] {
      var c := calls[0];
      var step1 := Admission(s1, c.id, c.now);
      var run1 := Run(step1.1, calls[1..]);
      assert Run(s1, calls) == ([step1.0] + run1.0, run1.1);
      assert ([step1.0] + run1.0)[1..] == run1.0;
      if c.id == id {
        var step2 := Admission(s2, id, c.now);
        assert step1.0 == step2.0;
        assert AgreeOn(step1.1, step2.1, id);
        IdentitiesAreIsolated(step1.1, step2.1, calls[1..], id);
        assert CallsOf(calls, id) == [c] + CallsOf(calls[1..], id);
        assert ([c] + CallsOf(calls[1..], id))[1..] == CallsOf(calls[1..], id);
      } else {
        assert AgreeOn(step1.1, s2, id);
        IdentitiesAreIsolated(step1.1, s2, calls[1..], id);
        assert CallsOf(calls, id) == CallsOf(calls[1..], id);
      }
    }
  }
}
