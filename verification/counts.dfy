/**
 * The outcome tally behind a breaker (Go's `counts`): five unsigned 32-bit
 * counters, updated in place by `onRequest`, `onSuccess`, `onFailure` and
 * `reset`, and handed by value to the trip predicate.
 */
module Counting {

  const Modulus: int := 0x1_0000_0000

  /** Go's `uint32`. */
  newtype Uint32 = x: int | 0 <= x < 0x1_0000_0000

  /** Go's `x++` on a `uint32`: the largest value wraps around to zero. */
  function Inc(x: Uint32): (r: Uint32)
    ensures r as int == (x as int + 1) % Modulus
  {
    if x as int == Modulus - 1 then 0 else x + 1
  }

  /** A copy of the tally, as `readyToTrip` receives it. */
  datatype CountsValue = CountsValue(
    requests: Uint32,
    totalSuccesses: Uint32,
    totalFailures: Uint32,
    consecutiveSuccesses: Uint32,
    consecutiveFailures: Uint32)

  /** The zero value of `counts`, which is also what `reset` leaves. */
  const Zero := CountsValue(0, 0, 0, 0, 0)

  /** The two streak counters are never both non-zero. */
  predicate StreakInvariant(c: CountsValue) {
    c.consecutiveSuccesses == 0 || c.consecutiveFailures == 0
  }

  /** `defaultReadyToTrip`: trip after more than five failures in a row. */
  predicate DefaultReadyToTrip(c: CountsValue)
    ensures DefaultReadyToTrip(c) <==> c.consecutiveFailures >= 6
  {
    c.consecutiveFailures > 5
  }

  // The effect of each mutator on a snapshot; the methods of `Counts` are proved against these.

  function AfterRequest(c: CountsValue): (r: CountsValue)
    ensures StreakInvariant(r) <==> StreakInvariant(c)
    ensures DefaultReadyToTrip(r) <==> DefaultReadyToTrip(c)
  {
    c.(requests := Inc(c.requests))
  }

  function AfterSuccess(c: CountsValue): (r: CountsValue)
    ensures StreakInvariant(r)
    ensures !DefaultReadyToTrip(r)
  {
    c.(totalSuccesses := Inc(c.totalSuccesses),
       consecutiveSuccesses := Inc(c.consecutiveSuccesses),
       consecutiveFailures := 0)
  }

  function AfterFailure(c: CountsValue): (r: CountsValue)
    ensures StreakInvariant(r)
    ensures r.consecutiveSuccesses == 0
  {
    c.(totalFailures := Inc(c.totalFailures),
       consecutiveFailures := Inc(c.consecutiveFailures),
       consecutiveSuccesses := 0)
  }

  /** The tally as a Go struct whose fields the pointer-receiver methods overwrite. */
  class Counts {
    var requests: Uint32
    var totalSuccesses: Uint32
    var totalFailures: Uint32
    var consecutiveSuccesses: Uint32
    var consecutiveFailures: Uint32

    function Value(): CountsValue
      reads this
    {
      CountsValue(requests, totalSuccesses, totalFailures, consecutiveSuccesses, consecutiveFailures)
    }

    /** A Go `counts{}`: every counter starts at zero. */
    constructor ()
      ensures Value() == Zero
    {
      requests, totalSuccesses, totalFailures := 0, 0, 0;
      consecutiveSuccesses, consecutiveFailures := 0, 0;
    }

    method OnRequest()
      modifies this
      ensures requests == Inc(old(requests))
      ensures totalSuccesses == old(totalSuccesses) && totalFailures == old(totalFailures)
      ensures consecutiveSuccesses == old(consecutiveSuccesses)
      ensures consecutiveFailures == old(consecutiveFailures)
      ensures Value() == AfterRequest(old(Value()))
      ensures StreakInvariant(Value()) <==> old(StreakInvariant(Value()))
    {
      requests := Inc(requests);
    }

    method OnSuccess()
      modifies this
      ensures totalSuccesses == Inc(old(totalSuccesses))
      ensures consecutiveSuccesses == Inc(old(consecutiveSuccesses))
      ensures consecutiveFailures == 0
      ensures requests == old(requests) && totalFailures == old(totalFailures)
      ensures Value() == AfterSuccess(old(Value()))
      ensures StreakInvariant(Value())
    {
      totalSuccesses := Inc(totalSuccesses);
      consecutiveSuccesses := Inc(consecutiveSuccesses);
      consecutiveFailures := 0;
    }

    method OnFailure()
      modifies this
      ensures totalFailures == Inc(old(totalFailures))
      ensures consecutiveFailures == Inc(old(consecutiveFailures))
      ensures consecutiveSuccesses == 0
      ensures requests == old(requests) && totalSuccesses == old(totalSuccesses)
      ensures Value() == AfterFailure(old(Value()))
      ensures StreakInvariant(Value())
    {
      totalFailures := Inc(totalFailures);
      consecutiveFailures := Inc(consecutiveFailures);
      consecutiveSuccesses := 0;
    }

    method Reset()
      modifies this
      ensures Value() == Zero
      ensures StreakInvariant(Value())
    {
      requests := 0;
      totalSuccesses := 0;
      totalFailures := 0;
      consecutiveSuccesses := 0;
      consecutiveFailures := 0;
    }
  }

  // Sequences of calls on one tally.

  /** One call on the tally: `onRequest`, `onSuccess`, `onFailure` or `reset`. */
  datatype Event = RequestCall | SuccessCall | FailureCall | ResetCall

  function Step(c: CountsValue, e: Event): CountsValue {
    match e
    case RequestCall => AfterRequest(c)
    case SuccessCall => AfterSuccess(c)
    case FailureCall => AfterFailure(c)
    case ResetCall => Zero
  }

  /** The tally after the calls `es`, in order, starting from `c`. */
  function Run(c: CountsValue, es: seq<Event>): CountsValue
    decreases |es|
  {
    if es == [] then c else Step(Run(c, es[..|es| - 1]), es[|es| - 1])
  }

  function Failures(n: nat): seq<Event> {
    seq(n, _ => FailureCall)
  }

  lemma {:induction false} RunAppend(c: CountsValue, a: seq<Event>, b: seq<Event>)
    ensures Run(c, a + b) == Run(Run(c, a), b)
    decreases |b|
  {
    if b == [] {
      assert a + b == a;
    } else {
      assert (a + b)[..|a + b| - 1] == a + b[..|b| - 1];
      RunAppend(c, a, b[..|b| - 1]);
    }
  }

  /** Whatever the calls, the streak counters are never both non-zero. */
  lemma {:induction false} RunKeepsStreakInvariant(c: CountsValue, es: seq<Event>)
    requires StreakInvariant(c)
    ensures StreakInvariant(Run(c, es))
    decreases |es|
  {
    if es != [] {
      RunKeepsStreakInvariant(c, es[..|es| - 1]);
    }
  }

  /** `n` failures in a row add `n` (modulo 2^32) to both failure counters and touch nothing else. */
  lemma {:induction false} RunFailures(c: CountsValue, n: nat)
    ensures Run(c, Failures(n)).consecutiveFailures as int == (c.consecutiveFailures as int + n) % Modulus
    ensures Run(c, Failures(n)).totalFailures as int == (c.totalFailures as int + n) % Modulus
    ensures n > 0 ==> Run(c, Failures(n)).consecutiveSuccesses == 0
    ensures Run(c, Failures(n)).requests == c.requests
    ensures Run(c, Failures(n)).totalSuccesses == c.totalSuccesses
  {
    if n > 0 {
      assert Failures(n)[..n - 1] == Failures(n - 1);
      var prev := Run(c, Failures(n - 1));
      assert Run(c, Failures(n)) == AfterFailure(prev);
      RunFailures(c, n - 1);
      IncMod(c.consecutiveFailures as int + n - 1, prev.consecutiveFailures);
      IncMod(c.totalFailures as int + n - 1, prev.totalFailures);
    }
  }

  lemma IncMod(k: int, x: Uint32)
    requires x as int == k % Modulus
    ensures Inc(x) as int == (k + 1) % Modulus
  {
  }

  /**
   * Once the failure streak is zero (a fresh or reset tally, or just after a
   * success), the default trip predicate holds after `n` further failures
   * exactly when `n`, taken modulo 2^32, exceeds five.
   */
  lemma TripAfterFailures(d: CountsValue, n: nat)
    requires d.consecutiveFailures == 0
    ensures DefaultReadyToTrip(Run(d, Failures(n))) <==> n % Modulus > 5
  {
    RunFailures(d, n);
  }

  /** From a reset tally exactly six failures are needed to trip; a success disarms it again. */
  lemma SixFailuresTrip(c: CountsValue)
    ensures !DefaultReadyToTrip(Run(c, [ResetCall] + Failures(5)))
    ensures DefaultReadyToTrip(Run(c, [ResetCall] + Failures(6)))
    ensures !DefaultReadyToTrip(Run(c, [ResetCall] + Failures(6) + [SuccessCall]))
  {
    assert Run(c, [ResetCall]) == Zero;
    RunAppend(c, [ResetCall], Failures(5));
    RunAppend(c, [ResetCall], Failures(6));
    TripAfterFailures(Zero, 5);
    TripAfterFailures(Zero, 6);
  }

  /** The failure streak wraps: 2^32 failures after a reset read as no failures at all. */
  lemma StreakWrapsAround(c: CountsValue)
    ensures !DefaultReadyToTrip(Run(c, [ResetCall] + Failures(Modulus)))
  {
    assert Run(c, [ResetCall]) == Zero;
    RunAppend(c, [ResetCall], Failures(Modulus));
    TripAfterFailures(Zero, Modulus);
  }

  /** Successes plus failures equal requests, modulo 2^32. */
  predicate Balanced(c: CountsValue) {
    (c.totalSuccesses as int + c.totalFailures as int) % Modulus == c.requests as int
  }

  /** A request followed by its one outcome keeps the totals balanced; a reset restores the balance. */
  lemma RequestThenOutcomeBalanced(c: CountsValue, outcome: Event)
    requires Balanced(c)
    requires outcome == SuccessCall || outcome == FailureCall
    ensures Balanced(Run(c, [RequestCall, outcome]))
    ensures Balanced(Run(c, [ResetCall]))
  {
    assert [RequestCall, outcome][..1] == [RequestCall];
    assert [RequestCall][..0] == [];
    var q := AfterRequest(c);
    assert Run(c, [RequestCall]) == q;
    var r := Run(c, [RequestCall, outcome]);
    assert r == Step(q, outcome);
    var s, f := c.totalSuccesses as int, c.totalFailures as int;
    ModShift(s + f, 1);
    assert r.requests as int == (s + f + 1) % Modulus;
    if outcome == SuccessCall {
      ModShift(s + 1, f);
      assert r.totalSuccesses as int == (s + 1) % Modulus && r.totalFailures as int == f;
    } else {
      ModShift(f + 1, s);
      assert r.totalFailures as int == (f + 1) % Modulus && r.totalSuccesses as int == s;
    }
  }

  lemma ModShift(a: int, b: int)
    ensures (a % Modulus + b) % Modulus == (a + b) % Modulus
  {
  }

  /**
   * Starting from a reset tally, record failures on a `Counts` object until the
   * default trip predicate holds and return how many were needed.
   */
  method FailuresUntilTrip() returns (n: nat)
    ensures n == 6
  {
    var c := new Counts();
    c.Reset();
    n := 0;
    while !DefaultReadyToTrip(c.Value())
      invariant c.consecutiveFailures as int == n <= 6
      decreases 6 - n
    {
      c.OnFailure();
      n := n + 1;
    }
  }
}
