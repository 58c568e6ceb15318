/**
 The API client's request loop (frontend/lib/api.ts): bounded retries with exponential backoff,
 jitter, a cap, and the server's Retry-After. Arithmetic on milliseconds is exact here.
 */
module RetryLoop {
  import opened Wrappers

  /** What `Number(...)` makes of a header or body value. */
  datatype Number = NotANumber | Infinite | Finite(value: real)

  /** The parsed JSON body; `None` stands for a body that does not parse. */
  datatype Body = Body(data: int, retryAfterSeconds: Option<Number>)

  datatype Response = Response(status: int, retryAfter: Option<Number>, body: Option<Body>)

  /** `fetch` resolves to a response or rejects. */
  type Reply = Option<Response>

  datatype Outcome = Data(data: int) | Throws(status: int, retryAfterSeconds: Option<real>) | BodyUnreadable | NeverTried

  function StatusOf(reply: Reply): int { if reply.Some? then reply.value.status else 0 }

  predicate IsOk(reply: Reply) { reply.Some? && 200 <= reply.value.status <= 299 }

  predicate ShouldRetry(status: int) { status in {0, 408, 409, 425, 429} || status >= 500 }

  /** The header if there is one, even an unusable one; otherwise the body's field. Only a positive finite value counts. */
  function RetryAfterSeconds(reply: Reply): Option<real> {
    if reply.None? then None
    else
      var fromBody := if reply.value.body.Some? then reply.value.body.value.retryAfterSeconds else None;
      var raw := if reply.value.retryAfter.Some? then reply.value.retryAfter.value else fromBody.GetOr(NotANumber);
      if raw.Finite? && raw.value > 0.0 then Some(raw.value) else None
  }

  function Failure(reply: Reply): Outcome { Throws(StatusOf(reply), RetryAfterSeconds(reply)) }

  function Success(reply: Reply): Outcome
    requires IsOk(reply)
  {
    if reply.value.body.Some? then Data(reply.value.body.value.data) else BodyUnreadable
  }

  function Pow2(n: nat): nat { if n == 0 then 1 else 2 * Pow2(n - 1) }

  function MinReal(a: real, b: real): real { if a <= b then a else b }

  function MaxReal(a: real, b: real): real { if a <= b then b else a }

  /** `Math.round`: halves go up. */
  function Round(x: real): int { (x + 0.5).Floor }

  function Exponential(attempt: nat, base: nat, cap: nat): real
    requires attempt >= 1
  {
    Capped(cap, base * Pow2(attempt - 1))
  }

  function Capped(cap: nat, x: nat): real { MinReal(cap as real, x as real) }

  function Jittered(e: real, random: real): real { e * (0.75 + random * 0.5) }

  /** `retryDelay`; `random` is the value of `Math.random()`. */
  function Backoff(attempt: nat, base: nat, cap: nat, random: real): real
    requires attempt >= 1
  {
    var jitter := Round(Jittered(Exponential(attempt, base, cap), random)) as real;
    MinReal(cap as real, jitter)
  }

  function Delay(attempt: nat, base: nat, cap: nat, random: real, reply: Reply): real
    requires attempt >= 1
  {
    var backoff := Backoff(attempt, base, cap, random);
    var after := RetryAfterSeconds(reply);
    if after.Some? then MaxReal(backoff, after.value * 1000.0) else backoff
  }

  /** What a caller is told of the reply the loop stopped at. */
  ghost predicate Reports(reply: Reply, out: Outcome) {
    match out
    case Data(data) => reply.Some? && 200 <= reply.value.status <= 299 && reply.value.body.Some? && reply.value.body.value.data == data
    case BodyUnreadable => reply.Some? && 200 <= reply.value.status <= 299 && reply.value.body.None?
    case Throws(status, after) =>
      && after == RetryAfterSeconds(reply)
      && if reply.None? then status == 0 else status == reply.value.status && (status < 200 || status > 299)
    case NeverTried => false
  }

  /** The loop goes on after this reply, attempts permitting. */
  predicate Transient(reply: Reply) { !IsOk(reply) && ShouldRetry(StatusOf(reply)) }

  /**
   The request loop against any sequence of replies and random numbers, counted from 1. It stops at
   the first reply that is not transient, or at the last attempt; it waits after each earlier one.
   */
  method Request(maxAttempts: int, base: nat, cap: nat, fetch: nat -> Reply, random: nat -> real)
    returns (out: Outcome, fetches: nat, waits: seq<real>)
    ensures maxAttempts < 1 ==> fetches == 0 && waits == [] && out == NeverTried
    ensures maxAttempts >= 1 ==>
              && 1 <= fetches <= maxAttempts && |waits| == fetches - 1
              && (forall k :: 1 <= k < fetches ==> Transient(fetch(k)))
              && (Transient(fetch(fetches)) ==> fetches == maxAttempts)
              && (forall k :: 1 <= k < fetches ==> waits[k - 1] == Delay(k, base, cap, random(k), fetch(k)))
              && Reports(fetch(fetches), out)
  {
    fetches, waits := 0, [];
    var lastError: Option<Outcome> := None;
    var attempt: nat := 1;
    while attempt <= maxAttempts
      invariant 1 <= attempt && fetches == attempt - 1 == |waits|
      invariant attempt <= maxAttempts || (maxAttempts < 1 && attempt == 1)
      invariant lastError.None? <==> attempt == 1
      invariant forall k :: 1 <= k < attempt ==> Transient(fetch(k)) && waits[k - 1] == Delay(k, base, cap, random(k), fetch(k))
    {
      var reply := fetch(attempt);
      fetches := attempt;
      if IsOk(reply) {
        return Success(reply), fetches, waits;
      }
      lastError := Some(Failure(reply));
      if attempt >= maxAttempts || !ShouldRetry(StatusOf(reply)) {
        return lastError.value, fetches, waits;
      }
      var backoff := Backoff(attempt, base, cap, random(attempt));
      var after := RetryAfterSeconds(reply);
      var delay := if after.Some? then MaxReal(backoff, after.value * 1000.0) else backoff;
      waits := waits + [delay];
      attempt := attempt + 1;
    }
    out := lastError.GetOr(NeverTried);
  }

  /** The contract leaves no freedom: replies and limit decide after how many attempts the loop stops. */
  lemma StopsOnce(maxAttempts: int, fetch: nat -> Reply, a: nat, b: nat)
    requires 1 <= a <= maxAttempts && (forall k :: 1 <= k < a ==> Transient(fetch(k))) && (Transient(fetch(a)) ==> a == maxAttempts)
    requires 1 <= b <= maxAttempts && (forall k :: 1 <= k < b ==> Transient(fetch(k))) && (Transient(fetch(b)) ==> b == maxAttempts)
    ensures a == b
  {
  }

  /** Worth another try: no reply at all, five statuses that pass, and every failure of the server; no other status ever is. */
  lemma WhenTransient(reply: Reply)
    ensures reply.None? ==> Transient(reply)
    ensures reply.Some? ==> var status := reply.value.status;
                            Transient(reply) <==> status >= 500 || status == 0 || status == 408 || status == 409 || status == 425 || status == 429
  {
  }

  /** A wait the server asks for is positive and comes from the header or, only without one, from the body. */
  lemma WhenAWaitIsAsked(reply: Reply, seconds: real)
    ensures RetryAfterSeconds(reply) == Some(seconds) <==>
            && seconds > 0.0 && reply.Some?
            && var asked := Some(Finite(seconds));
               || reply.value.retryAfter == Some(asked.value)
               || (reply.value.retryAfter.None? && reply.value.body.Some? && reply.value.body.value.retryAfterSeconds == asked)
  {
  }

  // --- Bounds on the waits --------------------------------------------------------------------

  predicate Random(r: real) { 0.0 <= r < 1.0 }

  /** A wait is never shorter than a positive Retry-After, nor than the backoff. */
  lemma WaitsHonourRetryAfter(attempt: nat, base: nat, cap: nat, random: real, reply: Reply)
    requires attempt >= 1
    ensures Delay(attempt, base, cap, random, reply) >= Backoff(attempt, base, cap, random)
    ensures RetryAfterSeconds(reply).Some? ==> Delay(attempt, base, cap, random, reply) >= RetryAfterSeconds(reply).value * 1000.0 > 0.0
    ensures RetryAfterSeconds(reply).None? ==> Delay(attempt, base, cap, random, reply) <= cap as real
    ensures Delay(attempt, base, cap, random, reply) > Backoff(attempt, base, cap, random) ==>
              RetryAfterSeconds(reply) == Some(Delay(attempt, base, cap, random, reply) / 1000.0)
  {
  }

  lemma RoundMonotone(x: real, y: real)
    requires x <= y
    ensures Round(x) <= Round(y)
  {
  }

  lemma ScaleMonotone(a: real, b: real, f: real)
    requires a <= b && f >= 0.0
    ensures a * f <= b * f && f * a <= f * b
  {
  }

  lemma JitterBounds(e: real, random: real)
    requires e >= 0.0 && Random(random)
    ensures 0.75 * e <= Jittered(e, random) <= 1.25 * e
  {
    ScaleMonotone(0.75, 0.75 + random * 0.5, e);
    ScaleMonotone(0.75 + random * 0.5, 1.25, e);
  }

  lemma RoundBelow(x: real, n: int)
    requires x <= n as real
    ensures Round(x) <= n
  {
  }

  /** Each backoff lies between three quarters of the capped exponential, rounded, and the cap. */
  lemma BackoffBounds(attempt: nat, base: nat, cap: nat, random: real)
    requires attempt >= 1 && Random(random)
    ensures var e := Exponential(attempt, base, cap);
            0.0 <= Round(0.75 * e) as real <= Backoff(attempt, base, cap, random) <= MinReal(cap as real, 1.25 * e + 0.5)
  {
    var e := Exponential(attempt, base, cap);
    JitterBounds(e, random);
    hide Jittered, Exponential;
    RoundMonotone(0.75 * e, Jittered(e, random));
    RoundBelow(0.75 * e, cap);
  }

  lemma {:induction false} Pow2Positive(n: nat)
    ensures Pow2(n) >= 1 && Pow2(n + 1) == 2 * Pow2(n)
  {
    if n > 0 { Pow2Positive(n - 1); }
  }

  lemma ExponentialGrows(attempt: nat, base: nat, cap: nat)
    requires attempt >= 1
    ensures Exponential(attempt, base, cap) <= Exponential(attempt + 1, base, cap)
  {
  }

  /** The exponential starts at the base and doubles up to the cap. */
  lemma ExponentialDoubles(attempt: nat, base: nat, cap: nat)
    requires attempt >= 1
    ensures Exponential(1, base, cap) == if base <= cap then base as real else cap as real
    ensures var next := 2.0 * Exponential(attempt, base, cap);
            Exponential(attempt + 1, base, cap) == if next <= cap as real then next else cap as real
  {
    assert base * Pow2(0) == base;
    var x := base * Pow2(attempt - 1);
    assert Pow2(attempt) == 2 * Pow2(attempt - 1);
    assert base * Pow2(attempt) == 2 * x;
    hide Pow2;
  }

  lemma ExponentialIsWhole(attempt: nat, base: nat, cap: nat) returns (n: nat)
    requires attempt >= 1
    ensures n <= cap && Exponential(attempt, base, cap) == n as real
  {
    var x := base * Pow2(attempt - 1);
    n := if x <= cap then x else cap;
  }

  lemma RoundWhole(n: nat, e: real)
    requires e == n as real
    ensures Round(Jittered(e, 0.5)) == n
  {
    assert Jittered(e, 0.5) == e;
  }

  /** A random number in the middle leaves the exponential as it is, and a larger one never waits less. */
  lemma JitterIsCentred(attempt: nat, base: nat, cap: nat, random: real, other: real)
    requires attempt >= 1 && random <= other
    ensures Backoff(attempt, base, cap, 0.5) == Exponential(attempt, base, cap)
    ensures Backoff(attempt, base, cap, random) <= Backoff(attempt, base, cap, other)
  {
    var n := ExponentialIsWhole(attempt, base, cap);
    var e := Exponential(attempt, base, cap);
    hide Exponential;
    RoundWhole(n, e);
    ScaleMonotone(0.75 + random * 0.5, 0.75 + other * 0.5, e);
    assert Jittered(e, random) <= Jittered(e, other) by { assert e >= 0.0; }
    hide Jittered;
    RoundMonotone(Jittered(e, random), Jittered(e, other));
  }

  /** With the same random number a later attempt never waits less. */
  lemma BackoffGrows(attempt: nat, base: nat, cap: nat, random: real)
    requires attempt >= 1 && Random(random)
    ensures Backoff(attempt, base, cap, random) <= Backoff(attempt + 1, base, cap, random)
  {
    ExponentialGrows(attempt, base, cap);
    var e, e' := Exponential(attempt, base, cap), Exponential(attempt + 1, base, cap);
    ScaleMonotone(e, e', 0.75 + random * 0.5);
    hide Exponential;
    RoundMonotone(Jittered(e, random), Jittered(e', random));
  }

  /** The backoffs of the first `n` attempts, in sum. */
  function TotalBackoff(n: nat, base: nat, cap: nat, random: nat -> real): real {
    if n == 0 then 0.0 else TotalBackoff(n - 1, base, cap, random) + Backoff(n, base, cap, random(n))
  }

  lemma {:induction false} TotalBelowCaps(n: nat, base: nat, cap: nat, random: nat -> real)
    requires forall k :: Random(random(k))
    ensures TotalBackoff(n, base, cap, random) <= (n * cap) as real
  {
    if n > 0 {
      TotalBelowCaps(n - 1, base, cap, random);
      assert Backoff(n, base, cap, random(n)) <= cap as real;
      hide Backoff;
      assert n * cap == (n - 1) * cap + cap;
    }
  }

  /** One more term of the series. */
  lemma SeriesStep(n: nat, base: nat, cap: nat, random: real)
    requires n >= 1 && Random(random)
    ensures Backoff(n, base, cap, random) <= 1.25 * (base * (Pow2(n) - 1)) as real - 1.25 * (base * (Pow2(n - 1) - 1)) as real + 0.5
  {
    BackoffBounds(n, base, cap, random);
    Pow2Positive(n - 1);
    var x := base * Pow2(n - 1);
    assert Exponential(n, base, cap) <= x as real;
    assert base * (Pow2(n) - 1) == base * (Pow2(n - 1) - 1) + x;
  }

  /** In sum the backoffs stay below both the cap per wait and the geometric series with its jitter and rounding. */
  lemma {:induction false} TotalBackoffBounds(n: nat, base: nat, cap: nat, random: nat -> real)
    requires forall k :: Random(random(k))
    ensures TotalBackoff(n, base, cap, random) <= (n * cap) as real
    ensures TotalBackoff(n, base, cap, random) <= 1.25 * (base * (Pow2(n) - 1)) as real + n as real / 2.0
  {
    TotalBelowCaps(n, base, cap, random);
    if n > 0 {
      TotalBackoffBounds(n - 1, base, cap, random);
      SeriesStep(n, base, cap, random(n));
      hide Backoff;
    }
  }

  function Sum(waits: seq<real>): real {
    if waits == [] then 0.0 else Sum(waits[..|waits| - 1]) + waits[|waits| - 1]
  }

  /** The waits of a request whose replies carry no Retry-After add up to its backoffs, so both bounds apply to the whole request. */
  lemma {:induction false} TotalWait(waits: seq<real>, base: nat, cap: nat, fetch: nat -> Reply, random: nat -> real)
    requires forall k :: Random(random(k))
    requires forall k :: 1 <= k <= |waits| ==> RetryAfterSeconds(fetch(k)).None? && waits[k - 1] == Delay(k, base, cap, random(k), fetch(k))
    ensures Sum(waits) == TotalBackoff(|waits|, base, cap, random) <= (|waits| * cap) as real
    ensures Sum(waits) <= 1.25 * (base * (Pow2(|waits|) - 1)) as real + |waits| as real / 2.0
  {
    TotalBackoffBounds(|waits|, base, cap, random);
    if waits != [] {
      TotalWait(waits[..|waits| - 1], base, cap, fetch, random);
    }
  }
}
