/**
 * The token bucket, with its fractions taken as exact.
 *
 * Take works on fractions of a token, as the code does. Under one rule those
 * fractions are always whole nanoseconds over the interval, so the same bucket
 * can be run on whole numbers; the two are shown to agree, and what is promised
 * of the bucket is proved on the whole numbers.
 */
module TokenBucket {
  import opened BookingStatus

  const SECOND: int := 1_000_000_000

  /** Interval is in nanoseconds. */
  datatype Bucket = Bucket(burst: int, interval: int) {
    predicate IsUsable() {
      burst >= 1 && interval > 0
    }

    function FullRefill(): int {
      burst * interval
    }
  }

  /** A zero instant means the caller has not been seen. */
  datatype State = State(tokens: real, updatedAt: Instant)
  const UNSEEN := State(0.0, ZERO)

  datatype Decision = Decision(allowed: bool, remaining: int, retryAfter: int)

  function Max(a: int, b: int): int {
    if a > b then a else b
  }

  function Min(a: int, b: int): int {
    if a < b then a else b
  }

  // ---- As the code has it ----

  /** Tokens on hand at an instant: what was left, what came back since, and no more than the bucket holds. */
  function Available(b: Bucket, state: State, now: Instant): real
    requires b.IsUsable()
  {
    var tokens :=
      if state.updatedAt == ZERO then b.burst as real
      else state.tokens + Max(now - state.updatedAt, 0) as real / b.interval as real;
    if tokens > b.burst as real then b.burst as real else tokens
  }

  /** Up to the next whole second, and at least one. */
  function RoundUp(wait: int): int {
    var up := if wait % SECOND != 0 then wait + SECOND - wait % SECOND else wait;
    if up < SECOND then SECOND else up
  }

  function WaitFor(missing: real, interval: int): int {
    RoundUp((missing * interval as real).Floor)
  }

  function Spend(tokens: real, interval: int, now: Instant): (State, Decision) {
    if tokens < 1.0 then
      (State(tokens, now), Decision(false, 0, WaitFor(1.0 - tokens, interval)))
    else
      (State(tokens - 1.0, now), Decision(true, (tokens - 1.0).Floor, 0))
  }

  function Take(b: Bucket, state: State, now: Instant): (State, Decision) {
    if !b.IsUsable() then (state, Decision(false, 0, 0)) else Spend(Available(b, state, now), b.interval, now)
  }

  // ---- On whole numbers ----

  /** Credit is tokens times interval: nanoseconds of refill on hand. */
  datatype Units = Units(credit: int, updatedAt: Instant)

  function CreditAt(b: Bucket, u: Units, now: Instant): int {
    if u.updatedAt == ZERO then b.FullRefill()
    else Min(b.FullRefill(), u.credit + Max(now - u.updatedAt, 0))
  }

  function SpendUnits(credit: int, interval: int, now: Instant): (Units, Decision)
    requires interval > 0
  {
    if credit < interval then
      (Units(credit, now), Decision(false, 0, RoundUp(interval - credit)))
    else
      (Units(credit - interval, now), Decision(true, (credit - interval) / interval, 0))
  }

  function TakeUnits(b: Bucket, u: Units, now: Instant): (Units, Decision)
    requires b.IsUsable()
  {
    SpendUnits(CreditAt(b, u, now), b.interval, now)
  }

  /** The fraction is the credit over the interval. */
  predicate Matches(b: Bucket, state: State, u: Units)
    requires b.IsUsable()
  {
    state.updatedAt == u.updatedAt &&
    (u.updatedAt != ZERO ==> state.tokens == u.credit as real / b.interval as real)
  }

  lemma Ratio(a: int, b: int, d: int)
    requires d > 0
    ensures a as real / d as real + b as real / d as real == (a + b) as real / d as real
    ensures a as real / d as real - b as real / d as real == (a - b) as real / d as real
    ensures a as real / d as real <= b as real / d as real <==> a <= b
    ensures (a as real / d as real) * d as real == a as real
  {
    var x, y, z := a as real / d as real, b as real / d as real, d as real;
    assert x * z == a as real && y * z == b as real;
    assert (x + y) * z == (a + b) as real;
    assert (x - y) * z == (a - b) as real;
    if x <= y {
      assert x * z <= y * z;
    }
    if a <= b {
      assert (y - x) * z >= 0.0;
    }
  }

  lemma Whole(n: int, d: int)
    requires d > 0
    ensures (n * d) as real / d as real == n as real
  {
    var x := (n * d) as real / d as real;
    assert x * d as real == (n * d) as real == n as real * d as real;
  }

  lemma FloorOfRatio(a: int, d: int)
    requires d > 0
    ensures (a as real / d as real).Floor == a / d
  {
    var q := a / d;
    Whole(q, d);
    Whole(q + 1, d);
    assert q * d <= a < (q + 1) * d;
    Ratio(q * d, a, d);
    Ratio((q + 1) * d, a, d);
  }

  lemma AvailableIsCredit(b: Bucket, state: State, u: Units, now: Instant)
    requires b.IsUsable() && Matches(b, state, u)
    ensures Available(b, state, now) == CreditAt(b, u, now) as real / b.interval as real
  {
    Whole(b.burst, b.interval);
    if u.updatedAt != ZERO {
      var elapsed := Max(now - u.updatedAt, 0);
      Ratio(u.credit, elapsed, b.interval);
      Ratio(b.FullRefill(), u.credit + elapsed, b.interval);
    }
  }

  /** One token more or less, said of the fraction and of the credit. */
  lemma OneToken(c: int, d: int, tokens: real)
    requires d > 0 && tokens == c as real / d as real
    ensures tokens < 1.0 <==> c < d
    ensures tokens - 1.0 == (c - d) as real / d as real
    ensures (tokens - 1.0).Floor == (c - d) / d
  {
    Whole(1, d);
    assert d as real / d as real == 1.0;
    Ratio(d, c, d);
    Ratio(c, d, d);
    FloorOfRatio(c - d, d);
  }

  /** What is missing of one token, counted in credit. */
  lemma MissingIsWhole(c: int, d: real, tokens: real)
    requires tokens * d == c as real
    ensures (1.0 - tokens) * d == d - c as real
  {
  }

  lemma WaitOfWhole(missing: real, interval: int, n: int)
    requires missing * interval as real == n as real
    ensures WaitFor(missing, interval) == RoundUp(n)
  {
  }

  lemma WaitsAgree(credit: int, interval: int, tokens: real)
    requires interval > 0 && tokens == credit as real / interval as real
    ensures WaitFor(1.0 - tokens, interval) == RoundUp(interval - credit)
  {
    Ratio(credit, 0, interval);
    MissingIsWhole(credit, interval as real, tokens);
    WaitOfWhole(1.0 - tokens, interval, interval - credit);
  }

  /** What a spend comes to, given what one token is on either side. */
  lemma SpendByCases(credit: int, interval: int, tokens: real, left: int, wait: int, now: Instant)
    requires interval > 0 && (tokens < 1.0 <==> credit < interval)
    requires left == (tokens - 1.0).Floor == (credit - interval) / interval
    requires wait == WaitFor(1.0 - tokens, interval) == RoundUp(interval - credit)
    ensures Spend(tokens, interval, now).1 == SpendUnits(credit, interval, now).1
    ensures Spend(tokens, interval, now).0 == State(if credit < interval then tokens else tokens - 1.0, now)
    ensures SpendUnits(credit, interval, now).0 == Units(if credit < interval then credit else credit - interval, now)
  {
  }

  lemma SpendsAgree(credit: int, interval: int, tokens: real, now: Instant)
    requires interval > 0 && tokens == credit as real / interval as real
    ensures Spend(tokens, interval, now).1 == SpendUnits(credit, interval, now).1
    ensures Spend(tokens, interval, now).0.tokens == SpendUnits(credit, interval, now).0.credit as real / interval as real
  {
    OneToken(credit, interval, tokens);
    WaitsAgree(credit, interval, tokens);
    SpendByCases(credit, interval, tokens, (tokens - 1.0).Floor, WaitFor(1.0 - tokens, interval), now);
  }

  /** The bucket of fractions and the bucket of whole numbers answer alike and stay matched. */
  lemma {:induction false} TakesAgree(b: Bucket, state: State, u: Units, now: Instant)
    requires b.IsUsable() && Matches(b, state, u)
    ensures Take(b, state, now).1 == TakeUnits(b, u, now).1
    ensures Matches(b, Take(b, state, now).0, TakeUnits(b, u, now).0)
  {
    AvailableIsCredit(b, state, u, now);
    SpendsAgree(CreditAt(b, u, now), b.interval, Available(b, state, now), now);
  }

  // ---- Runs of one key under one rule ----

  function StateAfter(b: Bucket, times: seq<Instant>): State {
    if times == [] then UNSEEN else Take(b, StateAfter(b, times[..|times| - 1]), times[|times| - 1]).0
  }

  /** The answer to request n of a run. */
  function AnswerAt(b: Bucket, times: seq<Instant>, n: nat): Decision
    requires n < |times|
  {
    Take(b, StateAfter(b, times[..n]), times[n]).1
  }

  /** How many of the requests i..n, the last not included, were allowed. */
  function AllowedBetween(b: Bucket, times: seq<Instant>, i: nat, n: nat): nat
    requires i <= n <= |times|
    decreases n
  {
    if i == n then 0 else AllowedBetween(b, times, i, n - 1) + if AnswerAt(b, times, n - 1).allowed then 1 else 0
  }

  /** How far the clock moved forward between two requests; steps back count for nothing. */
  function Forward(times: seq<Instant>, i: nat, n: nat): nat
    requires i <= n < |times|
    decreases n
  {
    if i == n then 0 else Forward(times, i, n - 1) + Max(times[n] - times[n - 1], 0)
  }

  function UnitsAfter(b: Bucket, times: seq<Instant>): Units
    requires b.IsUsable()
  {
    if times == [] then Units(0, ZERO) else TakeUnits(b, UnitsAfter(b, times[..|times| - 1]), times[|times| - 1]).0
  }

  lemma {:induction false} RunsAgree(b: Bucket, times: seq<Instant>)
    requires b.IsUsable()
    ensures Matches(b, StateAfter(b, times), UnitsAfter(b, times))
  {
    if times != [] {
      var front := times[..|times| - 1];
      RunsAgree(b, front);
      TakesAgree(b, StateAfter(b, front), UnitsAfter(b, front), times[|times| - 1]);
    }
  }

  predicate AllSet(times: seq<Instant>) {
    forall k :: 0 <= k < |times| ==> times[k] != ZERO
  }

  // The run once more, as the credit alone: full is what a full bucket holds.

  function Level(full: int, interval: int, times: seq<Instant>, n: nat): int
    requires n < |times|
    decreases n, 1
  {
    if n == 0 then full
    else Min(full, Level(full, interval, times, n - 1) - Cost(full, interval, times, n - 1) + Max(times[n] - times[n - 1], 0))
  }

  function Cost(full: int, interval: int, times: seq<Instant>, n: nat): int
    requires n < |times|
    decreases n, 2
  {
    if Level(full, interval, times, n) >= interval then interval else 0
  }

  function SpentBetween(full: int, interval: int, times: seq<Instant>, i: nat, n: nat): int
    requires i <= n < |times|
    decreases n
  {
    if i == n then 0 else SpentBetween(full, interval, times, i, n - 1) + Cost(full, interval, times, n - 1)
  }

  /** What the last requests, from some i on, leave of a bucket that was full when request i came. */
  function Budget(full: int, interval: int, times: seq<Instant>, i: nat, n: nat): int
    requires i <= n < |times|
  {
    full + Forward(times, i, n) - SpentBetween(full, interval, times, i, n)
  }

  /** The credit on hand is the tightest of those budgets, and one of them is met exactly. */
  lemma {:induction false} LevelIsTightest(full: int, interval: int, times: seq<Instant>, n: nat) returns (tightest: nat)
    requires n < |times|
    ensures forall i: nat :: i <= n ==> Level(full, interval, times, n) <= Budget(full, interval, times, i, n)
    ensures tightest <= n && Level(full, interval, times, n) == Budget(full, interval, times, tightest, n)
    decreases n
  {
    if n == 0 {
      tightest := 0;
    } else {
      var w := LevelIsTightest(full, interval, times, n - 1);
      forall i: nat | i < n
        ensures Budget(full, interval, times, i, n)
             == Budget(full, interval, times, i, n - 1) + Max(times[n] - times[n - 1], 0) - Cost(full, interval, times, n - 1)
      {
      }
      tightest := if Level(full, interval, times, n) == full then n else w;
    }
  }

  lemma {:induction false} CreditIsLevel(b: Bucket, times: seq<Instant>, n: nat)
    requires b.IsUsable() && AllSet(times) && n < |times|
    ensures CreditAt(b, UnitsAfter(b, times[..n]), times[n]) == Level(b.FullRefill(), b.interval, times, n)
    decreases n
  {
    if n > 0 {
      CreditIsLevel(b, times, n - 1);
      assert times[..n][..n - 1] == times[..n - 1] && times[..n][n - 1] == times[n - 1];
    }
  }

  lemma {:induction false} AllowedByLevel(b: Bucket, times: seq<Instant>, n: nat)
    requires b.IsUsable() && AllSet(times) && n < |times|
    ensures AnswerAt(b, times, n).allowed <==> Level(b.FullRefill(), b.interval, times, n) >= b.interval
    ensures !AnswerAt(b, times, n).allowed ==>
              AnswerAt(b, times, n).retryAfter == RoundUp(b.interval - Level(b.FullRefill(), b.interval, times, n))
  {
    CreditIsLevel(b, times, n);
    RunsAgree(b, times[..n]);
    TakesAgree(b, StateAfter(b, times[..n]), UnitsAfter(b, times[..n]), times[n]);
  }

  lemma OneMore(k: int, d: int)
    ensures (k + 1) * d == k * d + d
  {
  }

  lemma {:induction false} SpentIsAllowed(b: Bucket, times: seq<Instant>, i: nat, n: nat)
    requires b.IsUsable() && AllSet(times) && i <= n < |times|
    ensures SpentBetween(b.FullRefill(), b.interval, times, i, n) == AllowedBetween(b, times, i, n) * b.interval
    decreases n
  {
    if i < n {
      SpentIsAllowed(b, times, i, n - 1);
      AllowedByLevel(b, times, n - 1);
      OneMore(AllowedBetween(b, times, i, n - 1), b.interval);
    }
  }

  /** One more request since i would still fit in the burst and what came back. */
  predicate Fits(b: Bucket, times: seq<Instant>, i: nat, n: nat)
    requires i <= n < |times|
  {
    (AllowedBetween(b, times, i, n) + 1) * b.interval <= b.FullRefill() + Forward(times, i, n)
  }

  lemma FitsByBudget(b: Bucket, times: seq<Instant>, i: nat, n: nat)
    requires b.IsUsable() && AllSet(times) && i <= n < |times|
    ensures Fits(b, times, i, n) <==> b.interval <= Budget(b.FullRefill(), b.interval, times, i, n)
  {
    SpentIsAllowed(b, times, i, n);
    OneMore(AllowedBetween(b, times, i, n), b.interval);
  }

  /**
   * Admission, exactly. Whatever the clock does, request n is allowed just when
   * for every earlier request the number allowed since then, this one included,
   * fits in the burst plus what the clock's forward movement gave back.
   */
  lemma AllowedExactlyWithinBudget(b: Bucket, times: seq<Instant>, n: nat)
    requires b.IsUsable() && AllSet(times) && n < |times|
    ensures AnswerAt(b, times, n).allowed <==> forall i: nat :: i <= n ==> Fits(b, times, i, n)
  {
    var full := b.FullRefill();
    var w := LevelIsTightest(full, b.interval, times, n);
    AllowedByLevel(b, times, n);
    FitsByBudget(b, times, w, n);
    forall i: nat | i <= n ensures Fits(b, times, i, n) <==> b.interval <= Budget(full, b.interval, times, i, n) {
      FitsByBudget(b, times, i, n);
    }
  }

  predicate NeverBack(times: seq<Instant>) {
    forall k :: 0 < k < |times| ==> times[k - 1] <= times[k]
  }

  lemma {:induction false} ForwardIsElapsed(times: seq<Instant>, i: nat, n: nat)
    requires NeverBack(times) && i <= n < |times|
    ensures Forward(times, i, n) == times[n] - times[i]
    decreases n
  {
    if i < n {
      ForwardIsElapsed(times, i, n - 1);
    }
  }

  /** The same, said of elapsed time: at most Burst plus elapsed over Interval. */
  predicate WithinRate(b: Bucket, times: seq<Instant>, i: nat, n: nat)
    requires b.IsUsable() && i <= n < |times|
  {
    (AllowedBetween(b, times, i, n) + 1) as real <= b.burst as real + (times[n] - times[i]) as real / b.interval as real
  }

  lemma FitsIsRate(b: Bucket, times: seq<Instant>, i: nat, n: nat)
    requires b.IsUsable() && NeverBack(times) && i <= n < |times|
    ensures Fits(b, times, i, n) <==> WithinRate(b, times, i, n)
  {
    ForwardIsElapsed(times, i, n);
    OverInterval(b, AllowedBetween(b, times, i, n) + 1, times[n] - times[i]);
  }

  /** With a clock that never steps back, a request is refused only for going over the rate since some earlier one. */
  lemma AllowedExactlyAtRate(b: Bucket, times: seq<Instant>, n: nat)
    requires b.IsUsable() && AllSet(times) && NeverBack(times) && n < |times|
    ensures AnswerAt(b, times, n).allowed <==> forall i: nat :: i <= n ==> WithinRate(b, times, i, n)
  {
    AllowedExactlyWithinBudget(b, times, n);
    forall i: nat | i <= n ensures Fits(b, times, i, n) <==> WithinRate(b, times, i, n) {
      FitsIsRate(b, times, i, n);
    }
  }

  lemma OverInterval(b: Bucket, asked: int, elapsed: int)
    requires b.IsUsable()
    ensures asked * b.interval <= b.FullRefill() + elapsed
       <==> asked as real <= b.burst as real + elapsed as real / b.interval as real
  {
    Whole(asked, b.interval);
    Whole(b.burst, b.interval);
    Ratio(b.FullRefill(), elapsed, b.interval);
    Ratio(asked * b.interval, b.FullRefill() + elapsed, b.interval);
  }

  // ---- What a refused caller is told ----

  lemma RoundUpIsLeast(wait: int, k: int)
    requires wait > 0
    ensures RoundUp(wait) >= SECOND && RoundUp(wait) % SECOND == 0
    ensures k >= 1 ==> (k * SECOND >= RoundUp(wait) <==> k * SECOND >= wait)
  {
  }

  lemma BurstCovers(b: Bucket)
    requires b.IsUsable()
    ensures b.interval <= b.FullRefill()
  {
    OneMore(b.burst - 1, b.interval);
    assert (b.burst - 1) * b.interval >= 0;
  }

  /** Refused requests take nothing and lose nothing: the credit only follows the clock. */
  lemma {:induction false} RefusalsCostNothing(full: int, interval: int, times: seq<Instant>, n: nat, last: nat)
    requires n <= last < |times| && 0 < interval <= full
    requires forall k :: n < k <= last ==> times[k - 1] <= times[k]
    requires forall k: nat :: n <= k < last ==> Level(full, interval, times, k) < interval
    ensures Level(full, interval, times, last) == Min(full, Level(full, interval, times, n) + (times[last] - times[n]))
    decreases last
  {
    if last > n {
      RefusalsCostNothing(full, interval, times, n, last - 1);
    }
  }

  /**
   * RetryAfter is exact. A refused caller is told a whole positive number of
   * seconds; k seconds later a request is allowed just when k reaches it, and
   * any refused requests in between do not put that off.
   */
  lemma {:induction false} RetryAfterIsExact(b: Bucket, times: seq<Instant>, n: nat, last: nat, k: nat)
    requires b.IsUsable() && AllSet(times) && n < last < |times| && k >= 1
    requires times[last] == times[n] + k * SECOND
    requires forall j :: n < j <= last ==> times[j - 1] <= times[j]
    requires forall j: nat :: n <= j < last ==> !AnswerAt(b, times, j).allowed
    ensures var told := AnswerAt(b, times, n).retryAfter;
            && told >= SECOND && told % SECOND == 0
            && (AnswerAt(b, times, last).allowed <==> k * SECOND >= told)
  {
    var full := b.FullRefill();
    BurstCovers(b);
    forall j: nat | n <= j < last ensures Level(full, b.interval, times, j) < b.interval {
      AllowedByLevel(b, times, j);
    }
    RefusalsCostNothing(full, b.interval, times, n, last);
    AllowedByLevel(b, times, n);
    AllowedByLevel(b, times, last);
    RoundUpIsLeast(b.interval - Level(full, b.interval, times, n), k);
  }
}
