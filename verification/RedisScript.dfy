/** The shared limiter's script, in milliseconds, beside the bucket it mirrors. */
module RedisScript {
  import opened Collections
  import opened BookingStatus
  import opened TokenBucket

  const MILLISECOND: int := 1_000_000

  /** The Unix epoch, counted from the zero instant. */
  const UNIX_EPOCH: Instant := 62_135_596_800 * SECOND

  function UnixMilli(t: Instant): int {
    (t - UNIX_EPOCH) / MILLISECOND
  }

  /** What the key holds: two numbers, and when it expires by the server's own clock. */
  datatype Held = Held(tokens: real, updated: int, expires: int)

  /** A request: the instant its caller read off its own clock, and the server's millisecond as the script runs. */
  datatype Arrival = Arrival(now: Instant, server: int)

  datatype Reply = Reply(allowed: bool, whole: int, wait: int)

  /** Reading the key: nothing once the server has let it expire. */
  function Live(held: Option<Held>, server: int): Option<Held> {
    if held.Some? && server < held.value.expires then held else None
  }

  function Ceiling(x: real): int {
    -((-x).Floor)
  }

  /** What the script finds on hand, before it spends. */
  function OnHand(burst: int, interval: int, now: int, held: Option<Held>): real
    requires interval > 0
  {
    var refilled :=
      if held.None? then burst as real
      else held.value.tokens + Max(now - held.value.updated, 0) as real / interval as real;
    if refilled > burst as real then burst as real else refilled
  }

  /** What the script does with what it found: the fraction left, and the reply. */
  function SpendScript(tokens: real, interval: int): (real, Reply) {
    if tokens >= 1.0 then (tokens - 1.0, Reply(true, (tokens - 1.0).Floor, 0))
    else (tokens, Reply(false, tokens.Floor, Ceiling((1.0 - tokens) * interval as real)))
  }

  /**
   * The script itself: burst, interval and the caller's now in milliseconds,
   * against what the key reads as. The key is stamped with the caller's instant
   * and set to expire on the server's.
   */
  function TakeScript(burst: int, interval: int, now: int, server: int, held: Option<Held>): (Held, Reply)
    requires interval > 0
  {
    var (left, reply) := SpendScript(OnHand(burst, interval, now, held), interval);
    (Held(left, now, server + burst * interval + interval), reply)
  }

  /** What the caller is told of a reply. */
  function Told(reply: Reply): Decision {
    if !reply.allowed then Decision(false, 0, RoundUp(reply.wait * MILLISECOND))
    else Decision(true, reply.whole, 0)
  }

  /** One request through Redis. */
  function AllowShared(b: Bucket, held: Option<Held>, a: Arrival): (Held, Decision)
    requires b.interval >= MILLISECOND
  {
    var (next, reply) := TakeScript(b.burst, b.interval / MILLISECOND, UnixMilli(a.now), a.server, Live(held, a.server));
    (next, Told(reply))
  }

  // ---- Agreement with the bucket ----

  /** The rule and the clock both come in whole milliseconds. */
  predicate Aligned(b: Bucket) {
    b.IsUsable() && b.interval % MILLISECOND == 0
  }

  predicate OnTheMilli(t: Instant) {
    t != ZERO && (t - UNIX_EPOCH) % MILLISECOND == 0
  }

  /**
   * The two hold the same fraction, stamped at the same millisecond, and it is
   * a whole number of milliseconds over the interval.
   */
  ghost predicate InStep(b: Bucket, state: State, held: Option<Held>)
    requires Aligned(b)
  {
    var interval := b.interval / MILLISECOND;
    if held.None? then state.updatedAt == ZERO
    else
      && OnTheMilli(state.updatedAt)
      && held.value.updated == UnixMilli(state.updatedAt)
      && held.value.tokens == state.tokens
      && exists credit: int {:trigger IsCredit(state.tokens, credit, interval)} :: credit >= 0 && IsCredit(state.tokens, credit, interval)
  }

  predicate IsCredit(tokens: real, credit: int, interval: int) {
    interval > 0 && tokens == credit as real / interval as real
  }

  lemma ScaleRatio(n: int, d: int)
    requires d > 0
    ensures (n * MILLISECOND) as real / (d * MILLISECOND) as real == n as real / d as real
  {
    var x := n as real / d as real;
    assert x * d as real == n as real;
    assert x * (d * MILLISECOND) as real == (n * MILLISECOND) as real;
  }

  lemma IntervalSplits(b: Bucket)
    requires Aligned(b)
    ensures b.interval == (b.interval / MILLISECOND) * MILLISECOND && b.interval / MILLISECOND > 0
  {
  }

  lemma ElapsedSplits(a: Instant, b: Instant)
    requires OnTheMilli(a) && OnTheMilli(b)
    ensures Max(b - a, 0) == Max(UnixMilli(b) - UnixMilli(a), 0) * MILLISECOND
  {
  }

  /** Refill comes to the same fraction in milliseconds and in nanoseconds. */
  lemma RefillAlike(b: Bucket, from: Instant, now: Instant)
    requires Aligned(b) && OnTheMilli(from) && OnTheMilli(now)
    ensures Max(UnixMilli(now) - UnixMilli(from), 0) as real / (b.interval / MILLISECOND) as real
         == Max(now - from, 0) as real / b.interval as real
  {
    IntervalSplits(b);
    ElapsedSplits(from, now);
    ScaleRatio(Max(UnixMilli(now) - UnixMilli(from), 0), b.interval / MILLISECOND);
  }

  /** While the key is read, or was never written, the script finds what the bucket finds. */
  lemma OnHandAlike(b: Bucket, state: State, held: Option<Held>, now: Instant)
    requires Aligned(b) && InStep(b, state, held) && OnTheMilli(now)
    ensures OnHand(b.burst, b.interval / MILLISECOND, UnixMilli(now), held) == Available(b, state, now)
  {
    IntervalSplits(b);
    if held.Some? {
      RefillAlike(b, state.updatedAt, now);
    }
  }

  /** The fraction on hand is a whole number of milliseconds over the interval. */
  lemma OnHandIsCredit(b: Bucket, state: State, held: Option<Held>, now: Instant) returns (credit: int)
    requires Aligned(b) && InStep(b, state, held) && OnTheMilli(now)
    ensures credit >= 0 && IsCredit(Available(b, state, now), credit, b.interval / MILLISECOND)
  {
    IntervalSplits(b);
    var interval := b.interval / MILLISECOND;
    Whole(b.burst, interval);
    credit := b.burst * interval;
    if held.Some? {
      var had: int :| had >= 0 && IsCredit(state.tokens, had, interval);
      var gained := Max(UnixMilli(now) - UnixMilli(state.updatedAt), 0);
      RefillAlike(b, state.updatedAt, now);
      Ratio(had, gained, interval);
      Ratio(b.burst * interval, had + gained, interval);
      if had + gained <= b.burst * interval {
        credit := had + gained;
      }
    }
  }

  /** The wait, rounded up to a millisecond here and cut to a nanosecond there, is the same wait. */
  lemma WaitsAlike(tokens: real, credit: int, interval: int)
    requires IsCredit(tokens, credit, interval)
    ensures Ceiling((1.0 - tokens) * interval as real) * MILLISECOND == ((1.0 - tokens) * (interval * MILLISECOND) as real).Floor
  {
    OneToken(credit, interval, tokens);
    var missing := (1.0 - tokens) * interval as real;
    assert missing == (interval - credit) as real;
    assert (1.0 - tokens) * (interval * MILLISECOND) as real == missing * MILLISECOND as real;
    assert missing * MILLISECOND as real == ((interval - credit) * MILLISECOND) as real;
  }

  lemma RepliesAlike(tokens: real, interval: int, now: Instant)
    requires tokens < 1.0 ==> Ceiling((1.0 - tokens) * interval as real) * MILLISECOND == ((1.0 - tokens) * (interval * MILLISECOND) as real).Floor
    ensures Told(SpendScript(tokens, interval).1) == Spend(tokens, interval * MILLISECOND, now).1
    ensures SpendScript(tokens, interval).0 == Spend(tokens, interval * MILLISECOND, now).0.tokens
  {
  }

  lemma LeftIsCredit(tokens: real, credit: int, interval: int)
    requires IsCredit(tokens, credit, interval)
    ensures IsCredit(SpendScript(tokens, interval).0, if credit >= interval then credit - interval else credit, interval)
  {
    OneToken(credit, interval, tokens);
  }

  /** Spending what is on hand comes to the same answer and the same fraction left. */
  lemma SpendsAlike(tokens: real, credit: int, interval: int, now: Instant)
    requires IsCredit(tokens, credit, interval)
    ensures Told(SpendScript(tokens, interval).1) == Spend(tokens, interval * MILLISECOND, now).1
    ensures SpendScript(tokens, interval).0 == Spend(tokens, interval * MILLISECOND, now).0.tokens
    ensures IsCredit(SpendScript(tokens, interval).0, if credit >= interval then credit - interval else credit, interval)
  {
    WaitsAlike(tokens, credit, interval);
    RepliesAlike(tokens, interval, now);
    LeftIsCredit(tokens, credit, interval);
  }

  /** The server let the key go though it had been written. */
  predicate IsGone(held: Option<Held>, server: int) {
    held.Some? && server >= held.value.expires
  }

  /** A full bucket and one that is not answer differently. */
  lemma FullAnswersApart(tokens: real, burst: int, interval: int, now: Instant)
    requires interval > 0 && burst >= 1 && tokens <= burst as real
    ensures Spend(burst as real, interval, now).1 == Spend(tokens, interval, now).1 <==> tokens == burst as real
  {
    assert Spend(burst as real, interval, now).1 == Decision(true, burst - 1, 0);
    if 1.0 <= tokens < burst as real {
      assert (tokens - 1.0).Floor < burst - 1;
    }
  }

  /** Found on hand alike, answered alike, and still in step. */
  lemma FoundAlike(b: Bucket, state: State, held: Option<Held>, a: Arrival)
    requires Aligned(b) && InStep(b, state, held) && OnTheMilli(a.now)
    requires OnHand(b.burst, b.interval / MILLISECOND, UnixMilli(a.now), Live(held, a.server)) == Available(b, state, a.now)
    ensures b.interval >= MILLISECOND
    ensures AllowShared(b, held, a).1 == Take(b, state, a.now).1
    ensures InStep(b, Take(b, state, a.now).0, Some(AllowShared(b, held, a).0))
  {
    IntervalSplits(b);
    var credit := OnHandIsCredit(b, state, held, a.now);
    SpendsAlike(Available(b, state, a.now), credit, b.interval / MILLISECOND, a.now);
  }

  /** A key the server let go reads as a full bucket, and is answered as one. */
  lemma GoneIsFull(b: Bucket, state: State, held: Option<Held>, a: Arrival)
    requires Aligned(b) && InStep(b, state, held) && OnTheMilli(a.now) && IsGone(held, a.server)
    ensures b.interval >= MILLISECOND
    ensures OnHand(b.burst, b.interval / MILLISECOND, UnixMilli(a.now), Live(held, a.server)) == b.burst as real
    ensures AllowShared(b, held, a).1 == Spend(b.burst as real, b.interval, a.now).1
  {
    IntervalSplits(b);
    var interval := b.interval / MILLISECOND;
    Whole(b.burst, interval);
    SpendsAlike(b.burst as real, b.burst * interval, interval, a.now);
  }

  /**
   * One request, from matching state: the script and the bucket tell the caller
   * the same thing exactly when the server still has the key or the bucket is
   * full anyway; and then they stay in step.
   */
  lemma SharedStepAgreesExactly(b: Bucket, state: State, held: Option<Held>, a: Arrival)
    requires Aligned(b) && InStep(b, state, held) && OnTheMilli(a.now)
    ensures b.interval >= MILLISECOND
    ensures AllowShared(b, held, a).1 == Take(b, state, a.now).1 <==> !IsGone(held, a.server) || Available(b, state, a.now) == b.burst as real
    ensures AllowShared(b, held, a).1 == Take(b, state, a.now).1 ==> InStep(b, Take(b, state, a.now).0, Some(AllowShared(b, held, a).0))
  {
    IntervalSplits(b);
    if IsGone(held, a.server) {
      GoneIsFull(b, state, held, a);
      FullAnswersApart(Available(b, state, a.now), b.burst, b.interval, a.now);
      if Available(b, state, a.now) == b.burst as real {
        FoundAlike(b, state, held, a);
      }
    } else {
      OnHandAlike(b, state, held, a.now);
      FoundAlike(b, state, held, a);
    }
  }

  // ---- Runs ----

  /** A run through Redis, from a key that does not exist. */
  function SharedAfter(b: Bucket, run: seq<Arrival>): Option<Held>
    requires b.interval >= MILLISECOND
  {
    if run == [] then None
    else Some(AllowShared(b, SharedAfter(b, run[..|run| - 1]), run[|run| - 1]).0)
  }

  function Times(run: seq<Arrival>): (times: seq<Instant>)
    ensures |times| == |run|
  {
    seq(|run|, i requires 0 <= i < |run| => run[i].now)
  }

  predicate AllOnTheMilli(run: seq<Arrival>) {
    forall k :: 0 <= k < |run| ==> OnTheMilli(run[k].now)
  }

  /** Request k is told the same by both. */
  predicate ToldAlike(b: Bucket, run: seq<Arrival>, k: nat)
    requires b.interval >= MILLISECOND && k < |run|
  {
    AllowShared(b, SharedAfter(b, run[..k]), run[k]).1 == AnswerAt(b, Times(run), k)
  }

  /** The server counted a full refill and one interval since the request before. */
  predicate KeyIsGone(b: Bucket, run: seq<Arrival>, k: nat)
    requires k < |run|
  {
    k > 0 && run[k].server - run[k - 1].server >= (b.burst + 1) * (b.interval / MILLISECOND)
  }

  predicate IsFullAt(b: Bucket, run: seq<Arrival>, k: nat)
    requires b.IsUsable() && k < |run|
  {
    Available(b, StateAfter(b, Times(run)[..k]), run[k].now) == b.burst as real
  }

  lemma GoneExactly(b: Bucket, run: seq<Arrival>, k: nat)
    requires Aligned(b) && k < |run|
    ensures b.interval >= MILLISECOND
    ensures IsGone(SharedAfter(b, run[..k]), run[k].server) <==> KeyIsGone(b, run, k)
  {
    IntervalSplits(b);
    var interval := b.interval / MILLISECOND;
    assert (b.burst + 1) * interval == b.burst * interval + interval;
    if k > 0 {
      assert run[..k][..k - 1] == run[..k - 1];
    }
  }

  lemma NextState(b: Bucket, run: seq<Arrival>, n: nat)
    requires Aligned(b) && n < |run|
    ensures b.interval >= MILLISECOND
    ensures StateAfter(b, Times(run)[..n + 1]) == Take(b, StateAfter(b, Times(run)[..n]), run[n].now).0
    ensures SharedAfter(b, run[..n + 1]) == Some(AllowShared(b, SharedAfter(b, run[..n]), run[n]).0)
  {
    IntervalSplits(b);
    assert Times(run)[..n + 1][..n] == Times(run)[..n];
    assert run[..n + 1][..n] == run[..n];
  }

  /** While everyone so far was told the same, the next is exactly when its key stands or its bucket is full. */
  lemma {:induction false} InStepWhileAlike(b: Bucket, run: seq<Arrival>, n: nat)
    requires Aligned(b) && AllOnTheMilli(run) && n <= |run| && b.interval >= MILLISECOND
    requires forall k: nat :: k < n ==> ToldAlike(b, run, k)
    ensures InStep(b, StateAfter(b, Times(run)[..n]), SharedAfter(b, run[..n]))
    ensures n < |run| ==> (ToldAlike(b, run, n) <==> !KeyIsGone(b, run, n) || IsFullAt(b, run, n))
    decreases n
  {
    if n > 0 {
      InStepWhileAlike(b, run, n - 1);
      NextState(b, run, n - 1);
      assert ToldAlike(b, run, n - 1);
      SharedStepAgreesExactly(b, StateAfter(b, Times(run)[..n - 1]), SharedAfter(b, run[..n - 1]), run[n - 1]);
    }
    if n < |run| {
      SharedStepAgreesExactly(b, StateAfter(b, Times(run)[..n]), SharedAfter(b, run[..n]), run[n]);
      GoneExactly(b, run, n);
    }
  }

  /**
   * Over any run of requests on the millisecond, whatever the callers' clocks
   * and the server's do, the script and the bucket tell everyone the same
   * exactly when no key is let go that the bucket would not find full.
   */
  lemma {:induction false} SharedRunAgreesExactly(b: Bucket, run: seq<Arrival>)
    requires Aligned(b) && AllOnTheMilli(run)
    ensures b.interval >= MILLISECOND
    ensures (forall k: nat :: k < |run| ==> ToldAlike(b, run, k)) <==> (forall k: nat :: k < |run| ==> !KeyIsGone(b, run, k) || IsFullAt(b, run, k))
  {
    IntervalSplits(b);
    if forall k: nat :: k < |run| ==> ToldAlike(b, run, k) {
      forall k: nat | k < |run| ensures !KeyIsGone(b, run, k) || IsFullAt(b, run, k) {
        InStepWhileAlike(b, run, k);
      }
    }
    if forall k: nat :: k < |run| ==> !KeyIsGone(b, run, k) || IsFullAt(b, run, k) {
      forall k: nat | k < |run| ensures ToldAlike(b, run, k) {
        AlikeUpTo(b, run, k + 1);
      }
    }
  }

  lemma {:induction false} AlikeUpTo(b: Bucket, run: seq<Arrival>, n: nat)
    requires Aligned(b) && AllOnTheMilli(run) && n <= |run| && b.interval >= MILLISECOND
    requires forall k: nat :: k < |run| ==> !KeyIsGone(b, run, k) || IsFullAt(b, run, k)
    ensures forall k: nat :: k < n ==> ToldAlike(b, run, k)
    decreases n
  {
    if n > 0 {
      AlikeUpTo(b, run, n - 1);
      InStepWhileAlike(b, run, n - 1);
    }
  }

  // ---- How far behind a caller's clock may fall ----

  /** How many milliseconds more the server counted since the request before than the callers' clocks show. */
  function Lag(run: seq<Arrival>, k: nat): int
    requires 0 < k < |run|
  {
    (run[k].server - run[k - 1].server) - (UnixMilli(run[k].now) - UnixMilli(run[k - 1].now))
  }

  /** The server's clock never steps back, and no caller's falls behind it by more than this between two requests. */
  predicate LagsAtMost(run: seq<Arrival>, lag: int) {
    forall k: nat :: 0 < k < |run| ==> run[k - 1].server <= run[k].server && Lag(run, k) <= lag
  }

  lemma {:induction false} StateIsSound(b: Bucket, times: seq<Instant>)
    requires b.IsUsable() && times != [] && forall k :: 0 <= k < |times| ==> times[k] != ZERO
    ensures StateAfter(b, times).updatedAt == times[|times| - 1] && StateAfter(b, times).tokens >= 0.0
    decreases |times|
  {
    var front := times[..|times| - 1];
    if front != [] {
      StateIsSound(b, front);
      assert 0 as real / b.interval as real == 0.0;
      Ratio(0, Max(times[|times| - 1] - StateAfter(b, front).updatedAt, 0), b.interval);
    }
  }

  lemma FullAfterRefill(b: Bucket, state: State, now: Instant)
    requires b.IsUsable() && state.tokens >= 0.0 && state.updatedAt != ZERO && now - state.updatedAt >= b.FullRefill()
    ensures Available(b, state, now) == b.burst as real
  {
    BurstCovers(b);
    Whole(b.burst, b.interval);
    Ratio(b.FullRefill(), now - state.updatedAt, b.interval);
  }

  /** Up to one interval behind, a key let go had refilled by the caller's clock too. */
  lemma SlackOfOneInterval(b: Bucket, run: seq<Arrival>, k: nat)
    requires Aligned(b) && AllOnTheMilli(run) && 0 < k < |run| && KeyIsGone(b, run, k) && Lag(run, k) <= b.interval / MILLISECOND
    ensures IsFullAt(b, run, k)
  {
    IntervalSplits(b);
    var interval := b.interval / MILLISECOND;
    assert (b.burst + 1) * interval == b.burst * interval + interval;
    assert UnixMilli(run[k].now) - UnixMilli(run[k - 1].now) >= b.burst * interval;
    assert run[k].now - run[k - 1].now == (UnixMilli(run[k].now) - UnixMilli(run[k - 1].now)) * MILLISECOND;
    assert b.burst * interval * MILLISECOND == b.FullRefill();
    StateIsSound(b, Times(run)[..k]);
    FullAfterRefill(b, StateAfter(b, Times(run)[..k]), run[k].now);
  }

  lemma {:induction false} LagWithinOneInterval(b: Bucket, run: seq<Arrival>, k: nat)
    requires Aligned(b) && AllOnTheMilli(run) && LagsAtMost(run, b.interval / MILLISECOND) && k < |run|
    ensures b.interval >= MILLISECOND && ToldAlike(b, run, k)
  {
    forall j: nat | j < |run| ensures !KeyIsGone(b, run, j) || IsFullAt(b, run, j) {
      if KeyIsGone(b, run, j) {
        SlackOfOneInterval(b, run, j);
      }
    }
    SharedRunAgreesExactly(b, run);
  }

  /** On one clock there is no lag, and everyone is always told the same. */
  lemma {:induction false} OneClockAgrees(b: Bucket, run: seq<Arrival>, k: nat)
    requires Aligned(b) && AllOnTheMilli(run) && k < |run|
    requires forall j :: 0 <= j < |run| ==> run[j].server == UnixMilli(run[j].now)
    requires forall j :: 0 < j < |run| ==> run[j - 1].now <= run[j].now
    ensures b.interval >= MILLISECOND && ToldAlike(b, run, k)
  {
    IntervalSplits(b);
    LagWithinOneInterval(b, run, k);
  }

  /** A caller that spends all it has at one moment, n requests of it. */
  function SpendAll(now: Instant, server: int, n: nat): seq<Arrival> {
    seq(n, _ => Arrival(now, server))
  }

  lemma {:induction false} AllIsSpent(b: Bucket, now: Instant, server: int, n: nat)
    requires b.IsUsable() && now > ZERO && 1 <= n <= b.burst
    ensures StateAfter(b, Times(SpendAll(now, server, n))) == State((b.burst - n) as real, now)
    decreases n
  {
    var times := Times(SpendAll(now, server, n));
    assert times[..n - 1] == Times(SpendAll(now, server, n - 1));
    assert 0 as real / b.interval as real == 0.0;
    if n > 1 {
      AllIsSpent(b, now, server, n - 1);
    }
  }

  /** Spent out, and asked again by a caller behind the server by this much, just as the server lets the key go. */
  function Behind(b: Bucket, lag: nat): seq<Arrival>
    requires b.IsUsable()
  {
    var now := UNIX_EPOCH + lag * MILLISECOND;
    var gap := (b.burst + 1) * (b.interval / MILLISECOND);
    SpendAll(now, 0, b.burst) + [Arrival(now + (gap - lag) * MILLISECOND, gap)]
  }

  lemma NotFullYet(b: Bucket, at: Instant, now: Instant)
    requires b.IsUsable() && at != ZERO && now - at < b.FullRefill()
    ensures Available(b, State(0.0, at), now) < b.burst as real
  {
    BurstCovers(b);
    Whole(b.burst, b.interval);
    Ratio(b.FullRefill(), Max(now - at, 0), b.interval);
  }

  /** More than one interval behind, there is a run that is told apart: the bucket refuses or counts down what the script hands out afresh. */
  lemma {:induction false} LagBeyondOneInterval(b: Bucket, lag: nat)
    requires Aligned(b) && lag > b.interval / MILLISECOND
    ensures AllOnTheMilli(Behind(b, lag)) && LagsAtMost(Behind(b, lag), lag)
    ensures b.interval >= MILLISECOND && !ToldAlikeThroughout(b, Behind(b, lag))
  {
    IntervalSplits(b);
    var run, n := Behind(b, lag), b.burst;
    var now, gap := UNIX_EPOCH + lag * MILLISECOND, (b.burst + 1) * (b.interval / MILLISECOND);
    assert run[n] == Arrival(now + (gap - lag) * MILLISECOND, gap);
    BehindIsOnTheMilli(b, lag);
    assert run[n - 1] == Arrival(now, 0) && KeyIsGone(b, run, n);
    AllIsSpent(b, now, 0, n);
    assert Times(run)[..n] == Times(SpendAll(now, 0, n));
    BehindTheRefill(b, lag);
    NotFullYet(b, now, run[n].now);
    assert !IsFullAt(b, run, n);
    SharedRunAgreesExactly(b, run);
  }

  lemma BehindTheRefill(b: Bucket, lag: nat)
    requires Aligned(b) && lag > b.interval / MILLISECOND
    ensures ((b.burst + 1) * (b.interval / MILLISECOND) - lag) * MILLISECOND < b.FullRefill()
  {
    IntervalSplits(b);
    var interval := b.interval / MILLISECOND;
    assert (b.burst + 1) * interval == b.burst * interval + interval;
    assert b.burst * interval * MILLISECOND == b.FullRefill();
  }

  lemma BehindIsOnTheMilli(b: Bucket, lag: nat)
    requires Aligned(b)
    ensures AllOnTheMilli(Behind(b, lag)) && LagsAtMost(Behind(b, lag), lag)
  {
    IntervalSplits(b);
    var run := Behind(b, lag);
    var gap := (b.burst + 1) * (b.interval / MILLISECOND);
    assert gap >= 0;
  }

  predicate ToldAlikeThroughout(b: Bucket, run: seq<Arrival>)
    requires b.interval >= MILLISECOND
  {
    forall k: nat :: k < |run| ==> ToldAlike(b, run, k)
  }

  /** So the slack is one interval and no more: every run that falls behind by at most this much is told alike exactly when this much is at most an interval. */
  lemma {:induction false} OneIntervalIsTheSlack(b: Bucket, lag: nat)
    requires Aligned(b)
    ensures b.interval >= MILLISECOND
    ensures (forall run {:trigger ToldAlikeThroughout(b, run)} :: AllOnTheMilli(run) && LagsAtMost(run, lag) ==> ToldAlikeThroughout(b, run))
            <==> lag <= b.interval / MILLISECOND
  {
    IntervalSplits(b);
    if lag <= b.interval / MILLISECOND {
      forall run | AllOnTheMilli(run) && LagsAtMost(run, lag) ensures ToldAlikeThroughout(b, run) {
        forall k: nat | k < |run| ensures ToldAlike(b, run, k) {
          LagWithinOneInterval(b, run, k);
        }
      }
    } else {
      LagBeyondOneInterval(b, lag);
    }
  }
}
