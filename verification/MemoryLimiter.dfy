/** The in-process limiter, which forgets callers that have been idle long enough. */
module MemoryLimiter {
  import opened Collections
  import opened BookingStatus
  import opened TokenBucket

  const SWEEP_THRESHOLD: nat := 1024

  type Buckets = map<string, State>

  datatype Request = Request(key: string, bucket: Bucket, now: Instant)

  predicate IsServed(r: Request) {
    r.key != "" && r.bucket.IsUsable() && r.now != ZERO
  }

  function Seen(buckets: Buckets, key: string): State {
    if key in buckets then buckets[key] else UNSEEN
  }

  /** Serving without ever forgetting. */
  function Remember(buckets: Buckets, r: Request): Buckets {
    buckets[r.key := Take(r.bucket, Seen(buckets, r.key), r.now).0]
  }

  function Answer(buckets: Buckets, r: Request): Decision {
    Take(r.bucket, Seen(buckets, r.key), r.now).1
  }

  predicate IsIdle(state: State, bucket: Bucket, now: Instant) {
    now - state.updatedAt >= bucket.FullRefill()
  }

  function Swept(buckets: Buckets, bucket: Bucket, now: Instant): Buckets {
    map key | key in buckets && !IsIdle(buckets[key], bucket, now) :: buckets[key]
  }

  function Forget(buckets: Buckets, r: Request): Buckets {
    var served := Remember(buckets, r);
    if |served| > SWEEP_THRESHOLD then Swept(served, r.bucket, r.now) else served
  }

  class Limiter {
    var buckets: map<string, State>

    constructor ()
      ensures buckets == map[]
    {
      buckets := map[];
    }

    /** Refused outright, or served; the caller just served is never the one forgotten. */
    method Allow(r: Request) returns (decision: Decision, refused: bool)
      modifies this
      ensures refused <==> !IsServed(r)
      ensures refused ==> buckets == old(buckets)
      ensures !refused ==> decision == Answer(old(buckets), r)
      ensures !refused ==> buckets == Forget(old(buckets), r)
      ensures !refused ==> r.key in buckets && buckets[r.key] == Take(r.bucket, Seen(old(buckets), r.key), r.now).0
    {
      if r.key == "" || !r.bucket.IsUsable() || r.now == ZERO {
        return Decision(false, 0, 0), true;
      }
      var held := if r.key in buckets then buckets[r.key] else State(0.0, ZERO);
      var (next, answer) := Take(r.bucket, held, r.now);
      buckets := buckets[r.key := next];
      if |buckets| > SWEEP_THRESHOLD {
        ForgetIdleLocked(r.bucket, r.now);
      }
      BurstCovers(r.bucket);
      assert next.updatedAt == r.now;
      return answer, false;
    }

    method ForgetIdleLocked(bucket: Bucket, now: Instant)
      modifies this
      ensures buckets == Swept(old(buckets), bucket, now)
    {
      var rest := buckets.Keys;
      while rest != {}
        invariant rest <= old(buckets).Keys
        invariant buckets == map key | key in old(buckets) && (key in rest || !IsIdle(old(buckets)[key], bucket, now)) :: old(buckets)[key]
        decreases rest
      {
        var key :| key in rest;
        rest := rest - {key};
        if now - buckets[key].updatedAt >= bucket.FullRefill() {
          buckets := buckets - {key};
        }
      }
    }
  }

  // ---- Forgetting changes nothing ----

  /** The rules in force differ only in how they share out one refill time, as the two shipped ones do. */
  predicate Shares(r: Request, refill: int) {
    r.bucket.FullRefill() == refill
  }

  /** A caller the sweep dropped is one whose bucket had filled up again. */
  predicate SameTo(swept: Buckets, full: Buckets, key: string, refill: int, now: Instant) {
    && (key in full ==> full[key].updatedAt == ZERO || full[key].tokens >= 0.0)
    && (key in swept ==> key in full && swept[key] == full[key])
    && (key !in swept && key in full ==> now - full[key].updatedAt >= refill)
  }

  ghost predicate Indistinct(swept: Buckets, full: Buckets, refill: int, now: Instant) {
    forall key: string {:trigger SameTo(swept, full, key, refill, now)} :: SameTo(swept, full, key, refill, now)
  }

  lemma RefilledIsFull(b: Bucket, state: State, now: Instant)
    requires b.IsUsable() && state.tokens >= 0.0 && now - state.updatedAt >= b.FullRefill()
    ensures Available(b, state, now) == b.burst as real
  {
    if state.updatedAt != ZERO {
      BurstCovers(b);
      Whole(b.burst, b.interval);
      Ratio(b.FullRefill(), now - state.updatedAt, b.interval);
    }
  }

  lemma TakeLeavesNoDebt(b: Bucket, state: State, now: Instant)
    requires b.IsUsable() && (state.updatedAt == ZERO || state.tokens >= 0.0)
    ensures Take(b, state, now).0.tokens >= 0.0 && Take(b, state, now).0.updatedAt == now
  {
    if state.updatedAt != ZERO {
      Ratio(0, Max(now - state.updatedAt, 0), b.interval);
      assert 0 as real / b.interval as real == 0.0;
    }
  }

  /** One request is answered alike, and the two tables stay indistinct. */
  lemma {:induction false} ForgettingStep(swept: Buckets, full: Buckets, refill: int, now: Instant, r: Request)
    requires Indistinct(swept, full, refill, now) && IsServed(r) && Shares(r, refill) && r.now >= now
    ensures Answer(swept, r) == Answer(full, r)
    ensures Indistinct(Forget(swept, r), Remember(full, r), refill, r.now)
  {
    assert SameTo(swept, full, r.key, refill, now);
    var a, b := Seen(swept, r.key), Seen(full, r.key);
    if a != b && b.updatedAt != ZERO {
      RefilledIsFull(r.bucket, b, r.now);
    }
    assert Available(r.bucket, a, r.now) == Available(r.bucket, b, r.now);
    TakeLeavesNoDebt(r.bucket, b, r.now);
    forall key ensures SameTo(Forget(swept, r), Remember(full, r), key, refill, r.now) {
      assert SameTo(swept, full, key, refill, now);
    }
  }

  function AfterSweeping(requests: seq<Request>): Buckets {
    if requests == [] then map[] else Forget(AfterSweeping(requests[..|requests| - 1]), requests[|requests| - 1])
  }

  function AfterRemembering(requests: seq<Request>): Buckets {
    if requests == [] then map[] else Remember(AfterRemembering(requests[..|requests| - 1]), requests[|requests| - 1])
  }

  predicate IsHistory(requests: seq<Request>, refill: int) {
    && (forall k :: 0 <= k < |requests| ==> IsServed(requests[k]) && Shares(requests[k], refill))
    && (forall k :: 0 < k < |requests| ==> requests[k - 1].now <= requests[k].now)
  }

  function LastSeen(requests: seq<Request>): Instant {
    if requests == [] then ZERO else requests[|requests| - 1].now
  }

  lemma {:induction false} TablesStayIndistinct(requests: seq<Request>, refill: int)
    requires IsHistory(requests, refill)
    ensures Indistinct(AfterSweeping(requests), AfterRemembering(requests), refill, LastSeen(requests))
    decreases |requests|
  {
    if requests != [] {
      var front, last := requests[..|requests| - 1], requests[|requests| - 1];
      TablesStayIndistinct(front, refill);
      ServedAlike(front, last, refill);
    }
  }

  /** The next request after a history is answered alike. */
  lemma {:induction false} ServedAlike(front: seq<Request>, last: Request, refill: int)
    requires Indistinct(AfterSweeping(front), AfterRemembering(front), refill, LastSeen(front))
    requires IsServed(last) && Shares(last, refill) && (front != [] ==> LastSeen(front) <= last.now)
    ensures Answer(AfterSweeping(front), last) == Answer(AfterRemembering(front), last)
    ensures Indistinct(Forget(AfterSweeping(front), last), Remember(AfterRemembering(front), last), refill, last.now)
  {
    if front == [] {
      forall key ensures SameTo(AfterSweeping(front), AfterRemembering(front), key, refill, last.now) {}
      ForgettingStep(AfterSweeping(front), AfterRemembering(front), refill, last.now, last);
    } else {
      ForgettingStep(AfterSweeping(front), AfterRemembering(front), refill, LastSeen(front), last);
    }
  }

  /** Nobody can tell: for any keys and any times that never step back, the limiter that forgets answers as one that never does. */
  lemma {:induction false} ForgettingIsInvisible(requests: seq<Request>, refill: int)
    requires IsHistory(requests, refill)
    ensures forall n: nat :: n < |requests| ==>
              Answer(AfterSweeping(requests[..n]), requests[n]) == Answer(AfterRemembering(requests[..n]), requests[n])
  {
    forall n: nat | n < |requests|
      ensures Answer(AfterSweeping(requests[..n]), requests[n]) == Answer(AfterRemembering(requests[..n]), requests[n])
    {
      var front := requests[..n];
      TablesStayIndistinct(front, refill);
      assert n > 0 ==> requests[n - 1].now <= requests[n].now;
      ServedAlike(front, requests[n], refill);
    }
  }

  const WRITE_RULE := Bucket(12, 5 * SECOND)
  const READ_RULE := Bucket(60, SECOND)

  lemma ShippedRulesShare()
    ensures WRITE_RULE.IsUsable() && READ_RULE.IsUsable()
    ensures WRITE_RULE.FullRefill() == READ_RULE.FullRefill()
  {
  }

  // ---- Sharing is needed ----

  /** Requests under either of two rules, their times never stepping back. */
  predicate UnderRules(requests: seq<Request>, a: Bucket, b: Bucket) {
    && (forall k :: 0 <= k < |requests| ==> IsServed(requests[k]) && (requests[k].bucket == a || requests[k].bucket == b))
    && (forall k :: 0 < k < |requests| ==> requests[k - 1].now <= requests[k].now)
  }

  /** Forgetting changes the answer to none of them. */
  predicate AnsweredAlike(requests: seq<Request>) {
    forall n: nat :: n < |requests| ==> Answer(AfterSweeping(requests[..n]), requests[n]) == Answer(AfterRemembering(requests[..n]), requests[n])
  }

  const CALLER := "b"

  function Filler(i: nat): string {
    seq(i + 1, _ => 'a')
  }

  /** One caller spends all it has under the slower rule. */
  function Spending(slow: Bucket, at: Instant, n: nat): seq<Request> {
    if n == 0 then [] else Spending(slow, at, n - 1) + [Request(CALLER, slow, at)]
  }

  function Comer(quick: Bucket, at: Instant, n: nat): Request {
    Request(Filler(n), quick, at + quick.FullRefill())
  }

  /** And then, later, come callers enough under the quicker one to start a sweep. */
  function Crowd(slow: Bucket, quick: Bucket, at: Instant, n: nat): seq<Request>
    requires slow.IsUsable()
  {
    if n == 0 then Spending(slow, at, slow.burst)
    else Crowd(slow, quick, at, n - 1) + [Comer(quick, at, n - 1)]
  }

  /** The caller asks again as the crowd has come. */
  function Telling(slow: Bucket, quick: Bucket, at: Instant, n: nat): seq<Request>
    requires slow.IsUsable()
  {
    Crowd(slow, quick, at, n) + [Request(CALLER, slow, at + quick.FullRefill())]
  }

  lemma {:induction false} NextRequest(requests: seq<Request>, r: Request)
    ensures AfterSweeping(requests + [r]) == Forget(AfterSweeping(requests), r)
    ensures AfterRemembering(requests + [r]) == Remember(AfterRemembering(requests), r)
  {
    assert (requests + [r])[..|requests|] == requests;
  }

  /** A request forgetting and remembering treat alike leaves them as like as they were. */
  lemma {:induction false} NextAlike(requests: seq<Request>, r: Request)
    requires AfterSweeping(requests) == AfterRemembering(requests)
    requires Forget(AfterRemembering(requests), r) == Remember(AfterRemembering(requests), r)
    ensures AfterSweeping(requests + [r]) == AfterRemembering(requests + [r])
  {
    NextRequest(requests, r);
  }

  /** Asked again at once, a bucket has what it had. */
  lemma TakeAtOnce(b: Bucket, left: int, at: Instant)
    requires b.IsUsable() && 1 <= left <= b.burst && at > ZERO
    ensures Take(b, State(left as real, at), at).0 == State((left - 1) as real, at)
    ensures Take(b, UNSEEN, at).0 == State((b.burst - 1) as real, at)
  {
    assert 0 as real / b.interval as real == 0.0;
  }

  /** With one caller in the table there is nothing to sweep. */
  lemma AloneAtOnce(slow: Bucket, at: Instant, left: int)
    requires slow.IsUsable() && 1 <= left <= slow.burst && at > ZERO
    ensures var r := Request(CALLER, slow, at);
            && Forget(map[CALLER := State(left as real, at)], r) == Remember(map[CALLER := State(left as real, at)], r)
            && Remember(map[CALLER := State(left as real, at)], r) == map[CALLER := State((left - 1) as real, at)]
            && Forget(map[], r) == Remember(map[], r) == map[CALLER := State((slow.burst - 1) as real, at)]
  {
    TakeAtOnce(slow, left, at);
    assert |map[CALLER := State((left - 1) as real, at)]| == 1;
    assert |map[CALLER := State((slow.burst - 1) as real, at)]| == 1;
  }

  lemma {:induction false} SpentOut(slow: Bucket, at: Instant, n: nat)
    requires slow.IsUsable() && 1 <= n <= slow.burst && at > ZERO
    ensures AfterSweeping(Spending(slow, at, n)) == AfterRemembering(Spending(slow, at, n))
    ensures AfterRemembering(Spending(slow, at, n)) == map[CALLER := State((slow.burst - n) as real, at)]
    decreases n
  {
    NextRequest(Spending(slow, at, n - 1), Request(CALLER, slow, at));
    if n == 1 {
      AloneAtOnce(slow, at, 1);
    } else {
      SpentOut(slow, at, n - 1);
      AloneAtOnce(slow, at, slow.burst - n + 1);
    }
  }

  /** Up to the threshold nothing is swept: the caller is remembered as it was, beside each of the crowd. */
  predicate CrowdedIn(buckets: Buckets, at: Instant, late: Instant, n: nat) {
    && CALLER in buckets && buckets[CALLER] == State(0.0, at)
    && (forall key :: key in buckets && key != CALLER ==> 1 <= |key| <= n && key == Filler(|key| - 1) && buckets[key].updatedAt == late)
    && |buckets| == n + 1
  }

  lemma {:induction false} FillerIsNew(buckets: Buckets, slow: Bucket, quick: Bucket, at: Instant, n: nat)
    requires slow.IsUsable() && quick.IsUsable() && at > ZERO && CrowdedIn(buckets, at, at + quick.FullRefill(), n)
    ensures CrowdedIn(Remember(buckets, Comer(quick, at, n)), at, at + quick.FullRefill(), n + 1)
  {
    assert |Filler(n)| == n + 1 && Filler(n)[0] == 'a';
    assert Filler(n) !in buckets;
    var after := Remember(buckets, Comer(quick, at, n));
    assert after.Keys == buckets.Keys + {Filler(n)};
    SizeOfInsert(buckets.Keys, Filler(n));
    assert |after| == |after.Keys| && |buckets| == |buckets.Keys|;
  }

  lemma {:induction false} BelowThreshold(buckets: Buckets, slow: Bucket, quick: Bucket, at: Instant, n: nat)
    requires slow.IsUsable() && quick.IsUsable() && at > ZERO && CrowdedIn(buckets, at, at + quick.FullRefill(), n) && n < SWEEP_THRESHOLD
    ensures var r := Comer(quick, at, n);
            if n + 1 < SWEEP_THRESHOLD then Forget(buckets, r) == Remember(buckets, r) else CALLER !in Forget(buckets, r)
  {
    FillerIsNew(buckets, slow, quick, at, n);
  }

  lemma {:induction false} CrowdGrows(slow: Bucket, quick: Bucket, at: Instant, n: nat)
    requires slow.IsUsable() && n > 0
    ensures Crowd(slow, quick, at, n) == Crowd(slow, quick, at, n - 1) + [Comer(quick, at, n - 1)]
  {
  }

  /** Forgetting and remembering differ in nothing while the crowd is small, and remembering keeps it all. */
  predicate CrowdStands(requests: seq<Request>, at: Instant, late: Instant, n: nat) {
    && CrowdedIn(AfterRemembering(requests), at, late, n)
    && (n < SWEEP_THRESHOLD ==> AfterSweeping(requests) == AfterRemembering(requests))
  }

  lemma {:induction false} NobodyCame(slow: Bucket, quick: Bucket, at: Instant)
    requires slow.IsUsable() && at > ZERO
    ensures CrowdStands(Crowd(slow, quick, at, 0), at, at + quick.FullRefill(), 0)
  {
    SpentOut(slow, at, slow.burst);
    assert AfterRemembering(Crowd(slow, quick, at, 0)) == map[CALLER := State(0.0, at)];
    assert |map[CALLER := State(0.0, at)]| == 1;
  }

  lemma {:induction false} OneMoreStands(front: seq<Request>, slow: Bucket, quick: Bucket, at: Instant, n: nat)
    requires slow.IsUsable() && quick.IsUsable() && at > ZERO && CrowdStands(front, at, at + quick.FullRefill(), n)
    ensures CrowdStands(front + [Comer(quick, at, n)], at, at + quick.FullRefill(), n + 1)
  {
    var before := AfterRemembering(front);
    NextRequest(front, Comer(quick, at, n));
    FillerIsNew(before, slow, quick, at, n);
    if n + 1 < SWEEP_THRESHOLD {
      BelowThreshold(before, slow, quick, at, n);
      NextAlike(front, Comer(quick, at, n));
    }
  }

  lemma {:induction false} CrowdStanding(slow: Bucket, quick: Bucket, at: Instant, n: nat)
    requires slow.IsUsable() && quick.IsUsable() && at > ZERO
    ensures CrowdStands(Crowd(slow, quick, at, n), at, at + quick.FullRefill(), n)
    decreases n
  {
    if n == 0 {
      NobodyCame(slow, quick, at);
    } else {
      CrowdStanding(slow, quick, at, n - 1);
      OneMoreStands(Crowd(slow, quick, at, n - 1), slow, quick, at, n - 1);
      CrowdGrows(slow, quick, at, n);
    }
  }

  /** The one past the threshold starts the sweep, and the caller goes. */
  lemma {:induction false} LastComer(front: seq<Request>, slow: Bucket, quick: Bucket, at: Instant, n: nat)
    requires slow.IsUsable() && quick.IsUsable() && at > ZERO && n + 1 == SWEEP_THRESHOLD
    requires CrowdStands(front, at, at + quick.FullRefill(), n)
    ensures CALLER !in AfterSweeping(front + [Comer(quick, at, n)])
  {
    NextRequest(front, Comer(quick, at, n));
    BelowThreshold(AfterRemembering(front), slow, quick, at, n);
  }

  lemma {:induction false} CrowdComes(slow: Bucket, quick: Bucket, at: Instant, n: nat)
    requires slow.IsUsable() && quick.IsUsable() && at > ZERO && n == SWEEP_THRESHOLD
    ensures CALLER !in AfterSweeping(Crowd(slow, quick, at, n))
    ensures Seen(AfterRemembering(Crowd(slow, quick, at, n)), CALLER) == State(0.0, at)
  {
    CrowdStanding(slow, quick, at, n - 1);
    LastComer(Crowd(slow, quick, at, n - 1), slow, quick, at, n - 1);
    CrowdGrows(slow, quick, at, n);
    CrowdStanding(slow, quick, at, n);
  }

  /** With less than a full refill since it was spent out, a bucket does not answer as a full one. */
  lemma NotYetFull(b: Bucket, at: Instant, now: Instant)
    requires b.IsUsable() && at > ZERO && at <= now && now - at < b.FullRefill()
    ensures Take(b, State(0.0, at), now).1 != Take(b, UNSEEN, now).1
  {
    Whole(b.burst, b.interval);
    Ratio(b.FullRefill(), now - at, b.interval);
    var tokens := Available(b, State(0.0, at), now);
    assert tokens < b.burst as real;
    assert Take(b, UNSEEN, now).1 == Decision(true, b.burst - 1, 0);
    if tokens >= 1.0 {
      assert (tokens - 1.0).Floor < b.burst - 1;
    }
  }

  lemma {:induction false} TellingIsServed(slow: Bucket, quick: Bucket, at: Instant, n: nat)
    requires slow.IsUsable() && quick.IsUsable() && at > ZERO
    ensures var h := Crowd(slow, quick, at, n);
            && UnderRules(h, slow, quick)
            && (forall k :: 0 <= k < |h| ==> h[k].now <= at + quick.FullRefill())
    decreases n
  {
    BurstCovers(quick);
    if n == 0 {
      SpendingIsServed(slow, quick, at, slow.burst);
    } else {
      TellingIsServed(slow, quick, at, n - 1);
    }
  }

  lemma {:induction false} SpendingIsServed(slow: Bucket, quick: Bucket, at: Instant, n: nat)
    requires slow.IsUsable() && at > ZERO
    ensures UnderRules(Spending(slow, at, n), slow, quick)
    ensures forall k :: 0 <= k < |Spending(slow, at, n)| ==> Spending(slow, at, n)[k].now == at
    decreases n
  {
    if n > 0 {
      SpendingIsServed(slow, quick, at, n - 1);
    }
  }

  lemma {:induction false} ToldApart(swept: Buckets, full: Buckets, slow: Bucket, at: Instant, now: Instant)
    requires slow.IsUsable() && at > ZERO && at <= now && now - at < slow.FullRefill()
    requires CALLER !in swept && Seen(full, CALLER) == State(0.0, at)
    ensures Answer(swept, Request(CALLER, slow, now)) != Answer(full, Request(CALLER, slow, now))
  {
    NotYetFull(slow, at, now);
  }

  lemma {:induction false} TellingIsUnderRules(slow: Bucket, quick: Bucket, at: Instant, n: nat)
    requires slow.IsUsable() && quick.IsUsable() && at > ZERO
    ensures UnderRules(Telling(slow, quick, at, n), slow, quick)
  {
    TellingIsServed(slow, quick, at, n);
    BurstCovers(quick);
  }

  lemma {:induction false} CrowdTells(slow: Bucket, quick: Bucket, at: Instant, n: nat)
    requires slow.IsUsable() && quick.IsUsable() && quick.FullRefill() < slow.FullRefill() && at > ZERO && n == SWEEP_THRESHOLD
    ensures !AnsweredAlike(Telling(slow, quick, at, n))
  {
    var crowd, last := Crowd(slow, quick, at, n), Request(CALLER, slow, at + quick.FullRefill());
    CrowdComes(slow, quick, at, n);
    BurstCovers(quick);
    ToldApart(AfterSweeping(crowd), AfterRemembering(crowd), slow, at, at + quick.FullRefill());
    LastTells(crowd, last);
  }

  lemma {:induction false} LastTells(front: seq<Request>, last: Request)
    requires Answer(AfterSweeping(front), last) != Answer(AfterRemembering(front), last)
    ensures !AnsweredAlike(front + [last])
  {
    assert (front + [last])[..|front|] == front && (front + [last])[|front|] == last;
  }

  /** Swept under a quicker rule, a caller of a slower one is let in as if it had never been seen: some run of the limiter tells. */
  lemma {:induction false} UnequalRulesCanTell(slow: Bucket, quick: Bucket) returns (requests: seq<Request>)
    requires slow.IsUsable() && quick.IsUsable() && quick.FullRefill() < slow.FullRefill()
    ensures UnderRules(requests, slow, quick) && !AnsweredAlike(requests)
  {
    CrowdTells(slow, quick, 1, SWEEP_THRESHOLD);
    TellingIsUnderRules(slow, quick, 1, SWEEP_THRESHOLD);
    requests := Telling(slow, quick, 1, SWEEP_THRESHOLD);
  }

  /** Forgetting is invisible under two rules exactly when they refill in the same time. */
  lemma {:induction false} InvisibleExactly(a: Bucket, b: Bucket)
    requires a.IsUsable() && b.IsUsable()
    ensures (forall requests {:trigger AnsweredAlike(requests)} :: UnderRules(requests, a, b) ==> AnsweredAlike(requests))
            <==> a.FullRefill() == b.FullRefill()
  {
    if a.FullRefill() == b.FullRefill() {
      forall requests | UnderRules(requests, a, b) ensures AnsweredAlike(requests) {
        assert IsHistory(requests, a.FullRefill());
        ForgettingIsInvisible(requests, a.FullRefill());
      }
    } else if b.FullRefill() < a.FullRefill() {
      var requests := UnequalRulesCanTell(a, b);
    } else {
      var requests := UnequalRulesCanTell(b, a);
      assert UnderRules(requests, a, b);
    }
  }
}
