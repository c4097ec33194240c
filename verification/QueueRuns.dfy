/** Whole runs of the queue, and the runner that drains it. */
module QueueRuns {
  import opened Collections
  import opened BookingStatus
  import opened BookingStore
  import opened JobQueue

  /** One accepted call. A poll carries the answer it gave. */
  datatype Call =
    | Enqueue(request: EnqueueRequest)
    | Claim(poll: ClaimRequest, answer: seq<Job>)
    | Complete(id: string)
    | Release(id: string, runAfter: Instant)

  function After(jobs: Jobs, c: Call): Jobs {
    match c
    case Enqueue(r) => jobs[r.jobId := Fresh(r)]
    case Claim(r, answer) => AfterClaim(jobs, r, answer)
    case Complete(id) => jobs - {id}
    case Release(id, runAfter) => if id in jobs then jobs[id := HandedBack(jobs[id], runAfter)] else jobs
  }

  function State(run: seq<Call>): Jobs {
    if run == [] then map[] else After(State(run[..|run| - 1]), run[|run| - 1])
  }

  predicate Enqueued(run: seq<Call>, id: string) {
    exists i :: 0 <= i < |run| && run[i].Enqueue? && run[i].request.jobId == id
  }

  /** The call is one the queue accepts and answers this way. Ids are minted fresh and every poll uses one cap. */
  ghost predicate IsNext(run: seq<Call>, c: Call, cap: int) {
    match c
    case Enqueue(r) => EnqueueError(State(run), r) == NoError && !Enqueued(run, r.jobId)
    case Claim(r, answer) => IsValidClaim(r) && r.maxAttempts == cap && IsClaim(State(run), r, answer)
    case Complete(id) => id in State(run)
    case Release(id, runAfter) => id in State(run) && runAfter != ZERO
  }

  ghost predicate IsRun(run: seq<Call>, cap: int) {
    run == [] || (IsRun(run[..|run| - 1], cap) && IsNext(run[..|run| - 1], run[|run| - 1], cap))
  }

  predicate HandsOut(c: Call, id: string) {
    c.Claim? && Contains(c.answer, id)
  }

  /** How many polls so far handed this job to a worker. */
  function Handouts(run: seq<Call>, id: string): nat {
    if run == [] then 0
    else Handouts(run[..|run| - 1], id) + if HandsOut(run[|run| - 1], id) then 1 else 0
  }

  lemma {:induction false} AcceptedAt(run: seq<Call>, k: nat, cap: int)
    requires IsRun(run, cap) && k < |run|
    ensures IsRun(run[..k], cap) && IsNext(run[..k], run[k], cap)
    decreases |run|
  {
    var front := run[..|run| - 1];
    if k < |front| {
      AcceptedAt(front, k, cap);
      assert front[..k] == run[..k];
    }
  }

  lemma HandedOutIsClaimable(jobs: Jobs, r: ClaimRequest, answer: seq<Job>, id: string)
    requires IsClaim(jobs, r, answer) && Contains(answer, id)
    ensures id in jobs && IsClaimable(jobs[id], r)
  {
    var i :| 0 <= i < |answer| && answer[i].id == id;
  }

  lemma EnqueuedStays(run: seq<Call>, n: nat, id: string)
    requires n <= |run|
    ensures Enqueued(run[..n], id) ==> Enqueued(run, id)
  {
    if Enqueued(run[..n], id) {
      var i :| 0 <= i < n && run[..n][i].Enqueue? && run[..n][i].request.jobId == id;
      assert run[i].Enqueue? && run[i].request.jobId == id;
    }
  }

  lemma {:induction false} NeverEnqueued(run: seq<Call>, cap: int, id: string)
    requires IsRun(run, cap) && !Enqueued(run, id)
    ensures id !in State(run) && Handouts(run, id) == 0
  {
    if run != [] {
      var front, c := run[..|run| - 1], run[|run| - 1];
      EnqueuedStays(run, |run| - 1, id);
      NeverEnqueued(front, cap, id);
      assert run[|run| - 1].Enqueue? ==> c.request.jobId != id;
      if HandsOut(c, id) {
        HandedOutIsClaimable(State(front), c.poll, c.answer, id);
      }
    }
  }

  /**
   * Attempts count hand-outs, for any cap an int16 can reach: a job still in
   * the table shows exactly how often it was handed out, and no job, finished
   * or not, was ever handed out more often than the cap.
   */
  lemma {:induction false} AttemptsCountHandouts(run: seq<Call>, cap: int, id: string)
    requires IsRun(run, cap) && 1 <= cap <= 0x7fff
    ensures id in State(run) ==> State(run)[id].id == id && State(run)[id].attempts as int == Handouts(run, id)
    ensures Handouts(run, id) <= cap
  {
    if run != [] {
      var front, c := run[..|run| - 1], run[|run| - 1];
      AttemptsCountHandouts(front, cap, id);
      if c.Enqueue? && c.request.jobId == id {
        NeverEnqueued(front, cap, id);
      } else if HandsOut(c, id) {
        HandedOutIsClaimable(State(front), c.poll, c.answer, id);
      }
    }
  }

  // ---- A cap past int16 ----

  /** The job as n hand-outs and as many releases have left it. */
  function Cycled(id: string, at: Instant, n: nat): Job {
    Job(id, ExpireHold, OtherObject, at, Wrap16(n), ZERO, at)
  }

  function OnePoll(id: string, at: Instant, cap: int, n: nat): Call {
    var poll := ClaimRequest(at, 1, 1, cap);
    Claim(poll, [Leased(Cycled(id, at, n), poll)])
  }

  /** One job, handed out and released over and over. */
  function Cycles(id: string, at: Instant, cap: int, n: nat): seq<Call> {
    if n == 0 then [Enqueue(EnqueueRequest(id, ExpireHold, OtherObject, at, at))]
    else Cycles(id, at, cap, n - 1) + [OnePoll(id, at, cap, n - 1)] + [Release(id, at)]
  }

  lemma WrapNext(n: nat)
    ensures Wrap16(Wrap16(n) + 1) == Wrap16(n + 1)
  {
  }

  /** A poll of a table holding just this job hands it out, since no count an int16 can show reaches the cap. */
  lemma PollHandsItOut(id: string, at: Instant, cap: int, n: nat)
    requires id != "" && at > ZERO && cap > 0x7fff
    ensures var jobs := map[id := Cycled(id, at, n)];
            var c := OnePoll(id, at, cap, n);
            && IsValidClaim(c.poll) && IsClaim(jobs, c.poll, c.answer) && HandsOut(c, id)
            && After(After(jobs, c), Release(id, at)) == map[id := Cycled(id, at, n + 1)]
  {
    var jobs := map[id := Cycled(id, at, n)];
    var c := OnePoll(id, at, cap, n);
    assert IsClaimable(jobs[id], c.poll);
    assert c.answer[0].id == id;
    assert Contains(c.answer, id);
    WrapNext(n);
    assert After(jobs, c) == map[id := Leased(jobs[id], c.poll)];
  }

  lemma {:induction false} Extended(run: seq<Call>, c: Call, cap: int, id: string)
    requires IsRun(run, cap) && IsNext(run, c, cap)
    ensures IsRun(run + [c], cap) && State(run + [c]) == After(State(run), c)
    ensures Handouts(run + [c], id) == Handouts(run, id) + if HandsOut(c, id) then 1 else 0
  {
    assert (run + [c])[..|run|] == run && (run + [c])[|run|] == c;
  }

  /**
   * With a cap past int16 the count is lost: for any number there is a run that
   * hands one job out that often, and the job shows only what is left of the
   * number in sixteen bits.
   */
  lemma {:induction false} HandedOutWithoutEnd(id: string, at: Instant, cap: int, n: nat)
    requires id != "" && at > ZERO && cap > 0x7fff
    ensures var run := Cycles(id, at, cap, n);
            IsRun(run, cap) && Handouts(run, id) == n && State(run) == map[id := Cycled(id, at, n)]
    decreases n
  {
    if n == 0 {
      NotYetHandedOut(id, at, cap);
    } else {
      HandedOutWithoutEnd(id, at, cap, n - 1);
      HandedOutOnceMore(id, at, cap, n - 1);
    }
  }

  lemma {:induction false} HandedOutOnceMore(id: string, at: Instant, cap: int, n: nat)
    requires id != "" && at > ZERO && cap > 0x7fff
    requires var run := Cycles(id, at, cap, n);
             IsRun(run, cap) && Handouts(run, id) == n && State(run) == map[id := Cycled(id, at, n)]
    ensures var run := Cycles(id, at, cap, n + 1);
            IsRun(run, cap) && Handouts(run, id) == n + 1 && State(run) == map[id := Cycled(id, at, n + 1)]
  {
    CyclesGrow(id, at, cap, n + 1);
    OneMoreCycle(Cycles(id, at, cap, n), id, at, cap, n);
  }

  lemma {:induction false} NotYetHandedOut(id: string, at: Instant, cap: int)
    requires id != "" && at > ZERO && cap > 0x7fff
    ensures var run := Cycles(id, at, cap, 0);
            IsRun(run, cap) && Handouts(run, id) == 0 && State(run) == map[id := Cycled(id, at, 0)]
  {
    var start: seq<Call> := [];
    assert IsRun(start, cap) && State(start) == map[];
    assert Wrap16(0) == 0;
    Extended(start, Enqueue(EnqueueRequest(id, ExpireHold, OtherObject, at, at)), cap, id);
    assert start + [Enqueue(EnqueueRequest(id, ExpireHold, OtherObject, at, at))] == Cycles(id, at, cap, 0);
  }

  lemma {:induction false} CyclesGrow(id: string, at: Instant, cap: int, n: nat)
    requires n > 0
    ensures Cycles(id, at, cap, n) == Cycles(id, at, cap, n - 1) + [OnePoll(id, at, cap, n - 1)] + [Release(id, at)]
  {
  }

  lemma {:induction false} OneMoreCycle(front: seq<Call>, id: string, at: Instant, cap: int, n: nat)
    requires id != "" && at > ZERO && cap > 0x7fff
    requires IsRun(front, cap) && State(front) == map[id := Cycled(id, at, n)]
    ensures var run := front + [OnePoll(id, at, cap, n)] + [Release(id, at)];
            IsRun(run, cap) && Handouts(run, id) == Handouts(front, id) + 1 && State(run) == map[id := Cycled(id, at, n + 1)]
  {
    var polled := front + [OnePoll(id, at, cap, n)];
    PollHandsItOut(id, at, cap, n);
    Extended(front, OnePoll(id, at, cap, n), cap, id);
    assert id in State(polled);
    Extended(polled, Release(id, at), cap, id);
  }

  predicate CountIsTrue(run: seq<Call>, id: string) {
    id in State(run) ==> State(run)[id].attempts as int == Handouts(run, id)
  }

  /** Attempts count hand-outs, over every run and for every job, exactly when the cap fits an int16. */
  lemma {:induction false} AttemptsCountExactly(cap: int)
    requires cap >= 1
    ensures (forall run, id {:trigger CountIsTrue(run, id)} :: IsRun(run, cap) ==> CountIsTrue(run, id)) <==> cap <= 0x7fff
  {
    if cap <= 0x7fff {
      forall run: seq<Call>, id: string | IsRun(run, cap) ensures CountIsTrue(run, id) {
        AttemptsCountHandouts(run, cap, id);
      }
    } else {
      HandedOutWithoutEnd("job", 1, cap, 0x8000);
      assert Wrap16(0x8000) == -0x8000;
      assert !CountIsTrue(Cycles("job", 1, cap, 0x8000), "job");
    }
  }

  /** A parked job stays parked and is never handed out again. */
  lemma {:induction false} ParkedStaysParked(run: seq<Call>, more: nat, cap: int, id: string)
    requires IsRun(run, cap) && more <= |run| && 1 <= cap <= 0x7fff
    requires IsRun(run[..more], cap) && id in State(run[..more]) && State(run[..more])[id].IsParked(cap)
    ensures id in State(run) ==> State(run)[id].IsParked(cap)
    ensures forall k :: more <= k < |run| ==> !HandsOut(run[k], id)
    decreases |run|
  {
    if more == |run| {
      assert run[..more] == run;
    } else {
      var front, c := run[..|run| - 1], run[|run| - 1];
      assert front[..more] == run[..more];
      ParkedStaysParked(front, more, cap, id);
      AttemptsCountHandouts(front, cap, id);
      WasEnqueued(run[..more], cap, id);
      EnqueuedStays(front, more, id);
      if HandsOut(c, id) {
        HandedOutIsClaimable(State(front), c.poll, c.answer, id);
      }
      forall k | more <= k < |run| ensures !HandsOut(run[k], id) {
        if k < |front| {
          assert front[k] == run[k];
        }
      }
    }
  }

  lemma WasEnqueued(run: seq<Call>, cap: int, id: string)
    requires IsRun(run, cap) && id in State(run)
    ensures Enqueued(run, id)
  {
    if !Enqueued(run, id) {
      NeverEnqueued(run, cap, id);
    }
  }

  /**
   * A lease is kept. Once a poll hands a job out until some instant, no later
   * poll judged before that instant hands it out, unless somebody released it.
   */
  lemma {:induction false} LeaseIsKept(run: seq<Call>, first: nat, cap: int, id: string)
    requires IsRun(run, cap) && first < |run|
    requires HandsOut(run[first], id) && run[first].poll.now > ZERO
    requires forall k :: first < k < |run| ==> !(run[k].Release? && run[k].id == id)
    ensures id in State(run) ==> State(run)[id].lockedUntil >= run[first].poll.now + run[first].poll.lease
    ensures forall k :: first < k < |run| && run[k].Claim? && run[k].poll.now < run[first].poll.now + run[first].poll.lease
              ==> !HandsOut(run[k], id)
    decreases |run|
  {
    var front, c := run[..|run| - 1], run[|run| - 1];
    if first < |front| {
      assert front[first] == run[first];
      assert forall k :: first < k < |front| ==> front[k] == run[k];
      LeaseIsKept(front, first, cap, id);
      HandedOutWasEnqueued(front, first, cap, id);
      AcceptedAt(run, first, cap);
      if HandsOut(c, id) {
        HandedOutIsClaimable(State(front), c.poll, c.answer, id);
      }
    }
  }

  lemma HandedOutWasEnqueued(run: seq<Call>, k: nat, cap: int, id: string)
    requires IsRun(run, cap) && k < |run| && HandsOut(run[k], id)
    ensures Enqueued(run, id)
  {
    if !Enqueued(run, id) {
      NeverEnqueued(run, cap, id);
      HandoutCounted(run, k, id);
    }
  }

  lemma {:induction false} HandoutCounted(run: seq<Call>, k: nat, id: string)
    requires k < |run| && HandsOut(run[k], id)
    ensures Handouts(run, id) > 0
    decreases |run|
  {
    if k < |run| - 1 {
      assert run[..|run| - 1][k] == run[k];
      HandoutCounted(run[..|run| - 1], k, id);
    }
  }

  // ---- Draining ----

  function AttemptsLeft(job: Job, cap: int): nat {
    if job.IsParked(cap) then 0 else cap - job.attempts
  }

  function LeftOf(jobs: Jobs, cap: int): map<string, nat> {
    map id | id in jobs :: AttemptsLeft(jobs[id], cap)
  }

  /** Hand-outs the table still has in it. */
  ghost function Remaining(jobs: Jobs, cap: int): nat {
    Total(jobs.Keys, LeftOf(jobs, cap))
  }

  lemma {:induction false} ClaimSpends(jobs: Jobs, after: Jobs, ids: set<string>, answer: seq<Job>, cap: int)
    requires ids <= jobs.Keys && ids <= after.Keys
    requires forall i, j :: 0 <= i < j < |answer| ==> answer[i].id != answer[j].id
    requires forall i :: 0 <= i < |answer| ==> answer[i].id in ids
    requires forall id :: id in ids ==>
               AttemptsLeft(after[id], cap) == AttemptsLeft(jobs[id], cap) - if Contains(answer, id) then 1 else 0
    ensures Total(ids, LeftOf(after, cap)) + |answer| == Total(ids, LeftOf(jobs, cap))
    decreases ids
  {
    if answer == [] {
      TotalAgrees(ids, LeftOf(after, cap), LeftOf(jobs, cap));
    } else {
      var x := answer[0].id;
      assert Contains(answer, x);
      TotalTakeOut(ids, LeftOf(after, cap), x);
      TotalTakeOut(ids, LeftOf(jobs, cap), x);
      var tail := answer[1..];
      forall id | id in ids - {x} ensures Contains(tail, id) <==> Contains(answer, id) {
        if Contains(answer, id) {
          var i :| 0 <= i < |answer| && answer[i].id == id;
          assert tail[i - 1].id == id;
        }
        if Contains(tail, id) {
          var i :| 0 <= i < |tail| && tail[i].id == id;
          assert answer[i + 1].id == id;
        }
      }
      ClaimSpends(jobs, after, ids - {x}, tail, cap);
    }
  }

  /** Each job a poll hands out uses up one of the hand-outs left; nothing but an Enqueue adds any. */
  lemma CallSpends(jobs: Jobs, c: Call, cap: int)
    requires 1 <= cap <= 0x7fff && !c.Enqueue?
    requires c.Claim? ==> c.poll.maxAttempts == cap && IsClaim(jobs, c.poll, c.answer)
    requires c.Complete? || c.Release? ==> c.id in jobs
    ensures Remaining(After(jobs, c), cap) + (if c.Claim? then |c.answer| else 0) <= Remaining(jobs, cap)
  {
    var after := After(jobs, c);
    match c
    case Claim(r, answer) =>
      forall id | id in jobs
        ensures AttemptsLeft(after[id], cap) == AttemptsLeft(jobs[id], cap) - if Contains(answer, id) then 1 else 0
      {
        if Contains(answer, id) {
          HandedOutIsClaimable(jobs, r, answer, id);
        }
      }
      assert after.Keys == jobs.Keys;
      ClaimSpends(jobs, after, jobs.Keys, answer, cap);
    case Complete(id) =>
      assert after.Keys == jobs.Keys - {id};
      TotalTakeOut(jobs.Keys, LeftOf(jobs, cap), id);
      TotalAgrees(after.Keys, LeftOf(after, cap), LeftOf(jobs, cap));
    case Release(id, _) =>
      assert after.Keys == jobs.Keys;
      TotalAgrees(jobs.Keys, LeftOf(after, cap), LeftOf(jobs, cap));
  }

  function HandedOutIn(calls: seq<Call>): nat {
    if calls == [] then 0
    else HandedOutIn(calls[..|calls| - 1]) + if calls[|calls| - 1].Claim? then |calls[|calls| - 1].answer| else 0
  }

  function PollsThatFound(calls: seq<Call>): nat {
    if calls == [] then 0
    else PollsThatFound(calls[..|calls| - 1]) + if calls[|calls| - 1].Claim? && calls[|calls| - 1].answer != [] then 1 else 0
  }

  /**
   * The queue drains. However long a run goes on without an Enqueue, the polls
   * that find work are at most as many as the hand-outs left when it started.
   */
  lemma {:induction false} PollsAreFinite(run: seq<Call>, start: nat, cap: int)
    requires IsRun(run, cap) && 1 <= cap <= 0x7fff && start <= |run|
    requires forall k :: start <= k < |run| ==> !run[k].Enqueue?
    ensures Remaining(State(run), cap) + HandedOutIn(run[start..]) <= Remaining(State(run[..start]), cap)
    ensures PollsThatFound(run[start..]) <= Remaining(State(run[..start]), cap)
    decreases |run|
  {
    if start == |run| {
      assert run[..start] == run;
    } else {
      var front, c := run[..|run| - 1], run[|run| - 1];
      assert front[..start] == run[..start];
      PollsAreFinite(front, start, cap);
      CallSpends(State(front), c, cap);
      var rest := run[start..];
      assert rest[..|rest| - 1] == front[start..] && rest[|rest| - 1] == c;
      PollsFindJobs(rest);
    }
  }

  lemma {:induction false} PollsFindJobs(calls: seq<Call>)
    ensures PollsThatFound(calls) <= HandedOutIn(calls)
  {
    if calls != [] {
      PollsFindJobs(calls[..|calls| - 1]);
    }
  }

  // ---- The runner ----

  /** The policy a runner was built with; building one refuses anything else. */
  datatype Settings = Settings(lease: int, batchSize: int, maxAttempts: int, retryBackoff: int) {
    predicate IsUsable() {
      lease > 0 && retryBackoff > 0 && batchSize >= 1 && maxAttempts >= 1
    }
  }

  /** How a handler's run ended, and when a broken one was handed back. */
  datatype Outcome = Completed | Broke(at: Instant)

  function SettleOne(jobs: Jobs, job: Job, outcome: Outcome, backoff: int): Jobs {
    match outcome
    case Completed => jobs - {job.id}
    case Broke(at) => if job.id in jobs then jobs[job.id := HandedBack(jobs[job.id], at + backoff)] else jobs
  }

  /** A batch worked through in order. */
  function Settled(jobs: Jobs, batch: seq<Job>, handler: Job -> Outcome, backoff: int): Jobs {
    if batch == [] then jobs
    else
      var last := batch[|batch| - 1];
      SettleOne(Settled(jobs, batch[..|batch| - 1], handler, backoff), last, handler(last), backoff)
  }

  /** What a worked batch leaves: nothing of a job that finished, a job nobody holds of one that broke, and every other job as it was. */
  lemma {:induction false} SettledEach(jobs: Jobs, batch: seq<Job>, handler: Job -> Outcome, backoff: int, id: string)
    requires forall i, j :: 0 <= i < j < |batch| ==> batch[i].id != batch[j].id
    requires forall i :: 0 <= i < |batch| ==> batch[i].id in jobs && jobs[batch[i].id] == batch[i]
    ensures var after := Settled(jobs, batch, handler, backoff);
            if !Contains(batch, id) then (id in after <==> id in jobs) && (id in jobs ==> after[id] == jobs[id])
            else if handler(jobs[id]).Completed? then id !in after
            else id in after && after[id] == HandedBack(jobs[id], handler(jobs[id]).at + backoff)
    decreases |batch|
  {
    if batch != [] {
      var front, last := batch[..|batch| - 1], batch[|batch| - 1];
      assert front + [last] == batch;
      SettledEach(jobs, front, handler, backoff, id);
      if Contains(front, id) {
        var i :| 0 <= i < |front| && front[i].id == id;
        assert batch[i].id == id;
      } else if id == last.id {
        assert batch[|batch| - 1].id == id;
      } else {
        assert !Contains(batch, id);
      }
    }
  }

  /** However many slots work at once, each job is settled by calls that touch it alone, so the order they finish in does not matter. */
  lemma {:induction false} AnyOrderSettlesAlike(jobs: Jobs, a: seq<Job>, b: seq<Job>, handler: Job -> Outcome, backoff: int)
    requires multiset(a) == multiset(b)
    requires forall i, j :: 0 <= i < j < |a| ==> a[i].id != a[j].id
    requires forall i :: 0 <= i < |a| ==> a[i].id in jobs && jobs[a[i].id] == a[i]
    ensures Settled(jobs, a, handler, backoff) == Settled(jobs, b, handler, backoff)
  {
    SameJobs(jobs, a, b);
    forall id ensures Contains(a, id) <==> Contains(b, id) {
      SameContents(a, b, id);
      SameContents(b, a, id);
    }
    var left, right := Settled(jobs, a, handler, backoff), Settled(jobs, b, handler, backoff);
    forall id ensures (id in left <==> id in right) && (id in left ==> left[id] == right[id]) {
      SettledEach(jobs, a, handler, backoff, id);
      SettledEach(jobs, b, handler, backoff, id);
    }
    assert left == right;
  }

  lemma SameContents(a: seq<Job>, b: seq<Job>, id: string)
    requires multiset(a) == multiset(b)
    ensures Contains(a, id) ==> Contains(b, id)
  {
    if Contains(a, id) {
      var i :| 0 <= i < |a| && a[i].id == id;
      assert a[i] in multiset(b);
      var k :| 0 <= k < |b| && b[k] == a[i];
    }
  }

  /** A rearranged batch is still one row of the table to each id. */
  lemma {:induction false} SameJobs(jobs: Jobs, a: seq<Job>, b: seq<Job>)
    requires multiset(a) == multiset(b)
    requires forall i, j :: 0 <= i < j < |a| ==> a[i].id != a[j].id
    requires forall i :: 0 <= i < |a| ==> a[i].id in jobs && jobs[a[i].id] == a[i]
    ensures forall i, j :: 0 <= i < j < |b| ==> b[i].id != b[j].id
    ensures forall i :: 0 <= i < |b| ==> b[i].id in jobs && jobs[b[i].id] == b[i]
  {
    forall i | 0 <= i < |b| ensures b[i].id in jobs && jobs[b[i].id] == b[i] {
      assert b[i] in multiset(a);
      var k :| 0 <= k < |a| && a[k] == b[i];
    }
    forall i, j | 0 <= i < j < |b| ensures b[i].id != b[j].id {
      if b[i] == b[j] {
        TwiceInSeq(b, i, j);
        AtMostOnce(a, b[i]);
      }
    }
  }

  lemma TwiceInSeq(b: seq<Job>, i: nat, j: nat)
    requires i < j < |b| && b[i] == b[j]
    ensures multiset(b)[b[i]] >= 2
  {
    assert b == b[..j] + [b[j]] + b[j + 1..];
    assert b[..j][i] == b[i];
    assert b[i] in multiset(b[..j]);
  }

  lemma {:induction false} AtMostOnce(a: seq<Job>, x: Job)
    requires forall i, j :: 0 <= i < j < |a| ==> a[i].id != a[j].id
    ensures multiset(a)[x] <= 1
    decreases |a|
  {
    if a != [] {
      var front, last := a[..|a| - 1], a[|a| - 1];
      assert a == front + [last];
      AtMostOnce(front, x);
      forall i | 0 <= i < |front| ensures front[i] != last {
        assert a[i].id != a[|a| - 1].id;
      }
      assert last !in multiset(front);
    }
  }

  class Runner {
    const queue: MemoryQueue
    const settings: Settings

    constructor (queue: MemoryQueue, settings: Settings)
      requires settings.IsUsable()
      ensures this.queue == queue && this.settings == settings
    {
      this.queue := queue;
      this.settings := settings;
    }

    /** One poll, and its batch worked through to its end. The handlers' outcomes are given. */
    method RunOnce(now: Instant, handler: Job -> Outcome) returns (claimed: nat, error: QueueError, ghost batch: seq<Job>)
      requires queue.Valid() && settings.IsUsable()
      requires forall j {:trigger handler(j)} :: handler(j).Broke? ==> handler(j).at > ZERO
      modifies queue
      ensures queue.Valid()
      ensures error == if now == ZERO then InvalidRequest else NoError
      ensures !error.NoError? ==> claimed == 0 && queue.jobs == old(queue.jobs)
      ensures error.NoError? ==>
                var poll := ClaimRequest(now, settings.lease, settings.batchSize, settings.maxAttempts);
                && IsClaim(old(queue.jobs), poll, batch)
                && claimed == |batch|
                && queue.jobs == Settled(AfterClaim(old(queue.jobs), poll, batch), batch, handler, settings.retryBackoff)
    {
      var leased;
      leased, error := queue.Claim(ClaimRequest(now, settings.lease, settings.batchSize, settings.maxAttempts));
      batch := leased;
      if !error.NoError? {
        return 0, error, batch;
      }
      DispatchBatch(leased, handler);
      return |leased|, NoError, batch;
    }

    method DispatchBatch(leased: seq<Job>, handler: Job -> Outcome)
      requires queue.Valid() && settings.IsUsable() && forall i :: 0 <= i < |leased| ==> leased[i].id != ""
      requires forall j {:trigger handler(j)} :: handler(j).Broke? ==> handler(j).at > ZERO
      modifies queue
      ensures queue.Valid()
      ensures queue.jobs == Settled(old(queue.jobs), leased, handler, settings.retryBackoff)
    {
      for n := 0 to |leased|
        invariant queue.Valid()
        invariant queue.jobs == Settled(old(queue.jobs), leased[..n], handler, settings.retryBackoff)
      {
        assert leased[..n + 1][..n] == leased[..n];
        Dispatch(leased[n], handler(leased[n]));
      }
      assert leased[..|leased|] == leased;
    }

    /** Removed when its handler finished, handed back for another try when it did not. A job gone by then is nothing to settle. */
    method Dispatch(job: Job, outcome: Outcome)
      requires queue.Valid() && settings.IsUsable() && job.id != "" && (outcome.Broke? ==> outcome.at > ZERO)
      modifies queue
      ensures queue.Valid() && queue.jobs == SettleOne(old(queue.jobs), job, outcome, settings.retryBackoff)
    {
      var error;
      match outcome
      case Completed =>
        error := queue.Complete(job.id);
        assert error.JobNotFound? ==> old(queue.jobs) - {job.id} == old(queue.jobs);
      case Broke(at) =>
        error := queue.Release(job.id, at + settings.retryBackoff);
    }
  }
}
