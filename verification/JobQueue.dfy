/**
 * The background queue: leases, attempts, parking.
 *
 * A poll is described by what its answer must be, and that description is shown
 * to leave exactly one answer. The class does it with the loops and the sort.
 */
module JobQueue {
  import opened Collections
  import opened BookingStatus
  import opened BookingStore

  datatype Kind = ExpireHold | ReconcileRefund

  /** What the payload column can hold, as far as anything here reads it. */
  datatype Payload = ForBooking(bookingId: string) | OtherObject | NotAnObject

  datatype Job = Job(
    id: string, kind: Kind, payload: Payload, runAfter: Instant,
    attempts: Int16, lockedUntil: Instant, createdAt: Instant)
  {
    predicate IsClaimed(now: Instant) {
      lockedUntil != ZERO && lockedUntil > now
    }

    predicate IsDue(now: Instant) {
      runAfter <= now
    }

    predicate IsParked(maxAttempts: int) {
      attempts as int >= maxAttempts
    }
  }

  datatype EnqueueRequest = EnqueueRequest(jobId: string, kind: Kind, payload: Payload, runAfter: Instant, now: Instant)
  datatype ClaimRequest = ClaimRequest(now: Instant, lease: int, limit: int, maxAttempts: int)
  datatype QueueError = InvalidRequest | InvalidPayload | DuplicateJob | JobNotFound | NoError

  type Jobs = map<string, Job>

  /** An int16 that runs past its top starts again at its bottom. */
  function Wrap16(n: int): Int16 {
    (n + 0x8000) % 0x1_0000 - 0x8000
  }

  // ---- One poll ----

  predicate IsClaimable(job: Job, r: ClaimRequest) {
    job.IsDue(r.now) && !job.IsClaimed(r.now) && !job.IsParked(r.maxAttempts)
  }

  function Leased(job: Job, r: ClaimRequest): Job {
    job.(attempts := Wrap16(job.attempts + 1), lockedUntil := r.now + r.lease)
  }

  /** Earliest schedule first, the id breaking ties. */
  predicate Before(a: Job, b: Job) {
    a.runAfter < b.runAfter || (a.runAfter == b.runAfter && StringLess(a.id, b.id))
  }

  predicate IsValidClaim(r: ClaimRequest) {
    r.now != ZERO && r.lease > 0 && r.limit >= 1 && r.maxAttempts >= 1
  }

  predicate Contains(jobs: seq<Job>, id: string) {
    exists i :: 0 <= i < |jobs| && jobs[i].id == id
  }

  ghost predicate InOrder(jobs: seq<Job>) {
    forall i, j :: 0 <= i < j < |jobs| ==> Before(jobs[i], jobs[j]) && jobs[i].id != jobs[j].id
  }

  /** The answer to a poll: claimable jobs, leased, in order, and none passed over for a later one. */
  ghost predicate IsClaim(jobs: Jobs, r: ClaimRequest, answer: seq<Job>) {
    && |answer| <= r.limit
    && InOrder(answer)
    && (forall i :: 0 <= i < |answer| ==>
         && answer[i].id in jobs
         && IsClaimable(jobs[answer[i].id], r)
         && answer[i] == Leased(jobs[answer[i].id], r))
    && (forall id :: id in jobs && IsClaimable(jobs[id], r) && !Contains(answer, id) ==>
         |answer| == r.limit && forall i :: 0 <= i < |answer| ==> Before(answer[i], jobs[id]))
  }

  /** The same table with the answered rows leased. */
  function AfterClaim(jobs: Jobs, r: ClaimRequest, answer: seq<Job>): Jobs {
    map id | id in jobs :: if Contains(answer, id) then Leased(jobs[id], r) else jobs[id]
  }

  lemma LeaseOneMore(jobs: Jobs, r: ClaimRequest, answer: seq<Job>, job: Job)
    requires job.id in jobs && job == Leased(jobs[job.id], r)
    ensures AfterClaim(jobs, r, answer + [job]) == AfterClaim(jobs, r, answer)[job.id := job]
  {
    var more := answer + [job];
    assert more[|answer|].id == job.id;
    forall id | id in jobs ensures Contains(more, id) <==> Contains(answer, id) || id == job.id {
      if Contains(answer, id) {
        var i :| 0 <= i < |answer| && answer[i].id == id;
        assert more[i].id == id;
      }
    }
  }

  lemma BeforeIsStrict(a: Job, b: Job)
    ensures !(Before(a, b) && Before(b, a))
    ensures a.id != b.id ==> Before(a, b) || Before(b, a)
  {
    StringLessTotal(a.id, b.id);
  }

  lemma BeforeTransitive(a: Job, b: Job, c: Job)
    requires Before(a, b) && Before(b, c)
    ensures Before(a, c)
  {
    if a.runAfter == b.runAfter == c.runAfter {
      StringLessTransitive(a.id, b.id, c.id);
    }
  }

  /** There is one right answer to a poll: two that fit the description agree row by row. */
  lemma {:induction false} ClaimIsDetermined(jobs: Jobs, r: ClaimRequest, a: seq<Job>, b: seq<Job>, n: nat)
    requires forall id :: id in jobs ==> jobs[id].id == id
    requires IsClaim(jobs, r, a) && IsClaim(jobs, r, b) && n <= |a|
    ensures n <= |b| && a[..n] == b[..n]
    decreases n
  {
    if n > 0 {
      ClaimIsDetermined(jobs, r, a, b, n - 1);
      var x := a[n - 1];
      NotTakenEarlier(a, b, n - 1);
      assert n <= r.limit && (|b| == n - 1 ==> !Contains(b, x.id));
      if |b| >= n {
        var y := b[n - 1];
        NotTakenEarlier(b, a, n - 1);
        if x.id != y.id {
          BeforeIsStrict(x, y);
          if Before(x, y) {
            NextIsLeast(jobs, r, b, x, n - 1);
          } else {
            NextIsLeast(jobs, r, a, y, n - 1);
          }
        }
        assert a[..n] == a[..n - 1] + [x] && b[..n] == b[..n - 1] + [y];
      }
    }
  }

  lemma NotTakenEarlier(a: seq<Job>, b: seq<Job>, n: nat)
    requires InOrder(a) && n < |a| && n <= |b| && a[..n] == b[..n]
    ensures forall i :: 0 <= i < n ==> b[i].id != a[n].id
  {
    forall i | 0 <= i < n ensures b[i].id != a[n].id {
      assert b[i] == b[..n][i] == a[..n][i] == a[i];
      assert Before(a[i], a[n]);
    }
  }

  /** A claimable job not among the first n answered comes no earlier than the next one answered. */
  lemma NextIsLeast(jobs: Jobs, r: ClaimRequest, a: seq<Job>, x: Job, n: nat)
    requires IsClaim(jobs, r, a) && n < |a|
    requires x.id in jobs && IsClaimable(jobs[x.id], r) && x == Leased(jobs[x.id], r)
    requires forall i :: 0 <= i < n ==> a[i].id != x.id
    ensures x.id == a[n].id || Before(a[n], x)
  {
    if Contains(a, x.id) {
      var i :| 0 <= i < |a| && a[i].id == x.id;
      assert i > n ==> Before(a[n], a[i]);
      assert a[i] == x;
    }
  }

  // ---- What each call does ----

  function ScheduledAt(r: EnqueueRequest): Instant {
    if r.runAfter == ZERO then r.now else r.runAfter
  }

  function EnqueueError(jobs: Jobs, r: EnqueueRequest): QueueError {
    if r.jobId == "" || r.now == ZERO then InvalidRequest
    else if r.payload.NotAnObject? then InvalidPayload
    else if r.jobId in jobs then DuplicateJob
    else NoError
  }

  function Fresh(r: EnqueueRequest): Job {
    Job(r.jobId, r.kind, r.payload, ScheduledAt(r), 0, ZERO, r.now)
  }

  function HandedBack(job: Job, runAfter: Instant): Job {
    job.(lockedUntil := ZERO, runAfter := runAfter)
  }

  datatype Depth = Depth(ready: nat, claimed: nat, parked: nat)

  function ParkedIn(jobs: Jobs, ids: set<string>, cap: int): set<string> {
    set id | id in ids && id in jobs && jobs[id].IsParked(cap)
  }

  function ClaimedIn(jobs: Jobs, ids: set<string>, cap: int, now: Instant): set<string> {
    set id | id in ids && id in jobs && !jobs[id].IsParked(cap) && jobs[id].IsClaimed(now)
  }

  /** Ready is exactly what a poll at this instant could take. */
  function ReadyIn(jobs: Jobs, ids: set<string>, cap: int, now: Instant): set<string> {
    set id | id in ids && id in jobs && IsClaimable(jobs[id], ClaimRequest(now, 0, 0, cap))
  }

  function DepthOf(jobs: Jobs, ids: set<string>, cap: int, now: Instant): Depth {
    Depth(|ReadyIn(jobs, ids, cap, now)|, |ClaimedIn(jobs, ids, cap, now)|, |ParkedIn(jobs, ids, cap)|)
  }

  lemma DepthOfInsert(jobs: Jobs, ids: set<string>, id: string, cap: int, now: Instant)
    requires id in jobs && id !in ids
    ensures var d := DepthOf(jobs, ids, cap, now);
            DepthOf(jobs, ids + {id}, cap, now) ==
            if jobs[id].IsParked(cap) then d.(parked := d.parked + 1)
            else if jobs[id].IsClaimed(now) then d.(claimed := d.claimed + 1)
            else if jobs[id].IsDue(now) then d.(ready := d.ready + 1)
            else d
  {
    GrowsBy(ParkedIn(jobs, ids, cap), ParkedIn(jobs, ids + {id}, cap), id);
    GrowsBy(ClaimedIn(jobs, ids, cap, now), ClaimedIn(jobs, ids + {id}, cap, now), id);
    GrowsBy(ReadyIn(jobs, ids, cap, now), ReadyIn(jobs, ids + {id}, cap, now), id);
  }

  lemma GrowsBy(small: set<string>, big: set<string>, id: string)
    requires id !in small && forall k :: k in big && k != id <==> k in small
    ensures |big| == |small| + if id in big then 1 else 0
  {
    assert big == small + (if id in big then {id} else {});
  }

  // ---- Sorting ----

  function InsertJob(job: Job, sorted: seq<Job>): seq<Job> {
    if sorted == [] || Before(job, sorted[0]) then [job] + sorted
    else [sorted[0]] + InsertJob(job, sorted[1..])
  }

  /** The library sort, by Before. */
  function SortJobs(jobs: seq<Job>): seq<Job> {
    if jobs == [] then [] else InsertJob(jobs[0], SortJobs(jobs[1..]))
  }

  lemma {:induction false} InsertKeepsAll(job: Job, sorted: seq<Job>)
    ensures multiset(InsertJob(job, sorted)) == multiset(sorted) + multiset{job}
  {
    if sorted != [] && !Before(job, sorted[0]) {
      InsertKeepsAll(job, sorted[1..]);
      assert sorted == [sorted[0]] + sorted[1..];
    }
  }

  lemma {:induction false} InsertKeepsOrder(job: Job, sorted: seq<Job>)
    requires InOrder(sorted) && forall i :: 0 <= i < |sorted| ==> sorted[i].id != job.id
    ensures InOrder(InsertJob(job, sorted))
  {
    if sorted == [] {
    } else if Before(job, sorted[0]) {
      forall i | 0 <= i < |sorted| ensures Before(job, sorted[i]) {
        if i > 0 {
          assert Before(sorted[0], sorted[i]);
          BeforeTransitive(job, sorted[0], sorted[i]);
        }
      }
    } else {
      var tail := sorted[1..];
      InsertKeepsOrder(job, tail);
      FirstStaysFirst(job, sorted);
      var whole := InsertJob(job, sorted);
      forall i, j | 0 <= i < j < |whole| ensures Before(whole[i], whole[j]) && whole[i].id != whole[j].id {
        assert whole[j] == InsertJob(job, tail)[j - 1];
        if i > 0 {
          assert whole[i] == InsertJob(job, tail)[i - 1];
        }
      }
    }
  }

  lemma FirstStaysFirst(job: Job, sorted: seq<Job>)
    requires sorted != [] && InOrder(sorted) && sorted[0].id != job.id && !Before(job, sorted[0])
    ensures var rest := InsertJob(job, sorted[1..]);
            forall i :: 0 <= i < |rest| ==> Before(sorted[0], rest[i]) && sorted[0].id != rest[i].id
  {
    var tail := sorted[1..];
    var rest := InsertJob(job, tail);
    InsertKeepsAll(job, tail);
    BeforeIsStrict(job, sorted[0]);
    forall i | 0 <= i < |rest| ensures Before(sorted[0], rest[i]) && sorted[0].id != rest[i].id {
      assert rest[i] in multiset(rest);
      if rest[i] != job {
        assert rest[i] in multiset(tail);
        var k :| 0 <= k < |tail| && tail[k] == rest[i];
        assert Before(sorted[0], sorted[k + 1]);
      }
    }
  }

  lemma {:induction false} SortSorts(jobs: seq<Job>)
    requires forall i, j :: 0 <= i < j < |jobs| ==> jobs[i].id != jobs[j].id
    ensures InOrder(SortJobs(jobs))
    ensures multiset(SortJobs(jobs)) == multiset(jobs)
  {
    if jobs != [] {
      var tail := jobs[1..];
      assert jobs == [jobs[0]] + tail;
      SortSorts(tail);
      var sorted := SortJobs(tail);
      forall i | 0 <= i < |sorted| ensures sorted[i].id != jobs[0].id {
        assert sorted[i] in multiset(sorted);
        var k :| 0 <= k < |tail| && tail[k] == sorted[i];
        assert jobs[k + 1] == sorted[i];
      }
      InsertKeepsAll(jobs[0], sorted);
      InsertKeepsOrder(jobs[0], sorted);
    }
  }

  lemma SortedRows(jobs: Jobs, r: ClaimRequest, claimable: seq<Job>)
    requires forall i :: 0 <= i < |claimable| ==>
               claimable[i].id in jobs && claimable[i] == jobs[claimable[i].id] && IsClaimable(claimable[i], r)
    requires forall id :: id in jobs && IsClaimable(jobs[id], r) ==> jobs[id] in claimable
    requires forall i, j :: 0 <= i < j < |claimable| ==> claimable[i].id != claimable[j].id
    ensures var sorted := SortJobs(claimable);
            && InOrder(sorted)
            && (forall i :: 0 <= i < |sorted| ==>
                 sorted[i].id in jobs && sorted[i] == jobs[sorted[i].id] && IsClaimable(sorted[i], r))
            && (forall id :: id in jobs && IsClaimable(jobs[id], r) ==> jobs[id] in sorted)
  {
    SortSorts(claimable);
    var sorted := SortJobs(claimable);
    forall i | 0 <= i < |sorted|
      ensures sorted[i].id in jobs && sorted[i] == jobs[sorted[i].id] && IsClaimable(sorted[i], r)
    {
      assert sorted[i] in multiset(sorted);
      var k :| 0 <= k < |claimable| && claimable[k] == sorted[i];
    }
    forall id | id in jobs && IsClaimable(jobs[id], r) ensures jobs[id] in sorted {
      assert jobs[id] in multiset(claimable);
      assert jobs[id] in multiset(sorted);
    }
  }

  /** Sorting what is claimable, cutting at the limit and leasing what is left is the right answer. */
  lemma CutIsClaim(jobs: Jobs, r: ClaimRequest, sorted: seq<Job>, answer: seq<Job>)
    requires forall id :: id in jobs ==> jobs[id].id == id
    requires InOrder(sorted) && r.limit >= 1
    requires forall i :: 0 <= i < |sorted| ==> sorted[i].id in jobs && sorted[i] == jobs[sorted[i].id] && IsClaimable(sorted[i], r)
    requires forall id :: id in jobs && IsClaimable(jobs[id], r) ==> jobs[id] in sorted
    requires |answer| == if |sorted| > r.limit then r.limit else |sorted|
    requires forall i :: 0 <= i < |answer| ==> answer[i] == Leased(sorted[i], r)
    ensures IsClaim(jobs, r, answer)
  {
    forall i, j | 0 <= i < j < |answer| ensures Before(answer[i], answer[j]) && answer[i].id != answer[j].id {
      assert Before(sorted[i], sorted[j]);
    }
    forall id | id in jobs && IsClaimable(jobs[id], r) && !Contains(answer, id)
      ensures |answer| == r.limit && forall i :: 0 <= i < |answer| ==> Before(answer[i], jobs[id])
    {
      var k :| 0 <= k < |sorted| && sorted[k] == jobs[id];
      assert forall i :: 0 <= i < |answer| ==> answer[i].id == sorted[i].id && answer[i].id != id;
      forall i | 0 <= i < |answer| ensures Before(answer[i], jobs[id]) {
        assert Before(sorted[i], sorted[k]);
      }
    }
  }

  // ---- The queue ----

  class MemoryQueue {
    var jobs: map<string, Job>

    ghost predicate Valid()
      reads this
    {
      forall id :: id in jobs ==> jobs[id].id == id && id != ""
    }

    constructor ()
      ensures Valid() && jobs == map[]
    {
      jobs := map[];
    }

    method Enqueue(r: EnqueueRequest) returns (error: QueueError)
      requires Valid()
      modifies this
      ensures Valid()
      ensures error == EnqueueError(old(jobs), r)
      ensures jobs == if error.NoError? then old(jobs)[r.jobId := Fresh(r)] else old(jobs)
    {
      if r.jobId == "" || r.now == ZERO {
        return InvalidRequest;
      }
      if r.payload.NotAnObject? {
        return InvalidPayload;
      }
      if r.jobId in jobs {
        return DuplicateJob;
      }
      var written := Job(r.jobId, r.kind, r.payload, ScheduledAt(r), 0, ZERO, r.now);
      jobs := jobs[written.id := written];
      return NoError;
    }

    method ClaimableLocked(r: ClaimRequest) returns (claimable: seq<Job>)
      requires Valid()
      ensures forall i :: 0 <= i < |claimable| ==>
                claimable[i].id in jobs && claimable[i] == jobs[claimable[i].id] && IsClaimable(claimable[i], r)
      ensures forall id :: id in jobs && IsClaimable(jobs[id], r) ==> jobs[id] in claimable
      ensures forall i, j :: 0 <= i < j < |claimable| ==> claimable[i].id != claimable[j].id
    {
      claimable := [];
      var rest := jobs.Keys;
      while rest != {}
        invariant rest <= jobs.Keys
        invariant forall i :: 0 <= i < |claimable| ==>
                    claimable[i].id in jobs && claimable[i].id !in rest && claimable[i] == jobs[claimable[i].id] && IsClaimable(claimable[i], r)
        invariant forall id :: id in jobs && id !in rest && IsClaimable(jobs[id], r) ==> jobs[id] in claimable
        invariant forall i, j :: 0 <= i < j < |claimable| ==> claimable[i].id != claimable[j].id
        decreases rest
      {
        var id :| id in rest;
        rest := rest - {id};
        var job := jobs[id];
        if !job.IsDue(r.now) {
          continue;
        }
        if job.IsClaimed(r.now) {
          continue;
        }
        if job.IsParked(r.maxAttempts) {
          continue;
        }
        claimable := claimable + [job];
      }
    }

    method Claim(r: ClaimRequest) returns (answer: seq<Job>, error: QueueError)
      requires Valid()
      modifies this
      ensures Valid()
      ensures error == if IsValidClaim(r) then NoError else InvalidRequest
      ensures !error.NoError? ==> answer == [] && jobs == old(jobs)
      ensures error.NoError? ==> IsClaim(old(jobs), r, answer) && jobs == AfterClaim(old(jobs), r, answer)
    {
      if !(r.now != ZERO && r.lease > 0) || !(r.limit >= 1 && r.maxAttempts >= 1) {
        return [], InvalidRequest;
      }
      var claimable := ClaimableLocked(r);
      SortedRows(jobs, r, claimable);
      var sorted := SortJobs(claimable);
      var taken := if |sorted| > r.limit then sorted[..r.limit] else sorted;
      answer := LeaseLocked(r, taken);
      CutIsClaim(old(jobs), r, sorted, answer);
      return answer, NoError;
    }

    method LeaseLocked(r: ClaimRequest, taken: seq<Job>) returns (answer: seq<Job>)
      requires Valid() && InOrder(taken)
      requires forall i :: 0 <= i < |taken| ==> taken[i].id in jobs && taken[i] == jobs[taken[i].id]
      modifies this
      ensures Valid()
      ensures |answer| == |taken| && forall i :: 0 <= i < |answer| ==> answer[i] == Leased(taken[i], r)
      ensures jobs == AfterClaim(old(jobs), r, answer)
    {
      answer := [];
      for n := 0 to |taken|
        invariant |answer| == n && forall i :: 0 <= i < n ==> answer[i] == Leased(taken[i], r)
        invariant jobs == AfterClaim(old(jobs), r, answer)
      {
        var job := taken[n];
        job := job.(attempts := Wrap16(job.attempts + 1), lockedUntil := r.now + r.lease);
        LeaseOneMore(old(jobs), r, answer, job);
        jobs := jobs[job.id := job];
        answer := answer + [job];
      }
    }

    method Complete(jobId: string) returns (error: QueueError)
      requires Valid()
      modifies this
      ensures Valid()
      ensures error == if jobId == "" then InvalidRequest else if jobId !in old(jobs) then JobNotFound else NoError
      ensures jobs == if error.NoError? then old(jobs) - {jobId} else old(jobs)
    {
      if jobId == "" {
        return InvalidRequest;
      }
      if jobId !in jobs {
        return JobNotFound;
      }
      jobs := jobs - {jobId};
      return NoError;
    }

    method Release(jobId: string, runAfter: Instant) returns (error: QueueError)
      requires Valid()
      modifies this
      ensures Valid()
      ensures error == if jobId == "" || runAfter == ZERO then InvalidRequest else if jobId !in old(jobs) then JobNotFound else NoError
      ensures jobs == if error.NoError? then old(jobs)[jobId := HandedBack(old(jobs)[jobId], runAfter)] else old(jobs)
    {
      if jobId == "" || runAfter == ZERO {
        return InvalidRequest;
      }
      if jobId !in jobs {
        return JobNotFound;
      }
      var held := jobs[jobId];
      held := held.(lockedUntil := ZERO, runAfter := runAfter);
      jobs := jobs[held.id := held];
      return NoError;
    }

    method CountDepth(now: Instant, maxAttempts: int) returns (depth: Depth, error: QueueError)
      requires Valid()
      ensures error == if now == ZERO || maxAttempts < 1 then InvalidRequest else NoError
      ensures error.NoError? ==> depth == DepthOf(jobs, jobs.Keys, maxAttempts, now)
    {
      depth := Depth(0, 0, 0);
      if now == ZERO || maxAttempts < 1 {
        return depth, InvalidRequest;
      }
      var rest := jobs.Keys;
      while rest != {}
        invariant rest <= jobs.Keys
        invariant depth == DepthOf(jobs, jobs.Keys - rest, maxAttempts, now)
        decreases rest
      {
        var id :| id in rest;
        DepthOfInsert(jobs, jobs.Keys - rest, id, maxAttempts, now);
        assert jobs.Keys - (rest - {id}) == jobs.Keys - rest + {id};
        rest := rest - {id};
        var job := jobs[id];
        if job.IsParked(maxAttempts) {
          depth := depth.(parked := depth.parked + 1);
        } else if job.IsClaimed(now) {
          depth := depth.(claimed := depth.claimed + 1);
        } else if job.IsDue(now) {
          depth := depth.(ready := depth.ready + 1);
        }
      }
      assert jobs.Keys - rest == jobs.Keys;
      return depth, NoError;
    }
  }
}
