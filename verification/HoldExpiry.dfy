/**
 * The release of an abandoned hold, from the grant to the handler.
 *
 * One clock that never goes back stamps everything, though any call may read
 * it well before it acts. Checkouts grant holds and then write the release, or
 * die in between; anybody may confirm, cancel, fail or expire a booking; other
 * jobs share the queue; workers poll, handle, complete, release and crash in
 * any order and may handle one job any number of times.
 */
module HoldExpiry {
  import opened Collections
  import opened BookingStatus
  import opened BookingStore
  import opened BookingRuns
  import opened Checkout
  import Q = JobQueue

  /** A job as one poll handed it out, and the instant that poll was judged by. */
  datatype Handout = Handout(job: Q.Job, polledAt: Instant)

  datatype World = World(
    now: Instant,
    store: Store,
    jobs: Q.Jobs,
    jobIds: set<string>,             // every job id ever minted
    granted: set<Booking>,           // holds granted whose release may still be written
    handouts: set<Handout>)

  datatype Step =
    | Tick(now: Instant)
    | Grant(studentId: string, classId: string, bookingId: string, readAt: Instant)
    | WriteRelease(hold: Booking, jobId: string, readAt: Instant)
    | Act(op: Op)
    | WriteOther(request: Q.EnqueueRequest)
    | Poll(poll: Q.ClaimRequest, answer: seq<Q.Job>)
    | Handle(h: Handout, readAt: Instant)
    | Complete(id: string)
    | HandBack(h: Handout, readAt: Instant, backoff: int)

  /** The clock was read at some earlier instant after the zero one. */
  predicate WasRead(w: World, at: Instant) {
    ZERO < at <= w.now
  }

  ghost predicate Enabled(w: World, p: Policy, step: Step) {
    match step
    case Tick(now) => now >= w.now
    case Grant(studentId, classId, bookingId, readAt) =>
      studentId != "" && classId != "" && bookingId != "" && bookingId !in w.store.bookings && WasRead(w, readAt)
    case WriteRelease(hold, jobId, readAt) => hold in w.granted && jobId !in w.jobIds && WasRead(w, readAt)
    case Act(op) => !op.Hold? && op.Now() <= w.now
    case WriteOther(r) => !r.kind.ExpireHold? && r.jobId !in w.jobIds && Q.EnqueueError(w.jobs, r).NoError?
    case Poll(poll, answer) => Q.IsValidClaim(poll) && WasRead(w, poll.now) && Q.IsClaim(w.jobs, poll, answer)
    case Handle(h, readAt) => h in w.handouts && h.polledAt <= readAt <= w.now
    case Complete(id) => true
    case HandBack(h, readAt, backoff) => h in w.handouts && h.polledAt <= readAt <= w.now && backoff > 0
  }

  function GrantRequest(p: Policy, studentId: string, classId: string, bookingId: string, readAt: Instant): HoldRequest {
    HoldRequestFor(p, studentId, classId, HoldTicket(bookingId, "", readAt, readAt))
  }

  function HandedOut(poll: Q.ClaimRequest, answer: seq<Q.Job>): set<Handout> {
    set job | job in answer :: Handout(job, poll.now)
  }

  function Fire(w: World, p: Policy, step: Step): World {
    match step
    case Tick(now) => w.(now := now)
    case Grant(studentId, classId, bookingId, readAt) =>
      var d := HoldDecision(w.store, GrantRequest(p, studentId, classId, bookingId, readAt), true);
      w.(store := Commit(w.store, d.write), granted := w.granted + if d.answer.Done? then {d.answer.booking} else {})
    case WriteRelease(hold, jobId, readAt) =>
      w.(jobs := AfterSchedule(w.jobs, hold.id, ExpiryJob(p, hold, HoldTicket(hold.id, jobId, readAt, readAt))),
         jobIds := w.jobIds + {jobId}, granted := w.granted - {hold})
    case Act(op) => w.(store := Apply(w.store, op, true))
    case WriteOther(r) => w.(jobs := w.jobs[r.jobId := Q.Fresh(r)], jobIds := w.jobIds + {r.jobId})
    case Poll(poll, answer) => w.(jobs := Q.AfterClaim(w.jobs, poll, answer), handouts := w.handouts + HandedOut(poll, answer))
    case Handle(h, readAt) => if h.job.kind.ExpireHold? then w.(store := HandleExpiry(w.store, h.job, readAt).1) else w
    case Complete(id) => w.(jobs := w.jobs - {id})
    case HandBack(h, readAt, backoff) =>
      if h.job.id in w.jobs then w.(jobs := w.jobs[h.job.id := Q.HandedBack(w.jobs[h.job.id], readAt + backoff)]) else w
  }

  // ---- The invariant ----

  /** The booking exists and carries no deadline past this instant. */
  predicate LapsesBy(s: Store, id: string, at: Instant) {
    id in s.bookings && s.bookings[id].holdExpiresAt <= at
  }

  /** A pending release names a booking, and is due no earlier than that booking's deadline. */
  predicate ReleaseOk(s: Store, job: Q.Job, due: Instant) {
    job.kind.ExpireHold? ==> due > ZERO && BookingNamed(job.payload).Some? && LapsesBy(s, job.payload.bookingId, due)
  }

  predicate SameWork(a: Q.Job, b: Q.Job) {
    a.id == b.id && a.kind == b.kind && a.payload == b.payload
  }

  ghost predicate JobOk(w: World, id: string)
    requires id in w.jobs
  {
    w.jobs[id].id == id && id in w.jobIds && ReleaseOk(w.store, w.jobs[id], w.jobs[id].runAfter)
  }

  ghost predicate HandoutOk(w: World, h: Handout) {
    && h.polledAt > ZERO
    && ReleaseOk(w.store, h.job, h.polledAt)
    && h.job.id in w.jobIds
    && (h.job.id in w.jobs ==> SameWork(w.jobs[h.job.id], h.job))
  }

  predicate GrantOk(w: World, b: Booking) {
    b.id != "" && b.holdExpiresAt > ZERO && LapsesBy(w.store, b.id, b.holdExpiresAt)
  }

  ghost predicate WorldOk(w: World) {
    && w.now > ZERO
    && StoreOk(w.store)
    && (forall id {:trigger JobOk(w, id)} :: id in w.jobs ==> JobOk(w, id))
    && (forall h {:trigger HandoutOk(w, h)} :: h in w.handouts ==> HandoutOk(w, h))
    && (forall b {:trigger GrantOk(w, b)} :: b in w.granted ==> GrantOk(w, b))
  }

  /** Bookings stay, and a deadline is only ever taken away. */
  predicate DeadlinesOnlyFall(s: Store, t: Store) {
    forall id :: id in s.bookings ==>
      id in t.bookings && (t.bookings[id].holdExpiresAt == s.bookings[id].holdExpiresAt || t.bookings[id].holdExpiresAt == ZERO)
  }

  lemma WritesOnlyLower(s: Store, op: Op)
    requires StoreOk(s) && IsFresh(s, op)
    ensures DeadlinesOnlyFall(s, Apply(s, op, true))
  {
    if op.Target() in s.bookings {
      assert EntryOk(s, op.Target());
    }
  }

  /** Changing only the bookings, and no deadline upwards, keeps everything about jobs. */
  lemma NewStoreKeeps(w: World, v: World)
    requires WorldOk(w) && StoreOk(v.store) && DeadlinesOnlyFall(w.store, v.store)
    requires v == w.(store := v.store, granted := v.granted)
    requires forall b :: b in v.granted - w.granted ==> GrantOk(v, b)
    ensures WorldOk(v)
  {
    forall id | id in v.jobs ensures JobOk(v, id) {
      assert JobOk(w, id);
    }
    forall h | h in v.handouts ensures HandoutOk(v, h) {
      assert HandoutOk(w, h);
    }
    forall b | b in v.granted ensures GrantOk(v, b) {
      assert b in w.granted ==> GrantOk(w, b);
    }
  }

  lemma GrantKeeps(w: World, p: Policy, step: Step)
    requires WorldOk(w) && p.IsUsable() && step.Grant? && Enabled(w, p, step)
    ensures WorldOk(Fire(w, p, step))
  {
    var op := Hold(GrantRequest(p, step.studentId, step.classId, step.bookingId, step.readAt));
    ApplyKeeps(w.store, op, true);
    WritesOnlyLower(w.store, op);
    NewStoreKeeps(w, Fire(w, p, step));
  }

  lemma HandleKeeps(w: World, p: Policy, step: Step)
    requires WorldOk(w) && step.Handle? && Enabled(w, p, step)
    ensures WorldOk(Fire(w, p, step))
  {
    var named := BookingNamed(step.h.job.payload);
    if step.h.job.kind.ExpireHold? && named.Some? {
      var op := Expire(named.value, step.readAt);
      assert Apply(w.store, op, true) == HandleExpiry(w.store, step.h.job, step.readAt).1;
      ApplyKeeps(w.store, op, true);
      WritesOnlyLower(w.store, op);
      NewStoreKeeps(w, Fire(w, p, step));
    }
  }

  lemma ActKeeps(w: World, p: Policy, step: Step)
    requires WorldOk(w) && step.Act? && Enabled(w, p, step)
    ensures WorldOk(Fire(w, p, step))
  {
    ApplyKeeps(w.store, step.op, true);
    WritesOnlyLower(w.store, step.op);
    NewStoreKeeps(w, Fire(w, p, step));
  }

  /** Changing one row of the queue to a row that is in order, or adding one under a new id, keeps the rest. */
  lemma NewJobKeeps(w: World, v: World, id: string)
    requires WorldOk(w) && id in v.jobs
    requires v == w.(jobs := w.jobs[id := v.jobs[id]], jobIds := w.jobIds + {id}, granted := v.granted) && v.granted <= w.granted
    requires v.jobs[id].id == id && ReleaseOk(w.store, v.jobs[id], v.jobs[id].runAfter)
    requires if id in w.jobs then SameWork(v.jobs[id], w.jobs[id]) else id !in w.jobIds
    ensures WorldOk(v)
  {
    forall k | k in v.jobs ensures JobOk(v, k) {
      assert k in w.jobs ==> JobOk(w, k);
    }
    forall h | h in v.handouts ensures HandoutOk(v, h) {
      assert HandoutOk(w, h);
    }
    forall b | b in v.granted ensures GrantOk(v, b) {
      assert GrantOk(w, b);
    }
  }

  /** Time passing, jobs leaving and ids being minted keep everything. */
  lemma LessKeeps(w: World, v: World)
    requires WorldOk(w)
    requires v == w.(now := v.now, jobs := v.jobs, jobIds := v.jobIds, granted := v.granted)
    requires v.now >= w.now && w.jobIds <= v.jobIds && v.granted <= w.granted
    requires forall id :: id in v.jobs ==> id in w.jobs && v.jobs[id] == w.jobs[id]
    ensures WorldOk(v)
  {
    forall id | id in v.jobs ensures JobOk(v, id) {
      assert JobOk(w, id);
    }
    forall h | h in v.handouts ensures HandoutOk(v, h) {
      assert HandoutOk(w, h);
    }
    forall b | b in v.granted ensures GrantOk(v, b) {
      assert GrantOk(w, b);
    }
  }

  lemma WriteReleaseKeeps(w: World, p: Policy, step: Step)
    requires WorldOk(w) && step.WriteRelease? && Enabled(w, p, step)
    ensures WorldOk(Fire(w, p, step))
  {
    var v := Fire(w, p, step);
    assert GrantOk(w, step.hold);
    assert step.jobId in w.jobs ==> JobOk(w, step.jobId);
    if step.jobId in v.jobs {
      NewJobKeeps(w, v, step.jobId);
    } else {
      LessKeeps(w, v);
    }
  }

  lemma WriteOtherKeeps(w: World, p: Policy, step: Step)
    requires WorldOk(w) && step.WriteOther? && Enabled(w, p, step)
    ensures WorldOk(Fire(w, p, step))
  {
    assert step.request.jobId in w.jobs ==> JobOk(w, step.request.jobId);
    NewJobKeeps(w, Fire(w, p, step), step.request.jobId);
  }

  lemma HandBackKeeps(w: World, p: Policy, step: Step)
    requires WorldOk(w) && step.HandBack? && Enabled(w, p, step)
    ensures WorldOk(Fire(w, p, step))
  {
    var id := step.h.job.id;
    assert HandoutOk(w, step.h);
    if id in w.jobs {
      assert JobOk(w, id);
      var v := Fire(w, p, step);
      assert w.jobIds + {id} == w.jobIds;
      NewJobKeeps(w, v, id);
    }
  }

  /** What a poll hands out was due, so the deadline behind it has passed. */
  lemma PollKeeps(w: World, p: Policy, step: Step)
    requires WorldOk(w) && step.Poll? && Enabled(w, p, step)
    ensures WorldOk(Fire(w, p, step))
  {
    var v := Fire(w, p, step);
    forall id | id in v.jobs ensures JobOk(v, id) {
      assert JobOk(w, id);
    }
    forall h | h in v.handouts ensures HandoutOk(v, h) {
      if h in w.handouts {
        assert HandoutOk(w, h);
      } else {
        var i :| 0 <= i < |step.answer| && step.answer[i] == h.job;
        assert JobOk(w, step.answer[i].id);
      }
    }
    forall b | b in v.granted ensures GrantOk(v, b) {
      assert GrantOk(w, b);
    }
  }

  lemma FireKeeps(w: World, p: Policy, step: Step)
    requires WorldOk(w) && p.IsUsable() && Enabled(w, p, step)
    ensures WorldOk(Fire(w, p, step)) && Fire(w, p, step).now >= w.now
  {
    match step
    case Tick(_) => LessKeeps(w, Fire(w, p, step));
    case Grant(_, _, _, _) => GrantKeeps(w, p, step);
    case WriteRelease(_, _, _) => WriteReleaseKeeps(w, p, step);
    case Act(_) => ActKeeps(w, p, step);
    case WriteOther(_) => WriteOtherKeeps(w, p, step);
    case Poll(_, _) => PollKeeps(w, p, step);
    case Handle(_, _) => HandleKeeps(w, p, step);
    case Complete(_) => LessKeeps(w, Fire(w, p, step));
    case HandBack(_, _, _) => HandBackKeeps(w, p, step);
  }

  // ---- Runs ----

  ghost predicate IsRun(w: World, p: Policy, steps: seq<Step>)
    decreases |steps|
  {
    steps == [] || (Enabled(w, p, steps[0]) && IsRun(Fire(w, p, steps[0]), p, steps[1..]))
  }

  function Exec(w: World, p: Policy, steps: seq<Step>): World
    decreases |steps|
  {
    if steps == [] then w else Exec(Fire(w, p, steps[0]), p, steps[1..])
  }

  lemma {:induction false} RunKeeps(w: World, p: Policy, steps: seq<Step>)
    requires WorldOk(w) && p.IsUsable() && IsRun(w, p, steps)
    ensures WorldOk(Exec(w, p, steps))
    decreases |steps|
  {
    if steps != [] {
      FireKeeps(w, p, steps[0]);
      RunKeeps(Fire(w, p, steps[0]), p, steps[1..]);
    }
  }

  lemma OpeningWorldIsOk(classes: map<string, TrialClass>, parents: map<string, string>, now: Instant)
    requires now > ZERO
    ensures WorldOk(World(now, Store(classes, parents, map[], map[]), map[], {}, {}, {}))
  {
  }

  /**
   * A release finishes whenever it is handled. However its run went, whichever
   * poll handed it out and however late or often a worker gets to it, the
   * handler is done: the hold has lapsed or the booking moved on. Afterwards
   * the booking waits for payment no longer, and a booking that had moved on
   * is untouched.
   */
  lemma ReleaseFinishesFirstTime(w: World, p: Policy, steps: seq<Step>, h: Handout, readAt: Instant)
    requires WorldOk(w) && p.IsUsable() && IsRun(w, p, steps)
    requires h.job.kind.ExpireHold? && Enabled(Exec(w, p, steps), p, Handle(h, readAt))
    ensures var before := Exec(w, p, steps).store;
            var (verdict, after) := HandleExpiry(before, h.job, readAt);
            && verdict == Finished
            && h.job.payload.ForBooking?
            && var id := h.job.payload.bookingId;
            && id in before.bookings && id in after.bookings
            && (if before.bookings[id].status.PendingPayment?
                then !HoldIsLive(before.bookings[id].holdExpiresAt, readAt) && after.bookings[id].status.Expired?
                else after == before)
            && forall k :: k in before.bookings && k != id ==> k in after.bookings && after.bookings[k] == before.bookings[k]
  {
    RunKeeps(w, p, steps);
    var v := Exec(w, p, steps);
    assert HandoutOk(v, h);
    assert EntryOk(v.store, h.job.payload.bookingId);
  }
}
