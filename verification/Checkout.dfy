/**
 * Where seats, money and background work meet: the order of a checkout, and
 * the two jobs it leaves behind.
 *
 * Functions say what one call does to everything together; the classes make
 * the same calls in the same order on the repositories, the provider and the
 * queue they were given.
 */
module Checkout {
  import opened Collections
  import opened BookingStatus
  import opened BookingStore
  import opened BookingRuns
  import P = Payments
  import Q = JobQueue

  datatype Shop = Shop(store: Store, ledger: P.Ledger, till: P.Till, jobs: Q.Jobs)

  datatype Trouble = NoTrouble | BadRequest | SeatTrouble(seat: Error) | MoneyTrouble(money: P.PayError)

  // ---- Scheduling ----

  /** Writing one job is allowed to fail without undoing anything. */
  function RequestFor(kind: Q.Kind, bookingId: string, jobId: string, runAfter: Instant, now: Instant): Q.EnqueueRequest {
    Q.EnqueueRequest(jobId, kind, Q.ForBooking(bookingId), runAfter, now)
  }

  predicate CanSchedule(jobs: Q.Jobs, bookingId: string, r: Q.EnqueueRequest) {
    bookingId != "" && Q.EnqueueError(jobs, r).NoError?
  }

  function AfterSchedule(jobs: Q.Jobs, bookingId: string, r: Q.EnqueueRequest): Q.Jobs {
    if CanSchedule(jobs, bookingId, r) then jobs[r.jobId := Q.Fresh(r)] else jobs
  }

  // ---- Hold ----

  datatype Policy = Policy(holdTtl: int, maxHolds: int, expiryGrace: int) {
    predicate IsUsable() {
      holdTtl > 0 && maxHolds >= 1
    }

    /** A negative grace is taken as none. */
    function Grace(): int {
      if expiryGrace < 0 then 0 else expiryGrace
    }
  }

  /** What one call mints and reads off the clock along the way. */
  datatype HoldTicket = HoldTicket(bookingId: string, jobId: string, granted: Instant, scheduled: Instant)

  datatype HoldResult = HoldResult(booking: Option<Booking>, expiryScheduled: bool, error: Trouble)

  function HoldRequestFor(p: Policy, studentId: string, classId: string, t: HoldTicket): HoldRequest {
    HoldRequest(t.bookingId, studentId, classId, t.granted, t.granted + p.holdTtl, p.maxHolds)
  }

  function ExpiryJob(p: Policy, b: Booking, t: HoldTicket): Q.EnqueueRequest {
    RequestFor(Q.ExpireHold, b.id, t.jobId, b.holdExpiresAt + p.Grace(), t.scheduled)
  }

  /** The hold is granted first and its release is written second. */
  function HoldThrough(s: Shop, p: Policy, studentId: string, classId: string, t: HoldTicket): (HoldResult, Shop) {
    if studentId == "" || classId == "" then (HoldResult(None, false, BadRequest), s)
    else
      var d := HoldDecision(s.store, HoldRequestFor(p, studentId, classId, t), true);
      match d.answer
      case Refused(e, _) => (HoldResult(None, false, SeatTrouble(e)), s)
      case Done(b) =>
        var r := ExpiryJob(p, b, t);
        (HoldResult(Some(b), CanSchedule(s.jobs, b.id, r), NoTrouble),
         s.(store := Commit(s.store, d.write), jobs := AfterSchedule(s.jobs, b.id, r)))
  }

  /** A scheduled release is never due while its hold stands: exactly because the grace is not negative. */
  lemma ReleaseWaitsForTheDeadline(deadline: Instant, grace: int)
    requires deadline > ZERO
    ensures grace >= 0 <==> forall at: Instant {:trigger HoldIsLive(deadline, at)} :: deadline + grace <= at ==> !HoldIsLive(deadline, at)
  {
    if grace < 0 {
      assert HoldIsLive(deadline, deadline + grace);
    }
  }

  /** Either nothing changes, or the hold stands; its release is written exactly when it is reported so, and no other job is touched. */
  lemma HoldThenRelease(s: Shop, p: Policy, studentId: string, classId: string, t: HoldTicket)
    requires p.IsUsable() && t.granted > ZERO
    ensures var (r, after) := HoldThrough(s, p, studentId, classId, t);
            && (r.error != NoTrouble ==> after == s && r.booking.None?)
            && (r.error == NoTrouble ==>
                  && r.booking.Some?
                  && r.booking.value.id == t.bookingId
                  && t.bookingId in after.store.bookings && after.store.bookings[t.bookingId] == r.booking.value
                  && r.booking.value.status.PendingPayment? && HoldIsLive(r.booking.value.holdExpiresAt, t.granted))
            && (r.expiryScheduled <==> after.jobs != s.jobs)
            && (r.expiryScheduled ==>
                  && t.jobId !in s.jobs && t.jobId in after.jobs
                  && after.jobs == s.jobs[t.jobId := after.jobs[t.jobId]]
                  && after.jobs[t.jobId].kind == Q.ExpireHold && after.jobs[t.jobId].payload == Q.ForBooking(t.bookingId)
                  && forall at {:trigger after.jobs[t.jobId].IsDue(at)} ::
                       after.jobs[t.jobId].IsDue(at) ==> !HoldIsLive(after.store.bookings[t.bookingId].holdExpiresAt, at))
  {
  }

  // ---- Pay ----

  const TRIAL_PRICE_CENTS: P.Int32 := 4500

  /** Why an amount may not reach the provider, if so: it must be exactly the price, or in development one of the two that demonstrate a refusal. */
  function RefuseAmount(requested: P.Amount, development: bool): Option<P.PayError> {
    var n := requested.Normalised();
    if !n.IsValid() then n.Problem()
    else if n.currency != P.DEFAULT_CURRENCY then Some(P.InvalidCurrency)
    else if n.cents == TRIAL_PRICE_CENTS then None
    else if development && (n.cents == TRIAL_PRICE_CENTS + 1 || n.cents == TRIAL_PRICE_CENTS + 2) then None
    else Some(P.InvalidAmount)
  }

  predicate Accepts(requested: P.Amount, development: bool) {
    RefuseAmount(requested, development).None?
  }

  datatype PayTicket = PayTicket(
    attemptId: string, jobId: string,
    begun: Instant, settled: Instant, decided: Instant, refundDue: Instant, queued: Instant)

  datatype Weather = Weather(providerFault: bool, confirmFaults: ConfirmFaults)

  datatype PayResult = PayResult(booking: Option<Booking>, attempt: Option<P.Attempt>, refundScheduled: bool, error: Trouble)

  function RefundJob(bookingId: string, t: PayTicket): Q.EnqueueRequest {
    RequestFor(Q.ReconcileRefund, bookingId, t.jobId, t.refundDue, t.queued)
  }

  /** The provider said no: the booking ends, and whatever comes of that the parent is told of the decline. */
  function EndOnDecline(s: Shop, bookingId: string, attempt: P.Attempt, t: PayTicket): (PayResult, Shop) {
    var d := FailDecision(s.store, bookingId, attempt.failureReason, t.decided);
    (PayResult(if d.answer.Done? then Some(d.answer.booking) else None, Some(attempt), false, MoneyTrouble(P.Declined)),
     s.(store := Commit(s.store, d.write)))
  }

  /** The money settled: the confirm decides the seat, and a lost race queues the refund. */
  function DecideSeat(s: Shop, bookingId: string, attempt: Option<P.Attempt>, t: PayTicket, faults: ConfirmFaults): (PayResult, Shop) {
    var d := ConfirmDecision(s.store, bookingId, t.decided, faults);
    var decided := s.(store := Commit(s.store, d.write));
    match d.answer
    case Done(b) => (PayResult(Some(b), attempt, false, NoTrouble), decided)
    case Refused(e, seen) =>
      if e == SeatLost && seen.Some? then
        var r := RefundJob(seen.value.id, t);
        (PayResult(seen, attempt, CanSchedule(s.jobs, seen.value.id, r), SeatTrouble(SeatLost)),
         decided.(jobs := AfterSchedule(s.jobs, seen.value.id, r)))
      else
        (PayResult(seen, attempt, false, SeatTrouble(e)), decided)
  }

  /** What the payment side's answer means for the booking. */
  function FinishBooking(s: Shop, bookingId: string, answer: P.PayAnswer, t: PayTicket, faults: ConfirmFaults): (PayResult, Shop) {
    if answer.error == Some(P.Declined) && answer.attempt.Some? then EndOnDecline(s, bookingId, answer.attempt.value, t)
    else if answer.error.Some? then (PayResult(None, answer.attempt, false, MoneyTrouble(answer.error.value)), s)
    else DecideSeat(s, bookingId, answer.attempt, t, faults)
  }

  function ChargeFor(c: P.PayCommand): P.PayCommand {
    P.PayCommand(c.bookingId, c.amount.Normalised(), c.key)
  }

  function ChargeThrough(s: Shop, c: P.PayCommand, t: PayTicket, w: Weather): (P.PayAnswer, Shop)
    requires P.IsOrdered(s.ledger)
  {
    var (answer, ledger, till) := P.PayOnce(s.ledger, s.till, ChargeFor(c), t.attemptId, t.begun, t.settled, w.providerFault);
    (answer, s.(ledger := ledger, till := till))
  }

  /** The amount, then the charge, then the seat. */
  function PayThrough(s: Shop, c: P.PayCommand, development: bool, t: PayTicket, w: Weather): (PayResult, Shop)
    requires P.IsOrdered(s.ledger)
  {
    if !Accepts(c.amount, development) then (PayResult(None, None, false, MoneyTrouble(RefuseAmount(c.amount, development).value)), s)
    else
      var (answer, paid) := ChargeThrough(s, c, t, w);
      FinishBooking(paid, c.bookingId, answer, t, w.confirmFaults)
  }

  class Service {
    const bookings: MemoryRepository
    const payments: P.PaymentService
    const jobs: Q.MemoryQueue
    const policy: Policy

    ghost function State(): Shop
      reads bookings, payments.repository, payments.provider, jobs
    {
      Shop(bookings.State(), payments.repository.State(), payments.provider.State(), jobs.jobs)
    }

    ghost predicate Valid()
      reads payments.repository, jobs
    {
      payments.repository.Valid() && jobs.Valid()
    }

    constructor (bookings: MemoryRepository, payments: P.PaymentService, jobs: Q.MemoryQueue, policy: Policy)
      ensures this.bookings == bookings && this.payments == payments && this.jobs == jobs && this.policy == policy
    {
      this.bookings, this.payments, this.jobs, this.policy := bookings, payments, jobs, policy;
    }

    method Schedule(kind: Q.Kind, bookingId: string, jobId: string, runAfter: Instant, now: Instant) returns (scheduled: bool)
      requires Valid()
      modifies jobs
      ensures Valid()
      ensures var r := RequestFor(kind, bookingId, jobId, runAfter, now);
              scheduled == CanSchedule(old(jobs.jobs), bookingId, r) && jobs.jobs == AfterSchedule(old(jobs.jobs), bookingId, r)
    {
      if bookingId == "" {
        return false;
      }
      var error := jobs.Enqueue(Q.EnqueueRequest(jobId, kind, Q.ForBooking(bookingId), runAfter, now));
      return error.NoError?;
    }

    method Hold(studentId: string, classId: string, t: HoldTicket) returns (result: HoldResult)
      requires Valid()
      modifies bookings, jobs
      ensures Valid()
      ensures (result, State()) == HoldThrough(old(State()), policy, studentId, classId, t)
    {
      if studentId == "" || classId == "" {
        return HoldResult(None, false, BadRequest);
      }
      var answer := bookings.Hold(HoldRequest(t.bookingId, studentId, classId, t.granted, t.granted + policy.holdTtl, policy.maxHolds));
      match answer
      case Refused(e, _) =>
        return HoldResult(None, false, SeatTrouble(e));
      case Done(granted) =>
        var grace := if policy.expiryGrace < 0 then 0 else policy.expiryGrace;
        var scheduled := Schedule(Q.ExpireHold, granted.id, t.jobId, granted.holdExpiresAt + grace, t.scheduled);
        return HoldResult(Some(granted), scheduled, NoTrouble);
    }

    method Pay(c: P.PayCommand, development: bool, t: PayTicket, w: Weather) returns (result: PayResult)
      requires Valid() && t.attemptId != ""
      modifies bookings, payments.repository, payments.provider, jobs
      ensures Valid()
      ensures (result, State()) == PayThrough(old(State()), c, development, t, w)
    {
      var refused := RefuseAmount(c.amount, development);
      if refused.Some? {
        return PayResult(None, None, false, MoneyTrouble(refused.value));
      }
      var charge := P.PayCommand(c.bookingId, c.amount.Normalised(), c.key);
      var answer := payments.Pay(charge, t.attemptId, t.begun, t.settled, w.providerFault);
      if answer.error == Some(P.Declined) && answer.attempt.Some? {
        var declined := bookings.Fail(c.bookingId, answer.attempt.value.failureReason, t.decided);
        match declined {
          case Refused(_, _) => return PayResult(None, answer.attempt, false, MoneyTrouble(P.Declined));
          case Done(b) => return PayResult(Some(b), answer.attempt, false, MoneyTrouble(P.Declined));
        }
      }
      if answer.error.Some? {
        return PayResult(None, answer.attempt, false, MoneyTrouble(answer.error.value));
      }
      var confirmed := bookings.Confirm(c.bookingId, t.decided, w.confirmFaults);
      match confirmed
      case Done(b) =>
        return PayResult(Some(b), answer.attempt, false, NoTrouble);
      case Refused(e, seen) =>
        if e == SeatLost && seen.Some? {
          var scheduled := Schedule(Q.ReconcileRefund, seen.value.id, t.jobId, t.refundDue, t.queued);
          return PayResult(seen, answer.attempt, scheduled, SeatTrouble(SeatLost));
        }
        return PayResult(seen, answer.attempt, false, SeatTrouble(e));
    }
  }

  // ---- The two handlers ----

  datatype Verdict = Finished | TryAgain(why: Trouble)

  function BookingNamed(payload: Q.Payload): Option<string> {
    if payload.ForBooking? && payload.bookingId != "" then Some(payload.bookingId) else None
  }

  /** A booking that already moved on is work done. */
  function HandleExpiry(s: Store, job: Q.Job, at: Instant): (Verdict, Store) {
    var named := BookingNamed(job.payload);
    if named.None? then (TryAgain(BadRequest), s)
    else
      var d := ExpireDecision(s, named.value, at);
      (match d.answer
       case Done(_) => Finished
       case Refused(e, _) => if e == NotHolding then Finished else TryAgain(SeatTrouble(e)),
       Commit(s, d.write))
  }

  /** Read, send the money back, and only then close. */
  function HandleRefund(s: Shop, job: Q.Job, at: Instant): (Verdict, Shop)
    requires P.IsOrdered(s.ledger)
  {
    var named := BookingNamed(job.payload);
    if named.None? then (TryAgain(BadRequest), s)
    else if named.value !in s.store.bookings then (TryAgain(SeatTrouble(BookingNotFound)), s)
    else if !s.store.bookings[named.value].status.RefundRequired? then (Finished, s)
    else
      var refund := P.RefundOf(s.ledger, s.till, named.value);
      var asked := s.(till := P.TillAfterRefundOf(s.ledger, s.till, named.value));
      if refund.RefundRefused? then (TryAgain(MoneyTrouble(refund.error)), asked)
      else
        var d := CancelDecision(s.store, named.value, Payment, P.REFUND_REASON, at);
        (match d.answer
         case Done(_) => Finished
         case Refused(e, _) => TryAgain(SeatTrouble(e)),
         asked.(store := Commit(s.store, d.write)))
  }

  class ExpireHoldHandler {
    const bookings: MemoryRepository

    constructor (bookings: MemoryRepository)
      ensures this.bookings == bookings
    {
      this.bookings := bookings;
    }

    method Handle(job: Q.Job, at: Instant) returns (verdict: Verdict)
      modifies bookings
      ensures (verdict, bookings.State()) == HandleExpiry(old(bookings.State()), job, at)
    {
      if !job.payload.ForBooking? || job.payload.bookingId == "" {
        return TryAgain(BadRequest);
      }
      var answer := bookings.Expire(job.payload.bookingId, at);
      match answer
      case Done(_) => return Finished;
      case Refused(e, _) => return if e == NotHolding then Finished else TryAgain(SeatTrouble(e));
    }
  }

  class ReconcileRefundHandler {
    const bookings: MemoryRepository
    const payments: P.PaymentService

    constructor (bookings: MemoryRepository, payments: P.PaymentService)
      ensures this.bookings == bookings && this.payments == payments
    {
      this.bookings, this.payments := bookings, payments;
    }

    /** What the handler reaches; it never sees the queue. */
    ghost function State(): Shop
      reads bookings, payments.repository, payments.provider
    {
      Shop(bookings.State(), payments.repository.State(), payments.provider.State(), map[])
    }

    method Handle(job: Q.Job, at: Instant) returns (verdict: Verdict)
      requires payments.repository.Valid()
      modifies bookings, payments.provider
      ensures payments.repository.Valid() && (verdict, State()) == HandleRefund(old(State()), job, at)
    {
      if !job.payload.ForBooking? || job.payload.bookingId == "" {
        return TryAgain(BadRequest);
      }
      var id := job.payload.bookingId;
      if id !in bookings.bookings {
        return TryAgain(SeatTrouble(BookingNotFound));
      }
      if bookings.bookings[id].status != RefundRequired {
        return Finished;
      }
      var refund := payments.Refund(id);
      if refund.RefundRefused? {
        return TryAgain(MoneyTrouble(refund.error));
      }
      var closed := bookings.Cancel(id, Payment, P.REFUND_REASON, at);
      match closed
      case Done(_) => return Finished;
      case Refused(e, _) => return TryAgain(SeatTrouble(e));
    }
  }

  // ---- What a checkout comes to ----

  predicate IsPaid(l: P.Ledger, id: string, bookingId: string, key: string) {
    id in l.attempts && P.HasKey(l.attempts[id], bookingId, key) && P.IsRefundable(l.attempts[id])
  }

  /** Settled rows name a charge whenever they succeeded. */
  predicate NamesItsCharges(l: P.Ledger) {
    forall id :: id in l.attempts && l.attempts[id].status.Succeeded? ==> l.attempts[id].providerRef != ""
  }

  /** An answer without an error is a settled charge under the command's own booking and key. */
  lemma NoErrorMeansPaid(l: P.Ledger, t: P.Till, c: P.PayCommand, id: string, t1: Instant, t2: Instant, fault: bool)
    requires P.IsOrdered(l) && NamesItsCharges(l) && id != "" && id !in l.attempts
    ensures var (answer, after, _) := P.PayOnce(l, t, c, id, t1, t2, fault);
            && (answer.error.None? ==> exists k {:trigger after.attempts[k]} :: IsPaid(after, k, c.bookingId, c.key) && answer.attempt == Some(after.attempts[k]))
            && (answer.error == Some(P.Declined) ==> answer.attempt.Some?)
  {
    var (answer, after, _) := P.PayOnce(l, t, c, id, t1, t2, fault);
    if P.Refusal(c).None? && c.bookingId in l.bookings {
      var found := P.Find(l, c.bookingId, c.key);
      if found.None? {
        P.OpenedIsFound(l, t, c, id, t1, t2, fault);
        assert answer.error.None? ==> IsPaid(after, id, c.bookingId, c.key);
      } else {
        assert answer.error.None? ==> IsPaid(after, found.value, c.bookingId, c.key);
      }
    }
  }

  /** The one row a checkout may move, and where to. */
  predicate MovesOnly(before: Store, after: Store, id: string, r: PayResult) {
    && after.bookings.Keys == before.bookings.Keys
    && (forall k :: k in before.bookings && k != id ==> after.bookings[k] == before.bookings[k])
    && (after != before ==>
         && id in before.bookings && before.bookings[id].status.PendingPayment?
         && match after.bookings[id].status
            case Confirmed => r.error == NoTrouble
            case RefundRequired => r.error == SeatTrouble(SeatLost)
            case PaymentFailed => r.error == MoneyTrouble(P.Declined)
            case _ => false)
  }

  lemma DecideMovesOnly(s: Shop, id: string, attempt: Option<P.Attempt>, t: PayTicket, faults: ConfirmFaults)
    requires StoreOk(s.store)
    ensures var (r, after) := DecideSeat(s, id, attempt, t, faults); MovesOnly(s.store, after.store, id, r)
  {
    if id in s.store.bookings {
      assert EntryOk(s.store, id);
    }
  }

  lemma DeclineMovesOnly(s: Shop, id: string, attempt: P.Attempt, t: PayTicket)
    requires StoreOk(s.store)
    ensures var (r, after) := EndOnDecline(s, id, attempt, t);
            && MovesOnly(s.store, after.store, id, r)
            && (after.store != s.store ==> after.store.bookings[id].status.PaymentFailed?)
  {
    if id in s.store.bookings {
      assert EntryOk(s.store, id);
    }
  }

  lemma FinishMovesOnly(s: Shop, id: string, answer: P.PayAnswer, t: PayTicket, faults: ConfirmFaults)
    requires StoreOk(s.store)
    ensures var (r, after) := FinishBooking(s, id, answer, t, faults);
            && MovesOnly(s.store, after.store, id, r)
            && (after.store != s.store && !after.store.bookings[id].status.PaymentFailed? ==> answer.error.None?)
  {
    if answer.error == Some(P.Declined) && answer.attempt.Some? {
      DeclineMovesOnly(s, id, answer.attempt.value, t);
    } else if answer.error.None? {
      DecideMovesOnly(s, id, answer.attempt, t, faults);
    }
  }

  /**
   * Money first, seat second. A booking this call left seated or owed a refund
   * has a settled charge under the very key; every other booking is as it was.
   */
  lemma {:induction false} SeatOnlyForMoney(s: Shop, c: P.PayCommand, development: bool, t: PayTicket, w: Weather)
    requires StoreOk(s.store) && P.IsOrdered(s.ledger) && NamesItsCharges(s.ledger)
    requires t.attemptId != "" && t.attemptId !in s.ledger.attempts
    ensures var (r, after) := PayThrough(s, c, development, t, w);
            && MovesOnly(s.store, after.store, c.bookingId, r)
            && (after.store != s.store && !after.store.bookings[c.bookingId].status.PaymentFailed? ==>
                  exists k {:trigger after.ledger.attempts[k]} :: IsPaid(after.ledger, k, c.bookingId, c.key))
  {
    if Accepts(c.amount, development) {
      NoErrorMeansPaid(s.ledger, s.till, ChargeFor(c), t.attemptId, t.begun, t.settled, w.providerFault);
      var (answer, paid) := ChargeThrough(s, c, t, w);
      FinishMovesOnly(paid, c.bookingId, answer, t, w.confirmFaults);
    }
  }

  /** A booking this call left owed a refund has its job in the queue, given a fresh job id and a clock that reads. */
  lemma LostSeatIsQueued(s: Shop, c: P.PayCommand, development: bool, t: PayTicket, w: Weather)
    requires StoreOk(s.store) && P.IsOrdered(s.ledger)
    requires t.jobId != "" && t.jobId !in s.jobs && t.queued != ZERO && t.refundDue != ZERO
    ensures var (r, after) := PayThrough(s, c, development, t, w);
            if r.error == SeatTrouble(SeatLost) then
              && c.bookingId in after.store.bookings && after.store.bookings[c.bookingId].status.RefundRequired?
              && r.refundScheduled && t.jobId in after.jobs && after.jobs == s.jobs[t.jobId := after.jobs[t.jobId]]
              && after.jobs[t.jobId].kind == Q.ReconcileRefund && after.jobs[t.jobId].payload == Q.ForBooking(c.bookingId)
              && forall at {:trigger after.jobs[t.jobId].IsDue(at)} :: t.refundDue <= at ==> after.jobs[t.jobId].IsDue(at)
            else !r.refundScheduled && after.jobs == s.jobs
  {
    if c.bookingId in s.store.bookings {
      assert EntryOk(s.store, c.bookingId);
    }
  }

  /** The confirm broke off at one of its two fault points. */
  predicate ConfirmBroke(r: PayResult) {
    r.error == SeatTrouble(LockWaitTimeout) || r.error == SeatTrouble(TransactionBroken)
  }

  lemma DecideTwice(s: Shop, id: string, attempt: Option<P.Attempt>, t1: PayTicket, t2: PayTicket, f1: ConfirmFaults, f2: ConfirmFaults)
    requires StoreOk(s.store)
    ensures var (first, once) := DecideSeat(s, id, attempt, t1, f1);
            var (second, twice) := DecideSeat(once, id, attempt, t2, f2);
            && first.error != MoneyTrouble(P.Declined)
            && (!ConfirmBroke(first) ==> twice == once)
            && (first.error == NoTrouble || first.error == SeatTrouble(SeatLost) ==>
                  ConfirmBroke(second) || second == first.(error := SeatTrouble(NotHolding), refundScheduled := false))
  {
    if id in s.store.bookings {
      assert EntryOk(s.store, id);
    }
  }

  lemma DeclineTwice(s: Shop, id: string, attempt: P.Attempt, t1: PayTicket, t2: PayTicket)
    requires StoreOk(s.store)
    ensures var (first, once) := EndOnDecline(s, id, attempt, t1);
            var (second, twice) := EndOnDecline(once, id, attempt, t2);
            twice == once && first.error == second.error == MoneyTrouble(P.Declined) && second.attempt == first.attempt
  {
    if id in s.store.bookings {
      assert EntryOk(s.store, id);
    }
  }

  /** What finishing again comes to, once the booking has been finished without its confirm breaking. */
  lemma FinishTwice(s: Shop, id: string, answer: P.PayAnswer, t1: PayTicket, t2: PayTicket, f1: ConfirmFaults, f2: ConfirmFaults)
    requires StoreOk(s.store)
    ensures var (first, once) := FinishBooking(s, id, answer, t1, f1);
            var (second, twice) := FinishBooking(once, id, answer, t2, f2);
            && (!ConfirmBroke(first) ==> twice == once)
            && (first.error == NoTrouble || first.error == SeatTrouble(SeatLost) ==>
                  ConfirmBroke(second) || second == first.(error := SeatTrouble(NotHolding), refundScheduled := false))
            && (first.error == MoneyTrouble(P.Declined) ==> second.error == first.error && second.attempt == first.attempt)
  {
    if answer.error == Some(P.Declined) && answer.attempt.Some? {
      DeclineTwice(s, id, answer.attempt.value, t1, t2);
    } else if answer.error.None? {
      DecideTwice(s, id, answer.attempt, t1, t2, f1, f2);
    }
  }

  /** The charge of a second call, whatever it mints. */
  lemma {:induction false} SecondCharge(s: Shop, c: P.PayCommand, t1: PayTicket, t2: PayTicket, w1: Weather, w2: Weather)
    requires P.IsOrdered(s.ledger) && t1.attemptId != "" && t1.attemptId !in s.ledger.attempts && t2.attemptId != ""
    ensures var (first, once) := ChargeThrough(s, c, t1, w1);
            && P.IsOrdered(once.ledger)
            && forall later: Shop :: later.ledger == once.ledger && later.till == once.till ==>
                 ChargeThrough(later, c, t2, w2)
                 == (if first.error == Some(P.ProviderUnavailable) then first.(error := Some(P.AttemptPending)) else first, later)
  {
    P.SecondCallRepeatsTheFirst(s.ledger, s.till, ChargeFor(c), t1.attemptId, t2.attemptId, t1.begun, t1.settled, t2.begun, t2.settled,
                                w1.providerFault, w2.providerFault);
  }

  /** Finishing leaves the money alone. */
  lemma FinishMovesNoMoney(s: Shop, id: string, answer: P.PayAnswer, t: PayTicket, faults: ConfirmFaults)
    ensures var (r, after) := FinishBooking(s, id, answer, t, faults);
            && after.ledger == s.ledger && after.till == s.till
            && (answer.error == Some(P.ProviderUnavailable) ==> after == s && r.error == MoneyTrouble(P.ProviderUnavailable))
            && (answer.error == Some(P.AttemptPending) ==> after == s && r.error == MoneyTrouble(P.AttemptPending))
            && (r.error == MoneyTrouble(P.ProviderUnavailable) ==> answer.error == Some(P.ProviderUnavailable))
  {
  }

  /**
   * Pressing pay again, after any call but one whose confirm broke, changes
   * nothing anywhere, and shows the same booking and attempt unless its own
   * confirm breaks.
   */
  lemma {:induction false} SecondPayChangesNothing(s: Shop, c: P.PayCommand, development: bool, t1: PayTicket, t2: PayTicket, w1: Weather, w2: Weather)
    requires StoreOk(s.store) && P.IsOrdered(s.ledger)
    requires t1.attemptId != "" && t1.attemptId !in s.ledger.attempts && t2.attemptId != ""
    ensures var (first, once) := PayThrough(s, c, development, t1, w1);
            && P.IsOrdered(once.ledger)
            && var (second, twice) := PayThrough(once, c, development, t2, w2);
            && (!ConfirmBroke(first) ==> twice == once)
            && (first.error == NoTrouble || first.error == SeatTrouble(SeatLost) ==>
                  ConfirmBroke(second) || second == first.(error := SeatTrouble(NotHolding), refundScheduled := false))
            && (first.error == MoneyTrouble(P.Declined) ==> second.error == first.error && second.attempt == first.attempt)
            && (first.error == MoneyTrouble(P.ProviderUnavailable) ==> second.error == MoneyTrouble(P.AttemptPending))
  {
    if Accepts(c.amount, development) {
      var (answer, paid) := ChargeThrough(s, c, t1, w1);
      SecondCharge(s, c, t1, t2, w1, w2);
      FinishMovesNoMoney(paid, c.bookingId, answer, t1, w1.confirmFaults);
      FinishTwice(paid, c.bookingId, answer, t1, t2, w1.confirmFaults, w2.confirmFaults);
      var (first, once) := FinishBooking(paid, c.bookingId, answer, t1, w1.confirmFaults);
      assert once.ledger == paid.ledger && once.till == paid.till;
      FinishMovesNoMoney(once, c.bookingId, answer.(error := Some(P.AttemptPending)), t2, w2.confirmFaults);
    }
  }

  /** Handling a refund again, by anybody at any time, moves nothing more; and a booking it closed had its money sent back. */
  lemma RefundTwiceMovesOnce(s: Shop, job: Q.Job, t1: Instant, again: Q.Job, t2: Instant)
    requires StoreOk(s.store) && P.IsOrdered(s.ledger) && again.payload == job.payload
    ensures var (first, once) := HandleRefund(s, job, t1);
            && P.IsOrdered(once.ledger)
            && var (second, twice) := HandleRefund(once, again, t2);
            && s.till.refunds <= once.till.refunds <= twice.till.refunds <= s.till.refunds + 1
            && (first == Finished ==> second == Finished && twice == once)
            && (once.store != s.store ==>
                  && first == Finished && job.payload.ForBooking?
                  && P.RefundOf(s.ledger, s.till, job.payload.bookingId).RefundMade?
                  && P.RefundKeyFor(P.RefundOf(s.ledger, s.till, job.payload.bookingId).attemptId) in once.till.settledRefunds)
  {
    if job.payload.ForBooking? && job.payload.bookingId in s.store.bookings {
      assert EntryOk(s.store, job.payload.bookingId);
    }
  }
}
