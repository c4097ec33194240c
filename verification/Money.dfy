/**
 * Seats and money together: every call a checkout or a refund job makes is one
 * step, any number of them overlap, and any of them may die between two steps.
 *
 * A pay call looks its key up, inserts its row, charges, settles, confirms or
 * fails the booking, and queues the refund when the seat was lost. A refund
 * job reads the booking, picks the settled attempt, asks the provider and
 * closes the booking; it may be run for any booking, any number of times and
 * by several workers at once. Parents, operators and the expiry job act on
 * bookings in between.
 */
module Money {
  import opened Collections
  import opened BookingStatus
  import opened BookingStore
  import opened BookingRuns
  import opened Payments

  /** Money sent back, as the provider records it under a key. */
  datatype Movement = Movement(key: string, attemptId: string, bookingId: string, amount: Amount)

  datatype PayPhase =
    | LookingUp | Inserting | Rereading | Charging
    | Settling(result: ChargeResult)
    | Confirming(paid: string)
    | Failing(reason: string)
    | QueueingRefund

  datatype PayCall = PayCall(bookingId: string, key: string, amount: Amount, attemptId: string, phase: PayPhase)

  datatype WorkPhase = Reading | Picking | Asking(attempt: Attempt) | Closing

  datatype Work = Work(bookingId: string, phase: WorkPhase)

  datatype World = World(
    store: Store,
    ledger: Ledger,
    charged: seq<string>,               // every charge call, by the attempt it was for
    refunded: map<string, Movement>,    // the provider's refunds by key
    moved: seq<Movement>,               // the refunds that moved money, in order
    refundsQueued: seq<string>,         // bookings a reconcile job was written for
    pays: map<nat, PayCall>,
    works: map<nat, Work>)

  datatype Step =
    | StartPay(call: PayCall)
    | LookUp | InsertRow(at: Instant) | Reread
    | AskProvider(result: ChargeResult)
    | SettleRow(at: Instant)
    | ConfirmSeat(at: Instant, faults: ConfirmFaults)
    | FailBooking(at: Instant)
    | QueueRefund
    | PayDies
    | StartWork(bookingId: string)
    | ReadBooking | PickAttempt(pick: Option<string>)
    | AskRefund(reachable: bool)
    | CloseBooking(at: Instant)
    | WorkDies
    | Elsewhere(op: Op)

  // ---- Steps ----

  predicate IsPayStep(step: Step) {
    step.LookUp? || step.InsertRow? || step.Reread? || step.AskProvider? || step.SettleRow?
    || step.ConfirmSeat? || step.FailBooking? || step.QueueRefund? || step.PayDies?
  }

  predicate IsWorkStep(step: Step) {
    step.ReadBooking? || step.PickAttempt? || step.AskRefund? || step.CloseBooking? || step.WorkDies?
  }

  /** Attempt ids are minted fresh, and a call is refused before it starts unless its key and amount are in order. */
  predicate CanStart(w: World, t: nat, c: PayCall) {
    && t !in w.pays && c.phase.LookingUp?
    && c.bookingId != "" && IsKey(c.key) && c.amount.IsValid()
    && c.attemptId != "" && c.attemptId !in w.ledger.attempts
    && forall u :: u in w.pays ==> w.pays[u].attemptId != c.attemptId
  }

  /** Anybody else may hold, cancel or expire; only the two calls above confirm, fail or cancel as the payment actor. */
  predicate IsElsewhere(w: World, op: Op) {
    match op
    case Hold(_) => IsFresh(w.store, op)
    case Cancel(_, actor, _, _) => actor != Payment
    case Expire(_, _) => true
    case _ => false
  }

  predicate Enabled(w: World, t: nat, step: Step) {
    if step.StartPay? then CanStart(w, t, step.call)
    else if step.StartWork? then t !in w.works && step.bookingId != ""
    else if step.Elsewhere? then IsElsewhere(w, step.op)
    else if IsPayStep(step) then t in w.pays && FitsPhase(w.pays[t].phase, step)
    else t in w.works && FitsWork(w.works[t].phase, step) && (step.PickAttempt? ==> CanPick(w.ledger, w.works[t].bookingId, step.pick))
  }

  predicate FitsPhase(p: PayPhase, step: Step) {
    match step
    case LookUp => p.LookingUp?
    case InsertRow(_) => p.Inserting?
    case Reread => p.Rereading?
    case AskProvider(_) => p.Charging?
    case SettleRow(_) => p.Settling?
    case ConfirmSeat(_, _) => p.Confirming?
    case FailBooking(_) => p.Failing?
    case QueueRefund => p.QueueingRefund?
    case _ => true
  }

  /** Any settled attempt of the booking may come first, in whatever order the store lists them; none only when there is none. */
  predicate CanPick(l: Ledger, bookingId: string, pick: Option<string>) {
    if pick.Some? then pick.value in l.attempts && l.attempts[pick.value].bookingId == bookingId && IsRefundable(l.attempts[pick.value])
    else forall id :: id in l.attempts && l.attempts[id].bookingId == bookingId ==> !IsRefundable(l.attempts[id])
  }

  predicate FitsWork(p: WorkPhase, step: Step) {
    match step
    case ReadBooking => p.Reading?
    case PickAttempt(_) => p.Picking?
    case AskRefund(_) => p.Asking?
    case CloseBooking(_) => p.Closing?
    case _ => true
  }

  /** Every step takes its call out, does its one thing, and puts the call back if it goes on. */
  function Without(w: World, t: nat): World {
    w.(pays := w.pays - {t})
  }

  function GoOn(w: World, t: nat, c: PayCall, phase: PayPhase): World {
    w.(pays := w.pays[t := c.(phase := phase)])
  }

  function WorkWithout(w: World, t: nat): World {
    w.(works := w.works - {t})
  }

  function WorkOn(w: World, t: nat, job: Work, phase: WorkPhase): World {
    w.(works := w.works[t := job.(phase := phase)])
  }

  function StoreAfter(w: World, op: Op): World {
    w.(store := Apply(w.store, op, true))
  }

  function RowOf(c: PayCall, at: Instant): Attempt {
    OpenedBy(BeginRequest(c.attemptId, c.bookingId, c.key, c.amount, at))
  }

  function MovementFor(a: Attempt): Movement {
    Movement(RefundKeyFor(a.id), a.id, a.bookingId, a.amount)
  }

  /** A row already there under the key: its answer again, or a conflict, and never a charge. */
  function AfterReplay(w: World, t: nat, c: PayCall, stored: Attempt): World {
    if MatchReplay(stored, c.amount).BeginRefused? then w
    else
      match stored.status
      case Succeeded => GoOn(w, t, c, Confirming(stored.id))
      case Failed => GoOn(w, t, c, Failing(stored.failureReason))
      case Initiated => w
  }

  /** Reading by key: a replay when the row is there, and otherwise the phase to go on to, if any. */
  function AfterRead(w: World, t: nat, c: PayCall, otherwise: Option<PayPhase>): World
    requires IsOrdered(w.ledger)
  {
    var found := Find(w.ledger, c.bookingId, c.key);
    if found.Some? then AfterReplay(w, t, c, w.ledger.attempts[found.value])
    else if otherwise.Some? then GoOn(w, t, c, otherwise.value)
    else w
  }

  /** The insert meets the unique index on booking and key, and the booking it refers to has to exist. */
  function AfterInsert(w: World, t: nat, c: PayCall, at: Instant): World
    requires IsOrdered(w.ledger)
  {
    if Find(w.ledger, c.bookingId, c.key).Some? then GoOn(w, t, c, Rereading)
    else if c.bookingId !in w.store.bookings then w
    else GoOn(w.(ledger := Opening(w.ledger, RowOf(c, at))), t, c, Charging)
  }

  function AfterAsking(w: World, t: nat, c: PayCall, result: ChargeResult): World {
    var asked := w.(charged := w.charged + [c.attemptId]);
    if result.ChargeFailed? then asked else GoOn(asked, t, c, Settling(result))
  }

  /** Settling under the attempt's own id, whatever the provider answered. */
  function SettlementUnder(attemptId: string, result: ChargeResult, at: Instant): SettleRequest {
    match result
    case Charged(ref) => SettleRequest(attemptId, Succeeded, ref, "", at)
    case ChargeDeclined(reason) => SettleRequest(attemptId, Failed, "", reason, at)
    case ChargeFailed(_) => SettleRequest(attemptId, Initiated, "", "", at)
  }

  function AfterSettling(w: World, t: nat, c: PayCall, result: ChargeResult, at: Instant): World {
    var r := SettlementUnder(c.attemptId, result, at);
    var after := w.(ledger := AfterSettle(w.ledger, r));
    if Settle(w.ledger, r).SettleRefused? then after
    else if r.status.Failed? then GoOn(after, t, c, Failing(r.failureReason))
    else GoOn(after, t, c, Confirming(c.attemptId))
  }

  function AfterConfirming(w: World, t: nat, c: PayCall, at: Instant, faults: ConfirmFaults): World {
    var op := Confirm(c.bookingId, at, faults);
    var answer := Decide(w.store, op, true).answer;
    if answer.Refused? && answer.error == SeatLost then GoOn(StoreAfter(w, op), t, c, QueueingRefund) else StoreAfter(w, op)
  }

  function FirePay(w: World, t: nat, c: PayCall, step: Step): World
    requires IsPayStep(step) && FitsPhase(c.phase, step) && IsOrdered(w.ledger)
  {
    match step
    case LookUp => AfterRead(w, t, c, Some(Inserting))
    case InsertRow(at) => AfterInsert(w, t, c, at)
    case Reread => AfterRead(w, t, c, None)
    case AskProvider(result) => AfterAsking(w, t, c, result)
    case SettleRow(at) => AfterSettling(w, t, c, c.phase.result, at)
    case ConfirmSeat(at, faults) => AfterConfirming(w, t, c, at, faults)
    case FailBooking(at) => StoreAfter(w, Fail(c.bookingId, c.phase.reason, at))
    case QueueRefund => w.(refundsQueued := w.refundsQueued + [c.bookingId])
    case PayDies => w
  }

  function AfterPicking(w: World, t: nat, job: Work, pick: Option<string>): World {
    if pick.Some? && pick.value in w.ledger.attempts then WorkOn(w, t, job, Asking(w.ledger.attempts[pick.value])) else w
  }

  /** The provider moves money once per key; unreachable, it stores nothing. */
  function AfterRefunding(w: World, t: nat, job: Work, a: Attempt, reachable: bool): World {
    var m := MovementFor(a);
    if m.key in w.refunded then WorkOn(w, t, job, Closing)
    else if !reachable then w
    else WorkOn(w.(refunded := w.refunded[m.key := m], moved := w.moved + [m]), t, job, Closing)
  }

  function FireWork(w: World, t: nat, job: Work, step: Step): World
    requires IsWorkStep(step) && FitsWork(job.phase, step) && IsOrdered(w.ledger)
  {
    match step
    case ReadBooking =>
      if job.bookingId !in w.store.bookings || w.store.bookings[job.bookingId].status != RefundRequired then w
      else WorkOn(w, t, job, Picking)
    case PickAttempt(pick) => AfterPicking(w, t, job, pick)
    case AskRefund(reachable) => AfterRefunding(w, t, job, job.phase.attempt, reachable)
    case CloseBooking(at) => StoreAfter(w, Cancel(job.bookingId, Payment, REFUND_REASON, at))
    case WorkDies => w
  }

  function Fire(w: World, t: nat, step: Step): World
    requires Enabled(w, t, step) && IsOrdered(w.ledger)
  {
    if step.StartPay? then w.(pays := w.pays[t := step.call])
    else if step.StartWork? then w.(works := w.works[t := Work(step.bookingId, Reading)])
    else if step.Elsewhere? then StoreAfter(w, step.op)
    else if IsPayStep(step) then FirePay(Without(w, t), t, w.pays[t], step)
    else FireWork(WorkWithout(w, t), t, w.works[t], step)
  }

  // ---- The invariant ----

  /** Rows under their own ids, one to a booking and key, a success always naming its charge. */
  ghost predicate LedgerOk(l: Ledger) {
    && IsOrdered(l)
    && (forall i, j :: 0 <= i < j < |l.order| ==> l.order[i] != l.order[j])
    && (forall id {:trigger l.attempts[id]} :: id in l.attempts ==>
         id in l.order && l.attempts[id].id == id && (l.attempts[id].status.Succeeded? ==> l.attempts[id].providerRef != ""))
    && (forall i, j {:trigger SameKey(l.attempts[i], l.attempts[j])} ::
         i in l.attempts && j in l.attempts && i != j ==> !SameKey(l.attempts[i], l.attempts[j]))
  }

  predicate SameKey(a: Attempt, b: Attempt) {
    a.bookingId == b.bookingId && a.key == b.key
  }

  ghost predicate HasSettled(l: Ledger, bookingId: string) {
    exists id {:trigger id in l.attempts} :: id in l.attempts && l.attempts[id].bookingId == bookingId && IsRefundable(l.attempts[id])
  }

  ghost predicate WasRefunded(w: World, bookingId: string) {
    exists k {:trigger k in w.refunded} :: k in w.refunded && w.refunded[k].bookingId == bookingId
  }

  ghost predicate CallOk(w: World, c: PayCall) {
    && c.attemptId != ""
    && match c.phase
       case LookingUp => c.attemptId !in w.ledger.attempts
       case Inserting => c.attemptId !in w.ledger.attempts
       case Rereading => c.attemptId !in w.ledger.attempts
       case Charging => IsOpen(w.ledger, c) && c.attemptId !in w.charged
       case Settling(_) => IsOpen(w.ledger, c) && c.attemptId in w.charged
       case Confirming(id) => id in w.ledger.attempts && IsRefundable(w.ledger.attempts[id]) && HasKey(w.ledger.attempts[id], c.bookingId, c.key)
       case _ => true
  }

  predicate IsOpen(l: Ledger, c: PayCall) {
    c.attemptId in l.attempts && l.attempts[c.attemptId].status.Initiated? && HasKey(l.attempts[c.attemptId], c.bookingId, c.key)
  }

  ghost predicate WorkOk(w: World, job: Work) {
    match job.phase
    case Reading => true
    case Picking => HasSettled(w.ledger, job.bookingId)
    case Asking(a) => a.id in w.ledger.attempts && w.ledger.attempts[a.id] == a && IsRefundable(a) && a.bookingId == job.bookingId
    case Closing => WasRefunded(w, job.bookingId)
  }

  /** A refund names a settled attempt, its own booking and its own amount, under that attempt's key. */
  predicate RefundOk(w: World, k: string)
    requires k in w.refunded
  {
    var m := w.refunded[k];
    && m.attemptId in w.ledger.attempts
    && IsRefundable(w.ledger.attempts[m.attemptId])
    && m == MovementFor(w.ledger.attempts[m.attemptId])
    && m.key == k
  }

  predicate MovedOnce(w: World) {
    && (forall i :: 0 <= i < |w.moved| ==> w.moved[i].key in w.refunded && w.refunded[w.moved[i].key] == w.moved[i])
    && (forall i, j :: 0 <= i < j < |w.moved| ==> w.moved[i].key != w.moved[j].key)
  }

  predicate ChargedOnce(w: World) {
    && (forall i, j :: 0 <= i < j < |w.charged| ==> w.charged[i] != w.charged[j])
    && (forall i :: 0 <= i < |w.charged| ==> w.charged[i] in w.ledger.attempts)
    && (forall id {:trigger w.ledger.attempts[id]} :: id in w.ledger.attempts && w.ledger.attempts[id].status.IsSettled() ==> id in w.charged)
  }

  predicate IsOwed(status: Status) {
    status.Confirmed? || status.RefundRequired?
  }

  predicate ClosesRefund(e: Event) {
    e.from == Some(RefundRequired) && e.to == Cancelled && e.actor == Payment
  }

  /** A seat or a debt stands on money that moved; a debt closed by the payment side stands on money sent back. */
  ghost predicate BookingPaid(w: World, id: string)
    requires id in w.store.bookings
  {
    && (IsOwed(w.store.bookings[id].status) ==> HasSettled(w.ledger, id))
    && (forall i :: 0 <= i < |Trail(w.store, id)| && ClosesRefund(Trail(w.store, id)[i]) ==> WasRefunded(w, id))
  }

  ghost predicate WorldOk(w: World) {
    && StoreOk(w.store)
    && LedgerOk(w.ledger)
    && ChargedOnce(w)
    && MovedOnce(w)
    && (forall k {:trigger RefundOk(w, k)} :: k in w.refunded ==> RefundOk(w, k))
    && (forall id {:trigger BookingPaid(w, id)} :: id in w.store.bookings ==> BookingPaid(w, id))
    && (forall t {:trigger CallOk(w, w.pays[t])} :: t in w.pays ==> CallOk(w, w.pays[t]))
    && (forall t, u {:trigger w.pays[t], w.pays[u]} :: t in w.pays && u in w.pays && t != u ==> w.pays[t].attemptId != w.pays[u].attemptId)
    && (forall t {:trigger WorkOk(w, w.works[t])} :: t in w.works ==> WorkOk(w, w.works[t]))
  }

  // ---- What only grows ----

  /** Rows stay; a settled row never changes; no row changes its booking, key or amount; refunds stay. */
  predicate Grows(w: World, v: World) {
    && (forall id {:trigger w.ledger.attempts[id]} {:trigger v.ledger.attempts[id]} :: id in w.ledger.attempts ==>
         && id in v.ledger.attempts
         && SameCharge(w.ledger.attempts[id], v.ledger.attempts[id])
         && (w.ledger.attempts[id].status.IsSettled() ==> v.ledger.attempts[id] == w.ledger.attempts[id]))
    && (forall k {:trigger w.refunded[k]} :: k in w.refunded ==> k in v.refunded && v.refunded[k] == w.refunded[k])
    && (forall id {:trigger id in w.charged} :: id in w.charged ==> id in v.charged)
  }

  predicate SameCharge(a: Attempt, b: Attempt) {
    a.id == b.id && a.bookingId == b.bookingId && a.key == b.key && a.amount == b.amount
  }

  lemma GrowthKeepsFacts(w: World, v: World, bookingId: string)
    requires Grows(w, v)
    ensures HasSettled(w.ledger, bookingId) ==> HasSettled(v.ledger, bookingId)
    ensures WasRefunded(w, bookingId) ==> WasRefunded(v, bookingId)
  {
    if HasSettled(w.ledger, bookingId) {
      var id :| id in w.ledger.attempts && w.ledger.attempts[id].bookingId == bookingId && IsRefundable(w.ledger.attempts[id]);
      assert id in v.ledger.attempts && v.ledger.attempts[id] == w.ledger.attempts[id];
    }
    if WasRefunded(w, bookingId) {
      var k :| k in w.refunded && w.refunded[k].bookingId == bookingId;
      assert k in v.refunded && v.refunded[k] == w.refunded[k];
    }
  }

  // ---- Each part is kept ----

  lemma {:induction false} NotFoundMeansFree(l: Ledger, bookingId: string, key: string)
    requires LedgerOk(l) && Find(l, bookingId, key).None?
    ensures forall id :: id in l.attempts ==> !HasKey(l.attempts[id], bookingId, key)
  {
    forall id | id in l.attempts ensures !HasKey(l.attempts[id], bookingId, key) {
      assert l.attempts[id].id == id;
      var k :| 0 <= k < |l.order| && l.order[k] == id;
    }
  }

  lemma OpeningKeepsLedger(l: Ledger, a: Attempt)
    requires LedgerOk(l) && a.id !in l.attempts && a.status.Initiated?
    requires Find(l, a.bookingId, a.key).None?
    ensures LedgerOk(Opening(l, a))
  {
    NotFoundMeansFree(l, a.bookingId, a.key);
    var m := Opening(l, a);
    forall id | id in m.attempts ensures id in m.order {
      if id != a.id {
        assert l.attempts[id].id == id;
        var k :| 0 <= k < |l.order| && l.order[k] == id;
        assert m.order[k] == id;
      } else {
        assert m.order[|l.order|] == id;
      }
    }
    forall i, j | i in m.attempts && j in m.attempts && i != j ensures !SameKey(m.attempts[i], m.attempts[j]) {
      if i != a.id && j != a.id {
        assert !SameKey(l.attempts[i], l.attempts[j]);
      }
    }
  }

  lemma SettlingKeepsLedger(l: Ledger, r: SettleRequest)
    requires LedgerOk(l)
    ensures LedgerOk(AfterSettle(l, r))
  {
    var m := AfterSettle(l, r);
    forall i, j | i in m.attempts && j in m.attempts && i != j ensures !SameKey(m.attempts[i], m.attempts[j]) {
      assert !SameKey(l.attempts[i], l.attempts[j]);
    }
  }

  // ---- The pieces a step is made of ----

  /** No call under way works on this attempt. */
  predicate NobodyUses(w: World, attemptId: string) {
    forall t {:trigger w.pays[t]} :: t in w.pays ==> w.pays[t].attemptId != attemptId
  }

  lemma GrowthItself(w: World)
    requires LedgerOk(w.ledger)
    ensures Grows(w, w)
  {
  }

  lemma TakeOutCall(w: World, t: nat)
    requires WorldOk(w) && t in w.pays
    ensures WorldOk(Without(w, t)) && NobodyUses(Without(w, t), w.pays[t].attemptId)
    ensures CallOk(Without(w, t), w.pays[t])
  {
    SameMoney(w, Without(w, t));
    var v := Without(w, t);
    forall u | u in v.pays ensures CallOk(v, v.pays[u]) {
      assert CallOk(w, w.pays[u]);
    }
    assert CallOk(w, w.pays[t]);
    forall u | u in v.works ensures WorkOk(v, v.works[u]) {
      assert WorkOk(w, w.works[u]);
    }
  }

  lemma PutInCall(w: World, t: nat, c: PayCall)
    requires WorldOk(w) && t !in w.pays && CallOk(w, c) && NobodyUses(w, c.attemptId)
    ensures WorldOk(w.(pays := w.pays[t := c]))
  {
    var v := w.(pays := w.pays[t := c]);
    SameMoney(w, v);
    forall u | u in v.pays ensures CallOk(v, v.pays[u]) {
      if u != t {
        assert CallOk(w, w.pays[u]);
      }
    }
    forall u | u in v.works ensures WorkOk(v, v.works[u]) {
      assert WorkOk(w, w.works[u]);
    }
  }

  /** Worlds that differ only in who is doing what agree on money and seats. */
  lemma SameMoney(w: World, v: World)
    requires WorldOk(w) && v == w.(pays := v.pays, works := v.works, refundsQueued := v.refundsQueued)
    ensures ChargedOnce(v) && MovedOnce(v)
    ensures forall k :: k in v.refunded ==> RefundOk(v, k)
    ensures forall id :: id in v.store.bookings ==> BookingPaid(v, id)
  {
    forall k | k in v.refunded ensures RefundOk(v, k) {
      assert RefundOk(w, k);
    }
    forall id | id in v.store.bookings ensures BookingPaid(v, id) {
      assert BookingPaid(w, id);
    }
  }

  lemma TakeOutWork(w: World, t: nat)
    requires WorldOk(w) && t in w.works
    ensures WorldOk(WorkWithout(w, t)) && WorkOk(WorkWithout(w, t), w.works[t])
  {
    var v := WorkWithout(w, t);
    SameMoney(w, v);
    assert WorkOk(w, w.works[t]);
    forall u | u in v.works ensures WorkOk(v, v.works[u]) {
      assert WorkOk(w, w.works[u]);
    }
    forall u | u in v.pays ensures CallOk(v, v.pays[u]) {
      assert CallOk(w, w.pays[u]);
    }
  }

  lemma PutInWork(w: World, t: nat, job: Work)
    requires WorldOk(w) && WorkOk(w, job)
    ensures WorldOk(w.(works := w.works[t := job]))
  {
    var v := w.(works := w.works[t := job]);
    SameMoney(w, v);
    forall u | u in v.works ensures WorkOk(v, v.works[u]) {
      if u != t {
        assert WorkOk(w, w.works[u]);
      }
    }
    forall u | u in v.pays ensures CallOk(v, v.pays[u]) {
      assert CallOk(w, w.pays[u]);
    }
  }

  lemma WorksStay(w: World, v: World)
    requires WorldOk(w) && Grows(w, v) && v.works == w.works
    requires forall id :: id in w.ledger.attempts && IsRefundable(w.ledger.attempts[id]) ==> v.ledger.attempts[id] == w.ledger.attempts[id]
    ensures forall u :: u in v.works ==> WorkOk(v, v.works[u])
  {
    forall u | u in v.works ensures WorkOk(v, v.works[u]) {
      assert WorkOk(w, w.works[u]);
      GrowthKeepsFacts(w, v, w.works[u].bookingId);
    }
  }

  lemma BookingsStay(w: World, v: World)
    requires WorldOk(w) && Grows(w, v) && v.store == w.store
    ensures forall id :: id in v.store.bookings ==> BookingPaid(v, id)
  {
    forall id | id in v.store.bookings ensures BookingPaid(v, id) {
      GrowthKeepsFacts(w, v, id);
      assert BookingPaid(w, id);
    }
  }

  /** A change to one attempt that no call is using keeps everything else standing. */
  lemma ChangeLedger(w: World, l: Ledger, attemptId: string)
    requires WorldOk(w) && NobodyUses(w, attemptId) && LedgerOk(l)
    requires Grows(w, w.(ledger := l))
    requires forall id :: id != attemptId ==> (id in l.attempts <==> id in w.ledger.attempts)
    requires forall id :: id != attemptId && id in l.attempts ==> l.attempts[id] == w.ledger.attempts[id]
    requires attemptId in l.attempts && l.attempts[attemptId].status.IsSettled() ==> attemptId in w.charged
    ensures WorldOk(w.(ledger := l))
  {
    var v := w.(ledger := l);
    BookingsStay(w, v);
    WorksStay(w, v);
    forall k | k in v.refunded ensures RefundOk(v, k) {
      assert RefundOk(w, k);
    }
    forall u | u in v.pays ensures CallOk(v, v.pays[u]) {
      assert CallOk(w, w.pays[u]);
    }
  }

  lemma ChangeCharged(w: World, attemptId: string)
    requires WorldOk(w) && NobodyUses(w, attemptId) && attemptId in w.ledger.attempts && attemptId !in w.charged
    ensures WorldOk(w.(charged := w.charged + [attemptId]))
    ensures Grows(w, w.(charged := w.charged + [attemptId]))
  {
    var v := w.(charged := w.charged + [attemptId]);
    BookingsStay(w, v);
    WorksStay(w, v);
    forall k | k in v.refunded ensures RefundOk(v, k) {
      assert RefundOk(w, k);
    }
    forall u | u in v.pays ensures CallOk(v, v.pays[u]) {
      assert CallOk(w, w.pays[u]);
    }
  }

  lemma ChangeRefunds(w: World, m: Movement)
    requires WorldOk(w) && m.key !in w.refunded
    requires m.attemptId in w.ledger.attempts && IsRefundable(w.ledger.attempts[m.attemptId]) && m == MovementFor(w.ledger.attempts[m.attemptId])
    ensures var v := w.(refunded := w.refunded[m.key := m], moved := w.moved + [m]);
            WorldOk(v) && Grows(w, v) && WasRefunded(v, m.bookingId)
  {
    var v := w.(refunded := w.refunded[m.key := m], moved := w.moved + [m]);
    MovedOnceMore(w, m);
    BookingsStay(w, v);
    WorksStay(w, v);
    CallsStay(w, v);
    assert m.key in v.refunded;
  }

  lemma CallsStay(w: World, v: World)
    requires WorldOk(w) && v.ledger == w.ledger && v.charged == w.charged && v.pays == w.pays
    ensures forall u :: u in v.pays ==> CallOk(v, v.pays[u])
  {
    forall u | u in v.pays ensures CallOk(v, v.pays[u]) {
      assert CallOk(w, w.pays[u]);
    }
  }

  lemma MovedOnceMore(w: World, m: Movement)
    requires WorldOk(w) && m.key !in w.refunded
    requires m.attemptId in w.ledger.attempts && IsRefundable(w.ledger.attempts[m.attemptId]) && m == MovementFor(w.ledger.attempts[m.attemptId])
    ensures var v := w.(refunded := w.refunded[m.key := m], moved := w.moved + [m]);
            MovedOnce(v) && forall k :: k in v.refunded ==> RefundOk(v, k)
  {
    var v := w.(refunded := w.refunded[m.key := m], moved := w.moved + [m]);
    forall k | k in v.refunded ensures RefundOk(v, k) {
      if k != m.key {
        assert RefundOk(w, k);
      } else {
        assert w.ledger.attempts[m.attemptId].id == m.attemptId;
      }
    }
  }

  /** Only a confirm makes a booking seated or owed, and only the payment side closes a debt in the payment's name. */
  lemma WhatAWriteSays(s: Store, op: Op)
    requires StoreOk(s) && IsFresh(s, op)
    ensures var d := Decide(s, op, true).write;
            d.Some? ==>
              && d.value.row.id == op.Target()
              && (IsOwed(d.value.row.status) ==> op.Confirm?)
              && (ClosesRefund(d.value.line) ==> op.Cancel? && op.actor == Payment)
  {
    DecidesWell(s, op, true);
  }

  lemma ChangeStore(w: World, op: Op)
    requires WorldOk(w) && IsFresh(w.store, op)
    requires op.Confirm? ==> HasSettled(w.ledger, op.id)
    requires op.Cancel? && op.actor == Payment ==> WasRefunded(w, op.id)
    ensures WorldOk(StoreAfter(w, op)) && Grows(w, StoreAfter(w, op))
  {
    var v := StoreAfter(w, op);
    ApplyKeeps(w.store, op, true);
    WhatAWriteSays(w.store, op);
    GrowthItself(w);
    WorksStay(w, v);
    forall id | id in v.store.bookings ensures BookingPaid(v, id) {
      PaidAfter(w, op, id);
    }
    forall k | k in v.refunded ensures RefundOk(v, k) {
      assert RefundOk(w, k);
    }
    forall u | u in v.pays ensures CallOk(v, v.pays[u]) {
      assert CallOk(w, w.pays[u]);
    }
  }

  lemma PaidAfter(w: World, op: Op, id: string)
    requires WorldOk(w) && IsFresh(w.store, op) && id in StoreAfter(w, op).store.bookings
    requires op.Confirm? ==> HasSettled(w.ledger, op.id)
    requires op.Cancel? && op.actor == Payment ==> WasRefunded(w, op.id)
    ensures BookingPaid(StoreAfter(w, op), id)
  {
    WhatAWriteSays(w.store, op);
    GrowthKeepsFacts(w, StoreAfter(w, op), id);
    if id in w.store.bookings {
      assert BookingPaid(w, id);
    } else {
      assert id !in w.store.events;
    }
    var d := Decide(w.store, op, true).write;
    var v := StoreAfter(w, op);
    if d.Some? && id == d.value.row.id {
      var before := Trail(w.store, id);
      assert Trail(v.store, id) == before + [d.value.line];
      forall i | 0 <= i < |before + [d.value.line]| && ClosesRefund((before + [d.value.line])[i]) ensures WasRefunded(v, id) {
        if i < |before| {
          assert ClosesRefund(before[i]);
        }
      }
    } else {
      assert Trail(v.store, id) == Trail(w.store, id);
    }
  }

  // ---- Every step keeps the invariant ----

  lemma {:induction false} AttemptsOfAre(l: Ledger, order: seq<string>, bookingId: string)
    requires forall i :: 0 <= i < |order| ==> order[i] in l.attempts
    requires forall id :: id in l.attempts ==> l.attempts[id].id == id
    ensures forall a :: a in AttemptsOf(l, order, bookingId) ==> a.id in l.attempts && l.attempts[a.id] == a && a.bookingId == bookingId
    ensures forall id :: id in order && l.attempts[id].bookingId == bookingId ==> l.attempts[id] in AttemptsOf(l, order, bookingId)
    decreases |order|
  {
    if order != [] {
      AttemptsOfAre(l, order[..|order| - 1], bookingId);
      assert order == order[..|order| - 1] + [order[|order| - 1]];
    }
  }

  /** Looking for a settled attempt finds one exactly when the booking has one, and the first in written order may be picked. */
  lemma SettledIsFound(l: Ledger, bookingId: string)
    requires LedgerOk(l)
    ensures var found := FirstRefundable(AttemptsOf(l, l.order, bookingId));
            && (HasSettled(l, bookingId) <==> found.Some?)
            && (found.Some? ==> found.value.id in l.attempts && l.attempts[found.value.id] == found.value
                                && IsRefundable(found.value) && found.value.bookingId == bookingId)
            && CanPick(l, bookingId, if found.Some? then Some(found.value.id) else None)
  {
    AttemptsOfAre(l, l.order, bookingId);
    if HasSettled(l, bookingId) {
      var id :| id in l.attempts && l.attempts[id].bookingId == bookingId && IsRefundable(l.attempts[id]);
      assert l.attempts[id] in AttemptsOf(l, l.order, bookingId);
    }
  }

  lemma ReadKeeps(w: World, t: nat, c: PayCall, otherwise: Option<PayPhase>)
    requires WorldOk(w) && t !in w.pays && CallOk(w, c) && NobodyUses(w, c.attemptId)
    requires otherwise.Some? ==> CallOk(w, c.(phase := otherwise.value))
    ensures WorldOk(AfterRead(w, t, c, otherwise)) && Grows(w, AfterRead(w, t, c, otherwise))
  {
    GrowthItself(w);
    var found := Find(w.ledger, c.bookingId, c.key);
    if found.Some? {
      var stored := w.ledger.attempts[found.value];
      assert stored.id == found.value;
      if stored.status.Succeeded? {
        PutInCall(w, t, c.(phase := Confirming(stored.id)));
      } else if stored.status.Failed? {
        PutInCall(w, t, c.(phase := Failing(stored.failureReason)));
      }
    } else if otherwise.Some? {
      PutInCall(w, t, c.(phase := otherwise.value));
    }
  }

  lemma OpeningKeeps(w: World, c: PayCall, at: Instant)
    requires WorldOk(w) && NobodyUses(w, c.attemptId)
    requires c.attemptId != "" && c.attemptId !in w.ledger.attempts && Find(w.ledger, c.bookingId, c.key).None?
    ensures var v := w.(ledger := Opening(w.ledger, RowOf(c, at)));
            WorldOk(v) && Grows(w, v) && CallOk(v, c.(phase := Charging))
  {
    OpeningKeepsLedger(w.ledger, RowOf(c, at));
    ChangeLedger(w, Opening(w.ledger, RowOf(c, at)), c.attemptId);
    OpenedCallOk(w, c, at);
  }

  /** A row just opened has not been charged. */
  lemma OpenedCallOk(w: World, c: PayCall, at: Instant)
    requires ChargedOnce(w) && c.attemptId != "" && c.attemptId !in w.ledger.attempts
    ensures CallOk(w.(ledger := Opening(w.ledger, RowOf(c, at))), c.(phase := Charging))
  {
    assert c.attemptId !in w.charged;
  }

  lemma InsertKeeps(w: World, t: nat, c: PayCall, at: Instant)
    requires WorldOk(w) && t !in w.pays && NobodyUses(w, c.attemptId)
    requires c.attemptId != "" && c.attemptId !in w.ledger.attempts
    ensures WorldOk(AfterInsert(w, t, c, at)) && Grows(w, AfterInsert(w, t, c, at))
  {
    GrowthItself(w);
    if Find(w.ledger, c.bookingId, c.key).Some? {
      PutInCall(w, t, c.(phase := Rereading));
    } else if c.bookingId in w.store.bookings {
      OpeningKeeps(w, c, at);
      PutInCall(w.(ledger := Opening(w.ledger, RowOf(c, at))), t, c.(phase := Charging));
    }
  }

  lemma AskKeeps(w: World, t: nat, c: PayCall, result: ChargeResult)
    requires WorldOk(w) && t !in w.pays && CallOk(w, c) && NobodyUses(w, c.attemptId) && c.phase.Charging?
    ensures WorldOk(AfterAsking(w, t, c, result)) && Grows(w, AfterAsking(w, t, c, result))
  {
    ChangeCharged(w, c.attemptId);
    var asked := w.(charged := w.charged + [c.attemptId]);
    if !result.ChargeFailed? {
      PutInCall(asked, t, c.(phase := Settling(result)));
    }
  }

  lemma SettledLedgerKeeps(w: World, c: PayCall, r: SettleRequest)
    requires WorldOk(w) && NobodyUses(w, c.attemptId) && r.attemptId == c.attemptId
    requires CallOk(w, c) && c.phase.Settling?
    ensures var v := w.(ledger := AfterSettle(w.ledger, r)); WorldOk(v) && Grows(w, v)
  {
    SettlingKeepsLedger(w.ledger, r);
    assert w.ledger.attempts[c.attemptId].id == c.attemptId;
    ChangeLedger(w, AfterSettle(w.ledger, r), c.attemptId);
  }

  lemma SettledCallOk(w: World, c: PayCall, r: SettleRequest)
    requires CallOk(w, c) && c.phase.Settling? && r.attemptId == c.attemptId && Settle(w.ledger, r).Settled?
    ensures var v := w.(ledger := AfterSettle(w.ledger, r));
            CallOk(v, c.(phase := if r.status.Failed? then Failing(r.failureReason) else Confirming(c.attemptId)))
  {
  }

  lemma SettleKeeps(w: World, t: nat, c: PayCall, result: ChargeResult, at: Instant)
    requires WorldOk(w) && t !in w.pays && CallOk(w, c) && NobodyUses(w, c.attemptId) && c.phase.Settling?
    ensures WorldOk(AfterSettling(w, t, c, result, at)) && Grows(w, AfterSettling(w, t, c, result, at))
  {
    var r := SettlementUnder(c.attemptId, result, at);
    SettledLedgerKeeps(w, c, r);
    if Settle(w.ledger, r).Settled? {
      SettledCallOk(w, c, r);
      PutInCall(w.(ledger := AfterSettle(w.ledger, r)), t,
                c.(phase := if r.status.Failed? then Failing(r.failureReason) else Confirming(c.attemptId)));
    }
  }

  lemma ConfirmKeeps(w: World, t: nat, c: PayCall, at: Instant, faults: ConfirmFaults)
    requires WorldOk(w) && t !in w.pays && CallOk(w, c) && NobodyUses(w, c.attemptId) && c.phase.Confirming?
    ensures WorldOk(AfterConfirming(w, t, c, at, faults)) && Grows(w, AfterConfirming(w, t, c, at, faults))
  {
    var op := Confirm(c.bookingId, at, faults);
    assert HasSettled(w.ledger, c.bookingId);
    ChangeStore(w, op);
    PutInCall(StoreAfter(w, op), t, c.(phase := QueueingRefund));
  }

  lemma PayKeeps(w: World, t: nat, step: Step)
    requires WorldOk(w) && Enabled(w, t, step) && IsPayStep(step)
    ensures WorldOk(Fire(w, t, step)) && Grows(w, Fire(w, t, step))
  {
    TakeOutCall(w, t);
    var rest, c := Without(w, t), w.pays[t];
    GrowthItself(rest);
    match step
    case LookUp => ReadKeeps(rest, t, c, Some(Inserting));
    case InsertRow(at) => InsertKeeps(rest, t, c, at);
    case Reread => ReadKeeps(rest, t, c, None);
    case AskProvider(result) => AskKeeps(rest, t, c, result);
    case SettleRow(at) => SettleKeeps(rest, t, c, c.phase.result, at);
    case ConfirmSeat(at, faults) => ConfirmKeeps(rest, t, c, at, faults);
    case FailBooking(at) => ChangeStore(rest, Fail(c.bookingId, c.phase.reason, at));
    case QueueRefund => QueueingKeeps(rest, c.bookingId);
    case PayDies =>
  }

  lemma QueueingKeeps(w: World, bookingId: string)
    requires WorldOk(w)
    ensures WorldOk(w.(refundsQueued := w.refundsQueued + [bookingId]))
  {
    var v := w.(refundsQueued := w.refundsQueued + [bookingId]);
    SameMoney(w, v);
    forall u | u in v.works ensures WorkOk(v, v.works[u]) {
      assert WorkOk(w, w.works[u]);
    }
    forall u | u in v.pays ensures CallOk(v, v.pays[u]) {
      assert CallOk(w, w.pays[u]);
    }
  }

  lemma RefundKeeps(w: World, t: nat, job: Work, reachable: bool)
    requires WorldOk(w) && WorkOk(w, job) && job.phase.Asking?
    ensures var v := AfterRefunding(w, t, job, job.phase.attempt, reachable); WorldOk(v) && Grows(w, v)
  {
    GrowthItself(w);
    var m := MovementFor(job.phase.attempt);
    if m.key in w.refunded {
      assert RefundOk(w, m.key);
      RefundKeysDiffer(w.refunded[m.key].attemptId, m.attemptId);
      PutInWork(w, t, job.(phase := Closing));
    } else if reachable {
      ChangeRefunds(w, m);
      PutInWork(w.(refunded := w.refunded[m.key := m], moved := w.moved + [m]), t, job.(phase := Closing));
    }
  }

  lemma WorkKeeps(w: World, t: nat, step: Step)
    requires WorldOk(w) && Enabled(w, t, step) && IsWorkStep(step)
    ensures WorldOk(Fire(w, t, step)) && Grows(w, Fire(w, t, step))
  {
    TakeOutWork(w, t);
    var rest, job := WorkWithout(w, t), w.works[t];
    GrowthItself(rest);
    match step
    case ReadBooking =>
      if job.bookingId in rest.store.bookings && rest.store.bookings[job.bookingId].status == RefundRequired {
        assert BookingPaid(rest, job.bookingId);
        PutInWork(rest, t, job.(phase := Picking));
      }
    case PickAttempt(pick) =>
      if pick.Some? {
        assert rest.ledger.attempts[pick.value].id == pick.value;
        PutInWork(rest, t, job.(phase := Asking(rest.ledger.attempts[pick.value])));
      }
    case AskRefund(reachable) => RefundKeeps(rest, t, job, reachable);
    case CloseBooking(at) => ChangeStore(rest, Cancel(job.bookingId, Payment, REFUND_REASON, at));
    case WorkDies =>
  }

  lemma FireKeeps(w: World, t: nat, step: Step)
    requires WorldOk(w) && Enabled(w, t, step)
    ensures WorldOk(Fire(w, t, step)) && Grows(w, Fire(w, t, step))
  {
    if IsPayStep(step) {
      PayKeeps(w, t, step);
    } else if IsWorkStep(step) {
      WorkKeeps(w, t, step);
    } else {
      GrowthItself(w);
      match step
      case StartPay(c) => PutInCall(w, t, c);
      case StartWork(bookingId) => PutInWork(w, t, Work(bookingId, Reading));
      case Elsewhere(op) => ChangeStore(w, op);
    }
  }
}
