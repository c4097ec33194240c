/**
 * What becomes of money taken: whether a booking's settled charge is ever
 * answered by a seat or a debt, and whether a debt is ever paid back.
 */
module PaidAnswers {
  import opened Collections
  import opened BookingStatus
  import opened BookingStore
  import opened BookingRuns
  import opened Payments
  import opened Money
  import opened MoneyRuns
  import opened PayKeys

  // ---- What a step does to the bookings ----

  /** The operation on bookings this step runs, if it runs one. */
  function OpOf(w: World, t: nat, step: Step): Option<Op>
    requires Enabled(w, t, step)
  {
    match step
    case ConfirmSeat(at, faults) => Some(Confirm(w.pays[t].bookingId, at, faults))
    case FailBooking(at) => Some(Fail(w.pays[t].bookingId, w.pays[t].phase.reason, at))
    case CloseBooking(at) => Some(Cancel(w.works[t].bookingId, Payment, REFUND_REASON, at))
    case Elsewhere(op) => Some(op)
    case _ => None
  }

  lemma StoreMoves(w: World, t: nat, step: Step)
    requires Enabled(w, t, step) && IsOrdered(w.ledger)
    ensures Fire(w, t, step).store == if OpOf(w, t, step).Some? then Apply(w.store, OpOf(w, t, step).value, true) else w.store
  {
  }

  // ---- Answered by a seat or a debt ----

  /** The booking was, at some point, seated or owed a refund. */
  predicate Answered(s: Store, id: string) {
    exists i :: 0 <= i < |Trail(s, id)| && IsOwed(Trail(s, id)[i].to)
  }

  /** This step is a confirm that decides the booking. */
  predicate Answers(w: World, t: nat, step: Step, id: string)
    requires Enabled(w, t, step)
  {
    step.ConfirmSeat? && w.pays[t].bookingId == id && Decides(w.store, id, step.faults)
  }

  predicate AnsweredIn(w: World, steps: seq<(nat, Step)>, id: string)
    requires IsRun(w, steps)
    decreases |steps|
  {
    steps != [] &&
    (Answers(w, steps[0].0, steps[0].1, id) || AnsweredIn(Fire(w, steps[0].0, steps[0].1), steps[1..], id))
  }

  lemma LineAnswers(s: Store, c: Change, id: string)
    ensures Answered(Put(s, c), id) <==> Answered(s, id) || (c.row.id == id && IsOwed(c.line.to))
  {
    var before, after := Trail(s, id), Trail(Put(s, c), id);
    if c.row.id == id {
      assert after == before + [c.line];
      assert after[|before|] == c.line;
      if Answered(s, id) {
        var i :| 0 <= i < |before| && IsOwed(before[i].to);
        assert IsOwed(after[i].to);
      }
    }
  }

  lemma OpAnswers(s: Store, op: Op, id: string)
    requires StoreOk(s) && IsFresh(s, op)
    ensures Answered(Apply(s, op, true), id)
            <==> Answered(s, id) || (op.Confirm? && op.id == id && Decides(s, id, op.faults))
  {
    var d := Decide(s, op, true).write;
    if op.Target() in s.bookings {
      assert EntryOk(s, op.Target());
    }
    if d.Some? {
      LineAnswers(s, d.value, id);
    }
  }

  lemma StepAnswers(w: World, t: nat, step: Step, id: string)
    requires WorldOk(w) && Enabled(w, t, step)
    ensures Answered(Fire(w, t, step).store, id) <==> Answered(w.store, id) || Answers(w, t, step, id)
  {
    StoreMoves(w, t, step);
    var op := OpOf(w, t, step);
    if op.Some? {
      OpAnswers(w.store, op.value, id);
    }
  }

  /**
   * Over any run, crashes, broken confirms and everybody else's operations
   * included, a booking is answered exactly when a confirm came for it while
   * it still waited for payment, and did not break.
   */
  lemma {:induction false} AnsweredExactly(w: World, steps: seq<(nat, Step)>, id: string)
    requires WorldOk(w) && IsRun(w, steps)
    ensures Answered(Exec(w, steps).store, id) <==> Answered(w.store, id) || AnsweredIn(w, steps, id)
    decreases |steps|
  {
    if steps != [] {
      var (t, step) := steps[0];
      StepAnswers(w, t, step, id);
      FireKeeps(w, t, step);
      AnsweredExactly(Fire(w, t, step), steps[1..], id);
    }
  }

  // ---- And never twice ----

  predicate HasMovedOn(s: Store, id: string) {
    id in s.bookings && !s.bookings[id].status.PendingPayment?
  }

  lemma StaysMovedOn(s: Store, op: Op, id: string)
    requires StoreOk(s) && IsFresh(s, op) && HasMovedOn(s, id)
    ensures HasMovedOn(Apply(s, op, true), id)
  {
    if op.Target() in s.bookings {
      assert EntryOk(s, op.Target());
    }
  }

  /** Once a booking waits for payment no longer, no confirm of any run answers it. */
  lemma {:induction false} MovedOnIsNotAnswered(w: World, steps: seq<(nat, Step)>, id: string)
    requires WorldOk(w) && IsRun(w, steps) && HasMovedOn(w.store, id)
    ensures !AnsweredIn(w, steps, id) && HasMovedOn(Exec(w, steps).store, id)
    decreases |steps|
  {
    if steps != [] {
      var (t, step) := steps[0];
      StoreMoves(w, t, step);
      if OpOf(w, t, step).Some? {
        StaysMovedOn(w.store, OpOf(w, t, step).value, id);
      }
      FireKeeps(w, t, step);
      MovedOnIsNotAnswered(Fire(w, t, step), steps[1..], id);
    }
  }

  lemma AnsweredHasMovedOn(s: Store, id: string)
    requires StoreOk(s) && id in s.bookings && Answered(s, id)
    ensures HasMovedOn(s, id)
  {
    assert EntryOk(s, id);
    var trail := Trail(s, id);
    var i :| 0 <= i < |trail| && IsOwed(trail[i].to);
    if |trail| > 1 {
      assert CanTransition(trail[|trail| - 2].to, trail[|trail| - 1].to);
    }
  }

  /** A booking is answered once: whatever else is charged for it gets neither a seat nor a debt. */
  lemma {:induction false} AnsweredOnlyOnce(w: World, steps: seq<(nat, Step)>, id: string)
    requires WorldOk(w) && IsRun(w, steps) && id in w.store.bookings && Answered(w.store, id)
    ensures !AnsweredIn(w, steps, id)
  {
    AnsweredHasMovedOn(w.store, id);
    MovedOnIsNotAnswered(w, steps, id);
  }

  // ---- Paid back ----

  /** The provider is reached for a refund of this booking. */
  predicate PaysBack(w: World, t: nat, step: Step, id: string)
    requires Enabled(w, t, step)
  {
    step.AskRefund? && step.reachable && w.works[t].bookingId == id
  }

  predicate PaidBackIn(w: World, steps: seq<(nat, Step)>, id: string)
    requires IsRun(w, steps)
    decreases |steps|
  {
    steps != [] &&
    (PaysBack(w, steps[0].0, steps[0].1, id) || PaidBackIn(Fire(w, steps[0].0, steps[0].1), steps[1..], id))
  }

  lemma AskingPaysBack(w: World, t: nat, reachable: bool, id: string)
    requires WorldOk(w) && Enabled(w, t, AskRefund(reachable))
    ensures WasRefunded(Fire(w, t, AskRefund(reachable)), id)
            <==> WasRefunded(w, id) || PaysBack(w, t, AskRefund(reachable), id)
  {
    var a, v := w.works[t].phase.attempt, Fire(w, t, AskRefund(reachable));
    var m := MovementFor(a);
    assert WorkOk(w, w.works[t]);
    if m.key in w.refunded {
      assert RefundOk(w, m.key);
      RefundKeysAreTheirOwn(w, a, m.key);
      assert v.refunded == w.refunded;
    } else if reachable {
      assert v.refunded == w.refunded[m.key := m];
      if WasRefunded(w, id) {
        var k :| k in w.refunded && w.refunded[k].bookingId == id;
        assert k in v.refunded && v.refunded[k].bookingId == id;
      }
      assert m.key in v.refunded;
    }
  }

  lemma RefundKeysAreTheirOwn(w: World, a: Attempt, k: string)
    requires WorldOk(w) && k in w.refunded && RefundOk(w, k) && k == RefundKeyFor(a.id)
    requires a.id in w.ledger.attempts && w.ledger.attempts[a.id] == a
    ensures w.refunded[k].bookingId == a.bookingId
  {
    RefundKeysDiffer(a.id, w.refunded[k].attemptId);
    assert w.ledger.attempts[w.refunded[k].attemptId].id == w.refunded[k].attemptId;
  }

  lemma RefundsStay(w: World, t: nat, step: Step)
    requires Enabled(w, t, step) && IsOrdered(w.ledger) && !step.AskRefund?
    ensures Fire(w, t, step).refunded == w.refunded
  {
  }

  lemma StepPaysBack(w: World, t: nat, step: Step, id: string)
    requires WorldOk(w) && Enabled(w, t, step)
    ensures WasRefunded(Fire(w, t, step), id) <==> WasRefunded(w, id) || PaysBack(w, t, step, id)
  {
    if step.AskRefund? {
      AskingPaysBack(w, t, step.reachable, id);
    } else {
      RefundsStay(w, t, step);
    }
  }

  /** Somebody other than the refund job withdraws the booking. */
  predicate Withdraws(step: Step, id: string) {
    step.Elsewhere? && step.op.Cancel? && step.op.id == id
  }

  predicate WithdrawnIn(steps: seq<(nat, Step)>, id: string) {
    exists i :: 0 <= i < |steps| && Withdraws(steps[i].1, id)
  }

  /** Owed a refund, or closed after that. */
  predicate IsDebt(s: Store, id: string) {
    id in s.bookings && (s.bookings[id].status.RefundRequired? || s.bookings[id].status.Cancelled?)
  }

  predicate IsClosed(s: Store, id: string) {
    id in s.bookings && s.bookings[id].status.Cancelled?
  }

  /** Of a debt, the one thing that can happen is a cancel. */
  lemma OnlyCancelCloses(s: Store, op: Op, id: string)
    requires StoreOk(s) && IsFresh(s, op) && IsDebt(s, id)
    ensures IsDebt(Apply(s, op, true), id)
    ensures IsClosed(Apply(s, op, true), id) <==> IsClosed(s, id) || (op.Cancel? && op.id == id)
  {
    if op.Target() in s.bookings {
      assert EntryOk(s, op.Target());
    }
  }

  /** A debt is closed by a withdrawal, or by a refund job that has seen the money go back. */
  lemma StepCloses(w: World, t: nat, step: Step, id: string)
    requires WorldOk(w) && Enabled(w, t, step) && IsDebt(w.store, id)
    ensures IsDebt(Fire(w, t, step).store, id)
    ensures IsClosed(w.store, id) ==> IsClosed(Fire(w, t, step).store, id)
    ensures Withdraws(step, id) ==> IsClosed(Fire(w, t, step).store, id)
    ensures IsClosed(Fire(w, t, step).store, id) ==> IsClosed(w.store, id) || Withdraws(step, id) || WasRefunded(w, id)
  {
    StoreMoves(w, t, step);
    if OpOf(w, t, step).Some? {
      OnlyCancelCloses(w.store, OpOf(w, t, step).value, id);
      if step.CloseBooking? {
        assert WorkOk(w, w.works[t]);
      }
    }
  }

  lemma FirstOrLater(steps: seq<(nat, Step)>, id: string)
    requires steps != []
    ensures WithdrawnIn(steps, id) <==> Withdraws(steps[0].1, id) || WithdrawnIn(steps[1..], id)
  {
    if WithdrawnIn(steps, id) && !Withdraws(steps[0].1, id) {
      var i :| 0 <= i < |steps| && Withdraws(steps[i].1, id);
      assert steps[1..][i - 1] == steps[i];
    }
    if WithdrawnIn(steps[1..], id) {
      var i :| 0 <= i < |steps[1..]| && Withdraws(steps[1..][i].1, id);
      assert steps[i + 1] == steps[1..][i];
    }
  }

  /** What a run makes of a debt: paid back, and closed, each exactly as its steps say. */
  lemma {:induction false} DebtAlong(w: World, steps: seq<(nat, Step)>, id: string)
    requires WorldOk(w) && IsRun(w, steps) && IsDebt(w.store, id)
    ensures WasRefunded(Exec(w, steps), id) <==> WasRefunded(w, id) || PaidBackIn(w, steps, id)
    ensures IsDebt(Exec(w, steps).store, id)
    ensures IsClosed(w.store, id) || WithdrawnIn(steps, id) ==> IsClosed(Exec(w, steps).store, id)
    ensures IsClosed(Exec(w, steps).store, id) ==> IsClosed(w.store, id) || WithdrawnIn(steps, id) || WasRefunded(Exec(w, steps), id)
    decreases |steps|
  {
    if steps != [] {
      var (t, step) := steps[0];
      StepPaysBack(w, t, step, id);
      StepCloses(w, t, step, id);
      FireKeeps(w, t, step);
      FirstOrLater(steps, id);
      DebtAlong(Fire(w, t, step), steps[1..], id);
    }
  }

  /**
   * A debt ends closed with no money sent back exactly when somebody withdraws
   * the booking and no refund of it reaches the provider.
   */
  lemma {:induction false} DebtDroppedExactly(w: World, steps: seq<(nat, Step)>, id: string)
    requires WorldOk(w) && IsRun(w, steps)
    requires id in w.store.bookings && w.store.bookings[id].status.RefundRequired? && !WasRefunded(w, id)
    ensures IsClosed(Exec(w, steps).store, id) && !WasRefunded(Exec(w, steps), id)
            <==> WithdrawnIn(steps, id) && !PaidBackIn(w, steps, id)
  {
    DebtAlong(w, steps, id);
  }

  // ---- Once neither waiting nor owed ----

  /** No refund job for the booking is past its first read. */
  predicate NobodyRefunds(w: World, id: string) {
    forall t :: t in w.works && w.works[t].bookingId == id ==> w.works[t].phase.Reading?
  }

  predicate IsPast(s: Store, id: string) {
    HasMovedOn(s, id) && !s.bookings[id].status.RefundRequired?
  }

  lemma StaysPast(s: Store, op: Op, id: string)
    requires StoreOk(s) && IsFresh(s, op) && IsPast(s, id)
    ensures IsPast(Apply(s, op, true), id)
  {
    if op.Target() in s.bookings {
      assert EntryOk(s, op.Target());
    }
  }

  lemma NobodyStarts(w: World, t: nat, step: Step, id: string)
    requires Enabled(w, t, step) && IsOrdered(w.ledger) && IsPast(w.store, id) && NobodyRefunds(w, id)
    ensures NobodyRefunds(Fire(w, t, step), id) && !PaysBack(w, t, step, id)
  {
  }

  lemma StepStaysPast(w: World, t: nat, step: Step, id: string)
    requires WorldOk(w) && Enabled(w, t, step) && IsPast(w.store, id) && NobodyRefunds(w, id)
    ensures IsPast(Fire(w, t, step).store, id) && NobodyRefunds(Fire(w, t, step), id) && !PaysBack(w, t, step, id)
  {
    StoreMoves(w, t, step);
    NobodyStarts(w, t, step, id);
    if OpOf(w, t, step).Some? {
      StaysPast(w.store, OpOf(w, t, step).value, id);
    }
  }

  /** From then on nothing of any run sends its money back. */
  lemma {:induction false} PastIsNeverPaidBack(w: World, steps: seq<(nat, Step)>, id: string)
    requires WorldOk(w) && IsRun(w, steps) && IsPast(w.store, id) && NobodyRefunds(w, id)
    ensures WasRefunded(Exec(w, steps), id) <==> WasRefunded(w, id)
    ensures !AnsweredIn(w, steps, id)
    decreases |steps|
  {
    if steps != [] {
      var (t, step) := steps[0];
      StepStaysPast(w, t, step, id);
      StepPaysBack(w, t, step, id);
      FireKeeps(w, t, step);
      PastIsNeverPaidBack(Fire(w, t, step), steps[1..], id);
    }
  }

  // ---- Runs that do it ----

  /** The parent withdraws as the confirm is about to run. */
  function Withdrawal(id: string, reason: string, at: Instant): Step {
    Elsewhere(Cancel(id, Parent, reason, at))
  }

  function WithdrawnThenConfirmed(t: nat, id: string, reason: string, at: Instant, later: Instant): seq<(nat, Step)> {
    [(t, Withdrawal(id, reason, at))] + ([(t, ConfirmSeat(later, NO_FAULTS))] + [])
  }

  lemma WithdrawnIsClosed(w: World, t: nat, id: string, reason: string, at: Instant)
    requires WorldOk(w) && id in w.store.bookings && w.store.bookings[id].status.PendingPayment?
    ensures var v := Fire(w, t, Withdrawal(id, reason, at));
            v == w.(store := v.store) && IsClosed(v.store, id) && !Answered(v.store, id)
  {
    assert EntryOk(w.store, id);
    StepAnswers(w, t, Withdrawal(id, reason, at), id);
    if Answered(w.store, id) {
      AnsweredHasMovedOn(w.store, id);
    }
  }

  /** Withdrawn between charge and confirm, a booking ends cancelled, its charge settled, with no debt and no refund asked for. */
  lemma {:induction false} ChargeLeftUnanswered(w: World, t: nat, reason: string, at: Instant, later: Instant)
    requires WorldOk(w) && t in w.pays && w.pays[t].phase.Confirming?
    requires w.pays[t].bookingId in w.store.bookings && w.store.bookings[w.pays[t].bookingId].status.PendingPayment?
    ensures var id, paid := w.pays[t].bookingId, w.pays[t].phase.paid;
            var steps := WithdrawnThenConfirmed(t, id, reason, at, later);
            && IsRun(w, steps)
            && var v := Exec(w, steps);
            && v.ledger == w.ledger
            && paid in v.ledger.attempts && IsRefundable(v.ledger.attempts[paid]) && v.ledger.attempts[paid].bookingId == id
            && IsClosed(v.store, id) && !Answered(v.store, id)
            && SameRefunds(w, v) && v.pays == w.pays - {t}
  {
    var id := w.pays[t].bookingId;
    assert CallOk(w, w.pays[t]);
    var withdrawal, confirm := (t, Withdrawal(id, reason, at)), (t, ConfirmSeat(later, NO_FAULTS));
    var w1 := Fire(w, withdrawal.0, withdrawal.1);
    var w2 := Fire(w1, confirm.0, confirm.1);
    WithdrawnIsClosed(w, t, id, reason, at);
    assert w2 == Without(w1, t);
    assert IsRun(w2, []) && Exec(w2, []) == w2;
    OneMoreStep(w1, confirm, []);
    OneMoreStep(w, withdrawal, [confirm] + []);
  }

  /** A confirm that gives up on the class row leaves the booking waiting and its charge without an answer. */
  lemma {:induction false} BrokenConfirmAnswersNothing(w: World, t: nat, at: Instant)
    requires WorldOk(w) && t in w.pays && w.pays[t].phase.Confirming?
    ensures Enabled(w, t, ConfirmSeat(at, ConfirmFaults(true, false)))
    ensures Fire(w, t, ConfirmSeat(at, ConfirmFaults(true, false))) == Without(w, t)
    ensures w.pays[t].phase.paid in w.ledger.attempts && IsRefundable(w.ledger.attempts[w.pays[t].phase.paid])
  {
    assert CallOk(w, w.pays[t]);
  }

  /**
   * From nothing at all: one granted hold, one payment, and a withdrawal before
   * the confirm. The money is taken, nobody is at work, and no continuation
   * whatever seats the child, records the debt or sends anything back.
   */
  lemma {:induction false} UnansweredForGood(
    classes: map<string, TrialClass>, parents: map<string, string>, r: HoldRequest, t: nat, c: PayCall,
    reason: string, at: Instant, more: seq<(nat, Step)>)
    requires r.classId in classes && MaxHolders(classes[r.classId]) >= 1 && r.studentId in parents && r.maxHoldsPerParent >= 1
    requires r.bookingId != "" && c.bookingId == r.bookingId && c.phase.LookingUp?
    requires IsKey(c.key) && c.amount.IsValid() && c.attemptId != ""
    ensures var start := World(Store(classes, parents, map[], map[]), Ledger({}, map[], []), [], map[], [], [], map[], map[]);
            var steps := PaidThenWithdrawn(r, t, c, reason, at);
            && IsRun(start, steps)
            && var v := Exec(start, steps);
            && SettledIds(v.ledger, r.bookingId) == {c.attemptId} && v.pays == map[] && v.works == map[] && v.refundsQueued == []
            && (IsRun(v, more) ==>
                  && !Answered(Exec(v, more).store, r.bookingId)
                  && !WasRefunded(Exec(v, more), r.bookingId)
                  && c.attemptId in SettledIds(Exec(v, more).ledger, r.bookingId))
  {
    var start := World(Store(classes, parents, map[], map[]), Ledger({}, map[], []), [], map[], [], [], map[], map[]);
    EmptyWorldIsOk(classes, parents);
    FirstHoldIsGranted(start.store, r);
    var hold := (0, Elsewhere(Hold(r)));
    var held := Fire(start, hold.0, hold.1);
    FireKeeps(start, hold.0, hold.1);
    PaymentThenWithdrawal(held, t, c, reason, at);
    OneMoreStep(start, hold, PaymentSteps(t, c, "first", at) + WithdrawnThenConfirmed(t, c.bookingId, reason, at, at));
    var v := Exec(start, PaidThenWithdrawn(r, t, c, reason, at));
    MoneyRuns.RunKeeps(start, PaidThenWithdrawn(r, t, c, reason, at));
    if IsRun(v, more) {
      StaysUnanswered(v, more, r.bookingId, c.attemptId);
    }
  }

  function PaidThenWithdrawn(r: HoldRequest, t: nat, c: PayCall, reason: string, at: Instant): seq<(nat, Step)> {
    [(0, Elsewhere(Hold(r)))] + (PaymentSteps(t, c, "first", at) + WithdrawnThenConfirmed(t, c.bookingId, reason, at, at))
  }

  lemma {:induction false} StaysUnanswered(v: World, more: seq<(nat, Step)>, id: string, paid: string)
    requires WorldOk(v) && IsRun(v, more) && IsPast(v.store, id) && v.works == map[] && !Answered(v.store, id) && !WasRefunded(v, id)
    requires paid in SettledIds(v.ledger, id)
    ensures !Answered(Exec(v, more).store, id) && !WasRefunded(Exec(v, more), id)
    ensures paid in SettledIds(Exec(v, more).ledger, id)
  {
    PastIsNeverPaidBack(v, more, id);
    AnsweredExactly(v, more, id);
    SettledRowsNeverChange(v, more, paid);
  }

  lemma {:induction false} PaymentThenWithdrawal(w: World, t: nat, c: PayCall, reason: string, at: Instant)
    requires WorldOk(w) && w.pays == map[] && w.ledger.attempts == map[] && w.refunded == map[] && w.works == map[] && w.refundsQueued == []
    requires CanStart(w, t, c) && c.bookingId in w.store.bookings && w.store.bookings[c.bookingId].status.PendingPayment?
    ensures var steps := PaymentSteps(t, c, "first", at) + WithdrawnThenConfirmed(t, c.bookingId, reason, at, at);
            && IsRun(w, steps)
            && var v := Exec(w, steps);
            && SettledIds(v.ledger, c.bookingId) == {c.attemptId} && v.pays == map[] && v.works == map[] && v.refundsQueued == []
            && IsPast(v.store, c.bookingId) && !Answered(v.store, c.bookingId) && !WasRefunded(v, c.bookingId)
  {
    PaymentRuns(w, t, c, "first", at);
    var paid := Exec(w, PaymentSteps(t, c, "first", at));
    ChargeLeftUnanswered(paid, t, reason, at, at);
    RunJoin(w, PaymentSteps(t, c, "first", at), WithdrawnThenConfirmed(t, c.bookingId, reason, at, at));
    assert paid.pays - {t} == map[];
    assert paid.ledger.attempts.Keys == {c.attemptId};
  }

  /** Withdrawn while it is owed, a booking is closed with no money sent back, and the job written for it finds nothing to do. */
  lemma {:induction false} DebtDropped(w: World, u: nat, id: string, reason: string, at: Instant)
    requires WorldOk(w) && u !in w.works && id != ""
    requires id in w.store.bookings && w.store.bookings[id].status.RefundRequired?
    ensures var steps := [(u, Withdrawal(id, reason, at))] + ([(u, StartWork(id))] + ([(u, ReadBooking)] + []));
            && IsRun(w, steps)
            && IsClosed(Exec(w, steps).store, id)
            && Exec(w, steps) == w.(store := Exec(w, steps).store)
  {
    assert EntryOk(w.store, id);
    var withdrawal, begin, read := (u, Withdrawal(id, reason, at)), (u, StartWork(id)), (u, ReadBooking);
    var w1 := Fire(w, withdrawal.0, withdrawal.1);
    var w2 := Fire(w1, begin.0, begin.1);
    var w3 := Fire(w2, read.0, read.1);
    assert w2.works - {u} == w.works;
    assert w3 == w1;
    assert IsRun(w3, []) && Exec(w3, []) == w3;
    OneMoreStep(w2, read, []);
    OneMoreStep(w1, begin, [read] + []);
    OneMoreStep(w, withdrawal, [begin] + ([read] + []));
  }
}
