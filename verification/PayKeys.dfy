/**
 * How often one booking can be charged: at most once for each key its pay
 * calls use, and that often indeed.
 */
module PayKeys {
  import opened Collections
  import opened BookingStatus
  import opened BookingStore
  import opened BookingRuns
  import opened Payments
  import opened Money
  import opened MoneyRuns

  // ---- At most once for each key ----

  /** Every row and every call of the booking carries one of these keys. */
  predicate KeysWithin(w: World, bookingId: string, keys: set<string>) {
    && (forall id :: id in w.ledger.attempts && w.ledger.attempts[id].bookingId == bookingId ==> w.ledger.attempts[id].key in keys)
    && (forall t :: t in w.pays && w.pays[t].bookingId == bookingId ==> w.pays[t].key in keys)
  }

  predicate StartsWithin(steps: seq<(nat, Step)>, bookingId: string, keys: set<string>) {
    forall i :: 0 <= i < |steps| && steps[i].1.StartPay? && steps[i].1.call.bookingId == bookingId ==> steps[i].1.call.key in keys
  }

  /** A pay step drops its call or moves it to another phase, and touches no other. */
  predicate MovesCall(before: map<nat, PayCall>, after: map<nat, PayCall>, t: nat, c: PayCall) {
    after == before || (t in after && after == before[t := c.(phase := after[t].phase)])
  }

  lemma ReadMoves(w: World, t: nat, c: PayCall, otherwise: Option<PayPhase>)
    requires IsOrdered(w.ledger)
    ensures MovesCall(w.pays, AfterRead(w, t, c, otherwise).pays, t, c) && AfterRead(w, t, c, otherwise).ledger == w.ledger
  {
  }

  lemma SettleMoves(w: World, t: nat, c: PayCall, result: ChargeResult, at: Instant)
    ensures MovesCall(w.pays, AfterSettling(w, t, c, result, at).pays, t, c)
    ensures AfterSettling(w, t, c, result, at).ledger.attempts.Keys == w.ledger.attempts.Keys
  {
  }

  lemma InsertMoves(w: World, t: nat, c: PayCall, at: Instant)
    requires IsOrdered(w.ledger)
    ensures var v := AfterInsert(w, t, c, at);
            && MovesCall(w.pays, v.pays, t, c)
            && forall id :: id in v.ledger.attempts ==> id in w.ledger.attempts || HasKey(v.ledger.attempts[id], c.bookingId, c.key)
  {
  }

  lemma ConfirmMoves(w: World, t: nat, c: PayCall, at: Instant, faults: ConfirmFaults)
    ensures MovesCall(w.pays, AfterConfirming(w, t, c, at, faults).pays, t, c) && AfterConfirming(w, t, c, at, faults).ledger == w.ledger
  {
  }

  lemma PayStepMoves(w: World, t: nat, c: PayCall, step: Step)
    requires IsPayStep(step) && FitsPhase(c.phase, step) && IsOrdered(w.ledger)
    ensures var v := FirePay(w, t, c, step);
            && MovesCall(w.pays, v.pays, t, c)
            && forall id :: id in v.ledger.attempts ==> id in w.ledger.attempts || HasKey(v.ledger.attempts[id], c.bookingId, c.key)
  {
    match step
    case LookUp => ReadMoves(w, t, c, Some(Inserting));
    case Reread => ReadMoves(w, t, c, None);
    case InsertRow(at) => InsertMoves(w, t, c, at);
    case SettleRow(at) => SettleMoves(w, t, c, c.phase.result, at);
    case ConfirmSeat(at, faults) => ConfirmMoves(w, t, c, at, faults);
    case _ =>
  }

  lemma CallsAfter(w: World, t: nat, step: Step, u: nat)
    requires IsOrdered(w.ledger) && Enabled(w, t, step) && u in Fire(w, t, step).pays
    ensures var v := Fire(w, t, step);
            if step.StartPay? && u == t then v.pays[u] == step.call
            else u in w.pays && v.pays[u].bookingId == w.pays[u].bookingId && v.pays[u].key == w.pays[u].key
  {
    if IsPayStep(step) {
      PayStepMoves(Without(w, t), t, w.pays[t], step);
    }
  }

  lemma RowsAfter(w: World, t: nat, step: Step, id: string)
    requires IsOrdered(w.ledger) && Enabled(w, t, step) && id in Fire(w, t, step).ledger.attempts && id !in w.ledger.attempts
    ensures t in w.pays && HasKey(Fire(w, t, step).ledger.attempts[id], w.pays[t].bookingId, w.pays[t].key)
  {
    if IsPayStep(step) {
      PayStepMoves(Without(w, t), t, w.pays[t], step);
    }
  }

  /** No step changes the key or the booking of a row or of a call, and a new row has its call's. */
  lemma StepKeepsKeys(w: World, t: nat, step: Step, bookingId: string, keys: set<string>)
    requires WorldOk(w) && Enabled(w, t, step) && KeysWithin(w, bookingId, keys)
    requires step.StartPay? && step.call.bookingId == bookingId ==> step.call.key in keys
    ensures KeysWithin(Fire(w, t, step), bookingId, keys)
  {
    var v := Fire(w, t, step);
    FireKeeps(w, t, step);
    forall id | id in v.ledger.attempts && v.ledger.attempts[id].bookingId == bookingId ensures v.ledger.attempts[id].key in keys {
      if id in w.ledger.attempts {
        assert SameCharge(w.ledger.attempts[id], v.ledger.attempts[id]);
      } else {
        RowsAfter(w, t, step, id);
      }
    }
    forall u | u in v.pays && v.pays[u].bookingId == bookingId ensures v.pays[u].key in keys {
      CallsAfter(w, t, step, u);
    }
  }

  lemma {:induction false} RunKeepsKeys(w: World, steps: seq<(nat, Step)>, bookingId: string, keys: set<string>)
    requires WorldOk(w) && IsRun(w, steps) && KeysWithin(w, bookingId, keys) && StartsWithin(steps, bookingId, keys)
    ensures KeysWithin(Exec(w, steps), bookingId, keys)
    decreases |steps|
  {
    if steps != [] {
      var (t, step) := steps[0];
      assert steps[0].1 == step;
      StepKeepsKeys(w, t, step, bookingId, keys);
      FireKeeps(w, t, step);
      RunKeepsKeys(Fire(w, t, step), steps[1..], bookingId, keys);
    }
  }

  /**
   * Over any run, crashes and overlaps included, a booking has at most as many
   * settled charges as its pay calls use keys; with one key, at most one.
   */
  lemma {:induction false} SettledAtMostOnceForEachKey(w: World, steps: seq<(nat, Step)>, bookingId: string, keys: set<string>)
    requires WorldOk(w) && IsRun(w, steps) && KeysWithin(w, bookingId, keys) && StartsWithin(steps, bookingId, keys)
    ensures |SettledIds(Exec(w, steps).ledger, bookingId)| <= |keys|
  {
    MoneyRuns.RunKeeps(w, steps);
    RunKeepsKeys(w, steps, bookingId, keys);
    OneForEachKey(Exec(w, steps).ledger, bookingId, keys);
  }

  /** Rows of one booking carry distinct keys. */
  lemma OneForEachKey(l: Ledger, bookingId: string, keys: set<string>)
    requires LedgerOk(l) && forall id :: id in l.attempts && l.attempts[id].bookingId == bookingId ==> l.attempts[id].key in keys
    ensures |SettledIds(l, bookingId)| <= |keys|
  {
    var ids := SettledIds(l, bookingId);
    var keyOf := map id | id in l.attempts :: l.attempts[id].key;
    var used := set id | id in ids :: keyOf[id];
    forall a, b | a in ids && b in ids && a != b ensures keyOf[a] != keyOf[b] {
      assert !SameKey(l.attempts[a], l.attempts[b]);
    }
    SizeOfImage(ids, used, keyOf);
    SizeOfSubset(used, keys);
  }

  // ---- And that often indeed ----

  lemma {:induction false} RunJoin(w: World, a: seq<(nat, Step)>, b: seq<(nat, Step)>)
    requires IsRun(w, a) && IsRun(Exec(w, a), b)
    ensures IsRun(w, a + b) && Exec(w, a + b) == Exec(Exec(w, a), b)
    decreases |a|
  {
    if a == [] {
      assert a + b == b;
    } else {
      assert (a + b)[0] == a[0] && (a + b)[1..] == a[1..] + b;
      RunJoin(Fire(w, a[0].0, a[0].1), a[1..], b);
    }
  }

  /** The five calls of an undisturbed payment, up to its settled row. */
  function PaymentSteps(t: nat, c: PayCall, ref: string, at: Instant): seq<(nat, Step)> {
    FirstHalf(t, c, at) + SecondHalf(t, ref, at)
  }

  predicate KeyIsNew(w: World, c: PayCall) {
    forall id :: id in w.ledger.attempts ==> !HasKey(w.ledger.attempts[id], c.bookingId, c.key)
  }

  /** Nothing was sent back, and no refund was begun or asked for. */
  predicate SameRefunds(w: World, v: World) {
    v.refunded == w.refunded && v.moved == w.moved && v.refundsQueued == w.refundsQueued && v.works == w.works
  }

  /** What an undisturbed payment under a new key leaves. */
  predicate AfterPayment(w: World, v: World, t: nat, c: PayCall) {
    && v.store == w.store
    && v.ledger.attempts.Keys == w.ledger.attempts.Keys + {c.attemptId}
    && (forall id :: id in w.ledger.attempts && id != c.attemptId ==> v.ledger.attempts[id] == w.ledger.attempts[id])
    && IsRefundable(v.ledger.attempts[c.attemptId]) && HasKey(v.ledger.attempts[c.attemptId], c.bookingId, c.key)
    && v.pays == w.pays[t := c.(phase := Confirming(c.attemptId))]
    && SameRefunds(w, v)
  }

  lemma StartAndLook(w: World, t: nat, c: PayCall)
    requires WorldOk(w) && CanStart(w, t, c) && KeyIsNew(w, c)
    ensures var w1 := Fire(w, t, StartPay(c));
            && IsOrdered(w1.ledger) && Enabled(w1, t, LookUp)
            && Fire(w1, t, LookUp) == w.(pays := w.pays[t := c.(phase := Inserting)])
  {
    var w1 := Fire(w, t, StartPay(c));
    assert w1.pays - {t} == w.pays;
    assert w1 == w.(pays := w.pays[t := c]);
    assert Find(w.ledger, c.bookingId, c.key).None?;
    assert w.pays[t := c.(phase := Inserting)] == (w1.pays - {t})[t := c.(phase := Inserting)];
  }

  /** The call's row succeeded, its call is about to confirm, and nothing else moved. */
  predicate SettlesCall(w: World, u: World, t: nat)
    requires t in w.pays
  {
    var c := w.pays[t];
    && u.store == w.store && u.ledger.attempts.Keys == w.ledger.attempts.Keys
    && c.attemptId in w.ledger.attempts
    && IsRefundable(u.ledger.attempts[c.attemptId]) && HasKey(u.ledger.attempts[c.attemptId], c.bookingId, c.key)
    && (forall id :: id in w.ledger.attempts && id != c.attemptId ==> u.ledger.attempts[id] == w.ledger.attempts[id])
    && u.pays == w.pays[t := c.(phase := Confirming(c.attemptId))]
    && SameRefunds(w, u)
  }

  /** Opened, then settled: what the two halves of a payment come to. */
  lemma HalvesMakeAPayment(w: World, mid: World, v: World, t: nat, c: PayCall, at: Instant)
    requires c.attemptId !in w.ledger.attempts && t !in w.pays
    requires mid == w.(ledger := Opening(w.ledger, RowOf(c, at)), pays := w.pays[t := c.(phase := Charging)])
    requires SettlesCall(mid, v, t)
    ensures AfterPayment(w, v, t, c)
  {
    assert mid.ledger.attempts.Keys == w.ledger.attempts.Keys + {c.attemptId};
  }

  lemma ChargeAndSettle(w: World, t: nat, ref: string, at: Instant)
    requires WorldOk(w) && t in w.pays && w.pays[t].phase.Charging? && ref != ""
    ensures Enabled(w, t, AskProvider(Charged(ref)))
    ensures var v := Fire(w, t, AskProvider(Charged(ref)));
            IsOrdered(v.ledger) && Enabled(v, t, SettleRow(at)) && SettlesCall(w, Fire(v, t, SettleRow(at)), t)
  {
    assert CallOk(w, w.pays[t]);
    var c := w.pays[t];
    assert (w.pays - {t})[t := c.(phase := Settling(Charged(ref)))] - {t} == w.pays - {t};
    assert (w.pays - {t})[t := c.(phase := Confirming(c.attemptId))] == w.pays[t := c.(phase := Confirming(c.attemptId))];
  }

  /** The first three calls open the row. */
  lemma PaymentOpens(w: World, t: nat, c: PayCall, at: Instant)
    requires WorldOk(w) && CanStart(w, t, c) && KeyIsNew(w, c) && c.bookingId in w.store.bookings
    ensures IsRun(w, FirstHalf(t, c, at))
    ensures Exec(w, FirstHalf(t, c, at)) == w.(ledger := Opening(w.ledger, RowOf(c, at)), pays := w.pays[t := c.(phase := Charging)])
  {
    StartAndLook(w, t, c);
    var w1 := Fire(w, t, StartPay(c));
    FireKeeps(w, t, StartPay(c));
    FireKeeps(w1, t, LookUp);
    var w2 := w.(pays := w.pays[t := c.(phase := Inserting)]);
    InsertsRow(w, w2, t, c, at);
    OneMoreStep(w1, (t, LookUp), [(t, InsertRow(at))]);
    OneMoreStep(w, (t, StartPay(c)), [(t, LookUp)] + [(t, InsertRow(at))]);
  }

  lemma InsertsRow(w: World, looked: World, t: nat, c: PayCall, at: Instant)
    requires WorldOk(looked) && KeyIsNew(w, c) && c.bookingId in w.store.bookings
    requires looked == w.(pays := w.pays[t := c.(phase := Inserting)])
    ensures IsRun(looked, [(t, InsertRow(at))])
    ensures Exec(looked, [(t, InsertRow(at))]) == w.(ledger := Opening(w.ledger, RowOf(c, at)), pays := w.pays[t := c.(phase := Charging)])
  {
    InsertOpens(looked, t, at);
    InsertMovesOnlyItsCall(looked, t, at);
    var v := Fire(looked, t, InsertRow(at));
    assert looked.pays[t := c.(phase := Charging)] == w.pays[t := c.(phase := Charging)];
    assert [(t, InsertRow(at))] == [(t, InsertRow(at))] + [] && IsRun(v, []) && Exec(v, []) == v;
    OneMoreStep(looked, (t, InsertRow(at)), []);
  }

  /** The last two charge and settle it. */
  lemma PaymentSettles(w: World, t: nat, ref: string, at: Instant)
    requires WorldOk(w) && t in w.pays && w.pays[t].phase.Charging? && ref != ""
    ensures IsRun(w, SecondHalf(t, ref, at)) && Enabled(w, t, AskProvider(Charged(ref)))
    ensures IsOrdered(Fire(w, t, AskProvider(Charged(ref))).ledger) && Enabled(Fire(w, t, AskProvider(Charged(ref))), t, SettleRow(at))
    ensures Exec(w, SecondHalf(t, ref, at)) == Fire(Fire(w, t, AskProvider(Charged(ref))), t, SettleRow(at))
  {
    ChargeAndSettle(w, t, ref, at);
    var w1 := Fire(w, t, AskProvider(Charged(ref)));
    var w2 := Fire(w1, t, SettleRow(at));
    assert [(t, SettleRow(at))] == [(t, SettleRow(at))] + [] && IsRun(w2, []) && Exec(w2, []) == w2;
    OneMoreStep(w1, (t, SettleRow(at)), []);
    OneMoreStep(w, (t, AskProvider(Charged(ref))), [(t, SettleRow(at))]);
  }

  function FirstHalf(t: nat, c: PayCall, at: Instant): seq<(nat, Step)> {
    [(t, StartPay(c))] + ([(t, LookUp)] + [(t, InsertRow(at))])
  }

  function SecondHalf(t: nat, ref: string, at: Instant): seq<(nat, Step)> {
    [(t, AskProvider(Charged(ref)))] + [(t, SettleRow(at))]
  }

  lemma {:induction false} SecondHalfRuns(w: World, mid: World, t: nat, c: PayCall, ref: string, at: Instant)
    requires c.attemptId !in w.ledger.attempts && t !in w.pays && ref != "" && WorldOk(mid)
    requires mid == w.(ledger := Opening(w.ledger, RowOf(c, at)), pays := w.pays[t := c.(phase := Charging)])
    ensures IsRun(mid, SecondHalf(t, ref, at))
    ensures AfterPayment(w, Exec(mid, SecondHalf(t, ref, at)), t, c)
  {
    PaymentSettles(mid, t, ref, at);
    ChargeAndSettle(mid, t, ref, at);
    HalvesMakeAPayment(w, mid, Exec(mid, SecondHalf(t, ref, at)), t, c, at);
  }

  lemma {:induction false} PaymentRuns(w: World, t: nat, c: PayCall, ref: string, at: Instant)
    requires WorldOk(w) && CanStart(w, t, c) && KeyIsNew(w, c) && ref != "" && c.bookingId in w.store.bookings
    ensures IsRun(w, PaymentSteps(t, c, ref, at))
    ensures WorldOk(Exec(w, PaymentSteps(t, c, ref, at))) && AfterPayment(w, Exec(w, PaymentSteps(t, c, ref, at)), t, c)
  {
    PaymentOpens(w, t, c, at);
    var mid := Exec(w, FirstHalf(t, c, at));
    MoneyRuns.RunKeeps(w, FirstHalf(t, c, at));
    SecondHalfRuns(w, mid, t, c, ref, at);
    MoneyRuns.RunKeeps(mid, SecondHalf(t, ref, at));
    RunJoin(w, FirstHalf(t, c, at), SecondHalf(t, ref, at));
  }

  lemma InsertMovesOnlyItsCall(w: World, t: nat, at: Instant)
    requires WorldOk(w) && Enabled(w, t, InsertRow(at)) && w.pays[t].bookingId in w.store.bookings && KeyIsNew(w, w.pays[t])
    ensures var v := Fire(w, t, InsertRow(at));
            v.store == w.store && v.pays == w.pays[t := w.pays[t].(phase := Charging)]
  {
    InsertOpens(w, t, at);
    assert (w.pays - {t})[t := w.pays[t].(phase := Charging)] == w.pays[t := w.pays[t].(phase := Charging)];
  }

  /**
   * From nothing at all: one granted hold and two payments, each undisturbed,
   * under two keys. The booking ends with two settled charges.
   */
  lemma {:induction false} TwoKeysFromNothing(
    classes: map<string, TrialClass>, parents: map<string, string>, r: HoldRequest, t: nat, c: PayCall, u: nat, d: PayCall, at: Instant)
    requires r.classId in classes && MaxHolders(classes[r.classId]) >= 1 && r.studentId in parents && r.maxHoldsPerParent >= 1
    requires t != u && c.phase.LookingUp? && d.phase.LookingUp?
    requires r.bookingId != "" && c.bookingId == d.bookingId == r.bookingId
    requires IsKey(c.key) && IsKey(d.key) && c.key != d.key && c.amount.IsValid() && d.amount.IsValid()
    requires c.attemptId != "" && d.attemptId != "" && c.attemptId != d.attemptId
    ensures var start := World(Store(classes, parents, map[], map[]), Ledger({}, map[], []), [], map[], [], [], map[], map[]);
            var steps := [(0, Elsewhere(Hold(r)))] + (PaymentSteps(t, c, "first", at) + PaymentSteps(u, d, "second", at));
            && IsRun(start, steps)
            && SettledIds(Exec(start, steps).ledger, r.bookingId) == {c.attemptId, d.attemptId}
  {
    var start := World(Store(classes, parents, map[], map[]), Ledger({}, map[], []), [], map[], [], [], map[], map[]);
    EmptyWorldIsOk(classes, parents);
    FirstHoldIsGranted(start.store, r);
    var hold := (0, Elsewhere(Hold(r)));
    var held := Fire(start, hold.0, hold.1);
    FireKeeps(start, hold.0, hold.1);
    TwoPayments(held, t, c, u, d, at);
    OneMoreStep(start, hold, PaymentSteps(t, c, "first", at) + PaymentSteps(u, d, "second", at));
  }

  /** Two payments under two keys, one after the other, on a booking nothing was paid for. */
  lemma {:induction false} TwoPayments(w: World, t: nat, c: PayCall, u: nat, d: PayCall, at: Instant)
    requires WorldOk(w) && w.pays == map[] && w.ledger.attempts == map[]
    requires t != u && CanStart(w, t, c) && CanStart(w, u, d) && c.bookingId == d.bookingId && c.bookingId in w.store.bookings
    requires c.key != d.key && c.attemptId != d.attemptId
    ensures var steps := PaymentSteps(t, c, "first", at) + PaymentSteps(u, d, "second", at);
            IsRun(w, steps) && SettledIds(Exec(w, steps).ledger, c.bookingId) == {c.attemptId, d.attemptId}
  {
    PaymentRuns(w, t, c, "first", at);
    var once := Exec(w, PaymentSteps(t, c, "first", at));
    SecondCanStart(w, once, t, c, u, d);
    PaymentRuns(once, u, d, "second", at);
    var twice := Exec(once, PaymentSteps(u, d, "second", at));
    BothSettled(w, once, twice, t, c, u, d);
    RunJoin(w, PaymentSteps(t, c, "first", at), PaymentSteps(u, d, "second", at));
  }

  lemma SecondCanStart(w: World, once: World, t: nat, c: PayCall, u: nat, d: PayCall)
    requires AfterPayment(w, once, t, c) && w.pays == map[] && w.ledger.attempts == map[]
    requires t != u && CanStart(w, u, d) && c.key != d.key && c.attemptId != d.attemptId
    ensures CanStart(once, u, d) && KeyIsNew(once, d)
  {
    assert once.ledger.attempts.Keys == {c.attemptId} && once.pays.Keys == {t};
  }

  lemma BothSettled(w: World, once: World, twice: World, t: nat, c: PayCall, u: nat, d: PayCall)
    requires w.ledger.attempts == map[] && c.bookingId == d.bookingId && c.attemptId != d.attemptId
    requires AfterPayment(w, once, t, c) && AfterPayment(once, twice, u, d)
    ensures SettledIds(twice.ledger, c.bookingId) == {c.attemptId, d.attemptId}
  {
    assert twice.ledger.attempts.Keys == {c.attemptId, d.attemptId};
  }

  lemma FirstHoldIsGranted(s: Store, r: HoldRequest)
    requires s.bookings == map[] && r.classId in s.classes && r.studentId in s.parents
    requires MaxHolders(s.classes[r.classId]) >= 1 && r.maxHoldsPerParent >= 1
    ensures Apply(s, Hold(r), true).bookings == map[r.bookingId := GrantChange(r).row]
  {
    assert LiveFor(s, r.studentId, r.classId) == {};
    assert StandingHolds(s, s.parents[r.studentId], r.now) == {};
    assert Holders(s, r.classId, r.now) == {};
  }
}
