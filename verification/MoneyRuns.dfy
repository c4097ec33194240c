/** What every run of checkouts, refund jobs and everything in between keeps. */
module MoneyRuns {
  import opened Collections
  import opened BookingStatus
  import opened BookingStore
  import opened BookingRuns
  import opened Payments
  import opened Money

  predicate IsRun(w: World, steps: seq<(nat, Step)>)
    decreases |steps|
  {
    steps == [] ||
    (IsOrdered(w.ledger) && Enabled(w, steps[0].0, steps[0].1) && IsRun(Fire(w, steps[0].0, steps[0].1), steps[1..]))
  }

  function Exec(w: World, steps: seq<(nat, Step)>): World
    requires IsRun(w, steps)
    decreases |steps|
  {
    if steps == [] then w else Exec(Fire(w, steps[0].0, steps[0].1), steps[1..])
  }

  lemma GrowsOn(u: World, v: World, w: World)
    requires Grows(u, v) && Grows(v, w)
    ensures Grows(u, w)
  {
    forall id | id in u.ledger.attempts
      ensures && id in w.ledger.attempts
              && SameCharge(u.ledger.attempts[id], w.ledger.attempts[id])
              && (u.ledger.attempts[id].status.IsSettled() ==> w.ledger.attempts[id] == u.ledger.attempts[id])
    {
      assert id in v.ledger.attempts && SameCharge(u.ledger.attempts[id], v.ledger.attempts[id]);
      assert SameCharge(v.ledger.attempts[id], w.ledger.attempts[id]);
    }
    forall k | k in u.refunded ensures k in w.refunded && w.refunded[k] == u.refunded[k] {
      assert k in v.refunded && v.refunded[k] == u.refunded[k];
    }
    forall id | id in u.charged ensures id in w.charged {
      assert id in v.charged;
    }
  }

  /** Every run keeps the invariant; along it rows, settled answers, charges and refunds only accumulate. */
  lemma {:induction false} RunKeeps(w: World, steps: seq<(nat, Step)>)
    requires WorldOk(w) && IsRun(w, steps)
    ensures WorldOk(Exec(w, steps)) && Grows(w, Exec(w, steps))
    decreases |steps|
  {
    if steps == [] {
      GrowthItself(w);
    } else {
      var (t, step) := steps[0];
      FireKeeps(w, t, step);
      RunKeeps(Fire(w, t, step), steps[1..]);
      GrowsOn(w, Fire(w, t, step), Exec(w, steps));
    }
  }

  /** Nothing paid, nothing owed, nobody at work: where runs start. */
  lemma EmptyWorldIsOk(classes: map<string, TrialClass>, parents: map<string, string>)
    ensures WorldOk(World(Store(classes, parents, map[], map[]), Ledger({}, map[], []), [], map[], [], [], map[], map[]))
  {
  }

  function KeyedBy(l: Ledger, bookingId: string, key: string): set<string> {
    set id | id in l.attempts && HasKey(l.attempts[id], bookingId, key)
  }

  predicate AtMostOne(ids: set<string>) {
    forall a, b :: a in ids && b in ids ==> a == b
  }

  /** Of all the charge calls made, at most one was for an attempt among these. */
  predicate ChargedAtMostOnce(charged: seq<string>, ids: set<string>) {
    forall i, j :: 0 <= i < |charged| && 0 <= j < |charged| && charged[i] in ids && charged[j] in ids ==> i == j
  }

  /**
   * One key, one row, one charge. In every reachable world a booking and key
   * name at most one attempt, and the provider was asked at most once for it.
   */
  lemma OneRowOneCharge(w: World, steps: seq<(nat, Step)>, bookingId: string, key: string)
    requires WorldOk(w) && IsRun(w, steps)
    ensures AtMostOne(KeyedBy(Exec(w, steps).ledger, bookingId, key))
    ensures ChargedAtMostOnce(Exec(w, steps).charged, KeyedBy(Exec(w, steps).ledger, bookingId, key))
  {
    RunKeeps(w, steps);
    var v := Exec(w, steps);
    forall a, b | a in KeyedBy(v.ledger, bookingId, key) && b in KeyedBy(v.ledger, bookingId, key) ensures a == b {
      assert a != b ==> !SameKey(v.ledger.attempts[a], v.ledger.attempts[b]);
    }
  }

  /** Once settled, a row is the same at every later point of every run. */
  lemma SettledRowsNeverChange(w: World, steps: seq<(nat, Step)>, id: string)
    requires WorldOk(w) && IsRun(w, steps)
    requires id in w.ledger.attempts && w.ledger.attempts[id].status.IsSettled()
    ensures id in Exec(w, steps).ledger.attempts && Exec(w, steps).ledger.attempts[id] == w.ledger.attempts[id]
  {
    RunKeeps(w, steps);
    assert w.ledger.attempts[id].status.IsSettled();
  }

  /** A row found under the key answers the call by itself: no charge, no new row, and on to the seat only if it succeeded. */
  lemma ReplayNeverCharges(w: World, t: nat, step: Step)
    requires WorldOk(w) && Enabled(w, t, step) && (step.LookUp? || step.Reread?)
    requires Find(w.ledger, w.pays[t].bookingId, w.pays[t].key).Some?
    ensures var v := Fire(w, t, step);
            var stored := w.ledger.attempts[Find(w.ledger, w.pays[t].bookingId, w.pays[t].key).value];
            && v.charged == w.charged && v.ledger == w.ledger
            && (t in v.pays <==> stored.amount.SameAs(w.pays[t].amount) && stored.status.IsSettled())
            && (t in v.pays ==> v.pays[t].phase == if stored.status.Succeeded? then Confirming(stored.id) else Failing(stored.failureReason))
  {
  }

  /** An insert refused by the index always finds the row that beat it. */
  lemma RereadFinds(w: World, t: nat, at: Instant)
    requires WorldOk(w) && Enabled(w, t, InsertRow(at))
    requires t in Fire(w, t, InsertRow(at)).pays && Fire(w, t, InsertRow(at)).pays[t].phase.Rereading?
    ensures Find(Fire(w, t, InsertRow(at)).ledger, w.pays[t].bookingId, w.pays[t].key).Some?
  {
  }

  // ---- Refunds ----

  /** The refund job never finds a debt with no charge behind it, in whatever order attempts are listed. */
  lemma {:induction false} NeverNothingToRefund(w: World, steps: seq<(nat, Step)>, t: nat)
    requires WorldOk(w) && IsRun(w, steps) && t in Exec(w, steps).works && Exec(w, steps).works[t].phase.Picking?
    ensures var v := Exec(w, steps);
            && !CanPick(v.ledger, v.works[t].bookingId, None)
            && IsOrdered(v.ledger)
            && FirstRefundable(AttemptsOf(v.ledger, v.ledger.order, v.works[t].bookingId)).Some?
  {
    RunKeeps(w, steps);
    var v := Exec(w, steps);
    assert WorkOk(v, v.works[t]);
    SettledIsFound(v.ledger, v.works[t].bookingId);
  }

  /** A booking seated or owed money has a settled charge that names itself to the provider. */
  lemma OwedMeansPaid(w: World, steps: seq<(nat, Step)>, id: string)
    requires WorldOk(w) && IsRun(w, steps) && id in Exec(w, steps).store.bookings
    requires IsOwed(Exec(w, steps).store.bookings[id].status)
    ensures HasSettled(Exec(w, steps).ledger, id)
  {
    RunKeeps(w, steps);
    assert BookingPaid(Exec(w, steps), id);
  }

  /** A debt closed in the payment's name was refunded first. */
  lemma ClosedDebtsWereRefunded(w: World, steps: seq<(nat, Step)>, id: string, i: nat)
    requires WorldOk(w) && IsRun(w, steps) && id in Exec(w, steps).store.bookings
    requires i < |Trail(Exec(w, steps).store, id)| && ClosesRefund(Trail(Exec(w, steps).store, id)[i])
    ensures WasRefunded(Exec(w, steps), id)
  {
    RunKeeps(w, steps);
    assert BookingPaid(Exec(w, steps), id);
  }

  function MovedFor(moved: seq<Movement>, bookingId: string): int {
    if moved == [] then 0
    else
      var last := moved[|moved| - 1];
      MovedFor(moved[..|moved| - 1], bookingId) + if last.bookingId == bookingId then last.amount.cents else 0
  }

  function SettledIds(l: Ledger, bookingId: string): set<string> {
    set id | id in l.attempts && l.attempts[id].bookingId == bookingId && l.attempts[id].status.Succeeded?
  }

  function Cents(l: Ledger): map<string, nat> {
    map id | id in l.attempts :: if l.attempts[id].amount.cents > 0 then l.attempts[id].amount.cents else 0
  }

  /** What a booking's settled charges come to. */
  ghost function SettledFor(l: Ledger, bookingId: string): nat {
    Total(SettledIds(l, bookingId), Cents(l))
  }

  /** Movements under distinct attempts, each no more than its attempt, come to no more than the attempts together. */
  lemma {:induction false} MovedWithin(l: Ledger, moved: seq<Movement>, bookingId: string, ids: set<string>)
    requires ids <= l.attempts.Keys
    requires forall i, j :: 0 <= i < j < |moved| ==> moved[i].attemptId != moved[j].attemptId
    requires forall i :: 0 <= i < |moved| ==> moved[i].attemptId in l.attempts && moved[i].amount == l.attempts[moved[i].attemptId].amount
    requires forall i :: 0 <= i < |moved| && moved[i].bookingId == bookingId ==> moved[i].attemptId in ids
    ensures MovedFor(moved, bookingId) <= Total(ids, Cents(l))
    decreases |moved|
  {
    if moved != [] {
      var front, last := moved[..|moved| - 1], moved[|moved| - 1];
      if last.bookingId == bookingId {
        TotalTakeOut(ids, Cents(l), last.attemptId);
        MovedWithin(l, front, bookingId, ids - {last.attemptId});
      } else {
        MovedWithin(l, front, bookingId, ids);
      }
    }
  }

  /**
   * Conservation. Over every run, retries, crashes and overlapping workers
   * included, the money sent back for a booking never exceeds what its settled
   * charges took, and no charge is sent back twice.
   */
  lemma ReturnedNeverExceedsSettled(w: World, steps: seq<(nat, Step)>, bookingId: string)
    requires WorldOk(w) && IsRun(w, steps)
    ensures var v := Exec(w, steps);
            && MovedFor(v.moved, bookingId) <= SettledFor(v.ledger, bookingId)
            && (forall i, j :: 0 <= i < j < |v.moved| ==> v.moved[i].attemptId != v.moved[j].attemptId)
            && (forall i :: 0 <= i < |v.moved| ==>
                  && v.moved[i].attemptId in v.ledger.attempts
                  && IsRefundable(v.ledger.attempts[v.moved[i].attemptId])
                  && v.moved[i] == MovementFor(v.ledger.attempts[v.moved[i].attemptId]))
  {
    RunKeeps(w, steps);
    var v := Exec(w, steps);
    forall i | 0 <= i < |v.moved|
      ensures && v.moved[i].attemptId in v.ledger.attempts
              && IsRefundable(v.ledger.attempts[v.moved[i].attemptId])
              && v.moved[i] == MovementFor(v.ledger.attempts[v.moved[i].attemptId])
    {
      assert RefundOk(v, v.moved[i].key);
    }
    forall i, j | 0 <= i < j < |v.moved| ensures v.moved[i].attemptId != v.moved[j].attemptId {
      assert v.moved[i].key != v.moved[j].key;
    }
    MovedWithin(v.ledger, v.moved, bookingId, SettledIds(v.ledger, bookingId));
  }

  // ---- Trying again ----

  /** Starting over under a key whose attempt succeeded leads straight back to the seat, charging nothing. */
  lemma RetryReachesTheSeat(w: World, t: nat, c: PayCall, id: string)
    requires WorldOk(w) && CanStart(w, t, c)
    requires id in w.ledger.attempts && HasKey(w.ledger.attempts[id], c.bookingId, c.key)
    requires w.ledger.attempts[id].status.Succeeded? && w.ledger.attempts[id].amount.SameAs(c.amount)
    ensures var started := Fire(w, t, StartPay(c));
            && Enabled(started, t, LookUp) && IsOrdered(started.ledger)
            && var again := Fire(started, t, LookUp);
            && again.charged == w.charged && again.ledger == w.ledger && again.store == w.store
            && t in again.pays && again.pays[t] == c.(phase := Confirming(id))
  {
    var found := Find(w.ledger, c.bookingId, c.key);
    assert w.ledger.attempts[id].id == id;
    var k :| 0 <= k < |w.ledger.order| && w.ledger.order[k] == id;
    assert found.Some?;
    assert found.value != id ==> !SameKey(w.ledger.attempts[found.value], w.ledger.attempts[id]);
  }

  /** An unbroken confirm of a pending booking decides it, and charges nothing. */
  lemma ConfirmDecides(w: World, t: nat, at: Instant)
    requires WorldOk(w) && Enabled(w, t, ConfirmSeat(at, NO_FAULTS))
    requires w.pays[t].bookingId in w.store.bookings && w.store.bookings[w.pays[t].bookingId].status.PendingPayment?
    ensures var v := Fire(w, t, ConfirmSeat(at, NO_FAULTS));
            && v.charged == w.charged
            && w.pays[t].bookingId in v.store.bookings && IsOwed(v.store.bookings[w.pays[t].bookingId].status)
  {
    assert EntryOk(w.store, w.pays[t].bookingId);
  }

  predicate Broke(w: World, t: nat, at: Instant, faults: ConfirmFaults)
    requires t in w.pays
  {
    var d := Decide(w.store, Confirm(w.pays[t].bookingId, at, faults), true);
    d.answer == Refused(TransactionBroken, None) || d.answer == Refused(LockWaitTimeout, None)
  }

  lemma BrokenLeavesAllAsItWas(w: World, t: nat, at: Instant, faults: ConfirmFaults)
    requires WorldOk(w) && Enabled(w, t, ConfirmSeat(at, faults)) && Broke(w, t, at, faults)
    ensures Fire(w, t, ConfirmSeat(at, faults)) == Without(w, t)
  {
  }

  /**
   * A confirm that broke can be tried again. It leaves every booking as it was;
   * a new call under the same key and amount charges nothing and, unbroken,
   * decides the seat: the booking ends seated or owed its refund.
   */
  lemma {:induction false} BrokenConfirmCanBeRetried(w: World, t: nat, at: Instant, faults: ConfirmFaults, u: nat, c: PayCall, later: Instant)
    requires WorldOk(w) && Enabled(w, t, ConfirmSeat(at, faults)) && Broke(w, t, at, faults)
    requires c.bookingId == w.pays[t].bookingId && c.key == w.pays[t].key
    requires w.pays[t].phase.paid in w.ledger.attempts && w.ledger.attempts[w.pays[t].phase.paid].amount.SameAs(c.amount)
    requires c.bookingId in w.store.bookings && w.store.bookings[c.bookingId].status.PendingPayment?
    requires CanStart(Fire(w, t, ConfirmSeat(at, faults)), u, c)
    ensures var retry := [(t, ConfirmSeat(at, faults)), (u, StartPay(c)), (u, LookUp), (u, ConfirmSeat(later, NO_FAULTS))];
            && IsRun(w, retry)
            && Exec(w, retry[..1]).store == w.store
            && Exec(w, retry).charged == w.charged
            && c.bookingId in Exec(w, retry).store.bookings
            && IsOwed(Exec(w, retry).store.bookings[c.bookingId].status)
  {
    assert CallOk(w, w.pays[t]);
    var broken := Fire(w, t, ConfirmSeat(at, faults));
    BrokenLeavesAllAsItWas(w, t, at, faults);
    FireKeeps(w, t, ConfirmSeat(at, faults));
    RetryReachesTheSeat(broken, u, c, w.pays[t].phase.paid);
    var started := Fire(broken, u, StartPay(c));
    FireKeeps(broken, u, StartPay(c));
    var again := Fire(started, u, LookUp);
    FireKeeps(started, u, LookUp);
    ConfirmDecides(again, u, later);
    RunOfFour(w, (t, ConfirmSeat(at, faults)), (u, StartPay(c)), (u, LookUp), (u, ConfirmSeat(later, NO_FAULTS)));
  }

  lemma RunOfFour(w: World, a: (nat, Step), b: (nat, Step), c: (nat, Step), d: (nat, Step))
    requires IsOrdered(w.ledger) && Enabled(w, a.0, a.1)
    requires var w1 := Fire(w, a.0, a.1); IsOrdered(w1.ledger) && Enabled(w1, b.0, b.1)
    requires var w2 := Fire(Fire(w, a.0, a.1), b.0, b.1); IsOrdered(w2.ledger) && Enabled(w2, c.0, c.1)
    requires var w3 := Fire(Fire(Fire(w, a.0, a.1), b.0, b.1), c.0, c.1); IsOrdered(w3.ledger) && Enabled(w3, d.0, d.1)
    ensures IsRun(w, [a, b, c, d]) && IsRun(w, [a, b, c, d][..1])
    ensures Exec(w, [a, b, c, d][..1]) == Fire(w, a.0, a.1)
    ensures Exec(w, [a, b, c, d]) == Fire(Fire(Fire(Fire(w, a.0, a.1), b.0, b.1), c.0, c.1), d.0, d.1)
  {
    var w1 := Fire(w, a.0, a.1);
    var w2 := Fire(w1, b.0, b.1);
    var w3 := Fire(w2, c.0, c.1);
    var w4 := Fire(w3, d.0, d.1);
    assert [a, b, c, d][..1] == [a] + [] && [a, b, c, d] == [a] + [b, c, d] && [b, c, d] == [b] + [c, d] && [c, d] == [c] + [d] && [d] == [d] + [];
    assert IsRun(w1, []) && Exec(w1, []) == w1 && IsRun(w4, []) && Exec(w4, []) == w4;
    OneMoreStep(w3, d, []);
    OneMoreStep(w2, c, [d]);
    OneMoreStep(w1, b, [c, d]);
    OneMoreStep(w, a, [b, c, d]);
    OneMoreStep(w, a, []);
  }

  lemma OneMoreStep(w: World, first: (nat, Step), rest: seq<(nat, Step)>)
    requires IsOrdered(w.ledger) && Enabled(w, first.0, first.1) && IsRun(Fire(w, first.0, first.1), rest)
    ensures IsRun(w, [first] + rest) && Exec(w, [first] + rest) == Exec(Fire(w, first.0, first.1), rest)
  {
    assert ([first] + rest)[0] == first && ([first] + rest)[1..] == rest;
  }

  // ---- What the code does not promise, and exactly when it holds ----

  /** A call goes on to charge exactly when its key is new to an existing booking; what other keys did is not asked. */
  lemma ChargesExactlyWhenTheKeyIsNew(w: World, t: nat, at: Instant)
    requires WorldOk(w) && Enabled(w, t, InsertRow(at))
    ensures var c := w.pays[t];
            var v := Fire(w, t, InsertRow(at));
            (t in v.pays && v.pays[t].phase.Charging?) <==>
            (c.bookingId in w.store.bookings && forall id :: id in w.ledger.attempts ==> !HasKey(w.ledger.attempts[id], c.bookingId, c.key))
  {
    if Find(w.ledger, w.pays[t].bookingId, w.pays[t].key).None? {
      NotFoundMeansFree(w.ledger, w.pays[t].bookingId, w.pays[t].key);
    }
  }

  /** So a second key charges again: from any settled charge, one more call under a new key ends in a second one. */
  lemma TwoKeysChargeTwice(w: World, t: nat, first: string, at: Instant, ref: string, later: Instant)
    requires WorldOk(w) && Enabled(w, t, InsertRow(at)) && ref != ""
    requires w.pays[t].bookingId in w.store.bookings
    requires first in w.ledger.attempts && w.ledger.attempts[first].bookingId == w.pays[t].bookingId && IsRefundable(w.ledger.attempts[first])
    requires forall id :: id in w.ledger.attempts ==> !HasKey(w.ledger.attempts[id], w.pays[t].bookingId, w.pays[t].key)
    ensures var c := w.pays[t];
            var w1 := Fire(w, t, InsertRow(at));
            && IsOrdered(w1.ledger) && Enabled(w1, t, AskProvider(Charged(ref)))
            && var w2 := Fire(w1, t, AskProvider(Charged(ref)));
            && IsOrdered(w2.ledger) && Enabled(w2, t, SettleRow(later))
            && var l := Fire(w2, t, SettleRow(later)).ledger;
            && first != c.attemptId && first in l.attempts && c.attemptId in l.attempts
            && IsRefundable(l.attempts[first]) && IsRefundable(l.attempts[c.attemptId])
            && l.attempts[first].bookingId == l.attempts[c.attemptId].bookingId == c.bookingId
  {
    InsertOpens(w, t, at);
    var w1 := Fire(w, t, InsertRow(at));
    FireKeeps(w, t, InsertRow(at));
    ChargedSettles(w1, t, ref, later);
  }

  lemma InsertOpens(w: World, t: nat, at: Instant)
    requires WorldOk(w) && Enabled(w, t, InsertRow(at)) && w.pays[t].bookingId in w.store.bookings
    requires forall id :: id in w.ledger.attempts ==> !HasKey(w.ledger.attempts[id], w.pays[t].bookingId, w.pays[t].key)
    ensures var c := w.pays[t];
            var v := Fire(w, t, InsertRow(at));
            && t in v.pays && v.pays[t] == c.(phase := Charging)
            && c.attemptId !in w.ledger.attempts && v.ledger == Opening(w.ledger, RowOf(c, at))
  {
    assert CallOk(w, w.pays[t]);
    ChargesExactlyWhenTheKeyIsNew(w, t, at);
  }

  /** Charged and settled, the open row succeeds under the provider's reference and every other row stays. */
  lemma ChargedSettles(w: World, t: nat, ref: string, later: Instant)
    requires WorldOk(w) && Enabled(w, t, AskProvider(Charged(ref))) && ref != ""
    ensures var c := w.pays[t];
            var v := Fire(w, t, AskProvider(Charged(ref)));
            && IsOrdered(v.ledger) && Enabled(v, t, SettleRow(later))
            && var l := Fire(v, t, SettleRow(later)).ledger;
            && c.attemptId in w.ledger.attempts && c.attemptId in l.attempts && IsRefundable(l.attempts[c.attemptId])
            && l.attempts[c.attemptId].bookingId == c.bookingId
            && forall id :: id in w.ledger.attempts && id != c.attemptId ==> id in l.attempts && l.attempts[id] == w.ledger.attempts[id]
  {
    assert CallOk(w, w.pays[t]);
  }

  /** A confirm that decides its booking: it still waits for payment, and neither fault point stops it. */
  predicate Decides(s: Store, id: string, faults: ConfirmFaults) {
    && id in s.bookings && s.bookings[id].status.PendingPayment? && s.bookings[id].classId in s.classes
    && !faults.lockWait && (faults.beforeCommit ==> FreeSeat(s, s.bookings[id].classId).None?)
  }

  /**
   * A settled charge is answered by a seat or a debt exactly when its confirm
   * finds the booking still waiting and does not break. Otherwise the money
   * stays taken and every booking is as it was.
   */
  lemma ChargeIsAnsweredExactlyWhenPending(w: World, t: nat, at: Instant, faults: ConfirmFaults)
    requires WorldOk(w) && Enabled(w, t, ConfirmSeat(at, faults))
    ensures var id := w.pays[t].bookingId;
            var v := Fire(w, t, ConfirmSeat(at, faults));
            && v.ledger == w.ledger && v.refunded == w.refunded
            && (v.store != w.store <==> Decides(w.store, id, faults))
            && (v.store != w.store ==> id in v.store.bookings && IsOwed(v.store.bookings[id].status))
            && (Decides(w.store, id, faults)
                <==> id in w.store.bookings && w.store.bookings[id].status.PendingPayment? && !Broke(w, t, at, faults))
  {
    UnbrokenDecides(w, t, at, faults);
    ConfirmMovesExactly(w.store, w.pays[t].bookingId, at, faults);
  }

  lemma UnbrokenDecides(w: World, t: nat, at: Instant, faults: ConfirmFaults)
    requires WorldOk(w) && t in w.pays
    ensures var id := w.pays[t].bookingId;
            Decides(w.store, id, faults)
            <==> id in w.store.bookings && w.store.bookings[id].status.PendingPayment? && !Broke(w, t, at, faults)
  {
    if w.pays[t].bookingId in w.store.bookings {
      assert EntryOk(w.store, w.pays[t].bookingId);
    }
  }

  lemma ConfirmMovesExactly(s: Store, id: string, at: Instant, faults: ConfirmFaults)
    requires StoreOk(s)
    ensures var after := Apply(s, Confirm(id, at, faults), true);
            && (after != s <==> Decides(s, id, faults))
            && (after != s ==> id in after.bookings && IsOwed(after.bookings[id].status))
  {
    if id in s.bookings {
      assert EntryOk(s, id);
    }
  }
}
