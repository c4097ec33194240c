/**
 * Two runs of the booking transactions that show what their serial order is
 * not: the order they commit in, and an order that respects the cap on a
 * parent's holds.
 */
module SeatRaces {
  import opened Collections
  import opened BookingStatus
  import opened BookingStore
  import opened BookingRuns
  import opened SeatTransactions
  import opened Serializability

  lemma {:induction false} RunJoin(s: Sys, a: seq<(nat, Step)>, b: seq<(nat, Step)>)
    requires SeatTransactions.IsRun(s, a) && SeatTransactions.IsRun(Exec(s, a), b)
    ensures SeatTransactions.IsRun(s, a + b) && Exec(s, a + b) == Exec(Exec(s, a), b)
    ensures Committed(s, a + b) == Committed(s, a) + Committed(Exec(s, a), b)
    decreases |a|
  {
    if a == [] {
      assert a + b == b;
    } else {
      assert (a + b)[0] == a[0] && (a + b)[1..] == a[1..] + b;
      RunJoin(Fire(s, a[0].0, a[0].1), a[1..], b);
    }
  }

  /** One statement in front of a run. */
  lemma StepThen(s: Sys, t: nat, step: Step, rest: seq<(nat, Step)>)
    requires Enabled(s, t, step) && SeatTransactions.IsRun(Fire(s, t, step), rest)
    ensures var all := [(t, step)] + rest;
            && SeatTransactions.IsRun(s, all) && Exec(s, all) == Exec(Fire(s, t, step), rest)
            && Committed(s, all) == (if step.CommitIt? then [Plain(s.txns[t].op)] else []) + Committed(Fire(s, t, step), rest)
  {
    assert ([(t, step)] + rest)[0] == (t, step) && ([(t, step)] + rest)[1..] == rest;
  }

  // ---- Two Holds of one parent ----

  /** How far a Hold has got after k of its five statements. */
  function HoldAt(r: HoldRequest, k: nat): Txn {
    Txn(Hold(r),
        if k == 0 then Opened else if k == 1 then Locked else if k == 2 then NoDuplicate else if k == 3 then UnderCap
        else if k == 4 then Ready(GrantChange(r)) else Written(GrantChange(r)),
        if k == 0 then None else Some(r.classId),
        if k <= 4 then None else Some(r.bookingId))
  }

  function HoldStep(k: nat): Step {
    if k == 0 then LockClass else if k == 1 then ReadDuplicates else if k == 2 then ReadStanding else if k == 3 then ReadHolders else Write
  }

  /** A Hold the repository would grant moves along, as long as its class is free when it comes to lock it. */
  lemma HoldMoves(s: Sys, t: nat, r: HoldRequest, k: nat)
    requires k < 5 && t in s.txns && s.txns[t] == HoldAt(r, k) && HoldDecision(s.db, r, true).answer.Done?
    requires k == 0 ==> ClassIsFree(s, r.classId)
    ensures Enabled(s, t, HoldStep(k)) && Fire(s, t, HoldStep(k)) == Moved(s, t, HoldAt(r, k + 1))
  {
  }

  function Both(db: Store, t: nat, q: HoldRequest, i: nat, u: nat, r: HoldRequest, j: nat): Sys {
    Sys(db, map[t := HoldAt(q, i), u := HoldAt(r, j)])
  }

  /** From k on, the two take turns, and then both commit. */
  function TakeTurns(t: nat, u: nat, k: nat): seq<(nat, Step)>
    decreases 5 - k
  {
    if k >= 5 then [(t, CommitIt)] + ([(u, CommitIt)] + [])
    else [(t, HoldStep(k))] + ([(u, HoldStep(k))] + TakeTurns(t, u, k + 1))
  }

  /** Two requests of one parent for two classes, each of which the repository would grant. */
  predicate Rivals(base: Store, q: HoldRequest, r: HoldRequest) {
    && HoldDecision(base, q, true).answer.Done? && HoldDecision(base, r, true).answer.Done?
    && q.bookingId !in base.bookings && r.bookingId !in base.bookings && q.bookingId != r.bookingId
    && q.classId != r.classId && ParentOf(base, q.studentId) == ParentOf(base, r.studentId)
  }

  lemma {:induction false} BothCommit(base: Store, t: nat, q: HoldRequest, u: nat, r: HoldRequest)
    requires t != u
    ensures var s, steps := Both(base, t, q, 5, u, r, 5), [(t, CommitIt)] + ([(u, CommitIt)] + []);
            && SeatTransactions.IsRun(s, steps) && Exec(s, steps).db == Put(Put(base, GrantChange(q)), GrantChange(r))
            && Committed(s, steps) == [Hold(q), Hold(r)]
  {
    var s := Both(base, t, q, 5, u, r, 5);
    var once := Fire(s, t, CommitIt);
    assert once == Sys(Put(base, GrantChange(q)), map[u := HoldAt(r, 5)]);
    var twice := Fire(once, u, CommitIt);
    assert SeatTransactions.IsRun(twice, []) && Exec(twice, []) == twice && Committed(twice, []) == [];
    StepThen(once, u, CommitIt, []);
    StepThen(s, t, CommitIt, [(u, CommitIt)] + []);
  }

  /** Both take their turn at statement k. */
  lemma OneTurn(base: Store, t: nat, q: HoldRequest, u: nat, r: HoldRequest, k: nat)
    requires t != u && k < 5 && Rivals(base, q, r)
    ensures var s, ahead := Both(base, t, q, k, u, r, k), Both(base, t, q, k + 1, u, r, k);
            && Enabled(s, t, HoldStep(k)) && Fire(s, t, HoldStep(k)) == ahead
            && Enabled(ahead, u, HoldStep(k)) && Fire(ahead, u, HoldStep(k)) == Both(base, t, q, k + 1, u, r, k + 1)
  {
    var s, ahead := Both(base, t, q, k, u, r, k), Both(base, t, q, k + 1, u, r, k);
    HoldMoves(s, t, q, k);
    assert Fire(s, t, HoldStep(k)).txns == ahead.txns;
    HoldMoves(ahead, u, r, k);
    assert Fire(ahead, u, HoldStep(k)).txns == Both(base, t, q, k + 1, u, r, k + 1).txns;
  }

  lemma {:induction false} TurnsRun(base: Store, t: nat, q: HoldRequest, u: nat, r: HoldRequest, k: nat)
    requires t != u && k <= 5 && Rivals(base, q, r)
    ensures SeatTransactions.IsRun(Both(base, t, q, k, u, r, k), TakeTurns(t, u, k))
    ensures Exec(Both(base, t, q, k, u, r, k), TakeTurns(t, u, k)).db == Put(Put(base, GrantChange(q)), GrantChange(r))
    ensures Committed(Both(base, t, q, k, u, r, k), TakeTurns(t, u, k)) == [Hold(q), Hold(r)]
    decreases 5 - k
  {
    if k == 5 {
      BothCommit(base, t, q, u, r);
    } else {
      OneTurn(base, t, q, u, r, k);
      TurnsRun(base, t, q, u, r, k + 1);
      StepThen(Both(base, t, q, k + 1, u, r, k), u, HoldStep(k), TakeTurns(t, u, k + 1));
      StepThen(Both(base, t, q, k, u, r, k), t, HoldStep(k), [(u, HoldStep(k))] + TakeTurns(t, u, k + 1));
    }
  }

  /** The cap leaves room for one of the two. */
  predicate RoomForOne(base: Store, q: HoldRequest, r: HoldRequest, cap: int, now: Instant) {
    && Rivals(base, q, r) && q.now == r.now == now && q.maxHoldsPerParent == r.maxHoldsPerParent == cap
    && HoldIsLive(q.expiresAt, now) && HoldIsLive(r.expiresAt, now)
    && |StandingHolds(base, ParentOf(base, q.studentId), now)| == cap - 1
  }

  function CapRace(t: nat, q: HoldRequest, u: nat, r: HoldRequest): seq<(nat, Step)> {
    [(t, Open(Hold(q)))] + ([(u, Open(Hold(r)))] + TakeTurns(t, u, 0))
  }

  /**
   * Past the cap. From any store, two Holds of one parent for two classes that
   * would each be granted can both commit, though the cap left room for one.
   */
  lemma {:induction false} TwoHoldsPassTheCap(base: Store, t: nat, q: HoldRequest, u: nat, r: HoldRequest, cap: int, now: Instant)
    requires t != u && RoomForOne(base, q, r, cap, now)
    ensures SeatTransactions.IsRun(Sys(base, map[]), CapRace(t, q, u, r))
    ensures Committed(Sys(base, map[]), CapRace(t, q, u, r)) == [Hold(q), Hold(r)]
    ensures var end := Exec(Sys(base, map[]), CapRace(t, q, u, r)).db;
            && {q.bookingId, r.bookingId} <= end.bookings.Keys
            && |StandingHolds(end, ParentOf(base, q.studentId), now)| == cap + 1
  {
    var start := Sys(base, map[]);
    TurnsRun(base, t, q, u, r, 0);
    var one := Fire(start, t, Open(Hold(q)));
    assert one.txns == map[t := HoldAt(q, 0)];
    assert Fire(one, u, Open(Hold(r))).txns == Both(base, t, q, 0, u, r, 0).txns;
    StepThen(one, u, Open(Hold(r)), TakeTurns(t, u, 0));
    StepThen(start, t, Open(Hold(q)), [(u, Open(Hold(r)))] + TakeTurns(t, u, 0));
    GrantsAdd(base, q, now);
    GrantsAdd(Put(base, GrantChange(q)), r, now);
  }

  /** One after the other, the atomic repository refuses the second. */
  lemma SecondIsRefused(base: Store, q: HoldRequest, r: HoldRequest, cap: int, now: Instant)
    requires RoomForOne(base, q, r, cap, now)
    ensures HoldDecision(Apply(base, Hold(q), true), r, true) == Decision(None, Refused(TooManyHolds, None))
    ensures Run(base, [Hold(q), Hold(r)], true) == Put(base, GrantChange(q))
  {
    GrantsAdd(base, q, now);
    LiveForOther(base, q, r);
    RunOfTwo(base, Hold(q), Hold(r));
  }

  /** So no serial order whatever ends where that run does, with the cap asked for. */
  lemma {:induction false} CapRaceIsNotSerial(base: Store, t: nat, q: HoldRequest, u: nat, r: HoldRequest, cap: int, now: Instant, serial: seq<Op>)
    requires t != u && RoomForOne(base, q, r, cap, now)
    ensures SeatTransactions.IsRun(Sys(base, map[]), CapRace(t, q, u, r))
    ensures !IsSerialOf(base, CapRace(t, q, u, r), serial, true)
  {
    TwoHoldsPassTheCap(base, t, q, u, r, cap, now);
    if multiset(serial) == multiset([Hold(q), Hold(r)]) {
      assert |serial| == |multiset(serial)| == |multiset([Hold(q), Hold(r)])| == 2;
      assert serial == [serial[0], serial[1]];
      assert multiset(serial) == multiset{serial[0], serial[1]};
      assert serial[0] in multiset(serial) && serial[1] in multiset(serial);
      SecondIsRefused(base, q, r, cap, now);
      SecondIsRefused(base, r, q, cap, now);
    }
  }

  lemma GrantsAdd(s: Store, r: HoldRequest, now: Instant)
    requires r.bookingId !in s.bookings && HoldIsLive(r.expiresAt, now)
    ensures var parent := ParentOf(s, r.studentId);
            && StandingHolds(Put(s, GrantChange(r)), parent, now) == StandingHolds(s, parent, now) + {r.bookingId}
            && |StandingHolds(Put(s, GrantChange(r)), parent, now)| == |StandingHolds(s, parent, now)| + 1
  {
    SizeOfInsert(StandingHolds(s, ParentOf(s, r.studentId), now), r.bookingId);
  }

  lemma LiveForOther(s: Store, q: HoldRequest, r: HoldRequest)
    requires q.classId != r.classId && q.bookingId !in s.bookings && LiveFor(s, r.studentId, r.classId) == {}
    ensures LiveFor(Put(s, GrantChange(q)), r.studentId, r.classId) == {}
  {
    forall id | id in Put(s, GrantChange(q)).bookings ensures id !in LiveFor(Put(s, GrantChange(q)), r.studentId, r.classId) {
      if id != q.bookingId {
        assert id !in LiveFor(s, r.studentId, r.classId);
      }
    }
  }

  // ---- A cancel that commits while a confirm holds its answer ----

  /** The class is full, one booking sits in it and another waits to. */
  predicate FullWithOneWaiting(base: Store, seated: string, waiting: string)
  {
    && seated in base.bookings && waiting in base.bookings && seated != waiting
    && base.bookings[seated].status.Confirmed? && base.bookings[waiting].status.PendingPayment?
    && base.bookings[seated].classId == base.bookings[waiting].classId
    && base.bookings[seated].classId in base.classes
    && FreeSeat(base, base.bookings[seated].classId).None?
  }

  /** The confirm reads the seats and finds none. */
  lemma {:induction false} ConfirmFindsNone(base: Store, t: nat, id: string, now: Instant)
    requires StoreOk(base) && id in base.bookings && base.bookings[id].status.PendingPayment?
    requires base.bookings[id].classId in base.classes && FreeSeat(base, base.bookings[id].classId).None?
    ensures var b := base.bookings[id];
            var steps := [(t, Open(Confirm(id, now, NO_FAULTS)))] + ([(t, ReadClass)] + ([(t, LockClass)] + ([(t, LockBooking)] + ([(t, ReadSeats)] + []))));
            && SeatTransactions.IsRun(Sys(base, map[]), steps)
            && Exec(Sys(base, map[]), steps)
               == Sys(base, map[t := Txn(Confirm(id, now, NO_FAULTS), Ready(LostChange(b, now)), Some(b.classId), Some(id))])
            && Committed(Sys(base, map[]), steps) == []
  {
    var op, b := Confirm(id, now, NO_FAULTS), base.bookings[id];
    var s0 := Sys(base, map[]);
    var s1 := Sys(base, map[t := Txn(op, Opened, None, None)]);
    var s2 := Sys(base, map[t := Txn(op, Aiming(b.classId), None, None)]);
    var s3 := Sys(base, map[t := Txn(op, Locked, Some(b.classId), None)]);
    var s4 := Sys(base, map[t := Txn(op, Deciding(b), Some(b.classId), Some(id))]);
    var s5 := Sys(base, map[t := Txn(op, Ready(LostChange(b, now)), Some(b.classId), Some(id))]);
    assert Fire(s0, t, Open(op)).txns == s1.txns;
    assert Fire(s1, t, ReadClass).txns == s2.txns;
    assert Fire(s2, t, LockClass).txns == s3.txns;
    assert Fire(s3, t, LockBooking).txns == s4.txns;
    assert Fire(s4, t, ReadSeats).txns == s5.txns;
    assert SeatTransactions.IsRun(s5, []) && Exec(s5, []) == s5 && Committed(s5, []) == [];
    StepThen(s4, t, ReadSeats, []);
    StepThen(s3, t, LockBooking, [(t, ReadSeats)] + []);
    StepThen(s2, t, LockClass, [(t, LockBooking)] + ([(t, ReadSeats)] + []));
    StepThen(s1, t, ReadClass, [(t, LockClass)] + ([(t, LockBooking)] + ([(t, ReadSeats)] + [])));
    StepThen(s0, t, Open(op), [(t, ReadClass)] + ([(t, LockClass)] + ([(t, LockBooking)] + ([(t, ReadSeats)] + []))));
  }

  /** A cancel of a booking nobody has locked goes straight through. */
  lemma {:induction false} CancelGoesThrough(s: Sys, u: nat, id: string, actor: Actor, reason: string, now: Instant)
    requires u !in s.txns && id in s.db.bookings && CanTransition(s.db.bookings[id].status, Cancelled) && BookingIsFree(s, id)
    ensures var steps := [(u, Open(Cancel(id, actor, reason, now)))] + ([(u, LockBooking)] + ([(u, Write)] + ([(u, CommitIt)] + [])));
            && SeatTransactions.IsRun(s, steps)
            && Exec(s, steps) == s.(db := Put(s.db, CancelChange(s.db.bookings[id], actor, reason, now)))
            && Committed(s, steps) == [Cancel(id, actor, reason, now)]
  {
    var op := Cancel(id, actor, reason, now);
    var c := CancelChange(s.db.bookings[id], actor, reason, now);
    var s1 := Moved(s, u, Txn(op, Opened, None, None));
    var s2 := Moved(s, u, Txn(op, Ready(c), None, Some(id)));
    var s3 := Moved(s, u, Txn(op, Written(c), None, Some(id)));
    var s4 := s.(db := Put(s.db, c));
    assert BookingIsFree(s1, id);
    assert Fire(s1, u, LockBooking).txns == s2.txns;
    assert Fire(s2, u, Write).txns == s3.txns;
    assert Fire(s3, u, CommitIt).txns == s4.txns;
    assert SeatTransactions.IsRun(s4, []) && Exec(s4, []) == s4 && Committed(s4, []) == [];
    StepThen(s3, u, CommitIt, []);
    StepThen(s2, u, Write, [(u, CommitIt)] + []);
    StepThen(s1, u, LockBooking, [(u, Write)] + ([(u, CommitIt)] + []));
    StepThen(s, u, Open(op), [(u, LockBooking)] + ([(u, Write)] + ([(u, CommitIt)] + [])));
  }

  lemma {:induction false} ReadyCommits(s: Sys, t: nat)
    requires t in s.txns && s.txns[t].phase.Ready?
    ensures var steps := [(t, Write)] + ([(t, CommitIt)] + []);
            && SeatTransactions.IsRun(s, steps) && Exec(s, steps).db == Put(s.db, s.txns[t].phase.change)
            && Committed(s, steps) == [Plain(s.txns[t].op)]
  {
    var s1 := Fire(s, t, Write);
    var s2 := Fire(s1, t, CommitIt);
    assert SeatTransactions.IsRun(s2, []) && Exec(s2, []) == s2 && Committed(s2, []) == [];
    StepThen(s1, t, CommitIt, []);
    StepThen(s, t, Write, [(t, CommitIt)] + []);
  }

  /** What the race comes to: the cancel first, the confirm's lost seat second. */
  function Race(base: Store, t: nat, waiting: string, at: Instant, u: nat, seated: string, later: Instant): seq<(nat, Step)> {
    ([(t, Open(Confirm(waiting, at, NO_FAULTS)))] + ([(t, ReadClass)] + ([(t, LockClass)] + ([(t, LockBooking)] + ([(t, ReadSeats)] + [])))))
    + (([(u, Open(Cancel(seated, Parent, "", later)))] + ([(u, LockBooking)] + ([(u, Write)] + ([(u, CommitIt)] + []))))
       + ([(t, Write)] + ([(t, CommitIt)] + [])))
  }

  lemma {:induction false} RaceRuns(base: Store, t: nat, waiting: string, at: Instant, u: nat, seated: string, later: Instant)
    requires StoreOk(base) && t != u && FullWithOneWaiting(base, seated, waiting)
    ensures var steps := Race(base, t, waiting, at, u, seated, later);
            && SeatTransactions.IsRun(Sys(base, map[]), steps)
            && Committed(Sys(base, map[]), steps) == [Cancel(seated, Parent, "", later), Confirm(waiting, at, NO_FAULTS)]
            && Exec(Sys(base, map[]), steps).db
               == Put(Put(base, CancelChange(base.bookings[seated], Parent, "", later)), LostChange(base.bookings[waiting], at))
  {
    var cancel, confirm := Cancel(seated, Parent, "", later), Confirm(waiting, at, NO_FAULTS);
    var first := [(t, Open(confirm))] + ([(t, ReadClass)] + ([(t, LockClass)] + ([(t, LockBooking)] + ([(t, ReadSeats)] + []))));
    var second := [(u, Open(cancel))] + ([(u, LockBooking)] + ([(u, Write)] + ([(u, CommitIt)] + [])));
    var third := [(t, Write)] + ([(t, CommitIt)] + []);
    ConfirmFindsNone(base, t, waiting, at);
    var mid := Exec(Sys(base, map[]), first);
    CancelGoesThrough(mid, u, seated, Parent, "", later);
    ReadyCommits(Exec(mid, second), t);
    RunJoin(mid, second, third);
    RunJoin(Sys(base, map[]), first, second + third);
    assert [] + ([cancel] + [confirm]) == [cancel, confirm];
  }

  /** One order seats the waiting booking, the other does not. */
  lemma OrderMatters(base: Store, waiting: string, at: Instant, seated: string, later: Instant)
    requires StoreOk(base) && FullWithOneWaiting(base, seated, waiting)
    ensures var cancel, confirm := Cancel(seated, Parent, "", later), Confirm(waiting, at, NO_FAULTS);
            var freed, lost := CancelChange(base.bookings[seated], Parent, "", later), LostChange(base.bookings[waiting], at);
            && Run(base, [confirm, cancel], false) == Put(Put(base, freed), lost)
            && Run(base, [cancel, confirm], false) != Put(Put(base, freed), lost)
  {
    assert EntryOk(base, seated) && EntryOk(base, waiting);
    var cancel, confirm := Cancel(seated, Parent, "", later), Confirm(waiting, at, NO_FAULTS);
    var freed, lost := CancelChange(base.bookings[seated], Parent, "", later), LostChange(base.bookings[waiting], at);
    TwoInARow(base, cancel, confirm);
    TwoInARow(base, confirm, cancel);
    SeatComesFree(base, seated, waiting, later);
    Swap(base, lost, freed);
    assert Apply(base, confirm, false) == Put(base, lost);
    assert Apply(base, cancel, false) == Put(base, freed);
    assert Run(base, [cancel, confirm], false).bookings[waiting].status.Confirmed?;
  }

  /**
   * The commit order need not be serial. In a full class a cancel commits while
   * a confirm already holds its answer; the confirm then commits a lost seat.
   * Run in the order they committed, the confirm would have found the seat free.
   */
  lemma {:induction false} CommitOrderIsNotSerial(base: Store, t: nat, waiting: string, at: Instant, u: nat, seated: string, later: Instant)
    requires StoreOk(base) && t != u && FullWithOneWaiting(base, seated, waiting)
    ensures var steps := Race(base, t, waiting, at, u, seated, later);
            && SeatTransactions.IsRun(Sys(base, map[]), steps)
            && Committed(Sys(base, map[]), steps) == [Cancel(seated, Parent, "", later), Confirm(waiting, at, NO_FAULTS)]
            && !IsSerialOf(base, steps, Committed(Sys(base, map[]), steps), false)
            && IsSerialOf(base, steps, [Confirm(waiting, at, NO_FAULTS), Cancel(seated, Parent, "", later)], false)
  {
    RaceRuns(base, t, waiting, at, u, seated, later);
    OrderMatters(base, waiting, at, seated, later);
  }

  lemma TwoInARow(s: Store, one: Op, two: Op)
    ensures Run(s, [one, two], false) == Apply(Apply(s, one, false), two, false)
  {
    assert [one, two][1..] == [two] && [two][1..] == [];
    var mid := Apply(s, one, false);
    assert Run(mid, [two], false) == Run(Apply(mid, two, false), [], false);
  }

  /** Withdrawn, a seated booking leaves its seat free. */
  lemma SeatComesFree(base: Store, seated: string, waiting: string, later: Instant)
    requires StoreOk(base) && FullWithOneWaiting(base, seated, waiting)
    ensures var after := Put(base, CancelChange(base.bookings[seated], Parent, "", later));
            FreeSeat(after, base.bookings[waiting].classId).Some?
  {
    assert EntryOk(base, seated);
    var b := base.bookings[seated];
    var after := Put(base, CancelChange(b, Parent, "", later));
    forall id | id in SeatedIn(after, b.classId) ensures after.bookings[id].seatNo != b.seatNo {
      if id != seated {
        assert Apart(base.bookings[id], b);
      }
    }
    assert b.seatNo as int !in SeatsTaken(after, b.classId);
  }
}
