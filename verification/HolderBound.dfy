/** When more parents hold or sit in a class than its capacity and allowance together. */
module HolderBound {
  import opened Collections
  import opened BookingStatus
  import opened BookingStore
  import opened BookingRuns

  /** Capacity and allowance are kept, at this instant. */
  predicate Within(s: Store, classId: string, now: Instant)
    requires classId in s.classes
  {
    |Holders(s, classId, now)| <= MaxHolders(s.classes[classId])
  }

  /**
   * What passes the bound: an unbroken confirm of a booking whose own hold has
   * lapsed, while a seat is free and the places are all taken.
   */
  predicate Crowds(s: Store, op: Op, classId: string)
    requires classId in s.classes
  {
    && op.Confirm? && op.faults == NO_FAULTS
    && op.id in s.bookings && s.bookings[op.id].classId == classId && s.bookings[op.id].status.PendingPayment?
    && !HoldIsLive(s.bookings[op.id].holdExpiresAt, op.now)
    && |SeatedIn(s, classId)| < s.classes[classId].capacity
    && |Holders(s, classId, op.now)| == MaxHolders(s.classes[classId])
  }

  lemma ConfirmWithFaults(s: Store, id: string, now: Instant, faults: ConfirmFaults, capped: bool)
    requires StoreOk(s) && id in s.bookings && s.bookings[id].status.PendingPayment?
    ensures s.bookings[id].classId in s.classes
    ensures var after, plain := Apply(s, Confirm(id, now, faults), capped), Apply(s, Confirm(id, now, NO_FAULTS), true);
            if faults == NO_FAULTS || (!faults.lockWait && FreeSeat(s, s.bookings[id].classId).None?) then after == plain else after == s
  {
    assert EntryOk(s, id);
  }

  /** Anything but a confirm that seats, or a grant, leaves no more holders than before. */
  lemma OnlySeatingAdds(s: Store, op: Op, capped: bool, classId: string)
    requires StoreOk(s) && IsFresh(s, op) && classId in s.classes
    requires !op.Hold? && (op.Confirm? && op.id in s.bookings ==> !s.bookings[op.id].status.PendingPayment?)
    ensures |Holders(Apply(s, op, capped), classId, op.Now())| <= |Holders(s, classId, op.Now())|
  {
    var w := Decide(s, op, capped).write;
    if w.Some? {
      assert EntryOk(s, op.Target());
      PutMovesOneRow(s, w.value, classId, op.Now());
      SizeOfSubset(Holders(Put(s, w.value), classId, op.Now()), Holders(s, classId, op.Now()));
    }
  }

  lemma HoldStaysWithin(s: Store, r: HoldRequest, capped: bool, classId: string)
    requires StoreOk(s) && r.bookingId !in s.bookings && classId in s.classes && Within(s, classId, r.now)
    ensures classId in Apply(s, Hold(r), capped).classes && Within(Apply(s, Hold(r), capped), classId, r.now)
  {
    var d := HoldDecision(s, r, capped);
    if d.write.Some? {
      PutMovesOneRow(s, d.write.value, classId, r.now);
      if r.classId == classId {
        GrantStaysWithinAllowance(s, r, capped);
      } else {
        SizeOfSubset(Holders(Put(s, d.write.value), classId, r.now), Holders(s, classId, r.now));
      }
    }
  }

  /** One more or one fewer. */
  lemma OneInOrOut(before: set<string>, id: string)
    ensures |before + {id}| == |before| + if id in before then 0 else 1
    ensures |before - {id}| <= |before|
  {
    if id !in before {
      SizeOfInsert(before, id);
      assert before - {id} == before;
    } else {
      assert before + {id} == before;
      SizeOfSubset(before - {id}, before);
    }
  }

  lemma ConfirmPassesExactly(s: Store, id: string, now: Instant, faults: ConfirmFaults, capped: bool, classId: string)
    requires StoreOk(s) && classId in s.classes && Within(s, classId, now)
    requires id in s.bookings && s.bookings[id].status.PendingPayment?
    ensures var op := Confirm(id, now, faults);
            && classId in Apply(s, op, capped).classes
            && (!Within(Apply(s, op, capped), classId, now) <==> Crowds(s, op, classId))
  {
    var own := s.bookings[id].classId;
    ConfirmWithFaults(s, id, now, faults, capped);
    ConfirmWrites(s, id, now);
    var c := ConfirmChange(s, id, now);
    PutMovesOneRow(s, c, classId, now);
    FreeSeatExactlyWhenNotFull(s, own);
    var before := Holders(s, classId, now);
    assert id in before <==> own == classId && HoldIsLive(s.bookings[id].holdExpiresAt, now);
    OneInOrOut(before, id);
  }

  /** Over every operation: from within the bound, it is passed exactly by a crowding confirm. */
  lemma BoundPassedExactly(s: Store, op: Op, capped: bool, classId: string)
    requires StoreOk(s) && IsFresh(s, op) && classId in s.classes && Within(s, classId, op.Now())
    ensures classId in Apply(s, op, capped).classes
    ensures !Within(Apply(s, op, capped), classId, op.Now()) <==> Crowds(s, op, classId)
  {
    match op
    case Hold(r) => HoldStaysWithin(s, r, capped, classId);
    case Confirm(id, now, faults) =>
      if id in s.bookings && s.bookings[id].status.PendingPayment? {
        ConfirmPassesExactly(s, id, now, faults, capped, classId);
      } else {
        OnlySeatingAdds(s, op, capped, classId);
      }
    case _ => OnlySeatingAdds(s, op, capped, classId);
  }

  // ---- Over runs ----

  /** Time passing only lets holds lapse. */
  lemma LaterIsWithin(s: Store, classId: string, now: Instant, later: Instant)
    requires classId in s.classes && Within(s, classId, now) && now <= later
    ensures Within(s, classId, later)
  {
    SizeOfSubset(Holders(s, classId, later), Holders(s, classId, now));
  }

  predicate ClockRuns(ops: seq<Op>, now: Instant) {
    ops == [] || (now <= ops[0].Now() && ClockRuns(ops[1..], ops[0].Now()))
  }

  /** The bound holds after every operation of the run. */
  predicate WithinThroughout(s: Store, ops: seq<Op>, classId: string, now: Instant)
    decreases |ops|
  {
    && classId in s.classes && Within(s, classId, now)
    && (ops != [] ==> WithinThroughout(Apply(s, ops[0], true), ops[1..], classId, ops[0].Now()))
  }

  /** Some operation of the run is a crowding confirm of the store it meets. */
  predicate CrowdsSomewhere(s: Store, ops: seq<Op>, classId: string)
    requires classId in s.classes
    decreases |ops|
  {
    ops != [] && (Crowds(s, ops[0], classId) || CrowdsSomewhere(Apply(s, ops[0], true), ops[1..], classId))
  }

  /** Over every run under a clock that never steps back, the bound is passed somewhere exactly when some operation crowds. */
  lemma {:induction false} BoundKeptExactly(s: Store, ops: seq<Op>, classId: string, now: Instant)
    requires StoreOk(s) && MintsFresh(s, ops) && ClockRuns(ops, now) && classId in s.classes && Within(s, classId, now)
    ensures WithinThroughout(s, ops, classId, now) <==> !CrowdsSomewhere(s, ops, classId)
    decreases |ops|
  {
    if ops != [] {
      var op := ops[0];
      var next := Apply(s, op, true);
      LaterIsWithin(s, classId, now, op.Now());
      BoundPassedExactly(s, op, true, classId);
      ApplyKeeps(s, op, true);
      if Within(next, classId, op.Now()) {
        BoundKeptExactly(next, ops[1..], classId, op.Now());
      } else {
        assert !WithinThroughout(next, ops[1..], classId, op.Now());
      }
    }
  }

  // ---- And it is passed ----

  /** One seat and no allowance: the first hold lapses, the second is granted in its place, and the first confirms. */
  lemma {:induction false} TwoHoldersForOnePlace(
    classId: string, one: string, other: string, parent: string, late: string, soon: string)
    requires one != other && late != soon
    ensures var base := Store(map[classId := TrialClass(1, 0)], map[one := parent, other := parent], map[], map[]);
            var ops := [Hold(HoldRequest(late, one, classId, 1, 5, 3)), Hold(HoldRequest(soon, other, classId, 6, 20, 3)), Confirm(late, 7, NO_FAULTS)];
            && StoreOk(base) && MintsFresh(base, ops) && ClockRuns(ops, 1)
            && MaxHolders(base.classes[classId]) == 1
            && Holders(Run(base, ops, true), classId, 7) == {late, soon}
            && |Holders(Run(base, ops, true), classId, 7)| == 2
  {
    var base := Store(map[classId := TrialClass(1, 0)], map[one := parent, other := parent], map[], map[]);
    var q, r := HoldRequest(late, one, classId, 1, 5, 3), HoldRequest(soon, other, classId, 6, 20, 3);
    var confirm := Confirm(late, 7, NO_FAULTS);
    assert LiveFor(base, one, classId) == {} && StandingHolds(base, parent, 1) == {} && Holders(base, classId, 1) == {};
    var s1 := Put(base, GrantChange(q));
    assert Apply(base, Hold(q), true) == s1;
    assert LiveFor(s1, other, classId) == {} && StandingHolds(s1, parent, 6) == {} && Holders(s1, classId, 6) == {};
    var s2 := Put(s1, GrantChange(r));
    assert Apply(s1, Hold(r), true) == s2;
    assert SeatedIn(s2, classId) == {};
    assert SeatsTaken(s2, classId) == {};
    assert FreeSeat(s2, classId) == Some(1);
    var s3 := Put(s2, WonChange(s2.bookings[late], 1, 7));
    assert Apply(s2, confirm, true) == s3;
    ThreeInARow(base, Hold(q), Hold(r), confirm);
    assert Holders(s3, classId, 7) == {late, soon};
  }

  lemma {:induction false} ThreeInARow(s: Store, a: Op, b: Op, c: Op)
    ensures Run(s, [a, b, c], true) == Apply(Apply(Apply(s, a, true), b, true), c, true)
    ensures forall now :: now <= a.Now() <= b.Now() <= c.Now() ==> ClockRuns([a, b, c], now)
    ensures IsFresh(s, a) && IsFresh(Apply(s, a, true), b) && IsFresh(Apply(Apply(s, a, true), b, true), c) ==> MintsFresh(s, [a, b, c])
  {
    var s1 := Apply(s, a, true);
    var s2 := Apply(s1, b, true);
    assert [a, b, c][1..] == [b, c] && [b, c][1..] == [c] && [c][1..] == [];
    assert ClockRuns([], c.Now()) && (b.Now() <= c.Now() ==> ClockRuns([c], b.Now()));
    assert a.Now() <= b.Now() <= c.Now() ==> ClockRuns([b, c], a.Now());
    assert Run(s2, [c], true) == Run(Apply(s2, c, true), [], true);
    assert MintsFresh(Apply(s2, c, true), []);
    assert MintsFresh(s2, [c]) <==> IsFresh(s2, c);
    assert MintsFresh(s1, [b, c]) <==> IsFresh(s1, b) && MintsFresh(s2, [c]);
  }
}
