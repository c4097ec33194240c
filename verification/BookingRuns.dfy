/** What every run of the booking repository keeps. */
module BookingRuns {
  import opened Collections
  import opened BookingStatus
  import opened BookingStore

  datatype Op =
    | Hold(request: HoldRequest)
    | Confirm(id: string, now: Instant, faults: ConfirmFaults)
    | Cancel(id: string, actor: Actor, reason: string, now: Instant)
    | Fail(id: string, reason: string, now: Instant)
    | Expire(id: string, now: Instant)
  {
    function Now(): Instant {
      if Hold? then request.now else now
    }

    function Target(): string {
      if Hold? then request.bookingId else id
    }
  }

  /** One operation; capped says whether a Hold checks its parent's cap. */
  function Decide(s: Store, op: Op, capped: bool): Decision {
    match op
    case Hold(r) => HoldDecision(s, r, capped)
    case Confirm(id, now, faults) => ConfirmDecision(s, id, now, faults)
    case Cancel(id, actor, reason, now) => CancelDecision(s, id, actor, reason, now)
    case Fail(id, reason, now) => FailDecision(s, id, reason, now)
    case Expire(id, now) => ExpireDecision(s, id, now)
  }

  function Apply(s: Store, op: Op, capped: bool): Store {
    Commit(s, Decide(s, op, capped).write)
  }

  function Run(s: Store, ops: seq<Op>, capped: bool): Store
    decreases |ops|
  {
    if ops == [] then s else Run(Apply(s, ops[0], capped), ops[1..], capped)
  }

  /** Booking ids are minted fresh. */
  predicate IsFresh(s: Store, op: Op) {
    op.Hold? ==> op.request.bookingId !in s.bookings
  }

  predicate MintsFresh(s: Store, ops: seq<Op>)
    decreases |ops|
  {
    ops == [] || (IsFresh(s, ops[0]) && MintsFresh(Apply(s, ops[0], true), ops[1..]))
  }

  // ---- The invariant ----

  /** The trail is a walk of the state machine from the grant to the status the row shows. */
  ghost predicate TrailTells(trail: seq<Event>, status: Status) {
    && trail != []
    && trail[0].from == None
    && trail[0].to == PendingPayment
    && trail[|trail| - 1].to == status
    && forall i :: 0 < i < |trail| ==> trail[i].from == Some(trail[i - 1].to) && CanTransition(trail[i - 1].to, trail[i].to)
  }

  /** A seat exactly when confirmed, inside the class; a deadline only while pending. */
  predicate RowOk(s: Store, b: Booking) {
    && b.classId in s.classes
    && b.studentId in s.parents
    && (if b.status.Confirmed? then 1 <= b.seatNo <= s.classes[b.classId].capacity else b.seatNo == 0)
    && (b.holdExpiresAt != ZERO ==> b.status.PendingPayment?)
  }

  /** No seat in common, and not two live bookings of one child in one class. */
  predicate Apart(a: Booking, b: Booking) {
    && !(a.classId == b.classId && a.HasSeat() && b.HasSeat() && a.seatNo == b.seatNo)
    && !(b.status.IsLive() && IsLiveFor(a, b.studentId, b.classId))
  }

  ghost predicate AllApart(s: Store) {
    forall i, j {:trigger Apart(s.bookings[i], s.bookings[j])} ::
      i in s.bookings && j in s.bookings && i != j ==> Apart(s.bookings[i], s.bookings[j])
  }

  ghost predicate EntryOk(s: Store, id: string)
    requires id in s.bookings
  {
    s.bookings[id].id == id && RowOk(s, s.bookings[id]) && TrailTells(Trail(s, id), s.bookings[id].status)
  }

  ghost predicate StoreOk(s: Store) {
    && s.events.Keys == s.bookings.Keys
    && (forall id {:trigger EntryOk(s, id)} :: id in s.bookings ==> EntryOk(s, id))
    && AllApart(s)
  }

  /** What a write must satisfy to keep the invariant: an insert, or a legal move of an existing row. */
  ghost predicate GoodWrite(s: Store, c: Change) {
    && RowOk(s, c.row)
    && c.line.to == c.row.status
    && (if c.row.id in s.bookings then
          && s.bookings[c.row.id].classId == c.row.classId
          && s.bookings[c.row.id].studentId == c.row.studentId
          && CanTransition(s.bookings[c.row.id].status, c.row.status)
          && c.line.from == Some(s.bookings[c.row.id].status)
        else
          c.row.status.PendingPayment? && c.line.from == None && LiveFor(s, c.row.studentId, c.row.classId) == {})
    && (c.row.HasSeat() ==> c.row.seatNo as int !in SeatsTaken(s, c.row.classId))
  }

  lemma SeatIsTaken(s: Store, id: string)
    requires id in s.bookings && s.bookings[id].HasSeat()
    ensures s.bookings[id].seatNo as int in SeatsTaken(s, s.bookings[id].classId)
  {
    assert id in SeatedIn(s, s.bookings[id].classId);
  }

  lemma GoodWriteIsApart(s: Store, c: Change, id: string)
    requires StoreOk(s) && GoodWrite(s, c) && id in s.bookings && id != c.row.id
    ensures Apart(c.row, s.bookings[id]) && Apart(s.bookings[id], c.row)
  {
    var other := s.bookings[id];
    if other.HasSeat() {
      SeatIsTaken(s, id);
    }
    if c.row.id in s.bookings {
      assert Apart(other, s.bookings[c.row.id]);
    } else {
      assert id !in LiveFor(s, c.row.studentId, c.row.classId);
    }
  }

  lemma TrailGrows(trail: seq<Event>, from: Status, line: Event)
    requires TrailTells(trail, from) && line.from == Some(from) && CanTransition(from, line.to)
    ensures TrailTells(trail + [line], line.to)
  {
  }

  lemma PutKeepsEntries(s: Store, c: Change, id: string)
    requires StoreOk(s) && GoodWrite(s, c) && id in Put(s, c).bookings
    ensures EntryOk(Put(s, c), id)
  {
    var t := Put(s, c);
    if id in s.bookings {
      assert EntryOk(s, id);
      if id == c.row.id {
        TrailGrows(Trail(s, id), s.bookings[id].status, c.line);
      }
    } else {
      assert Trail(t, id) == [c.line];
    }
  }

  lemma PutKeepsApart(s: Store, c: Change, i: string, j: string)
    requires StoreOk(s) && GoodWrite(s, c) && i in Put(s, c).bookings && j in Put(s, c).bookings && i != j
    ensures Apart(Put(s, c).bookings[i], Put(s, c).bookings[j])
  {
    if i == c.row.id {
      GoodWriteIsApart(s, c, j);
    } else if j == c.row.id {
      GoodWriteIsApart(s, c, i);
    } else {
      assert Apart(s.bookings[i], s.bookings[j]);
    }
  }

  lemma PutKeeps(s: Store, c: Change)
    requires StoreOk(s) && GoodWrite(s, c)
    ensures StoreOk(Put(s, c))
  {
    var t := Put(s, c);
    forall id | id in t.bookings ensures EntryOk(t, id) {
      PutKeepsEntries(s, c, id);
    }
    forall i, j | i in t.bookings && j in t.bookings && i != j ensures Apart(t.bookings[i], t.bookings[j]) {
      PutKeepsApart(s, c, i, j);
    }
  }

  /** Every operation writes at most once, to the row it names, and well. */
  lemma DecidesWell(s: Store, op: Op, capped: bool)
    requires StoreOk(s) && IsFresh(s, op)
    ensures var w := Decide(s, op, capped).write; w.Some? ==> w.value.row.id == op.Target() && GoodWrite(s, w.value)
  {
    if op.Target() in s.bookings {
      assert EntryOk(s, op.Target());
    }
  }

  lemma ApplyKeeps(s: Store, op: Op, capped: bool)
    requires StoreOk(s) && IsFresh(s, op)
    ensures StoreOk(Apply(s, op, capped))
  {
    DecidesWell(s, op, capped);
    var w := Decide(s, op, capped).write;
    if w.Some? {
      PutKeeps(s, w.value);
    }
  }

  /** Every run keeps the invariant: seats, live bookings and trails alike. */
  lemma {:induction false} RunKeeps(s: Store, ops: seq<Op>)
    requires StoreOk(s) && MintsFresh(s, ops)
    ensures StoreOk(Run(s, ops, true))
    decreases |ops|
  {
    if ops != [] {
      ApplyKeeps(s, ops[0], true);
      RunKeeps(Apply(s, ops[0], true), ops[1..]);
    }
  }

  /** A store with classes and children and no booking yet is a good place to start. */
  lemma EmptyIsOk(classes: map<string, TrialClass>, parents: map<string, string>)
    ensures StoreOk(Store(classes, parents, map[], map[]))
  {
  }

  /** Read off the trail: at most three lines, no status twice. */
  lemma TrailsAreShort(s: Store, id: string)
    requires StoreOk(s) && id in s.bookings
    ensures 1 <= |Trail(s, id)| <= 3
    ensures forall i, j :: 0 <= i < j < |Trail(s, id)| ==> Trail(s, id)[i].to != Trail(s, id)[j].to
  {
    assert EntryOk(s, id);
    var trail := Trail(s, id);
    var path := seq(|trail|, i requires 0 <= i < |trail| => trail[i].to);
    forall i | 0 < i < |path| ensures CanTransition(path[i - 1], path[i]) {
      assert trail[i].from == Some(trail[i - 1].to);
    }
    PathsAreShort(path);
    forall i, j | 0 <= i < j < |trail| ensures trail[i].to != trail[j].to {
      assert path[i] != path[j];
    }
  }

  // ---- The last seat ----

  /** Seats and seated bookings correspond one to one, and never outnumber the class. */
  lemma SeatsNeverOversold(s: Store, classId: string)
    requires StoreOk(s) && classId in s.classes
    ensures |SeatedIn(s, classId)| == |SeatsTaken(s, classId)|
    ensures SeatsTaken(s, classId) <= Upto(s.classes[classId].capacity)
    ensures |SeatedIn(s, classId)| <= if s.classes[classId].capacity < 0 then 0 else s.classes[classId].capacity
  {
    var ids := SeatedIn(s, classId);
    var f := map id | id in s.bookings :: s.bookings[id].seatNo as int;
    assert SeatsTaken(s, classId) == set id | id in ids :: f[id];
    forall a, b | a in ids && b in ids && a != b ensures f[a] != f[b] {
      assert Apart(s.bookings[a], s.bookings[b]);
    }
    SizeOfImage(ids, SeatsTaken(s, classId), f);
    forall k | k in SeatsTaken(s, classId) ensures k in Upto(s.classes[classId].capacity) {
      var id :| id in ids && s.bookings[id].seatNo == k;
      assert EntryOk(s, id);
    }
    SizeOfSubset(SeatsTaken(s, classId), Upto(s.classes[classId].capacity));
  }

  /** A seat is free exactly while fewer distinct seats are held than the class has. */
  lemma FreeSeatExactlyWhenNotFull(s: Store, classId: string)
    requires StoreOk(s) && classId in s.classes
    ensures FreeSeat(s, classId).None? <==> |SeatedIn(s, classId)| >= s.classes[classId].capacity
  {
    var capacity := s.classes[classId].capacity;
    var taken := SeatsTaken(s, classId);
    SeatsNeverOversold(s, classId);
    var free := FreeSeat(s, classId);
    if free.None? {
      SizeOfSubset(Upto(capacity), taken);
    } else if |taken| >= capacity {
      EqualBySize(taken, Upto(capacity));
    }
  }

  /** A pending booking loses its seat exactly when as many distinct seats are held as the class has. */
  lemma ConfirmLosesExactlyWhenFull(s: Store, id: string, now: Instant, beforeCommit: bool)
    requires StoreOk(s) && id in s.bookings && s.bookings[id].status.PendingPayment?
    ensures var c := s.bookings[id].classId;
            && c in s.classes
            && var a := ConfirmDecision(s, id, now, ConfirmFaults(false, beforeCommit)).answer;
            (a.Refused? && a.error == SeatLost) <==> |SeatedIn(s, c)| >= s.classes[c].capacity
  {
    assert EntryOk(s, id);
    FreeSeatExactlyWhenNotFull(s, s.bookings[id].classId);
  }

  /** A confirm without a fault writes the lost row or the won one. */
  function ConfirmChange(s: Store, id: string, now: Instant): Change
    requires id in s.bookings && s.bookings[id].classId in s.classes
  {
    var free := FreeSeat(s, s.bookings[id].classId);
    if free.None? then LostChange(s.bookings[id], now) else WonChange(s.bookings[id], free.value, now)
  }

  lemma ConfirmWrites(s: Store, id: string, now: Instant)
    requires StoreOk(s) && id in s.bookings && s.bookings[id].status.PendingPayment?
    ensures s.bookings[id].classId in s.classes && s.bookings[id].id == id && s.bookings[id].seatNo == 0
    ensures Apply(s, Confirm(id, now, NO_FAULTS), true) == Put(s, ConfirmChange(s, id, now))
  {
    assert EntryOk(s, id);
  }

  /** Writing one row changes only whether that row is seated in, or holds a place in, a class. */
  lemma PutMovesOneRow(s: Store, c: Change, classId: string, now: Instant)
    ensures SeatedIn(Put(s, c), classId) == if IsSeatedIn(c.row, classId) then SeatedIn(s, classId) + {c.row.id} else SeatedIn(s, classId) - {c.row.id}
    ensures Holders(Put(s, c), classId, now) == if IsHolder(c.row, classId, now) then Holders(s, classId, now) + {c.row.id} else Holders(s, classId, now) - {c.row.id}
  {
  }

  /** What one undisturbed confirm does to the seats of its class. */
  lemma ConfirmSeats(s: Store, id: string, now: Instant)
    requires StoreOk(s) && id in s.bookings && s.bookings[id].status.PendingPayment?
    ensures var c := s.bookings[id].classId;
            var t := Apply(s, Confirm(id, now, NO_FAULTS), true);
            && StoreOk(t)
            && c in s.classes && t.classes == s.classes
            && t.bookings.Keys == s.bookings.Keys
            && (forall k :: k in s.bookings && k != id ==> t.bookings[k] == s.bookings[k])
            && if |SeatedIn(s, c)| >= s.classes[c].capacity
               then t.bookings[id].status == RefundRequired && SeatedIn(t, c) == SeatedIn(s, c)
               else t.bookings[id].status == Confirmed && SeatedIn(t, c) == SeatedIn(s, c) + {id} && id !in SeatedIn(s, c)
  {
    ConfirmWrites(s, id, now);
    FreeSeatExactlyWhenNotFull(s, s.bookings[id].classId);
    ApplyKeeps(s, Confirm(id, now, NO_FAULTS), true);
    PutMovesOneRow(s, ConfirmChange(s, id, now), s.bookings[id].classId, now);
  }

  /**
   * Two parents reach for the last seat: whoever confirms first is seated, the
   * other is owed a refund, and nobody else's row moves.
   */
  lemma LastSeatRace(s: Store, first: string, second: string, t1: Instant, t2: Instant)
    requires StoreOk(s) && first in s.bookings && second in s.bookings && first != second
    requires s.bookings[first].status.PendingPayment? && s.bookings[second].status.PendingPayment?
    requires s.bookings[first].classId == s.bookings[second].classId
    requires s.bookings[first].classId in s.classes
    requires |SeatedIn(s, s.bookings[first].classId)| == s.classes[s.bookings[first].classId].capacity - 1
    ensures var end := Run(s, [Confirm(first, t1, NO_FAULTS), Confirm(second, t2, NO_FAULTS)], true);
            && end.bookings.Keys == s.bookings.Keys
            && end.bookings[first].status == Confirmed
            && end.bookings[second].status == RefundRequired
            && |SeatedIn(end, s.bookings[first].classId)| == s.classes[s.bookings[first].classId].capacity
            && forall id :: id in s.bookings && id != first && id != second ==> end.bookings[id] == s.bookings[id]
  {
    var one := Confirm(first, t1, NO_FAULTS);
    var two := Confirm(second, t2, NO_FAULTS);
    ConfirmSeats(s, first, t1);
    ConfirmSeats(Apply(s, one, true), second, t2);
    RunOfTwo(s, one, two);
  }

  lemma RunOfTwo(s: Store, one: Op, two: Op)
    ensures Run(s, [one, two], true) == Apply(Apply(s, one, true), two, true)
  {
    assert [one, two][1..] == [two] && [two][1..] == [];
    var mid := Apply(s, one, true);
    assert Run(mid, [two], true) == Run(Apply(mid, two, true), [], true);
  }

  // ---- The cap on a parent's holds ----

  /** No parent has more than cap holds standing at any instant from now on. */
  ghost predicate CapHolds(s: Store, cap: int, now: Instant) {
    forall parent: string, t: Instant :: t >= now ==> |StandingHolds(s, parent, t)| <= cap
  }

  /** Clocks do not go backwards, and every Hold carries the one cap. */
  predicate RunsUnder(ops: seq<Op>, cap: int, now: Instant) {
    ops == [] ||
    (now <= ops[0].Now() && (ops[0].Hold? ==> ops[0].request.maxHoldsPerParent <= cap)
     && RunsUnder(ops[1..], cap, ops[0].Now()))
  }

  function LastNow(ops: seq<Op>, now: Instant): Instant {
    if ops == [] then now else ops[|ops| - 1].Now()
  }

  /** Only a granted hold can add to what a parent has standing, and only one. */
  lemma StandingAfter(s: Store, op: Op, parent: string, t: Instant)
    requires StoreOk(s) && IsFresh(s, op)
    ensures var after := Apply(s, op, true);
            StandingHolds(after, parent, t) <= StandingHolds(s, parent, t) + (if op.Hold? then {op.request.bookingId} else {})
  {
    var after := Apply(s, op, true);
    if op.Target() in s.bookings {
      assert EntryOk(s, op.Target());
    }
    assert after.parents == s.parents;
    forall id | id in StandingHolds(after, parent, t) && !(op.Hold? && id == op.request.bookingId)
      ensures id in StandingHolds(s, parent, t)
    {
      assert id in s.bookings && after.bookings[id] == s.bookings[id];
    }
  }

  lemma CapKept(s: Store, op: Op, cap: int, now: Instant)
    requires StoreOk(s) && IsFresh(s, op) && CapHolds(s, cap, now) && now <= op.Now()
    requires op.Hold? ==> op.request.maxHoldsPerParent <= cap
    ensures CapHolds(Apply(s, op, true), cap, op.Now())
  {
    var after := Apply(s, op, true);
    forall parent: string, t: Instant | t >= op.Now() ensures |StandingHolds(after, parent, t)| <= cap {
      StandingAfter(s, op, parent, t);
      var before := StandingHolds(s, parent, t);
      if op.Hold? && after != s && parent == s.parents[op.request.studentId] {
        var r := op.request;
        SizeOfSubset(before, StandingHolds(s, parent, r.now));
        SizeOfSubset(StandingHolds(after, parent, t), before + {r.bookingId});
        SizeOfInsert(before, r.bookingId);
      } else {
        SizeOfSubset(StandingHolds(after, parent, t), before);
      }
    }
  }

  /** Over every run, from its last operation on, no parent stands above the cap. */
  lemma {:induction false} CapOverRuns(s: Store, ops: seq<Op>, cap: int, now: Instant)
    requires StoreOk(s) && MintsFresh(s, ops) && CapHolds(s, cap, now) && RunsUnder(ops, cap, now)
    ensures CapHolds(Run(s, ops, true), cap, LastNow(ops, now))
    decreases |ops|
  {
    if ops != [] {
      ApplyKeeps(s, ops[0], true);
      CapKept(s, ops[0], cap, now);
      CapOverRuns(Apply(s, ops[0], true), ops[1..], cap, ops[0].Now());
    }
  }

  // ---- How many may hold ----

  /** The instant a hold is granted, no more than capacity and allowance together hold or sit in the class. */
  lemma GrantStaysWithinAllowance(s: Store, r: HoldRequest, capped: bool)
    requires StoreOk(s) && r.bookingId !in s.bookings && HoldDecision(s, r, capped).answer.Done?
    ensures var t := Apply(s, Hold(r), capped);
            && r.classId in t.classes
            && |Holders(t, r.classId, r.now)| <= MaxHolders(t.classes[r.classId])
  {
    var t := Apply(s, Hold(r), capped);
    var before, after := Holders(s, r.classId, r.now), Holders(t, r.classId, r.now);
    forall id | id in after ensures id in before + {r.bookingId} {
      assert id != r.bookingId ==> t.bookings[id] == s.bookings[id];
    }
    SizeOfSubset(after, before + {r.bookingId});
    SizeOfInsert(before, r.bookingId);
  }

  /**
   * Later it can be more. A hold that lapsed is counted by no grant and may
   * still confirm: the confirm adds a holder exactly when its hold had lapsed
   * and a seat was free.
   */
  lemma ConfirmAddsAHolderExactly(s: Store, id: string, now: Instant)
    requires StoreOk(s) && id in s.bookings && s.bookings[id].status.PendingPayment?
    ensures var c := s.bookings[id].classId;
            var t := Apply(s, Confirm(id, now, NO_FAULTS), true);
            && c in s.classes
            && (Holders(t, c, now) == Holders(s, c, now) + {id} && id !in Holders(s, c, now) <==>
                  !HoldIsLive(s.bookings[id].holdExpiresAt, now) && |SeatedIn(s, c)| < s.classes[c].capacity)
  {
    ConfirmWrites(s, id, now);
    FreeSeatExactlyWhenNotFull(s, s.bookings[id].classId);
    PutMovesOneRow(s, ConfirmChange(s, id, now), s.bookings[id].classId, now);
    assert id in Holders(s, s.bookings[id].classId, now) <==> HoldIsLive(s.bookings[id].holdExpiresAt, now);
  }
}
