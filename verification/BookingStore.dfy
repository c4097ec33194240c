/**
 * The atomic booking repository.
 *
 * The first half says what each operation does as a function from one store to
 * the next. The second half is the repository itself, a class that overwrites
 * its maps in place, each method proved to do exactly what the function says.
 */
module BookingStore {
  import opened Collections
  import opened BookingStatus

  type Int16 = n: int | -0x8000 <= n < 0x8000

  /** The two fields of a class that any rule reads. */
  datatype TrialClass = TrialClass(capacity: Int16, holdAllowance: Int16)

  datatype Booking = Booking(
    id: string, studentId: string, classId: string, status: Status, seatNo: Int16,
    holdExpiresAt: Instant, confirmedAt: Instant, createdAt: Instant, updatedAt: Instant)
  {
    predicate HasSeat() {
      seatNo >= 1
    }
  }

  /** One line of the audit trail. A booking's first line comes from no status. */
  datatype Event = Event(from: Option<Status>, to: Status, actor: Actor, reason: string, at: Instant)

  datatype HoldRequest = HoldRequest(
    bookingId: string, studentId: string, classId: string,
    now: Instant, expiresAt: Instant, maxHoldsPerParent: int)

  /** Which of the two confirm points fails this time, when one was armed. */
  datatype ConfirmFaults = ConfirmFaults(lockWait: bool, beforeCommit: bool)
  const NO_FAULTS := ConfirmFaults(false, false)

  datatype Error =
    | ClassNotFound | StudentNotFound | BookingNotFound
    | AlreadyBooked | TooManyHolds | ClassFull
    | SeatLost | NotHolding | HoldStillLive | InvalidTransition
    | LockWaitTimeout | TransactionBroken

  /** A refusal may still carry the row as it stands. */
  datatype Answer = Done(booking: Booking) | Refused(error: Error, seen: Option<Booking>)

  datatype Store = Store(
    classes: map<string, TrialClass>,
    parents: map<string, string>,
    bookings: map<string, Booking>,
    events: map<string, seq<Event>>)

  /** One row and the line of the trail that explains it, always written together. */
  datatype Change = Change(row: Booking, line: Event)

  /** What an operation writes, if anything, and what it answers. */
  datatype Decision = Decision(write: Option<Change>, answer: Answer)

  // ---- Rules over rows ----

  function MaxHolders(c: TrialClass): int {
    c.capacity + c.holdAllowance
  }

  /** A hold whose deadline is exactly now has lapsed, and no deadline is no hold. */
  predicate HoldIsLive(deadline: Instant, now: Instant) {
    deadline != ZERO && deadline > now
  }

  function ParentOf(s: Store, studentId: string): string {
    if studentId in s.parents then s.parents[studentId] else ""
  }

  function Trail(s: Store, id: string): seq<Event> {
    if id in s.events then s.events[id] else []
  }

  predicate IsLiveFor(b: Booking, studentId: string, classId: string) {
    b.studentId == studentId && b.classId == classId && b.status.IsLive()
  }

  function LiveFor(s: Store, studentId: string, classId: string): set<string> {
    set id | id in s.bookings && IsLiveFor(s.bookings[id], studentId, classId)
  }

  predicate IsStanding(s: Store, b: Booking, parentId: string, now: Instant) {
    ParentOf(s, b.studentId) == parentId && b.status.PendingPayment? && HoldIsLive(b.holdExpiresAt, now)
  }

  /** The holds one parent has standing at an instant, across every class. */
  function StandingHolds(s: Store, parentId: string, now: Instant): set<string> {
    set id | id in s.bookings && IsStanding(s, s.bookings[id], parentId, now)
  }

  predicate IsHolder(b: Booking, classId: string, now: Instant) {
    && b.classId == classId
    && (b.status.Confirmed? || (b.status.PendingPayment? && HoldIsLive(b.holdExpiresAt, now)))
  }

  /** Who is on the payment screen for a class or already seated in it. */
  function Holders(s: Store, classId: string, now: Instant): set<string> {
    set id | id in s.bookings && IsHolder(s.bookings[id], classId, now)
  }

  predicate IsSeatedIn(b: Booking, classId: string) {
    b.classId == classId && b.HasSeat()
  }

  function SeatedIn(s: Store, classId: string): set<string> {
    set id | id in s.bookings && IsSeatedIn(s.bookings[id], classId)
  }

  function SeatsTaken(s: Store, classId: string): set<int> {
    SeatsOf(s.bookings, SeatedIn(s, classId))
  }

  function SeatsOf(rows: map<string, Booking>, ids: set<string>): set<int>
    requires ids <= rows.Keys
  {
    set id | id in ids :: rows[id].seatNo as int
  }

  /** The least seat in 1..capacity outside taken, found by scanning upwards from seat. */
  function LowestFreeFrom(seat: nat, capacity: int, taken: set<int>): (r: Option<int>)
    ensures r.Some? ==> seat <= r.value <= capacity && r.value !in taken
    ensures r.Some? ==> forall k :: seat <= k < r.value ==> k in taken
    ensures r.None? ==> forall k :: seat <= k <= capacity ==> k in taken
    decreases capacity - seat
  {
    if seat > capacity then None
    else if seat !in taken then Some(seat)
    else LowestFreeFrom(seat + 1, capacity, taken)
  }

  lemma SeatsOfInsert(rows: map<string, Booking>, ids: set<string>, id: string)
    requires ids <= rows.Keys && id in rows
    ensures SeatsOf(rows, ids + {id}) == SeatsOf(rows, ids) + {rows[id].seatNo as int}
  {
    forall k | k in SeatsOf(rows, ids) + {rows[id].seatNo as int} ensures k in SeatsOf(rows, ids + {id}) {
      if k in SeatsOf(rows, ids) {
        var i :| i in ids && rows[i].seatNo == k;
        assert i in ids + {id};
      } else {
        assert id in ids + {id};
      }
    }
  }

  // ---- What each operation does ----

  /** Every change to a store is one of these. */
  function Put(s: Store, c: Change): Store {
    s.(bookings := s.bookings[c.row.id := c.row], events := s.events[c.row.id := Trail(s, c.row.id) + [c.line]])
  }

  function Commit(s: Store, write: Option<Change>): Store {
    if write.None? then s else Put(s, write.value)
  }

  function GrantChange(r: HoldRequest): Change {
    Change(Booking(r.bookingId, r.studentId, r.classId, PendingPayment, 0, r.expiresAt, ZERO, r.now, r.now),
           Event(None, PendingPayment, Parent, "hold granted", r.now))
  }

  /** The cap on a parent's holds is the one check a caller may ask to be left out. */
  function HoldDecision(s: Store, r: HoldRequest, capped: bool): Decision {
    if r.classId !in s.classes then
      Decision(None, Refused(ClassNotFound, None))
    else if r.studentId !in s.parents then
      Decision(None, Refused(StudentNotFound, None))
    else if LiveFor(s, r.studentId, r.classId) != {} then
      Decision(None, Refused(AlreadyBooked, None))
    else if capped && |StandingHolds(s, s.parents[r.studentId], r.now)| >= r.maxHoldsPerParent then
      Decision(None, Refused(TooManyHolds, None))
    else if |Holders(s, r.classId, r.now)| >= MaxHolders(s.classes[r.classId]) then
      Decision(None, Refused(ClassFull, None))
    else
      Decision(Some(GrantChange(r)), Done(GrantChange(r).row))
  }

  function LostChange(b: Booking, now: Instant): Change {
    Change(b.(status := RefundRequired, holdExpiresAt := ZERO, updatedAt := now),
           Event(Some(b.status), RefundRequired, System, "no free seat under the class lock", now))
  }

  function WonChange(b: Booking, seat: Int16, now: Instant): Change {
    Change(b.(status := Confirmed, seatNo := seat, confirmedAt := now, holdExpiresAt := ZERO, updatedAt := now),
           Event(Some(b.status), Confirmed, System, "seat assigned under the class lock", now))
  }

  /** The seat a confirm would take now, if any is free. */
  function FreeSeat(s: Store, classId: string): Option<int>
    requires classId in s.classes
  {
    LowestFreeFrom(1, s.classes[classId].capacity, SeatsTaken(s, classId))
  }

  function ConfirmDecision(s: Store, id: string, now: Instant, faults: ConfirmFaults): Decision {
    if faults.lockWait then
      Decision(None, Refused(LockWaitTimeout, None))
    else if id !in s.bookings then
      Decision(None, Refused(BookingNotFound, None))
    else
      var b := s.bookings[id];
      if !b.status.PendingPayment? then
        Decision(None, Refused(NotHolding, Some(b)))
      else if b.classId !in s.classes then
        Decision(None, Refused(ClassNotFound, None))
      else
        var free := FreeSeat(s, b.classId);
        if free.None? then
          Decision(Some(LostChange(b, now)), Refused(SeatLost, Some(LostChange(b, now).row)))
        else if faults.beforeCommit then
          Decision(None, Refused(TransactionBroken, None))
        else
          Decision(Some(WonChange(b, free.value, now)), Done(WonChange(b, free.value, now).row))
  }

  /** Withdrawing clears the seat; the two other ends never had one to clear. */
  function CancelChange(b: Booking, actor: Actor, reason: string, now: Instant): Change {
    Change(b.(status := Cancelled, seatNo := 0, holdExpiresAt := ZERO, updatedAt := now),
           Event(Some(b.status), Cancelled, actor, reason, now))
  }

  function FailChange(b: Booking, reason: string, now: Instant): Change {
    Change(b.(status := PaymentFailed, holdExpiresAt := ZERO, updatedAt := now),
           Event(Some(b.status), PaymentFailed, Payment, reason, now))
  }

  function ExpireChange(b: Booking, now: Instant): Change {
    Change(b.(status := Expired, holdExpiresAt := ZERO, updatedAt := now),
           Event(Some(b.status), Expired, System, "hold deadline passed", now))
  }

  function CancelDecision(s: Store, id: string, actor: Actor, reason: string, now: Instant): Decision {
    if id !in s.bookings then
      Decision(None, Refused(BookingNotFound, None))
    else
      var b := s.bookings[id];
      if !CanTransition(b.status, Cancelled) then
        Decision(None, Refused(InvalidTransition, Some(b)))
      else
        var c := CancelChange(b, actor, reason, now);
        Decision(Some(c), Done(c.row))
  }

  function FailDecision(s: Store, id: string, reason: string, now: Instant): Decision {
    if id !in s.bookings then
      Decision(None, Refused(BookingNotFound, None))
    else
      var b := s.bookings[id];
      if !b.status.PendingPayment? then
        Decision(None, Refused(NotHolding, Some(b)))
      else
        var c := FailChange(b, reason, now);
        Decision(Some(c), Done(c.row))
  }

  function ExpireDecision(s: Store, id: string, now: Instant): Decision {
    if id !in s.bookings then
      Decision(None, Refused(BookingNotFound, None))
    else
      var b := s.bookings[id];
      if !b.status.PendingPayment? then
        Decision(None, Refused(NotHolding, Some(b)))
      else if HoldIsLive(b.holdExpiresAt, now) then
        Decision(None, Refused(HoldStillLive, Some(b)))
      else
        var c := ExpireChange(b, now);
        Decision(Some(c), Done(c.row))
  }

  // ---- The pure seat picker, as the loops it is ----

  /** The lowest seat nobody holds, for seats given in any order and with repeats. */
  method LowestFreeSeat(capacity: Int16, taken: seq<Int16>) returns (seat: Int16, free: bool)
    ensures free ==> 1 <= seat <= capacity && seat !in taken && forall k: Int16 :: 1 <= k < seat ==> k in taken
    ensures !free ==> seat == 0 && forall k: Int16 :: 1 <= k <= capacity ==> k in taken
  {
    if capacity < 1 {
      return 0, false;
    }
    var occupied: set<int> := {};
    for i := 0 to |taken|
      invariant forall k: Int16 :: k in occupied <==> k in taken[..i]
    {
      assert taken[..i + 1] == taken[..i] + [taken[i]];
      occupied := occupied + {taken[i]};
    }
    assert taken[..|taken|] == taken;
    var counter: int := 1;
    while counter <= capacity
      invariant 1 <= counter <= capacity + 1
      invariant forall k: Int16 :: 1 <= k < counter ==> k in taken
    {
      if counter !in occupied {
        return counter, true;
      }
      counter := counter + 1;
    }
    return 0, false;
  }

  // ---- The repository ----

  class MemoryRepository {
    var classes: map<string, TrialClass>
    var parents: map<string, string>
    var bookings: map<string, Booking>
    var events: map<string, seq<Event>>

    ghost function State(): Store
      reads this
    {
      Store(classes, parents, bookings, events)
    }

    constructor ()
      ensures State() == Store(map[], map[], map[], map[])
    {
      classes, parents, bookings, events := map[], map[], map[], map[];
    }

    method AddClass(id: string, c: TrialClass)
      modifies this
      ensures State() == old(State()).(classes := old(classes)[id := c])
    {
      classes := classes[id := c];
    }

    method AddStudent(studentId: string, parentId: string)
      modifies this
      ensures State() == old(State()).(parents := old(parents)[studentId := parentId])
    {
      parents := parents[studentId := parentId];
    }

    method HasLiveBookingLocked(studentId: string, classId: string) returns (found: bool)
      ensures found <==> LiveFor(State(), studentId, classId) != {}
    {
      var rest := bookings.Keys;
      while rest != {}
        invariant rest <= bookings.Keys
        invariant forall id :: id in bookings.Keys - rest ==> !IsLiveFor(bookings[id], studentId, classId)
        decreases rest
      {
        var id :| id in rest;
        rest := rest - {id};
        if bookings[id].studentId == studentId && bookings[id].classId == classId && bookings[id].status.IsLive() {
          assert id in LiveFor(State(), studentId, classId);
          return true;
        }
      }
      return false;
    }

    method LiveHoldsForParentLocked(parentId: string, now: Instant) returns (standing: nat)
      ensures standing == |StandingHolds(State(), parentId, now)|
    {
      standing := 0;
      var rest := bookings.Keys;
      ghost var all := StandingHolds(State(), parentId, now);
      ghost var seen: set<string> := {};
      while rest != {}
        invariant rest <= bookings.Keys
        invariant seen == all - rest
        invariant standing == |seen|
        decreases rest
      {
        var id :| id in rest;
        rest := rest - {id};
        var stored := bookings[id];
        var owner := if stored.studentId in parents then parents[stored.studentId] else "";
        assert id in all <==> IsStanding(State(), stored, parentId, now);
        if owner == parentId && stored.status.PendingPayment? && HoldIsLive(stored.holdExpiresAt, now) {
          standing := standing + 1;
          SizeOfInsert(seen, id);
          seen := seen + {id};
        }
      }
      assert seen == all;
    }

    method HoldersLocked(classId: string, now: Instant) returns (holders: nat)
      ensures holders == |Holders(State(), classId, now)|
    {
      holders := 0;
      var rest := bookings.Keys;
      ghost var all, seen: set<string> := Holders(State(), classId, now), {};
      while rest != {}
        invariant rest <= bookings.Keys
        invariant seen == all - rest
        invariant holders == |seen|
        decreases rest
      {
        var id :| id in rest;
        rest := rest - {id};
        var stored := bookings[id];
        if stored.classId == classId {
          match stored.status
          case Confirmed =>
            holders := holders + 1;
            seen := seen + {id};
          case PendingPayment =>
            if HoldIsLive(stored.holdExpiresAt, now) {
              holders := holders + 1;
              seen := seen + {id};
            }
          case _ =>
        }
      }
      assert seen == all;
    }

    method SeatsTakenLocked(classId: string) returns (seats: seq<Int16>)
      ensures forall k :: k in SeatsTaken(State(), classId) <==> k in seats
      ensures |seats| == |SeatedIn(State(), classId)|
    {
      seats := [];
      var rest := bookings.Keys;
      ghost var all, seen: set<string> := SeatedIn(State(), classId), {};
      while rest != {}
        invariant rest <= bookings.Keys
        invariant seen == all - rest
        invariant |seats| == |seen|
        invariant forall k :: k in SeatsOf(bookings, seen) <==> k in seats
        decreases rest
      {
        var id :| id in rest;
        rest := rest - {id};
        assert id in all <==> IsSeatedIn(bookings[id], classId);
        if bookings[id].classId == classId && bookings[id].HasSeat() {
          seats := seats + [bookings[id].seatNo];
          SeatsOfInsert(bookings, seen, id);
          seen := seen + {id};
        }
      }
      assert seen == all;
    }

    method Hold(request: HoldRequest) returns (answer: Answer)
      modifies this
      ensures var d := HoldDecision(old(State()), request, true); answer == d.answer && State() == Commit(old(State()), d.write)
    {
      if request.classId !in classes {
        return Refused(ClassNotFound, None);
      }
      var class_ := classes[request.classId];
      if request.studentId !in parents {
        return Refused(StudentNotFound, None);
      }
      var parentId := parents[request.studentId];
      var duplicate := HasLiveBookingLocked(request.studentId, request.classId);
      if duplicate {
        return Refused(AlreadyBooked, None);
      }
      var standing := LiveHoldsForParentLocked(parentId, request.now);
      if standing >= request.maxHoldsPerParent {
        return Refused(TooManyHolds, None);
      }
      var holders := HoldersLocked(request.classId, request.now);
      if holders >= MaxHolders(class_) {
        return Refused(ClassFull, None);
      }
      var granted := Booking(request.bookingId, request.studentId, request.classId, PendingPayment, 0,
                             request.expiresAt, ZERO, request.now, request.now);
      bookings := bookings[granted.id := granted];
      RecordLocked(granted.id, None, PendingPayment, Parent, "hold granted", request.now);
      return Done(granted);
    }

    method Confirm(id: string, now: Instant, faults: ConfirmFaults) returns (answer: Answer)
      modifies this
      ensures var d := ConfirmDecision(old(State()), id, now, faults); answer == d.answer && State() == Commit(old(State()), d.write)
    {
      if faults.lockWait {
        return Refused(LockWaitTimeout, None);
      }
      if id !in bookings {
        return Refused(BookingNotFound, None);
      }
      var stored := bookings[id];
      if stored.status != PendingPayment {
        return Refused(NotHolding, Some(stored));
      }
      if stored.classId !in classes {
        return Refused(ClassNotFound, None);
      }
      var taken := SeatsTakenLocked(stored.classId);
      var seat, free := LowestFreeSeat(classes[stored.classId].capacity, taken);
      PickedIsLowest(classes[stored.classId].capacity, taken, seat, free, SeatsTaken(State(), stored.classId));
      if !free {
        var lost := stored.(status := RefundRequired, holdExpiresAt := ZERO, updatedAt := now);
        bookings := bookings[lost.id := lost];
        RecordLocked(lost.id, Some(stored.status), RefundRequired, System, "no free seat under the class lock", now);
        return Refused(SeatLost, Some(lost));
      }
      var won := stored.(status := Confirmed, seatNo := seat, confirmedAt := now, holdExpiresAt := ZERO, updatedAt := now);
      if faults.beforeCommit {
        return Refused(TransactionBroken, None);
      }
      bookings := bookings[won.id := won];
      RecordLocked(won.id, Some(stored.status), Confirmed, System, "seat assigned under the class lock", now);
      return Done(won);
    }

    method Cancel(id: string, actor: Actor, reason: string, now: Instant) returns (answer: Answer)
      modifies this
      ensures var d := CancelDecision(old(State()), id, actor, reason, now); answer == d.answer && State() == Commit(old(State()), d.write)
    {
      if id !in bookings {
        return Refused(BookingNotFound, None);
      }
      var stored := bookings[id];
      if !CanTransition(stored.status, Cancelled) {
        return Refused(InvalidTransition, Some(stored));
      }
      var withdrawn := stored.(status := Cancelled, seatNo := 0, holdExpiresAt := ZERO, updatedAt := now);
      bookings := bookings[withdrawn.id := withdrawn];
      RecordLocked(withdrawn.id, Some(stored.status), Cancelled, actor, reason, now);
      return Done(withdrawn);
    }

    method Fail(id: string, reason: string, now: Instant) returns (answer: Answer)
      modifies this
      ensures var d := FailDecision(old(State()), id, reason, now); answer == d.answer && State() == Commit(old(State()), d.write)
    {
      if id !in bookings {
        return Refused(BookingNotFound, None);
      }
      var stored := bookings[id];
      if stored.status != PendingPayment {
        return Refused(NotHolding, Some(stored));
      }
      var declined := stored.(status := PaymentFailed, holdExpiresAt := ZERO, updatedAt := now);
      bookings := bookings[declined.id := declined];
      RecordLocked(declined.id, Some(stored.status), PaymentFailed, Payment, reason, now);
      return Done(declined);
    }

    method Expire(id: string, now: Instant) returns (answer: Answer)
      modifies this
      ensures var d := ExpireDecision(old(State()), id, now); answer == d.answer && State() == Commit(old(State()), d.write)
    {
      if id !in bookings {
        return Refused(BookingNotFound, None);
      }
      var stored := bookings[id];
      if stored.status != PendingPayment {
        return Refused(NotHolding, Some(stored));
      }
      if HoldIsLive(stored.holdExpiresAt, now) {
        return Refused(HoldStillLive, Some(stored));
      }
      var lapsed := stored.(status := Expired, holdExpiresAt := ZERO, updatedAt := now);
      bookings := bookings[lapsed.id := lapsed];
      RecordLocked(lapsed.id, Some(stored.status), Expired, System, "hold deadline passed", now);
      return Done(lapsed);
    }

    method RecordLocked(id: string, from: Option<Status>, to: Status, actor: Actor, reason: string, now: Instant)
      modifies this`events
      ensures events == old(events)[id := Trail(old(State()), id) + [Event(from, to, actor, reason, now)]]
    {
      var held := if id in events then events[id] else [];
      events := events[id := held + [Event(from, to, actor, reason, now)]];
    }
  }

  /** Any seat the picker's contract allows is the one the scan finds. */
  lemma PickedIsLowest(capacity: Int16, taken: seq<Int16>, seat: Int16, free: bool, held: set<int>)
    requires forall k :: k in held <==> k in taken
    requires free ==> 1 <= seat <= capacity && seat !in taken && forall k: Int16 :: 1 <= k < seat ==> k in taken
    requires !free ==> forall k: Int16 :: 1 <= k <= capacity ==> k in taken
    ensures LowestFreeFrom(1, capacity, held) == if free then Some(seat as int) else None
  {
    if free {
      assert seat as int !in held;
      forall k: int | 1 <= k < seat ensures k in held {
        var j: Int16 := k;
        assert j in taken;
      }
    } else {
      forall k: int | 1 <= k <= capacity ensures k in held {
        var j: Int16 := k;
        assert j in taken;
      }
    }
  }
}
