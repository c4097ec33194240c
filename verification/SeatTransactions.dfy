/**
 * The booking transactions against a database that locks rows and reads the
 * last committed version afresh for every statement.
 *
 * A transaction is a record of how far it has got. Hold and Confirm lock the
 * class row first; Confirm, Cancel, Fail and Expire lock the booking row before
 * they look at it. Any transaction may be rolled back between any two
 * statements. The unique indexes are not part of the steps: that they never
 * have anything to refuse is one of the results.
 */
module SeatTransactions {
  import opened Collections
  import opened BookingStatus
  import opened BookingStore
  import opened BookingRuns

  datatype Phase =
    | Opened
    | Aiming(classId: string)      // Confirm has read which class, without a lock
    | Locked                       // the class row is locked
    | NoDuplicate                  // Hold counted no live booking for this child
    | UnderCap                     // Hold counted the parent's standing holds too
    | Deciding(stored: Booking)    // Confirm locked its booking and found it pending
    | Ready(change: Change)        // what to write is decided
    | Written(change: Change)      // written, not yet visible to anyone else

  datatype Txn = Txn(op: Op, phase: Phase, classLock: Option<string>, bookingLock: Option<string>) {

    function Pending(): Option<Change> {
      match phase
      case Ready(c) => Some(c)
      case Written(c) => Some(c)
      case _ => None
    }

    /** The class row the next statement locks. */
    function WantsClass(): Option<string> {
      if op.Hold? && phase.Opened? then Some(op.request.classId)
      else if phase.Aiming? then Some(phase.classId)
      else None
    }

    /** The booking row the next statement locks. */
    function WantsBooking(): Option<string> {
      if op.Confirm? && phase.Locked? then Some(op.id)
      else if !op.Hold? && !op.Confirm? && phase.Opened? then Some(op.id)
      else None
    }
  }

  datatype Sys = Sys(db: Store, txns: map<nat, Txn>)

  datatype Step =
    | Open(op: Op) | ReadClass | LockClass
    | ReadDuplicates | ReadStanding | ReadHolders
    | LockBooking | ReadSeats | Write | CommitIt | Rollback

  predicate ClassIsFree(s: Sys, classId: string) {
    forall t :: t in s.txns ==> s.txns[t].classLock != Some(classId)
  }

  predicate BookingIsFree(s: Sys, id: string) {
    forall t :: t in s.txns ==> s.txns[t].bookingLock != Some(id)
  }

  /** A booking id in a Hold is minted fresh: nobody stored it and nobody else carries it. */
  predicate IsMinted(s: Sys, op: Op) {
    op.Hold? ==>
      && op.request.bookingId !in s.db.bookings
      && forall t :: t in s.txns && s.txns[t].op.Hold? ==> s.txns[t].op.request.bookingId != op.request.bookingId
  }

  /** Whether this statement can run now. One that needs a row somebody holds has to wait; a row not yet committed is not there to wait for. */
  predicate Enabled(s: Sys, t: nat, step: Step) {
    if step.Open? then t !in s.txns && IsMinted(s, step.op) else t in s.txns && CanRun(s, s.txns[t], step)
  }

  predicate CanRun(s: Sys, x: Txn, step: Step) {
    match step
    case Open(_) => false
    case ReadClass => x.op.Confirm? && x.phase.Opened?
    case LockClass => x.WantsClass().Some? && ClassIsFree(s, x.WantsClass().value)
    case ReadDuplicates => x.op.Hold? && x.phase.Locked?
    case ReadStanding => x.op.Hold? && x.phase.NoDuplicate?
    case ReadHolders => x.op.Hold? && x.phase.UnderCap?
    case LockBooking => x.WantsBooking().Some? && (x.WantsBooking().value !in s.db.bookings || BookingIsFree(s, x.WantsBooking().value))
    case ReadSeats => x.phase.Deciding? && x.op.Confirm?
    case Write => x.phase.Ready?
    case CommitIt => x.phase.Written?
    case Rollback => true
  }

  /** Rolled back, or refused: its locks go and nothing of it stays. */
  function Ended(s: Sys, t: nat): Sys {
    s.(txns := s.txns - {t})
  }

  function Moved(s: Sys, t: nat, x: Txn): Sys {
    s.(txns := s.txns[t := x])
  }

  function Fire(s: Sys, t: nat, step: Step): Sys
    requires Enabled(s, t, step)
  {
    if step.Open? then Moved(s, t, Txn(step.op, Opened, None, None))
    else
      var x := s.txns[t];
      match step
      case ReadClass =>
        if x.op.id !in s.db.bookings then Ended(s, t)
        else Moved(s, t, x.(phase := Aiming(s.db.bookings[x.op.id].classId)))
      case LockClass =>
        if x.WantsClass().value !in s.db.classes then Ended(s, t)
        else Moved(s, t, x.(phase := Locked, classLock := x.WantsClass()))
      case ReadDuplicates =>
        var r := x.op.request;
        if r.studentId !in s.db.parents || LiveFor(s.db, r.studentId, r.classId) != {} then Ended(s, t)
        else Moved(s, t, x.(phase := NoDuplicate))
      case ReadStanding =>
        var r := x.op.request;
        if |StandingHolds(s.db, ParentOf(s.db, r.studentId), r.now)| >= r.maxHoldsPerParent then Ended(s, t)
        else Moved(s, t, x.(phase := UnderCap))
      case ReadHolders =>
        var r := x.op.request;
        if r.classId !in s.db.classes || |Holders(s.db, r.classId, r.now)| >= MaxHolders(s.db.classes[r.classId]) then Ended(s, t)
        else Moved(s, t, x.(phase := Ready(GrantChange(r))))
      case LockBooking =>
        if x.op.id !in s.db.bookings then Ended(s, t)
        else
          var b := s.db.bookings[x.op.id];
          var held := x.(bookingLock := Some(x.op.id));
          (match x.op
           case Confirm(_, _, _) =>
             if !b.status.PendingPayment? then Ended(s, t) else Moved(s, t, held.(phase := Deciding(b)))
           case Cancel(_, actor, reason, now) =>
             if !CanTransition(b.status, Cancelled) then Ended(s, t)
             else Moved(s, t, held.(phase := Ready(CancelChange(b, actor, reason, now))))
           case Fail(_, reason, now) =>
             if !b.status.PendingPayment? then Ended(s, t)
             else Moved(s, t, held.(phase := Ready(FailChange(b, reason, now))))
           case Expire(_, now) =>
             if !b.status.PendingPayment? || HoldIsLive(b.holdExpiresAt, now) then Ended(s, t)
             else Moved(s, t, held.(phase := Ready(ExpireChange(b, now)))))
      case ReadSeats =>
        var b := x.phase.stored;
        if b.classId !in s.db.classes then Ended(s, t)
        else
          var free := FreeSeat(s.db, b.classId);
          var c := if free.None? then LostChange(b, x.op.now) else WonChange(b, free.value, x.op.now);
          Moved(s, t, x.(phase := Ready(c)))
      case Write =>
        Moved(s, t, x.(phase := Written(x.phase.change), bookingLock := Some(x.op.Target())))
      case CommitIt =>
        Ended(s, t).(db := Put(s.db, x.phase.change))
      case Rollback =>
        Ended(s, t)
  }

  predicate IsRun(s: Sys, steps: seq<(nat, Step)>)
    decreases |steps|
  {
    steps == [] || (Enabled(s, steps[0].0, steps[0].1) && IsRun(Fire(s, steps[0].0, steps[0].1), steps[1..]))
  }

  function Exec(s: Sys, steps: seq<(nat, Step)>): Sys
    requires IsRun(s, steps)
    decreases |steps|
  {
    if steps == [] then s else Exec(Fire(s, steps[0].0, steps[0].1), steps[1..])
  }

  // ---- The invariant ----

  /** A write that takes a seat or adds a live booking, which only the class lock may do. */
  predicate NeedsClass(db: Store, c: Change) {
    c.row.HasSeat() || c.row.id !in db.bookings
  }

  /** What each transaction may rely on at the point it has reached. */
  ghost predicate TxnOk(db: Store, x: Txn) {
    && (x.op.Hold? ==> x.op.request.bookingId !in db.bookings)
    && (x.classLock.Some? ==> x.classLock.value in db.classes)
    && (x.bookingLock.Some? ==> x.bookingLock.value == x.op.Target())
    && (x.op.Hold? && x.classLock.Some? ==> x.classLock.value == x.op.request.classId)
    && (x.op.Confirm? && x.classLock.Some? ==>
         x.op.id in db.bookings && db.bookings[x.op.id].classId == x.classLock.value)
    && match x.phase
       case Opened => x.classLock.None? && x.bookingLock.None?
       case Aiming(c) =>
         && x.op.Confirm? && x.classLock.None? && x.bookingLock.None?
         && x.op.id in db.bookings && db.bookings[x.op.id].classId == c
       case Locked => (x.op.Hold? || x.op.Confirm?) && x.classLock.Some? && x.bookingLock.None?
       case NoDuplicate => NoDuplicateYet(db, x)
       case UnderCap => NoDuplicateYet(db, x)
       case Deciding(b) =>
         && x.op.Confirm? && x.classLock.Some? && x.bookingLock.Some?
         && x.op.id in db.bookings && db.bookings[x.op.id] == b && b.status.PendingPayment?
       case Ready(c) => WriteOk(db, x, c) && (!x.op.Hold? ==> x.bookingLock.Some?)
       case Written(c) => WriteOk(db, x, c) && x.bookingLock.Some?
  }

  ghost predicate NoDuplicateYet(db: Store, x: Txn) {
    && x.op.Hold? && x.classLock.Some? && x.bookingLock.None?
    && x.op.request.studentId in db.parents
    && LiveFor(db, x.op.request.studentId, x.op.request.classId) == {}
  }

  ghost predicate WriteOk(db: Store, x: Txn, c: Change) {
    && c.row.id == x.op.Target()
    && GoodWrite(db, c)
    && (x.op.Hold? <==> c.row.id !in db.bookings)
    && (x.op.Hold? || x.op.Confirm? ==> x.classLock == Some(c.row.classId))
    && (NeedsClass(db, c) ==> x.op.Hold? || x.op.Confirm?)
  }

  /** Two transactions never hold the same row, and never mint the same booking. */
  predicate Compatible(x: Txn, y: Txn) {
    && !(x.classLock.Some? && x.classLock == y.classLock)
    && !(x.bookingLock.Some? && x.bookingLock == y.bookingLock)
    && !(x.op.Hold? && y.op.Hold? && x.op.request.bookingId == y.op.request.bookingId)
  }

  ghost predicate SysOk(s: Sys) {
    && StoreOk(s.db)
    && (forall t {:trigger TxnOk(s.db, s.txns[t])} :: t in s.txns ==> TxnOk(s.db, s.txns[t]))
    && (forall t, u {:trigger Compatible(s.txns[t], s.txns[u])} ::
         t in s.txns && u in s.txns && t != u ==> Compatible(s.txns[t], s.txns[u]))
  }

  /** One write commits while another is under way: what the other decided still stands. */
  lemma GoodWriteSurvives(db: Store, c: Change, d: Change)
    requires StoreOk(db) && GoodWrite(db, c) && GoodWrite(db, d) && c.row.id != d.row.id
    requires !(NeedsClass(db, c) && NeedsClass(db, d) && c.row.classId == d.row.classId)
    ensures GoodWrite(Put(db, c), d)
  {
    var after := Put(db, c);
    if d.row.id !in db.bookings {
      LiveSurvives(db, c, d.row.studentId, d.row.classId);
    }
    if d.row.HasSeat() {
      SeatsSurvive(db, c, d.row.classId);
    }
  }

  /** A child with no live booking in a class gains none by somebody else's write. */
  lemma LiveSurvives(db: Store, c: Change, studentId: string, classId: string)
    requires StoreOk(db) && GoodWrite(db, c)
    requires c.row.id !in db.bookings ==> c.row.classId != classId
    requires LiveFor(db, studentId, classId) == {}
    ensures LiveFor(Put(db, c), studentId, classId) == {}
  {
    if c.row.id in db.bookings {
      assert c.row.id !in LiveFor(db, studentId, classId);
    }
    forall id | id in Put(db, c).bookings ensures id !in LiveFor(Put(db, c), studentId, classId) {
      if id != c.row.id {
        assert id !in LiveFor(db, studentId, classId);
      }
    }
  }

  /** The seats of a class only go down by a write that takes none of them. */
  lemma SeatsSurvive(db: Store, c: Change, classId: string)
    requires c.row.HasSeat() ==> c.row.classId != classId
    ensures SeatsTaken(Put(db, c), classId) <= SeatsTaken(db, classId)
  {
    var after := Put(db, c);
    forall k | k in SeatsTaken(after, classId) ensures k in SeatsTaken(db, classId) {
      var id :| id in SeatedIn(after, classId) && after.bookings[id].seatNo == k;
      assert id in SeatedIn(db, classId);
    }
  }

  /** Somebody else's commit leaves a transaction's footing in place. */
  lemma TxnSurvives(db: Store, x: Txn, c: Change, y: Txn)
    requires StoreOk(db) && TxnOk(db, x) && TxnOk(db, y) && Compatible(x, y) && Compatible(y, x)
    requires x.phase == Written(c)
    ensures TxnOk(Put(db, c), y)
  {
    if y.Pending().Some? {
      assert y.Pending().value.row.id != c.row.id;
      GoodWriteSurvives(db, c, y.Pending().value);
    } else if y.phase.NoDuplicate? || y.phase.UnderCap? {
      LiveSurvives(db, c, y.op.request.studentId, y.op.request.classId);
    }
  }

  lemma CommitKeeps(s: Sys, t: nat)
    requires SysOk(s) && Enabled(s, t, CommitIt)
    ensures SysOk(Fire(s, t, CommitIt))
  {
    var x := s.txns[t];
    var c := x.phase.change;
    var after := Fire(s, t, CommitIt);
    assert TxnOk(s.db, x);
    PutKeeps(s.db, c);
    forall u | u in after.txns ensures TxnOk(after.db, after.txns[u]) {
      assert TxnOk(s.db, s.txns[u]);
      assert Compatible(x, s.txns[u]) && Compatible(s.txns[u], x);
      TxnSurvives(s.db, x, c, s.txns[u]);
    }
    forall u, v | u in after.txns && v in after.txns && u != v ensures Compatible(after.txns[u], after.txns[v]) {
      assert Compatible(s.txns[u], s.txns[v]);
    }
  }

  lemma EndKeeps(s: Sys, t: nat)
    requires SysOk(s)
    ensures SysOk(Ended(s, t))
  {
    var after := Ended(s, t);
    forall u | u in after.txns ensures TxnOk(after.db, after.txns[u]) {
      assert TxnOk(s.db, s.txns[u]);
    }
    forall u, v | u in after.txns && v in after.txns && u != v ensures Compatible(after.txns[u], after.txns[v]) {
      assert Compatible(s.txns[u], s.txns[v]);
    }
  }

  /** Replacing one transaction's record keeps the invariant when the new record stands on its own. */
  lemma MoveKeeps(s: Sys, t: nat, x: Txn)
    requires SysOk(s) && TxnOk(s.db, x)
    requires forall u :: u in s.txns && u != t ==> Compatible(x, s.txns[u]) && Compatible(s.txns[u], x)
    ensures SysOk(Moved(s, t, x))
  {
    var after := Moved(s, t, x);
    forall u | u in after.txns ensures TxnOk(after.db, after.txns[u]) {
      if u != t {
        assert TxnOk(s.db, s.txns[u]);
      }
    }
    forall u, v | u in after.txns && v in after.txns && u != v ensures Compatible(after.txns[u], after.txns[v]) {
      if u != t && v != t {
        assert Compatible(s.txns[u], s.txns[v]);
      }
    }
  }

  lemma LockedBookingIsOk(s: Sys, t: nat)
    requires SysOk(s) && Enabled(s, t, LockBooking)
    ensures t in Fire(s, t, LockBooking).txns ==> TxnOk(s.db, Fire(s, t, LockBooking).txns[t])
  {
    var x := s.txns[t];
    assert TxnOk(s.db, x);
    if x.op.id in s.db.bookings {
      assert EntryOk(s.db, x.op.id);
    }
  }

  lemma ReadSeatsIsOk(s: Sys, t: nat)
    requires SysOk(s) && Enabled(s, t, ReadSeats)
    ensures t in Fire(s, t, ReadSeats).txns ==> TxnOk(s.db, Fire(s, t, ReadSeats).txns[t])
  {
    var x := s.txns[t];
    assert TxnOk(s.db, x);
    assert EntryOk(s.db, x.op.id);
  }

  /** The record a transaction moves to is sound, whichever statement it ran. */
  lemma FiredIsOk(s: Sys, t: nat, step: Step)
    requires SysOk(s) && Enabled(s, t, step) && !step.CommitIt?
    ensures t in Fire(s, t, step).txns ==> TxnOk(s.db, Fire(s, t, step).txns[t])
  {
    if step.LockBooking? {
      LockedBookingIsOk(s, t);
    } else if step.ReadSeats? {
      ReadSeatsIsOk(s, t);
    } else if !step.Open? {
      assert TxnOk(s.db, s.txns[t]);
    }
  }

  /** A lock is taken only when free, so no two records ever claim one row. */
  lemma FiredIsCompatible(s: Sys, t: nat, step: Step, u: nat)
    requires SysOk(s) && Enabled(s, t, step) && !step.CommitIt?
    requires t in Fire(s, t, step).txns && u in s.txns && u != t
    ensures Compatible(Fire(s, t, step).txns[t], s.txns[u]) && Compatible(s.txns[u], Fire(s, t, step).txns[t])
  {
    assert TxnOk(s.db, s.txns[u]);
    if !step.Open? {
      assert TxnOk(s.db, s.txns[t]);
      assert Compatible(s.txns[t], s.txns[u]) && Compatible(s.txns[u], s.txns[t]);
      if step.Write? && s.txns[u].bookingLock == Some(s.txns[t].op.Target()) && s.txns[t].op.Hold? {
        LockedIsStoredOrMinted(s.db, s.txns[u]);
      }
    }
  }

  /** A locked booking is one somebody stored, or the row its own Hold is inserting. */
  lemma LockedIsStoredOrMinted(db: Store, x: Txn)
    requires TxnOk(db, x) && x.bookingLock.Some?
    ensures x.bookingLock.value in db.bookings || x.op.Hold?
  {
  }

  lemma FireKeeps(s: Sys, t: nat, step: Step)
    requires SysOk(s) && Enabled(s, t, step)
    ensures SysOk(Fire(s, t, step))
  {
    if step.CommitIt? {
      CommitKeeps(s, t);
    } else {
      var after := Fire(s, t, step);
      if t in after.txns {
        FiredIsOk(s, t, step);
        forall u | u in s.txns && u != t
          ensures Compatible(after.txns[t], s.txns[u]) && Compatible(s.txns[u], after.txns[t])
        {
          FiredIsCompatible(s, t, step, u);
        }
        MoveKeeps(s, t, after.txns[t]);
        assert after == Moved(s, t, after.txns[t]);
      } else {
        EndKeeps(s, t);
      }
    }
  }

  /**
   * Whatever the interleaving and wherever transactions die, the committed
   * bookings keep every rule: no shared seat, seats inside the class, one live
   * booking per child and class, trails that tell the truth.
   */
  lemma {:induction false} EveryInterleavingKeeps(s: Sys, steps: seq<(nat, Step)>)
    requires SysOk(s) && IsRun(s, steps)
    ensures SysOk(Exec(s, steps))
    decreases |steps|
  {
    if steps != [] {
      FireKeeps(s, steps[0].0, steps[0].1);
      EveryInterleavingKeeps(Fire(s, steps[0].0, steps[0].1), steps[1..]);
    }
  }

  /** The two unique indexes have nothing to refuse, against committed rows or against rows in flight. */
  lemma IndexesNeverRefuse(s: Sys, t: nat)
    requires SysOk(s) && t in s.txns && s.txns[t].Pending().Some?
    ensures forall id :: id in s.db.bookings && id != s.txns[t].Pending().value.row.id
              ==> Apart(s.txns[t].Pending().value.row, s.db.bookings[id])
    ensures forall u :: u in s.txns && u != t && s.txns[u].Pending().Some?
              ==> Apart(s.txns[t].Pending().value.row, s.txns[u].Pending().value.row)
  {
    var x := s.txns[t];
    var c := x.Pending().value;
    assert TxnOk(s.db, x);
    forall id | id in s.db.bookings && id != c.row.id ensures Apart(c.row, s.db.bookings[id]) {
      GoodWriteIsApart(s.db, c, id);
    }
    forall u | u in s.txns && u != t && s.txns[u].Pending().Some?
      ensures Apart(c.row, s.txns[u].Pending().value.row)
    {
      var y := s.txns[u];
      assert TxnOk(s.db, y) && Compatible(x, y) && Compatible(y, x);
      InFlightApart(s.db, x, y);
    }
  }

  lemma InFlightApart(db: Store, x: Txn, y: Txn)
    requires StoreOk(db) && TxnOk(db, x) && TxnOk(db, y) && Compatible(x, y) && Compatible(y, x)
    requires x.Pending().Some? && y.Pending().Some?
    ensures Apart(x.Pending().value.row, y.Pending().value.row)
  {
    var c, d := x.Pending().value.row, y.Pending().value.row;
    assert c.id != d.id;
    if d.id in db.bookings {
      GoodWriteIsApart(db, x.Pending().value, d.id);
    }
    if c.id in db.bookings {
      GoodWriteIsApart(db, y.Pending().value, c.id);
    }
  }

  // ---- Lock waits ----

  predicate Waits(s: Sys, t: nat, u: nat) {
    && t in s.txns && u in s.txns && t != u
    && ((s.txns[t].WantsClass().Some? && s.txns[t].WantsClass() == s.txns[u].classLock)
        || (s.txns[t].WantsBooking().Some? && s.txns[t].WantsBooking().value in s.db.bookings
            && s.txns[t].WantsBooking() == s.txns[u].bookingLock))
  }

  /** How far along the lock order a transaction is. */
  function Level(s: Sys, t: nat): nat {
    if t in s.txns && s.txns[t].WantsClass().Some? then 0
    else if t in s.txns && s.txns[t].WantsBooking().Some? then 1
    else 2
  }

  lemma WaitsClimb(s: Sys, t: nat, u: nat)
    requires SysOk(s) && Waits(s, t, u)
    ensures Level(s, t) < Level(s, u)
  {
    assert TxnOk(s.db, s.txns[u]);
  }

  /** A chain of waiting transactions has at most two links, so it can never close on itself. */
  lemma {:induction false} NoDeadlock(s: Sys, chain: seq<nat>)
    requires SysOk(s) && chain != []
    requires forall i :: 0 < i < |chain| ==> Waits(s, chain[i - 1], chain[i])
    ensures |chain| - 1 <= Level(s, chain[|chain| - 1]) - Level(s, chain[0])
    ensures |chain| <= 3
    ensures |chain| > 1 ==> chain[0] != chain[|chain| - 1]
    decreases |chain|
  {
    if |chain| > 1 {
      var front := chain[..|chain| - 1];
      forall i | 0 < i < |front| ensures Waits(s, front[i - 1], front[i]) {
        assert Waits(s, chain[i - 1], chain[i]);
      }
      NoDeadlock(s, front);
      assert Waits(s, chain[|chain| - 2], chain[|chain| - 1]);
      WaitsClimb(s, chain[|chain| - 2], chain[|chain| - 1]);
    }
  }

  /** A transaction at the end of the lock order can always finish. */
  lemma SomeoneCanMove(s: Sys, t: nat)
    requires SysOk(s) && t in s.txns
    requires forall u :: !Waits(s, t, u)
    ensures exists step: Step :: !step.Rollback? && Enabled(s, t, step)
  {
    var x := s.txns[t];
    assert TxnOk(s.db, x);
    if x.WantsClass().Some? {
      forall u | u in s.txns ensures s.txns[u].classLock != x.WantsClass() {
        assert !Waits(s, t, u);
      }
      assert Enabled(s, t, LockClass);
    } else if x.WantsBooking().Some? {
      if x.WantsBooking().value in s.db.bookings {
        forall u | u in s.txns ensures s.txns[u].bookingLock != x.WantsBooking() {
          assert !Waits(s, t, u);
        }
      }
      assert Enabled(s, t, LockBooking);
    } else {
      match x.phase
      case Opened => assert Enabled(s, t, ReadClass);
      case Locked => assert Enabled(s, t, ReadDuplicates);
      case NoDuplicate => assert Enabled(s, t, ReadStanding);
      case UnderCap => assert Enabled(s, t, ReadHolders);
      case Deciding(_) => assert Enabled(s, t, ReadSeats);
      case Ready(_) => assert Enabled(s, t, Write);
      case Written(_) => assert Enabled(s, t, CommitIt);
    }
  }

  /** While anything is under way, something can go on: the whole never stands still with everybody waiting. */
  lemma NeverAllWaiting(s: Sys)
    requires SysOk(s) && s.txns != map[]
    ensures exists t, step: Step {:trigger Enabled(s, t, step)} :: t in s.txns && !step.Rollback? && Enabled(s, t, step)
  {
    var t := Furthest(s);
    forall u ensures !Waits(s, t, u) {
      if Waits(s, t, u) {
        WaitsClimb(s, t, u);
      }
    }
    SomeoneCanMove(s, t);
  }

  /** One that is furthest along the lock order. */
  lemma Furthest(s: Sys) returns (t: nat)
    requires s.txns != map[]
    ensures t in s.txns && forall u :: u in s.txns ==> Level(s, u) <= Level(s, t)
  {
    t :| t in s.txns;
    if u :| u in s.txns && Level(s, u) == 2 {
      t := u;
    } else if u :| u in s.txns && Level(s, u) == 1 {
      t := u;
    }
  }
}
