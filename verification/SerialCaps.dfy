/**
 * The cap on a parent's holds, under interleaving. Hold counts what the parent
 * has standing across every class but locks only one, so two Holds of one
 * parent can pass each other. As long as no two of them that commit overlap
 * between counting and committing, the serial order agrees on the cap as well.
 */
module SerialCaps {
  import opened Collections
  import opened BookingStatus
  import opened BookingStore
  import opened BookingRuns
  import opened SeatTransactions
  import opened Serializability

  /** The check on the cap would let this Hold through here. */
  predicate UnderCapAt(s: Store, r: HoldRequest) {
    |StandingHolds(s, ParentOf(s, r.studentId), r.now)| < r.maxHoldsPerParent
  }

  /** Counted, and not yet committed. */
  predicate HasCounted(x: Txn) {
    x.op.Hold? && (x.phase.UnderCap? || x.phase.Ready? || x.phase.Written?)
  }

  /** This transaction commits before it ends any other way. */
  predicate WillCommit(s: Sys, steps: seq<(nat, Step)>, u: nat)
    requires IsRun(s, steps)
    decreases |steps|
  {
    steps != [] &&
    var (t, step) := steps[0];
    var next := Fire(s, t, step);
    if t == u then step.CommitIt? || (u in next.txns && WillCommit(next, steps[1..], u)) else WillCommit(next, steps[1..], u)
  }

  predicate HoldsForParent(s: Store, op: Op, parent: string) {
    op.Hold? && ParentOf(s, op.request.studentId) == parent
  }

  /** As a Hold commits, nobody else who counted for the same parent is still to commit. */
  predicate CommitsAlone(s: Sys, t: nat, rest: seq<(nat, Step)>)
    requires Enabled(s, t, CommitIt) && IsRun(Fire(s, t, CommitIt), rest)
  {
    s.txns[t].op.Hold? ==>
      forall u :: u in s.txns && u != t && HasCounted(s.txns[u]) && WillCommit(Fire(s, t, CommitIt), rest, u)
        ==> !HoldsForParent(s.db, s.txns[u].op, ParentOf(s.db, s.txns[t].op.request.studentId))
  }

  /** No two Holds of one parent that both commit overlap between counting and committing. */
  predicate HoldsDoNotOverlap(s: Sys, steps: seq<(nat, Step)>)
    requires IsRun(s, steps)
    decreases |steps|
  {
    steps == [] ||
    ((steps[0].1.CommitIt? ==> CommitsAlone(s, steps[0].0, steps[1..]))
     && HoldsDoNotOverlap(Fire(s, steps[0].0, steps[0].1), steps[1..]))
  }

  // ---- What the log keeps of the cap ----

  lemma {:induction false} ParentsStay(s: Store, order: seq<Entry>)
    ensures Replay(s, order).parents == s.parents
    decreases |order|
  {
    if order != [] {
      ParentsStay(Apply(s, order[0].op, false), order[1..]);
    }
  }

  /** The entry at this place passes the cap there. */
  predicate EntryUnderCap(base: Store, order: seq<Entry>, k: nat)
    requires k < |order|
  {
    order[k].op.Hold? ==> UnderCapAt(Replay(base, order[..k]), order[k].op.request)
  }

  predicate OrderUnderCap(base: Store, order: seq<Entry>) {
    forall k: nat {:trigger EntryUnderCap(base, order, k)} :: k < |order| ==> EntryUnderCap(base, order, k)
  }

  predicate NoneFor(base: Store, order: seq<Entry>, parent: string) {
    forall i :: 0 <= i < |order| ==> !HoldsForParent(base, order[i].op, parent)
  }

  /** A pending Hold passes the cap where it stands, and nothing its parent holds was let in after that. */
  predicate PendingUnderCap(base: Store, db: Store, log: Log, u: nat, y: Txn) {
    && (y.op.Hold? && y.phase.UnderCap? ==> UnderCapAt(db, y.op.request))
    && (y.op.Hold? && y.Pending().Some? ==>
         && u in log.place && log.place[u] <= |log.order|
         && UnderCapAt(Replay(base, log.order[..log.place[u]]), y.op.request)
         && NoneFor(base, log.order[log.place[u]..], ParentOf(base, y.op.request.studentId)))
  }

  ghost predicate CapLogged(base: Store, s: Sys, log: Log, steps: seq<(nat, Step)>)
    requires IsRun(s, steps)
  {
    && s.db.parents == base.parents
    && OrderUnderCap(base, log.order)
    && forall u {:trigger s.txns[u]} :: u in s.txns && WillCommit(s, steps, u) ==> PendingUnderCap(base, s.db, log, u, s.txns[u])
  }

  /** A write that is not a grant to this parent leaves it no more holds standing. */
  lemma StillUnderCap(s: Store, c: Change, r: HoldRequest)
    requires UnderCapAt(s, r)
    requires c.row.status.PendingPayment? ==> ParentOf(s, c.row.studentId) != ParentOf(s, r.studentId)
    ensures UnderCapAt(Put(s, c), r)
  {
    var parent := ParentOf(s, r.studentId);
    forall id | id in StandingHolds(Put(s, c), parent, r.now) ensures id in StandingHolds(s, parent, r.now) {
      assert id != c.row.id;
    }
    SizeOfSubset(StandingHolds(Put(s, c), parent, r.now), StandingHolds(s, parent, r.now));
  }

  /** What a committing transaction writes is a grant only when it is a Hold, and then to its own child. */
  lemma WritesItsOwn(db: Store, x: Txn)
    requires TxnOk(db, x) && x.Pending().Some?
    ensures x.Pending().value.row.status.PendingPayment? ==> x.op.Hold? && x.op.request.bookingId == x.Pending().value.row.id
  {
  }

  lemma PrefixAfterInsert(base: Store, order: seq<Entry>, p: nat, e: Entry, c: Change, q: nat)
    requires Inserts(base, order, p, e, c) && p <= q <= |order|
    ensures Replay(base, (order[..p] + [e] + order[p..])[..q + 1]) == Put(Replay(base, order[..q]), c)
  {
    if q > p {
      LaterStore(base, order, p, e, c, q);
    } else {
      assert (order[..p] + [e] + order[p..])[..q + 1] == order[..p] + [e] + [];
      ReplayAround(base, order[..p], e, []);
    }
  }

  /** What a placed transaction about to commit gives: its change, and where it goes in. */
  lemma PlacedInserts(base: Store, s: Sys, log: Log, t: nat)
    requires SysOk(s) && LogOk(base, s, log) && Enabled(s, t, CommitIt) && IsPlaced(s.txns[t])
    ensures t in log.place && log.place[t] <= |log.order|
    ensures Inserts(base, log.order, log.place[t], EntryOf(s.txns[t]), s.txns[t].phase.change)
    ensures s.txns[t].phase.change.row.status.PendingPayment? ==>
              s.txns[t].op.Hold? && s.txns[t].phase.change.row.studentId == s.txns[t].op.request.studentId
  {
    assert TxnLogged(base, s.db, log, t, s.txns[t]);
    assert TxnOk(s.db, s.txns[t]);
    WritesItsOwn(s.db, s.txns[t]);
  }

  /** An entry past the insertion still passes the cap, unless the insertion was a grant to its own parent. */
  lemma LaterEntryUnderCap(base: Store, order: seq<Entry>, p: nat, e: Entry, c: Change, j: nat)
    requires Inserts(base, order, p, e, c) && p <= j < |order| && EntryUnderCap(base, order, j)
    requires c.row.status.PendingPayment? ==> !HoldsForParent(base, order[j].op, ParentOf(base, c.row.studentId))
    ensures EntryUnderCap(base, order[..p] + [e] + order[p..], j + 1)
  {
    PrefixAfterInsert(base, order, p, e, c, j);
    ParentsStay(base, order[..j]);
    assert (order[..p] + [e] + order[p..])[j + 1] == order[j];
    if order[j].op.Hold? {
      StillUnderCap(Replay(base, order[..j]), c, order[j].op.request);
    }
  }

  lemma InsertedOrderUnderCap(base: Store, order: seq<Entry>, p: nat, e: Entry, c: Change)
    requires Inserts(base, order, p, e, c) && OrderUnderCap(base, order)
    requires e.op.Hold? ==> UnderCapAt(Replay(base, order[..p]), e.op.request)
    requires c.row.status.PendingPayment? ==> NoneFor(base, order[p..], ParentOf(base, c.row.studentId))
    ensures OrderUnderCap(base, order[..p] + [e] + order[p..])
  {
    var longer := order[..p] + [e] + order[p..];
    forall k: nat | k < |longer| ensures EntryUnderCap(base, longer, k) {
      if k < p {
        assert EntryUnderCap(base, order, k);
        assert longer[..k] == order[..k] && longer[k] == order[k];
      } else if k == p {
        assert longer[..k] == order[..p] && longer[k] == e;
      } else {
        assert EntryUnderCap(base, order, k - 1);
        assert order[k - 1] == order[p..][k - 1 - p];
        LaterEntryUnderCap(base, order, p, e, c, k - 1);
      }
    }
  }

  lemma PlaceStaysUnderCap(base: Store, order: seq<Entry>, p: nat, e: Entry, c: Change, q: nat, r: HoldRequest)
    requires Inserts(base, order, p, e, c) && q <= |order|
    requires UnderCapAt(Replay(base, order[..q]), r) && NoneFor(base, order[q..], ParentOf(base, r.studentId))
    requires !HoldsForParent(base, e.op, ParentOf(base, r.studentId))
    requires c.row.status.PendingPayment? ==> ParentOf(base, c.row.studentId) != ParentOf(base, r.studentId)
    ensures var longer, place := order[..p] + [e] + order[p..], if q > p then q + 1 else q;
            UnderCapAt(Replay(base, longer[..place]), r) && NoneFor(base, longer[place..], ParentOf(base, r.studentId))
  {
    var longer := order[..p] + [e] + order[p..];
    if q <= p {
      assert longer[..q] == order[..q];
      assert longer[q..] == order[q..p] + [e] + order[p..];
      assert order[q..] == order[q..p] + order[p..];
    } else {
      PrefixAfterInsert(base, order, p, e, c, q);
      ParentsStay(base, order[..q]);
      assert longer[q + 1..] == order[q..];
      StillUnderCap(Replay(base, order[..q]), c, r);
    }
  }

  /** Another pending Hold keeps its cap as an entry that grants its parent nothing goes in. */
  lemma PendingStaysUnderCap(base: Store, db: Store, log: Log, p: nat, e: Entry, c: Change, u: nat, y: Txn)
    requires Inserts(base, log.order, p, e, c) && db.parents == base.parents
    requires PendingUnderCap(base, db, log, u, y)
    requires y.op.Hold? && HasCounted(y) ==>
               !HoldsForParent(base, e.op, ParentOf(base, y.op.request.studentId))
               && (c.row.status.PendingPayment? ==> ParentOf(base, c.row.studentId) != ParentOf(base, y.op.request.studentId))
    ensures PendingUnderCap(base, Put(db, c), Inserted(log, p, e), u, y)
  {
    if y.op.Hold? && y.phase.UnderCap? {
      StillUnderCap(db, c, y.op.request);
    }
    if y.op.Hold? && y.Pending().Some? {
      PlaceStaysUnderCap(base, log.order, p, e, c, log.place[u], y.op.request);
    }
  }

  lemma InsertKeepsCap(base: Store, s: Sys, log: Log, steps: seq<(nat, Step)>)
    requires SysOk(s) && LogOk(base, s, log) && IsRun(s, steps) && steps != [] && steps[0].1.CommitIt? && IsPlaced(s.txns[steps[0].0])
    requires CapLogged(base, s, log, steps) && CommitsAlone(s, steps[0].0, steps[1..])
    ensures CapLogged(base, Fire(s, steps[0].0, CommitIt), NextLog(s, log, steps[0].0, CommitIt), steps[1..])
  {
    var t := steps[0].0;
    var x, rest := s.txns[t], steps[1..];
    var c, e := x.phase.change, EntryOf(x);
    var after := Fire(s, t, CommitIt);
    PlacedInserts(base, s, log, t);
    assert WillCommit(s, steps, t) && PendingUnderCap(base, s.db, log, t, x);
    InsertedOrderUnderCap(base, log.order, log.place[t], e, c);
    forall u | u in after.txns && WillCommit(after, rest, u)
      ensures PendingUnderCap(base, after.db, NextLog(s, log, t, CommitIt), u, after.txns[u])
    {
      assert WillCommit(s, steps, u) && PendingUnderCap(base, s.db, log, u, s.txns[u]);
      PendingStaysUnderCap(base, s.db, log, log.place[t], e, c, u, s.txns[u]);
    }
  }

  lemma AppendKeepsCap(base: Store, s: Sys, log: Log, steps: seq<(nat, Step)>)
    requires SysOk(s) && LogOk(base, s, log) && IsRun(s, steps) && steps != [] && steps[0].1.CommitIt? && !IsPlaced(s.txns[steps[0].0])
    requires CapLogged(base, s, log, steps)
    ensures CapLogged(base, Fire(s, steps[0].0, CommitIt), NextLog(s, log, steps[0].0, CommitIt), steps[1..])
  {
    var t := steps[0].0;
    var x, rest := s.txns[t], steps[1..];
    var c, e := x.phase.change, EntryOf(x);
    var after, next := Fire(s, t, CommitIt), NextLog(s, log, t, CommitIt);
    assert TxnOk(s.db, x);
    WritesItsOwn(s.db, x);
    forall k: nat | k < |next.order| ensures EntryUnderCap(base, next.order, k) {
      if k < |log.order| {
        assert EntryUnderCap(base, log.order, k);
        assert next.order[..k] == log.order[..k];
      }
    }
    forall u | u in after.txns && WillCommit(after, rest, u) ensures PendingUnderCap(base, after.db, next, u, after.txns[u]) {
      var y := s.txns[u];
      assert WillCommit(s, steps, u) && PendingUnderCap(base, s.db, log, u, y);
      if y.op.Hold? && y.phase.UnderCap? {
        StillUnderCap(s.db, c, y.op.request);
      }
      if y.op.Hold? && y.Pending().Some? {
        var q := log.place[u];
        assert next.order[..q] == log.order[..q] && next.order[q..] == log.order[q..] + [e];
      }
    }
  }

  /** Counting, reading holders and writing move one Hold along under its cap; nothing else changes. */
  lemma MoveKeepsCap(base: Store, s: Sys, log: Log, steps: seq<(nat, Step)>)
    requires SysOk(s) && LogOk(base, s, log) && IsRun(s, steps) && steps != [] && !steps[0].1.CommitIt?
    requires CapLogged(base, s, log, steps)
    ensures CapLogged(base, Fire(s, steps[0].0, steps[0].1), NextLog(s, log, steps[0].0, steps[0].1), steps[1..])
  {
    var (t, step) := steps[0];
    var rest := steps[1..];
    var after, next := Fire(s, t, step), NextLog(s, log, t, step);
    assert after.db == s.db && next.order == log.order;
    forall u | u in after.txns && WillCommit(after, rest, u) ensures PendingUnderCap(base, after.db, next, u, after.txns[u]) {
      if u != t {
        assert WillCommit(s, steps, u) && PendingUnderCap(base, s.db, log, u, s.txns[u]);
      } else if !step.Open? {
        assert WillCommit(s, steps, t) && PendingUnderCap(base, s.db, log, t, s.txns[t]);
        MovedHoldUnderCap(base, s, log, t, step);
      }
    }
  }

  lemma MovedHoldUnderCap(base: Store, s: Sys, log: Log, t: nat, step: Step)
    requires SysOk(s) && LogOk(base, s, log) && Enabled(s, t, step) && !step.CommitIt? && !step.Open? && t in Fire(s, t, step).txns
    requires s.db.parents == base.parents && PendingUnderCap(base, s.db, log, t, s.txns[t])
    ensures PendingUnderCap(base, s.db, NextLog(s, log, t, step), t, Fire(s, t, step).txns[t])
  {
    if step.ReadHolders? {
      assert log.order[..|log.order|] == log.order && log.order[|log.order|..] == [];
    }
  }

  lemma {:induction false} CapAlong(base: Store, s: Sys, log: Log, steps: seq<(nat, Step)>)
    requires SysOk(s) && LogOk(base, s, log) && IsRun(s, steps) && CapLogged(base, s, log, steps) && HoldsDoNotOverlap(s, steps)
    ensures OrderUnderCap(base, LogAfter(s, log, steps).order)
    decreases |steps|
  {
    if steps != [] {
      var (t, step) := steps[0];
      LogStep(base, s, log, t, step);
      if !step.CommitIt? {
        MoveKeepsCap(base, s, log, steps);
      } else if IsPlaced(s.txns[t]) {
        InsertKeepsCap(base, s, log, steps);
      } else {
        AppendKeepsCap(base, s, log, steps);
      }
      CapAlong(base, Fire(s, t, step), NextLog(s, log, t, step), steps[1..]);
    }
  }

  /** An order that passes the cap at every place runs alike whether the cap is asked or not. */
  lemma {:induction false} UnderCapRunsAlike(s: Store, order: seq<Entry>)
    requires OrderUnderCap(s, order)
    ensures Run(s, Ops(order), true) == Run(s, Ops(order), false)
    decreases |order|
  {
    if order != [] {
      var next, rest := Apply(s, order[0].op, false), order[1..];
      assert order[..0] == [] && EntryUnderCap(s, order, 0);
      assert Apply(s, order[0].op, true) == next;
      assert Ops(order)[1..] == Ops(rest);
      forall k: nat | k < |rest| ensures EntryUnderCap(next, rest, k) {
        assert EntryUnderCap(s, order, k + 1);
        assert order[..k + 1][1..] == rest[..k] && order[..k + 1][0] == order[0];
      }
      UnderCapRunsAlike(next, rest);
    }
  }

  /**
   * Every check included: while no two Holds of one parent that commit overlap
   * between counting and committing, the interleaving ends exactly where some
   * serial order of the same operations ends on the atomic repository.
   */
  lemma {:induction false} SerialInFull(base: Store, steps: seq<(nat, Step)>) returns (serial: seq<Op>)
    requires StoreOk(base) && IsRun(Sys(base, map[]), steps) && HoldsDoNotOverlap(Sys(base, map[]), steps)
    ensures IsSerialOf(base, steps, serial, true)
  {
    var start, log := Sys(base, map[]), Log([], map[]);
    LogAlong(base, start, log, steps);
    CapAlong(base, start, log, steps);
    var last := LogAfter(start, log, steps);
    serial := Ops(last.order);
    ReplayIsRun(base, last.order);
    UnderCapRunsAlike(base, last.order);
  }
}
