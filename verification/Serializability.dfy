/**
 * Every interleaving of the booking transactions ends where some serial order
 * of the same operations ends, run one at a time on the atomic repository.
 *
 * A Cancel, Fail or Expire takes its place in that order when it commits. A
 * Confirm or Hold takes its place at its last read, so a cancel that commits
 * while a confirm holds a chosen seat comes after that confirm, although it
 * commits first. The proof keeps, beside the running system, the order so far
 * and the place each undecided Confirm or Hold will be inserted at.
 */
module Serializability {
  import opened Collections
  import opened BookingStatus
  import opened BookingStore
  import opened BookingRuns
  import opened SeatTransactions

  /** An operation in the order, with the class it touched. */
  datatype Entry = Entry(op: Op, classId: string)

  datatype Log = Log(order: seq<Entry>, place: map<nat, nat>)

  function Ops(order: seq<Entry>): (ops: seq<Op>)
    ensures |ops| == |order|
  {
    seq(|order|, i requires 0 <= i < |order| => order[i].op)
  }

  /** A Confirm that committed ran without a fault. */
  function Plain(op: Op): Op {
    if op.Confirm? then op.(faults := NO_FAULTS) else op
  }

  function Replay(s: Store, order: seq<Entry>): Store
    decreases |order|
  {
    if order == [] then s else Replay(Apply(s, order[0].op, false), order[1..])
  }

  /** The tags are right at the point each operation runs, and a Hold inserts a new row. */
  ghost predicate Tagged(s: Store, order: seq<Entry>)
    decreases |order|
  {
    order == [] || (TaggedAt(s, order[0]) && Tagged(Apply(s, order[0].op, false), order[1..]))
  }

  predicate TaggedAt(s: Store, e: Entry) {
    if e.op.Hold? then e.op.request.classId == e.classId && e.op.request.bookingId !in s.bookings
    else e.op.id in s.bookings && s.bookings[e.op.id].id == e.op.id && s.bookings[e.op.id].classId == e.classId
  }

  /** The operation neither touches the row nor reads the seats or holders of its class. */
  predicate Ignores(e: Entry, c: Change) {
    e.op.Target() != c.row.id && (e.op.Hold? || e.op.Confirm? ==> e.classId != c.row.classId)
  }

  predicate AllIgnore(order: seq<Entry>, c: Change) {
    forall i :: 0 <= i < |order| ==> Ignores(order[i], c)
  }

  /** A change keeps its row in the class it was in. */
  predicate Stays(s: Store, c: Change) {
    c.row.id in s.bookings ==> s.bookings[c.row.id].classId == c.row.classId
  }

  // ---- Commuting ----

  lemma ClassUnmoved(s: Store, c: Change, classId: string)
    requires Stays(s, c) && c.row.classId != classId
    ensures SeatsTaken(Put(s, c), classId) == SeatsTaken(s, classId)
    ensures forall now :: Holders(Put(s, c), classId, now) == Holders(s, classId, now)
    ensures forall studentId :: LiveFor(Put(s, c), studentId, classId) == LiveFor(s, studentId, classId)
  {
    var t := Put(s, c);
    assert SeatedIn(t, classId) == SeatedIn(s, classId);
    assert forall id :: id in SeatedIn(s, classId) ==> t.bookings[id] == s.bookings[id];
    forall now ensures Holders(t, classId, now) == Holders(s, classId, now) {
      forall id ensures id in Holders(t, classId, now) <==> id in Holders(s, classId, now) {}
    }
    forall studentId ensures LiveFor(t, studentId, classId) == LiveFor(s, studentId, classId) {
      forall id ensures id in LiveFor(t, studentId, classId) <==> id in LiveFor(s, studentId, classId) {}
    }
  }

  /** A decision is the same before and after a change the operation ignores. */
  lemma DecidesAlike(s: Store, c: Change, e: Entry)
    requires Stays(s, c) && TaggedAt(s, e) && Ignores(e, c)
    ensures Decide(Put(s, c), e.op, false) == Decide(s, e.op, false)
    ensures TaggedAt(Put(s, c), e)
  {
    if e.op.Hold? || e.op.Confirm? {
      ClassUnmoved(s, c, e.classId);
    }
  }

  lemma WritesItsTarget(s: Store, e: Entry)
    requires TaggedAt(s, e)
    ensures var w := Decide(s, e.op, false).write;
            w.Some? ==> w.value.row.id == e.op.Target() && w.value.row.classId == e.classId
  {
  }

  lemma Swap(s: Store, c: Change, d: Change)
    requires c.row.id != d.row.id
    ensures Put(Put(s, c), d) == Put(Put(s, d), c)
  {
    var one, two := Put(Put(s, c), d), Put(Put(s, d), c);
    var b := s.bookings;
    assert b[c.row.id := c.row][d.row.id := d.row] == b[d.row.id := d.row][c.row.id := c.row];
    assert one.events[c.row.id] == two.events[c.row.id] && one.events[d.row.id] == two.events[d.row.id];
    assert one.events == two.events;
  }

  /** A change can be moved past any operations that ignore it. */
  lemma {:induction false} MovePast(s: Store, c: Change, order: seq<Entry>)
    requires Stays(s, c) && Tagged(s, order) && AllIgnore(order, c)
    ensures Replay(Put(s, c), order) == Put(Replay(s, order), c)
    ensures Tagged(Put(s, c), order)
    decreases |order|
  {
    if order != [] {
      var e := order[0];
      assert Ignores(e, c);
      DecidesAlike(s, c, e);
      WritesItsTarget(s, e);
      var next := Apply(s, e.op, false);
      var w := Decide(s, e.op, false).write;
      if w.Some? {
        Swap(s, c, w.value);
      }
      assert Apply(Put(s, c), e.op, false) == Put(next, c);
      assert Stays(next, c);
      MovePast(next, c, order[1..]);
    }
  }

  lemma {:induction false} ReplayJoin(s: Store, a: seq<Entry>, b: seq<Entry>)
    ensures Replay(s, a + b) == Replay(Replay(s, a), b)
    ensures Tagged(s, a + b) <==> Tagged(s, a) && Tagged(Replay(s, a), b)
    decreases |a|
  {
    if a == [] {
      assert a + b == b;
    } else {
      assert (a + b)[0] == a[0] && (a + b)[1..] == a[1..] + b;
      ReplayJoin(Apply(s, a[0].op, false), a[1..], b);
    }
  }

  /** At this place in the order the operation writes this change, and nothing after minds. */
  ghost predicate Inserts(s: Store, order: seq<Entry>, p: nat, e: Entry, c: Change) {
    && p <= |order| && Tagged(s, order)
    && TaggedAt(Replay(s, order[..p]), e)
    && Decide(Replay(s, order[..p]), e.op, false).write == Some(c)
    && Stays(Replay(s, order[..p]), c)
    && AllIgnore(order[p..], c)
  }

  /** Inserting an operation earlier in the order has its effect at the end. */
  lemma InsertAt(s: Store, order: seq<Entry>, p: nat, e: Entry, c: Change)
    requires Inserts(s, order, p, e, c)
    ensures Replay(s, order[..p] + [e] + order[p..]) == Put(Replay(s, order), c)
    ensures Tagged(s, order[..p] + [e] + order[p..])
  {
    var before, after := order[..p], order[p..];
    assert order == before + after;
    ReplayJoin(s, before, after);
    MovePast(Replay(s, before), c, after);
    ReplayAround(s, before, e, after);
  }

  /** One operation in the middle of an order. */
  lemma {:induction false} ReplayAround(s: Store, before: seq<Entry>, e: Entry, after: seq<Entry>)
    ensures Replay(s, before + [e] + after) == Replay(Apply(Replay(s, before), e.op, false), after)
    ensures Tagged(s, before + [e] + after) <==>
              Tagged(s, before) && TaggedAt(Replay(s, before), e) && Tagged(Apply(Replay(s, before), e.op, false), after)
  {
    var mid := Replay(s, before);
    ReplayJoin(s, before, [e] + after);
    assert before + [e] + after == before + ([e] + after);
    assert ([e] + after)[0] == e && ([e] + after)[1..] == after;
  }

  // ---- The log beside the running system ----

  /** A Confirm or Hold that has read what it decides on. */
  predicate IsPlaced(x: Txn) {
    x.Pending().Some? && (x.op.Hold? || x.op.Confirm?)
  }

  /** At its place in the order the operation decides exactly what it is about to write, and nothing after disturbs that. */
  ghost predicate PlaceOk(base: Store, order: seq<Entry>, p: nat, x: Txn)
    requires x.Pending().Some?
  {
    var c := x.Pending().value;
    && p <= |order|
    && TaggedAt(Replay(base, order[..p]), Entry(Plain(x.op), c.row.classId))
    && Decide(Replay(base, order[..p]), Plain(x.op), false).write == Some(c)
    && Stays(Replay(base, order[..p]), c)
    && AllIgnore(order[p..], c)
  }

  /** The operation, run now on the committed rows, would write exactly what it holds. */
  predicate DecidesNow(db: Store, x: Txn)
    requires x.Pending().Some?
  {
    var c := x.Pending().value;
    TaggedAt(db, Entry(x.op, c.row.classId)) && Decide(db, x.op, false).write == Some(c)
  }

  ghost predicate TxnLogged(base: Store, db: Store, log: Log, t: nat, x: Txn) {
    x.Pending().Some? ==>
      if IsPlaced(x) then t in log.place && PlaceOk(base, log.order, log.place[t], x) else DecidesNow(db, x)
  }

  ghost predicate LogOk(base: Store, s: Sys, log: Log) {
    && Replay(base, log.order) == s.db
    && Tagged(base, log.order)
    && forall t {:trigger s.txns[t]} :: t in s.txns ==> TxnLogged(base, s.db, log, t, s.txns[t])
  }

  /** The operations that committed, in the order they committed. */
  function Committed(s: Sys, steps: seq<(nat, Step)>): seq<Op>
    requires IsRun(s, steps)
    decreases |steps|
  {
    if steps == [] then []
    else
      var (t, step) := steps[0];
      (if step.CommitIt? then [Plain(s.txns[t].op)] else []) + Committed(Fire(s, t, step), steps[1..])
  }

  /** The entry a committing transaction makes in the order. */
  function EntryOf(x: Txn): Entry
    requires x.Pending().Some?
  {
    Entry(Plain(x.op), x.Pending().value.row.classId)
  }

  /** The order with an entry let in, every place after it moved up by one. */
  function Inserted(log: Log, p: nat, e: Entry): Log
    requires p <= |log.order|
  {
    Log(log.order[..p] + [e] + log.order[p..], map u | u in log.place :: if log.place[u] > p then log.place[u] + 1 else log.place[u])
  }

  /** What one step does to the log: a commit makes its entry, a last read takes its place. */
  function NextLog(s: Sys, log: Log, t: nat, step: Step): Log
    requires Enabled(s, t, step)
  {
    if step.CommitIt? then
      var e := EntryOf(s.txns[t]);
      if !IsPlaced(s.txns[t]) then log.(order := log.order + [e])
      else if t in log.place && log.place[t] <= |log.order| then Inserted(log, log.place[t], e)
      else log
    else if step.ReadHolders? || step.ReadSeats? then log.(place := log.place[t := |log.order|])
    else log
  }

  /** A committed Cancel, Fail or Expire goes at the end of the order. */
  lemma AppendOne(base: Store, s: Sys, log: Log, t: nat) returns (next: Log)
    requires SysOk(s) && LogOk(base, s, log) && Enabled(s, t, CommitIt) && !IsPlaced(s.txns[t])
    ensures next == NextLog(s, log, t, CommitIt)
    ensures LogOk(base, Fire(s, t, CommitIt), next)
    ensures multiset(Ops(next.order)) == multiset(Ops(log.order)) + multiset{Plain(s.txns[t].op)}
  {
    var x := s.txns[t];
    var c := x.phase.change;
    var e := Entry(x.op, c.row.classId);
    next := log.(order := log.order + [e]);
    assert TxnLogged(base, s.db, log, t, x);
    assert TxnOk(s.db, x);
    ReplayJoin(base, log.order, [e]);
    assert [e][1..] == [];
    assert Replay(s.db, [e]) == Put(s.db, c);
    OpsJoin(log.order, [e]);
    assert Ops([e]) == [x.op];
    var after := Fire(s, t, CommitIt);
    forall u | u in after.txns ensures TxnLogged(base, after.db, next, u, after.txns[u]) {
      var y := s.txns[u];
      assert TxnLogged(base, s.db, log, u, y) && TxnOk(s.db, y);
      assert Compatible(x, y) && Compatible(y, x);
      if IsPlaced(y) {
        TheyIgnoreEachOther(s.db, x, y);
        PlaceAfterAppend(base, log.order, log.place[u], y, e);
      } else if y.Pending().Some? {
        DecidesNowAfter(s.db, x, y);
      }
    }
  }

  lemma OpsJoin(a: seq<Entry>, b: seq<Entry>)
    ensures Ops(a + b) == Ops(a) + Ops(b)
  {
  }

  lemma PlaceAfterAppend(base: Store, order: seq<Entry>, p: nat, y: Txn, e: Entry)
    requires y.Pending().Some? && PlaceOk(base, order, p, y) && Ignores(e, y.Pending().value)
    ensures PlaceOk(base, order + [e], p, y)
  {
    assert (order + [e])[..p] == order[..p];
    assert (order + [e])[p..] == order[p..] + [e];
  }

  /** A committed Confirm or Hold goes where it last read, and every later place moves up by one. */
  lemma InsertOne(base: Store, s: Sys, log: Log, t: nat) returns (next: Log)
    requires SysOk(s) && LogOk(base, s, log) && Enabled(s, t, CommitIt) && IsPlaced(s.txns[t])
    ensures next == NextLog(s, log, t, CommitIt)
    ensures LogOk(base, Fire(s, t, CommitIt), next)
    ensures multiset(Ops(next.order)) == multiset(Ops(log.order)) + multiset{Plain(s.txns[t].op)}
  {
    var x := s.txns[t];
    var c := x.phase.change;
    var e := Entry(Plain(x.op), c.row.classId);
    assert TxnLogged(base, s.db, log, t, x);
    assert TxnOk(s.db, x);
    var p := log.place[t];
    var order := log.order[..p] + [e] + log.order[p..];
    next := Log(order, map u | u in log.place :: if log.place[u] > p then log.place[u] + 1 else log.place[u]);
    InsertAt(base, log.order, p, e, c);
    OpsInsert(log.order, p, e);
    var after := Fire(s, t, CommitIt);
    forall u | u in after.txns ensures TxnLogged(base, after.db, next, u, after.txns[u]) {
      StillLogged(base, s, log, t, u, next);
    }
  }

  lemma StillLogged(base: Store, s: Sys, log: Log, t: nat, u: nat, next: Log)
    requires SysOk(s) && LogOk(base, s, log) && Enabled(s, t, CommitIt) && IsPlaced(s.txns[t])
    requires u in s.txns && u != t && t in log.place && log.place[t] <= |log.order|
    requires next.order == log.order[..log.place[t]] + [Entry(Plain(s.txns[t].op), s.txns[t].phase.change.row.classId)]
                           + log.order[log.place[t]..]
    requires next.place == map v | v in log.place :: if log.place[v] > log.place[t] then log.place[v] + 1 else log.place[v]
    ensures TxnLogged(base, Put(s.db, s.txns[t].phase.change), next, u, s.txns[u])
  {
    var x, y := s.txns[t], s.txns[u];
    assert TxnLogged(base, s.db, log, t, x) && TxnLogged(base, s.db, log, u, y);
    assert TxnOk(s.db, x) && TxnOk(s.db, y) && Compatible(x, y) && Compatible(y, x);
    if IsPlaced(y) {
      TheyIgnoreEachOther(s.db, x, y);
      PlacedStaysPlaced(base, log, t, x, u, y);
    } else if y.Pending().Some? {
      DecidesNowAfter(s.db, x, y);
    }
  }

  lemma PlacedStaysPlaced(base: Store, log: Log, t: nat, x: Txn, u: nat, y: Txn)
    requires Tagged(base, log.order) && t in log.place && u in log.place
    requires x.Pending().Some? && PlaceOk(base, log.order, log.place[t], x)
    requires y.Pending().Some? && PlaceOk(base, log.order, log.place[u], y)
    requires Ignores(Entry(Plain(x.op), x.Pending().value.row.classId), y.Pending().value)
    requires Ignores(Entry(Plain(y.op), y.Pending().value.row.classId), x.Pending().value)
    ensures var p, q := log.place[t], log.place[u];
            && p <= |log.order|
            && PlaceOk(base, log.order[..p] + [Entry(Plain(x.op), x.Pending().value.row.classId)] + log.order[p..], if q > p then q + 1 else q, y)
  {
    var c := x.Pending().value;
    PlaceAfterInsert(base, log.order, log.place[t], Entry(Plain(x.op), c.row.classId), c, log.place[u], y);
  }

  /** Two transactions about to write never read what the other writes. */
  lemma TheyIgnoreEachOther(db: Store, x: Txn, y: Txn)
    requires TxnOk(db, x) && TxnOk(db, y) && Compatible(x, y) && Compatible(y, x)
    requires x.phase.Written? && y.Pending().Some?
    ensures Ignores(Entry(Plain(x.op), x.phase.change.row.classId), y.Pending().value)
         || !(IsPlaced(x) && IsPlaced(y))
    ensures IsPlaced(x) && IsPlaced(y) ==> Ignores(Entry(Plain(y.op), y.Pending().value.row.classId), x.phase.change)
    ensures y.Pending().value.row.id != x.phase.change.row.id
  {
  }

  lemma DecidesNowAfter(db: Store, x: Txn, y: Txn)
    requires StoreOk(db) && TxnOk(db, x) && TxnOk(db, y) && Compatible(x, y) && Compatible(y, x)
    requires x.phase.Written? && y.Pending().Some? && !IsPlaced(y) && DecidesNow(db, y)
    ensures DecidesNow(Put(db, x.phase.change), y)
  {
    TheyIgnoreEachOther(db, x, y);
    DecidesAlike(db, x.phase.change, Entry(y.op, y.Pending().value.row.classId));
  }

  lemma OpsInsert(order: seq<Entry>, p: nat, e: Entry)
    requires p <= |order|
    ensures multiset(Ops(order[..p] + [e] + order[p..])) == multiset(Ops(order)) + multiset{e.op}
  {
    OpsJoin(order[..p] + [e], order[p..]);
    OpsJoin(order[..p], [e]);
    OpsJoin(order[..p], order[p..]);
    assert order == order[..p] + order[p..];
    assert Ops([e]) == [e.op];
  }

  /** Operations that ignore a row leave it in its class. */
  lemma {:induction false} StaysAlong(s: Store, order: seq<Entry>, c: Change)
    requires Stays(s, c) && Tagged(s, order) && AllIgnore(order, c)
    ensures Stays(Replay(s, order), c)
    decreases |order|
  {
    if order != [] {
      assert Ignores(order[0], c);
      WritesItsTarget(s, order[0]);
      StaysAlong(Apply(s, order[0].op, false), order[1..], c);
    }
  }

  lemma StaysLater(base: Store, order: seq<Entry>, p: nat, c: Change)
    requires p <= |order| && Tagged(base, order)
    requires Stays(Replay(base, order[..p]), c) && AllIgnore(order[p..], c)
    ensures Stays(Replay(base, order), c)
  {
    assert order == order[..p] + order[p..];
    ReplayJoin(base, order[..p], order[p..]);
    StaysAlong(Replay(base, order[..p]), order[p..], c);
  }

  /** A place before the insertion stays where it is; what follows it grew by one. */
  lemma PlaceBeforeInsert(base: Store, order: seq<Entry>, p: nat, e: Entry, q: nat, y: Txn)
    requires q <= p <= |order|
    requires y.Pending().Some? && PlaceOk(base, order, q, y) && Ignores(e, y.Pending().value)
    ensures PlaceOk(base, order[..p] + [e] + order[p..], q, y)
  {
    var longer := order[..p] + [e] + order[p..];
    assert longer[..q] == order[..q];
    assert longer[q..] == order[q..][..p - q] + [e] + order[q..][p - q..];
  }

  /** The store at a later place differs by exactly the inserted change. */
  lemma LaterStore(base: Store, order: seq<Entry>, p: nat, e: Entry, c: Change, q: nat)
    requires p < q <= |order| && Inserts(base, order, p, e, c)
    ensures var longer := order[..p] + [e] + order[p..];
            && Replay(base, longer[..q + 1]) == Put(Replay(base, order[..q]), c)
            && longer[q + 1..] == order[q..]
    ensures Stays(Replay(base, order[..q]), c)
  {
    var longer := order[..p] + [e] + order[p..];
    var cut := order[..q];
    assert cut[..p] == order[..p] && cut[p..] == order[p..][..q - p];
    assert longer[..q + 1] == cut[..p] + [e] + cut[p..];
    assert order == cut + order[q..];
    ReplayJoin(base, cut, order[q..]);
    InsertAt(base, cut, p, e, c);
    StaysLater(base, cut, p, c);
  }

  /** Another pending Confirm or Hold, of another class, keeps its footing. */
  lemma PlaceAfterInsert(base: Store, order: seq<Entry>, p: nat, e: Entry, c: Change, q: nat, y: Txn)
    requires Inserts(base, order, p, e, c)
    requires y.Pending().Some? && PlaceOk(base, order, q, y)
    requires Ignores(e, y.Pending().value)
    requires Ignores(Entry(Plain(y.op), y.Pending().value.row.classId), c)
    ensures PlaceOk(base, order[..p] + [e] + order[p..], if q > p then q + 1 else q, y)
  {
    if q <= p {
      PlaceBeforeInsert(base, order, p, e, q, y);
    } else {
      LaterStore(base, order, p, e, c, q);
      PlacePastInsert(base, order, order[..p] + [e] + order[p..], c, q, y);
    }
  }

  lemma PlacePastInsert(base: Store, order: seq<Entry>, longer: seq<Entry>, c: Change, q: nat, y: Txn)
    requires y.Pending().Some? && PlaceOk(base, order, q, y) && q + 1 <= |longer|
    requires Replay(base, longer[..q + 1]) == Put(Replay(base, order[..q]), c) && longer[q + 1..] == order[q..]
    requires Stays(Replay(base, order[..q]), c) && y.Pending().value.row.id != c.row.id
    requires Ignores(Entry(Plain(y.op), y.Pending().value.row.classId), c)
    ensures PlaceOk(base, longer, q + 1, y)
  {
    DecidesAlike(Replay(base, order[..q]), c, Entry(Plain(y.op), y.Pending().value.row.classId));
  }

  /** Steps that commit nothing leave the order alone; the last read fixes a place at its end. */
  lemma KeepOrder(base: Store, s: Sys, log: Log, t: nat, step: Step) returns (next: Log)
    requires SysOk(s) && LogOk(base, s, log) && Enabled(s, t, step) && !step.CommitIt?
    ensures next == NextLog(s, log, t, step)
    ensures LogOk(base, Fire(s, t, step), next) && next.order == log.order
  {
    next := log;
    if step.ReadHolders? || step.ReadSeats? {
      next := log.(place := log.place[t := |log.order|]);
    }
    var after := Fire(s, t, step);
    forall u | u in after.txns ensures TxnLogged(base, after.db, next, u, after.txns[u]) {
      if u != t {
        assert TxnLogged(base, s.db, log, u, s.txns[u]);
      } else if !step.Open? {
        assert TxnLogged(base, s.db, log, t, s.txns[t]);
        assert TxnOk(s.db, s.txns[t]);
        FreshlyDecided(base, s, log, t, step, next);
      }
    }
  }

  lemma FreshlyDecided(base: Store, s: Sys, log: Log, t: nat, step: Step, next: Log)
    requires SysOk(s) && LogOk(base, s, log) && Enabled(s, t, step) && !step.CommitIt? && !step.Open?
    requires TxnLogged(base, s.db, log, t, s.txns[t]) && TxnOk(s.db, s.txns[t])
    requires next == if step.ReadHolders? || step.ReadSeats? then log.(place := log.place[t := |log.order|]) else log
    requires t in Fire(s, t, step).txns
    ensures TxnLogged(base, s.db, next, t, Fire(s, t, step).txns[t])
  {
    var y := Fire(s, t, step).txns[t];
    if step.ReadHolders? {
      HolderReadDecides(s, t);
      PlacedAtEnd(base, log.order, y);
    } else if step.ReadSeats? {
      SeatReadDecides(s, t);
      PlacedAtEnd(base, log.order, y);
    } else if step.LockBooking? {
      LockDecides(s, t);
    }
  }

  lemma PlacedAtEnd(base: Store, order: seq<Entry>, y: Txn)
    requires y.Pending().Some?
    requires TaggedAt(Replay(base, order), Entry(Plain(y.op), y.Pending().value.row.classId))
    requires Decide(Replay(base, order), Plain(y.op), false).write == y.Pending()
    requires Stays(Replay(base, order), y.Pending().value)
    ensures PlaceOk(base, order, |order|, y)
  {
    assert order[..|order|] == order && order[|order|..] == [];
  }

  lemma HolderReadDecides(s: Sys, t: nat)
    requires SysOk(s) && Enabled(s, t, ReadHolders) && t in Fire(s, t, ReadHolders).txns
    ensures var y := Fire(s, t, ReadHolders).txns[t];
            && y.Pending().Some? && IsPlaced(y)
            && TaggedAt(s.db, Entry(Plain(y.op), y.Pending().value.row.classId))
            && Decide(s.db, Plain(y.op), false).write == y.Pending()
            && Stays(s.db, y.Pending().value)
  {
    assert TxnOk(s.db, s.txns[t]);
  }

  lemma SeatReadDecides(s: Sys, t: nat)
    requires SysOk(s) && Enabled(s, t, ReadSeats) && t in Fire(s, t, ReadSeats).txns
    ensures var y := Fire(s, t, ReadSeats).txns[t];
            && y.Pending().Some? && IsPlaced(y)
            && TaggedAt(s.db, Entry(Plain(y.op), y.Pending().value.row.classId))
            && Decide(s.db, Plain(y.op), false).write == y.Pending()
            && Stays(s.db, y.Pending().value)
  {
    assert TxnOk(s.db, s.txns[t]);
    assert EntryOk(s.db, s.txns[t].op.id);
  }

  lemma LockDecides(s: Sys, t: nat)
    requires SysOk(s) && Enabled(s, t, LockBooking) && t in Fire(s, t, LockBooking).txns
    ensures var y := Fire(s, t, LockBooking).txns[t];
            y.Pending().Some? ==> !IsPlaced(y) && DecidesNow(s.db, y)
  {
    assert EntryOk(s.db, s.txns[t].op.id);
  }

  /** One step keeps the log true, and enters exactly what it commits. */
  lemma LogStep(base: Store, s: Sys, log: Log, t: nat, step: Step)
    requires SysOk(s) && LogOk(base, s, log) && Enabled(s, t, step)
    ensures SysOk(Fire(s, t, step)) && LogOk(base, Fire(s, t, step), NextLog(s, log, t, step))
    ensures multiset(Ops(NextLog(s, log, t, step).order))
            == multiset(Ops(log.order)) + if step.CommitIt? then multiset{Plain(s.txns[t].op)} else multiset{}
  {
    FireKeeps(s, t, step);
    if !step.CommitIt? {
      var _ := KeepOrder(base, s, log, t, step);
    } else if IsPlaced(s.txns[t]) {
      var _ := InsertOne(base, s, log, t);
    } else {
      var _ := AppendOne(base, s, log, t);
    }
  }

  function LogAfter(s: Sys, log: Log, steps: seq<(nat, Step)>): Log
    requires IsRun(s, steps)
    decreases |steps|
  {
    if steps == [] then log
    else LogAfter(Fire(s, steps[0].0, steps[0].1), NextLog(s, log, steps[0].0, steps[0].1), steps[1..])
  }

  lemma {:induction false} LogAlong(base: Store, s: Sys, log: Log, steps: seq<(nat, Step)>)
    requires SysOk(s) && LogOk(base, s, log) && IsRun(s, steps)
    ensures LogOk(base, Exec(s, steps), LogAfter(s, log, steps))
    ensures multiset(Ops(LogAfter(s, log, steps).order)) == multiset(Ops(log.order)) + multiset(Committed(s, steps))
    decreases |steps|
  {
    if steps != [] {
      var (t, step) := steps[0];
      LogStep(base, s, log, t, step);
      LogAlong(base, Fire(s, t, step), NextLog(s, log, t, step), steps[1..]);
    }
  }

  lemma {:induction false} ReplayIsRun(s: Store, order: seq<Entry>)
    ensures Replay(s, order) == Run(s, Ops(order), false)
    decreases |order|
  {
    if order != [] {
      assert Ops(order)[1..] == Ops(order[1..]);
      ReplayIsRun(Apply(s, order[0].op, false), order[1..]);
    }
  }

  /** Exactly the committed operations and, run one at a time, exactly where the steps ended. */
  ghost predicate IsSerialOf(base: Store, steps: seq<(nat, Step)>, serial: seq<Op>, capped: bool)
    requires IsRun(Sys(base, map[]), steps)
  {
    && multiset(serial) == multiset(Committed(Sys(base, map[]), steps))
    && Run(base, serial, capped) == Exec(Sys(base, map[]), steps).db
  }

  /**
   * Serializability. Start with no transaction under way. However the steps of
   * the five kinds of transaction interleave and wherever some of them die,
   * there is an order of exactly the committed operations that, run one at a
   * time on the atomic repository, ends with the same statuses, the same seats,
   * the same stamps and the same trails. A Hold's cap is the one check not
   * promised to agree, since it counts across classes and locks only one.
   */
  lemma {:induction false} EveryInterleavingIsSerial(base: Store, steps: seq<(nat, Step)>) returns (serial: seq<Op>)
    requires StoreOk(base) && IsRun(Sys(base, map[]), steps)
    ensures IsSerialOf(base, steps, serial, false)
  {
    LogAlong(base, Sys(base, map[]), Log([], map[]), steps);
    serial := Ops(LogAfter(Sys(base, map[]), Log([], map[]), steps).order);
    ReplayIsRun(base, LogAfter(Sys(base, map[]), Log([], map[]), steps).order);
  }
}
