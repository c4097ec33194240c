/**
 * Rotation as transactions: the presented row is locked before it is judged,
 * the family is ended by one update whose rows were chosen when it began, and
 * any transaction may die before it commits.
 *
 * Every statement sees what is committed as it starts. The family update waits
 * for each row it chose and looks at that row again once it has it; rows that
 * appeared since are not among them.
 */
module RefreshTransactions {
  import opened Collections
  import opened BookingStatus
  import opened RefreshTokens

  datatype Op = Rotate(request: RotateRequest) | EndFamily(familyId: string, endedAt: Instant) {
    function Now(): Instant {
      if Rotate? then request.now else endedAt
    }
  }

  datatype Phase =
    | Opened
    | Holding(row: Record)
    | Spent(row: Record)
    | Replaced(row: Record, next: Record)
    | Reused(family: string)
    | Sweeping(family: string, targets: set<Hash>, todo: set<Hash>, stamped: set<Hash>)

  datatype Txn = Txn(op: Op, phase: Phase, rowLock: Option<Hash>) {
    function Locks(): set<Hash> {
      (if rowLock.Some? then {rowLock.value} else {}) + (if phase.Sweeping? then phase.stamped else {})
    }
  }

  /** The committed rows, the transactions under way, and every token a committed rotation spent. */
  datatype Sys = Sys(db: Table, txns: map<nat, Txn>, rotated: seq<Hash>)

  datatype Step =
    | Issue(issue: IssueRequest)
    | Open(op: Op)
    | LockRow | StampRow | InsertNext
    | StartSweep | SweepRow(hash: Hash)
    | CommitIt | Rollback

  predicate IsFree(s: Sys, t: nat, h: Hash) {
    forall u :: u in s.txns && u != t ==> h !in s.txns[u].Locks()
  }

  /** A hash nobody has and nobody is about to write. */
  predicate IsMinted(s: Sys, h: Hash) {
    h !in s.db && forall u :: u in s.txns && s.txns[u].op.Rotate? ==> s.txns[u].op.request.nextHash != h
  }

  /** Hashes and families are minted fresh; calls whose request is malformed open nothing. */
  predicate Enabled(s: Sys, t: nat, step: Step) {
    match step
    case Issue(r) => r.IsValid() && IsMinted(s, r.tokenHash) && forall h :: h in s.db ==> s.db[h].familyId != r.familyId
    case Open(op) =>
      && t !in s.txns
      && (op.Rotate? ==> op.request.IsValid() && IsMinted(s, op.request.nextHash))
      && (op.EndFamily? ==> op.familyId != "" && op.endedAt != ZERO)
    case _ => t in s.txns && FitsPhase(s.txns[t], step) && (WantsLock(s.txns[t], step).Some? ==> IsFree(s, t, WantsLock(s.txns[t], step).value))
  }

  predicate FitsPhase(x: Txn, step: Step) {
    match step
    case LockRow => x.phase.Opened? && x.op.Rotate?
    case StampRow => x.phase.Holding?
    case InsertNext => x.phase.Spent? && x.op.Rotate?
    case StartSweep => x.phase.Reused? || (x.phase.Opened? && x.op.EndFamily?)
    case SweepRow(h) => x.phase.Sweeping? && h in x.phase.todo
    case CommitIt => (x.phase.Replaced? && x.op.Rotate?) || (x.phase.Sweeping? && x.phase.todo == {})
    case _ => true
  }

  /** The row a statement has to wait for. */
  function WantsLock(x: Txn, step: Step): Option<Hash> {
    if step.LockRow? && x.op.Rotate? then Some(x.op.request.presented)
    else if step.SweepRow? then Some(step.hash)
    else None
  }

  function Ended(s: Sys, t: nat): Sys {
    s.(txns := s.txns - {t})
  }

  function Moved(s: Sys, t: nat, x: Txn): Sys {
    s.(txns := s.txns[t := x])
  }

  function AfterLock(s: Sys, t: nat, x: Txn): Sys
    requires x.op.Rotate?
  {
    var r := x.op.request;
    if r.presented !in s.db then Ended(s, t)
    else
      var row := s.db[r.presented];
      var held := x.(rowLock := Some(r.presented));
      if row.IsRevoked() then Moved(s, t, held.(phase := Reused(row.familyId)))
      else if row.IsExpired(r.now) then Ended(s, t)
      else Moved(s, t, held.(phase := Holding(row)))
  }

  function AfterSweepRow(db: Table, p: Phase, h: Hash): Phase
    requires p.Sweeping?
  {
    if h in db && !db[h].IsRevoked() then p.(todo := p.todo - {h}, stamped := p.stamped + {h}) else p.(todo := p.todo - {h})
  }

  function AfterCommit(s: Sys, t: nat, x: Txn): Sys
    requires (x.phase.Replaced? && x.op.Rotate?) || x.phase.Sweeping?
  {
    match x.phase
    case Sweeping(_, _, _, stamped) => Ended(s, t).(db := Stamped(s.db, stamped, x.op.Now()))
    case Replaced(row, next) =>
      var r := x.op.request;
      Ended(s, t).(db := s.db[r.presented := row.(revokedAt := r.now)][r.nextHash := next], rotated := s.rotated + [r.presented])
  }

  function Fire(s: Sys, t: nat, step: Step): Sys
    requires Enabled(s, t, step)
  {
    match step
    case Issue(r) => s.(db := s.db[r.tokenHash := Issued(r)])
    case Open(op) => Moved(s, t, Txn(op, Opened, None))
    case LockRow => AfterLock(s, t, s.txns[t])
    case StampRow => Moved(s, t, s.txns[t].(phase := Spent(s.txns[t].phase.row)))
    case InsertNext =>
      var x := s.txns[t];
      if x.op.request.nextHash in s.db then Ended(s, t)
      else Moved(s, t, x.(phase := Replaced(x.phase.row, Successor(x.phase.row, x.op.request))))
    case StartSweep =>
      var x := s.txns[t];
      var family := if x.phase.Reused? then x.phase.family else x.op.familyId;
      Moved(s, t, x.(phase := Sweeping(family, LiveIn(s.db, family), LiveIn(s.db, family), {})))
    case SweepRow(h) => Moved(s, t, s.txns[t].(phase := AfterSweepRow(s.db, s.txns[t].phase, h)))
    case CommitIt => AfterCommit(s, t, s.txns[t])
    case Rollback => Ended(s, t)
  }

  // ---- The invariant ----

  /** One live token to a family at most, one parent to a family. */
  predicate PairOk(a: Record, b: Record) {
    a.familyId == b.familyId ==> a.parentId == b.parentId && (a.IsRevoked() || b.IsRevoked())
  }

  ghost predicate TableOk(db: Table) {
    && (forall h :: h in db ==> db[h].tokenHash == h)
    && (forall h, k {:trigger PairOk(db[h], db[k])} :: h in db && k in db && h != k ==> PairOk(db[h], db[k]))
  }

  predicate HoldsLive(db: Table, x: Txn, row: Record) {
    && x.op.Rotate? && x.rowLock == Some(x.op.request.presented)
    && x.op.request.presented in db && db[x.op.request.presented] == row
    && !row.IsRevoked() && !row.IsExpired(x.op.request.now)
  }

  /** What is left of a sweep: rows chosen are live and locked, or still to look at, or were found revoked. */
  predicate SweepOk(db: Table, p: Phase)
    requires p.Sweeping?
  {
    && p.targets <= db.Keys && p.todo <= p.targets && p.stamped <= p.targets && p.todo !! p.stamped
    && (forall h :: h in p.targets ==> db[h].familyId == p.family)
    && (forall h :: h in p.stamped ==> !db[h].IsRevoked())
    && (forall h :: h in p.targets && h !in p.todo && h !in p.stamped ==> db[h].IsRevoked())
  }

  predicate TxnOk(db: Table, x: Txn) {
    && (x.op.Rotate? ==> x.op.request.IsValid() && x.op.request.nextHash !in db)
    && x.op.Now() != ZERO
    && match x.phase
       case Opened => x.rowLock.None?
       case Holding(row) => HoldsLive(db, x, row)
       case Spent(row) => HoldsLive(db, x, row)
       case Replaced(row, next) => HoldsLive(db, x, row) && next == Successor(row, x.op.request)
       case Reused(_) => x.op.Rotate?
       case Sweeping(_, _, _, _) => SweepOk(db, x.phase)
  }

  predicate Compatible(x: Txn, y: Txn) {
    x.Locks() !! y.Locks() && (x.op.Rotate? && y.op.Rotate? ==> x.op.request.nextHash != y.op.request.nextHash)
  }

  predicate RotatedOk(s: Sys) {
    && (forall i :: 0 <= i < |s.rotated| ==> s.rotated[i] in s.db && s.db[s.rotated[i]].IsRevoked())
    && (forall i, j :: 0 <= i < j < |s.rotated| ==> s.rotated[i] != s.rotated[j])
  }

  ghost predicate SysOk(s: Sys) {
    && TableOk(s.db)
    && RotatedOk(s)
    && (forall t {:trigger TxnOk(s.db, s.txns[t])} :: t in s.txns ==> TxnOk(s.db, s.txns[t]))
    && (forall t, u {:trigger Compatible(s.txns[t], s.txns[u])} ::
         t in s.txns && u in s.txns && t != u ==> Compatible(s.txns[t], s.txns[u]))
  }

  /** Rows stay, keep their owner and family, and a stamp once set is never changed. */
  predicate Keeps(before: Table, after: Table) {
    forall h :: h in before ==>
      && h in after && after[h].familyId == before[h].familyId && after[h].parentId == before[h].parentId
      && (before[h].IsRevoked() ==> after[h] == before[h])
  }

  // ---- Each step keeps it ----

  /** A commit leaves every other transaction its footing: it changes only rows it has locked, and adds only its own. */
  lemma OthersKeepFooting(db: Table, after: Table, y: Txn)
    requires TxnOk(db, y) && Keeps(db, after)
    requires forall h :: h in y.Locks() && h in db ==> after[h] == db[h]
    requires y.op.Rotate? ==> y.op.request.nextHash !in after
    ensures TxnOk(after, y)
  {
  }

  lemma StampKeeps(db: Table, stamped: set<Hash>, now: Instant)
    requires TableOk(db) && now != ZERO && forall h :: h in stamped ==> h in db && !db[h].IsRevoked()
    ensures TableOk(Stamped(db, stamped, now)) && Keeps(db, Stamped(db, stamped, now))
  {
    var after := Stamped(db, stamped, now);
    forall h, k | h in after && k in after && h != k ensures PairOk(after[h], after[k]) {
      assert PairOk(db[h], db[k]);
    }
  }

  lemma ReplaceKeeps(db: Table, row: Record, r: RotateRequest)
    requires TableOk(db) && r.IsValid() && r.presented in db && db[r.presented] == row && !row.IsRevoked() && r.nextHash !in db
    ensures var after := db[r.presented := row.(revokedAt := r.now)][r.nextHash := Successor(row, r)];
            TableOk(after) && Keeps(db, after)
  {
    var after := db[r.presented := row.(revokedAt := r.now)][r.nextHash := Successor(row, r)];
    forall h, k | h in after && k in after && h != k ensures PairOk(after[h], after[k]) {
      assert h in db && k in db ==> PairOk(db[h], db[k]);
      assert h in db && h != r.presented ==> PairOk(db[h], db[r.presented]);
      assert k in db && k != r.presented ==> PairOk(db[r.presented], db[k]);
    }
  }

  lemma CommitKeeps(s: Sys, t: nat)
    requires SysOk(s) && Enabled(s, t, CommitIt)
    ensures SysOk(Fire(s, t, CommitIt)) && Keeps(s.db, Fire(s, t, CommitIt).db)
  {
    var x := s.txns[t];
    var after := Fire(s, t, CommitIt);
    assert TxnOk(s.db, x);
    if x.phase.Sweeping? {
      StampKeeps(s.db, x.phase.stamped, x.op.Now());
    } else {
      ReplaceKeeps(s.db, x.phase.row, x.op.request);
    }
    forall u | u in after.txns ensures TxnOk(after.db, after.txns[u]) {
      var y := s.txns[u];
      assert TxnOk(s.db, y) && Compatible(x, y) && Compatible(y, x);
      OthersKeepFooting(s.db, after.db, y);
    }
    forall u, v | u in after.txns && v in after.txns && u != v ensures Compatible(after.txns[u], after.txns[v]) {
      assert Compatible(s.txns[u], s.txns[v]);
    }
  }

  lemma EndKeeps(s: Sys, t: nat)
    requires SysOk(s)
    ensures SysOk(Ended(s, t))
  {
    var after := Ended(s, t);
    forall u | u in after.txns ensures TxnOk(after.db, after.txns[u]) {
      assert TxnOk(s.db, s.txns[u]);
    }
    forall u, v | u in after.txns && v in after.txns && u != v ensures Compatible(after.txns[u], after.txns[v]) {
      assert Compatible(s.txns[u], s.txns[v]);
    }
  }

  lemma MoveKeeps(s: Sys, t: nat, x: Txn)
    requires SysOk(s) && TxnOk(s.db, x)
    requires forall u :: u in s.txns && u != t ==> Compatible(x, s.txns[u]) && Compatible(s.txns[u], x)
    ensures SysOk(Moved(s, t, x))
  {
    var after := Moved(s, t, x);
    forall u | u in after.txns ensures TxnOk(after.db, after.txns[u]) {
      assert u != t ==> TxnOk(s.db, s.txns[u]);
    }
    forall u, v | u in after.txns && v in after.txns && u != v ensures Compatible(after.txns[u], after.txns[v]) {
      assert u != t && v != t ==> Compatible(s.txns[u], s.txns[v]);
    }
  }

  lemma IssueKeeps(s: Sys, t: nat, r: IssueRequest)
    requires SysOk(s) && Enabled(s, t, Issue(r))
    ensures SysOk(Fire(s, t, Issue(r))) && Keeps(s.db, Fire(s, t, Issue(r)).db)
  {
    var after := Fire(s, t, Issue(r));
    forall h, k | h in after.db && k in after.db && h != k ensures PairOk(after.db[h], after.db[k]) {
      assert h in s.db && k in s.db ==> PairOk(s.db[h], s.db[k]);
    }
    forall u | u in after.txns ensures TxnOk(after.db, after.txns[u]) {
      assert TxnOk(s.db, s.txns[u]);
      OthersKeepFooting(s.db, after.db, s.txns[u]);
    }
    forall u, v | u in after.txns && v in after.txns && u != v ensures Compatible(after.txns[u], after.txns[v]) {
      assert Compatible(s.txns[u], s.txns[v]);
    }
  }

  /** A step that moves one transaction along takes only a free lock and leaves it on firm footing. */
  lemma FiredIsOk(s: Sys, t: nat, step: Step)
    requires SysOk(s) && Enabled(s, t, step) && !step.Issue? && !step.CommitIt?
    requires t in Fire(s, t, step).txns
    ensures TxnOk(s.db, Fire(s, t, step).txns[t])
    ensures forall u :: u in s.txns && u != t ==>
              Compatible(Fire(s, t, step).txns[t], s.txns[u]) && Compatible(s.txns[u], Fire(s, t, step).txns[t])
  {
    if !step.Open? {
      assert TxnOk(s.db, s.txns[t]);
    }
    forall u | u in s.txns && u != t
      ensures Compatible(Fire(s, t, step).txns[t], s.txns[u]) && Compatible(s.txns[u], Fire(s, t, step).txns[t])
    {
      assert !step.Open? ==> Compatible(s.txns[t], s.txns[u]) && Compatible(s.txns[u], s.txns[t]);
    }
  }

  lemma FireKeeps(s: Sys, t: nat, step: Step)
    requires SysOk(s) && Enabled(s, t, step)
    ensures SysOk(Fire(s, t, step)) && Keeps(s.db, Fire(s, t, step).db)
  {
    if step.Issue? {
      IssueKeeps(s, t, step.issue);
    } else if step.CommitIt? {
      CommitKeeps(s, t);
    } else if t in Fire(s, t, step).txns {
      FiredIsOk(s, t, step);
      MoveKeeps(s, t, Fire(s, t, step).txns[t]);
    } else {
      EndKeeps(s, t);
    }
  }

  // ---- Runs ----

  predicate IsRun(s: Sys, steps: seq<(nat, Step)>)
    decreases |steps|
  {
    steps == [] || (Enabled(s, steps[0].0, steps[0].1) && IsRun(Fire(s, steps[0].0, steps[0].1), steps[1..]))
  }

  function Exec(s: Sys, steps: seq<(nat, Step)>): Sys
    requires IsRun(s, steps)
    decreases |steps|
  {
    if steps == [] then s else Exec(Fire(s, steps[0].0, steps[0].1), steps[1..])
  }

  lemma KeepsOn(a: Table, b: Table, c: Table)
    requires Keeps(a, b) && Keeps(b, c)
    ensures Keeps(a, c)
  {
  }

  /** Every interleaving keeps the invariant, every row and every stamp. */
  lemma {:induction false} EveryInterleavingKeeps(s: Sys, steps: seq<(nat, Step)>)
    requires SysOk(s) && IsRun(s, steps)
    ensures SysOk(Exec(s, steps)) && Keeps(s.db, Exec(s, steps).db)
    decreases |steps|
  {
    if steps != [] {
      var next := Fire(s, steps[0].0, steps[0].1);
      FireKeeps(s, steps[0].0, steps[0].1);
      EveryInterleavingKeeps(next, steps[1..]);
      KeepsOn(s.db, next.db, Exec(s, steps).db);
    }
  }

  /** However rotations race: a family has one live token at most, and no token is spent by two of them. */
  lemma OneLiveAndSpentOnce(s: Sys, steps: seq<(nat, Step)>, familyId: string)
    requires SysOk(s) && IsRun(s, steps)
    ensures |LiveIn(Exec(s, steps).db, familyId)| <= 1
    ensures var rotated := Exec(s, steps).rotated; forall i, j :: 0 <= i < j < |rotated| ==> rotated[i] != rotated[j]
  {
    EveryInterleavingKeeps(s, steps);
    var db := Exec(s, steps).db;
    var live := LiveIn(db, familyId);
    if h :| h in live {
      forall k | k in live ensures k in {h} {
        assert k != h ==> PairOk(db[h], db[k]);
      }
      SizeOfSubset(live, {h});
    }
  }

  // ---- Against the atomic store ----

  /** A rotation that commits does, at that instant, exactly what the atomic rotation does. */
  lemma RotationIsAtomic(s: Sys, t: nat)
    requires SysOk(s) && Enabled(s, t, CommitIt) && s.txns[t].phase.Replaced?
    ensures var r := s.txns[t].op.request;
            RotateAnswer(s.db, r).Written? && Fire(s, t, CommitIt).db == RotateTable(s.db, r)
  {
    assert TxnOk(s.db, s.txns[t]);
  }

  /**
   * Ending a family does what the atomic store does exactly when nothing in it
   * came alive since the update began; whatever did is what is left alive.
   */
  lemma SweepIsAtomicExactly(s: Sys, t: nat)
    requires SysOk(s) && Enabled(s, t, CommitIt) && s.txns[t].phase.Sweeping?
    ensures var p := s.txns[t].phase;
            var after := Fire(s, t, CommitIt).db;
            && LiveIn(after, p.family) == LiveIn(s.db, p.family) - p.targets
            && (LiveIn(s.db, p.family) <= p.targets <==> LiveIn(after, p.family) == {})
            && (LiveIn(s.db, p.family) <= p.targets <==> after == FamilyEnded(s.db, p.family, s.txns[t].op.Now()))
  {
    var x := s.txns[t];
    var p := x.phase;
    assert TxnOk(s.db, x);
    var after := Fire(s, t, CommitIt).db;
    assert LiveIn(after, p.family) == LiveIn(s.db, p.family) - p.targets;
    var ended := FamilyEnded(s.db, p.family, x.op.Now());
    if LiveIn(s.db, p.family) <= p.targets {
      assert p.stamped == LiveIn(s.db, p.family);
    } else {
      var h :| h in LiveIn(s.db, p.family) && h !in p.targets;
      assert after[h] == s.db[h] && ended[h].IsRevoked();
    }
  }

  /**
   * The race that leaves a token alive: a rotation already under way on the
   * family's live token commits after a reuse has begun ending the family. The
   * update finds its one row spent, and the successor was never among its rows.
   */
  lemma SuccessorSlipsPast(s: Sys, t: nat, u: nat)
    requires SysOk(s) && t in s.txns && u in s.txns && t != u
    requires s.txns[t].op.Rotate? && s.txns[t].phase.Replaced?
    requires s.txns[u].phase.Reused? && s.txns[u].phase.family == s.txns[t].phase.row.familyId
    ensures var presented, next := s.txns[t].op.request.presented, s.txns[t].op.request.nextHash;
            var race := [(u, StartSweep), (t, CommitIt), (u, SweepRow(presented)), (u, CommitIt)];
            && IsRun(s, race)
            && LiveIn(Exec(s, race).db, s.txns[u].phase.family) == {next}
  {
    var presented, next := s.txns[t].op.request.presented, s.txns[t].op.request.nextHash;
    var a, b, c, d := (u, StartSweep), (t, CommitIt), (u, SweepRow(presented)), (u, CommitIt);
    CommitOvertakes(s, t, u);
    var s1 := Fire(s, a.0, a.1);
    var s2 := Fire(s1, b.0, b.1);
    SweepFindsItSpent(s2, u, presented);
    var s3 := Fire(s2, c.0, c.1);
    var s4 := Fire(s3, d.0, d.1);
    assert IsRun(s4, []) && Exec(s4, []) == s4;
    OneMoreStep(s3, d, []);
    OneMoreStep(s2, c, [d] + []);
    OneMoreStep(s1, b, [c] + ([d] + []));
    OneMoreStep(s, a, [b] + ([c] + ([d] + [])));
    assert [a, b, c, d] == [a] + ([b] + ([c] + ([d] + [])));
  }

  /** The update begins, choosing the one live row; then the rotation that holds it commits. */
  lemma CommitOvertakes(s: Sys, t: nat, u: nat)
    requires SysOk(s) && t in s.txns && u in s.txns && t != u
    requires s.txns[t].op.Rotate? && s.txns[t].phase.Replaced?
    requires s.txns[u].phase.Reused? && s.txns[u].phase.family == s.txns[t].phase.row.familyId
    ensures var presented, next, family := s.txns[t].op.request.presented, s.txns[t].op.request.nextHash, s.txns[u].phase.family;
            && Enabled(s, u, StartSweep) && Enabled(Fire(s, u, StartSweep), t, CommitIt)
            && var after := Fire(Fire(s, u, StartSweep), t, CommitIt);
            && SysOk(after) && u in after.txns
            && after.txns[u].phase == Sweeping(family, {presented}, {presented}, {})
            && IsFree(after, u, presented)
            && presented in after.db && after.db[presented].IsRevoked()
            && LiveIn(after.db, family) == {next}
  {
    assert TxnOk(s.db, s.txns[t]) && TxnOk(s.db, s.txns[u]);
    var presented, next := s.txns[t].op.request.presented, s.txns[t].op.request.nextHash;
    OnlyLive(s.db, presented);
    var began := Fire(s, u, StartSweep);
    FireKeeps(s, u, StartSweep);
    FireKeeps(began, t, CommitIt);
    FreeAfterCommit(began, t, u, presented);
    var after := Fire(began, t, CommitIt);
    assert after.db[next].tokenHash == next && !after.db[next].IsRevoked();
    OnlyLive(after.db, next);
  }

  lemma SweepFindsItSpent(s: Sys, u: nat, h: Hash)
    requires SysOk(s) && u in s.txns && s.txns[u].phase.Sweeping?
    requires s.txns[u].phase.todo == {h} && s.txns[u].phase.stamped == {}
    requires IsFree(s, u, h) && h in s.db && s.db[h].IsRevoked()
    ensures Enabled(s, u, SweepRow(h)) && Enabled(Fire(s, u, SweepRow(h)), u, CommitIt)
    ensures Fire(Fire(s, u, SweepRow(h)), u, CommitIt).db == s.db
  {
    var swept := Fire(s, u, SweepRow(h));
    assert swept.txns[u].phase.todo == {};
    assert Stamped(s.db, {}, s.txns[u].op.Now()) == s.db;
  }

  lemma OnlyLive(db: Table, h: Hash)
    requires TableOk(db) && h in db && !db[h].IsRevoked()
    ensures LiveIn(db, db[h].familyId) == {h}
  {
    forall k | k in LiveIn(db, db[h].familyId) ensures k == h {
      assert k != h ==> PairOk(db[h], db[k]);
    }
  }

  /** Once its holder is gone a row is free to the rest. */
  lemma FreeAfterCommit(s: Sys, t: nat, u: nat, h: Hash)
    requires SysOk(s) && Enabled(s, t, CommitIt) && h in s.txns[t].Locks() && u != t
    ensures IsFree(Fire(s, t, CommitIt), u, h)
  {
    forall v | v in Fire(s, t, CommitIt).txns && v != u ensures h !in s.txns[v].Locks() {
      assert Compatible(s.txns[t], s.txns[v]);
    }
  }

  lemma OneMoreStep(s: Sys, first: (nat, Step), rest: seq<(nat, Step)>)
    requires Enabled(s, first.0, first.1) && IsRun(Fire(s, first.0, first.1), rest)
    ensures IsRun(s, [first] + rest) && Exec(s, [first] + rest) == Exec(Fire(s, first.0, first.1), rest)
  {
    assert ([first] + rest)[0] == first && ([first] + rest)[1..] == rest;
  }
}
