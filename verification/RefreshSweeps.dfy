/**
 * Ending a family, over whole runs of the token transactions: when the update
 * that ends it leaves nothing alive, and that nothing comes back.
 */
module RefreshSweeps {
  import opened Collections
  import opened BookingStatus
  import opened RefreshTokens
  import opened RefreshTransactions

  /** A live token appears in the family: a sign in opens it, or a rotation in it commits. */
  predicate IsBirth(s: Sys, t: nat, step: Step, family: string)
    requires Enabled(s, t, step)
  {
    || (step.Issue? && step.issue.familyId == family)
    || (step.CommitIt? && s.txns[t].phase.Replaced? && s.txns[t].phase.row.familyId == family)
  }

  predicate BornIn(s: Sys, steps: seq<(nat, Step)>, family: string)
    requires IsRun(s, steps)
    decreases |steps|
  {
    steps != [] &&
    (IsBirth(s, steps[0].0, steps[0].1, family) || BornIn(Fire(s, steps[0].0, steps[0].1), steps[1..], family))
  }

  /** The family a StartSweep chooses its rows from. */
  function SweepsFamily(x: Txn): string
    requires x.phase.Reused? || x.op.EndFamily?
  {
    if x.phase.Reused? then x.phase.family else x.op.familyId
  }

  predicate Begins(s: Sys, t: nat, step: Step, family: string)
    requires Enabled(s, t, step)
  {
    step.StartSweep? && SweepsFamily(s.txns[t]) == family
  }

  /** The updates of the family begun so far and still under way. */
  function BegunAfter(s: Sys, t: nat, step: Step, family: string, begun: set<nat>): set<nat>
    requires Enabled(s, t, step)
  {
    if Begins(s, t, step, family) then begun + {t}
    else if t in begun && t !in Fire(s, t, step).txns then begun - {t}
    else begun
  }

  /** One of these updates, or one begun along the run, commits in it. */
  predicate SweptBy(s: Sys, steps: seq<(nat, Step)>, family: string, begun: set<nat>)
    requires IsRun(s, steps)
    decreases |steps|
  {
    steps != [] &&
    var (t, step) := steps[0];
    || (step.CommitIt? && t in begun)
    || SweptBy(Fire(s, t, step), steps[1..], family, BegunAfter(s, t, step, family, begun))
  }

  /** After the last birth of the run an update of the family both began and committed. */
  predicate SweptSinceLastBirth(s: Sys, steps: seq<(nat, Step)>, family: string)
    requires IsRun(s, steps)
    decreases |steps|
  {
    steps != [] &&
    var (t, step) := steps[0];
    var next, rest := Fire(s, t, step), steps[1..];
    || (IsBirth(s, t, step, family) && !BornIn(next, rest, family) && SweptBy(next, rest, family, {}))
    || SweptSinceLastBirth(next, rest, family)
  }

  // ---- What one step does to the live tokens ----

  /** Without a birth no token of the family comes alive. */
  lemma NoBirthAddsNone(s: Sys, t: nat, step: Step, family: string)
    requires SysOk(s) && Enabled(s, t, step) && !IsBirth(s, t, step, family)
    ensures LiveIn(Fire(s, t, step).db, family) <= LiveIn(s.db, family)
  {
    if t in s.txns {
      assert TxnOk(s.db, s.txns[t]);
    }
  }

  lemma {:induction false} NoBirthsAddNone(s: Sys, steps: seq<(nat, Step)>, family: string)
    requires SysOk(s) && IsRun(s, steps) && !BornIn(s, steps, family)
    ensures LiveIn(Exec(s, steps).db, family) <= LiveIn(s.db, family)
    decreases |steps|
  {
    if steps != [] {
      NoBirthAddsNone(s, steps[0].0, steps[0].1, family);
      FireKeeps(s, steps[0].0, steps[0].1);
      NoBirthsAddNone(Fire(s, steps[0].0, steps[0].1), steps[1..], family);
    }
  }

  /** A family with a record and nothing live has no rotation under way that could commit, and no sign in opens it again. */
  lemma DeadHasNoBirth(s: Sys, t: nat, step: Step, family: string)
    requires SysOk(s) && Enabled(s, t, step) && LiveIn(s.db, family) == {}
    requires exists h :: h in s.db && s.db[h].familyId == family
    ensures !IsBirth(s, t, step, family)
  {
    if step.CommitIt? && s.txns[t].phase.Replaced? {
      assert TxnOk(s.db, s.txns[t]);
      assert s.txns[t].op.request.presented !in LiveIn(s.db, family);
    }
  }

  /** Once over, a family stays over, whatever interleaves afterwards: nothing in it lives and nothing in it rotates. */
  lemma {:induction false} DeadStaysDead(s: Sys, steps: seq<(nat, Step)>, family: string)
    requires SysOk(s) && IsRun(s, steps) && LiveIn(s.db, family) == {}
    requires exists h :: h in s.db && s.db[h].familyId == family
    ensures LiveIn(Exec(s, steps).db, family) == {} && !BornIn(s, steps, family)
    decreases |steps|
  {
    if steps != [] {
      var (t, step) := steps[0];
      DeadHasNoBirth(s, t, step, family);
      NoBirthAddsNone(s, t, step, family);
      FireKeeps(s, t, step);
      var h :| h in s.db && s.db[h].familyId == family;
      assert h in Fire(s, t, step).db && Fire(s, t, step).db[h].familyId == family;
      DeadStaysDead(Fire(s, t, step), steps[1..], family);
    }
  }

  // ---- One live token, and the updates that chose it ----

  /** The family's live token is this one, and the updates that chose it are exactly these. */
  ghost predicate ChosenBy(s: Sys, family: string, h: Hash, begun: set<nat>) {
    && LiveIn(s.db, family) == {h}
    && (forall v :: v in begun ==> v in s.txns && s.txns[v].phase.Sweeping? && h in s.txns[v].phase.targets)
    && (forall v {:trigger s.txns[v]} :: v in s.txns && s.txns[v].phase.Sweeping? && h in s.txns[v].phase.targets ==> v in begun)
  }

  /** A commit stamps the token exactly when its update chose it. */
  lemma CommitSparesOrEnds(s: Sys, t: nat, family: string, h: Hash, begun: set<nat>)
    requires SysOk(s) && Enabled(s, t, CommitIt) && ChosenBy(s, family, h, begun) && !IsBirth(s, t, CommitIt, family)
    ensures LiveIn(Fire(s, t, CommitIt).db, family) == if t in begun then {} else {h}
  {
    var x := s.txns[t];
    assert TxnOk(s.db, x);
    assert h in LiveIn(s.db, family);
    NoBirthAddsNone(s, t, CommitIt, family);
    if t in begun {
      assert h in x.phase.stamped;
    } else if x.phase.Sweeping? {
      assert h !in x.phase.stamped;
    } else {
      assert h != x.op.request.presented && h != x.op.request.nextHash;
    }
    assert h in LiveIn(Fire(s, t, CommitIt).db, family) <==> t !in begun;
  }

  lemma ChosenAfterStep(s: Sys, t: nat, step: Step, family: string, h: Hash, begun: set<nat>)
    requires SysOk(s) && Enabled(s, t, step) && ChosenBy(s, family, h, begun) && !IsBirth(s, t, step, family)
    requires !(step.CommitIt? && t in begun)
    ensures ChosenBy(Fire(s, t, step), family, h, BegunAfter(s, t, step, family, begun))
  {
    var next := Fire(s, t, step);
    assert h in LiveIn(s.db, family);
    if step.CommitIt? {
      CommitSparesOrEnds(s, t, family, h, begun);
    } else if step.Issue? {
      assert LiveIn(next.db, family) == LiveIn(s.db, family);
    } else {
      assert next.db == s.db;
    }
    var after := BegunAfter(s, t, step, family, begun);
    forall v | v in after ensures v in next.txns && next.txns[v].phase.Sweeping? && h in next.txns[v].phase.targets {
      assert v != t ==> v in begun;
    }
    forall v | v in next.txns && next.txns[v].phase.Sweeping? && h in next.txns[v].phase.targets ensures v in after {
      if v != t {
        assert next.txns[v] == s.txns[v];
      } else if step.SweepRow? {
        assert s.txns[v].phase.targets == next.txns[v].phase.targets;
      }
    }
  }

  /** With no further birth the token is ended exactly by an update that chose it, begun before or along the way. */
  lemma {:induction false} EndedExactly(s: Sys, steps: seq<(nat, Step)>, family: string, h: Hash, begun: set<nat>)
    requires SysOk(s) && IsRun(s, steps) && !BornIn(s, steps, family) && ChosenBy(s, family, h, begun)
    ensures LiveIn(Exec(s, steps).db, family) == if SweptBy(s, steps, family, begun) then {} else {h}
    decreases |steps|
  {
    if steps != [] {
      var (t, step) := steps[0];
      var next := Fire(s, t, step);
      FireKeeps(s, t, step);
      if step.CommitIt? && t in begun {
        CommitSparesOrEnds(s, t, family, h, begun);
        assert h in LiveIn(s.db, family);
        assert h in next.db && next.db[h].familyId == family;
        DeadStaysDead(next, steps[1..], family);
      } else {
        ChosenAfterStep(s, t, step, family, h, begun);
        EndedExactly(next, steps[1..], family, h, BegunAfter(s, t, step, family, begun));
      }
    }
  }

  /** A token just born is the only live one, and no update under way has chosen it. */
  lemma BirthIsChosenByNone(s: Sys, t: nat, step: Step, family: string) returns (h: Hash)
    requires SysOk(s) && Enabled(s, t, step) && IsBirth(s, t, step, family)
    ensures h !in s.db && ChosenBy(Fire(s, t, step), family, h, {})
  {
    var next := Fire(s, t, step);
    FireKeeps(s, t, step);
    if step.Issue? {
      h := step.issue.tokenHash;
    } else {
      assert TxnOk(s.db, s.txns[t]);
      h := s.txns[t].op.request.nextHash;
    }
    assert h in next.db && !next.db[h].IsRevoked() && next.db[h].familyId == family;
    OnlyLive(next.db, h);
    forall v | v in next.txns && next.txns[v].phase.Sweeping? ensures h !in next.txns[v].phase.targets {
      assert TxnOk(s.db, s.txns[v]);
    }
  }

  // ---- From an update's beginning to its commit ----

  /** Along these steps this transaction does nothing but look at its rows. */
  predicate OnlySweeps(steps: seq<(nat, Step)>, u: nat) {
    forall i :: 0 <= i < |steps| && steps[i].0 == u ==> steps[i].1.SweepRow? || steps[i].1.Issue?
  }

  lemma {:induction false} StillSweeping(s: Sys, steps: seq<(nat, Step)>, u: nat)
    requires IsRun(s, steps) && OnlySweeps(steps, u) && u in s.txns && s.txns[u].phase.Sweeping?
    ensures var v := Exec(s, steps);
            && u in v.txns && v.txns[u].phase.Sweeping? && v.txns[u].op == s.txns[u].op
            && v.txns[u].phase.family == s.txns[u].phase.family && v.txns[u].phase.targets == s.txns[u].phase.targets
    decreases |steps|
  {
    if steps != [] {
      var (t, step) := steps[0];
      assert steps[0].0 == u ==> steps[0].1.SweepRow? || steps[0].1.Issue?;
      forall i | 0 <= i < |steps[1..]| && steps[1..][i].0 == u ensures steps[1..][i].1.SweepRow? || steps[1..][i].1.Issue? {
        assert steps[i + 1].0 == u;
      }
      StillSweeping(Fire(s, t, step), steps[1..], u);
    }
  }

  /** With a birth along the way, what the update leaves alive is whatever no later update ended. */
  lemma {:induction false} BornThenEnded(s: Sys, steps: seq<(nat, Step)>, family: string, u: nat)
    requires SysOk(s) && IsRun(s, steps) && OnlySweeps(steps, u) && u in s.txns && s.txns[u].phase.Sweeping?
    requires BornIn(s, steps, family)
    ensures LiveIn(Exec(s, steps).db, family) - s.txns[u].phase.targets == {} <==> SweptSinceLastBirth(s, steps, family)
    decreases |steps|
  {
    var (t, step) := steps[0];
    var next, rest := Fire(s, t, step), steps[1..];
    FireKeeps(s, t, step);
    assert steps[0].0 == u ==> steps[0].1.SweepRow? || steps[0].1.Issue?;
    forall i | 0 <= i < |rest| && rest[i].0 == u ensures rest[i].1.SweepRow? || rest[i].1.Issue? {
      assert steps[i + 1].0 == u;
    }
    assert u in next.txns && next.txns[u].phase.Sweeping? && next.txns[u].phase.targets == s.txns[u].phase.targets;
    if BornIn(next, rest, family) {
      BornThenEnded(next, rest, family, u);
    } else {
      var h := BirthIsChosenByNone(s, t, step, family);
      EndedExactly(next, rest, family, h, {});
      assert TxnOk(s.db, s.txns[u]);
      assert h !in s.txns[u].phase.targets;
      assert {h} - s.txns[u].phase.targets == {h};
      NeverSweptWithoutBirth(next, rest, family);
    }
  }

  lemma {:induction false} NeverSweptWithoutBirth(s: Sys, steps: seq<(nat, Step)>, family: string)
    requires IsRun(s, steps) && !BornIn(s, steps, family)
    ensures !SweptSinceLastBirth(s, steps, family)
    decreases |steps|
  {
    if steps != [] {
      NeverSweptWithoutBirth(Fire(s, steps[0].0, steps[0].1), steps[1..], family);
    }
  }

  /**
   * When ending a family ends it. Follow an update from its beginning to its
   * commit, with anything interleaved: it leaves the family with nothing alive
   * exactly when no token of it was born in that stretch, or another update of
   * it both began and committed after the last such birth.
   */
  lemma {:induction false} SweepEndsFamilyExactly(s: Sys, u: nat, steps: seq<(nat, Step)>)
    requires SysOk(s) && Enabled(s, u, StartSweep)
    requires IsRun(Fire(s, u, StartSweep), steps) && OnlySweeps(steps, u)
    requires Enabled(Exec(Fire(s, u, StartSweep), steps), u, CommitIt)
    ensures var family, began := SweepsFamily(s.txns[u]), Fire(s, u, StartSweep);
            LiveIn(Fire(Exec(began, steps), u, CommitIt).db, family) == {}
            <==> (!BornIn(began, steps, family) || SweptSinceLastBirth(began, steps, family))
  {
    var family, began := SweepsFamily(s.txns[u]), Fire(s, u, StartSweep);
    FireKeeps(s, u, StartSweep);
    EveryInterleavingKeeps(began, steps);
    StillSweeping(began, steps, u);
    SweepIsAtomicExactly(Exec(began, steps), u);
    if BornIn(began, steps, family) {
      BornThenEnded(began, steps, family, u);
    } else {
      NoBirthsAddNone(began, steps, family);
    }
  }

  /** No other update of the family commits along the run. */
  predicate NoOtherSweepCommits(s: Sys, steps: seq<(nat, Step)>, family: string)
    requires IsRun(s, steps)
    decreases |steps|
  {
    steps == [] ||
    (!(steps[0].1.CommitIt? && s.txns[steps[0].0].phase.Sweeping? && s.txns[steps[0].0].phase.family == family)
     && NoOtherSweepCommits(Fire(s, steps[0].0, steps[0].1), steps[1..], family))
  }

  lemma {:induction false} NotSweptByOthers(s: Sys, steps: seq<(nat, Step)>, family: string, begun: set<nat>)
    requires IsRun(s, steps) && NoOtherSweepCommits(s, steps, family)
    requires forall v :: v in begun ==> v in s.txns && s.txns[v].phase.Sweeping? && s.txns[v].phase.family == family
    ensures !SweptBy(s, steps, family, begun)
    decreases |steps|
  {
    if steps != [] {
      var (t, step) := steps[0];
      NotSweptByOthers(Fire(s, t, step), steps[1..], family, BegunAfter(s, t, step, family, begun));
    }
  }

  lemma {:induction false} NotSweptSince(s: Sys, steps: seq<(nat, Step)>, family: string)
    requires IsRun(s, steps) && NoOtherSweepCommits(s, steps, family)
    ensures !SweptSinceLastBirth(s, steps, family)
    decreases |steps|
  {
    if steps != [] {
      NotSweptByOthers(Fire(s, steps[0].0, steps[0].1), steps[1..], family, {});
      NotSweptSince(Fire(s, steps[0].0, steps[0].1), steps[1..], family);
    }
  }

  /** The only update of its family to commit leaves it dead exactly when no token of it was born since it began. */
  lemma {:induction false} LoneSweepEndsFamilyExactly(s: Sys, u: nat, steps: seq<(nat, Step)>)
    requires SysOk(s) && Enabled(s, u, StartSweep)
    requires IsRun(Fire(s, u, StartSweep), steps) && OnlySweeps(steps, u)
    requires Enabled(Exec(Fire(s, u, StartSweep), steps), u, CommitIt)
    requires NoOtherSweepCommits(Fire(s, u, StartSweep), steps, SweepsFamily(s.txns[u]))
    ensures var family, began := SweepsFamily(s.txns[u]), Fire(s, u, StartSweep);
            LiveIn(Fire(Exec(began, steps), u, CommitIt).db, family) == {} <==> !BornIn(began, steps, family)
  {
    SweepEndsFamilyExactly(s, u, steps);
    NotSweptSince(Fire(s, u, StartSweep), steps, SweepsFamily(s.txns[u]));
  }
}
