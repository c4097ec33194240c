/**
 * How far two Holds that overlap can take a parent past the cap: what a Hold
 * counted, what was committed for that parent since, and what ended since.
 */
module CapRaces {
  import opened Collections
  import opened BookingStatus
  import opened BookingStore
  import opened BookingRuns
  import opened SeatTransactions

  /** A Hold for this parent commits, still standing at this instant. */
  predicate Joins(s: Sys, t: nat, step: Step, parent: string, now: Instant)
    requires Enabled(s, t, step)
  {
    step.CommitIt? && s.txns[t].op.Hold? && IsStanding(s.db, s.txns[t].phase.change.row, parent, now)
  }

  /** A hold of this parent that stands at this instant is confirmed, withdrawn, failed or expired. */
  predicate Leaves(s: Sys, t: nat, step: Step, parent: string, now: Instant)
    requires Enabled(s, t, step)
  {
    step.CommitIt? && !s.txns[t].op.Hold? && s.txns[t].op.Target() in StandingHolds(s.db, parent, now)
  }

  function Joined(s: Sys, steps: seq<(nat, Step)>, parent: string, now: Instant): nat
    requires IsRun(s, steps)
    decreases |steps|
  {
    if steps == [] then 0
    else
      (if Joins(s, steps[0].0, steps[0].1, parent, now) then 1 else 0)
      + Joined(Fire(s, steps[0].0, steps[0].1), steps[1..], parent, now)
  }

  function Left(s: Sys, steps: seq<(nat, Step)>, parent: string, now: Instant): nat
    requires IsRun(s, steps)
    decreases |steps|
  {
    if steps == [] then 0
    else
      (if Leaves(s, steps[0].0, steps[0].1, parent, now) then 1 else 0)
      + Left(Fire(s, steps[0].0, steps[0].1), steps[1..], parent, now)
  }

  lemma CommitMovesOne(s: Sys, t: nat, parent: string, now: Instant)
    requires SysOk(s) && Enabled(s, t, CommitIt)
    ensures var before, after := StandingHolds(s.db, parent, now), StandingHolds(Fire(s, t, CommitIt).db, parent, now);
            var id := s.txns[t].op.Target();
            && (Joins(s, t, CommitIt, parent, now) ==> after == before + {id} && id !in before)
            && (!Joins(s, t, CommitIt, parent, now) ==> after == before - {id})
  {
    var x := s.txns[t];
    assert TxnOk(s.db, x);
  }

  lemma StepCounts(s: Sys, t: nat, step: Step, parent: string, now: Instant)
    requires SysOk(s) && Enabled(s, t, step)
    ensures |StandingHolds(Fire(s, t, step).db, parent, now)| + (if Leaves(s, t, step, parent, now) then 1 else 0)
            == |StandingHolds(s.db, parent, now)| + if Joins(s, t, step, parent, now) then 1 else 0
  {
    if step.CommitIt? {
      CommitMovesOne(s, t, parent, now);
      var before, id := StandingHolds(s.db, parent, now), s.txns[t].op.Target();
      assert TxnOk(s.db, s.txns[t]);
      if id !in before {
        assert before - {id} == before;
        SizeOfInsert(before, id);
      }
    } else {
      assert Fire(s, t, step).db == s.db;
    }
  }

  /** Over any interleaving, what stands for a parent at an instant is what stood, and what joined, less what left. */
  lemma {:induction false} StandingAlong(s: Sys, steps: seq<(nat, Step)>, parent: string, now: Instant)
    requires SysOk(s) && IsRun(s, steps)
    ensures |StandingHolds(Exec(s, steps).db, parent, now)| + Left(s, steps, parent, now)
            == |StandingHolds(s.db, parent, now)| + Joined(s, steps, parent, now)
    decreases |steps|
  {
    if steps != [] {
      var (t, step) := steps[0];
      StepCounts(s, t, step, parent, now);
      FireKeeps(s, t, step);
      StandingAlong(Fire(s, t, step), steps[1..], parent, now);
    }
  }

  // ---- From counting to committing ----

  /** Along these steps this Hold only reads on and writes. */
  predicate OnlyGoesOn(steps: seq<(nat, Step)>, u: nat) {
    forall i :: 0 <= i < |steps| && steps[i].0 == u ==> steps[i].1.ReadHolders? || steps[i].1.Write?
  }

  /** If still under way, it is this Hold, past its count, about to write its grant. */
  predicate IsGranting(s: Sys, u: nat, r: HoldRequest) {
    u in s.txns ==>
      && s.txns[u].op == Hold(r)
      && (s.txns[u].phase == UnderCap || s.txns[u].phase == Ready(GrantChange(r)) || s.txns[u].phase == Written(GrantChange(r)))
  }

  lemma {:induction false} StillGranting(s: Sys, steps: seq<(nat, Step)>, u: nat, r: HoldRequest)
    requires IsRun(s, steps) && OnlyGoesOn(steps, u) && IsGranting(s, u, r)
    ensures IsGranting(Exec(s, steps), u, r) && Exec(s, steps).db.parents == s.db.parents
    decreases |steps|
  {
    if steps != [] {
      var (t, step) := steps[0];
      assert steps[0].0 == u ==> steps[0].1.ReadHolders? || steps[0].1.Write?;
      forall i | 0 <= i < |steps[1..]| && steps[1..][i].0 == u ensures steps[1..][i].1.ReadHolders? || steps[1..][i].1.Write? {
        assert steps[i + 1].0 == u;
      }
      StillGranting(Fire(s, t, step), steps[1..], u, r);
    }
  }

  /**
   * When the cap is passed. Follow a Hold from its count to its commit, with
   * anything interleaved: it leaves its parent above the cap exactly when what
   * it counted, with the parent's Holds committed since and less the holds
   * that ended since, had reached the cap by then.
   */
  lemma {:induction false} CapPassedExactly(s: Sys, u: nat, steps: seq<(nat, Step)>)
    requires SysOk(s) && Enabled(s, u, ReadStanding) && u in Fire(s, u, ReadStanding).txns
    requires IsRun(Fire(s, u, ReadStanding), steps) && OnlyGoesOn(steps, u)
    requires Enabled(Exec(Fire(s, u, ReadStanding), steps), u, CommitIt)
    ensures var r, began := s.txns[u].op.request, Fire(s, u, ReadStanding);
            var parent, own := ParentOf(s.db, r.studentId), if HoldIsLive(r.expiresAt, r.now) then 1 else 0;
            |StandingHolds(Fire(Exec(began, steps), u, CommitIt).db, parent, r.now)| > r.maxHoldsPerParent
            <==> |StandingHolds(s.db, parent, r.now)| + Joined(began, steps, parent, r.now) + own
                 > r.maxHoldsPerParent + Left(began, steps, parent, r.now)
  {
    var r, began := s.txns[u].op.request, Fire(s, u, ReadStanding);
    var parent := ParentOf(s.db, r.studentId);
    assert TxnOk(s.db, s.txns[u]);
    FireKeeps(s, u, ReadStanding);
    EveryInterleavingKeeps(began, steps);
    StillGranting(began, steps, u, r);
    StandingAlong(began, steps, parent, r.now);
    StepCounts(Exec(began, steps), u, CommitIt, parent, r.now);
  }

  /** So a Hold no other of its parent committed across keeps the cap. */
  lemma {:induction false} AloneStaysUnderCap(s: Sys, u: nat, steps: seq<(nat, Step)>)
    requires SysOk(s) && Enabled(s, u, ReadStanding) && u in Fire(s, u, ReadStanding).txns
    requires IsRun(Fire(s, u, ReadStanding), steps) && OnlyGoesOn(steps, u)
    requires Enabled(Exec(Fire(s, u, ReadStanding), steps), u, CommitIt)
    requires Joined(Fire(s, u, ReadStanding), steps, ParentOf(s.db, s.txns[u].op.request.studentId), s.txns[u].op.request.now) == 0
    ensures var r := s.txns[u].op.request;
            |StandingHolds(Fire(Exec(Fire(s, u, ReadStanding), steps), u, CommitIt).db, ParentOf(s.db, r.studentId), r.now)| <= r.maxHoldsPerParent
  {
    CapPassedExactly(s, u, steps);
  }
}
