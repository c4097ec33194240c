/**
 * How old a body can be. Take any moment at which a document has no stored
 * body, which is what an invalidation leaves, and any run from it: which bodies
 * stored or served later were built before that moment, exactly.
 */
module ConditionalAges {
  import opened Collections
  import opened BookingStatus
  import opened ETag
  import opened CacheStore
  import opened ConditionalSteps

  // ---- Worlds along a run ----

  lemma {:induction false} PrefixRuns(w: World, hash: Hash, steps: seq<(nat, Step)>, n: nat)
    requires IsRun(w, hash, steps) && n <= |steps|
    ensures IsRun(w, hash, steps[..n])
    ensures Exec(w, hash, steps[..n]).tick == w.tick + n
    ensures n < |steps| ==>
              && Enabled(Exec(w, hash, steps[..n]), steps[n].0, steps[n].1)
              && IsRun(w, hash, steps[..n + 1])
              && Exec(w, hash, steps[..n + 1]) == Fire(Exec(w, hash, steps[..n]), hash, steps[n].0, steps[n].1)
    decreases |steps|
  {
    if n > 0 {
      assert steps[..n][0] == steps[0] && steps[..n][1..] == steps[1..][..n - 1];
      PrefixRuns(Fire(w, hash, steps[0].0, steps[0].1), hash, steps[1..], n - 1);
      if n < |steps| {
        assert steps[..n + 1][0] == steps[0] && steps[..n + 1][1..] == steps[1..][..n];
        assert steps[1..][n - 1] == steps[n];
      }
    } else if |steps| > 0 {
      assert steps[..1][0] == steps[0] && steps[..1][1..] == [];
      var next := Fire(w, hash, steps[0].0, steps[0].1);
      assert IsRun(next, hash, []) && Exec(next, hash, []) == next;
    }
  }

  /** The world after the first n steps. */
  function At(w: World, hash: Hash, steps: seq<(nat, Step)>, n: nat): World
    requires IsRun(w, hash, steps) && n <= |steps|
  {
    PrefixRuns(w, hash, steps, n);
    Exec(w, hash, steps[..n])
  }

  lemma AtZero(w: World, hash: Hash, steps: seq<(nat, Step)>)
    requires IsRun(w, hash, steps)
    ensures At(w, hash, steps, 0) == w
  {
    PrefixRuns(w, hash, steps, 0);
  }

  lemma AtNext(w: World, hash: Hash, steps: seq<(nat, Step)>, n: nat)
    requires IsRun(w, hash, steps) && n < |steps|
    ensures Enabled(At(w, hash, steps, n), steps[n].0, steps[n].1)
    ensures At(w, hash, steps, n + 1) == Fire(At(w, hash, steps, n), hash, steps[n].0, steps[n].1)
    ensures At(w, hash, steps, n).tick == w.tick + n
    ensures At(w, hash, steps, 0) == w && At(w, hash, steps, |steps|) == Exec(w, hash, steps)
  {
    PrefixRuns(w, hash, steps, n);
    assert steps[..|steps|] == steps;
  }

  // ---- Ages ----

  /** The call has built its body. */
  predicate HasBody(p: Phase) {
    p.Versioning? || p.Saving? || p.Answering?
  }

  /** Everything built so far was built at an earlier step. */
  predicate AgesOk(w: World) {
    && (forall t :: t in w.calls && HasBody(w.calls[t].phase) ==> w.calls[t].phase.born < w.tick)
    && (forall key :: key in w.cache.entries ==> key in w.born && w.born[key] < w.tick)
  }

  lemma AgesKept(w: World, hash: Hash, t: nat, step: Step)
    requires AgesOk(w) && Enabled(w, t, step)
    ensures AgesOk(Fire(w, hash, t, step))
  {
  }

  /** The same call all along: its number was not given to another. */
  predicate SameCall(steps: seq<(nat, Step)>, n: nat, t: nat)
    requires n <= |steps|
  {
    forall j :: 0 <= j < n && steps[j].0 == t ==> !steps[j].1.Ask?
  }

  /** A call that had its body at the start, and is still under way. */
  predicate IsLate(w: World, steps: seq<(nat, Step)>, n: nat, t: nat)
    requires n <= |steps|
  {
    t in w.calls && HasBody(w.calls[t].phase) && SameCall(steps, n, t)
  }

  /** Phases a body goes through, in order. */
  function Progress(p: Phase): nat {
    match p
    case Versioning(_, _) => 1
    case Saving(_, _, _) => 2
    case Answering(_, _, _) => 3
    case _ => 0
  }

  /** What is known of one call after n steps: late, it still carries its body and has only moved on; not late, any body it has is new. */
  predicate CallAge(w: World, v: World, steps: seq<(nat, Step)>, n: nat, t: nat)
    requires n <= |steps|
  {
    t in v.calls ==>
      if IsLate(w, steps, n, t) then
        && HasBody(v.calls[t].phase) && v.calls[t].phase.born < w.tick
        && v.calls[t].key == w.calls[t].key && Progress(w.calls[t].phase) <= Progress(v.calls[t].phase)
      else HasBody(v.calls[t].phase) ==> v.calls[t].phase.born >= w.tick
  }

  lemma SameCallLess(steps: seq<(nat, Step)>, n: nat, t: nat)
    requires n < |steps|
    ensures SameCall(steps, n + 1, t) <==> SameCall(steps, n, t) && !(steps[n].0 == t && steps[n].1.Ask?)
  {
  }

  lemma CallAgeNext(w: World, v: World, hash: Hash, steps: seq<(nat, Step)>, n: nat, t: nat)
    requires n < |steps| && Enabled(v, steps[n].0, steps[n].1) && v.tick >= w.tick && CallAge(w, v, steps, n, t)
    ensures CallAge(w, Fire(v, hash, steps[n].0, steps[n].1), steps, n + 1, t)
  {
    SameCallLess(steps, n, t);
  }

  lemma {:induction false} CallsAge(w: World, hash: Hash, steps: seq<(nat, Step)>, n: nat, t: nat)
    requires IsRun(w, hash, steps) && n <= |steps| && AgesOk(w)
    ensures CallAge(w, At(w, hash, steps, n), steps, n, t)
    decreases n
  {
    if n == 0 {
      assert At(w, hash, steps, 0) == w;
    } else {
      CallsAge(w, hash, steps, n - 1, t);
      AtNext(w, hash, steps, n - 1);
      CallAgeNext(w, At(w, hash, steps, n - 1), hash, steps, n - 1, t);
    }
  }

  // ---- Stored bodies ----

  predicate OldStored(w: World, key: string, since: nat) {
    key in w.cache.entries && BornOf(w, key) < since
  }

  /** This step stores a body for the document. */
  predicate Stores(w: World, t: nat, step: Step, key: string)
    requires Enabled(w, t, step)
  {
    step.Save? && w.calls[t].key == key && Keeps(w, t, step)
  }

  /** Step i stores a body for the document, and it is stored still after n steps. */
  predicate StoredAt(w: World, hash: Hash, steps: seq<(nat, Step)>, n: nat, key: string, i: nat)
    requires IsRun(w, hash, steps) && n <= |steps|
  {
    && i < n && (AtNext(w, hash, steps, i); Stores(At(w, hash, steps, i), steps[i].0, steps[i].1, key))
    && (forall j :: i < j <= n ==> key in At(w, hash, steps, j).cache.entries)
    && (forall j :: i < j < n ==> (AtNext(w, hash, steps, j); !Stores(At(w, hash, steps, j), steps[j].0, steps[j].1, key)))
  }

  /** When the body was built that step i stored. */
  function StoredBorn(w: World, hash: Hash, steps: seq<(nat, Step)>, n: nat, key: string, i: nat): nat
    requires IsRun(w, hash, steps) && n <= |steps| && StoredAt(w, hash, steps, n, key, i)
  {
    AtNext(w, hash, steps, i);
    At(w, hash, steps, i).calls[steps[i].0].phase.born
  }

  /** Its call was between building and saving when the run began. */
  predicate WasBetween(w: World, steps: seq<(nat, Step)>, i: nat)
    requires i < |steps|
  {
    var t := steps[i].0;
    t in w.calls && (w.calls[t].phase.Versioning? || w.calls[t].phase.Saving?) && SameCall(steps, i, t)
  }

  /** What a step does to the body stored for a document. */
  lemma StoredNext(v: World, hash: Hash, t: nat, step: Step, key: string)
    requires AgesOk(v) && Enabled(v, t, step)
    ensures var u := Fire(v, hash, t, step);
            if Stores(v, t, step, key) then key in u.cache.entries && BornOf(u, key) == v.calls[t].phase.born
            else key in u.cache.entries ==> key in v.cache.entries && BornOf(u, key) == BornOf(v, key)
  {
  }

  lemma {:induction false} AgesAlong(w: World, hash: Hash, steps: seq<(nat, Step)>, n: nat)
    requires IsRun(w, hash, steps) && n <= |steps| && AgesOk(w)
    ensures AgesOk(At(w, hash, steps, n))
    decreases n
  {
    if n == 0 {
      assert At(w, hash, steps, 0) == w;
    } else {
      AgesAlong(w, hash, steps, n - 1);
      AtNext(w, hash, steps, n - 1);
      AgesKept(At(w, hash, steps, n - 1), hash, steps[n - 1].0, steps[n - 1].1);
    }
  }

  /** The step that stores says how old its body is: older than the run exactly when its call was between building and saving then. */
  lemma StoringAge(w: World, hash: Hash, steps: seq<(nat, Step)>, i: nat, key: string)
    requires IsRun(w, hash, steps) && i < |steps| && AgesOk(w)
    requires (AtNext(w, hash, steps, i); Stores(At(w, hash, steps, i), steps[i].0, steps[i].1, key))
    ensures At(w, hash, steps, i).calls[steps[i].0].phase.born < w.tick <==> WasBetween(w, steps, i)
  {
    AtNext(w, hash, steps, i);
    CallsAge(w, hash, steps, i, steps[i].0);
  }

  lemma StoredStill(w: World, hash: Hash, steps: seq<(nat, Step)>, n: nat, key: string, i: nat)
    requires IsRun(w, hash, steps) && n < |steps| && StoredAt(w, hash, steps, n, key, i)
    requires key in At(w, hash, steps, n + 1).cache.entries
    requires (AtNext(w, hash, steps, n); !Stores(At(w, hash, steps, n), steps[n].0, steps[n].1, key))
    ensures StoredAt(w, hash, steps, n + 1, key, i)
    ensures StoredBorn(w, hash, steps, n + 1, key, i) == StoredBorn(w, hash, steps, n, key, i)
  {
  }

  /** A body stored after n steps was stored by one of them, and by it alone. */
  lemma {:induction false} StoredBySomeStep(w: World, hash: Hash, steps: seq<(nat, Step)>, n: nat, key: string) returns (i: nat)
    requires IsRun(w, hash, steps) && n <= |steps| && AgesOk(w) && key !in w.cache.entries
    requires key in At(w, hash, steps, n).cache.entries
    ensures StoredAt(w, hash, steps, n, key, i)
    ensures BornOf(At(w, hash, steps, n), key) == StoredBorn(w, hash, steps, n, key, i)
    decreases n
  {
    AtZero(w, hash, steps);
    assert n > 0;
    AtNext(w, hash, steps, n - 1);
    AgesAlong(w, hash, steps, n - 1);
    var v := At(w, hash, steps, n - 1);
    StoredNext(v, hash, steps[n - 1].0, steps[n - 1].1, key);
    if Stores(v, steps[n - 1].0, steps[n - 1].1, key) {
      i := n - 1;
    } else {
      i := StoredBySomeStep(w, hash, steps, n - 1, key);
      StoredStill(w, hash, steps, n - 1, key, i);
    }
  }

  lemma StoredOnce(w: World, hash: Hash, steps: seq<(nat, Step)>, n: nat, key: string, i: nat, k: nat)
    requires IsRun(w, hash, steps) && n <= |steps|
    requires StoredAt(w, hash, steps, n, key, i) && StoredAt(w, hash, steps, n, key, k)
    ensures i == k
  {
  }

  /**
   * Which stored bodies are old. Begin with nothing stored for a document, as
   * an invalidation leaves it. A body stored for it later was built before then
   * exactly when the call that stored it was between building and saving then,
   * its version read or not.
   */
  lemma {:induction false} StoredIsOldExactly(w: World, hash: Hash, steps: seq<(nat, Step)>, n: nat, key: string)
    requires IsRun(w, hash, steps) && n <= |steps| && AgesOk(w) && key !in w.cache.entries
    ensures OldStored(At(w, hash, steps, n), key, w.tick)
            <==> exists i: nat {:trigger StoredAt(w, hash, steps, n, key, i)} :: StoredAt(w, hash, steps, n, key, i) && WasBetween(w, steps, i)
  {
    if key in At(w, hash, steps, n).cache.entries {
      var i := StoredBySomeStep(w, hash, steps, n, key);
      AtNext(w, hash, steps, i);
      StoringAge(w, hash, steps, i, key);
      forall k: nat | StoredAt(w, hash, steps, n, key, k) ensures k == i {
        StoredOnce(w, hash, steps, n, key, i, k);
      }
    }
  }

  // ---- Served bodies ----

  /** Step i answers a request for the document. */
  predicate Answers(w: World, hash: Hash, steps: seq<(nat, Step)>, i: nat, key: string)
    requires IsRun(w, hash, steps) && i < |steps|
  {
    AtNext(w, hash, steps, i);
    |At(w, hash, steps, i + 1).sent| > |At(w, hash, steps, i).sent| && At(w, hash, steps, i).calls[steps[i].0].key == key
  }

  lemma OnlyTwoStepsAnswer(v: World, hash: Hash, t: nat, step: Step)
    requires Enabled(v, t, step)
    ensures var u := Fire(v, hash, t, step);
            if |u.sent| > |v.sent| then
              && t in v.calls && (step.Respond? || step.ReadEntry?)
              && u.sent == v.sent + [u.sent[|v.sent|]] && u.sent[|v.sent|].key == v.calls[t].key
              && u.sent[|v.sent|].born == (if step.Respond? then v.calls[t].phase.born else BornOf(v, v.calls[t].key))
              && (step.ReadEntry? ==> v.calls[t].key in v.cache.entries)
            else u.sent == v.sent
  {
  }

  /**
   * Which answers are old. An answer carries a body built before the run began
   * exactly when its own call had that body then, or it was read from the store
   * while an old body stood there.
   */
  lemma {:induction false} ServedIsOldExactly(w: World, hash: Hash, steps: seq<(nat, Step)>, i: nat, key: string)
    requires IsRun(w, hash, steps) && i < |steps| && AgesOk(w) && key !in w.cache.entries && Answers(w, hash, steps, i, key)
    ensures var s := At(w, hash, steps, i + 1).sent[|At(w, hash, steps, i).sent|];
            && s.key == key
            && (s.born < w.tick <==>
                  if steps[i].1.Respond? then IsLate(w, steps, i, steps[i].0) else OldStored(At(w, hash, steps, i), key, w.tick))
  {
    AtNext(w, hash, steps, i);
    var v := At(w, hash, steps, i);
    OnlyTwoStepsAnswer(v, hash, steps[i].0, steps[i].1);
    CallsAge(w, hash, steps, i, steps[i].0);
  }

  /** Nobody is carrying a body for the document. */
  predicate NobodyCarries(w: World, key: string) {
    forall t :: t in w.calls && w.calls[t].key == key ==> !HasBody(w.calls[t].phase)
  }

  /** With nobody carrying a body for it as it was invalidated, everything stored or served for a document afterwards was built afterwards. */
  lemma {:induction false} QuietInvalidationIsFinal(w: World, hash: Hash, steps: seq<(nat, Step)>, n: nat, key: string)
    requires IsRun(w, hash, steps) && n <= |steps| && AgesOk(w) && key !in w.cache.entries && NobodyCarries(w, key)
    ensures !OldStored(At(w, hash, steps, n), key, w.tick)
    ensures n < |steps| && Answers(w, hash, steps, n, key) ==>
              At(w, hash, steps, n + 1).sent[|At(w, hash, steps, n).sent|].born >= w.tick
  {
    StoredIsOldExactly(w, hash, steps, n, key);
    forall i: nat | StoredAt(w, hash, steps, n, key, i) ensures !WasBetween(w, steps, i) {
      AtNext(w, hash, steps, i);
      CallsAge(w, hash, steps, i, steps[i].0);
    }
    if n < |steps| && Answers(w, hash, steps, n, key) {
      ServedIsOldExactly(w, hash, steps, n, key);
      AtNext(w, hash, steps, n);
      CallsAge(w, hash, steps, n, steps[n].0);
    }
  }

  /** An invalidation's second step leaves nothing stored, and everything built before it older than the runs that follow. */
  lemma DropLeavesNothing(w: World, hash: Hash, u: nat, key: string)
    requires AgesOk(w) && Enabled(w, u, DropBody(key))
    ensures var v := Fire(w, hash, u, DropBody(key));
            AgesOk(v) && key !in v.cache.entries && v.tick == w.tick + 1 && v.calls == w.calls
  {
  }

  // ---- The second window ----

  lemma SaveStores(w: World, hash: Hash, t: nat, lifetime: int, at: Instant)
    requires t in w.calls && w.calls[t].phase.Saving? && w.calls[t].phase.tag != "" && w.calls[t].phase.payload != "" && lifetime > 0
    requires w.calls[t].key != ""
    ensures var key, p := w.calls[t].key, w.calls[t].phase;
            && Enabled(w, t, Save(at, lifetime, true))
            && var v := Fire(w, hash, t, Save(at, lifetime, true));
            Lookup(v.cache, key, at) == Some(Entry(p.tag, p.payload)) && VersionOf(v.cache, key) == VersionOf(w.cache, key)
  {
  }

  /** A call already tagged when the invalidation runs stores its old body after it, under the old tag. */
  lemma SavingOutlivesInvalidation(w: World, hash: Hash, t: nat, u: nat, lifetime: int, at: Instant)
    requires t in w.calls && w.calls[t].phase.Saving? && w.calls[t].phase.tag != "" && w.calls[t].phase.payload != "" && lifetime > 0
    requires Enabled(w, u, BumpVersion(w.calls[t].key))
    ensures var key, p := w.calls[t].key, w.calls[t].phase;
            var race := [(u, BumpVersion(key)), (u, DropBody(key)), (t, Save(at, lifetime, true))];
            && IsRun(w, hash, race)
            && Lookup(Exec(w, hash, race).cache, key, at) == Some(Entry(p.tag, p.payload))
            && VersionOf(Exec(w, hash, race).cache, key) == NextVersion(VersionOf(w.cache, key))
  {
    var key := w.calls[t].key;
    var a, b, c := (u, BumpVersion(key)), (u, DropBody(key)), (t, Save(at, lifetime, true));
    var w2 := Invalidated(w, key);
    SaveStores(w2, hash, t, lifetime, at);
    var w3 := Fire(w2, hash, c.0, c.1);
    assert IsRun(w3, hash, []) && Exec(w3, hash, []) == w3;
    OneMoreStep(w2, hash, c, []);
    InvalidateFirst(w, hash, u, key, [c] + []);
    assert [a, b, c] == [a] + ([b] + ([c] + []));
  }
}
