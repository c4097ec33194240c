/**
 * Conditional reads as they overlap: every store call of every request is one
 * step, the store may fail to answer any of them, requests may die, and an
 * invalidation raises the version in one step and drops the body in another.
 */
module ConditionalSteps {
  import opened Collections
  import opened BookingStatus
  import opened ETag
  import opened CacheStore

  datatype Phase =
    | Reading | Building
    | Versioning(payload: string, born: nat)
    | Saving(tag: string, payload: string, born: nat)
    | Answering(tag: string, payload: string, born: nat)

  datatype Call = Call(key: string, presented: string, phase: Phase)

  /** One answer sent: the tag on it, the body a 200 carries under that tag, and when that body was built. */
  datatype Sent = Sent(key: string, presented: string, tag: string, body: string, full: bool, born: nat)

  datatype World = World(
    tick: nat,               // steps taken so far
    cache: Cache,
    born: map<string, nat>,  // when the body stored for a document was built
    calls: map<nat, Call>,
    built: set<string>,      // every body any request built
    sent: seq<Sent>)

  datatype Step =
    | Ask(key: string, presented: string)
    | ReadEntry(at: Instant, reachable: bool)
    | Build(payload: Option<string>)
    | ReadVersion(reachable: bool)
    | Save(at: Instant, lifetime: int, reachable: bool)
    | Respond
    | Die
    | BumpVersion(key: string)
    | DropBody(key: string)

  predicate FitsPhase(p: Phase, step: Step) {
    match step
    case ReadEntry(_, _) => p.Reading?
    case Build(_) => p.Building?
    case ReadVersion(_) => p.Versioning?
    case Save(_, _, _) => p.Saving?
    case Respond => p.Answering?
    case _ => true
  }

  predicate Enabled(w: World, t: nat, step: Step) {
    match step
    case Ask(key, _) => t !in w.calls && key != ""
    case BumpVersion(key) => key != ""
    case DropBody(_) => true
    case _ => t in w.calls && FitsPhase(w.calls[t].phase, step)
  }

  function GoOn(w: World, t: nat, phase: Phase): World
    requires t in w.calls
  {
    w.(calls := w.calls[t := w.calls[t].(phase := phase)])
  }

  function Send(w: World, t: nat, tag: string, payload: string, born: nat): World
    requires t in w.calls
  {
    var c := w.calls[t];
    w.(sent := w.sent + [Sent(c.key, c.presented, tag, payload, !Matches(c.presented, tag), born)], calls := w.calls - {t})
  }

  function BornOf(w: World, key: string): nat {
    if key in w.born then w.born[key] else 0
  }

  function AfterReading(w: World, t: nat, at: Instant, reachable: bool): World
    requires t in w.calls
  {
    var stored := if reachable then Lookup(w.cache, w.calls[t].key, at) else None;
    var swept := if reachable then w.(cache := AfterLookup(w.cache, w.calls[t].key, at)) else w;
    if stored.Some? then Send(swept, t, stored.value.etag, stored.value.payload, BornOf(w, w.calls[t].key)) else GoOn(swept, t, Building)
  }

  /** The store call a Save makes changes something. */
  predicate Keeps(w: World, t: nat, step: Step)
    requires Enabled(w, t, step) && step.Save?
  {
    var p := w.calls[t].phase;
    step.reachable && CanSave(w.calls[t].key, Entry(p.tag, p.payload), step.lifetime)
  }

  function AfterSaving(w: World, t: nat, step: Step): World
    requires Enabled(w, t, step) && step.Save?
  {
    var key, p := w.calls[t].key, w.calls[t].phase;
    var kept := if !Keeps(w, t, step) then w
                else w.(cache := AfterSave(w.cache, key, Entry(p.tag, p.payload), step.lifetime, step.at), born := w.born[key := p.born]);
    GoOn(kept, t, Answering(p.tag, p.payload, p.born))
  }

  function Fire(w: World, hash: Hash, t: nat, step: Step): World
    requires Enabled(w, t, step)
  {
    Effect(w, hash, t, step).(tick := w.tick + 1)
  }

  function Effect(w: World, hash: Hash, t: nat, step: Step): World
    requires Enabled(w, t, step)
  {
    match step
    case Ask(key, presented) => w.(calls := w.calls[t := Call(key, presented, Reading)])
    case ReadEntry(at, reachable) => AfterReading(w, t, at, reachable)
    case Build(payload) =>
      if payload.None? then w.(calls := w.calls - {t})
      else GoOn(w.(built := w.built + {payload.value}), t, Versioning(payload.value, w.tick))
    case ReadVersion(reachable) =>
      var p := w.calls[t].phase;
      GoOn(w, t, Saving(BuildETag(hash, if reachable then VersionOf(w.cache, w.calls[t].key) else 0, p.payload), p.payload, p.born))
    case Save(_, _, _) => AfterSaving(w, t, step)
    case Respond => Send(w, t, w.calls[t].phase.tag, w.calls[t].phase.payload, w.calls[t].phase.born)
    case Die => w.(calls := w.calls - {t})
    case BumpVersion(key) => w.(cache := Bump(w.cache, key))
    case DropBody(key) => w.(cache := Drop(w.cache, key))
  }

  // ---- The invariant ----

  /**
   * The tag is built of this very body and, for a document whose counter has
   * not started over, at a version it has reached.
   */
  ghost predicate TagOk(c: Cache, hash: Hash, built: set<string>, steady: set<string>, key: string, tag: string, body: string) {
    && body in built
    && exists v: nat {:trigger BuildETag(hash, v, body)} :: (key in steady ==> v <= VersionOf(c, key)) && tag == BuildETag(hash, v, body)
  }

  ghost predicate CallOk(w: World, hash: Hash, steady: set<string>, c: Call) {
    match c.phase
    case Versioning(p, _) => p in w.built
    case Saving(tag, p, _) => TagOk(w.cache, hash, w.built, steady, c.key, tag, p)
    case Answering(tag, p, _) => TagOk(w.cache, hash, w.built, steady, c.key, tag, p)
    case _ => true
  }

  ghost predicate EntryOk(w: World, hash: Hash, steady: set<string>, key: string)
    requires key in w.cache.entries
  {
    var e := w.cache.entries[key].entry;
    TagOk(w.cache, hash, w.built, steady, key, e.etag, e.payload)
  }

  ghost predicate SentOk(w: World, hash: Hash, steady: set<string>, s: Sent) {
    TagOk(w.cache, hash, w.built, steady, s.key, s.tag, s.body) && (s.full <==> !Matches(s.presented, s.tag))
  }

  ghost predicate WorldOk(w: World, hash: Hash, steady: set<string>) {
    && (forall key {:trigger EntryOk(w, hash, steady, key)} :: key in w.cache.entries ==> EntryOk(w, hash, steady, key))
    && (forall t {:trigger CallOk(w, hash, steady, w.calls[t])} :: t in w.calls ==> CallOk(w, hash, steady, w.calls[t]))
    && (forall i {:trigger SentOk(w, hash, steady, w.sent[i])} :: 0 <= i < |w.sent| ==> SentOk(w, hash, steady, w.sent[i]))
  }

  /** Steady versions rise, bodies built stay built. */
  predicate Rises(w: World, v: World, steady: set<string>) {
    w.built <= v.built && forall key {:trigger VersionOf(v.cache, key)} :: key in steady ==> VersionOf(w.cache, key) <= VersionOf(v.cache, key)
  }

  /** This step starts no steady document's counter over. */
  predicate IsSteady(w: World, step: Step, steady: set<string>) {
    step.BumpVersion? && step.key in steady ==> VersionOf(w.cache, step.key) < MAX_VERSION
  }

  lemma TagStaysOk(w: World, v: World, hash: Hash, steady: set<string>, key: string, tag: string, body: string)
    requires Rises(w, v, steady) && TagOk(w.cache, hash, w.built, steady, key, tag, body)
    ensures TagOk(v.cache, hash, v.built, steady, key, tag, body)
  {
    var n: nat :| (key in steady ==> n <= VersionOf(w.cache, key)) && tag == BuildETag(hash, n, body);
    assert key in steady ==> n <= VersionOf(v.cache, key);
  }

  /** A step is in order when versions rise and whatever it stored, moved or sent is in order. */
  lemma KeptBy(w: World, v: World, hash: Hash, steady: set<string>)
    requires WorldOk(w, hash, steady) && Rises(w, v, steady)
    requires forall key {:trigger EntryOk(v, hash, steady, key)} :: key in v.cache.entries ==>
               (key in w.cache.entries && v.cache.entries[key] == w.cache.entries[key]) || EntryOk(v, hash, steady, key)
    requires forall t {:trigger CallOk(v, hash, steady, v.calls[t])} :: t in v.calls ==>
               (t in w.calls && v.calls[t] == w.calls[t]) || CallOk(v, hash, steady, v.calls[t])
    requires forall i {:trigger SentOk(v, hash, steady, v.sent[i])} :: 0 <= i < |v.sent| ==>
               (i < |w.sent| && v.sent[i] == w.sent[i]) || SentOk(v, hash, steady, v.sent[i])
    ensures WorldOk(v, hash, steady)
  {
    forall key | key in v.cache.entries ensures EntryOk(v, hash, steady, key) {
      if key in w.cache.entries && v.cache.entries[key] == w.cache.entries[key] {
        assert EntryOk(w, hash, steady, key);
        var e := w.cache.entries[key].entry;
        TagStaysOk(w, v, hash, steady, key, e.etag, e.payload);
      }
    }
    forall t | t in v.calls ensures CallOk(v, hash, steady, v.calls[t]) {
      if t in w.calls && v.calls[t] == w.calls[t] {
        CallStaysOk(w, v, hash, steady, w.calls[t]);
      }
    }
    forall i | 0 <= i < |v.sent| ensures SentOk(v, hash, steady, v.sent[i]) {
      if i < |w.sent| && v.sent[i] == w.sent[i] {
        assert SentOk(w, hash, steady, w.sent[i]);
        TagStaysOk(w, v, hash, steady, w.sent[i].key, w.sent[i].tag, w.sent[i].body);
      }
    }
  }

  lemma CallStaysOk(w: World, v: World, hash: Hash, steady: set<string>, c: Call)
    requires Rises(w, v, steady) && CallOk(w, hash, steady, c)
    ensures CallOk(v, hash, steady, c)
  {
    if c.phase.Saving? || c.phase.Answering? {
      TagStaysOk(w, v, hash, steady, c.key, c.phase.tag, c.phase.payload);
    }
  }

  lemma FireKeeps(w: World, hash: Hash, steady: set<string>, t: nat, step: Step)
    requires WorldOk(w, hash, steady) && Enabled(w, t, step) && IsSteady(w, step, steady)
    ensures WorldOk(Fire(w, hash, t, step), hash, steady) && Rises(w, Fire(w, hash, t, step), steady)
  {
    var v := Fire(w, hash, t, step);
    assert Rises(w, v, steady);
    if t in w.calls {
      assert CallOk(w, hash, steady, w.calls[t]);
      if w.calls[t].key in w.cache.entries {
        assert EntryOk(w, hash, steady, w.calls[t].key);
      }
    }
    KeptBy(w, v, hash, steady);
  }

  // ---- Runs ----

  predicate IsRun(w: World, hash: Hash, steps: seq<(nat, Step)>)
    decreases |steps|
  {
    steps == [] || (Enabled(w, steps[0].0, steps[0].1) && IsRun(Fire(w, hash, steps[0].0, steps[0].1), hash, steps[1..]))
  }

  function Exec(w: World, hash: Hash, steps: seq<(nat, Step)>): World
    requires IsRun(w, hash, steps)
    decreases |steps|
  {
    if steps == [] then w else Exec(Fire(w, hash, steps[0].0, steps[0].1), hash, steps[1..])
  }

  /** The run starts no steady document's counter over. */
  predicate StaysSteady(w: World, hash: Hash, steps: seq<(nat, Step)>, steady: set<string>)
    requires IsRun(w, hash, steps)
    decreases |steps|
  {
    steps == [] ||
    (IsSteady(w, steps[0].1, steady) && StaysSteady(Fire(w, hash, steps[0].0, steps[0].1), hash, steps[1..], steady))
  }

  lemma {:induction false} NoneIsAlwaysSteady(w: World, hash: Hash, steps: seq<(nat, Step)>)
    requires IsRun(w, hash, steps)
    ensures StaysSteady(w, hash, steps, {})
    decreases |steps|
  {
    if steps != [] {
      NoneIsAlwaysSteady(Fire(w, hash, steps[0].0, steps[0].1), hash, steps[1..]);
    }
  }

  lemma {:induction false} RunKeeps(w: World, hash: Hash, steady: set<string>, steps: seq<(nat, Step)>)
    requires WorldOk(w, hash, steady) && IsRun(w, hash, steps) && StaysSteady(w, hash, steps, steady)
    ensures WorldOk(Exec(w, hash, steps), hash, steady) && Rises(w, Exec(w, hash, steps), steady)
    decreases |steps|
  {
    if steps != [] {
      FireKeeps(w, hash, steady, steps[0].0, steps[0].1);
      RunKeeps(Fire(w, hash, steps[0].0, steps[0].1), hash, steady, steps[1..]);
    }
  }

  /** No two bodies this run built share a digest. */
  predicate DigestsApart(hash: Hash, built: set<string>) {
    forall p, q :: p in built && q in built && Digest(hash, p) == Digest(hash, q) ==> p == q
  }

  /**
   * A 304 never lies. Over every interleaving, an answer without a body went
   * to a client whose header covers the tag, and every copy ever sent under
   * that tag, for whatever document, is byte for byte the body a 200 would
   * have carried.
   */
  lemma {:induction false} NotModifiedMeansSameBody(w: World, hash: Hash, steps: seq<(nat, Step)>, i: nat, j: nat)
    requires WorldOk(w, hash, {}) && IsRun(w, hash, steps) && DigestsApart(hash, Exec(w, hash, steps).built)
    requires i < |Exec(w, hash, steps).sent| && j < |Exec(w, hash, steps).sent|
    ensures var sent := Exec(w, hash, steps).sent;
            && (sent[i].full <==> !Matches(sent[i].presented, sent[i].tag))
            && (!sent[i].full && sent[j].full && sent[j].tag == sent[i].tag ==> sent[j].body == sent[i].body)
  {
    NoneIsAlwaysSteady(w, hash, steps);
    RunKeeps(w, hash, {}, steps);
    var v := Exec(w, hash, steps);
    var a, b := v.sent[i], v.sent[j];
    assert SentOk(v, hash, {}, a) && SentOk(v, hash, {}, b);
    var m: nat :| a.tag == BuildETag(hash, m, a.body);
    var n: nat :| b.tag == BuildETag(hash, n, b.body);
    TagsDiffer(hash, m, a.body, n, b.body);
  }

  /**
   * What is stored is tagged as itself, whatever raced; and, unless the run
   * started the document's counter over, at a version not above the current one.
   */
  lemma {:induction false} StoredTagsAreTheirOwn(w: World, hash: Hash, steps: seq<(nat, Step)>, steady: set<string>, key: string)
    requires WorldOk(w, hash, steady) && IsRun(w, hash, steps) && StaysSteady(w, hash, steps, steady)
    requires key in Exec(w, hash, steps).cache.entries
    ensures var c := Exec(w, hash, steps).cache;
            var e := c.entries[key].entry;
            exists v: nat {:trigger BuildETag(hash, v, e.payload)} ::
              (key in steady ==> v <= VersionOf(c, key)) && e.etag == BuildETag(hash, v, e.payload)
  {
    RunKeeps(w, hash, steady, steps);
    assert EntryOk(Exec(w, hash, steps), hash, steady, key);
  }

  /**
   * A tag whose version was read after an invalidation was never sent or stored
   * for that document before it, however the calls overlap, as long as the
   * counter did not start over from the invalidation on.
   */
  lemma {:induction false} TagAfterInvalidateIsNew(w: World, hash: Hash, b: nat, steps: seq<(nat, Step)>, t: nat, key: string)
    requires WorldOk(w, hash, {key}) && Enabled(w, b, BumpVersion(key)) && IsRun(w, hash, [(b, BumpVersion(key))] + steps)
    requires StaysSteady(w, hash, [(b, BumpVersion(key))] + steps, {key})
    requires var v := Exec(w, hash, [(b, BumpVersion(key))] + steps); Enabled(v, t, ReadVersion(true)) && v.calls[t].key == key
    ensures var v := Exec(w, hash, [(b, BumpVersion(key))] + steps);
            var tag := Fire(v, hash, t, ReadVersion(true)).calls[t].phase.tag;
            && (forall i :: 0 <= i < |w.sent| && w.sent[i].key == key ==> w.sent[i].tag != tag)
            && (key in w.cache.entries ==> w.cache.entries[key].entry.etag != tag)
  {
    var all := [(b, BumpVersion(key))] + steps;
    assert all[0] == (b, BumpVersion(key)) && all[1..] == steps;
    var bumped := Fire(w, hash, b, BumpVersion(key));
    FireKeeps(w, hash, {key}, b, BumpVersion(key));
    RunKeeps(bumped, hash, {key}, steps);
    var v := Exec(bumped, hash, steps);
    assert VersionOf(w.cache, key) < VersionOf(bumped.cache, key) <= VersionOf(v.cache, key);
    var payload := v.calls[t].phase.payload;
    var tag := BuildETag(hash, VersionOf(v.cache, key), payload);
    forall i | 0 <= i < |w.sent| && w.sent[i].key == key ensures w.sent[i].tag != tag {
      assert SentOk(w, hash, {key}, w.sent[i]);
      OlderTagDiffers(w, hash, key, w.sent[i].tag, w.sent[i].body, VersionOf(v.cache, key), payload);
    }
    if key in w.cache.entries {
      assert EntryOk(w, hash, {key}, key);
      OlderTagDiffers(w, hash, key, w.cache.entries[key].entry.etag, w.cache.entries[key].entry.payload, VersionOf(v.cache, key), payload);
    }
  }

  lemma OlderTagDiffers(w: World, hash: Hash, key: string, tag: string, body: string, version: nat, payload: string)
    requires TagOk(w.cache, hash, w.built, {key}, key, tag, body) && VersionOf(w.cache, key) < version
    ensures tag != BuildETag(hash, version, payload)
  {
    var n: nat :| n <= VersionOf(w.cache, key) && tag == BuildETag(hash, n, body);
    TagsDiffer(hash, n, body, version, payload);
  }

  // ---- What overlapping costs ----

  /**
   * Freshness is not promised: whenever a body was built and its version not
   * yet read, an invalidation slipping in between leaves that old body stored
   * after it, under a tag of the new version.
   */
  lemma OldBodyOutlivesInvalidation(w: World, hash: Hash, t: nat, u: nat, lifetime: int, at: Instant)
    requires t in w.calls && w.calls[t].phase.Versioning? && w.calls[t].phase.payload != "" && lifetime > 0
    requires Enabled(w, u, BumpVersion(w.calls[t].key))
    ensures var key, payload := w.calls[t].key, w.calls[t].phase.payload;
            var race := [(u, BumpVersion(key)), (u, DropBody(key)), (t, ReadVersion(true)), (t, Save(at, lifetime, true))];
            && IsRun(w, hash, race)
            && Exec(w, hash, race).cache == AfterSave(AfterInvalidate(w.cache, key), key, Entry(BuildETag(hash, NextVersion(VersionOf(w.cache, key)), payload), payload), lifetime, at)
            && Lookup(Exec(w, hash, race).cache, key, at) == Some(Entry(BuildETag(hash, NextVersion(VersionOf(w.cache, key)), payload), payload))
  {
    var key := w.calls[t].key;
    var a, b, c, d := (u, BumpVersion(key)), (u, DropBody(key)), (t, ReadVersion(true)), (t, Save(at, lifetime, true));
    var w2 := Invalidated(w, key);
    var w3 := Fire(w2, hash, c.0, c.1);
    VersionReadLate(w2, hash, t, lifetime, at);
    var w4 := Fire(w3, hash, d.0, d.1);
    assert IsRun(w4, hash, []) && Exec(w4, hash, []) == w4;
    OneMoreStep(w3, hash, d, []);
    OneMoreStep(w2, hash, c, [d] + []);
    InvalidateFirst(w, hash, u, key, [c] + ([d] + []));
    assert [a, b, c, d] == [a] + ([b] + ([c] + ([d] + [])));
  }

  /** Version up, body gone, two steps later. */
  function Invalidated(w: World, key: string): World {
    w.(cache := AfterInvalidate(w.cache, key), tick := w.tick + 2)
  }

  lemma InvalidateFirst(w: World, hash: Hash, u: nat, key: string, rest: seq<(nat, Step)>)
    requires key != "" && IsRun(Invalidated(w, key), hash, rest)
    ensures var steps := [(u, BumpVersion(key))] + ([(u, DropBody(key))] + rest);
            IsRun(w, hash, steps) && Exec(w, hash, steps) == Exec(Invalidated(w, key), hash, rest)
  {
    var w1 := Fire(w, hash, u, BumpVersion(key));
    assert Fire(w1, hash, u, DropBody(key)) == Invalidated(w, key);
    OneMoreStep(w1, hash, (u, DropBody(key)), rest);
    OneMoreStep(w, hash, (u, BumpVersion(key)), [(u, DropBody(key))] + rest);
  }

  /** Its version read and its body saved, a call leaves that body stored under the version as it is now. */
  lemma VersionReadLate(w: World, hash: Hash, t: nat, lifetime: int, at: Instant)
    requires t in w.calls && w.calls[t].phase.Versioning? && w.calls[t].phase.payload != "" && lifetime > 0 && w.calls[t].key != ""
    ensures var key, payload := w.calls[t].key, w.calls[t].phase.payload;
            var entry := Entry(BuildETag(hash, VersionOf(w.cache, key), payload), payload);
            var read := Fire(w, hash, t, ReadVersion(true));
            && Enabled(w, t, ReadVersion(true)) && Enabled(read, t, Save(at, lifetime, true))
            && Fire(read, hash, t, Save(at, lifetime, true)).cache == AfterSave(w.cache, key, entry, lifetime, at)
            && Lookup(AfterSave(w.cache, key, entry, lifetime, at), key, at) == Some(entry)
  {
  }

  lemma OneMoreStep(w: World, hash: Hash, first: (nat, Step), rest: seq<(nat, Step)>)
    requires Enabled(w, first.0, first.1) && IsRun(Fire(w, hash, first.0, first.1), hash, rest)
    ensures IsRun(w, hash, [first] + rest) && Exec(w, hash, [first] + rest) == Exec(Fire(w, hash, first.0, first.1), hash, rest)
  {
    assert ([first] + rest)[0] == first && ([first] + rest)[1..] == rest;
  }
}
