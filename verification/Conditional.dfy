/** Conditional reads, one call at a time, and what runs of whole calls keep. */
module Conditional {
  import opened Collections
  import opened BookingStatus
  import opened ETag
  import opened CacheStore

  datatype Answer = NotModified(tag: string) | Full(tag: string, payload: string) | Denied

  const DEFAULT_LIFETIME: int := 30_000_000_000

  function AnswerWith(presented: string, tag: string, payload: string): Answer {
    if Matches(presented, tag) then NotModified(tag) else Full(tag, payload)
  }

  /** The version a rebuild publishes; a document without a name reads as zero. */
  function PublishedVersion(c: Cache, key: string): UInt64 {
    if key == "" then 0 else VersionOf(c, key)
  }

  /** One whole call: the stored body, or a body built, tagged and stored. Nothing built is a refusal. */
  function ServeOnce(c: Cache, hash: Hash, key: string, presented: string, built: Option<string>, lifetime: int, readAt: Instant, savedAt: Instant): (Answer, Cache) {
    var stored := Lookup(c, key, readAt);
    var after := AfterLookup(c, key, readAt);
    if stored.Some? then (AnswerWith(presented, stored.value.etag, stored.value.payload), after)
    else if built.None? then (Denied, after)
    else
      var tag := BuildETag(hash, PublishedVersion(after, key), built.value);
      (AnswerWith(presented, tag, built.value), AfterSave(after, key, Entry(tag, built.value), lifetime, savedAt))
  }

  function AfterInvalidates(c: Cache, keys: seq<string>): Cache {
    if keys == [] then c
    else AfterInvalidate(AfterInvalidates(c, keys[..|keys| - 1]), keys[|keys| - 1])
  }

  class ConditionalServer {
    const store: MemoryStore
    const lifetime: int

    constructor (store: MemoryStore, lifetime: int)
      ensures this.store == store && this.lifetime == (if lifetime <= 0 then DEFAULT_LIFETIME else lifetime)
    {
      this.store := store;
      this.lifetime := if lifetime <= 0 then DEFAULT_LIFETIME else lifetime;
    }

    method Serve(hash: Hash, key: string, presented: string, built: Option<string>, readAt: Instant, savedAt: Instant) returns (answer: Answer)
      modifies store
      ensures (answer, store.State()) == ServeOnce(old(store.State()), hash, key, presented, built, lifetime, readAt, savedAt)
    {
      var stored, refused := store.ReadEntry(key, readAt);
      if !refused && stored.Some? {
        if Matches(presented, stored.value.etag) {
          return NotModified(stored.value.etag);
        }
        return Full(stored.value.etag, stored.value.payload);
      }
      answer := Rebuild(hash, key, presented, built, savedAt);
    }

    method Rebuild(hash: Hash, key: string, presented: string, built: Option<string>, savedAt: Instant) returns (answer: Answer)
      modifies store
      ensures built.None? ==> answer == Denied && store.State() == old(store.State())
      ensures built.Some? ==>
                var tag := BuildETag(hash, PublishedVersion(old(store.State()), key), built.value);
                && answer == AnswerWith(presented, tag, built.value)
                && store.State() == AfterSave(old(store.State()), key, Entry(tag, built.value), lifetime, savedAt)
    {
      if built.None? {
        return Denied;
      }
      var payload := built.value;
      var version, _ := store.ReadVersion(key);
      var tag := BuildETag(hash, version, payload);
      var _ := store.Save(key, Entry(tag, payload), lifetime, savedAt);
      if Matches(presented, tag) {
        return NotModified(tag);
      }
      return Full(tag, payload);
    }

    method Invalidate(keys: seq<string>)
      modifies store
      ensures store.State() == AfterInvalidates(old(store.State()), keys)
    {
      for i := 0 to |keys|
        invariant store.State() == AfterInvalidates(old(store.State()), keys[..i])
      {
        assert keys[..i + 1][..i] == keys[..i];
        if keys[i] == "" {
          continue;
        }
        var _, _ := store.Invalidate(keys[i]);
      }
      assert keys[..|keys|] == keys;
    }
  }

  // ---- Whole calls, one after another ----

  /** The documents as they are, and the cache in front of them. */
  datatype Site = Site(documents: map<string, string>, cache: Cache)

  datatype Event =
    | Ask(key: string, presented: string, lifetime: int, readAt: Instant, savedAt: Instant)
    | Change(key: string, body: string)

  function Document(s: Site, key: string): Option<string> {
    if key in s.documents then Some(s.documents[key]) else None
  }

  function AnswerTo(s: Site, hash: Hash, e: Event): Answer
    requires e.Ask?
  {
    ServeOnce(s.cache, hash, e.key, e.presented, Document(s, e.key), e.lifetime, e.readAt, e.savedAt).0
  }

  /** Every change to a document invalidates it before anybody asks again. */
  function After(s: Site, hash: Hash, e: Event): Site {
    match e
    case Ask(key, presented, lifetime, readAt, savedAt) =>
      s.(cache := ServeOnce(s.cache, hash, key, presented, Document(s, key), lifetime, readAt, savedAt).1)
    case Change(key, body) => Site(s.documents[key := body], AfterInvalidate(s.cache, key))
  }

  function Run(s: Site, hash: Hash, events: seq<Event>): Site
    decreases |events|
  {
    if events == [] then s else Run(After(s, hash, events[0]), hash, events[1..])
  }

  /** What is stored is the document as it is, under the tag of its current version. */
  predicate IsFresh(s: Site, hash: Hash, key: string)
    requires key in s.cache.entries
  {
    && key != "" && key in s.documents
    && s.cache.entries[key].entry == Entry(BuildETag(hash, VersionOf(s.cache, key), s.documents[key]), s.documents[key])
  }

  ghost predicate SiteOk(s: Site, hash: Hash) {
    forall key {:trigger IsFresh(s, hash, key)} :: key in s.cache.entries ==> IsFresh(s, hash, key)
  }

  lemma AfterKeeps(s: Site, hash: Hash, e: Event)
    requires SiteOk(s, hash)
    ensures SiteOk(After(s, hash, e), hash)
  {
    var t := After(s, hash, e);
    forall key | key in t.cache.entries ensures IsFresh(t, hash, key) {
      if key in s.cache.entries {
        assert IsFresh(s, hash, key);
      }
    }
  }

  lemma {:induction false} RunKeeps(s: Site, hash: Hash, events: seq<Event>)
    requires SiteOk(s, hash)
    ensures SiteOk(Run(s, hash, events), hash)
    decreases |events|
  {
    if events != [] {
      AfterKeeps(s, hash, events[0]);
      RunKeeps(After(s, hash, events[0]), hash, events[1..]);
    }
  }

  /**
   * Whole calls serve the document as it is. However the run went, an answer
   * carries the current body, or is a 304 under the tag of the current body at
   * the current version; and it is a 304 exactly when the header covers that tag.
   */
  lemma {:induction false} WholeCallsAreFresh(s: Site, hash: Hash, events: seq<Event>, ask: Event)
    requires SiteOk(s, hash) && ask.Ask? && ask.key != ""
    ensures var now := Run(s, hash, events);
            var answer := AnswerTo(now, hash, ask);
            && (answer.Denied? <==> ask.key !in now.documents)
            && (ask.key in now.documents ==>
                  var tag := BuildETag(hash, VersionOf(now.cache, ask.key), now.documents[ask.key]);
                  answer == if Matches(ask.presented, tag) then NotModified(tag) else Full(tag, now.documents[ask.key]))
  {
    RunKeeps(s, hash, events);
    var now := Run(s, hash, events);
    if ask.key in now.cache.entries {
      assert IsFresh(now, hash, ask.key);
    }
  }

  // ---- Tags over runs ----

  /** How many versions there are before they start again. */
  const VERSIONS: nat := 0x1_0000_0000_0000_0000

  function ChangesTo(events: seq<Event>, key: string): nat {
    if events == [] then 0 else (if events[0].Change? && events[0].key == key then 1 else 0) + ChangesTo(events[1..], key)
  }

  lemma VersionAfter(s: Site, hash: Hash, e: Event, key: string)
    requires key != ""
    ensures VersionOf(After(s, hash, e).cache, key)
            == if e.Change? && e.key == key then NextVersion(VersionOf(s.cache, key)) else VersionOf(s.cache, key)
  {
  }

  /** The counter n bumps on. */
  function Onward(v: UInt64, n: nat): UInt64 {
    if n == 0 then v else NextVersion(Onward(v, n - 1))
  }

  /** A whole number of turns of the counter. */
  predicate WholeTurns(n: nat) {
    n % VERSIONS == 0
  }

  lemma {:induction false} OnwardAfterNext(v: UInt64, n: nat)
    ensures Onward(NextVersion(v), n) == Onward(v, n + 1)
  {
    if n > 0 {
      OnwardAfterNext(v, n - 1);
    }
  }

  lemma AroundTheTurn(x: int)
    requires x >= 0
    ensures (x + 1) % VERSIONS == if x % VERSIONS == MAX_VERSION as int then 0 else x % VERSIONS + 1
  {
  }

  lemma {:induction false} OnwardIsRemainder(v: UInt64, n: nat)
    ensures Onward(v, n) as int == (v as int + n) % VERSIONS
  {
    if n > 0 {
      OnwardIsRemainder(v, n - 1);
      AroundTheTurn(v as int + n - 1);
    }
  }

  /** The counter shows what it showed exactly after whole turns. */
  lemma OnwardReturns(v: UInt64, n: nat)
    ensures Onward(v, n) == v <==> WholeTurns(n)
  {
    OnwardIsRemainder(v, n);
    SameRemainder(v, n);
  }

  lemma SameRemainder(v: int, n: nat)
    requires 0 <= v < VERSIONS
    ensures (v + n) % VERSIONS == v <==> n % VERSIONS == 0
  {
  }

  /** A document's counter is moved by its changes and by nothing else, around and around. */
  lemma {:induction false} VersionCountsChanges(s: Site, hash: Hash, events: seq<Event>, key: string)
    requires key != ""
    ensures VersionOf(Run(s, hash, events).cache, key) == Onward(VersionOf(s.cache, key), ChangesTo(events, key))
    decreases |events|
  {
    if events != [] {
      VersionAfter(s, hash, events[0], key);
      OnwardAfterNext(VersionOf(s.cache, key), ChangesTo(events[1..], key));
      VersionCountsChanges(After(s, hash, events[0]), hash, events[1..], key);
    }
  }

  /** The tag on an answer is the document's own. */
  lemma AnswerTag(s: Site, hash: Hash, ask: Event)
    requires SiteOk(s, hash) && ask.Ask? && ask.key != "" && !AnswerTo(s, hash, ask).Denied?
    ensures ask.key in s.documents
    ensures AnswerTo(s, hash, ask).tag == BuildETag(hash, VersionOf(s.cache, ask.key), s.documents[ask.key])
  {
    WholeCallsAreFresh(s, hash, [], ask);
  }

  lemma SameTagExactly(hash: Hash, v: UInt64, p: string, n: nat, u: UInt64, q: string)
    requires u == Onward(v, n)
    ensures BuildETag(hash, v, p) == BuildETag(hash, u, q) <==> WholeTurns(n) && Digest(hash, p) == Digest(hash, q)
  {
    OnwardReturns(v, n);
    TagsDiffer(hash, v, p, u, q);
  }

  /** The version answered now and the version answered after a run. */
  lemma VersionAfterRun(s: Site, hash: Hash, before: Event, events: seq<Event>, key: string)
    requires before.Ask? && key != ""
    ensures VersionOf(Run(After(s, hash, before), hash, events).cache, key) == Onward(VersionOf(s.cache, key), ChangesTo(events, key))
  {
    VersionAfter(s, hash, before, key);
    VersionCountsChanges(After(s, hash, before), hash, events, key);
  }

  /** Two answers at two moments, the version having moved on by n. */
  lemma TagsCompare(s: Site, end: Site, hash: Hash, before: Event, ask: Event, n: nat)
    requires SiteOk(s, hash) && SiteOk(end, hash) && before.Ask? && ask.Ask? && before.key == ask.key && ask.key != ""
    requires !AnswerTo(s, hash, before).Denied? && !AnswerTo(end, hash, ask).Denied?
    requires VersionOf(end.cache, ask.key) == Onward(VersionOf(s.cache, ask.key), n)
    ensures ask.key in s.documents && ask.key in end.documents
    ensures AnswerTo(s, hash, before).tag == AnswerTo(end, hash, ask).tag
            <==> WholeTurns(n) && Digest(hash, s.documents[ask.key]) == Digest(hash, end.documents[ask.key])
  {
    AnswerTag(s, hash, before);
    AnswerTag(end, hash, ask);
    SameTagExactly(hash, VersionOf(s.cache, ask.key), s.documents[ask.key], n, VersionOf(end.cache, ask.key), end.documents[ask.key]);
  }

  /**
   * When a change shows. Of two answers for a document, with any run between
   * them, the tags are the same exactly when the bytes have the same digest and
   * the document changed a whole number of turns of the counter. So a change is
   * always visible, even if the bytes came back, short of a full turn.
   */
  lemma {:induction false} ChangeMovesTheTagExactly(s: Site, hash: Hash, before: Event, events: seq<Event>, ask: Event)
    requires SiteOk(s, hash) && before.Ask? && ask.Ask? && before.key == ask.key && ask.key != ""
    requires !AnswerTo(s, hash, before).Denied? && !AnswerTo(Run(After(s, hash, before), hash, events), hash, ask).Denied?
    ensures var end := Run(After(s, hash, before), hash, events);
            && ask.key in s.documents && ask.key in end.documents
            && (AnswerTo(s, hash, before).tag == AnswerTo(end, hash, ask).tag
                <==> WholeTurns(ChangesTo(events, ask.key))
                     && Digest(hash, s.documents[ask.key]) == Digest(hash, end.documents[ask.key]))
  {
    AfterKeeps(s, hash, before);
    RunKeeps(After(s, hash, before), hash, events);
    VersionAfterRun(s, hash, before, events, ask.key);
    TagsCompare(s, Run(After(s, hash, before), hash, events), hash, before, ask, ChangesTo(events, ask.key));
  }

  /** The same change made over and over. */
  function Rewritten(key: string, body: string, times: nat): seq<Event> {
    if times == 0 then [] else [Change(key, body)] + Rewritten(key, body, times - 1)
  }

  lemma {:induction false} RewrittenChanges(s: Site, hash: Hash, key: string, body: string, times: nat)
    ensures ChangesTo(Rewritten(key, body, times), key) == times
    ensures times > 0 ==> key in Run(s, hash, Rewritten(key, body, times)).documents
                          && Run(s, hash, Rewritten(key, body, times)).documents[key] == body
    decreases times
  {
    if times > 0 {
      var all := Rewritten(key, body, times);
      assert all[0] == Change(key, body) && all[1..] == Rewritten(key, body, times - 1);
      RewrittenChanges(After(s, hash, all[0]), hash, key, body, times - 1);
      if times == 1 {
        assert Run(After(s, hash, all[0]), hash, []) == After(s, hash, all[0]);
      }
    }
  }

  /** A full turn does bring a tag back: from any site, rewriting a document once for every version there is ends with the tag answered at first. */
  lemma {:induction false} WrappedTagRepeats(s: Site, hash: Hash, ask: Event)
    requires SiteOk(s, hash) && ask.Ask? && ask.key != "" && ask.key in s.documents
    ensures var turn := Rewritten(ask.key, s.documents[ask.key], VERSIONS);
            && !AnswerTo(s, hash, ask).Denied?
            && AnswerTo(Run(After(s, hash, ask), hash, turn), hash, ask) == AnswerTo(s, hash, ask)
  {
    var body := s.documents[ask.key];
    var asked := After(s, hash, ask);
    WholeCallsAreFresh(s, hash, [], ask);
    RewrittenChanges(asked, hash, ask.key, body, VERSIONS);
    AfterKeeps(s, hash, ask);
    WholeCallsAreFresh(asked, hash, Rewritten(ask.key, body, VERSIONS), ask);
    ChangeMovesTheTagExactly(s, hash, ask, Rewritten(ask.key, body, VERSIONS), ask);
  }
}
