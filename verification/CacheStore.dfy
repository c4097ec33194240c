/** The store behind conditional reads: bodies with their tags, and the counters the tags are built from. */
module CacheStore {
  import opened Collections
  import opened BookingStatus

  type UInt64 = n: int | 0 <= n < 0x1_0000_0000_0000_0000
  const MAX_VERSION: UInt64 := 0xffff_ffff_ffff_ffff

  datatype Entry = Entry(etag: string, payload: string) {
    /** Half a cached response is not a response. */
    predicate IsUsable() {
      etag != "" && payload != ""
    }
  }

  datatype Held = Held(entry: Entry, expireAt: Instant)

  datatype Cache = Cache(entries: map<string, Held>, versions: map<string, UInt64>)

  function VersionOf(c: Cache, key: string): UInt64 {
    if key in c.versions then c.versions[key] else 0
  }

  /** A counter past its top starts again at zero. */
  function NextVersion(v: UInt64): UInt64 {
    if v == MAX_VERSION then 0 else v + 1
  }

  predicate Stands(c: Cache, key: string, now: Instant) {
    key in c.entries && now < c.entries[key].expireAt
  }

  function Lookup(c: Cache, key: string, now: Instant): Option<Entry> {
    if key != "" && Stands(c, key, now) then Some(c.entries[key].entry) else None
  }

  /** An expired body goes as it is read. */
  function AfterLookup(c: Cache, key: string, now: Instant): Cache {
    if key == "" || Stands(c, key, now) then c else Drop(c, key)
  }

  predicate CanSave(key: string, entry: Entry, lifetime: int) {
    key != "" && entry.IsUsable() && lifetime > 0
  }

  function AfterSave(c: Cache, key: string, entry: Entry, lifetime: int, now: Instant): Cache {
    if CanSave(key, entry, lifetime) then c.(entries := c.entries[key := Held(entry, now + lifetime)]) else c
  }

  function Bump(c: Cache, key: string): Cache {
    c.(versions := c.versions[key := NextVersion(VersionOf(c, key))])
  }

  function Drop(c: Cache, key: string): Cache {
    c.(entries := c.entries - {key})
  }

  /** The version rises first and the body goes second; a document without a name is left alone. */
  function AfterInvalidate(c: Cache, key: string): Cache {
    if key == "" then c else Drop(Bump(c, key), key)
  }

  class MemoryStore {
    var entries: map<string, Held>
    var versions: map<string, UInt64>

    ghost function State(): Cache
      reads this
    {
      Cache(entries, versions)
    }

    constructor ()
      ensures State() == Cache(map[], map[])
    {
      entries, versions := map[], map[];
    }

    method ReadEntry(key: string, now: Instant) returns (found: Option<Entry>, refused: bool)
      modifies this
      ensures refused <==> key == ""
      ensures found == Lookup(old(State()), key, now) && State() == AfterLookup(old(State()), key, now)
    {
      if key == "" {
        return None, true;
      }
      if key !in entries {
        assert entries - {key} == entries;
        return None, false;
      }
      var stored := entries[key];
      if !(now < stored.expireAt) {
        entries := entries - {key};
        return None, false;
      }
      return Some(stored.entry), false;
    }

    method Save(key: string, entry: Entry, lifetime: int, now: Instant) returns (refused: bool)
      modifies this
      ensures refused <==> !CanSave(key, entry, lifetime)
      ensures State() == AfterSave(old(State()), key, entry, lifetime, now)
    {
      if key == "" || !entry.IsUsable() || lifetime <= 0 {
        return true;
      }
      entries := entries[key := Held(entry, now + lifetime)];
      return false;
    }

    method ReadVersion(key: string) returns (version: UInt64, refused: bool)
      ensures refused <==> key == ""
      ensures version == if refused then 0 else VersionOf(State(), key)
    {
      if key == "" {
        return 0, true;
      }
      return if key in versions then versions[key] else 0, false;
    }

    method Invalidate(key: string) returns (version: UInt64, refused: bool)
      modifies this
      ensures refused <==> key == ""
      ensures State() == AfterInvalidate(old(State()), key)
      ensures version == if refused then 0 else VersionOf(State(), key)
    {
      if key == "" {
        return 0, true;
      }
      var held := if key in versions then versions[key] else 0;
      versions := versions[key := if held == MAX_VERSION then 0 else held + 1];
      entries := entries - {key};
      return versions[key], false;
    }
  }
}
