/**
 * The refresh-token store: issue, rotate, end a family.
 *
 * The store is a table keyed by token hash. What a run of it keeps is said of
 * the chains it grew: every sign in starts one, every successful rotation adds
 * one link to its end.
 */
module RefreshTokens {
  import opened Collections
  import opened BookingStatus

  type Hash = string

  datatype Record = Record(
    id: string, parentId: string, familyId: string, tokenHash: Hash,
    expiresAt: Instant, revokedAt: Instant, createdAt: Instant)
  {
    predicate IsRevoked() {
      revokedAt != ZERO
    }

    /** The instant it expires at is already too late. */
    predicate IsExpired(now: Instant) {
      now >= expiresAt
    }
  }

  datatype IssueRequest = IssueRequest(
    tokenId: string, parentId: string, familyId: string, tokenHash: Hash, expiresAt: Instant, now: Instant)
  {
    predicate IsValid() {
      tokenId != "" && parentId != "" && familyId != "" && tokenHash != "" && now != ZERO && expiresAt > now
    }
  }

  datatype RotateRequest = RotateRequest(
    presented: Hash, nextId: string, nextHash: Hash, nextExpiresAt: Instant, now: Instant)
  {
    predicate IsValid() {
      presented != "" && nextHash != "" && nextId != "" && now != ZERO && nextExpiresAt > now
    }
  }

  datatype TokenError = InvalidRequest | TokenNotFound | TokenReused | TokenExpired | DuplicateToken

  datatype Answer = Written(record: Record) | Refused(error: TokenError)

  type Table = map<Hash, Record>

  // ---- What each call does ----

  function Issued(r: IssueRequest): Record {
    Record(r.tokenId, r.parentId, r.familyId, r.tokenHash, r.expiresAt, ZERO, r.now)
  }

  function Successor(spent: Record, r: RotateRequest): Record {
    Record(r.nextId, spent.parentId, spent.familyId, r.nextHash, r.nextExpiresAt, ZERO, r.now)
  }

  predicate IsLiveIn(record: Record, familyId: string) {
    record.familyId == familyId && !record.IsRevoked()
  }

  function LiveIn(table: Table, familyId: string): set<Hash> {
    set h | h in table && IsLiveIn(table[h], familyId)
  }

  function Stamped(table: Table, hashes: set<Hash>, now: Instant): Table {
    map h | h in table :: if h in hashes then table[h].(revokedAt := now) else table[h]
  }

  /** Every live token of the family stamped; what was stamped before keeps its stamp. */
  function FamilyEnded(table: Table, familyId: string, now: Instant): Table {
    Stamped(table, LiveIn(table, familyId), now)
  }

  lemma StampOneMore(table: Table, hashes: set<Hash>, h: Hash, now: Instant)
    requires h in table && h !in hashes
    ensures h in Stamped(table, hashes, now) && Stamped(table, hashes, now)[h] == table[h]
    ensures Stamped(table, hashes + {h}, now) == Stamped(table, hashes, now)[h := table[h].(revokedAt := now)]
  {
  }

  /** One step of ending a family: the next token is stamped exactly when it is live in the family. */
  lemma EndOneMore(table: Table, familyId: string, rest: set<Hash>, h: Hash, now: Instant)
    requires h in rest && rest <= table.Keys
    ensures var live := LiveIn(table, familyId);
            && h in Stamped(table, live - rest, now) && Stamped(table, live - rest, now)[h] == table[h]
            && if IsLiveIn(table[h], familyId) then
                 && |live - (rest - {h})| == |live - rest| + 1
                 && Stamped(table, live - (rest - {h}), now) == Stamped(table, live - rest, now)[h := table[h].(revokedAt := now)]
               else live - (rest - {h}) == live - rest
  {
    var live := LiveIn(table, familyId);
    StampOneMore(table, live - rest, h, now);
    if h in live {
      assert live - (rest - {h}) == (live - rest) + {h};
    } else {
      assert live - (rest - {h}) == live - rest;
    }
  }

  function IssueAnswer(table: Table, r: IssueRequest): Answer {
    if !r.IsValid() then Refused(InvalidRequest)
    else if r.tokenHash in table then Refused(DuplicateToken)
    else Written(Issued(r))
  }

  function IssueTable(table: Table, r: IssueRequest): Table {
    if IssueAnswer(table, r).Refused? then table else table[r.tokenHash := Issued(r)]
  }

  function RotateAnswer(table: Table, r: RotateRequest): Answer {
    if !r.IsValid() then Refused(InvalidRequest)
    else if r.presented !in table then Refused(TokenNotFound)
    else if table[r.presented].IsRevoked() then Refused(TokenReused)
    else if table[r.presented].IsExpired(r.now) then Refused(TokenExpired)
    else if r.nextHash in table then Refused(DuplicateToken)
    else Written(Successor(table[r.presented], r))
  }

  /** A reuse ends the family; a duplicate has already stamped the presented token when it is refused. */
  function RotateTable(table: Table, r: RotateRequest): Table {
    match RotateAnswer(table, r)
    case Written(next) => table[r.presented := table[r.presented].(revokedAt := r.now)][r.nextHash := next]
    case Refused(TokenReused) => FamilyEnded(table, table[r.presented].familyId, r.now)
    case Refused(DuplicateToken) => table[r.presented := table[r.presented].(revokedAt := r.now)]
    case Refused(_) => table
  }

  // ---- The store ----

  class MemoryRefreshStore {
    var byHash: map<Hash, Record>

    constructor ()
      ensures byHash == map[]
    {
      byHash := map[];
    }

    method Issue(r: IssueRequest) returns (answer: Answer)
      modifies this
      ensures answer == IssueAnswer(old(byHash), r) && byHash == IssueTable(old(byHash), r)
    {
      if !r.IsValid() {
        return Refused(InvalidRequest);
      }
      answer := InsertLocked(Record(r.tokenId, r.parentId, r.familyId, r.tokenHash, r.expiresAt, ZERO, r.now));
    }

    method Rotate(r: RotateRequest) returns (answer: Answer)
      modifies this
      ensures answer == RotateAnswer(old(byHash), r) && byHash == RotateTable(old(byHash), r)
    {
      if !r.IsValid() {
        return Refused(InvalidRequest);
      }
      if r.presented !in byHash {
        return Refused(TokenNotFound);
      }
      var presented := byHash[r.presented];
      if presented.IsRevoked() {
        var _ := RevokeFamilyLocked(presented.familyId, r.now);
        return Refused(TokenReused);
      }
      if presented.IsExpired(r.now) {
        return Refused(TokenExpired);
      }
      byHash := byHash[r.presented := presented.(revokedAt := r.now)];
      answer := InsertLocked(Record(r.nextId, presented.parentId, presented.familyId, r.nextHash, r.nextExpiresAt, ZERO, r.now));
    }

    /** Reports how many tokens it ended. */
    method RevokeFamily(familyId: string, now: Instant) returns (ended: nat, refused: bool)
      modifies this
      ensures refused <==> familyId == "" || now == ZERO
      ensures refused ==> ended == 0 && byHash == old(byHash)
      ensures !refused ==> byHash == FamilyEnded(old(byHash), familyId, now) && ended == |LiveIn(old(byHash), familyId)|
    {
      if familyId == "" || now == ZERO {
        return 0, true;
      }
      ended := RevokeFamilyLocked(familyId, now);
      return ended, false;
    }

    method InsertLocked(record: Record) returns (answer: Answer)
      modifies this
      ensures answer == if record.tokenHash in old(byHash) then Refused(DuplicateToken) else Written(record)
      ensures byHash == if record.tokenHash in old(byHash) then old(byHash) else old(byHash)[record.tokenHash := record]
    {
      if record.tokenHash in byHash {
        return Refused(DuplicateToken);
      }
      byHash := byHash[record.tokenHash := record];
      return Written(record);
    }

    method RevokeFamilyLocked(familyId: string, now: Instant) returns (ended: nat)
      modifies this
      ensures byHash == FamilyEnded(old(byHash), familyId, now)
      ensures ended == |LiveIn(old(byHash), familyId)|
    {
      ended := 0;
      ghost var before := byHash;
      ghost var live := LiveIn(before, familyId);
      var rest := byHash.Keys;
      while rest != {}
        invariant rest <= before.Keys
        invariant ended == |live - rest|
        invariant byHash == Stamped(before, live - rest, now)
        decreases rest
      {
        var h :| h in rest;
        EndOneMore(before, familyId, rest, h, now);
        rest := rest - {h};
        var held := byHash[h];
        if held.familyId != familyId || held.IsRevoked() {
          continue;
        }
        byHash := byHash[h := held.(revokedAt := now)];
        ended := ended + 1;
      }
      assert live - rest == live;
    }
  }

  /** A refused rotation leaves the store as it was, except in two cases a caller can tell beforehand. */
  lemma RefusedRotateChangesNothingExactly(table: Table, r: RotateRequest)
    requires RotateAnswer(table, r).Refused?
    requires forall h :: h in table ==> table[h].tokenHash == h
    ensures RotateTable(table, r) == table <==>
            || !r.IsValid()
            || r.presented !in table
            || (table[r.presented].IsRevoked() && LiveIn(table, table[r.presented].familyId) == {})
            || (!table[r.presented].IsRevoked() && table[r.presented].IsExpired(r.now))
  {
    if r.IsValid() && r.presented in table {
      var t := table[r.presented];
      if t.IsRevoked() {
        var after := FamilyEnded(table, t.familyId, r.now);
        if h :| h in LiveIn(table, t.familyId) {
          assert after[h].revokedAt == r.now != table[h].revokedAt;
        } else {
          assert forall h :: h in table ==> h !in LiveIn(table, t.familyId);
          assert after == table;
        }
      } else if !t.IsExpired(r.now) {
        assert RotateTable(table, r)[r.presented].revokedAt == r.now;
      }
    }
  }

  /**
   * A refusal that leaves a stamp. Two sign ins, then the first token presented
   * with the second's hash minted for its successor: the rotation is refused,
   * and still the first token is over, its family with nothing alive.
   */
  lemma DuplicateLeavesAStamp(first: IssueRequest, second: IssueRequest, r: RotateRequest)
    requires first.IsValid() && second.IsValid() && first.tokenHash != second.tokenHash && first.familyId != second.familyId
    requires r.IsValid() && r.presented == first.tokenHash && r.nextHash == second.tokenHash && r.now < first.expiresAt
    ensures var table := IssueTable(IssueTable(map[], first), second);
            && table.Keys == {first.tokenHash, second.tokenHash}
            && IsLiveIn(table[first.tokenHash], first.familyId)
            && RotateAnswer(table, r) == Refused(DuplicateToken)
            && var after := RotateTable(table, r);
            && after == table[first.tokenHash := table[first.tokenHash].(revokedAt := r.now)]
            && LiveIn(after, first.familyId) == {} && RotateAnswer(after, r) == Refused(TokenReused)
  {
  }
}
