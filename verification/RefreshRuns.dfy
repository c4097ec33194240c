/** What every run of the refresh-token store keeps. */
module RefreshRuns {
  import opened Collections
  import opened BookingStatus
  import opened RefreshTokens

  datatype Call =
    | Issue(issue: IssueRequest)
    | Rotate(rotate: RotateRequest)
    | EndFamily(familyId: string, now: Instant)

  function After(table: Table, c: Call): Table {
    match c
    case Issue(r) => IssueTable(table, r)
    case Rotate(r) => RotateTable(table, r)
    case EndFamily(familyId, now) => if familyId == "" || now == ZERO then table else FamilyEnded(table, familyId, now)
  }

  function TableAfter(run: seq<Call>): Table {
    if run == [] then map[] else After(TableAfter(run[..|run| - 1]), run[|run| - 1])
  }

  predicate Rotates(table: Table, c: Call) {
    c.Rotate? && RotateAnswer(table, c.rotate).Written?
  }

  predicate StartsFamily(table: Table, c: Call) {
    c.Issue? && IssueAnswer(table, c.issue).Written?
  }

  /** The chain a family has grown: its first token, then one successor for each rotation, in order. */
  function Chain(run: seq<Call>, familyId: string): seq<Hash> {
    if run == [] then []
    else
      var front, c := run[..|run| - 1], run[|run| - 1];
      var before := TableAfter(front);
      var chain := Chain(front, familyId);
      if StartsFamily(before, c) && c.issue.familyId == familyId then chain + [c.issue.tokenHash]
      else if Rotates(before, c) && before[c.rotate.presented].familyId == familyId then chain + [c.rotate.nextHash]
      else chain
  }

  /** Every sign in opens a family nobody has used. */
  ghost predicate FreshFamilies(run: seq<Call>) {
    run == [] ||
    (FreshFamilies(run[..|run| - 1]) && (run[|run| - 1].Issue? ==> Chain(run[..|run| - 1], run[|run| - 1].issue.familyId) == []))
  }

  /** The family's records are exactly its chain, under one parent, and only the last link can be live. */
  ghost predicate ChainOk(table: Table, chain: seq<Hash>, familyId: string) {
    && (forall i, j :: 0 <= i < j < |chain| ==> chain[i] != chain[j])
    && (forall i :: 0 <= i < |chain| ==> chain[i] in table && table[chain[i]].familyId == familyId)
    && (forall i :: 0 <= i < |chain| - 1 ==> table[chain[i]].IsRevoked())
    && (forall i :: 0 <= i < |chain| ==> table[chain[i]].parentId == table[chain[0]].parentId)
    && (forall h {:trigger h in table} :: h in table && table[h].familyId == familyId ==> h in chain)
  }

  lemma ChainUntouched(table: Table, after: Table, chain: seq<Hash>, familyId: string)
    requires ChainOk(table, chain, familyId)
    requires forall h :: h in table ==> h in after && after[h].familyId == table[h].familyId && after[h].parentId == table[h].parentId
    requires forall h :: h in table && table[h].IsRevoked() ==> after[h].IsRevoked()
    requires forall h :: h in after && h !in table ==> after[h].familyId != familyId
    ensures ChainOk(after, chain, familyId)
  {
  }

  /** A new link at the end of a chain whose last link is spent. */
  lemma ChainGrows(table: Table, after: Table, chain: seq<Hash>, familyId: string, next: Hash)
    requires ChainOk(table, chain, familyId) && next !in table && next in after
    requires after[next].familyId == familyId && (chain != [] ==> after[next].parentId == table[chain[0]].parentId)
    requires forall h :: h in table ==> h in after && after[h].familyId == table[h].familyId && after[h].parentId == table[h].parentId
    requires forall h :: h in table && table[h].IsRevoked() ==> after[h].IsRevoked()
    requires forall h :: h in after && h !in table ==> h == next
    requires chain != [] ==> after[chain[|chain| - 1]].IsRevoked()
    ensures ChainOk(after, chain + [next], familyId)
  {
    var longer := chain + [next];
    forall h | h in after && after[h].familyId == familyId ensures h in longer {
      if h != next {
        assert h in chain;
      } else {
        assert longer[|chain|] == h;
      }
    }
  }

  lemma LiveIsLast(table: Table, chain: seq<Hash>, familyId: string, h: Hash)
    requires ChainOk(table, chain, familyId) && h in LiveIn(table, familyId)
    ensures chain != [] && h == chain[|chain| - 1]
  {
    var i :| 0 <= i < |chain| && chain[i] == h;
  }

  /** No call takes a row away, changes whose it is, or restamps what was revoked. */
  lemma StampsStay(table: Table, c: Call)
    ensures forall h :: h in table ==> h in After(table, c)
    ensures forall h :: h in table ==> After(table, c)[h].familyId == table[h].familyId && After(table, c)[h].parentId == table[h].parentId
    ensures forall h :: h in table && table[h].IsRevoked() ==> After(table, c)[h] == table[h]
  {
  }

  /** The one row a call may add. */
  function Added(table: Table, c: Call): Option<Record> {
    if StartsFamily(table, c) then Some(Issued(c.issue))
    else if Rotates(table, c) then Some(Successor(table[c.rotate.presented], c.rotate))
    else None
  }

  lemma CallAdds(table: Table, c: Call)
    ensures var more := Added(table, c);
            && (forall h :: h in After(table, c) && h !in table ==> more.Some? && h == more.value.tokenHash)
            && (more.Some? ==> more.value.tokenHash !in table && more.value.tokenHash in After(table, c)
                               && After(table, c)[more.value.tokenHash] == more.value)
    ensures Rotates(table, c) ==> After(table, c)[c.rotate.presented].IsRevoked()
  {
  }

  lemma CallKeepsChain(table: Table, c: Call, chain: seq<Hash>, familyId: string)
    requires ChainOk(table, chain, familyId)
    requires StartsFamily(table, c) && c.issue.familyId == familyId ==> chain == []
    ensures var more := Added(table, c);
            ChainOk(After(table, c), if more.Some? && more.value.familyId == familyId then chain + [more.value.tokenHash] else chain, familyId)
  {
    StampsStay(table, c);
    CallAdds(table, c);
    var more := Added(table, c);
    var after := After(table, c);
    if more.Some? && more.value.familyId == familyId {
      if Rotates(table, c) {
        assert c.rotate.presented in LiveIn(table, familyId);
        LiveIsLast(table, chain, familyId, c.rotate.presented);
      }
      ChainGrows(table, after, chain, familyId, more.value.tokenHash);
    } else {
      ChainUntouched(table, after, chain, familyId);
    }
  }

  /** Over every run: one chain to a family, one parent to a chain, one live token at most and always the newest. */
  lemma {:induction false} FamiliesAreChains(run: seq<Call>, familyId: string)
    requires FreshFamilies(run)
    ensures ChainOk(TableAfter(run), Chain(run, familyId), familyId)
    ensures |LiveIn(TableAfter(run), familyId)| <= 1
    decreases |run|
  {
    if run != [] {
      var front, c := run[..|run| - 1], run[|run| - 1];
      FamiliesAreChains(front, familyId);
      CallKeepsChain(TableAfter(front), c, Chain(front, familyId), familyId);
    }
    var live := LiveIn(TableAfter(run), familyId);
    var chain := Chain(run, familyId);
    if chain != [] {
      forall h | h in live ensures h in {chain[|chain| - 1]} {
        LiveIsLast(TableAfter(run), chain, familyId, h);
      }
      SizeOfSubset(live, {chain[|chain| - 1]});
    } else {
      forall h | h in live ensures false {
        LiveIsLast(TableAfter(run), chain, familyId, h);
      }
      assert live == {};
    }
  }

  /** Only the newest link of a chain ever rotates. */
  lemma {:induction false} OnlyTheNewestRotates(run: seq<Call>, r: RotateRequest)
    requires FreshFamilies(run) && RotateAnswer(TableAfter(run), r).Written?
    ensures var chain := Chain(run, TableAfter(run)[r.presented].familyId);
            chain != [] && r.presented == chain[|chain| - 1]
  {
    var familyId := TableAfter(run)[r.presented].familyId;
    FamiliesAreChains(run, familyId);
    assert r.presented in LiveIn(TableAfter(run), familyId);
    LiveIsLast(TableAfter(run), Chain(run, familyId), familyId, r.presented);
  }

  lemma {:induction false} StampsStayOver(run: seq<Call>, n: nat, h: Hash)
    requires n <= |run| && h in TableAfter(run[..n])
    ensures h in TableAfter(run)
    ensures TableAfter(run)[h].familyId == TableAfter(run[..n])[h].familyId
    ensures TableAfter(run[..n])[h].IsRevoked() ==> TableAfter(run)[h] == TableAfter(run[..n])[h]
    decreases |run|
  {
    if n == |run| {
      assert run[..n] == run;
    } else {
      var front := run[..|run| - 1];
      assert front[..n] == run[..n];
      StampsStayOver(front, n, h);
      StampsStay(TableAfter(front), run[|run| - 1]);
    }
  }

  predicate SpendsAt(run: seq<Call>, k: nat, h: Hash)
    requires k < |run|
  {
    Rotates(TableAfter(run[..k]), run[k]) && run[k].rotate.presented == h
  }

  /** A token is rotated successfully once at most, in any run at all. */
  lemma SpentOnce(run: seq<Call>, first: nat, second: nat, h: Hash)
    requires first < second < |run| && SpendsAt(run, first, h)
    ensures !SpendsAt(run, second, h)
  {
    var upto := run[..second];
    assert upto[..first + 1] == run[..first + 1];
    assert run[..first + 1][..first] == run[..first] && run[..first + 1][first] == run[first];
    StampsStayOver(upto, first + 1, h);
  }

  predicate ReusedAt(run: seq<Call>, k: nat)
    requires k < |run|
  {
    run[k].Rotate? && RotateAnswer(TableAfter(run[..k]), run[k].rotate) == Refused(TokenReused)
  }

  predicate FamilyDead(table: Table, familyId: string) {
    LiveIn(table, familyId) == {}
  }

  lemma DeadCall(table: Table, c: Call, familyId: string)
    requires FamilyDead(table, familyId) && !(StartsFamily(table, c) && c.issue.familyId == familyId)
    ensures FamilyDead(After(table, c), familyId)
    ensures !(Rotates(table, c) && table[c.rotate.presented].familyId == familyId)
  {
    assert Rotates(table, c) ==> c.rotate.presented in LiveIn(table, table[c.rotate.presented].familyId);
    StampsStay(table, c);
    CallAdds(table, c);
    forall h | h in After(table, c) ensures h !in LiveIn(After(table, c), familyId) {
      assert h in table ==> h !in LiveIn(table, familyId);
    }
  }

  /** A family with nothing live and a record to its name never comes back: no rotation in it succeeds again. */
  lemma {:induction false} DeadStaysDead(run: seq<Call>, n: nat, familyId: string)
    requires FreshFamilies(run) && n <= |run|
    requires FamilyDead(TableAfter(run[..n]), familyId) && Chain(run[..n], familyId) != []
    ensures FamilyDead(TableAfter(run), familyId) && Chain(run, familyId) != []
    ensures forall k: nat :: n <= k < |run| ==> !(Rotates(TableAfter(run[..k]), run[k]) && TableAfter(run[..k])[run[k].rotate.presented].familyId == familyId)
    decreases |run|
  {
    if n == |run| {
      assert run[..n] == run;
    } else {
      var front, c := run[..|run| - 1], run[|run| - 1];
      assert front[..n] == run[..n];
      DeadStaysDead(front, n, familyId);
      DeadCall(TableAfter(front), c, familyId);
      forall k: nat | n <= k < |run|
        ensures !(Rotates(TableAfter(run[..k]), run[k]) && TableAfter(run[..k])[run[k].rotate.presented].familyId == familyId)
      {
        if k < |front| {
          assert front[..k] == run[..k] && front[k] == run[k];
        } else {
          assert run[..k] == front;
        }
      }
    }
  }

  lemma ReuseKills(table: Table, r: RotateRequest)
    requires RotateAnswer(table, r) == Refused(TokenReused)
    ensures FamilyDead(RotateTable(table, r), table[r.presented].familyId)
  {
  }

  /** After a reuse is reported the whole family is over: nothing in it is live and nothing in it rotates again. */
  lemma {:induction false} ReuseEndsFamily(run: seq<Call>, k: nat, familyId: string)
    requires FreshFamilies(run) && k < |run| && ReusedAt(run, k)
    requires familyId == TableAfter(run[..k])[run[k].rotate.presented].familyId
    ensures FamilyDead(TableAfter(run), familyId)
    ensures forall m: nat :: k < m < |run| ==> !(Rotates(TableAfter(run[..m]), run[m]) && TableAfter(run[..m])[run[m].rotate.presented].familyId == familyId)
  {
    var upto := run[..k + 1];
    assert upto[..k] == run[..k] && upto[k] == run[k];
    FreshPrefix(run, k);
    FreshPrefix(run, k + 1);
    FamiliesAreChains(run[..k], familyId);
    assert run[k].rotate.presented in Chain(run[..k], familyId);
    ReuseKills(TableAfter(run[..k]), run[k].rotate);
    FamiliesAreChains(upto, familyId);
    assert TableAfter(upto) == RotateTable(TableAfter(run[..k]), run[k].rotate);
    assert Chain(upto, familyId) == Chain(run[..k], familyId);
    DeadStaysDead(run, k + 1, familyId);
  }

  lemma {:induction false} FreshPrefix(run: seq<Call>, n: nat)
    requires FreshFamilies(run) && n <= |run|
    ensures FreshFamilies(run[..n])
    decreases |run|
  {
    if n == |run| {
      assert run[..n] == run;
    } else {
      assert run[..|run| - 1][..n] == run[..n];
      FreshPrefix(run[..|run| - 1], n);
    }
  }
}
