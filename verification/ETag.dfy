/** The validator a client sends back: how it is built, and when a header covers it. */
module ETag {
  import opened Collections
  import opened Text

  const DIGEST_LENGTH: nat := 16
  const WEAK_PREFIX := "W/"

  /** The hex form of a payload's hash, whatever function hashes it. */
  type Hash = string -> string

  predicate IsHex(c: char) {
    IsDigit(c) || 'a' <= c <= 'f'
  }

  ghost predicate IsHexHash(hash: Hash) {
    forall payload {:trigger hash(payload)} :: |hash(payload)| == 64 && forall i :: 0 <= i < 64 ==> IsHex(hash(payload)[i])
  }

  function Digest(hash: Hash, payload: string): string {
    if |hash(payload)| >= DIGEST_LENGTH then hash(payload)[..DIGEST_LENGTH] else hash(payload)
  }

  /** What goes between the quotes. */
  function OpaqueTag(version: nat, digest: string): string {
    Decimal(version) + "-" + digest
  }

  function Quoted(opaque_: string): string {
    "\"" + opaque_ + "\""
  }

  function BuildETag(hash: Hash, version: nat, payload: string): string {
    Quoted(OpaqueTag(version, Digest(hash, payload)))
  }

  function Normalise(tag: string): string {
    var trimmed := TrimSpace(tag);
    if WEAK_PREFIX <= trimmed then trimmed[|WEAK_PREFIX|..] else trimmed
  }

  /** One of the pieces between commas names the tag. */
  predicate Lists(header: string, tag: string) {
    exists k :: 0 <= k < |Split(header, ',')| && Normalise(Split(header, ',')[k]) == Normalise(tag)
  }

  predicate Matches(header: string, tag: string) {
    header != "" && tag != "" && (TrimSpace(header) == "*" || Lists(header, tag))
  }

  // ---- Tags name their version and their body ----

  lemma TagText(hash: Hash, version: nat, payload: string)
    requires IsHexHash(hash)
    ensures var tag := BuildETag(hash, version, payload);
            && |tag| >= 2 && tag[0] == '"' && tag[|tag| - 1] == '"'
            && (forall i :: 0 < i < |tag| - 1 ==> IsHex(tag[i]) || tag[i] == '-')
            && Normalise(tag) == tag && ',' !in tag
  {
    var tag := BuildETag(hash, version, payload);
    TrimOf([], tag, []);
    assert [] + tag + [] == tag;
  }

  lemma {:induction false} FirstDash(a: string, b: string, c: string, d: string)
    requires AllDigits(a) && AllDigits(c) && a + "-" + b == c + "-" + d
    ensures a == c && b == d
  {
    var s, t := a + "-" + b, c + "-" + d;
    assert s[|a|] == '-' && t[|c|] == '-';
    assert forall i :: 0 <= i < |a| ==> s[i] == a[i] && s[i] != '-';
    assert forall i :: 0 <= i < |c| ==> t[i] == c[i] && t[i] != '-';
    assert |a| == |c|;
    assert s[..|a|] == a && t[..|c|] == c && s[|a| + 1..] == b && t[|c| + 1..] == d;
  }

  /** Two tags are one tag exactly when version and digest both agree. */
  lemma TagsDiffer(hash: Hash, v1: nat, p1: string, v2: nat, p2: string)
    ensures BuildETag(hash, v1, p1) == BuildETag(hash, v2, p2) <==> v1 == v2 && Digest(hash, p1) == Digest(hash, p2)
  {
    var a, b := OpaqueTag(v1, Digest(hash, p1)), OpaqueTag(v2, Digest(hash, p2));
    if Quoted(a) == Quoted(b) {
      assert Quoted(a)[1..|Quoted(a)| - 1] == a && Quoted(b)[1..|Quoted(b)| - 1] == b;
      FirstDash(Decimal(v1), Digest(hash, p1), Decimal(v2), Digest(hash, p2));
      DecimalIsInjective(v1, v2);
    }
  }

  // ---- Weak comparison ----

  /** One entity tag of an If-None-Match list, with the white space around it. */
  datatype Member = Member(before: string, weak: bool, opaqueTag: string, after: string) {
    predicate IsWellFormed() {
      AllSpace(before) && AllSpace(after) && '"' !in opaqueTag
    }

    function Core(): string {
      (if weak then WEAK_PREFIX else "") + Quoted(opaqueTag)
    }

    function Text(): string {
      before + Core() + after
    }
  }

  function Header(members: seq<Member>): string
    requires members != []
  {
    if |members| == 1 then members[0].Text() else members[0].Text() + "," + Header(members[1..])
  }

  lemma NormaliseIsWithin(s: string)
    ensures Within(Normalise(s), s)
  {
    TrimIsWithin(s);
    var trimmed := TrimSpace(s);
    if WEAK_PREFIX <= trimmed {
      WithinBy(Normalise(s), trimmed, WEAK_PREFIX, []);
      assert trimmed == WEAK_PREFIX + Normalise(s) + [];
      WithinTransitive(Normalise(s), trimmed, s);
    }
  }

  lemma MemberNormalises(m: Member)
    requires m.IsWellFormed()
    ensures Normalise(m.Text()) == Quoted(m.opaqueTag)
  {
    var core := m.Core();
    assert core[|core| - 1] == '"';
    TrimOf(m.before, core, m.after);
    if m.weak {
      assert core[|WEAK_PREFIX|..] == Quoted(m.opaqueTag);
    }
  }

  /** The two quotes of a member, and no other. */
  lemma QuotesOfMember(m: Member, start: nat, end: nat)
    requires m.IsWellFormed()
    requires start == |m.before| + (if m.weak then |WEAK_PREFIX| else 0) && end == start + |m.opaqueTag| + 1
    ensures end < |m.Text()| && m.Text()[start..end + 1] == Quoted(m.opaqueTag)
    ensures forall i :: 0 <= i < |m.Text()| && i != start && i != end ==> m.Text()[i] != '"'
  {
    var text := m.Text();
    forall i | 0 <= i < |text| && i != start && i != end ensures text[i] != '"' {
      if i < |m.before| {
        assert text[i] == m.before[i];
      } else if start < i < end {
        assert text[i] == m.opaqueTag[i - start - 1];
      } else if i > end {
        assert text[i] == m.after[i - end - 1];
      }
    }
  }

  /** A quoted text inside a member is the member's own tag: there is no third quote to find. */
  lemma QuotedWithinMember(m: Member, tag: string)
    requires m.IsWellFormed() && |tag| >= 2 && tag[0] == '"' && tag[|tag| - 1] == '"'
    requires Within(tag, m.Text())
    ensures tag == Quoted(m.opaqueTag)
  {
    var text := m.Text();
    var x, y :| text == x + tag + y;
    var start := |m.before| + if m.weak then |WEAK_PREFIX| else 0;
    var end := start + |m.opaqueTag| + 1;
    QuotesOfMember(m, start, end);
    assert text[|x|] == tag[0] && text[|x| + |tag| - 1] == tag[|tag| - 1];
    assert text[|x|..|x| + |tag|] == tag;
  }

  /** One member covers a tag exactly when its opaque part is the tag's, weak or not, commas or not. */
  lemma MemberLists(hash: Hash, version: nat, payload: string, m: Member)
    requires IsHexHash(hash) && m.IsWellFormed()
    ensures var tag := BuildETag(hash, version, payload);
            Lists(m.Text(), tag) <==> Quoted(m.opaqueTag) == tag
  {
    var tag := BuildETag(hash, version, payload);
    TagText(hash, version, payload);
    if Lists(m.Text(), tag) {
      ListedIsWithin(m.Text(), tag);
      QuotedWithinMember(m, tag);
    }
    if Quoted(m.opaqueTag) == tag {
      OwnTagIsListed(m);
    }
  }

  lemma ListedIsWithin(text: string, tag: string)
    requires Lists(text, tag) && Normalise(tag) == tag
    ensures Within(tag, text)
  {
    var pieces := Split(text, ',');
    var k :| 0 <= k < |pieces| && Normalise(pieces[k]) == tag;
    PieceIsWithin(text, ',', k);
    NormaliseIsWithin(pieces[k]);
    WithinTransitive(tag, pieces[k], text);
  }

  lemma OwnTagIsListed(m: Member)
    requires m.IsWellFormed() && ',' !in Quoted(m.opaqueTag) && Normalise(Quoted(m.opaqueTag)) == Quoted(m.opaqueTag)
    ensures Lists(m.Text(), Quoted(m.opaqueTag))
  {
    assert ',' !in m.before && ',' !in m.after && ',' !in m.Core();
    assert ',' !in m.Text();
    SplitWhole(m.Text(), ',');
    MemberNormalises(m);
    assert Normalise(Split(m.Text(), ',')[0]) == Quoted(m.opaqueTag);
  }

  lemma ListsConcat(a: string, b: string, tag: string)
    ensures Lists(a + "," + b, tag) <==> Lists(a, tag) || Lists(b, tag)
  {
    SplitConcat(a, ',', b);
    var whole, left, right := Split(a + "," + b, ','), Split(a, ','), Split(b, ',');
    assert whole == left + right;
    forall k | 0 <= k < |left| ensures whole[k] == left[k] {
    }
    forall k | 0 <= k < |right| ensures whole[|left| + k] == right[k] {
    }
  }

  lemma {:induction false} HeaderHasQuote(members: seq<Member>)
    requires members != []
    ensures '"' in Header(members)
  {
    var first := members[0];
    assert first.Core()[|first.Core()| - 1] == '"';
    assert '"' in first.Text() by {
      assert first.Text()[|first.before| + |first.Core()| - 1] == '"';
    }
  }

  lemma {:induction false} HeaderLists(hash: Hash, version: nat, payload: string, members: seq<Member>)
    requires IsHexHash(hash) && members != [] && forall m :: m in members ==> m.IsWellFormed()
    ensures var tag := BuildETag(hash, version, payload);
            Lists(Header(members), tag) <==> exists m :: m in members && Quoted(m.opaqueTag) == tag
    decreases |members|
  {
    MemberLists(hash, version, payload, members[0]);
    if |members| > 1 {
      HeaderLists(hash, version, payload, members[1..]);
      ListsConcat(members[0].Text(), Header(members[1..]), BuildETag(hash, version, payload));
      assert members == [members[0]] + members[1..];
    }
  }

  /**
   * Section 13.1.2 of RFC 9110, for the tags this service sends: a well-formed
   * If-None-Match list covers the tag exactly when one of its members has the
   * same opaque part, compared weakly.
   */
  lemma MatchIsWeakComparison(hash: Hash, version: nat, payload: string, members: seq<Member>)
    requires IsHexHash(hash) && members != [] && forall m :: m in members ==> m.IsWellFormed()
    ensures var tag := BuildETag(hash, version, payload);
            Matches(Header(members), tag) <==> exists m :: m in members && Quoted(m.opaqueTag) == tag
  {
    HeaderLists(hash, version, payload, members);
    HeaderHasQuote(members);
    TrimIsWithin(Header(members));
    assert '"' in TrimSpace(Header(members)) && '"' !in "*";
  }
}
