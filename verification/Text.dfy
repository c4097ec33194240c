/** Decimal numbers, splitting and trimming, as the tag and the hash string use them. */
module Text {
  import opened Collections

  // ---- Decimal ----

  predicate IsDigit(c: char) {
    '0' <= c <= '9'
  }

  predicate AllDigits(s: string) {
    forall i :: 0 <= i < |s| ==> IsDigit(s[i])
  }

  function Decimal(n: nat): (s: string)
    ensures |s| >= 1 && AllDigits(s)
  {
    if n < 10 then ['0' + n as char] else Decimal(n / 10) + ['0' + (n % 10) as char]
  }

  function Value(s: string): nat
    requires AllDigits(s)
  {
    if s == [] then 0 else 10 * Value(s[..|s| - 1]) + (s[|s| - 1] - '0') as nat
  }

  lemma {:induction false} ValueOfDecimal(n: nat)
    ensures Value(Decimal(n)) == n
  {
    if n < 10 {
      assert Decimal(n)[..0] == [];
    } else {
      ValueOfDecimal(n / 10);
      assert Decimal(n)[..|Decimal(n)| - 1] == Decimal(n / 10);
    }
  }

  /** No two numbers print alike. */
  lemma DecimalIsInjective(m: nat, n: nat)
    requires Decimal(m) == Decimal(n)
    ensures m == n
  {
    ValueOfDecimal(m);
    ValueOfDecimal(n);
  }

  /** Digits only, at least one, and below the limit its width sets. */
  function ParseUint(s: string, limit: nat): Option<nat> {
    if s == [] || !AllDigits(s) || Value(s) >= limit then None else Some(Value(s))
  }

  // ---- Splitting ----

  function Split(s: string, sep: char): (pieces: seq<string>)
    ensures |pieces| >= 1
  {
    if s == [] then [[]] else Prepend(s[0], sep, Split(s[1..], sep))
  }

  /** One more character in front: a separator starts a new piece, anything else joins the first. */
  function Prepend(c: char, sep: char, pieces: seq<string>): seq<string>
    requires |pieces| >= 1
  {
    if c == sep then [[]] + pieces else [[c] + pieces[0]] + pieces[1..]
  }

  lemma PrependToFirst(c: char, sep: char, pieces: seq<string>, more: seq<string>)
    requires |pieces| >= 1
    ensures Prepend(c, sep, pieces + more) == Prepend(c, sep, pieces) + more
  {
    assert (pieces + more)[1..] == pieces[1..] + more;
  }

  lemma {:induction false} SplitConcat(a: string, sep: char, b: string)
    ensures Split(a + [sep] + b, sep) == Split(a, sep) + Split(b, sep)
  {
    var whole := a + [sep] + b;
    if a == [] {
      assert whole[1..] == b && Split(a, sep) == [[]];
    } else {
      var tail := Split(a[1..], sep);
      assert whole[1..] == a[1..] + [sep] + b && whole[0] == a[0];
      SplitConcat(a[1..], sep, b);
      PrependToFirst(a[0], sep, tail, Split(b, sep));
      assert Split(whole, sep) == Prepend(a[0], sep, tail + Split(b, sep));
    }
  }

  lemma {:induction false} SplitWhole(a: string, sep: char)
    requires sep !in a
    ensures Split(a, sep) == [a]
  {
    if a != [] {
      SplitWhole(a[1..], sep);
      assert [a[0]] + a[1..] == a;
    }
  }

  lemma SplitFirst(a: string, sep: char, b: string)
    requires sep !in a
    ensures Split(a + [sep] + b, sep) == [a] + Split(b, sep)
  {
    SplitConcat(a, sep, b);
    SplitWhole(a, sep);
  }

  // ---- Substrings ----

  ghost predicate Within(small: string, big: string) {
    exists x: string, y: string :: big == x + small + y
  }

  lemma WithinBy(small: string, big: string, x: string, y: string)
    requires big == x + small + y
    ensures Within(small, big)
  {
  }

  lemma WithinTransitive(a: string, b: string, c: string)
    requires Within(a, b) && Within(b, c)
    ensures Within(a, c)
  {
    var x, y :| b == x + a + y;
    var u, v :| c == u + b + v;
    assert c == (u + x) + a + (y + v);
  }

  lemma {:induction false} PieceIsWithin(s: string, sep: char, k: nat)
    requires k < |Split(s, sep)|
    ensures Within(Split(s, sep)[k], s)
    ensures k == 0 ==> Split(s, sep)[0] <= s
  {
    if s == [] {
      WithinBy([], [], [], []);
    } else {
      var rest := Split(s[1..], sep);
      if k == 0 {
        PieceIsWithin(s[1..], sep, 0);
        assert s == [s[0]] + s[1..];
        var p := Split(s, sep)[0];
        assert p <= s;
        WithinBy(p, s, [], s[|p|..]);
      } else {
        var j := if s[0] == sep then k - 1 else k;
        PieceIsWithin(s[1..], sep, j);
        WithinBy(s[1..], s, [s[0]], []);
        WithinTransitive(Split(s, sep)[k], s[1..], s);
      }
    }
  }

  // ---- Trimming ----

  /** White space as Unicode has it. */
  predicate IsSpace(c: char) {
    || '\t' <= c <= '\r' || c == ' ' || c == '\U{0085}' || c == '\U{00A0}' || c == '\U{1680}'
    || '\U{2000}' <= c <= '\U{200A}' || c == '\U{2028}' || c == '\U{2029}' || c == '\U{202F}' || c == '\U{205F}' || c == '\U{3000}'
  }

  predicate AllSpace(s: string) {
    forall i :: 0 <= i < |s| ==> IsSpace(s[i])
  }

  function TrimLeft(s: string): string {
    if s != [] && IsSpace(s[0]) then TrimLeft(s[1..]) else s
  }

  function TrimRight(s: string): string {
    if s != [] && IsSpace(s[|s| - 1]) then TrimRight(s[..|s| - 1]) else s
  }

  function TrimSpace(s: string): string {
    TrimRight(TrimLeft(s))
  }

  lemma {:induction false} TrimLeftOf(x: string, core: string)
    requires AllSpace(x) && core != [] && !IsSpace(core[0])
    ensures TrimLeft(x + core) == core
  {
    if x == [] {
      assert x + core == core;
    } else {
      assert (x + core)[1..] == x[1..] + core;
      TrimLeftOf(x[1..], core);
    }
  }

  lemma {:induction false} TrimRightOf(core: string, y: string)
    requires AllSpace(y) && core != [] && !IsSpace(core[|core| - 1])
    ensures TrimRight(core + y) == core
  {
    if y == [] {
      assert core + y == core;
    } else {
      assert (core + y)[..|core + y| - 1] == core + y[..|y| - 1];
      TrimRightOf(core, y[..|y| - 1]);
    }
  }

  /** Space around a word comes off; the word stays whole. */
  lemma TrimOf(x: string, core: string, y: string)
    requires AllSpace(x) && AllSpace(y) && core != [] && !IsSpace(core[0]) && !IsSpace(core[|core| - 1])
    ensures TrimSpace(x + core + y) == core
  {
    assert x + core + y == x + (core + y);
    TrimLeftOf(x, core + y);
    TrimRightOf(core, y);
  }

  lemma {:induction false} TrimLeftIsWithin(s: string)
    ensures Within(TrimLeft(s), s)
    ensures forall c :: c in s && !IsSpace(c) ==> c in TrimLeft(s)
  {
    if s != [] && IsSpace(s[0]) {
      TrimLeftIsWithin(s[1..]);
      WithinBy(s[1..], s, [s[0]], []);
      WithinTransitive(TrimLeft(s), s[1..], s);
    } else {
      WithinBy(s, s, [], []);
    }
  }

  lemma {:induction false} TrimRightIsWithin(s: string)
    ensures Within(TrimRight(s), s)
    ensures forall c :: c in s && !IsSpace(c) ==> c in TrimRight(s)
  {
    if s != [] && IsSpace(s[|s| - 1]) {
      TrimRightIsWithin(s[..|s| - 1]);
      WithinBy(s[..|s| - 1], s, [], [s[|s| - 1]]);
      WithinTransitive(TrimRight(s), s[..|s| - 1], s);
    } else {
      WithinBy(s, s, [], []);
    }
  }

  lemma TrimIsWithin(s: string)
    ensures Within(TrimSpace(s), s)
    ensures forall c :: c in s && !IsSpace(c) ==> c in TrimSpace(s)
  {
    TrimLeftIsWithin(s);
    TrimRightIsWithin(TrimLeft(s));
    WithinTransitive(TrimSpace(s), TrimLeft(s), s);
  }
}
