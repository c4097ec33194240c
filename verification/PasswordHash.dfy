/** The string a stored password is: how it is written, and what reading it accepts. */
module PasswordHash {
  import opened Collections
  import opened Text
  import opened Base64

  const ALGORITHM := "argon2id"
  const ENCODING_VERSION: nat := 19
  const LIMIT_32: nat := 0x1_0000_0000
  const LIMIT_8: nat := 0x100

  datatype Work = Work(memoryKiB: nat, iterations: nat, threads: nat) {
    /** Nothing zero, and each number within its width. */
    predicate IsUsable() {
      0 < memoryKiB < LIMIT_32 && 0 < iterations < LIMIT_32 && 0 < threads < LIMIT_8
    }
  }

  datatype Stored = Stored(work: Work, salt: seq<Byte>, key: seq<Byte>) {
    predicate IsUsable() {
      work.IsUsable() && salt != [] && key != []
    }
  }

  // ---- Writing ----

  function PrintWork(w: Work): string {
    "m=" + Decimal(w.memoryKiB) + "," + ("t=" + Decimal(w.iterations) + "," + ("p=" + Decimal(w.threads)))
  }

  function Print(h: Stored): string {
    "" + "$" + (ALGORITHM + "$" + ("v=" + Decimal(ENCODING_VERSION) + "$" + (PrintWork(h.work) + "$" + (Encode(h.salt) + "$" + Encode(h.key)))))
  }

  // ---- Reading ----

  /** Spaces before a number are skipped; a line break among them ends the scan. */
  function SkipSpaces(s: string): Option<string> {
    if s == [] then Some(s)
    else if s[0] == '\n' then None
    else if IsSpace(s[0]) then SkipSpaces(s[1..])
    else Some(s)
  }

  function DigitsOf(s: string): (d: string)
    ensures AllDigits(d)
  {
    if s == [] || !IsDigit(s[0]) then [] else [s[0]] + DigitsOf(s[1..])
  }

  /** A number scanned off the front of a text: spaces, a sign, digits, and whatever follows left unread. */
  function ScanInt(s: string): Option<int> {
    var rest := SkipSpaces(s);
    if rest.None? then None
    else
      var negative := rest.value != [] && rest.value[0] == '-';
      var signed := rest.value != [] && (rest.value[0] == '-' || rest.value[0] == '+');
      var digits := DigitsOf(if signed then rest.value[1..] else rest.value);
      if digits == [] then None else Some(if negative then -(Value(digits) as int) else Value(digits))
  }

  predicate NamesVersion(field: string) {
    "v=" <= field && ScanInt(field[2..]) == Some(ENCODING_VERSION as int)
  }

  /** One labelled number, zero refused. */
  function ParseLabelled(field: string, name: string, limit: nat): Option<nat> {
    if !(name <= field) then None
    else
      var value := ParseUint(field[|name|..], limit);
      if value == Some(0) then None else value
  }

  function ParseWork(field: string): Option<Work> {
    var parts := Split(field, ',');
    if |parts| != 3 then None
    else
      var memory := ParseLabelled(parts[0], "m=", LIMIT_32);
      var iterations := ParseLabelled(parts[1], "t=", LIMIT_32);
      var threads := ParseLabelled(parts[2], "p=", LIMIT_8);
      if memory.None? || iterations.None? || threads.None? then None
      else Some(Work(memory.value, iterations.value, threads.value))
  }

  function ParseBytes(field: string): Option<seq<Byte>> {
    var bytes := Decode(field);
    if bytes == Some([]) then None else bytes
  }

  function Parse(encoded: string): Option<Stored> {
    var fields := Split(encoded, '$');
    if |fields| != 6 || fields[0] != "" || fields[1] != ALGORITHM || !NamesVersion(fields[2]) then None
    else
      var work := ParseWork(fields[3]);
      var salt := ParseBytes(fields[4]);
      var key := ParseBytes(fields[5]);
      if work.None? || salt.None? || key.None? then None else Some(Stored(work.value, salt.value, key.value))
  }

  // ---- The round trip ----

  lemma LabelledRoundTrip(name: string, n: nat, limit: nat)
    requires 0 < n < limit && ',' !in name
    ensures ParseLabelled(name + Decimal(n), name, limit) == Some(n)
    ensures ',' !in name + Decimal(n)
  {
    ValueOfDecimal(n);
    assert (name + Decimal(n))[|name|..] == Decimal(n);
  }

  lemma WorkRoundTrip(w: Work)
    requires w.IsUsable()
    ensures ParseWork(PrintWork(w)) == Some(w)
    ensures '$' !in PrintWork(w)
  {
    LabelledRoundTrip("m=", w.memoryKiB, LIMIT_32);
    LabelledRoundTrip("t=", w.iterations, LIMIT_32);
    LabelledRoundTrip("p=", w.threads, LIMIT_8);
    var m, t, p := "m=" + Decimal(w.memoryKiB), "t=" + Decimal(w.iterations), "p=" + Decimal(w.threads);
    SplitFirst(m, ',', t + "," + p);
    SplitFirst(t, ',', p);
    SplitWhole(p, ',');
    assert PrintWork(w) == m + "," + (t + "," + p);
  }

  lemma {:induction false} DigitsOfDigits(s: string)
    requires AllDigits(s)
    ensures DigitsOf(s) == s
  {
    if s != [] {
      DigitsOfDigits(s[1..]);
      assert s == [s[0]] + s[1..];
    }
  }

  lemma VersionRoundTrip()
    ensures NamesVersion("v=" + Decimal(ENCODING_VERSION)) && '$' !in "v=" + Decimal(ENCODING_VERSION)
  {
    var d := Decimal(ENCODING_VERSION);
    assert ("v=" + d)[2..] == d;
    DigitsOfDigits(d);
    ValueOfDecimal(ENCODING_VERSION);
    assert IsDigit(d[0]);
  }

  lemma BytesRoundTrip(bytes: seq<Byte>)
    requires bytes != []
    ensures ParseBytes(Encode(bytes)) == Some(bytes) && '$' !in Encode(bytes)
  {
    DecodeEncode(bytes);
    EncodedText(bytes);
  }

  /** A printed hash has its six fields. */
  lemma PrintedFields(h: Stored)
    requires h.IsUsable()
    ensures Split(Print(h), '$') == ["", ALGORITHM, "v=" + Decimal(ENCODING_VERSION), PrintWork(h.work), Encode(h.salt), Encode(h.key)]
  {
    var version, work, salt, key := "v=" + Decimal(ENCODING_VERSION), PrintWork(h.work), Encode(h.salt), Encode(h.key);
    VersionRoundTrip();
    WorkRoundTrip(h.work);
    BytesRoundTrip(h.salt);
    BytesRoundTrip(h.key);
    SplitSix("", ALGORITHM, version, work, salt, key);
  }

  lemma SplitSix(a: string, b: string, c: string, d: string, e: string, f: string)
    requires '$' !in a && '$' !in b && '$' !in c && '$' !in d && '$' !in e && '$' !in f
    ensures Split(a + "$" + (b + "$" + (c + "$" + (d + "$" + (e + "$" + f)))), '$') == [a, b, c, d, e, f]
  {
    SplitFirst(a, '$', b + "$" + (c + "$" + (d + "$" + (e + "$" + f))));
    SplitFirst(b, '$', c + "$" + (d + "$" + (e + "$" + f)));
    SplitFirst(c, '$', d + "$" + (e + "$" + f));
    SplitFirst(d, '$', e + "$" + f);
    SplitFirst(e, '$', f);
    SplitWhole(f, '$');
  }

  /** Every usable hash reads back as the five values it was written from. */
  lemma ParsePrint(h: Stored)
    requires h.IsUsable()
    ensures Parse(Print(h)) == Some(h)
  {
    PrintedFields(h);
    VersionRoundTrip();
    WorkRoundTrip(h.work);
    BytesRoundTrip(h.salt);
    BytesRoundTrip(h.key);
  }

  /** Whatever is read is usable, so no stored row can hand the hash function a zero or an empty key. */
  lemma ParsedIsUsable(encoded: string)
    ensures Parse(encoded).Some? ==> Parse(encoded).value.IsUsable()
  {
  }

  /** Read, printed and read again, a hash stays what it was, however it was spelt. */
  lemma PrintingIsCanonical(encoded: string)
    requires Parse(encoded).Some?
    ensures Parse(Print(Parse(encoded).value)) == Parse(encoded)
  {
    ParsedIsUsable(encoded);
    ParsePrint(Parse(encoded).value);
  }

  // ---- Hashing and verifying ----

  /** The key derivation: password, salt, work, key length. */
  type Derive = (string, seq<Byte>, Work, nat) -> seq<Byte>

  datatype Verdict = Accepted | PasswordRefused | PasswordUnusable

  const WORK := Work(65536, 1, 4)
  const KEY_LENGTH: nat := 32

  /** An empty password is refused before anything is drawn. */
  function HashPassword(derive: Derive, password: string, salt: seq<Byte>): Option<string> {
    if password == "" then None else Some(Print(Stored(WORK, salt, derive(password, salt, WORK, KEY_LENGTH))))
  }

  function VerifyPassword(derive: Derive, encoded: string, password: string): Verdict {
    var stored := Parse(encoded);
    if stored.None? then PasswordUnusable
    else
      var h := stored.value;
      if derive(password, h.salt, h.work, |h.key|) == h.key then Accepted else PasswordRefused
  }

  /** A password just hashed verifies, and another verifies exactly when it derives the same key. */
  lemma HashedVerifies(derive: Derive, password: string, salt: seq<Byte>, tried: string)
    requires salt != [] && |derive(password, salt, WORK, KEY_LENGTH)| == KEY_LENGTH
    ensures HashPassword(derive, password, salt).None? <==> password == ""
    ensures password != "" ==>
              var row := HashPassword(derive, password, salt).value;
              && VerifyPassword(derive, row, password) == Accepted
              && (VerifyPassword(derive, row, tried) == Accepted <==> derive(tried, salt, WORK, KEY_LENGTH) == derive(password, salt, WORK, KEY_LENGTH))
  {
    ParsePrint(Stored(WORK, salt, derive(password, salt, WORK, KEY_LENGTH)));
  }

  /** A row written under any usable work numbers verifies by those numbers: exactly the passwords that derive its key. */
  lemma OldRowsStillVerify(derive: Derive, password: string, salt: seq<Byte>, work: Work, length: nat, tried: string)
    requires work.IsUsable() && salt != [] && length > 0 && |derive(password, salt, work, length)| == length
    ensures var row := Print(Stored(work, salt, derive(password, salt, work, length)));
            && VerifyPassword(derive, row, tried) != PasswordUnusable
            && (VerifyPassword(derive, row, tried) == Accepted <==> derive(tried, salt, work, length) == derive(password, salt, work, length))
  {
    ParsePrint(Stored(work, salt, derive(password, salt, work, length)));
  }
}
