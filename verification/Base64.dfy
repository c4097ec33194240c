/**
 * Unpadded base64, section 4 of RFC 4648. Decoding is the lenient kind: line
 * breaks are skipped and the bits left over at the end are not looked at.
 */
module Base64 {
  import opened Collections

  type Byte = n: int | 0 <= n < 0x100
  type Sextet = n: int | 0 <= n < 0x40

  function CharOf(v: Sextet): char {
    if v < 26 then 'A' + v as char
    else if v < 52 then 'a' + (v - 26) as char
    else if v < 62 then '0' + (v - 52) as char
    else if v == 62 then '+'
    else '/'
  }

  function SextetOf(c: char): Option<Sextet> {
    if 'A' <= c <= 'Z' then Some((c - 'A') as int)
    else if 'a' <= c <= 'z' then Some((c - 'a') as int + 26)
    else if '0' <= c <= '9' then Some((c - '0') as int + 52)
    else if c == '+' then Some(62)
    else if c == '/' then Some(63)
    else None
  }

  lemma CharsAreSextets(v: Sextet)
    ensures SextetOf(CharOf(v)) == Some(v)
  {
  }

  /** Three bytes make four sextets; one or two bytes at the end make two or three. */
  function ToSextets(bytes: seq<Byte>): seq<Sextet> {
    if |bytes| == 0 then []
    else if |bytes| == 1 then [bytes[0] / 4, bytes[0] % 4 * 16]
    else if |bytes| == 2 then [bytes[0] / 4, bytes[0] % 4 * 16 + bytes[1] / 16, bytes[1] % 16 * 4]
    else
      [bytes[0] / 4, bytes[0] % 4 * 16 + bytes[1] / 16, bytes[1] % 16 * 4 + bytes[2] / 64, bytes[2] % 64] + ToSextets(bytes[3..])
  }

  function FromSextets(v: seq<Sextet>): seq<Byte> {
    if |v| < 2 then []
    else if |v| == 2 then [v[0] as int * 4 + v[1] / 16]
    else if |v| == 3 then [v[0] as int * 4 + v[1] / 16, v[1] as int % 16 * 16 + v[2] / 4]
    else [v[0] as int * 4 + v[1] / 16, v[1] as int % 16 * 16 + v[2] / 4, v[2] as int % 4 * 64 + v[3]] + FromSextets(v[4..])
  }

  lemma {:induction false} SextetsAreBytes(bytes: seq<Byte>)
    ensures FromSextets(ToSextets(bytes)) == bytes
    ensures |ToSextets(bytes)| % 4 != 1
    ensures bytes != [] ==> ToSextets(bytes) != []
  {
    if |bytes| >= 3 {
      SextetsAreBytes(bytes[3..]);
      var four := ToSextets(bytes)[..4];
      assert ToSextets(bytes) == four + ToSextets(bytes[3..]);
      assert ToSextets(bytes)[4..] == ToSextets(bytes[3..]);
      assert bytes == [bytes[0], bytes[1], bytes[2]] + bytes[3..];
    }
  }

  function Chars(v: seq<Sextet>): string {
    seq(|v|, i requires 0 <= i < |v| => CharOf(v[i]))
  }

  function Encode(bytes: seq<Byte>): string {
    Chars(ToSextets(bytes))
  }

  function SkipBreaks(s: string): string {
    if s == [] then []
    else if s[0] == '\n' || s[0] == '\r' then SkipBreaks(s[1..])
    else [s[0]] + SkipBreaks(s[1..])
  }

  predicate AllInAlphabet(s: string) {
    forall i :: 0 <= i < |s| ==> SextetOf(s[i]).Some?
  }

  function Sextets(s: string): seq<Sextet>
    requires AllInAlphabet(s)
  {
    seq(|s|, i requires 0 <= i < |s| => SextetOf(s[i]).value)
  }

  /** Any other character is an error, and so is a lone sextet at the end. */
  function Decode(s: string): Option<seq<Byte>> {
    var text := SkipBreaks(s);
    if !AllInAlphabet(text) || |text| % 4 == 1 then None else Some(FromSextets(Sextets(text)))
  }

  lemma {:induction false} NothingToSkip(s: string)
    requires forall i :: 0 <= i < |s| ==> s[i] != '\n' && s[i] != '\r'
    ensures SkipBreaks(s) == s
  {
    if s != [] {
      NothingToSkip(s[1..]);
      assert s == [s[0]] + s[1..];
    }
  }

  lemma EncodedText(bytes: seq<Byte>)
    ensures AllInAlphabet(Encode(bytes)) && Sextets(Encode(bytes)) == ToSextets(bytes)
    ensures '$' !in Encode(bytes)
  {
    var v := ToSextets(bytes);
    forall i | 0 <= i < |v| ensures SextetOf(CharOf(v[i])) == Some(v[i]) {
      CharsAreSextets(v[i]);
    }
  }

  /** Any bytes come back as they were. */
  lemma DecodeEncode(bytes: seq<Byte>)
    ensures Decode(Encode(bytes)) == Some(bytes)
  {
    EncodedText(bytes);
    NothingToSkip(Encode(bytes));
    SextetsAreBytes(bytes);
  }
}
