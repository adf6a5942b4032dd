/** Text as the storage keys use it: splitting at colons, decimal and hexadecimal numbers, UUIDs and
    white space. */
module Text {
  import opened Notifications

  predicate Lacks(s: string, c: char) {
    forall i :: 0 <= i < |s| ==> s[i] != c
  }

  /** `str::split(':')`: always at least one segment. */
  function Split(s: string): (segments: seq<string>)
    ensures segments != []
  {
    if s == "" then [""]
    else if s[0] == ':' then [""] + Split(s[1..])
    else var rest := Split(s[1..]); [[s[0]] + rest[0]] + rest[1..]
  }

  lemma {:induction false} SplitWhole(s: string)
    requires Lacks(s, ':')
    ensures Split(s) == [s]
  {
    if s != "" {
      SplitWhole(s[1..]);
      assert [s[0]] + s[1..] == s;
    }
  }

  lemma {:induction false} SplitAt(a: string, b: string)
    requires Lacks(a, ':')
    ensures Split(a + ":" + b) == [a] + Split(b)
  {
    var s := a + ":" + b;
    if a == "" {
      assert s[1..] == b;
    } else {
      assert s[1..] == a[1..] + ":" + b;
      SplitAt(a[1..], b);
      assert [s[0]] + a[1..] == a;
    }
  }

  /** One segment more than there are colons. */
  lemma {:induction false} SplitTwo(s: string)
    requires !Lacks(s, ':')
    ensures |Split(s)| >= 2
  {
    if s[0] != ':' {
      assert !Lacks(s[1..], ':');
      SplitTwo(s[1..]);
    }
  }

  /** `[_].join(":")`. */
  function Join(segments: seq<string>): string {
    if segments == [] then ""
    else if |segments| == 1 then segments[0]
    else segments[0] + ":" + Join(segments[1..])
  }

  /** The segments are without colons, and put together again they are the text. */
  lemma {:induction false} SplitJoins(s: string)
    ensures Join(Split(s)) == s
    ensures forall i :: 0 <= i < |Split(s)| ==> Lacks(Split(s)[i], ':')
  {
    if s != "" {
      var rest := Split(s[1..]);
      SplitJoins(s[1..]);
      if s[0] == ':' {
        assert Split(s)[1..] == rest;
        assert s == "" + ":" + s[1..];
      } else {
        var r := Split(s);
        assert r[1..] == rest[1..] && r[0] == [s[0]] + rest[0];
        assert Lacks(rest[0], ':');
        if |rest| > 1 { assert [s[0]] + (rest[0] + ":" + Join(rest[1..])) == ([s[0]] + rest[0]) + ":" + Join(rest[1..]); }
        assert s == [s[0]] + s[1..];
      }
    }
  }

  // ------------------------------------------------------------------ decimal

  function Digit(d: nat): char
    requires d < 10
  {
    ('0' as int + d) as char
  }

  function DigitValue(c: char): Option<nat> {
    if '0' <= c <= '9' then Some(c as int - '0' as int) else None
  }

  function Decimal(n: nat): (s: string)
    ensures s != ""
  {
    if n < 10 then [Digit(n)] else Decimal(n / 10) + [Digit(n % 10)]
  }

  function DecimalValue(s: string): Option<nat> {
    if s == "" then Some(0)
    else
      match (DecimalValue(s[..|s| - 1]), DigitValue(s[|s| - 1]))
      case (Some(high), Some(d)) => Some(10 * high + d)
      case _ => None
  }

  const U64_LIMIT: nat := 0x1_0000_0000_0000_0000

  /** `str::parse::<u64>`: a sign is allowed, nothing at all is not. */
  function ParseU64(s: string): Option<nat> {
    var digits := if s != "" && s[0] == '+' then s[1..] else s;
    if digits == "" then None
    else match DecimalValue(digits)
      case Some(n) => if n < U64_LIMIT then Some(n) else None
      case None => None
  }

  lemma {:induction false} DecimalIsDigits(n: nat)
    ensures forall i :: 0 <= i < |Decimal(n)| ==> '0' <= Decimal(n)[i] <= '9'
  {
    if n >= 10 { DecimalIsDigits(n / 10); }
  }

  lemma {:induction false} DecimalRoundTrip(n: nat)
    ensures DecimalValue(Decimal(n)) == Some(n)
  {
    if n < 10 {
      assert Decimal(n)[..0] == "";
    } else {
      DecimalRoundTrip(n / 10);
      assert Decimal(n)[..|Decimal(n)| - 1] == Decimal(n / 10);
    }
  }

  lemma DecimalsTellApart(a: nat, b: nat)
    requires Decimal(a) == Decimal(b)
    ensures a == b
  {
    DecimalRoundTrip(a);
    DecimalRoundTrip(b);
  }

  /** A number survives printing and parsing exactly when it fits. */
  lemma U64RoundTripIff(n: nat)
    ensures ParseU64(Decimal(n)) == if n < U64_LIMIT then Some(n) else None
  {
    DecimalIsDigits(n);
    DecimalRoundTrip(n);
  }

  lemma {:induction false} DigitsHaveValues(s: string)
    ensures DecimalValue(s).Some? <==> forall i :: 0 <= i < |s| ==> '0' <= s[i] <= '9'
  {
    if s != "" { DigitsHaveValues(s[..|s| - 1]); }
  }

  /** One digit or more. */
  predicate Numeral(s: string) {
    s != "" && forall i :: 0 <= i < |s| ==> '0' <= s[i] <= '9'
  }

  /** What is read as a number: a numeral, after a plus sign or none, whose value fits. */
  lemma U64ParsesIff(s: string, n: nat)
    ensures ParseU64(s) == Some(n) <==>
      n < U64_LIMIT && exists digits ::
        Numeral(digits) && (s == digits || s == "+" + digits) && DecimalValue(digits) == Some(n)
  {
    var digits := if s != "" && s[0] == '+' then s[1..] else s;
    if ParseU64(s) == Some(n) {
      DigitsHaveValues(digits);
      assert Numeral(digits) && (s == digits || s == "+" + digits);
    }
    if other :| Numeral(other) && (s == other || s == "+" + other) && DecimalValue(other) == Some(n) {
      assert other == digits;
    }
  }

  // -------------------------------------------------------------- hexadecimal

  function HexDigit(d: nat): char
    requires d < 16
  {
    if d < 10 then Digit(d) else ('a' as int + d - 10) as char
  }

  function HexDigitValue(c: char): Option<nat> {
    if '0' <= c <= '9' then Some(c as int - '0' as int)
    else if 'a' <= c <= 'f' then Some(c as int - 'a' as int + 10)
    else if 'A' <= c <= 'F' then Some(c as int - 'A' as int + 10)
    else None
  }

  function Pow16(w: nat): nat {
    if w == 0 then 1 else 16 * Pow16(w - 1)
  }

  /** The lowest `w` hexadecimal digits of a number. */
  function Hex(n: nat, w: nat): (s: string)
    ensures |s| == w
  {
    if w == 0 then "" else Hex(n / 16, w - 1) + [HexDigit(n % 16)]
  }

  function HexValue(s: string): Option<nat> {
    if s == "" then Some(0)
    else
      match (HexValue(s[..|s| - 1]), HexDigitValue(s[|s| - 1]))
      case (Some(high), Some(d)) => Some(16 * high + d)
      case _ => None
  }

  lemma {:induction false} HexValueFits(s: string)
    requires HexValue(s).Some?
    ensures HexValue(s).value < Pow16(|s|)
  {
    if s != "" { HexValueFits(s[..|s| - 1]); }
  }

  predicate IsHexDigit(c: char) {
    '0' <= c <= '9' || 'a' <= c <= 'f'
  }

  lemma {:induction false} HexRoundTrip(n: nat, w: nat)
    requires n < Pow16(w)
    ensures HexValue(Hex(n, w)) == Some(n)
    ensures forall i :: 0 <= i < w ==> IsHexDigit(Hex(n, w)[i])
  {
    if w > 0 {
      HexRoundTrip(n / 16, w - 1);
      assert Hex(n, w)[..w - 1] == Hex(n / 16, w - 1);
    }
  }

  lemma Pow16Of32()
    ensures Pow16(32) == 0x1_0000_0000_0000_0000_0000_0000_0000_0000
  {
    assert Pow16(8) == 0x1_0000_0000;
    assert Pow16(16) == 0x1_0000_0000_0000_0000;
    assert Pow16(24) == 0x1_0000_0000_0000_0000_0000_0000;
  }

  // -------------------------------------------------------------------- UUIDs

  function Simple(u: Uuid): (s: string)
    ensures |s| == 32
  {
    Hex(u, 32)
  }

  function Hyphenate(h: string): (s: string)
    requires |h| == 32
    ensures |s| == 36
  {
    h[..8] + "-" + h[8..12] + "-" + h[12..16] + "-" + h[16..20] + "-" + h[20..]
  }

  function Hyphenated(u: Uuid): (s: string)
    ensures |s| == 36
  {
    Hyphenate(Simple(u))
  }

  function ParseSimple(s: string): Option<Uuid>
    requires |s| == 32
  {
    if HexValue(s).Some? then
      HexValueFits(s);
      Pow16Of32();
      Some(HexValue(s).value)
    else None
  }

  function ParseHyphenated(s: string): Option<Uuid> {
    if |s| == 36 && s[8] == s[13] == s[18] == s[23] == '-' then
      ParseSimple(s[..8] + s[9..13] + s[14..18] + s[19..23] + s[24..])
    else None
  }

  /** `Uuid::parse_str`. */
  function ParseUuid(s: string): Option<Uuid> {
    if |s| == 32 then ParseSimple(s)
    else if |s| == 38 && s[0] == '{' && s[37] == '}' then ParseHyphenated(s[1..37])
    else if |s| == 45 && s[..9] == "urn:uuid:" then ParseHyphenated(s[9..])
    else ParseHyphenated(s)
  }

  lemma SimpleRoundTrip(u: Uuid)
    ensures ParseUuid(Simple(u)) == Some(u)
    ensures forall i :: 0 <= i < 32 ==> IsHexDigit(Simple(u)[i])
  {
    Pow16Of32();
    HexRoundTrip(u, 32);
  }

  lemma HyphenateCharacters(h: string)
    requires |h| == 32 && forall i :: 0 <= i < 32 ==> IsHexDigit(h[i])
    ensures forall i :: 0 <= i < 36 ==> IsHexDigit(Hyphenate(h)[i]) || Hyphenate(h)[i] == '-'
  {
    var s := Hyphenate(h);
    forall i | 0 <= i < 36
      ensures IsHexDigit(s[i]) || s[i] == '-'
    {
      if i < 8 { assert s[i] == h[i]; }
      else if 8 < i < 13 { assert s[i] == h[i - 1]; }
      else if 13 < i < 18 { assert s[i] == h[i - 2]; }
      else if 18 < i < 23 { assert s[i] == h[i - 3]; }
      else if 23 < i { assert s[i] == h[i - 4]; }
    }
  }

  lemma HyphenatedRoundTrip(u: Uuid)
    ensures ParseUuid(Hyphenated(u)) == Some(u)
    ensures forall i :: 0 <= i < 36 ==> IsHexDigit(Hyphenated(u)[i]) || Hyphenated(u)[i] == '-'
  {
    SimpleRoundTrip(u);
    var h, s := Simple(u), Hyphenated(u);
    assert s[..8] == h[..8] && s[9..13] == h[8..12] && s[14..18] == h[12..16] && s[19..23] == h[16..20];
    assert s[24..] == h[20..];
    assert h[..8] + h[8..12] + h[12..16] + h[16..20] + h[20..] == h;
    HyphenateCharacters(h);
  }

  /** The other spellings of a UUID: in braces, as a URN, and with capital digits. */
  lemma OtherSpellings(u: Uuid)
    ensures ParseUuid("{" + Hyphenated(u) + "}") == Some(u)
    ensures ParseUuid("urn:uuid:" + Hyphenated(u)) == Some(u)
    ensures ParseUuid(Capitals(Simple(u))) == Some(u)
  {
    HyphenatedRoundTrip(u);
    SimpleRoundTrip(u);
    var h := Hyphenated(u);
    assert |h| == 36;
    assert ("{" + h + "}")[1..37] == h;
    assert ("urn:uuid:" + h)[..9] == "urn:uuid:" && ("urn:uuid:" + h)[9..] == h;
    CapitalsMeanTheSame(Simple(u));
  }

  function Capitals(s: string): (r: string)
    ensures |r| == |s|
  {
    seq(|s|, i requires 0 <= i < |s| => if 'a' <= s[i] <= 'z' then (s[i] as int - 'a' as int + 'A' as int) as char else s[i])
  }

  lemma {:induction false} CapitalsMeanTheSame(s: string)
    requires forall i :: 0 <= i < |s| ==> IsHexDigit(s[i])
    ensures HexValue(Capitals(s)) == HexValue(s)
  {
    if s != "" {
      CapitalsMeanTheSame(s[..|s| - 1]);
      assert Capitals(s)[..|s| - 1] == Capitals(s[..|s| - 1]);
    }
  }

  // -------------------------------------------------------------- white space

  /** The characters that `\s` matches: Unicode's White_Space. */
  predicate IsSpace(c: char) {
    var n := c as int;
    || 0x9 <= n <= 0xD || n == 0x20 || n == 0x85 || n == 0xA0 || n == 0x1680 || 0x2000 <= n <= 0x200A
    || n == 0x2028 || n == 0x2029 || n == 0x202F || n == 0x205F || n == 0x3000
  }

  predicate Spaceless(s: string) {
    forall i :: 0 <= i < |s| ==> !IsSpace(s[i])
  }

  // ----------------------------------------------------------------- ordering

  /** The order of strings. */
  predicate StrLess(a: string, b: string) {
    b != "" && (a == "" || a[0] < b[0] || (a[0] == b[0] && StrLess(a[1..], b[1..])))
  }

  lemma {:induction false} StrLessTransitive(a: string, b: string, c: string)
    requires StrLess(a, b) && StrLess(b, c)
    ensures StrLess(a, c)
  {
    if a != "" && a[0] == b[0] == c[0] { StrLessTransitive(a[1..], b[1..], c[1..]); }
  }

  lemma {:induction false} StrLessTotal(a: string, b: string)
    ensures StrLess(a, b) || a == b || StrLess(b, a)
    ensures !(StrLess(a, b) && StrLess(b, a)) && (a == b ==> !StrLess(a, b))
  {
    if a != "" && b != "" && a[0] == b[0] {
      StrLessTotal(a[1..], b[1..]);
      assert a == [a[0]] + a[1..] && b == [b[0]] + b[1..];
    }
  }
}
