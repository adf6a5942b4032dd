/** The order of printed keys. */
module KeyOrder {
  import opened Notifications
  import opened Text

  /** Texts that begin with equally long parts compare by those parts first. */
  lemma {:induction false} EqualLength(a: string, b: string, x: string, y: string)
    requires |a| == |b|
    ensures StrLess(a + x, b + y) <==> StrLess(a, b) || (a == b && StrLess(x, y))
    decreases |a|
  {
    if a == "" {
      assert a + x == x && b + y == y;
    } else {
      assert (a + x)[1..] == a[1..] + x && (b + y)[1..] == b[1..] + y;
      EqualLength(a[1..], b[1..], x, y);
      assert a == [a[0]] + a[1..] && b == [b[0]] + b[1..];
    }
  }

  lemma OneCharacter(c: char, d: char)
    ensures StrLess([c], [d]) <==> c < d
  {
  }

  // ------------------------------------------------------------------ numbers

  function Width(n: nat): nat { |Decimal(n)| }

  lemma {:induction false} DecimalOrder(a: nat, b: nat)
    requires Width(a) == Width(b)
    ensures StrLess(Decimal(a), Decimal(b)) <==> a < b
    decreases a
  {
    OneCharacter(Digit(a % 10), Digit(b % 10));
    if a >= 10 && b >= 10 {
      DecimalOrder(a / 10, b / 10);
      if Decimal(a / 10) == Decimal(b / 10) { DecimalsTellApart(a / 10, b / 10); }
      EqualLength(Decimal(a / 10), Decimal(b / 10), [Digit(a % 10)], [Digit(b % 10)]);
    }
  }

  /** The number's leading `w` digits. */
  function Lead(n: nat, w: nat): nat
    requires 0 < w <= Width(n)
  {
    if w == Width(n) then n else Lead(n / 10, w)
  }

  /** A number prints as its leading digits and then some more. */
  lemma {:induction false} LeadPrints(n: nat, w: nat) returns (tail: string)
    requires 0 < w <= Width(n)
    ensures Width(Lead(n, w)) == w
    ensures Decimal(n) == Decimal(Lead(n, w)) + tail
    ensures forall i :: 0 <= i < |tail| ==> '0' <= tail[i] <= '9'
    decreases n
  {
    if w == Width(n) {
      tail := "";
    } else {
      var t := LeadPrints(n / 10, w);
      tail := t + [Digit(n % 10)];
      assert Decimal(n) == Decimal(Lead(n, w)) + t + [Digit(n % 10)];
    }
  }

  lemma {:induction false} WiderIsLarger(a: nat, b: nat)
    requires Width(a) < Width(b)
    ensures a < b
    decreases a
  {
    if a >= 10 { WiderIsLarger(a / 10, b / 10); }
  }

  function Pow10(w: nat): nat { if w == 0 then 1 else 10 * Pow10(w - 1) }

  /** A number of `w` digits lies between two powers of ten. */
  lemma {:induction false} WidthIs(n: nat, w: nat)
    requires 0 < w && Pow10(w - 1) <= n < Pow10(w)
    ensures Width(n) == w
    decreases w
  {
    if w > 1 {
      assert Pow10(w - 1) >= 10 by { assert Pow10(w - 1) == 10 * Pow10(w - 2); }
      WidthIs(n / 10, w - 1);
    }
  }

  lemma {:induction false} HexOrder(a: nat, b: nat, w: nat)
    requires a < Pow16(w) && b < Pow16(w)
    ensures StrLess(Hex(a, w), Hex(b, w)) <==> a < b
    ensures Hex(a, w) == Hex(b, w) ==> a == b
    decreases w
  {
    if w > 0 {
      HexOrder(a / 16, b / 16, w - 1);
      OneCharacter(HexDigit(a % 16), HexDigit(b % 16));
      EqualLength(Hex(a / 16, w - 1), Hex(b / 16, w - 1), [HexDigit(a % 16)], [HexDigit(b % 16)]);
      HexRoundTrip(a, w);
      HexRoundTrip(b, w);
    }
  }

  function Cut(h: string, n: nat, rest: string): string
    requires n <= |h|
  {
    h[..n] + ("-" + rest)
  }

  /** A hyphen at the same place does not change the order. */
  lemma CutOrder(a: string, b: string, n: nat, x: string, y: string)
    requires n <= |a| == |b|
    requires StrLess(x, y) <==> StrLess(a[n..], b[n..])
    ensures StrLess(Cut(a, n, x), Cut(b, n, y)) <==> StrLess(a, b)
  {
    EqualLength(a[..n], b[..n], a[n..], b[n..]);
    assert a[..n] + a[n..] == a && b[..n] + b[n..] == b;
    EqualLength("-", "-", x, y);
    EqualLength(a[..n], b[..n], "-" + x, "-" + y);
  }

  function Cut2(h: string): string requires |h| == 20 { Cut(h, 4, Cut(h[4..], 4, h[8..])) }
  function Cut4(h: string): string requires |h| == 32 { Cut(h, 8, Cut(h[8..], 4, Cut2(h[12..]))) }

  lemma HyphenateIsCut(h: string)
    requires |h| == 32
    ensures Hyphenate(h) == Cut4(h)
  {
    var r := h[12..];
    assert r[..4] == h[12..16] && r[4..][..4] == h[16..20] && r[8..] == h[20..];
    assert Cut2(r) == h[12..16] + ("-" + (h[16..20] + ("-" + h[20..])));
    assert h[8..][..4] == h[8..12];
  }

  lemma Cut2Order(a: string, b: string)
    requires |a| == |b| == 20
    ensures StrLess(Cut2(a), Cut2(b)) <==> StrLess(a, b)
  {
    assert a[4..][4..] == a[8..] && b[4..][4..] == b[8..];
    CutOrder(a[4..], b[4..], 4, a[8..], b[8..]);
    CutOrder(a, b, 4, Cut(a[4..], 4, a[8..]), Cut(b[4..], 4, b[8..]));
  }

  lemma HyphenateOrder(a: string, b: string)
    requires |a| == |b| == 32
    ensures StrLess(Hyphenate(a), Hyphenate(b)) <==> StrLess(a, b)
  {
    HyphenateIsCut(a);
    HyphenateIsCut(b);
    Cut2Order(a[12..], b[12..]);
    assert a[8..][4..] == a[12..] && b[8..][4..] == b[12..];
    CutOrder(a[8..], b[8..], 4, Cut2(a[12..]), Cut2(b[12..]));
    CutOrder(a, b, 8, Cut(a[8..], 4, Cut2(a[12..])), Cut(b[8..], 4, Cut2(b[12..])));
  }

  /** UUIDs print in order. */
  lemma UuidOrder(a: Uuid, b: Uuid)
    ensures StrLess(Hyphenated(a), Hyphenated(b)) <==> a < b
    ensures Hyphenated(a) == Hyphenated(b) ==> a == b
  {
    Pow16Of32();
    HexOrder(a, b, 32);
    HyphenateOrder(Simple(a), Simple(b));
    HyphenatedRoundTrip(a);
    HyphenatedRoundTrip(b);
  }
}
