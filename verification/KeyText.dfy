/** The text of an object key. The rest of the model works with keys as values; this module shows that nothing is lost:
    distinct keys have distinct texts, and KeyLess is the byte order of the texts. */
module KeyText {
  import opened Types

  function Pow16(n: nat): nat {
    if n == 0 then 1 else 16 * Pow16(n - 1)
  }

  function Digit(d: nat): char
    requires d < 16
  {
    "0123456789abcdef"[d]
  }

  /** Lower-case hexadecimal, most significant digit first. */
  function Hex(n: nat, width: nat): (s: string)
    ensures |s| == width
  {
    if width == 0 then "" else Hex(n / 16, width - 1) + [Digit(n % 16)]
  }

  /** Five groups of hexadecimal digits: 8-4-4-4-12. */
  function Grouped(h: string): string
    requires |h| == 32
  {
    h[..8] + ("-" + Grouped4(h[8..]))
  }

  function Grouped4(h: string): string
    requires |h| == 24
  {
    h[..4] + ("-" + Grouped3(h[4..]))
  }

  function Grouped3(h: string): string
    requires |h| == 20
  {
    h[..4] + ("-" + Grouped2(h[4..]))
  }

  function Grouped2(h: string): string
    requires |h| == 16
  {
    h[..4] + ("-" + h[4..])
  }

  function UuidText(u: Uuid): string {
    Grouped(Hex(u, 32))
  }

  function Text(k: Key): string {
    match k
    case Staging(u) => "staging/" + UuidText(u)
    case Media(c) => "media/" + (UuidText(c.upload) + ("/" + Hex(c.sha256, 64)))
  }

  /** Byte order of texts. */
  predicate Less(s: string, t: string) {
    t != "" && (s == "" || s[0] < t[0] || (s[0] == t[0] && Less(s[1..], t[1..])))
  }

  lemma {:induction false} LessConcat(a: string, b: string, x: string, y: string)
    requires |a| == |b|
    ensures Less(a + x, b + y) <==> Less(a, b) || (a == b && Less(x, y))
    ensures a + x == b + y <==> a == b && x == y
  {
    if a == "" {
      assert a + x == x && b + y == y;
    } else {
      LessConcat(a[1..], b[1..], x, y);
      assert (a + x)[1..] == a[1..] + x && (b + y)[1..] == b[1..] + y;
      assert a == [a[0]] + a[1..] && b == [b[0]] + b[1..];
      assert a + x == [a[0]] + (a[1..] + x) && b + y == [b[0]] + (b[1..] + y);
    }
  }

  lemma DigitOrder(c: nat, d: nat)
    requires c < 16 && d < 16
    ensures Less([Digit(c)], [Digit(d)]) <==> c < d
    ensures [Digit(c)] == [Digit(d)] <==> c == d
  {
  }

  /** Fixed-width hexadecimal keeps the order of the numbers. */
  lemma {:induction false} HexOrder(a: nat, b: nat, width: nat)
    requires a < Pow16(width) && b < Pow16(width)
    ensures Less(Hex(a, width), Hex(b, width)) <==> a < b
    ensures Hex(a, width) == Hex(b, width) <==> a == b
  {
    if width > 0 {
      HexOrder(a / 16, b / 16, width - 1);
      DigitOrder(a % 16, b % 16);
      LessConcat(Hex(a / 16, width - 1), Hex(b / 16, width - 1), [Digit(a % 16)], [Digit(b % 16)]);
    }
  }

  predicate SameOrder(s: string, t: string, x: string, y: string) {
    (Less(s, t) <==> Less(x, y)) && (s == t <==> x == y)
  }

  /** A hyphen at one place changes neither order nor equality. */
  lemma Hyphen(h: string, g: string, i: nat, x: string, y: string)
    requires |h| == |g| && i <= |h| && SameOrder(x, y, h[i..], g[i..])
    ensures SameOrder(h[..i] + ("-" + x), g[..i] + ("-" + y), h, g)
  {
    assert h == h[..i] + h[i..] && g == g[..i] + g[i..];
    LessConcat(h[..i], g[..i], h[i..], g[i..]);
    LessConcat(h[..i], g[..i], "-" + x, "-" + y);
    LessConcat("-", "-", x, y);
  }

  lemma GroupedOrder(h: string, g: string)
    requires |h| == |g| == 32
    ensures SameOrder(Grouped(h), Grouped(g), h, g)
  {
    var h4, g4 := h[8..], g[8..];
    var h3, g3 := h4[4..], g4[4..];
    var h2, g2 := h3[4..], g3[4..];
    Hyphen(h2, g2, 4, h2[4..], g2[4..]);
    Hyphen(h3, g3, 4, Grouped2(h2), Grouped2(g2));
    Hyphen(h4, g4, 4, Grouped3(h3), Grouped3(g3));
    Hyphen(h, g, 8, Grouped4(h4), Grouped4(g4));
  }

  lemma {:induction false} Pow16Adds(m: nat, n: nat)
    ensures Pow16(m + n) == Pow16(m) * Pow16(n)
  {
    if m > 0 {
      Pow16Adds(m - 1, n);
    }
  }

  /** 32 and 64 hexadecimal digits hold exactly a UUID and a digest. */
  lemma Widths()
    ensures Pow16(32) == UUIDS && Pow16(64) == DIGESTS
  {
    assert Pow16(4) == 0x1_0000;
    Pow16Adds(4, 4);
    Pow16Adds(8, 8);
    Pow16Adds(16, 16);
    Pow16Adds(32, 32);
  }

  lemma UuidOrder(u: Uuid, v: Uuid)
    ensures Less(UuidText(u), UuidText(v)) <==> u < v
    ensures UuidText(u) == UuidText(v) <==> u == v
    ensures |UuidText(u)| == |UuidText(v)|
  {
    Widths();
    GroupedOrder(Hex(u, 32), Hex(v, 32));
    HexOrder(u, v, 32);
  }

  lemma MediaOrder(c: CandidateId, d: CandidateId)
    ensures SameOrder(Text(Media(c)), Text(Media(d)),
                      UuidText(c.upload) + ("/" + Hex(c.sha256, 64)), UuidText(d.upload) + ("/" + Hex(d.sha256, 64)))
    ensures SameOrder("/" + Hex(c.sha256, 64), "/" + Hex(d.sha256, 64), Hex(c.sha256, 64), Hex(d.sha256, 64))
  {
    LessConcat("/", "/", Hex(c.sha256, 64), Hex(d.sha256, 64));
    LessConcat("media/", "media/", UuidText(c.upload) + ("/" + Hex(c.sha256, 64)),
        UuidText(d.upload) + ("/" + Hex(d.sha256, 64)));
  }

  /** The texts of two keys are equal exactly when the keys are, and ordered as KeyLess says. */
  lemma TextOrder(a: Key, b: Key)
    ensures Text(a) == Text(b) <==> a == b
    ensures Less(Text(a), Text(b)) <==> KeyLess(a, b)
  {
    match (a, b)
    case (Staging(u), Staging(v)) =>
      UuidOrder(u, v);
      LessConcat("staging/", "staging/", UuidText(u), UuidText(v));
    case (Media(c), Media(d)) =>
      MediaOrder(c, d);
      Widths();
      UuidOrder(c.upload, d.upload);
      HexOrder(c.sha256, d.sha256, 64);
      LessConcat(UuidText(c.upload), UuidText(d.upload), "/" + Hex(c.sha256, 64), "/" + Hex(d.sha256, 64));
    case _ => FirstLetter(a, b);
  }

  lemma FirstLetter(a: Key, b: Key)
    requires a.Media? != b.Media?
    ensures Text(a) != Text(b) && (Less(Text(a), Text(b)) <==> a.Media?)
  {
  }
}
