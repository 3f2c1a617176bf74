/** Node identifiers: 16 bytes compared for equality, and the canonical 36-character
    lower-case text (section 4 of RFC 9562) that the tie-breaks compare. */
module Uuids {

  newtype byte = x: int | 0 <= x < 256

  datatype RawUuid = RawUuid(bytes: seq<byte>)

  type Uuid = u: RawUuid | |u.bytes| == 16
    witness RawUuid([0, 0, 0, 0, 0, 0, 0, 0, 0, 0, 0, 0, 0, 0, 0, 0])

  const NIL: Uuid := RawUuid([0, 0, 0, 0, 0, 0, 0, 0, 0, 0, 0, 0, 0, 0, 0, 0])

  function HexDigit(n: int): (c: char)
    requires 0 <= n < 16
  {
    if n < 10 then '0' + n as char else 'a' + (n - 10) as char
  }

  /** The two digits of a byte. */
  function Hex(n: byte): string {
    [HexDigit(n as int / 16), HexDigit(n as int % 16)]
  }

  function Hyphen(k: nat): string {
    if k in {4, 6, 8, 10} then "-" else ""
  }

  /** The text of the bytes from position `k` on, with a hyphen before bytes 4, 6, 8 and 10. */
  function TextFrom(b: seq<byte>, k: nat): string
    requires k <= |b|
    decreases |b| - k
  {
    if k == |b| then "" else Hyphen(k) + (Hex(b[k]) + TextFrom(b, k + 1))
  }

  function Text(u: Uuid): string {
    TextFrom(u.bytes, 0)
  }

  /** Go's `<` on strings. */
  predicate LexLess(a: string, b: string) {
    b != [] && (a == [] || a[0] < b[0] || (a[0] == b[0] && LexLess(a[1..], b[1..])))
  }

  /** The order of the raw bytes from position `k` on. */
  predicate BytesLess(a: seq<byte>, b: seq<byte>, k: nat)
    requires k <= |a| == |b|
    decreases |a| - k
  {
    k < |a| && (a[k] < b[k] || (a[k] == b[k] && BytesLess(a, b, k + 1)))
  }

  predicate IdLess(a: Uuid, b: Uuid) {
    LexLess(Text(a), Text(b))
  }

  lemma HexOrder(m: int, n: int)
    requires 0 <= m < 256 && 0 <= n < 256
    ensures m < n <==> HexDigit(m / 16) < HexDigit(n / 16)
                       || (HexDigit(m / 16) == HexDigit(n / 16) && HexDigit(m % 16) < HexDigit(n % 16))
    ensures m == n <==> HexDigit(m / 16) == HexDigit(n / 16) && HexDigit(m % 16) == HexDigit(n % 16)
  {
    assert m == 16 * (m / 16) + m % 16 && n == 16 * (n / 16) + n % 16;
    assert 0 <= m / 16 < 16 && 0 <= n / 16 < 16;
  }

  lemma LexCommonPrefix(p: string, a: string, b: string)
    ensures LexLess(p + a, p + b) <==> LexLess(a, b)
  {
    if p == [] {
      assert p + a == a && p + b == b;
    } else {
      assert (p + a)[1..] == p[1..] + a && (p + b)[1..] == p[1..] + b;
      LexCommonPrefix(p[1..], a, b);
    }
  }

  lemma LexTwoChars(c: char, d: char, a: string, e: char, f: char, b: string)
    ensures LexLess([c, d] + a, [e, f] + b)
            <==> c < e || (c == e && (d < f || (d == f && LexLess(a, b))))
  {
    var s, t := [c, d] + a, [e, f] + b;
    assert s[1..] == [d] + a && t[1..] == [f] + b;
    assert s[1..][1..] == a && t[1..][1..] == b;
  }

  /** One byte decides as its number does. */
  lemma HexOrderThenRest(m: byte, x: string, n: byte, y: string)
    ensures LexLess(Hex(m) + x, Hex(n) + y) <==> m < n || (m == n && LexLess(x, y))
  {
    var i, j := m as int, n as int;
    LexTwoChars(HexDigit(i / 16), HexDigit(i % 16), x, HexDigit(j / 16), HexDigit(j % 16), y);
    HexOrder(i, j);
  }

  lemma TextFromStep(a: seq<byte>, b: seq<byte>, k: nat)
    requires k < |a| == |b|
    ensures LexLess(TextFrom(a, k), TextFrom(b, k))
            <==> a[k] < b[k] || (a[k] == b[k] && LexLess(TextFrom(a, k + 1), TextFrom(b, k + 1)))
  {
    LexCommonPrefix(Hyphen(k), Hex(a[k]) + TextFrom(a, k + 1), Hex(b[k]) + TextFrom(b, k + 1));
    HexOrderThenRest(a[k], TextFrom(a, k + 1), b[k], TextFrom(b, k + 1));
  }

  lemma {:induction false} TextFromOrder(a: seq<byte>, b: seq<byte>, k: nat)
    requires k <= |a| == |b|
    ensures LexLess(TextFrom(a, k), TextFrom(b, k)) <==> BytesLess(a, b, k)
    decreases |a| - k
  {
    if k < |a| {
      TextFromStep(a, b, k);
      TextFromOrder(a, b, k + 1);
    } else {
      assert TextFrom(a, k) == TextFrom(b, k) == [];
    }
  }

  /** The text order of two identifiers is the order of their 16 bytes. */
  lemma TextOrderIsByteOrder(a: Uuid, b: Uuid)
    ensures IdLess(a, b) <==> BytesLess(a.bytes, b.bytes, 0)
  {
    TextFromOrder(a.bytes, b.bytes, 0);
  }

  lemma {:induction false} BytesLessTotal(a: seq<byte>, b: seq<byte>, k: nat)
    requires k <= |a| == |b|
    ensures !(BytesLess(a, b, k) && BytesLess(b, a, k))
    ensures BytesLess(a, b, k) || BytesLess(b, a, k) || a[k..] == b[k..]
    decreases |a| - k
  {
    if k < |a| {
      BytesLessTotal(a, b, k + 1);
      assert a[k..] == [a[k]] + a[k + 1..] && b[k..] == [b[k]] + b[k + 1..];
    }
  }

  lemma {:induction false} BytesLessTransitive(a: seq<byte>, b: seq<byte>, c: seq<byte>, k: nat)
    requires k <= |a| == |b| == |c|
    requires BytesLess(a, b, k) && BytesLess(b, c, k)
    ensures BytesLess(a, c, k)
    decreases |a| - k
  {
    if a[k] == b[k] == c[k] {
      BytesLessTransitive(a, b, c, k + 1);
    }
  }

  /** The comparison of texts is a strict total order of the identifiers. */
  lemma IdLessTotal(a: Uuid, b: Uuid)
    ensures !(IdLess(a, b) && IdLess(b, a))
    ensures !IdLess(a, a)
    ensures IdLess(a, b) || IdLess(b, a) || a == b
  {
    TextOrderIsByteOrder(a, b);
    TextOrderIsByteOrder(b, a);
    TextOrderIsByteOrder(a, a);
    BytesLessTotal(a.bytes, b.bytes, 0);
    BytesLessTotal(a.bytes, a.bytes, 0);
  }

  lemma IdLessTransitive(a: Uuid, b: Uuid, c: Uuid)
    requires IdLess(a, b) && IdLess(b, c)
    ensures IdLess(a, c)
  {
    TextOrderIsByteOrder(a, b);
    TextOrderIsByteOrder(b, c);
    TextOrderIsByteOrder(a, c);
    BytesLessTransitive(a.bytes, b.bytes, c.bytes, 0);
  }
}
