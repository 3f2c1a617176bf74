/** The keys of the virtual nodes (backend/dfs/hashing/hash.go): the text of the identifier, `#`, and the number in
    decimal. No two virtual nodes share a key, so some hash gives them all positions of their own. */
module VirtualKeys {
  import opened Basics
  import opened Uuids
  import opened Placement
  import opened RingChanges
  import Sorting

  // ----- decimal numbers -----

  predicate IsDigit(c: char) {
    '0' <= c <= '9'
  }

  /** The number that a text of decimal digits stands for, the last digit counting one. */
  function NumberOf(s: string): nat {
    if s == [] || !IsDigit(s[|s| - 1]) then 0
    else NumberOf(s[..|s| - 1]) * 10 + (s[|s| - 1] - '0') as int
  }

  lemma DigitChar(n: nat)
    requires n < 10
    ensures var c := '0' + n as char; IsDigit(c) && (c - '0') as int == n && (c == '0' <==> n == 0)
  {
  }

  lemma NumberOfMore(d: string, c: char)
    requires IsDigit(c)
    ensures NumberOf(d + [c]) == NumberOf(d) * 10 + (c - '0') as int
  {
    assert (d + [c])[..|d|] == d;
  }

  /** The digits of `n` read back give `n`, and there is no leading zero. */
  lemma {:induction false} DecimalReadsBack(n: nat)
    ensures NumberOf(Decimal(n)) == n && Decimal(n) != []
    ensures forall k | 0 <= k < |Decimal(n)| :: IsDigit(Decimal(n)[k])
    ensures Decimal(n)[0] == '0' ==> n == 0 && |Decimal(n)| == 1
  {
    var last := '0' + (n % 10) as char;
    DigitChar(n % 10);
    var d := if n < 10 then "" else Decimal(n / 10);
    NumberOfMore(d, last);
    assert Decimal(n) == d + [last];
    if n >= 10 {
      DecimalReadsBack(n / 10);
      assert (d + [last])[0] == d[0];
    }
  }

  // ----- the text of an identifier -----

  /** How many hyphens come before byte `k` and its own hyphen. */
  function HyphensBefore(k: nat): nat {
    (if 4 < k then 1 else 0) + (if 6 < k then 1 else 0) + (if 8 < k then 1 else 0) + (if 10 < k then 1 else 0)
  }

  /** The place of the text of byte `k`, its hyphen included. */
  function PlaceOf(k: nat): nat {
    2 * k + HyphensBefore(k)
  }

  /** `t` is the text from byte `k` on: the hyphens stand at 8, 13, 18 and 23 of the whole, the digits of each
      byte at the places left. */
  ghost predicate Laid(b: seq<byte>, k: nat, t: string)
    requires |b| == 16 && k <= 16
  {
    && |t| == 36 - PlaceOf(k)
    && HyphenAt(k, t, 8) && HyphenAt(k, t, 13) && HyphenAt(k, t, 18) && HyphenAt(k, t, 23)
    && (forall j | k <= j < 16 :: DigitsAt(b, k, t, j))
  }

  ghost predicate HyphenAt(k: nat, t: string, p: nat) {
    PlaceOf(k) <= p ==> p - PlaceOf(k) < |t| && t[p - PlaceOf(k)] == '-'
  }

  ghost predicate DigitsAt(b: seq<byte>, k: nat, t: string, j: nat)
    requires |b| == 16 && k <= j < 16
  {
    var p := PlaceOf(j) - PlaceOf(k) + |Hyphen(j)|;
    0 <= p && p + 2 <= |t| && t[p] == Hex(b[j])[0] && t[p + 1] == Hex(b[j])[1]
  }

  lemma LaidStep(b: seq<byte>, k: nat, t: string)
    requires |b| == 16 && k < 16 && Laid(b, k + 1, t)
    ensures Laid(b, k, Hyphen(k) + (Hex(b[k]) + t))
  {
    var whole := Hyphen(k) + (Hex(b[k]) + t);
    var shift := PlaceOf(k + 1) - PlaceOf(k);
    assert |Hyphen(k)| + 2 == shift && forall i | 0 <= i < |t| :: whole[i + shift] == t[i];
    forall j | k <= j < 16
      ensures DigitsAt(b, k, whole, j)
    {
      if j > k {
        assert DigitsAt(b, k + 1, t, j);
        var p := PlaceOf(j) - PlaceOf(k + 1) + |Hyphen(j)|;
        assert whole[p + shift] == t[p] && whole[p + 1 + shift] == t[p + 1];
      }
    }
    HyphenStep(k, t, whole, 8);
    HyphenStep(k, t, whole, 13);
    HyphenStep(k, t, whole, 18);
    HyphenStep(k, t, whole, 23);
  }

  lemma HyphenStep(k: nat, t: string, whole: string, p: nat)
    requires k < 16 && p in {8, 13, 18, 23} && HyphenAt(k + 1, t, p)
    requires |whole| == |t| + PlaceOf(k + 1) - PlaceOf(k) && Hyphen(k) <= whole
    requires forall i | 0 <= i < |t| :: whole[i + (PlaceOf(k + 1) - PlaceOf(k))] == t[i]
    ensures HyphenAt(k, whole, p)
  {
    if PlaceOf(k + 1) <= p {
      assert whole[p - PlaceOf(k + 1) + (PlaceOf(k + 1) - PlaceOf(k))] == '-';
    }
  }

  lemma {:induction false} TextFromLaid(b: seq<byte>, k: nat)
    requires |b| == 16 && k <= 16
    ensures Laid(b, k, TextFrom(b, k))
    decreases 16 - k
  {
    if k < 16 {
      TextFromLaid(b, k + 1);
      LaidStep(b, k, TextFrom(b, k + 1));
    }
  }

  predicate IsHex(c: char) {
    '0' <= c <= '9' || 'a' <= c <= 'f'
  }

  /** What one lower-case hex digit stands for. */
  function HexValue(c: char): int {
    if '0' <= c <= '9' then (c - '0') as int else if 'a' <= c <= 'f' then (c - 'a') as int + 10 else -1
  }

  lemma HexReadsBack(n: byte)
    ensures |Hex(n)| == 2 && IsHex(Hex(n)[0]) && IsHex(Hex(n)[1])
    ensures 16 * HexValue(Hex(n)[0]) + HexValue(Hex(n)[1]) == n as int
  {
    var i := n as int;
    DigitReadsBack(i / 16);
    DigitReadsBack(i % 16);
  }

  lemma DigitReadsBack(n: int)
    requires 0 <= n < 16
    ensures IsHex(HexDigit(n)) && HexValue(HexDigit(n)) == n
  {
  }

  /** Where the digits of byte `j` stand. */
  function Column(j: nat): nat {
    2 * j + if j < 4 then 0 else if j < 6 then 1 else if j < 8 then 2 else if j < 10 then 3 else 4
  }

  predicate ByteAt(t: string, p: nat, n: byte) {
    && p + 1 < |t| && IsHex(t[p]) && IsHex(t[p + 1])
    && 16 * HexValue(t[p]) + HexValue(t[p + 1]) == n as int
  }

  /** The text of an identifier has 36 characters, hyphens at 8, 13, 18 and 23, and in between the bytes in their
      order, two lower-case hex digits each. */
  lemma TextShape(u: Uuid)
    ensures |Text(u)| == 36 && Text(u)[8] == Text(u)[13] == Text(u)[18] == Text(u)[23] == '-'
    ensures forall j | 0 <= j < 16 :: ByteAt(Text(u), Column(j), u.bytes[j])
  {
    var t := Text(u);
    TextFromLaid(u.bytes, 0);
    forall j | 0 <= j < 16
      ensures ByteAt(t, Column(j), u.bytes[j])
    {
      assert DigitsAt(u.bytes, 0, t, j) && Column(j) == PlaceOf(j) - PlaceOf(0) + |Hyphen(j)|;
      HexReadsBack(u.bytes[j]);
    }
  }

  lemma TextInjective(x: Uuid, y: Uuid)
    requires Text(x) == Text(y)
    ensures x == y
  {
    IdLessTotal(x, x);
    IdLessTotal(x, y);
  }

  // ----- the keys -----

  lemma KeyParts(x: Uuid, i: nat)
    ensures var key := GenerateVirtualNodeKey(x, i);
            |key| > 37 && key[..36] == Text(x) && key[36] == '#' && key[37..] == Decimal(i)
  {
    TextShape(x);
    DecimalReadsBack(i);
  }

  /** Different virtual nodes have different keys. */
  lemma KeyInjective(x: Uuid, i: nat, y: Uuid, j: nat)
    requires GenerateVirtualNodeKey(x, i) == GenerateVirtualNodeKey(y, j)
    ensures x == y && i == j
  {
    KeyParts(x, i);
    KeyParts(y, j);
    TextInjective(x, y);
    DecimalReadsBack(i);
    DecimalReadsBack(j);
  }

  // ----- a hash that tells them all apart -----

  function IndexOf(nodes: seq<Uuid>, text: string): nat {
    if nodes == [] || Text(nodes[0]) == text then 0 else 1 + IndexOf(nodes[1..], text)
  }

  lemma {:induction false} IndexOfIs(nodes: seq<Uuid>, k: nat)
    requires k < |nodes| && NoRepeats(nodes)
    ensures IndexOf(nodes, Text(nodes[k])) == k
  {
    if k > 0 {
      if Text(nodes[0]) == Text(nodes[k]) {
        TextInjective(nodes[0], nodes[k]);
      }
      assert forall i, j | 0 <= i < j < |nodes[1..]| :: nodes[1..][i] == nodes[i + 1] && nodes[1..][j] == nodes[j + 1];
      IndexOfIs(nodes[1..], k - 1);
    }
  }

  /** Virtual node `i` of the `k`-th node gets the position `k * count + i`. */
  function Numbered(nodes: seq<Uuid>, count: nat): string -> Position {
    key => if |key| < 37 then 0 else (IndexOf(nodes, key[..36]) * count + NumberOf(key[37..])) % 0x1_0000_0000
  }

  lemma PlacesFit(k: nat, n: nat, count: nat, i: nat)
    requires k < n && i < count
    ensures k * count + i < n * count
  {
    assert (k + 1) * count <= n * count;
  }

  lemma NumberedAt(nodes: seq<Uuid>, count: nat, k: nat, i: nat)
    requires NoRepeats(nodes) && |nodes| * count <= 0x1_0000_0000 && k < |nodes| && i < count
    ensures Numbered(nodes, count)(GenerateVirtualNodeKey(nodes[k], i)) == k * count + i
  {
    var key := GenerateVirtualNodeKey(nodes[k], i);
    KeyParts(nodes[k], i);
    IndexOfIs(nodes, k);
    DecimalReadsBack(i);
    assert IndexOf(nodes, key[..36]) == k && NumberOf(key[37..]) == i;
    PlacesFit(k, |nodes|, count, i);
    SmallModulo(k * count + i);
  }

  lemma SmallModulo(v: nat)
    requires v < 0x1_0000_0000
    ensures v % 0x1_0000_0000 == v
  {
  }

  lemma PlacesDiffer(k: nat, i: nat, m: nat, j: nat, count: nat)
    requires i < count && j < count && k * count + i == m * count + j
    ensures k == m && i == j
  {
    assert k < m ==> (k + 1) * count <= m * count;
    assert m < k ==> (m + 1) * count <= k * count;
  }

  /** Any nodes whose virtual nodes fit into the 32-bit positions can have positions that are all distinct: some
      hash gives them. */
  lemma PositionsCanBeDistinct(nodes: seq<Uuid>, count: nat) returns (hash: string -> Position)
    requires NoRepeats(nodes) && |nodes| * count <= 0x1_0000_0000
    ensures DistinctPositions((set x | x in nodes), count, hash)
  {
    hash := Numbered(nodes, count);
    forall x, y, i, j | x in nodes && y in nodes && 0 <= i < count && 0 <= j < count
                        && Positions(x, count, hash)[i] == Positions(y, count, hash)[j]
      ensures x == y && i == j
    {
      var k :| 0 <= k < |nodes| && nodes[k] == x;
      var m :| 0 <= m < |nodes| && nodes[m] == y;
      NumberedAt(nodes, count, k, i);
      NumberedAt(nodes, count, m, j);
      PlacesDiffer(k, i, m, j, count);
    }
  }

  /** So a new node on a ring of the default size may take 150 distinct positions, which the ring then has. */
  lemma DefaultPositions(node: NodeInfo) returns (hash: string -> Position)
    ensures DEFAULT_VIRTUAL_NODES == 150 && DistinctPositions({node.id}, 150, hash)
    ensures var s := AddNode(RingState([], map[], map[], DEFAULT_VIRTUAL_NODES), node, hash);
            Exact(s, hash) && |s.ring| == 150 && s.nodes == map[node.id := node]
  {
    hash := PositionsCanBeDistinct([node.id], 150);
    assert (set x | x in [node.id]) == {node.id};
    var empty := RingState([], map[], map[], DEFAULT_VIRTUAL_NODES);
    assert Exact(empty, hash) by {
      assert forall p :: ExactAt(empty, hash, p);
    }
    assert empty.nodes.Keys + {node.id} == {node.id};
    AddExact(empty, node, hash);
    Sorting.SliceStablePermutes(empty.ring + Positions(node.id, 150, hash), Below);
    var sorted := AddNode(empty, node, hash).ring;
    assert |multiset(sorted)| == |sorted|;
  }
}
