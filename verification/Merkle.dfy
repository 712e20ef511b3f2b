/** The Xet Merkle tree that names a xorb after its chunks, and why the name
    binds them. */
module Merkle {
  import opened Arith
  import opened Bytes
  import opened Wrappers

  type Digest = d: seq<byte> | |d| == 32 witness seq(32, _ => 0)

  /** A chunk, or a subtree of chunks: its hash and how many bytes it covers. */
  datatype HashedSize = HashedSize(hash: Digest, size: word)

  /** The hash of interior nodes, BLAKE3 under their own key. */
  type NodeHash = string -> Digest

  // ---------------------------------------------------------------------
  // Hashes as text
  // ---------------------------------------------------------------------

  const HEX := "0123456789abcdef"

  function HexDigit(x: int): char
    requires 0 <= x < 16
  {
    HEX[x]
  }

  /** What a hex digit stands for, in either case. */
  function HexValue(c: char): (r: Option<int>)
    ensures r.Some? ==> 0 <= r.value < 16
  {
    if '0' <= c <= '9' then Some(c as int - '0' as int)
    else if 'a' <= c <= 'f' then Some(c as int - 'a' as int + 10)
    else if 'A' <= c <= 'F' then Some(c as int - 'A' as int + 10)
    else None
  }

  /** Where byte i of a hash is written: the bytes of each group of 8 in reverse. */
  function Regroup(i: nat): (r: nat)
    requires i < 32
    ensures r < 32 && r / 8 == i / 8
  {
    i / 8 * 8 + (7 - i % 8)
  }

  function XetChar(d: Digest, i: nat): char
    requires i < 64
  {
    if i % 2 == 0 then HexDigit(d[Regroup(i / 2)] / 16) else HexDigit(d[Regroup(i / 2)] % 16)
  }

  /** A hash as Xet writes it: each 8-byte group read little-endian and printed in hex. */
  function XetHex(d: Digest): (s: string)
    ensures |s| == 64
    ensures forall i :: 0 <= i < 64 ==> s[i] == XetChar(d, i)
  {
    seq(64, i requires 0 <= i < 64 => XetChar(d, i))
  }

  lemma HexValueOfDigit(x: int)
    requires 0 <= x < 16
    ensures HexValue(HexDigit(x)) == Some(x)
  {
  }

  lemma RegroupTwice(i: nat)
    requires i < 32
    ensures Regroup(Regroup(i)) == i
  {
  }

  lemma XetPair(d: Digest, k: nat)
    requires k < 32
    ensures XetChar(d, 2 * k) == HexDigit(d[Regroup(k)] / 16)
    ensures XetChar(d, 2 * k + 1) == HexDigit(d[Regroup(k)] % 16)
  {
    assert 2 * k / 2 == k && (2 * k + 1) / 2 == k && 2 * k % 2 == 0 && (2 * k + 1) % 2 == 1;
  }

  lemma HexPairInjective(x: byte, y: byte)
    requires HexDigit(x / 16) == HexDigit(y / 16) && HexDigit(x % 16) == HexDigit(y % 16)
    ensures x == y
  {
    HexValueOfDigit(x / 16);
    HexValueOfDigit(y / 16);
    HexValueOfDigit(x % 16);
    HexValueOfDigit(y % 16);
  }

  lemma XetHexInjective(a: Digest, b: Digest)
    requires XetHex(a) == XetHex(b)
    ensures a == b
  {
    forall i | 0 <= i < 32
      ensures a[i] == b[i]
    {
      var k := Regroup(i);
      RegroupTwice(i);
      XetPair(a, k);
      XetPair(b, k);
      assert XetHex(a)[2 * k] == XetHex(b)[2 * k] && XetHex(a)[2 * k + 1] == XetHex(b)[2 * k + 1];
      HexPairInjective(a[i], b[i]);
    }
  }

  function LittleEndian(d: Digest, from: nat, n: nat): nat
    requires from + n <= 32
    decreases n
  {
    if n == 0 then 0 else d[from] + 256 * LittleEndian(d, from + 1, n - 1)
  }

  /** What s reads as, as a hexadecimal number. */
  function HexNumber(s: string): nat
    requires IsHex(s)
  {
    if s == "" then 0 else 16 * HexNumber(s[..|s| - 1]) + HexValue(s[|s| - 1]).value
  }

  lemma {:induction false} XetHexPrefix(d: Digest, g: nat, m: nat)
    requires g < 4 && m <= 8
    ensures IsHex(XetHex(d)[16 * g..16 * g + 2 * m])
    ensures HexNumber(XetHex(d)[16 * g..16 * g + 2 * m]) == LittleEndian(d, 8 * g + 8 - m, m)
  {
    LowerXetHex(d);
    if m > 0 {
      XetHexPrefix(d, g, m - 1);
      XetHexStep(d, g, m, XetHex(d)[16 * g..16 * g + 2 * m], XetHex(d)[16 * g..16 * g + 2 * (m - 1)]);
    }
  }

  lemma XetHexStep(d: Digest, g: nat, m: nat, s: string, front: string)
    requires g < 4 && 0 < m <= 8 && IsHex(s) && s == XetHex(d)[16 * g..16 * g + 2 * m]
    requires front == XetHex(d)[16 * g..16 * g + 2 * (m - 1)]
    ensures IsHex(front) && HexNumber(s) == 256 * HexNumber(front) + d[8 * g + 8 - m]
  {
    assert front == s[..|front|];
    HexNumberOfPair(s, front);
    XetPair(d, 8 * g + m - 1);
    GroupByte(d, g, m);
    assert s[2 * (m - 1)] == XetChar(d, 2 * (8 * g + m - 1)) && s[2 * m - 1] == XetChar(d, 2 * (8 * g + m - 1) + 1);
    HalvesOf(d[8 * g + 8 - m]);
  }

  lemma HalvesOf(x: byte)
    ensures 16 * (x / 16) + x % 16 == x
  {
  }

  lemma HexNumberOfPair(s: string, front: string)
    requires IsHex(s) && |s| == |front| + 2 && front == s[..|front|]
    ensures HexNumber(s) == 256 * HexNumber(front) + 16 * HexValue(s[|front|]).value + HexValue(s[|front| + 1]).value
  {
    assert s[..|s| - 1][..|front|] == front;
  }

  lemma GroupByte(d: Digest, g: nat, m: nat)
    requires g < 4 && 0 < m <= 8
    ensures var x := d[Regroup(8 * g + m - 1)];
      x == d[8 * g + 8 - m] && HexValue(HexDigit(x / 16)) == Some(x / 16) && HexValue(HexDigit(x % 16)) == Some(x % 16)
  {
    RegroupInGroup(8 * g, 8 - m);
    HexValueOfDigit(d[8 * g + 8 - m] / 16);
    HexValueOfDigit(d[8 * g + 8 - m] % 16);
  }

  /** Each 16 digits are a group of 8 bytes, the first byte the least significant. */
  lemma XetHexGroups(d: Digest, g: nat)
    requires g < 4
    ensures IsHex(XetHex(d)[16 * g..16 * g + 16])
    ensures HexNumber(XetHex(d)[16 * g..16 * g + 16]) == LittleEndian(d, 8 * g, 8)
  {
    XetHexPrefix(d, g, 8);
  }

  /** s spells the first m bytes of d as Xet writes them. */
  predicate Spells(s: string, d: Digest, m: nat) {
    m <= 32 && |s| == 2 * m && forall i :: 0 <= i < 2 * m ==> s[i] == XetChar(d, i)
  }

  lemma SpellMore(s: string, d: Digest, m: nat)
    requires m < 32 && Spells(s, d, m)
    ensures Spells(s + [HexDigit(d[Regroup(m)] / 16), HexDigit(d[Regroup(m)] % 16)], d, m + 1)
  {
    XetPair(d, m);
  }

  lemma RegroupInGroup(g: nat, i: nat)
    requires g < 32 && g % 8 == 0 && i < 8
    ensures Regroup(g + (7 - i)) == g + i
  {
  }

  /** xetHex, group by group: each is read as a little-endian integer, so its
      bytes come out last first. */
  method WriteXetHex(sum: Digest) returns (s: string)
    ensures s == XetHex(sum)
  {
    s := "";
    var g := 0;
    while g < 32
      invariant 0 <= g <= 32 && g % 8 == 0
      invariant Spells(s, sum, g)
    {
      var i := 8;
      while i > 0
        invariant 0 <= i <= 8
        invariant Spells(s, sum, g + (8 - i))
      {
        i := i - 1;
        RegroupInGroup(g, i);
        SpellMore(s, sum, g + (7 - i));
        s := s + [HexDigit(sum[g + i] / 16), HexDigit(sum[g + i] % 16)];
      }
      g := g + 8;
    }
    assert s == XetHex(sum);
  }

  predicate IsHex(s: string) {
    forall i :: 0 <= i < |s| ==> HexValue(s[i]).Some?
  }

  function Lower(s: string): (r: string)
    ensures |r| == |s|
  {
    seq(|s|, i requires 0 <= i < |s| => if 'A' <= s[i] <= 'F' then HexDigit(s[i] as int - 'A' as int + 10) else s[i])
  }

  lemma LowerDigit(s: string, i: nat)
    requires i < |s| && HexValue(s[i]).Some?
    ensures Lower(s)[i] == HexDigit(HexValue(s[i]).value)
  {
    var c := s[i];
    if '0' <= c <= '9' {
      assert HEX[c as int - 48] == c;
    } else if 'a' <= c <= 'f' {
      assert HEX[c as int - 97 + 10] == c;
    }
  }

  lemma LowerXetHex(d: Digest)
    ensures Lower(XetHex(d)) == XetHex(d) && IsHex(XetHex(d))
  {
    forall i | 0 <= i < 64
      ensures HexValue(XetHex(d)[i]).Some? && Lower(XetHex(d))[i] == XetHex(d)[i]
    {
      var x := if i % 2 == 0 then d[Regroup(i / 2)] / 16 else d[Regroup(i / 2)] % 16;
      assert XetHex(d)[i] == XetChar(d, i) == HexDigit(x);
      HexValueOfDigit(x);
    }
  }

  /** The byte the k-th pair of digits spells. */
  function PairByte(s: string, k: nat): byte
    requires IsHex(s) && 2 * k + 1 < |s|
  {
    HexValue(s[2 * k]).value * 16 + HexValue(s[2 * k + 1]).value
  }

  lemma ParsedSpells(s: string, sum: Digest)
    requires |s| == 64 && IsHex(s)
    requires forall j :: 0 <= j < 32 ==> sum[Regroup(j)] == PairByte(s, j)
    ensures XetHex(sum) == Lower(s)
  {
    forall i | 0 <= i < 64
      ensures Lower(s)[i] == XetChar(sum, i)
    {
      ParsedDigit(s, sum, i / 2);
      assert i == 2 * (i / 2) || i == 2 * (i / 2) + 1;
    }
    assert Lower(s) == XetHex(sum);
  }

  lemma ParsedDigit(s: string, sum: Digest, k: nat)
    requires |s| == 64 && IsHex(s) && k < 32
    requires sum[Regroup(k)] == PairByte(s, k)
    ensures Lower(s)[2 * k] == XetChar(sum, 2 * k) && Lower(s)[2 * k + 1] == XetChar(sum, 2 * k + 1)
  {
    XetPair(sum, k);
    LowerDigit(s, 2 * k);
    LowerDigit(s, 2 * k + 1);
    HexPair(HexValue(s[2 * k]).value, HexValue(s[2 * k + 1]).value, sum[Regroup(k)]);
  }

  lemma HexPair(hi: nat, lo: nat, x: byte)
    requires hi < 16 && lo < 16 && x == hi * 16 + lo
    ensures HexDigit(x / 16) == HexDigit(hi) && HexDigit(x % 16) == HexDigit(lo)
  {
    DivideBack(hi, lo, x as int);
  }

  lemma DivideBack(hi: int, lo: int, x: int)
    requires 0 <= lo < 16 && x == hi * 16 + lo
    ensures x / 16 == hi && x % 16 == lo
  {
  }

  /** parseXetHex, the inverse of xetHex. It reads digits of either case. */
  method ParseXetHex(s: string) returns (r: Option<Digest>)
    ensures r.Some? <==> |s| == 64 && IsHex(s)
    ensures r.Some? ==> XetHex(r.value) == Lower(s)
    ensures forall d: Digest :: s == XetHex(d) ==> r == Some(d)
  {
    forall d: Digest | s == XetHex(d)
      ensures IsHex(s) && Lower(s) == XetHex(d)
    {
      LowerXetHex(d);
    }
    if |s| != 64 { return None; }
    for i := 0 to 64
      invariant IsHex(s[..i])
    {
      if HexValue(s[i]).None? { return None; }
    }
    assert s[..64] == s;
    var sum := PlacePairs(s);
    ParsedSpells(s, sum);
    forall d: Digest | s == XetHex(d)
      ensures sum == d
    {
      XetHexInjective(sum, d);
    }
    r := Some(sum);
  }

  method PlacePairs(s: string) returns (sum: Digest)
    requires |s| == 64 && IsHex(s)
    ensures forall j :: 0 <= j < 32 ==> sum[Regroup(j)] == PairByte(s, j)
  {
    sum := seq(32, _ => 0);
    for k := 0 to 32
      invariant forall j :: 0 <= j < k ==> sum[Regroup(j)] == PairByte(s, j)
    {
      RegroupInjective(k);
      sum := sum[Regroup(k) := PairByte(s, k)];
    }
  }

  lemma RegroupInjective(k: nat)
    requires k < 32
    ensures forall j :: 0 <= j < k ==> Regroup(j) != Regroup(k)
  {
    forall j | 0 <= j < k
      ensures Regroup(j) != Regroup(k)
    {
      RegroupTwice(j);
      RegroupTwice(k);
    }
  }

  function Decimal(n: nat): (s: string)
    ensures s != "" && forall i :: 0 <= i < |s| ==> '0' <= s[i] <= '9'
  {
    if n < 10 then [HexDigit(n)] else Decimal(n / 10) + [HexDigit(n % 10)]
  }

  /** Decimal is the number in base ten, most significant digit first, with no leading zero. */
  lemma {:induction false} DecimalReads(n: nat)
    ensures DecimalNumber(Decimal(n)) == n
    ensures Decimal(n)[0] == '0' ==> n == 0
    ensures Decimal(0) == "0"
  {
    var s := Decimal(n);
    if n >= 10 {
      DecimalReads(n / 10);
      assert s[..|s| - 1] == Decimal(n / 10);
    }
    HexValueOfDigit(n % 10);
  }

  function DecimalNumber(s: string): int {
    if s == "" then 0 else 10 * DecimalNumber(s[..|s| - 1]) + (s[|s| - 1] as int - '0' as int)
  }

  lemma {:induction false} DecimalInjective(a: nat, b: nat)
    requires Decimal(a) == Decimal(b)
    ensures a == b
    decreases a
  {
    var s := Decimal(a);
    var last := s[|s| - 1];
    assert last == HexDigit(a % 10) == HexDigit(b % 10);
    HexValueOfDigit(a % 10);
    HexValueOfDigit(b % 10);
    if a >= 10 && b >= 10 {
      assert Decimal(a / 10) == s[..|s| - 1] == Decimal(b / 10);
      DecimalInjective(a / 10, b / 10);
    }
  }

  // ---------------------------------------------------------------------
  // Nodes
  // ---------------------------------------------------------------------

  /** One child's line in its parent. */
  function Line(c: HashedSize): (s: string)
    ensures |s| > 68
  {
    XetHex(c.hash) + " : " + Decimal(c.size) + "\n"
  }

  function NodeText(children: seq<HashedSize>): string {
    if children == [] then "" else Line(children[0]) + NodeText(children[1..])
  }

  /** The text of two children. */
  lemma NodeTextOfTwo(a: HashedSize, b: HashedSize)
    ensures NodeText([a, b]) ==
      XetHex(a.hash) + " : " + Decimal(a.size) + "\n" + (XetHex(b.hash) + " : " + Decimal(b.size) + "\n")
  {
    assert [a, b][1..] == [b] && [b][1..] == [];
    assert NodeText([b]) == Line(b) + "";
  }

  lemma {:induction false} NodeTextSnoc(children: seq<HashedSize>, c: HashedSize)
    ensures NodeText(children + [c]) == NodeText(children) + Line(c)
  {
    if children == [] {
      assert children + [c] == [c];
      assert NodeText([c]) == Line(c) + NodeText([c][1..]);
    } else {
      assert (children + [c])[0] == children[0] && (children + [c])[1..] == children[1..] + [c];
      NodeTextSnoc(children[1..], c);
    }
  }

  function TotalSize(nodes: seq<HashedSize>): nat {
    if nodes == [] then 0 else nodes[0].size + TotalSize(nodes[1..])
  }

  lemma {:induction false} TotalSizeConcat(a: seq<HashedSize>, b: seq<HashedSize>)
    ensures TotalSize(a + b) == TotalSize(a) + TotalSize(b)
  {
    if a == [] {
      assert a + b == b;
    } else {
      assert (a + b)[1..] == a[1..] + b;
      TotalSizeConcat(a[1..], b);
    }
  }

  /** The parent of children. Its size wraps as the 64-bit sum does. */
  function Merge(hash: NodeHash, children: seq<HashedSize>): HashedSize {
    HashedSize(hash(NodeText(children)), TotalSize(children) % WORD)
  }

  lemma OneMore(children: seq<HashedSize>, i: nat)
    requires i < |children|
    ensures NodeText(children[..i + 1]) == NodeText(children[..i]) + Line(children[i])
    ensures TotalSize(children[..i + 1]) == TotalSize(children[..i]) + children[i].size
  {
    var c := children[i];
    assert children[..i + 1] == children[..i] + [c];
    NodeTextSnoc(children[..i], c);
    TotalSizeConcat(children[..i], [c]);
    assert TotalSize([c]) == c.size + TotalSize([c][1..]);
  }

  /** Appends a child's line. */
  method WriteLine(buf: string, c: HashedSize) returns (r: string)
    ensures r == buf + Line(c)
  {
    var hex := WriteXetHex(c.hash);
    r := buf + hex;
    r := r + " : ";
    r := r + Decimal(c.size);
    r := r + "\n";
  }

  /** mergeNode: the lines are appended to a buffer, which is hashed. */
  method MergeNode(hash: NodeHash, children: seq<HashedSize>) returns (parent: HashedSize)
    ensures parent == Merge(hash, children)
  {
    var buf := "";
    var total: word := 0;
    for i := 0 to |children|
      invariant buf == NodeText(children[..i]) && total == TotalSize(children[..i]) % WORD
    {
      var c := children[i];
      OneMore(children, i);
      buf := WriteLine(buf, c);
      AddMod(TotalSize(children[..i]), c.size);
      total := (total + c.size) % WORD;
    }
    assert children[..|children|] == children;
    parent := HashedSize(hash(buf), total);
  }

  lemma AddMod(a: nat, b: nat)
    ensures (a % WORD + b) % WORD == (a + b) % WORD
  {
    var q := a / WORD;
    assert a + b == a % WORD + b + q * WORD;
    ModShift(a % WORD + b, q);
  }

  /** A line break ends a line: two texts that begin with a line agree on it. */
  lemma LinePrefix(a: HashedSize, b: HashedSize, s: string, t: string)
    requires Line(a) + s == Line(b) + t
    ensures a == b && s == t
  {
    LineParts(a, s);
    LineParts(b, t);
    XetHexInjective(a.hash, b.hash);
    DigitsEnd(Decimal(a.size), Decimal(b.size), s, t);
    DecimalInjective(a.size, b.size);
    AfterDigits(Decimal(a.size), s, t);
  }

  /** A line is the hash, a separator, and the size. */
  lemma LineParts(a: HashedSize, s: string)
    ensures |Line(a)| >= 67
    ensures (Line(a) + s)[..64] == XetHex(a.hash) && (Line(a) + s)[67..] == Decimal(a.size) + "\n" + s
  {
    assert (Line(a) + s)[67..] == Line(a)[67..] + s;
  }

  lemma AfterDigits(x: string, s: string, t: string)
    requires x + "\n" + s == x + "\n" + t
    ensures s == t
  {
    assert (x + "\n" + s)[|x| + 1..] == s && (x + "\n" + t)[|x| + 1..] == t;
  }

  lemma DigitsEnd(x: string, y: string, s: string, t: string)
    requires forall i :: 0 <= i < |x| ==> x[i] != '\n'
    requires forall i :: 0 <= i < |y| ==> y[i] != '\n'
    requires x + "\n" + s == y + "\n" + t
    ensures x == y
  {
    var all := x + "\n" + s;
    assert all[|x|] == '\n' && all[|y|] == '\n';
    assert forall i :: 0 <= i < |x| ==> all[i] == x[i];
    assert forall i :: 0 <= i < |y| ==> all[i] == y[i];
    assert all[..|x|] == x && all[..|y|] == y;
  }

  /** A node's text is unambiguous. */
  lemma {:induction false} NodeTextInjective(a: seq<HashedSize>, b: seq<HashedSize>)
    requires NodeText(a) == NodeText(b)
    ensures a == b
  {
    if a != [] && b != [] {
      LinePrefix(a[0], b[0], NodeText(a[1..]), NodeText(b[1..]));
      NodeTextInjective(a[1..], b[1..]);
    }
  }

  // ---------------------------------------------------------------------
  // Levels
  // ---------------------------------------------------------------------

  const MEAN_BRANCHING := 4

  /** A node's hash ends its parent. */
  predicate Ends(node: HashedSize) {
    LittleEndian(node.hash, 24, 8) % MEAN_BRANCHING == 0
  }

  /** How many of nodes the next parent takes. */
  function MergeCut(nodes: seq<HashedSize>): (cut: nat)
    ensures cut <= |nodes| && (nodes != [] ==> cut > 0)
    ensures |nodes| > 2 ==> 3 <= cut <= 2 * MEAN_BRANCHING + 1
  {
    if |nodes| <= 2 then |nodes| else CutFrom(nodes, 2)
  }

  function CutFrom(nodes: seq<HashedSize>, i: nat): (cut: nat)
    requires 2 <= i < |nodes| && i < 2 * MEAN_BRANCHING + 1
    ensures i < cut <= |nodes| && cut <= 2 * MEAN_BRANCHING + 1
    decreases |nodes| - i
  {
    if Ends(nodes[i]) || i + 1 == |nodes| || i + 1 == 2 * MEAN_BRANCHING + 1 then i + 1
    else CutFrom(nodes, i + 1)
  }

  lemma {:induction false} LowBytes(d: Digest, from: nat, n: nat)
    requires from + n <= 32 && n > 0
    ensures LittleEndian(d, from, n) % 4 == d[from] % 4
  {
    LowBits(d[from], LittleEndian(d, from + 1, n - 1));
  }

  lemma LowBits(x: int, rest: int)
    ensures (x + 256 * rest) % 4 == x % 4
  {
    assert (x + 256 * rest) % 4 == (x + 4 * (64 * rest)) % 4;
  }

  /** Where the next parent ends: at two nodes or fewer, after all of them; else
      after the first from the third on whose last 8 bytes are, little-endian, a
      multiple of 4, and so whose byte 24 is, at the latest after the ninth. */
  predicate EndsAt(nodes: seq<HashedSize>, cut: nat) {
    if |nodes| <= 2 then cut == |nodes|
    else
      && 3 <= cut <= |nodes| && cut <= 9
      && (forall i :: 2 <= i < cut - 1 ==> nodes[i].hash[24] % 4 != 0)
      && (cut < |nodes| && cut < 9 ==> nodes[cut - 1].hash[24] % 4 == 0)
  }

  lemma {:induction false} CutFromEnds(nodes: seq<HashedSize>, i: nat)
    requires 2 <= i < |nodes| && i < 9
    ensures var cut := CutFrom(nodes, i);
      && (forall j :: i <= j < cut - 1 ==> nodes[j].hash[24] % 4 != 0)
      && (cut < |nodes| && cut < 9 ==> nodes[cut - 1].hash[24] % 4 == 0)
    decreases |nodes| - i
  {
    LowBytes(nodes[i].hash, 24, 8);
    if CutFrom(nodes, i) != i + 1 {
      CutFromEnds(nodes, i + 1);
    }
  }

  /** The rule fixes the cut. */
  lemma MergeCutIffEnds(nodes: seq<HashedSize>, cut: nat)
    ensures EndsAt(nodes, cut) <==> cut == MergeCut(nodes)
  {
    if |nodes| > 2 {
      CutFromEnds(nodes, 2);
      var first := MergeCut(nodes);
      if 3 <= cut < first {
        EndsOnce(nodes, cut, first);
      }
    }
  }

  lemma EndsOnce(nodes: seq<HashedSize>, early: nat, late: nat)
    requires |nodes| > 2 && EndsAt(nodes, late) && 3 <= early < late
    ensures !EndsAt(nodes, early)
  {
    assert nodes[early - 1].hash[24] % 4 != 0;
  }

  method NextMergeCut(nodes: seq<HashedSize>) returns (cut: nat)
    ensures cut == MergeCut(nodes)
    ensures |nodes| <= 2 ==> cut == |nodes|
    ensures |nodes| > 2 ==> 3 <= cut <= |nodes| && cut <= 9
    ensures |nodes| > 2 ==> forall i :: 2 <= i < cut - 1 ==> nodes[i].hash[24] % 4 != 0
    ensures |nodes| > 2 && cut < |nodes| && cut < 9 ==> nodes[cut - 1].hash[24] % 4 == 0
  {
    MergeCutIffEnds(nodes, MergeCut(nodes));
    if |nodes| <= 2 { return |nodes|; }
    var end := if 2 * MEAN_BRANCHING + 1 < |nodes| then 2 * MEAN_BRANCHING + 1 else |nodes|;
    var i := 2;
    while i < end
      invariant 2 <= i <= end
      invariant i < end ==> MergeCut(nodes) == CutFrom(nodes, i)
      invariant i == end ==> MergeCut(nodes) == end
    {
      if Ends(nodes[i]) { return i + 1; }
      i := i + 1;
    }
    return end;
  }

  function NextLevel(hash: NodeHash, level: seq<HashedSize>): (next: seq<HashedSize>)
    ensures |next| <= (|level| + 2) / 3
    ensures level != [] ==> next != []
    decreases |level|
  {
    if level == [] then []
    else
      var cut := MergeCut(level);
      [Merge(hash, level[..cut])] + NextLevel(hash, level[cut..])
  }

  /** The root over a level: a lone node's own hash, or the root over its parents. */
  function Root(hash: NodeHash, level: seq<HashedSize>): Digest
    requires level != []
    decreases |level|
  {
    if |level| == 1 then level[0].hash else Root(hash, NextLevel(hash, level))
  }

  /** next is level's parents: groups in order from the first node on, each ended
      by the rule, hashed as its children's lines and as large as they are together. */
  ghost predicate Parents(hash: NodeHash, level: seq<HashedSize>, next: seq<HashedSize>)
    decreases |level|
  {
    if level == [] then next == []
    else
      && next != []
      && exists cut: nat :: FirstGroup(hash, level, cut, next[0]) && Parents(hash, level[cut..], next[1..])
  }

  ghost predicate FirstGroup(hash: NodeHash, level: seq<HashedSize>, cut: nat, parent: HashedSize) {
    && 0 < cut <= |level| && EndsAt(level, cut)
    && parent.hash == hash(NodeText(level[..cut]))
    && parent.size == TotalSize(level[..cut]) % 0x1_0000_0000_0000_0000
  }

  lemma {:induction false} NextLevelIffParents(hash: NodeHash, level: seq<HashedSize>, next: seq<HashedSize>)
    ensures Parents(hash, level, next) <==> next == NextLevel(hash, level)
    decreases |level|
  {
    if level != [] {
      var cut := MergeCut(level);
      MergeCutIffEnds(level, cut);
      NextLevelIffParents(hash, level[cut..], NextLevel(hash, level[cut..]));
      assert FirstGroup(hash, level, cut, Merge(hash, level[..cut]));
      if Parents(hash, level, next) {
        var c: nat :| FirstGroup(hash, level, c, next[0]) && Parents(hash, level[c..], next[1..]);
        MergeCutIffEnds(level, c);
        NextLevelIffParents(hash, level[c..], next[1..]);
      }
    }
  }

  /** The root over a level: parents are taken until one node is left, and its hash is the root. */
  ghost predicate IsRoot(hash: NodeHash, level: seq<HashedSize>, root: Digest)
    decreases |level|
  {
    if |level| == 1 then root == level[0].hash
    else exists next :: Parents(hash, level, next) && |next| < |level| && IsRoot(hash, next, root)
  }

  lemma {:induction false} RootIffIsRoot(hash: NodeHash, level: seq<HashedSize>, root: Digest)
    requires level != []
    ensures IsRoot(hash, level, root) <==> root == Root(hash, level)
    decreases |level|
  {
    if |level| > 1 {
      var above := NextLevel(hash, level);
      NextLevelIffParents(hash, level, above);
      RootIffIsRoot(hash, above, root);
      if IsRoot(hash, level, root) {
        var next :| Parents(hash, level, next) && |next| < |level| && IsRoot(hash, next, root);
        NextLevelIffParents(hash, level, next);
      }
    }
  }

  /** One round of xorbHash: the nodes are cut into parents from the first on. */
  method MergeLevel(hash: NodeHash, level: seq<HashedSize>) returns (next: seq<HashedSize>)
    ensures next == NextLevel(hash, level)
  {
    next := [];
    var rest := level;
    while rest != []
      invariant NextLevel(hash, level) == next + NextLevel(hash, rest)
      decreases |rest|
    {
      var cut := NextMergeCut(rest);
      var parent := MergeNode(hash, rest[..cut]);
      AppendAssoc(next, [parent], NextLevel(hash, rest[cut..]));
      next := next + [parent];
      rest := rest[cut..];
    }
  }

  /** xorbHash: the level is replaced by its parents until one node is left. */
  method XorbHash(hash: NodeHash, chunks: seq<HashedSize>) returns (root: Digest)
    ensures chunks == [] ==> root == seq(32, _ => 0)
    ensures chunks != [] ==> root == Root(hash, chunks) && IsRoot(hash, chunks, root)
    ensures |chunks| == 1 ==> root == chunks[0].hash
  {
    if |chunks| == 0 { return seq(32, _ => 0); }
    var level := chunks;
    while |level| > 1
      invariant level != [] && Root(hash, level) == Root(hash, chunks)
      decreases |level|
    {
      level := MergeLevel(hash, level);
    }
    RootIffIsRoot(hash, chunks, level[0].hash);
    return level[0].hash;
  }

  /** The tree conserves the total size, modulo the 64-bit sum. */
  lemma {:induction false} LevelConservesSize(hash: NodeHash, level: seq<HashedSize>)
    ensures TotalSize(NextLevel(hash, level)) % WORD == TotalSize(level) % WORD
    decreases |level|
  {
    if level != [] {
      var cut := MergeCut(level);
      LevelConservesSize(hash, level[cut..]);
      ParentConservesSize(Merge(hash, level[..cut]), NextLevel(hash, level[cut..]), level, cut);
    }
  }

  lemma ParentConservesSize(first: HashedSize, rest: seq<HashedSize>, level: seq<HashedSize>, cut: nat)
    requires cut <= |level| && first.size == TotalSize(level[..cut]) % WORD
    requires TotalSize(rest) % WORD == TotalSize(level[cut..]) % WORD
    ensures TotalSize([first] + rest) % WORD == TotalSize(level) % WORD
  {
    TotalSizeCons(first, rest);
    TotalSizeSplit(level, cut);
    SumMod(first.size, TotalSize(level[..cut]), TotalSize(rest), TotalSize(level[cut..]),
           TotalSize([first] + rest), TotalSize(level));
  }

  lemma TotalSizeSplit(level: seq<HashedSize>, cut: nat)
    requires cut <= |level|
    ensures TotalSize(level) == TotalSize(level[..cut]) + TotalSize(level[cut..])
  {
    assert level == level[..cut] + level[cut..];
    TotalSizeConcat(level[..cut], level[cut..]);
  }

  lemma TotalSizeCons(first: HashedSize, rest: seq<HashedSize>)
    ensures TotalSize([first] + rest) == first.size + TotalSize(rest)
  {
    assert ([first] + rest)[1..] == rest;
  }

  lemma SumMod(first: nat, a: nat, r: nat, b: nat, above: nat, below: nat)
    requires first == a % WORD && r % WORD == b % WORD
    requires above == first + r && below == a + b
    ensures above % WORD == below % WORD
  {
    AddMod(a, r);
    AddMod(r, a);
    AddMod(b, a);
  }

  // ---------------------------------------------------------------------
  // The root binds its leaves
  // ---------------------------------------------------------------------

  /** How many levels of parents are above this one. */
  function Depth(hash: NodeHash, level: seq<HashedSize>): nat
    requires level != []
    decreases |level|
  {
    if |level| == 1 then 0 else 1 + Depth(hash, NextLevel(hash, level))
  }

  /** The texts hashed to make a level's parents. */
  function Texts(level: seq<HashedSize>): set<string>
    decreases |level|
  {
    if level == [] then {} else {NodeText(level[..MergeCut(level)])} + Texts(level[MergeCut(level)..])
  }

  /** Every text hashed on the way to the root. */
  function AllTexts(hash: NodeHash, level: seq<HashedSize>): set<string>
    requires level != []
    decreases |level|
  {
    if |level| == 1 then {} else Texts(level) + AllTexts(hash, NextLevel(hash, level))
  }

  function Hashes(level: seq<HashedSize>): seq<Digest> {
    seq(|level|, i requires 0 <= i < |level| => level[i].hash)
  }

  /** The hash does not collide on the texts given. */
  ghost predicate CollisionFree(hash: NodeHash, texts: set<string>) {
    forall s, t :: s in texts && t in texts && hash(s) == hash(t) ==> s == t
  }

  /** No chunk's hash is that of one of the texts: chunks are hashed under
      another key. */
  ghost predicate Apart(hash: NodeHash, texts: set<string>, leaves: seq<HashedSize>) {
    forall s, i :: s in texts && 0 <= i < |leaves| ==> hash(s) != leaves[i].hash
  }

  lemma {:induction false} ParentsBind(hash: NodeHash, a: seq<HashedSize>, b: seq<HashedSize>)
    requires Hashes(NextLevel(hash, a)) == Hashes(NextLevel(hash, b))
    requires CollisionFree(hash, Texts(a) + Texts(b))
    ensures a == b
    decreases |a|
  {
    assert |Hashes(NextLevel(hash, a))| == |Hashes(NextLevel(hash, b))|;
    if a != [] && b != [] {
      var i, j := MergeCut(a), MergeCut(b);
      FirstParent(hash, a);
      FirstParent(hash, b);
      NodeTextInjective(a[..i], b[..j]);
      ParentsBind(hash, a[i..], b[j..]);
      SameParts(a, b, i, j);
    }
  }

  /** The first parent of a level, whose text its hash is of, and the others. */
  lemma FirstParent(hash: NodeHash, level: seq<HashedSize>)
    requires level != []
    ensures var cut, hashes := MergeCut(level), Hashes(NextLevel(hash, level));
      && hashes != [] && hashes[0] == hash(NodeText(level[..cut]))
      && hashes[1..] == Hashes(NextLevel(hash, level[cut..]))
      && NodeText(level[..cut]) in Texts(level) && Texts(level[cut..]) <= Texts(level)
  {
    var cut := MergeCut(level);
    HashesCons(Merge(hash, level[..cut]), NextLevel(hash, level[cut..]));
  }

  lemma HashesCons(first: HashedSize, rest: seq<HashedSize>)
    ensures Hashes([first] + rest) == [first.hash] + Hashes(rest)
  {
  }

  lemma SameParts<T>(a: seq<T>, b: seq<T>, i: nat, j: nat)
    requires i <= |a| && j <= |b| && a[..i] == b[..j] && a[i..] == b[j..]
    ensures a == b
  {
    assert |a[..i]| == i && |b[..j]| == j;
    assert a == a[..i] + a[i..] && b == b[..j] + b[j..];
  }

  lemma {:induction false} RootBindsAtDepth(hash: NodeHash, a: seq<HashedSize>, b: seq<HashedSize>)
    requires a != [] && b != [] && Depth(hash, a) == Depth(hash, b)
    requires CollisionFree(hash, AllTexts(hash, a) + AllTexts(hash, b))
    requires Root(hash, a) == Root(hash, b)
    ensures Hashes(a) == Hashes(b)
    ensures |a| > 1 ==> a == b
    decreases |a|
  {
    if |a| > 1 {
      RootBindsAtDepth(hash, NextLevel(hash, a), NextLevel(hash, b));
      ParentsBind(hash, a, b);
    }
  }

  /** A level's k-th ancestor level, for a level at least that deep. */
  function Up(hash: NodeHash, level: seq<HashedSize>, k: nat): (r: seq<HashedSize>)
    requires level != [] && k <= Depth(hash, level)
    ensures r != [] && Root(hash, r) == Root(hash, level) && Depth(hash, r) == Depth(hash, level) - k
    ensures AllTexts(hash, r) <= AllTexts(hash, level)
    decreases k
  {
    if k == 0 then level else Up(hash, NextLevel(hash, level), k - 1)
  }

  lemma {:induction false} ParentHashed(hash: NodeHash, level: seq<HashedSize>)
    requires level != []
    ensures exists s :: s in Texts(level) && NextLevel(hash, level)[0].hash == hash(s)
  {
    assert NodeText(level[..MergeCut(level)]) in Texts(level);
  }

  lemma {:induction false} AncestorHashed(hash: NodeHash, level: seq<HashedSize>, k: nat)
    requires level != [] && 0 < k <= Depth(hash, level)
    ensures exists s :: s in AllTexts(hash, level) && Up(hash, level, k)[0].hash == hash(s)
    decreases k
  {
    if k == 1 {
      ParentHashed(hash, level);
      assert Up(hash, level, 1) == NextLevel(hash, level);
    } else {
      AncestorHashed(hash, NextLevel(hash, level), k - 1);
    }
  }

  lemma DeeperDiffers(hash: NodeHash, a: seq<HashedSize>, b: seq<HashedSize>)
    requires a != [] && b != [] && Depth(hash, a) < Depth(hash, b)
    requires CollisionFree(hash, AllTexts(hash, a) + AllTexts(hash, b))
    requires Apart(hash, AllTexts(hash, b), a)
    ensures Root(hash, a) != Root(hash, b)
  {
    if Root(hash, a) == Root(hash, b) {
      var k := Depth(hash, b) - Depth(hash, a);
      var up := Up(hash, b, k);
      assert AllTexts(hash, a) + AllTexts(hash, up) <= AllTexts(hash, a) + AllTexts(hash, b);
      RootBindsAtDepth(hash, a, up);
      assert Hashes(a)[0] == Hashes(up)[0];
      AncestorHashed(hash, b, k);
    }
  }

  /** Two chunk lists with the same root are the same hashes in the same order,
      and the same sizes too unless there is only one, whose hash is the root.
      All that is asked of the hash is that it not collide on the texts the two
      trees hash, nor hit one of their chunks' hashes. */
  lemma RootBindsLeaves(hash: NodeHash, a: seq<HashedSize>, b: seq<HashedSize>)
    requires a != [] && b != []
    requires CollisionFree(hash, AllTexts(hash, a) + AllTexts(hash, b))
    requires Apart(hash, AllTexts(hash, a) + AllTexts(hash, b), a)
    requires Apart(hash, AllTexts(hash, a) + AllTexts(hash, b), b)
    ensures Root(hash, a) == Root(hash, b) ==> Hashes(a) == Hashes(b) && (|a| > 1 ==> a == b)
  {
    if Root(hash, a) == Root(hash, b) {
      if Depth(hash, a) < Depth(hash, b) {
        DeeperDiffers(hash, a, b);
      } else if Depth(hash, b) < Depth(hash, a) {
        DeeperDiffers(hash, b, a);
      } else {
        RootBindsAtDepth(hash, a, b);
      }
    }
  }
}
