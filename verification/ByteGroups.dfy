/** Byte grouping in four groups: a permutation of the bytes, undone by its inverse. */
module ByteGroups {
  import opened Arith
  import opened Bytes

  /** Bytes in group g of n: one more in the first n % 4 groups. */
  function GroupSize(n: nat, g: nat): nat {
    n / 4 + if g < n % 4 then 1 else 0
  }

  function GroupStart(n: nat, g: nat): nat {
    if g == 0 then 0 else g * (n / 4) + Min(g, n % 4)
  }

  /** Where byte i of n goes when the bytes are grouped. */
  function Place(n: nat, i: nat): nat {
    GroupStart(n, i % 4) + i / 4
  }

  /** The byte of n that is at place j once they are grouped. */
  function Source(n: nat, j: nat): nat {
    var g :=
      if j < GroupStart(n, 1) then 0 else if j < GroupStart(n, 2) then 1 else if j < GroupStart(n, 3) then 2 else 3;
    if j < GroupStart(n, g) then 0 else 4 * (j - GroupStart(n, g)) + g
  }

  lemma GroupStarts(n: nat)
    ensures GroupStart(n, 0) == 0
    ensures GroupStart(n, 1) == GroupSize(n, 0)
    ensures GroupStart(n, 2) == GroupSize(n, 0) + GroupSize(n, 1)
    ensures GroupStart(n, 3) == GroupSize(n, 0) + GroupSize(n, 1) + GroupSize(n, 2)
    ensures GroupStart(n, 3) + GroupSize(n, 3) == n
  {
  }

  lemma NextStart(n: nat, g: nat)
    requires g < 4
    ensures GroupStart(n, g + 1) == GroupStart(n, g) + GroupSize(n, g)
  {
    assert (g + 1) * (n / 4) == g * (n / 4) + n / 4;
  }

  /** Grouping is a bijection on the places below n. */
  lemma PlaceSource(n: nat, i: nat)
    requires i < n
    ensures Place(n, i) < n && Source(n, Place(n, i)) == i
  {
    GroupStarts(n);
    assert i / 4 < GroupSize(n, i % 4);
    assert i == 4 * (i / 4) + i % 4;
  }

  lemma SourcePlace(n: nat, j: nat)
    requires j < n
    ensures Source(n, j) < n && Place(n, Source(n, j)) == j
  {
    GroupStarts(n);
    var i := Source(n, j);
    var g := i % 4;
    if j < GroupStart(n, 1) {
      assert i == 4 * j;
    } else if j < GroupStart(n, 2) {
      assert i == 4 * (j - GroupStart(n, 1)) + 1;
    } else if j < GroupStart(n, 3) {
      assert i == 4 * (j - GroupStart(n, 2)) + 2;
    } else {
      assert i == 4 * (j - GroupStart(n, 3)) + 3;
    }
  }

  /** grouped is data with its bytes grouped. */
  predicate Grouped(data: seq<byte>, grouped: seq<byte>) {
    && |grouped| == |data|
    && forall i :: 0 <= i < |data| ==> Place(|data|, i) < |grouped| && grouped[Place(|data|, i)] == data[i]
  }

  /** Grouping has exactly one result, and no two inputs share it. */
  lemma GroupedIsOneToOne(data: seq<byte>, grouped: seq<byte>, other: seq<byte>)
    ensures Grouped(data, grouped) && Grouped(data, other) ==> grouped == other
    ensures Grouped(data, grouped) && Grouped(other, grouped) ==> data == other
  {
    if Grouped(data, grouped) && Grouped(data, other) {
      forall j | 0 <= j < |grouped| ensures grouped[j] == other[j] {
        SourcePlace(|data|, j);
        var i := Source(|data|, j);
        assert grouped[Place(|data|, i)] == data[i] && other[Place(|data|, i)] == data[i];
      }
    }
    if Grouped(data, grouped) && Grouped(other, grouped) {
      forall i | 0 <= i < |data| ensures data[i] == other[i] {
        assert grouped[Place(|data|, i)] == data[i] && grouped[Place(|other|, i)] == other[i];
      }
    }
  }

  method Starts(n: nat) returns (starts: array<nat>)
    ensures fresh(starts) && starts.Length == 4
    ensures forall g :: 0 <= g < 4 ==> starts[g] == GroupStart(n, g)
  {
    starts := new nat[4];
    var base, extra := n / 4, n % 4;
    var pos := 0;
    for g := 0 to 4
      invariant pos == GroupStart(n, g)
      invariant forall k :: 0 <= k < g ==> starts[k] == GroupStart(n, k)
    {
      starts[g] := pos;
      pos := pos + base;
      if g < extra {
        pos := pos + 1;
      }
      NextStart(n, g);
    }
  }

  method Split(data: seq<byte>) returns (grouped: seq<byte>)
    ensures Grouped(data, grouped)
  {
    var n := |data|;
    var out := new byte[n](_ => 0);
    var starts := Starts(n);
    for i := 0 to n
      invariant forall g :: 0 <= g < 4 ==> starts[g] == GroupStart(n, g)
      invariant forall k :: 0 <= k < i ==> Place(n, k) < n && out[Place(n, k)] == data[k]
    {
      var g := i % 4;
      PlaceSource(n, i);
      forall k | 0 <= k < i ensures Place(n, k) != Place(n, i) {
        PlaceSource(n, k);
      }
      var at := starts[g] + i / 4;
      assert at == Place(n, i);
      out[at] := data[i];
    }
    return out[..];
  }

  method Regroup(grouped: seq<byte>) returns (data: seq<byte>)
    ensures Grouped(data, grouped)
    ensures data == Ungrouped(grouped)
  {
    var n := |grouped|;
    var out := new byte[n](_ => 0);
    var starts := Starts(n);
    for i := 0 to n
      invariant forall g :: 0 <= g < 4 ==> starts[g] == GroupStart(n, g)
      invariant forall k :: 0 <= k < i ==> Place(n, k) < n && out[k] == grouped[Place(n, k)]
    {
      PlaceSource(n, i);
      var at := starts[i % 4] + i / 4;
      assert at == Place(n, i);
      out[i] := grouped[at];
    }
    assert Grouped(out[..], grouped);
    UngroupedIsGrouped(grouped);
    GroupedIsOneToOne(out[..], grouped, Ungrouped(grouped));
    return out[..];
  }

  /** The bytes that group to grouped. */
  function Ungrouped(grouped: seq<byte>): (data: seq<byte>)
    ensures |data| == |grouped|
  {
    var n := |grouped|;
    seq(n, i requires 0 <= i < n => if Place(n, i) < n then grouped[Place(n, i)] else 0)
  }

  lemma UngroupedIsGrouped(grouped: seq<byte>)
    ensures Grouped(Ungrouped(grouped), grouped)
  {
    var data := Ungrouped(grouped);
    forall i | 0 <= i < |data| ensures Place(|data|, i) < |grouped| && grouped[Place(|data|, i)] == data[i] {
      PlaceSource(|data|, i);
    }
  }

  /** Splitting and regrouping undo each other, for every length. */
  lemma RegroupUndoesSplit(data: seq<byte>, grouped: seq<byte>)
    ensures Grouped(data, grouped) <==> data == Ungrouped(grouped)
  {
    UngroupedIsGrouped(grouped);
    GroupedIsOneToOne(data, grouped, Ungrouped(grouped));
  }

  /** The bytes are in order of their position modulo 4, and in their own order within a group. */
  lemma GroupedInOrder(n: nat, i: nat, j: nat)
    requires i < n && j < n
    ensures Place(n, i) < Place(n, j) <==> i % 4 < j % 4 || (i % 4 == j % 4 && i < j)
  {
    if i % 4 == j % 4 {
      assert i < j <==> i / 4 < j / 4;
    } else if i % 4 < j % 4 {
      EarlierGroup(n, i, j);
    } else {
      EarlierGroup(n, j, i);
    }
  }

  lemma EarlierGroup(n: nat, i: nat, j: nat)
    requires i < n && j < n && i % 4 < j % 4
    ensures Place(n, i) < Place(n, j)
  {
    GroupStarts(n);
    assert i / 4 < GroupSize(n, i % 4);
  }

  predicate Reached(n: nat, j: nat) {
    exists i :: 0 <= i < n && Place(n, i) == j
  }

  /** Every byte goes to its own place, and every place is some byte's. */
  lemma GroupingIsAPermutation(n: nat)
    ensures forall i, j :: 0 <= i < j < n ==> Place(n, i) != Place(n, j)
    ensures forall i :: 0 <= i < n ==> Place(n, i) < n
    ensures forall j :: 0 <= j < n ==> Reached(n, j)
  {
    forall i | 0 <= i < n ensures Place(n, i) < n {
      PlaceSource(n, i);
    }
    forall i, j | 0 <= i < j < n ensures Place(n, i) != Place(n, j) {
      PlaceSource(n, i);
      PlaceSource(n, j);
    }
    forall j | 0 <= j < n ensures Reached(n, j) {
      SourcePlace(n, j);
    }
  }
}
