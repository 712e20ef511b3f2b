/** Bytes, and concatenations of byte strings. */
module Bytes {
  type byte = x: int | 0 <= x < 256

  function Flatten<T>(parts: seq<seq<T>>): seq<T> {
    if parts == [] then [] else parts[0] + Flatten(parts[1..])
  }

  lemma {:induction false} FlattenConcat<T>(a: seq<seq<T>>, b: seq<seq<T>>)
    ensures Flatten(a + b) == Flatten(a) + Flatten(b)
  {
    if a == [] {
      assert a + b == b;
    } else {
      assert (a + b)[1..] == a[1..] + b;
      FlattenConcat(a[1..], b);
    }
  }

  lemma FlattenSnoc<T>(parts: seq<seq<T>>, last: seq<T>)
    ensures Flatten(parts + [last]) == Flatten(parts) + last
  {
    FlattenConcat(parts, [last]);
    assert Flatten([last]) == last + Flatten([last][1..]);
  }

  lemma AppendAssoc<T>(a: seq<T>, b: seq<T>, c: seq<T>)
    ensures a + (b + c) == (a + b) + c
  {
    assert a + (b + c) == (a + b) + c;
  }

  lemma AroundAt<T>(s: seq<T>, i: nat)
    requires i < |s|
    ensures s == s[..i] + ([s[i]] + s[i + 1..])
  {
    assert s == s[..i] + ([s[i]] + s[i + 1..]);
  }

  lemma SliceOfSlice<T>(b: seq<T>, start: nat, end: nat, i: nat, j: nat)
    requires start <= i <= j <= end <= |b|
    ensures b[start..end][i - start..j - start] == b[i..j]
  {
    var outer, inner := b[start..end], b[i..j];
    forall x | 0 <= x < j - i ensures outer[i - start..j - start][x] == inner[x] {
      assert outer[i - start + x] == b[i + x];
    }
    assert outer[i - start..j - start] == inner;
  }

  lemma SliceOfPrefix<T>(b: seq<T>, longer: seq<T>, i: nat, j: nat)
    requires |b| <= |longer| && longer[..|b|] == b && i <= j <= |b|
    ensures longer[i..j] == b[i..j]
  {
    SliceOfSlice(longer, 0, |b|, i, j);
    assert longer[0..|b|] == b;
  }

  lemma TakeNext<T>(s: seq<T>, i: nat)
    requires i < |s|
    ensures s[..i + 1] == s[..i] + [s[i]]
  {
    assert s[..i + 1] == s[..i] + [s[i]];
  }

  lemma InTakeNext<T>(s: seq<T>, i: nat, x: T)
    requires i < |s| && x in s[..i + 1]
    ensures x == s[i] || x in s[..i]
  {
    var j :| 0 <= j <= i && s[j] == x;
    if j < i {
      assert s[..i][j] == x;
    }
  }

  /** Where b first is in s from i on, or |s|. */
  function IndexFrom(s: seq<byte>, b: byte, i: nat): (k: nat)
    requires i <= |s|
    ensures i <= k <= |s|
    ensures k < |s| ==> s[k] == b
    ensures forall j :: i <= j < k ==> s[j] != b
    decreases |s| - i
  {
    if i == |s| || s[i] == b then i else IndexFrom(s, b, i + 1)
  }

  function Index(s: seq<byte>, b: byte): (k: nat)
    ensures k <= |s| && (k < |s| ==> s[k] == b) && forall j :: 0 <= j < k ==> s[j] != b
  {
    IndexFrom(s, b, 0)
  }

  lemma {:induction false} IndexIs(s: seq<byte>, b: byte, i: nat, k: nat)
    requires i <= k < |s| && s[k] == b && forall j :: i <= j < k ==> s[j] != b
    ensures IndexFrom(s, b, i) == k
    decreases k - i
  {
    if i < k {
      IndexIs(s, b, i + 1, k);
    }
  }

  /** a is where b starts. */
  predicate IsPrefix<T(==)>(a: seq<T>, b: seq<T>) {
    |a| <= |b| && b[..|a|] == a
  }

  lemma LongerPrefix<T>(a: seq<T>, b: seq<T>, c: seq<T>)
    requires IsPrefix(b, c)
    ensures IsPrefix(a + b, a + c)
  {
    assert (a + c)[..|a + b|] == a + c[..|b|];
  }

  lemma PrefixOfWhole<T>(a: seq<T>, b: seq<T>, whole: seq<T>)
    requires IsPrefix(a + b, whole)
    ensures IsPrefix(a, whole)
  {
    assert whole[..|a|] == whole[..|a + b|][..|a|] == (a + b)[..|a|] == a;
  }

  lemma PrefixesChain<T>(a: seq<T>, b: seq<T>, c: seq<T>)
    requires IsPrefix(a, b) && IsPrefix(b, c)
    ensures IsPrefix(a, c)
  {
    assert c[..|a|] == c[..|b|][..|a|];
  }
}
