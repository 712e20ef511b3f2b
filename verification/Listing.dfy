/** Listing a namespace's keys page by page, grouped by a delimiter. */
module Listing {
  import opened Bytes
  import opened Wrappers

  const LIST_BATCH := 1000

  type Key = seq<byte>

  // ---------------------------------------------------------------------
  // The order of keys
  // ---------------------------------------------------------------------

  /** Byte order, the order keys are stored in. */
  predicate Less(a: Key, b: Key) {
    b != [] && (a == [] || a[0] < b[0] || (a[0] == b[0] && Less(a[1..], b[1..])))
  }

  /** a comes before b: it is a proper prefix of b, or has the smaller byte where they first differ. */
  lemma {:induction false} LessIsByteOrder(a: Key, b: Key)
    ensures Less(a, b) <==> a != b && (IsPrefix(a, b) || exists i :: SmallerAt(a, b, i))
  {
    if a != [] && IsPrefix(a, b) {
      assert a[0] == b[..|a|][0];
    }
    if a != [] && b != [] && a[0] == b[0] {
      LessIsByteOrder(a[1..], b[1..]);
      SmallerLater(a, b);
    } else if a != [] && b != [] {
      assert a[0] < b[0] ==> SmallerAt(a, b, 0);
    }
  }

  predicate SmallerAt(a: Key, b: Key, i: int) {
    0 <= i < |a| && i < |b| && a[i] < b[i] && forall j :: 0 <= j < i ==> a[j] == b[j]
  }

  lemma SmallerLater(a: Key, b: Key)
    requires a != [] && b != [] && a[0] == b[0]
    ensures (exists i :: SmallerAt(a, b, i)) <==> (exists i :: SmallerAt(a[1..], b[1..], i))
    ensures IsPrefix(a, b) <==> IsPrefix(a[1..], b[1..])
    ensures a == b <==> a[1..] == b[1..]
  {
    assert a == [a[0]] + a[1..] && b == [b[0]] + b[1..];
    if i :| SmallerAt(a, b, i) {
      assert forall j :: 0 <= j < i - 1 ==> a[1..][j] == a[j + 1] && b[1..][j] == b[j + 1];
      assert SmallerAt(a[1..], b[1..], i - 1);
    }
    if i :| SmallerAt(a[1..], b[1..], i) {
      assert a[i + 1] == a[1..][i] && b[i + 1] == b[1..][i];
      assert forall j :: 1 <= j < i + 1 ==> a[j] == a[1..][j - 1] && b[j] == b[1..][j - 1];
      assert SmallerAt(a, b, i + 1);
    }
  }

  lemma {:induction false} LessIsStrict(a: Key)
    ensures !Less(a, a)
  {
    if a != [] {
      LessIsStrict(a[1..]);
    }
  }

  lemma {:induction false} LessIsTransitive(a: Key, b: Key, c: Key)
    requires Less(a, b) && Less(b, c)
    ensures Less(a, c)
  {
    if a != [] && a[0] == b[0] == c[0] {
      LessIsTransitive(a[1..], b[1..], c[1..]);
    }
  }

  lemma {:induction false} LessIsTotal(a: Key, b: Key)
    ensures a == b || Less(a, b) || Less(b, a)
  {
    if a != [] && b != [] && a[0] == b[0] {
      LessIsTotal(a[1..], b[1..]);
      assert a == [a[0]] + a[1..] && b == [b[0]] + b[1..];
    }
  }

  /** a is b, or comes before it. */
  predicate AtMost(a: Key, b: Key) {
    !Less(b, a)
  }

  lemma AtMostLess(a: Key, b: Key, c: Key)
    requires AtMost(a, b) && Less(b, c)
    ensures Less(a, c)
  {
    LessIsTotal(a, b);
    if Less(a, b) {
      LessIsTransitive(a, b, c);
    }
  }

  lemma LessAtMost(a: Key, b: Key, c: Key)
    requires Less(a, b) && AtMost(b, c)
    ensures Less(a, c)
  {
    LessIsTotal(b, c);
    if Less(b, c) {
      LessIsTransitive(a, b, c);
    }
  }

  predicate Sorted(ks: seq<Key>) {
    forall i, j :: 0 <= i < j < |ks| ==> Less(ks[i], ks[j])
  }

  // ---------------------------------------------------------------------
  // Groups
  // ---------------------------------------------------------------------

  /** A group with its last byte incremented. */
  function Jump(g: Key): (j: Key)
    requires g != [] && g[|g| - 1] < 255
    ensures |j| == |g|
  {
    g[..|g| - 1] + [g[|g| - 1] + 1]
  }

  /** The keys a group covers are exactly those from it up to its byte successor. */
  lemma {:induction false} GroupIsRange(g: Key, k: Key)
    requires g != [] && g[|g| - 1] < 255
    ensures IsPrefix(g, k) <==> AtMost(g, k) && Less(k, Jump(g))
    decreases |g|
  {
    var j := Jump(g);
    if |g| == 1 {
      assert j == [g[0] + 1] && j[1..] == [] && g[1..] == [];
      if k != [] {
        assert k[..1] == [k[0]] && g == [g[0]];
        assert !Less(k[1..], []);
      }
    } else if k != [] {
      assert j[1..] == Jump(g[1..]) && j[0] == g[0];
      GroupIsRange(g[1..], k[1..]);
      assert IsPrefix(g, k) <==> k[0] == g[0] && IsPrefix(g[1..], k[1..]) by {
        assert g == [g[0]] + g[1..] && k == [k[0]] + k[1..];
      }
    }
  }

  /** What is listed under a prefix. The delimiter, if any, is a printable ASCII byte. */
  datatype Query = Query(prefix: Key, delimiter: Option<byte>)

  predicate ValidQuery(q: Query) {
    q.delimiter.Some? ==> 32 <= q.delimiter.value < 127
  }

  /** A key listed by itself, or a common prefix. */
  datatype Entry = Object(key: Key) | Group(prefix: Key)

  function NameOf(e: Entry): Key {
    match e
    case Object(k) => k
    case Group(g) => g
  }

  /** Where the delimiter first is after the prefix. */
  function Cut(q: Query, k: Key): (r: Option<nat>)
    requires IsPrefix(q.prefix, k)
    ensures r.Some? ==> q.delimiter.Some? && |q.prefix| <= r.value < |k| && k[r.value] == q.delimiter.value
    ensures r.Some? ==> forall j :: |q.prefix| <= j < r.value ==> k[j] != q.delimiter.value
    ensures r.None? && q.delimiter.Some? ==> forall j :: |q.prefix| <= j < |k| ==> k[j] != q.delimiter.value
  {
    if q.delimiter.None? then None
    else
      var at := IndexFrom(k, q.delimiter.value, |q.prefix|);
      if at < |k| then Some(at) else None
  }

  /** How one key is listed. */
  function EntryOf(q: Query, k: Key): (e: Entry)
    requires IsPrefix(q.prefix, k)
    ensures e.Object? ==> e.key == k
    ensures e.Group? ==> e.prefix != [] && IsPrefix(e.prefix, k) && q.delimiter == Some(e.prefix[|e.prefix| - 1])
  {
    match Cut(q, k)
    case None => Object(k)
    case Some(at) => Group(k[..at + 1])
  }

  /** A key under the prefix that is listed by itself: the delimiter is not after the prefix. */
  predicate AsObject(q: Query, k: Key) {
    IsPrefix(q.prefix, k) && (q.delimiter.Some? ==> q.delimiter.value !in k[|q.prefix|..])
  }

  /** A common prefix: more than the prefix, up to the first delimiter after it. */
  predicate AsGroup(q: Query, g: Key) {
    && q.delimiter.Some? && |g| > |q.prefix| && IsPrefix(q.prefix, g)
    && g[|g| - 1] == q.delimiter.value && q.delimiter.value !in g[|q.prefix|..|g| - 1]
  }

  /** Every key under the prefix is listed as the one or in the other. */
  lemma EntryIs(q: Query, k: Key)
    requires IsPrefix(q.prefix, k)
    ensures EntryOf(q, k) == Object(k) <==> AsObject(q, k)
    ensures EntryOf(q, k).Group? ==> AsGroup(q, EntryOf(q, k).prefix) && IsPrefix(EntryOf(q, k).prefix, k)
    ensures forall g :: AsGroup(q, g) && IsPrefix(g, k) ==> EntryOf(q, k) == Group(g)
  {
    if q.delimiter.Some? {
      EntryIsObject(q, k);
      forall g | AsGroup(q, g) && IsPrefix(g, k)
        ensures EntryOf(q, k) == Group(g)
      {
        GroupIsEntry(q, k, g);
      }
    }
  }

  lemma EntryIsObject(q: Query, k: Key)
    requires IsPrefix(q.prefix, k) && q.delimiter.Some?
    ensures EntryOf(q, k) == Object(k) <==> AsObject(q, k)
    ensures EntryOf(q, k).Group? ==> AsGroup(q, EntryOf(q, k).prefix)
  {
    var rest := k[|q.prefix|..];
    match Cut(q, k)
    case None =>
      assert forall j :: 0 <= j < |rest| ==> rest[j] == k[j + |q.prefix|];
    case Some(at) =>
      assert rest[at - |q.prefix|] == q.delimiter.value;
      var g := k[..at + 1];
      assert forall j :: |q.prefix| <= j < at ==> g[j] == k[j];
      assert g[..|q.prefix|] == k[..|q.prefix|];
  }

  lemma GroupIsEntry(q: Query, k: Key, g: Key)
    requires IsPrefix(q.prefix, k) && AsGroup(q, g) && IsPrefix(g, k)
    ensures EntryOf(q, k) == Group(g)
  {
    assert forall j :: 0 <= j < |g| ==> k[j] == g[j];
    assert forall j :: |q.prefix| <= j < |g| - 1 ==> g[j] == g[|q.prefix|..|g| - 1][j - |q.prefix|];
    IndexIs(k, q.delimiter.value, |q.prefix|, |g| - 1);
  }

  /** The marker to resume strictly after, once a key has been listed. */
  function MarkerAfter(q: Query, k: Key): Key
    requires ValidQuery(q) && IsPrefix(q.prefix, k)
  {
    match EntryOf(q, k)
    case Object(_) => k
    case Group(g) => Jump(g)
  }

  lemma MarkerMovesOn(q: Query, k: Key)
    requires ValidQuery(q) && IsPrefix(q.prefix, k)
    ensures AtMost(k, MarkerAfter(q, k))
  {
    match EntryOf(q, k)
    case Object(_) => LessIsStrict(k);
    case Group(g) =>
      GroupIsRange(g, k);
      if Less(Jump(g), k) {
        LessIsTransitive(k, Jump(g), k);
        LessIsStrict(k);
      }
  }

  /** The keys that fall in a group are exactly those that start with it. */
  lemma SameGroup(q: Query, a: Key, b: Key)
    requires IsPrefix(q.prefix, a) && IsPrefix(q.prefix, b) && EntryOf(q, a).Group?
    ensures EntryOf(q, b) == EntryOf(q, a) <==> IsPrefix(EntryOf(q, a).prefix, b)
  {
    var g := EntryOf(q, a).prefix;
    if IsPrefix(g, b) {
      var at := |g| - 1;
      assert forall j :: 0 <= j < |g| ==> b[j] == g[j] == a[j];
      IndexIs(b, q.delimiter.value, |q.prefix|, at);
      assert b[..at + 1] == g;
    }
  }

  /** A group's byte successor, if it is a key, is listed by itself. */
  lemma JumpIsObject(q: Query, a: Key, k: Key)
    requires ValidQuery(q) && IsPrefix(q.prefix, a) && IsPrefix(q.prefix, k) && EntryOf(q, a).Group?
    requires k == Jump(EntryOf(q, a).prefix)
    ensures EntryOf(q, k) == Object(k)
  {
    var g := EntryOf(q, a).prefix;
    assert forall j :: 0 <= j < |g| - 1 ==> k[j] == g[j] == a[j];
    assert Cut(q, a).value == |g| - 1;
  }

  lemma AtMostTransitive(a: Key, b: Key, c: Key)
    requires AtMost(a, b) && AtMost(b, c)
    ensures AtMost(a, c)
  {
    if Less(c, a) {
      LessAtMost(c, a, b);
      LessAtMost(c, b, c);
      LessIsStrict(c);
    }
  }

  lemma LessIsAtMost(a: Key, b: Key)
    requires Less(a, b)
    ensures AtMost(a, b)
  {
    if Less(b, a) {
      LessIsTransitive(a, b, a);
      LessIsStrict(a);
    }
  }

  lemma InGroup(q: Query, g: Key, a: Key, k: Key)
    requires ValidQuery(q) && IsPrefix(q.prefix, a) && IsPrefix(q.prefix, k)
    requires EntryOf(q, a) == Group(g) && AtMost(a, k)
    ensures Less(k, Jump(g)) <==> EntryOf(q, k) == Group(g)
  {
    GroupIsRange(g, a);
    GroupIsRange(g, k);
    SameGroup(q, a, k);
    AtMostTransitive(g, a, k);
  }

  /** A key dropped by a step is in the group listed, unless it is its byte successor. */
  lemma Dropped(q: Query, a: Key, k: Key)
    requires ValidQuery(q) && IsPrefix(q.prefix, a) && IsPrefix(q.prefix, k)
    requires Less(a, k) && AtMost(k, MarkerAfter(q, a)) && (EntryOf(q, a).Group? ==> k != Jump(EntryOf(q, a).prefix))
    ensures EntryOf(q, k) == EntryOf(q, a)
  {
    if EntryOf(q, a).Group? {
      var g := EntryOf(q, a).prefix;
      LessIsTotal(k, Jump(g));
      LessIsAtMost(a, k);
      InGroup(q, g, a, k);
    }
  }

  /** A key a step keeps is not in the group listed. */
  lemma NotDropped(q: Query, a: Key, k: Key)
    requires ValidQuery(q) && IsPrefix(q.prefix, a) && IsPrefix(q.prefix, k)
    requires Less(a, k) && Less(MarkerAfter(q, a), k)
    ensures EntryOf(q, k) != EntryOf(q, a)
  {
    match EntryOf(q, a)
    case Object(_) => LessIsStrict(a);
    case Group(g) =>
      LessIsAtMost(a, k);
      InGroup(q, g, a, k);
      if Less(k, Jump(g)) {
        LessIsTransitive(k, Jump(g), k);
        LessIsStrict(k);
      }
  }

  /** A key in another group than the first is past the marker the first leaves. */
  lemma OtherGroupKept(q: Query, a: Key, k: Key)
    requires ValidQuery(q) && IsPrefix(q.prefix, a) && IsPrefix(q.prefix, k)
    requires Less(a, k) && EntryOf(q, k).Group? && EntryOf(q, k) != EntryOf(q, a)
    ensures Less(MarkerAfter(q, a), k)
  {
    if EntryOf(q, a).Group? {
      var g := EntryOf(q, a).prefix;
      LessIsAtMost(a, k);
      InGroup(q, g, a, k);
      LessIsTotal(Jump(g), k);
      if k == Jump(g) {
        JumpIsObject(q, a, k);
      }
    }
  }

  /** Keys in order, listed differently, are listed in order. */
  lemma NamesInOrder(q: Query, a: Key, b: Key)
    requires ValidQuery(q) && IsPrefix(q.prefix, a) && IsPrefix(q.prefix, b)
    requires Less(a, b) && EntryOf(q, a) != EntryOf(q, b)
    ensures Less(NameOf(EntryOf(q, a)), NameOf(EntryOf(q, b)))
  {
    var name := NameOf(EntryOf(q, a));
    assert AtMost(name, a) by {
      if EntryOf(q, a).Group? {
        GroupIsRange(name, a);
      } else {
        LessIsStrict(a);
      }
    }
    if EntryOf(q, b).Group? {
      var g := EntryOf(q, b).prefix;
      GroupIsRange(g, b);
      GroupIsRange(g, a);
      SameGroup(q, b, a);
      LessIsTransitive(a, b, Jump(g));
      AtMostLess(name, a, g);
    } else {
      AtMostLess(name, a, b);
    }
  }

  // ---------------------------------------------------------------------
  // The simple specification, and the walk
  // ---------------------------------------------------------------------

  predicate AllMatch(q: Query, ks: seq<Key>) {
    forall i :: 0 <= i < |ks| ==> IsPrefix(q.prefix, ks[i])
  }

  /** The keys under the prefix. */
  function Matching(q: Query, keys: seq<Key>): (ks: seq<Key>)
    ensures AllMatch(q, ks)
    ensures forall i :: 0 <= i < |ks| ==> ks[i] in keys
  {
    if keys == [] then []
    else (if IsPrefix(q.prefix, keys[0]) then [keys[0]] else []) + Matching(q, keys[1..])
  }

  /** They are all of the keys under the prefix, and no others. */
  lemma {:induction false} MatchingHas(q: Query, keys: seq<Key>, k: Key)
    ensures k in Matching(q, keys) <==> k in keys && IsPrefix(q.prefix, k)
  {
    if keys != [] {
      MatchingHas(q, keys[1..], k);
    }
  }

  lemma {:induction false} MatchingSorted(q: Query, keys: seq<Key>)
    requires Sorted(keys)
    ensures Sorted(Matching(q, keys))
  {
    if keys != [] {
      assert Sorted(keys[1..]) by {
        assert forall i :: 0 <= i < |keys| - 1 ==> keys[1..][i] == keys[i + 1];
      }
      MatchingSorted(q, keys[1..]);
      var rest := Matching(q, keys[1..]);
      forall i | 0 <= i < |rest| ensures Less(keys[0], rest[i]) {
        var j :| 0 <= j < |keys| - 1 && keys[1..][j] == rest[i];
        assert keys[j + 1] == rest[i];
      }
    }
  }

  /** Every key from the i-th on, in order, each run of keys of one group listed once,
      as the group. */
  function Spec(q: Query, ks: seq<Key>, i: nat): (es: seq<Entry>)
    requires AllMatch(q, ks) && i <= |ks|
    ensures i < |ks| ==> es != [] && es[0] == EntryOf(q, ks[i])
    decreases |ks| - i
  {
    if i == |ks| then []
    else
      var e, rest := EntryOf(q, ks[i]), Spec(q, ks, i + 1);
      if rest != [] && rest[0] == e then rest else [e] + rest
  }

  /** The first key from the i-th on that is strictly after the marker. */
  function First(ks: seq<Key>, marker: Key, i: nat): (n: nat)
    requires i <= |ks|
    ensures i <= n <= |ks|
    ensures forall j :: i <= j < n ==> AtMost(ks[j], marker)
    ensures n < |ks| ==> Less(marker, ks[n])
    decreases |ks| - i
  {
    if i < |ks| && AtMost(ks[i], marker) then First(ks, marker, i + 1) else i
  }

  /** What walking from group to group lists: each time the first key after the
      marker, and then on from its own marker. */
  function Walk(q: Query, ks: seq<Key>, i: nat): (es: seq<Entry>)
    requires ValidQuery(q) && AllMatch(q, ks) && i <= |ks|
    ensures i < |ks| ==> es != [] && es[0] == EntryOf(q, ks[i])
    decreases |ks| - i
  {
    if i == |ks| then [] else [EntryOf(q, ks[i])] + Walk(q, ks, Next(q, ks, i))
  }

  /** The key the walk goes on from after the i-th. */
  function Next(q: Query, ks: seq<Key>, i: nat): (n: nat)
    requires ValidQuery(q) && AllMatch(q, ks) && i < |ks|
    ensures i < n <= |ks|
  {
    First(ks, MarkerAfter(q, ks[i]), i + 1)
  }

  /** In sorted keys, looking for the first one after a marker finds the same one from
      wherever the search starts, as long as it starts at or before it. */
  lemma {:induction false} FirstFrom(ks: seq<Key>, marker: Key, i: nat, j: nat)
    requires i <= j <= |ks| && forall x :: i <= x < j ==> AtMost(ks[x], marker)
    ensures First(ks, marker, i) == First(ks, marker, j)
    decreases j - i
  {
    if i < j {
      FirstFrom(ks, marker, i + 1, j);
    }
  }

  /** The j-th key is the byte successor of the i-th key's group, so it comes later. */
  predicate Lost(q: Query, ks: seq<Key>, i: int, j: int)
    requires ValidQuery(q) && AllMatch(q, ks)
  {
    && 0 <= i < j < |ks|
    && EntryOf(q, ks[i]).Group? && ks[j] == Jump(EntryOf(q, ks[i]).prefix)
  }

  predicate SomeLost(q: Query, ks: seq<Key>)
    requires ValidQuery(q) && AllMatch(q, ks)
  {
    exists i, j :: 0 <= i < |ks| && 0 <= j < |ks| && Lost(q, ks, i, j)
  }

  /** Keys of one group next to each other are listed once. */
  lemma {:induction false} SpecSkips(q: Query, ks: seq<Key>, i: nat, n: nat)
    requires AllMatch(q, ks) && i < n <= |ks|
    requires forall j :: i <= j < n ==> EntryOf(q, ks[j]) == EntryOf(q, ks[i])
    requires n < |ks| ==> EntryOf(q, ks[n]) != EntryOf(q, ks[i])
    ensures Spec(q, ks, i) == [EntryOf(q, ks[i])] + Spec(q, ks, n)
    decreases n - i
  {
    if i + 1 < n {
      SpecSkips(q, ks, i + 1, n);
    }
  }

  /** The keys a step of the walk passes over are those of the group it lists, unless
      one of them is the group's byte successor. */
  lemma StepTakesGroup(q: Query, ks: seq<Key>, i: nat, j: nat)
    requires ValidQuery(q) && AllMatch(q, ks) && Sorted(ks) && i < j < |ks| && !Lost(q, ks, i, j)
    ensures j < Next(q, ks, i) ==> EntryOf(q, ks[j]) == EntryOf(q, ks[i])
    ensures j == Next(q, ks, i) ==> EntryOf(q, ks[j]) != EntryOf(q, ks[i])
  {
    assert Less(ks[i], ks[j]);
    if j < Next(q, ks, i) {
      Dropped(q, ks[i], ks[j]);
    } else if j == Next(q, ks, i) {
      NotDropped(q, ks[i], ks[j]);
    }
  }

  lemma {:induction false} WalkIsSpec(q: Query, ks: seq<Key>, i: nat)
    requires ValidQuery(q) && AllMatch(q, ks) && Sorted(ks) && !SomeLost(q, ks) && i <= |ks|
    ensures Walk(q, ks, i) == Spec(q, ks, i)
    decreases |ks| - i
  {
    if i < |ks| {
      var n := Next(q, ks, i);
      forall j | i < j < |ks| && j <= n
        ensures j < n ==> EntryOf(q, ks[j]) == EntryOf(q, ks[i])
        ensures j == n ==> EntryOf(q, ks[j]) != EntryOf(q, ks[i])
      {
        StepTakesGroup(q, ks, i, j);
      }
      SpecSkips(q, ks, i, n);
      WalkIsSpec(q, ks, n);
    }
  }

  predicate Listed(q: Query, ks: seq<Key>, i: nat, e: Entry)
    requires AllMatch(q, ks)
  {
    exists j :: i <= j < |ks| && EntryOf(q, ks[j]) == e
  }

  /** Everything listed is how some key is listed, and the other way round. */
  lemma {:induction false} SpecHas(q: Query, ks: seq<Key>, i: nat, e: Entry)
    requires AllMatch(q, ks) && i <= |ks|
    ensures e in Spec(q, ks, i) <==> Listed(q, ks, i, e)
    decreases |ks| - i
  {
    if i < |ks| {
      SpecHas(q, ks, i + 1, e);
      assert Listed(q, ks, i, e) <==> EntryOf(q, ks[i]) == e || Listed(q, ks, i + 1, e);
    }
  }

  predicate Increasing(es: seq<Entry>) {
    forall i, j :: 0 <= i < j < |es| ==> Less(NameOf(es[i]), NameOf(es[j]))
  }

  lemma FirstBefore(e: Entry, rest: seq<Entry>)
    requires Increasing(rest) && rest != [] && Less(NameOf(e), NameOf(rest[0]))
    ensures Increasing([e] + rest)
  {
    forall i | 0 <= i < |rest| ensures Less(NameOf(e), NameOf(rest[i])) {
      if i > 0 {
        LessIsTransitive(NameOf(e), NameOf(rest[0]), NameOf(rest[i]));
      }
    }
  }

  /** The specification lists every key once, by itself or as its common prefix, in
      the order of what is listed. */
  lemma {:induction false} SpecInOrder(q: Query, ks: seq<Key>, i: nat)
    requires ValidQuery(q) && AllMatch(q, ks) && Sorted(ks) && i <= |ks|
    ensures Increasing(Spec(q, ks, i))
    decreases |ks| - i
  {
    if i + 1 < |ks| {
      SpecInOrder(q, ks, i + 1);
      var e, rest := EntryOf(q, ks[i]), Spec(q, ks, i + 1);
      if rest[0] != e {
        NamesInOrder(q, ks[i], ks[i + 1]);
        FirstBefore(e, rest);
      }
    }
  }

  lemma {:induction false} WalkFromKeys(q: Query, ks: seq<Key>, i: nat, e: Entry)
    requires ValidQuery(q) && AllMatch(q, ks) && i <= |ks| && e in Walk(q, ks, i)
    ensures Listed(q, ks, i, e)
    decreases |ks| - i
  {
    if i < |ks| && e != EntryOf(q, ks[i]) {
      WalkFromKeys(q, ks, Next(q, ks, i), e);
    }
  }

  /** The walk lists in order, and so nothing twice. */
  lemma {:induction false} WalkInOrder(q: Query, ks: seq<Key>, i: nat)
    requires ValidQuery(q) && AllMatch(q, ks) && Sorted(ks) && i <= |ks|
    ensures Increasing(Walk(q, ks, i))
    decreases |ks| - i
  {
    if i < |ks| {
      var n := Next(q, ks, i);
      WalkInOrder(q, ks, n);
      if n < |ks| {
        assert Less(ks[i], ks[n]);
        NotDropped(q, ks[i], ks[n]);
        NamesInOrder(q, ks[i], ks[n]);
        FirstBefore(EntryOf(q, ks[i]), Walk(q, ks, n));
      }
    }
  }

  lemma PastMarker(q: Query, ks: seq<Key>, i: nat, j: nat)
    requires ValidQuery(q) && AllMatch(q, ks) && Sorted(ks) && i < |ks| && Next(q, ks, i) <= j < |ks|
    ensures Less(MarkerAfter(q, ks[i]), ks[j])
  {
    var n := Next(q, ks, i);
    if n < j {
      LessIsTransitive(MarkerAfter(q, ks[i]), ks[n], ks[j]);
    }
  }

  /** A key that is a group's byte successor is never listed when the group is. */
  lemma {:induction false} LostIsNotWalked(q: Query, ks: seq<Key>, at: nat, i: nat, j: nat)
    requires ValidQuery(q) && AllMatch(q, ks) && Sorted(ks) && Lost(q, ks, i, j) && at <= i
    ensures Object(ks[j]) !in Walk(q, ks, at)
    decreases |ks| - at
  {
    var n := Next(q, ks, at);
    if EntryOf(q, ks[i]) == EntryOf(q, ks[at]) {
      LostStep(q, ks, at, j);
    } else {
      assert Less(ks[at], ks[i]);
      OtherGroupKept(q, ks[at], ks[i]);
      LostIsNotWalked(q, ks, n, i, j);
      assert Less(ks[at], ks[j]);
      LessIsStrict(ks[at]);
    }
  }

  lemma LostStep(q: Query, ks: seq<Key>, at: nat, j: nat)
    requires ValidQuery(q) && AllMatch(q, ks) && Sorted(ks) && at < j < |ks|
    requires EntryOf(q, ks[at]).Group? && ks[j] == Jump(EntryOf(q, ks[at]).prefix)
    ensures Object(ks[j]) !in Walk(q, ks, at)
  {
    var n := Next(q, ks, at);
    if Object(ks[j]) in Walk(q, ks, n) {
      WalkFromKeys(q, ks, n, Object(ks[j]));
      var x :| n <= x < |ks| && EntryOf(q, ks[x]) == Object(ks[j]);
      PastMarker(q, ks, at, x);
      LessIsStrict(ks[j]);
    }
  }

  /** The walk lists exactly what it should if, and only if, no key is the byte
      successor of a group. */
  lemma WalkIsCompleteIff(q: Query, ks: seq<Key>)
    requires ValidQuery(q) && AllMatch(q, ks) && Sorted(ks)
    ensures Walk(q, ks, 0) == Spec(q, ks, 0) <==> !SomeLost(q, ks)
  {
    if SomeLost(q, ks) {
      var i, j :| 0 <= i < |ks| && 0 <= j < |ks| && Lost(q, ks, i, j);
      LostIsNotWalked(q, ks, 0, i, j);
      JumpIsObject(q, ks[i], ks[j]);
      SpecHas(q, ks, 0, Object(ks[j]));
    } else {
      WalkIsSpec(q, ks, 0);
    }
  }

  /** Such keys exist: with delimiter '/', the key "a0" is not listed after "a/b". */
  lemma SuccessorIsNotListed()
    ensures var q, ks := Query([], Some(47)), [[97, 47, 98], [97, 48]];
      && Sorted(ks)
      && Walk(q, ks, 0) == [Group([97, 47])]
      && Spec(q, ks, 0) == [Group([97, 47]), Object([97, 48])]
  {
    var q := Query([], Some(47));
    var a, b: Key := [97, 47, 98], [97, 48];
    assert a[1..] == [47, 98] && b[1..] == [48];
    IndexIs(a, 47, 0, 1);
    assert EntryOf(q, a) == Group([97, 47]) by { assert a[..2] == [97, 47]; }
    assert EntryOf(q, b) == Object(b);
    assert Jump([97, 47]) == b;
    LessIsStrict(b);
    assert Spec(q, [a, b], 1) == [Object(b)] + Spec(q, [a, b], 2);
    assert Next(q, [a, b], 0) == 2;
  }

  // ---------------------------------------------------------------------
  // Pages
  // ---------------------------------------------------------------------

  function ObjectsOf(es: seq<Entry>): seq<Key> {
    if es == [] then [] else ObjectsOf(es[..|es| - 1]) + if es[|es| - 1].Object? then [es[|es| - 1].key] else []
  }

  function GroupsOf(es: seq<Entry>): seq<Key> {
    if es == [] then [] else GroupsOf(es[..|es| - 1]) + if es[|es| - 1].Group? then [es[|es| - 1].prefix] else []
  }

  datatype ListResult = ListResult(objects: seq<Key>, prefixes: seq<Key>, truncated: bool, nextMarker: Key)

  /** Steps of the walk from the start-th key list these entries and lead to the at-th. */
  ghost predicate Reached(q: Query, ks: seq<Key>, start: nat, listed: seq<Entry>, at: nat)
    requires ValidQuery(q) && AllMatch(q, ks)
    decreases |listed|
  {
    if listed == [] then at == start
    else
      exists from: nat | from < |ks| ::
        Steps(q, ks, from, listed, at) && Reached(q, ks, start, listed[..|listed| - 1], from)
  }

  predicate Steps(q: Query, ks: seq<Key>, from: nat, listed: seq<Entry>, at: nat)
    requires ValidQuery(q) && AllMatch(q, ks) && from < |ks| && listed != []
  {
    at == Next(q, ks, from) && listed[|listed| - 1] == EntryOf(q, ks[from])
  }

  lemma WalkStep(q: Query, ks: seq<Key>, i: nat)
    requires ValidQuery(q) && AllMatch(q, ks) && i < |ks|
    ensures Walk(q, ks, i) == [EntryOf(q, ks[i])] + Walk(q, ks, Next(q, ks, i))
  {
  }

  lemma LastApart(es: seq<Entry>)
    requires es != []
    ensures es == es[..|es| - 1] + [es[|es| - 1]]
  {
  }

  lemma {:induction false} ReachedIsWalk(q: Query, ks: seq<Key>, start: nat, listed: seq<Entry>, at: nat)
    requires ValidQuery(q) && AllMatch(q, ks) && Reached(q, ks, start, listed, at) && start <= |ks| && at <= |ks|
    ensures Walk(q, ks, start) == listed + Walk(q, ks, at)
    decreases |listed|
  {
    if listed == [] {
      assert listed + Walk(q, ks, at) == Walk(q, ks, at);
    } else {
      var front := listed[..|listed| - 1];
      var from: nat :| from < |ks| && Steps(q, ks, from, listed, at) && Reached(q, ks, start, front, from);
      ReachedIsWalk(q, ks, start, front, from);
      WalkStep(q, ks, from);
      AppendAssoc(front, [EntryOf(q, ks[from])], Walk(q, ks, at));
      LastApart(listed);
    }
  }

  /** What a page has listed so far. */
  predicate Shows(r: ListResult, listed: seq<Entry>) {
    r.objects == ObjectsOf(listed) && r.prefixes == GroupsOf(listed) && |r.objects| + |r.prefixes| == |listed|
  }

  /** The page with one more row listed. */
  function Add(r: ListResult, e: Entry): ListResult {
    if e.Object? then r.(objects := r.objects + [e.key]) else r.(prefixes := r.prefixes + [e.prefix])
  }

  lemma ShowsOne(r: ListResult, listed: seq<Entry>, e: Entry)
    requires Shows(r, listed)
    ensures Shows(Add(r, e), listed + [e])
  {
    assert (listed + [e])[..|listed|] == listed;
  }

  lemma ReachedOne(q: Query, ks: seq<Key>, start: nat, listed: seq<Entry>, at: nat)
    requires ValidQuery(q) && AllMatch(q, ks) && at < |ks| && Reached(q, ks, start, listed, at)
    ensures Reached(q, ks, start, listed + [EntryOf(q, ks[at])], Next(q, ks, at))
  {
    var more := listed + [EntryOf(q, ks[at])];
    assert more[..|more| - 1] == listed;
    assert Steps(q, ks, at, more, Next(q, ks, at));
  }

  lemma UpToMarker(ks: seq<Key>, at: nat, marker: Key)
    requires Sorted(ks) && at < |ks| && AtMost(ks[at], marker)
    ensures forall x :: 0 <= x < at + 1 ==> AtMost(ks[x], marker)
  {
    forall x | 0 <= x < at + 1 ensures AtMost(ks[x], marker) {
      if x < at {
        LessIsAtMost(ks[x], ks[at]);
        AtMostTransitive(ks[x], ks[at], marker);
      }
    }
  }

  /** The first key after the marker a key leaves. */
  lemma MarkerFinds(q: Query, ks: seq<Key>, at: nat)
    requires ValidQuery(q) && AllMatch(q, ks) && Sorted(ks) && at < |ks|
    ensures First(ks, MarkerAfter(q, ks[at]), 0) == Next(q, ks, at)
  {
    MarkerMovesOn(q, ks[at]);
    UpToMarker(ks, at, MarkerAfter(q, ks[at]));
    FirstFrom(ks, MarkerAfter(q, ks[at]), 0, at + 1);
  }

  lemma ObjectThenNext(q: Query, ks: seq<Key>, at: nat)
    requires ValidQuery(q) && AllMatch(q, ks) && Sorted(ks) && at < |ks| && EntryOf(q, ks[at]).Object?
    ensures Next(q, ks, at) == at + 1
  {
    assert at + 1 < |ks| ==> Less(ks[at], ks[at + 1]);
  }

  /** How many of n entries a page of at most maxKeys lists. */
  function PageSize(maxKeys: int, n: nat): (m: nat)
    ensures m <= n && (maxKeys >= 0 ==> m <= maxKeys)
  {
    if maxKeys <= 0 then 0 else if maxKeys < n then maxKeys else n
  }

  /** The page holds the first entries of the walk from the marker on, as many as it
      may; it is truncated when there are more; and the next marker, past this one,
      is where they go on. */
  ghost predicate PageOf(q: Query, ks: seq<Key>, marker: Key, maxKeys: int, r: ListResult)
    requires ValidQuery(q) && AllMatch(q, ks)
  {
    var all := Walk(q, ks, First(ks, marker, 0));
    var n := PageSize(maxKeys, |all|);
    && r.objects == ObjectsOf(all[..n]) && r.prefixes == GroupsOf(all[..n])
    && |r.objects| + |r.prefixes| == n
    && (r.truncated <==> n < |all|)
    && (r.truncated ==> Walk(q, ks, First(ks, r.nextMarker, 0)) == all[n..])
    && (r.truncated && maxKeys > 0 ==> Less(marker, r.nextMarker))
  }

  lemma PageEnds(q: Query, ks: seq<Key>, from: Key, listed: seq<Entry>, r: ListResult, at: Key, maxKeys: int)
    requires ValidQuery(q) && AllMatch(q, ks) && Filling(q, ks, from, maxKeys, listed, r, at)
    requires First(ks, at, 0) < |ks| ==> |listed| >= maxKeys
    ensures First(ks, at, 0) < |ks| ==> PageOf(q, ks, from, maxKeys, r.(truncated := true, nextMarker := at))
    ensures First(ks, at, 0) == |ks| ==> PageOf(q, ks, from, maxKeys, r)
  {
    var start, now := First(ks, from, 0), First(ks, at, 0);
    ReachedIsWalk(q, ks, start, listed, now);
    var all := Walk(q, ks, start);
    assert PageSize(maxKeys, |all|) == |listed|;
    assert all[..|listed|] == listed && all[|listed|..] == Walk(q, ks, now);
  }

  /** The first keys after a marker, at most one batch of them. */
  method Batch(ks: seq<Key>, marker: Key) returns (at: nat, batch: seq<Key>)
    ensures at == First(ks, marker, 0)
    ensures batch == if at + LIST_BATCH < |ks| then ks[at..at + LIST_BATCH] else ks[at..]
  {
    at := First(ks, marker, 0);
    batch := if at + LIST_BATCH < |ks| then ks[at..at + LIST_BATCH] else ks[at..];
  }

  /** A page being filled: what is listed, and the marker to go on strictly after. */
  ghost predicate Filling(q: Query, ks: seq<Key>, from: Key, maxKeys: int, listed: seq<Entry>, r: ListResult,
                  marker: Key)
    requires ValidQuery(q) && AllMatch(q, ks)
  {
    && Reached(q, ks, First(ks, from, 0), listed, First(ks, marker, 0)) && Shows(r, listed)
    && (if maxKeys <= 0 then listed == [] else |listed| <= maxKeys)
    && AtMost(from, marker) && (listed != [] ==> Less(from, marker))
    && !r.truncated
  }

  lemma StartsFilling(q: Query, ks: seq<Key>, from: Key, maxKeys: int)
    requires ValidQuery(q) && AllMatch(q, ks)
    ensures Filling(q, ks, from, maxKeys, [], ListResult([], [], false, []), from)
  {
    LessIsStrict(from);
  }

  lemma FillOne(q: Query, ks: seq<Key>, from: Key, maxKeys: int, listed: seq<Entry>, r: ListResult, marker: Key)
    requires ValidQuery(q) && AllMatch(q, ks) && Sorted(ks) && Filling(q, ks, from, maxKeys, listed, r, marker)
    requires First(ks, marker, 0) < |ks| && |listed| < maxKeys
    ensures var k := ks[First(ks, marker, 0)];
      Filling(q, ks, from, maxKeys, listed + [EntryOf(q, k)], Add(r, EntryOf(q, k)), MarkerAfter(q, k))
  {
    var at := First(ks, marker, 0);
    var k := ks[at];
    ReachedOne(q, ks, First(ks, from, 0), listed, at);
    ShowsOne(r, listed, EntryOf(q, k));
    MarkerFinds(q, ks, at);
    MarkerMovesOn(q, k);
    LessAtMost(marker, k, MarkerAfter(q, k));
    AtMostLess(from, marker, MarkerAfter(q, k));
    LessIsAtMost(from, MarkerAfter(q, k));
  }

  /** Lists the rows of a batch until the page is full or a group is found. */
  method ListBatch(q: Query, ghost ks: seq<Key>, ghost from: Key, ghost listed0: seq<Entry>, ghost at: nat,
                  batch: seq<Key>, r0: ListResult, marker0: Key, maxKeys: int)
    returns (r: ListResult, marker: Key, full: bool, grouped: bool, ghost listed: seq<Entry>)
    requires ValidQuery(q) && AllMatch(q, ks) && Sorted(ks) && Filling(q, ks, from, maxKeys, listed0, r0, marker0)
    requires at + |batch| <= |ks| && batch == ks[at..at + |batch|] && at == First(ks, marker0, 0)
    ensures Filling(q, ks, from, maxKeys, listed, r, marker)
    ensures full ==> First(ks, marker, 0) < |ks| && |listed| >= maxKeys
    ensures !full ==> if grouped then First(ks, marker, 0) > at else First(ks, marker, 0) == at + |batch|
  {
    r, marker, full, grouped, listed := r0, marker0, false, false, listed0;
    for b := 0 to |batch|
      invariant First(ks, marker, 0) == at + b && Filling(q, ks, from, maxKeys, listed, r, marker)
      invariant !full && !grouped
    {
      if |r.objects| + |r.prefixes| >= maxKeys {
        full := true;
        return;
      }
      assert batch[b] == ks[at + b];
      r, marker, grouped, listed := ListRow(q, ks, from, listed, at + b, r, marker, batch[b], maxKeys);
      if grouped { return; }
    }
  }

  /** Lists one row, and moves the marker past it, or past its whole group. */
  method ListRow(q: Query, ghost ks: seq<Key>, ghost from: Key, ghost listed0: seq<Entry>, ghost at: nat,
                 r0: ListResult, ghost marker0: Key, row: Key, ghost maxKeys: int)
    returns (r: ListResult, marker: Key, grouped: bool, ghost listed: seq<Entry>)
    requires ValidQuery(q) && AllMatch(q, ks) && Sorted(ks) && Filling(q, ks, from, maxKeys, listed0, r0, marker0)
    requires at == First(ks, marker0, 0) && at < |ks| && ks[at] == row && |listed0| < maxKeys
    ensures Filling(q, ks, from, maxKeys, listed, r, marker)
    ensures if grouped then First(ks, marker, 0) > at else First(ks, marker, 0) == at + 1
  {
    var e := EntryOf(q, row);
    FillOne(q, ks, from, maxKeys, listed0, r0, marker0);
    MarkerFinds(q, ks, at);
    listed := listed0 + [e];
    marker := MarkerAfter(q, row);
    grouped := e.Group?;
    if grouped {
      r := r0.(prefixes := r0.prefixes + [e.prefix]);
    } else {
      ObjectThenNext(q, ks, at);
      r := r0.(objects := r0.objects + [e.key]);
    }
  }

  /** Fetches a batch and lists its rows. A batch cut short by a group says nothing of
      the rows after it, so it does not exhaust the keys. */
  method NextBatch(q: Query, ks: seq<Key>, ghost from: Key, ghost listed0: seq<Entry>, r0: ListResult, marker0: Key,
                  maxKeys: int)
    returns (r: ListResult, marker: Key, full: bool, exhausted: bool, ghost listed: seq<Entry>)
    requires ValidQuery(q) && AllMatch(q, ks) && Sorted(ks) && Filling(q, ks, from, maxKeys, listed0, r0, marker0)
    ensures Filling(q, ks, from, maxKeys, listed, r, marker)
    ensures full ==> First(ks, marker, 0) < |ks| && |listed| >= maxKeys
    ensures !full && exhausted ==> First(ks, marker, 0) == |ks|
    ensures !full && !exhausted ==> First(ks, marker, 0) > First(ks, marker0, 0)
  {
    var at, batch := Batch(ks, marker0);
    var grouped;
    r, marker, full, grouped, listed := ListBatch(q, ks, from, listed0, at, batch, r0, marker0, maxKeys);
    exhausted := !grouped && |batch| < LIST_BATCH;
  }

  /** One page of a listing, resumed strictly after the marker. */
  method ListObjects(keys: seq<Key>, q: Query, marker: Key, maxKeys: int) returns (r: ListResult)
    requires ValidQuery(q) && Sorted(keys)
    ensures PageOf(q, Matching(q, keys), marker, maxKeys, r)
  {
    var ks := Matching(q, keys);
    MatchingSorted(q, keys);
    ghost var listed: seq<Entry> := [];
    var at := marker;
    r := ListResult([], [], false, []);
    StartsFilling(q, ks, marker, maxKeys);
    while true
      invariant Filling(q, ks, marker, maxKeys, listed, r, at)
      decreases |ks| - First(ks, at, 0)
    {
      var full, exhausted;
      r, at, full, exhausted, listed := NextBatch(q, ks, marker, listed, r, at, maxKeys);
      if full || exhausted {
        PageEnds(q, ks, marker, listed, r, at, maxKeys);
        if full {
          r := r.(truncated := true, nextMarker := at);
        }
        return;
      }
    }
  }

  lemma {:induction false} ObjectsOfConcat(a: seq<Entry>, b: seq<Entry>)
    ensures ObjectsOf(a + b) == ObjectsOf(a) + ObjectsOf(b)
    ensures GroupsOf(a + b) == GroupsOf(a) + GroupsOf(b)
    decreases |b|
  {
    if b == [] {
      assert a + b == a;
    } else {
      assert (a + b)[..|a + b| - 1] == a + b[..|b| - 1];
      ObjectsOfConcat(a, b[..|b| - 1]);
    }
  }

  lemma PageAdds(objects: seq<Key>, prefixes: seq<Key>, page: ListResult, rest: seq<Entry>, n: nat)
    requires n <= |rest| && page.objects == ObjectsOf(rest[..n]) && page.prefixes == GroupsOf(rest[..n])
    ensures objects + ObjectsOf(rest) == objects + page.objects + ObjectsOf(rest[n..])
    ensures prefixes + GroupsOf(rest) == prefixes + page.prefixes + GroupsOf(rest[n..])
    ensures n == |rest| ==> ObjectsOf(rest[n..]) == [] && GroupsOf(rest[n..]) == []
    ensures n == |rest| ==>
      objects + page.objects + [] == objects + page.objects && prefixes + page.prefixes + [] == prefixes + page.prefixes
  {
    assert rest == rest[..n] + rest[n..];
    ObjectsOfConcat(rest[..n], rest[n..]);
    AppendAssoc(objects, page.objects, ObjectsOf(rest[n..]));
    AppendAssoc(prefixes, page.prefixes, GroupsOf(rest[n..]));
  }

  lemma {:induction false} ObjectsHave(es: seq<Entry>, k: Key)
    ensures k in ObjectsOf(es) <==> Object(k) in es
  {
    if es != [] {
      ObjectsHave(es[..|es| - 1], k);
      LastApart(es);
    }
  }

  /** What following the markers from the start gives is what the specification lists
      if, and only if, no key is the byte successor of a group. */
  lemma ListingIsCompleteIff(q: Query, ks: seq<Key>)
    requires ValidQuery(q) && AllMatch(q, ks) && Sorted(ks)
    ensures var walk, spec := Walk(q, ks, 0), Spec(q, ks, 0);
      ObjectsOf(walk) == ObjectsOf(spec) && GroupsOf(walk) == GroupsOf(spec) <==> !SomeLost(q, ks)
  {
    if SomeLost(q, ks) {
      var i, j :| 0 <= i < |ks| && 0 <= j < |ks| && Lost(q, ks, i, j);
      LostIsNotWalked(q, ks, 0, i, j);
      JumpIsObject(q, ks[i], ks[j]);
      SpecHas(q, ks, 0, Object(ks[j]));
      ObjectsHave(Walk(q, ks, 0), ks[j]);
      ObjectsHave(Spec(q, ks, 0), ks[j]);
    } else {
      WalkIsSpec(q, ks, 0);
    }
  }

  lemma {:induction false} GroupsHave(es: seq<Entry>, g: Key)
    ensures g in GroupsOf(es) <==> Group(g) in es
  {
    if es != [] {
      GroupsHave(es[..|es| - 1], g);
      LastApart(es);
    }
  }

  lemma {:induction false} PartsInOrder(es: seq<Entry>)
    requires Increasing(es)
    ensures Sorted(ObjectsOf(es)) && Sorted(GroupsOf(es))
    decreases |es|
  {
    if es != [] {
      var front, last := es[..|es| - 1], es[|es| - 1];
      PartsInOrder(front);
      forall k | k in ObjectsOf(front) || k in GroupsOf(front)
        ensures Less(k, NameOf(last))
      {
        ObjectsHave(front, k);
        GroupsHave(front, k);
        var i :| 0 <= i < |front| && NameOf(front[i]) == k;
        assert es[i] == front[i];
      }
    }
  }

  // ---------------------------------------------------------------------
  // What a listing gives a client
  // ---------------------------------------------------------------------

  /** Some key is in the group. */
  predicate InUse(keys: seq<Key>, g: Key) {
    exists i :: 0 <= i < |keys| && IsPrefix(g, keys[i])
  }

  /** No key is a group in use with its last byte incremented. */
  predicate NoSuccessor(q: Query, keys: seq<Key>) {
    forall k :: k in keys ==> !Succeeds(q, keys, k)
  }

  predicate Succeeds(q: Query, keys: seq<Key>, k: Key) {
    k != [] && k[|k| - 1] > 0 && q.delimiter.Some? && k[|k| - 1] == q.delimiter.value + 1
    && var g := k[..|k| - 1] + [q.delimiter.value]; AsGroup(q, g) && InUse(keys, g)
  }

  /** Nothing is listed but keys under the prefix, by themselves or as their common prefix. */
  predicate OnlyKeys(q: Query, keys: seq<Key>, objects: seq<Key>, prefixes: seq<Key>) {
    && (forall k :: k in objects ==> k in keys && AsObject(q, k))
    && (forall g :: g in prefixes ==> AsGroup(q, g) && InUse(keys, g))
  }

  /** Every key under the prefix is listed, or starts with a common prefix that is. */
  predicate AllKeys(q: Query, keys: seq<Key>, objects: seq<Key>, prefixes: seq<Key>) {
    forall k :: k in keys && IsPrefix(q.prefix, k) ==> k in objects || InSome(k, prefixes)
  }

  predicate InSome(k: Key, prefixes: seq<Key>) {
    exists i :: 0 <= i < |prefixes| && IsPrefix(prefixes[i], k)
  }

  lemma SomeLostIff(q: Query, keys: seq<Key>)
    requires ValidQuery(q) && Sorted(keys)
    ensures SomeLost(q, Matching(q, keys)) <==> !NoSuccessor(q, keys)
  {
    var ks := Matching(q, keys);
    MatchingSorted(q, keys);
    if SomeLost(q, ks) {
      var i, j :| 0 <= i < |ks| && 0 <= j < |ks| && Lost(q, ks, i, j);
      LostSucceeds(q, keys, ks[i], ks[j]);
    }
    if !NoSuccessor(q, keys) {
      var k :| k in keys && Succeeds(q, keys, k);
      SuccessorIsLost(q, keys, k);
    }
  }

  lemma LostSucceeds(q: Query, keys: seq<Key>, a: Key, k: Key)
    requires ValidQuery(q) && IsPrefix(q.prefix, a) && a in keys && EntryOf(q, a).Group?
    requires k == Jump(EntryOf(q, a).prefix)
    ensures Succeeds(q, keys, k)
  {
    EntryIs(q, a);
    var g := EntryOf(q, a).prefix;
    assert g == k[..|k| - 1] + [q.delimiter.value];
    var i :| 0 <= i < |keys| && keys[i] == a;
  }

  lemma SuccessorIsLost(q: Query, keys: seq<Key>, k: Key)
    requires ValidQuery(q) && Sorted(keys) && k in keys && Succeeds(q, keys, k)
    ensures SomeLost(q, Matching(q, keys))
  {
    var g := k[..|k| - 1] + [q.delimiter.value];
    var x :| 0 <= x < |keys| && IsPrefix(g, keys[x]);
    SuccessorParts(q, k, g);
    GroupIsKeys(q, keys, g, keys[x]);
    MatchingHas(q, keys, k);
    MatchingSorted(q, keys);
    BothAreKeys(q, Matching(q, keys), g, keys[x], k);
  }

  lemma SuccessorParts(q: Query, k: Key, g: Key)
    requires ValidQuery(q) && k != [] && q.delimiter.Some? && k[|k| - 1] == q.delimiter.value + 1
    requires g == k[..|k| - 1] + [q.delimiter.value] && AsGroup(q, g)
    ensures k == Jump(g) && IsPrefix(q.prefix, k)
  {
    assert k[..|q.prefix|] == g[..|q.prefix|];
  }

  lemma GroupIsKeys(q: Query, keys: seq<Key>, g: Key, a: Key)
    requires a in keys && AsGroup(q, g) && IsPrefix(g, a)
    ensures a in Matching(q, keys) && IsPrefix(q.prefix, a) && EntryOf(q, a) == Group(g)
  {
    PrefixesChain(q.prefix, g, a);
    MatchingHas(q, keys, a);
    GroupIsEntry(q, a, g);
  }

  lemma BothAreKeys(q: Query, ks: seq<Key>, g: Key, a: Key, k: Key)
    requires ValidQuery(q) && AllMatch(q, ks) && Sorted(ks) && a in ks && k in ks && IsPrefix(q.prefix, a)
    requires EntryOf(q, a) == Group(g) && g[|g| - 1] < 255 && k == Jump(g)
    ensures SomeLost(q, ks)
  {
    var i :| 0 <= i < |ks| && ks[i] == a;
    var j :| 0 <= j < |ks| && ks[j] == k;
    SuccessorIsLater(ks, g, i, j);
    assert Lost(q, ks, i, j);
  }

  lemma SuccessorIsLater(ks: seq<Key>, g: Key, i: nat, j: nat)
    requires Sorted(ks) && i < |ks| && j < |ks| && g != [] && g[|g| - 1] < 255
    requires IsPrefix(g, ks[i]) && ks[j] == Jump(g)
    ensures i < j
  {
    GroupIsRange(g, ks[i]);
    NotBothWays(ks[i], ks[j]);
  }

  lemma NotBothWays(a: Key, b: Key)
    requires Less(a, b)
    ensures !Less(b, a)
  {
    if Less(b, a) {
      LessIsTransitive(a, b, a);
      LessIsStrict(a);
    }
  }

  lemma WalkOnlyKeys(q: Query, keys: seq<Key>, at: nat)
    requires ValidQuery(q) && at <= |Matching(q, keys)|
    ensures var all := Walk(q, Matching(q, keys), at);
      OnlyKeys(q, keys, ObjectsOf(all), GroupsOf(all))
  {
    var ks := Matching(q, keys);
    var all := Walk(q, ks, at);
    forall k | k in ObjectsOf(all) ensures k in keys && AsObject(q, k) {
      ObjectsHave(all, k);
      WalkFromKeys(q, ks, at, Object(k));
      var j :| at <= j < |ks| && EntryOf(q, ks[j]) == Object(k);
      EntryIs(q, ks[j]);
    }
    forall g | g in GroupsOf(all) ensures AsGroup(q, g) && InUse(keys, g) {
      GroupsHave(all, g);
      WalkFromKeys(q, ks, at, Group(g));
      var j :| at <= j < |ks| && EntryOf(q, ks[j]) == Group(g);
      EntryIs(q, ks[j]);
      var i :| 0 <= i < |keys| && keys[i] == ks[j];
      assert IsPrefix(g, keys[i]);
    }
  }

  lemma SpecAllKeys(q: Query, keys: seq<Key>)
    requires ValidQuery(q)
    ensures var spec := Spec(q, Matching(q, keys), 0);
      AllKeys(q, keys, ObjectsOf(spec), GroupsOf(spec))
  {
    var ks := Matching(q, keys);
    var spec := Spec(q, ks, 0);
    forall k | k in keys && IsPrefix(q.prefix, k)
      ensures k in ObjectsOf(spec) || InSome(k, GroupsOf(spec))
    {
      MatchingHas(q, keys, k);
      var j :| 0 <= j < |ks| && ks[j] == k;
      SpecHas(q, ks, 0, EntryOf(q, k));
      if EntryOf(q, k).Group? {
        var g := EntryOf(q, k).prefix;
        GroupsHave(spec, g);
        var i :| 0 <= i < |GroupsOf(spec)| && GroupsOf(spec)[i] == g;
        assert IsPrefix(GroupsOf(spec)[i], k);
      } else {
        ObjectsHave(spec, k);
      }
    }
  }

  /** A key that is a group's byte successor is neither listed nor in a group that is. */
  lemma LostIsMissing(q: Query, keys: seq<Key>)
    requires ValidQuery(q) && Sorted(keys) && SomeLost(q, Matching(q, keys))
    ensures var all := Walk(q, Matching(q, keys), 0);
      !AllKeys(q, keys, ObjectsOf(all), GroupsOf(all))
  {
    var ks := Matching(q, keys);
    MatchingSorted(q, keys);
    var i, j :| 0 <= i < |ks| && 0 <= j < |ks| && Lost(q, ks, i, j);
    var all, k := Walk(q, ks, 0), ks[j];
    LostIsNotWalked(q, ks, 0, i, j);
    JumpIsObject(q, ks[i], k);
    ObjectsHave(all, k);
    MatchingHas(q, keys, k);
    WalkOnlyKeys(q, keys, 0);
    ObjectInNone(q, k, GroupsOf(all));
  }

  lemma ObjectInNone(q: Query, k: Key, prefixes: seq<Key>)
    requires IsPrefix(q.prefix, k) && EntryOf(q, k).Object? && forall g :: g in prefixes ==> AsGroup(q, g)
    ensures !InSome(k, prefixes)
  {
    forall x | 0 <= x < |prefixes|
      ensures !IsPrefix(prefixes[x], k)
    {
      assert prefixes[x] in prefixes;
      EntryIs(q, k);
    }
  }

  lemma WalkAllKeysIff(q: Query, keys: seq<Key>)
    requires ValidQuery(q) && Sorted(keys)
    ensures var all := Walk(q, Matching(q, keys), 0);
      AllKeys(q, keys, ObjectsOf(all), GroupsOf(all)) <==> NoSuccessor(q, keys)
  {
    MatchingSorted(q, keys);
    SomeLostIff(q, keys);
    if SomeLost(q, Matching(q, keys)) {
      LostIsMissing(q, keys);
    } else {
      WalkIsSpec(q, Matching(q, keys), 0);
      SpecAllKeys(q, keys);
    }
  }

  /** Every key but the empty one is after the empty marker. */
  lemma FromTheStart(ks: seq<Key>)
    requires [] !in ks
    ensures First(ks, [], 0) == 0
  {
    if ks != [] {
      assert ks[0] in ks;
    }
  }

  /** A client that follows the markers to the end gets, in order and once each, keys
      under the prefix and their common prefixes and nothing else; and from the start
      it gets them all exactly when no key is the byte successor of a group. */
  method ListAll(keys: seq<Key>, q: Query, marker: Key, maxKeys: int) returns (objects: seq<Key>, prefixes: seq<Key>)
    requires ValidQuery(q) && Sorted(keys) && maxKeys > 0
    ensures var ks := Matching(q, keys);
      var all := Walk(q, ks, First(ks, marker, 0));
      objects == ObjectsOf(all) && prefixes == GroupsOf(all)
    ensures var spec := Spec(q, Matching(q, keys), 0);
      marker == [] && [] !in Matching(q, keys) ==>
        (objects == ObjectsOf(spec) && prefixes == GroupsOf(spec) <==> !SomeLost(q, Matching(q, keys)))
    ensures OnlyKeys(q, keys, objects, prefixes) && Sorted(objects) && Sorted(prefixes)
    ensures marker == [] && [] !in keys ==> (AllKeys(q, keys, objects, prefixes) <==> NoSuccessor(q, keys))
  {
    ghost var ks := Matching(q, keys);
    MatchingSorted(q, keys);
    ListingIsCompleteIff(q, ks);
    MatchingHas(q, keys, []);
    if [] !in ks {
      FromTheStart(ks);
    }
    ghost var all := Walk(q, ks, First(ks, marker, 0));
    WalkOnlyKeys(q, keys, First(ks, marker, 0));
    WalkInOrder(q, ks, First(ks, marker, 0));
    PartsInOrder(all);
    WalkAllKeysIff(q, keys);
    var at := marker;
    objects, prefixes := [], [];
    while true
      invariant objects + ObjectsOf(Walk(q, ks, First(ks, at, 0))) == ObjectsOf(all)
      invariant prefixes + GroupsOf(Walk(q, ks, First(ks, at, 0))) == GroupsOf(all)
      decreases |Walk(q, ks, First(ks, at, 0))|
    {
      var page := ListObjects(keys, q, at, maxKeys);
      ghost var rest := Walk(q, ks, First(ks, at, 0));
      PageAdds(objects, prefixes, page, rest, PageSize(maxKeys, |rest|));
      objects, prefixes := objects + page.objects, prefixes + page.prefixes;
      if !page.truncated { return; }
      at := page.nextMarker;
    }
  }
}
