/** From the caller's list of header names to a table: names and ids are checked, the
    reserved names added, equal hashes rejected, and table shapes tried from the
    smallest up. */
module HeaderPrepare {
  import opened Wrappers
  import opened Radix
  import opened HttpScan
  import opened HeaderTable
  import opened HeaderBuild

  // --------------------------------------------------------------------- duplicates

  ghost predicate Sorted(s: seq<nat>) {
    forall i, j :: 0 <= i < j < |s| ==> s[i] <= s[j]
  }

  /** `s` lists the values of `hashes` at the places `from`, each once. */
  ghost predicate Lists(s: seq<nat>, from: seq<nat>, hashes: seq<nat>, n: nat) {
    && n <= |hashes| && |s| == |from| == n
    && (forall a :: 0 <= a < n ==> from[a] < n && s[a] == hashes[from[a]])
    && (forall a, b :: 0 <= a < b < n ==> from[a] != from[b])
    && (forall i :: 0 <= i < n ==> i in from)
  }

  /** The values in ascending order. */
  method SortHashes(hashes: seq<nat>) returns (s: seq<nat>, ghost from: seq<nat>)
    ensures Sorted(s) && Lists(s, from, hashes, |hashes|)
  {
    s, from := [], [];
    for i := 0 to |hashes|
      invariant Sorted(s) && Lists(s, from, hashes, i)
    {
      s, from := InsertHash(s, from, hashes, i);
    }
  }

  method InsertHash(s: seq<nat>, ghost from: seq<nat>, hashes: seq<nat>, n: nat) returns (r: seq<nat>, ghost origin: seq<nat>)
    requires Sorted(s) && n < |hashes| && Lists(s, from, hashes, n)
    ensures Sorted(r) && Lists(r, origin, hashes, n + 1)
  {
    var i := 0;
    while i < |s| && s[i] <= hashes[n]
      invariant 0 <= i <= |s| && forall j :: 0 <= j < i ==> s[j] <= hashes[n]
    {
      i := i + 1;
    }
    r := s[..i] + [hashes[n]] + s[i..];
    origin := from[..i] + [n] + from[i..];
    InsertedLists(s, from, hashes, n, i, r, origin);
  }

  lemma InsertedLists(s: seq<nat>, from: seq<nat>, hashes: seq<nat>, n: nat, i: nat, r: seq<nat>, origin: seq<nat>)
    requires n < |hashes| && Lists(s, from, hashes, n) && i <= |s|
    requires r == s[..i] + [hashes[n]] + s[i..] && origin == from[..i] + [n] + from[i..]
    ensures Lists(r, origin, hashes, n + 1)
  {
    assert from == from[..i] + from[i..];
    forall k | 0 <= k < n + 1 ensures k in origin {
      if k == n { assert origin[i] == n; } else { assert k in from; }
    }
  }

  /** Without equal neighbours a sorted list ascends strictly. */
  lemma Ascends(s: seq<nat>, a: nat, b: nat)
    requires Sorted(s) && a < b < |s| && forall i :: 1 <= i < |s| ==> s[i] != s[i - 1]
    ensures s[a] < s[b]
  {
    assert s[b] != s[b - 1];
  }

  method AllDistinct(hashes: seq<nat>) returns (distinct: bool)
    ensures distinct <==> forall i, j :: 0 <= i < j < |hashes| ==> hashes[i] != hashes[j]
  {
    var s;
    ghost var from;
    s, from := SortHashes(hashes);
    var i := 1;
    while i < |s|
      invariant 1 <= i && forall a :: 1 <= a < i && a < |s| ==> s[a] != s[a - 1]
    {
      if s[i] == s[i - 1] {
        assert hashes[from[i]] == hashes[from[i - 1]] && from[i] != from[i - 1];
        return false;
      }
      i := i + 1;
    }
    forall p, q | 0 <= p < q < |hashes| ensures hashes[p] != hashes[q] {
      NoNeighboursNoDuplicates(hashes, s, from, p, q);
    }
    distinct := true;
  }

  lemma NoNeighboursNoDuplicates(hashes: seq<nat>, s: seq<nat>, from: seq<nat>, p: nat, q: nat)
    requires Sorted(s) && Lists(s, from, hashes, |hashes|) && p < q < |hashes|
    requires forall a :: 1 <= a < |s| ==> s[a] != s[a - 1]
    ensures hashes[p] != hashes[q]
  {
    assert p in from && q in from;
    var a :| 0 <= a < |from| && from[a] == p;
    var b :| 0 <= b < |from| && from[b] == q;
    if a < b { Ascends(s, a, b); } else { Ascends(s, b, a); }
  }

  // --------------------------------------------------------------------------- shapes

  function Hashes(keys: seq<Key>): (r: seq<nat>)
    ensures |r| == |keys| && forall k :: 0 <= k < |keys| ==> r[k] == HashOf(keys[k].name)
  {
    seq(|keys|, k requires 0 <= k < |keys| => HashOf(keys[k].name))
  }

  function EntryAt(keys: seq<Key>, k: int): Entry
    requires k < |keys|
  {
    if k < 0 then Empty else Entry(keys[k], HashOf(keys[k].name))
  }

  /** Pack a placement into the table's arrays. */
  method Pack(keys: seq<Key>, slots: seq<int>, displacement: seq<nat>, ghost log2: nat) returns (t: Table)
    requires TableSize(|slots|, log2) && 1 <= |displacement|
    requires forall p :: 0 <= p < |slots| && slots[p] >= 0 ==>
               slots[p] < |keys| && p == At(Hashes(keys), slots[p], displacement[GroupOf(Hashes(keys)[slots[p]], |displacement|)], |slots|)
    requires forall g :: 0 <= g < |displacement| ==> displacement[g] < |slots|
    requires forall k: nat :: k < |keys| ==>
               slots[At(Hashes(keys), k, displacement[GroupOf(Hashes(keys)[k], |displacement|)], |slots|)] == k
    ensures Placed(t, keys, log2) && |t.entries| == |slots| && t.displacement == displacement
  {
    SizeBounds(|slots|, log2);
    var entries: seq<Entry> := [];
    for i := 0 to |slots|
      invariant |entries| == i && forall p :: 0 <= p < i ==> entries[p] == EntryAt(keys, slots[p])
    {
      entries := entries + [EntryAt(keys, slots[i])];
    }
    t := Table(entries, displacement);
    forall k | 0 <= k < |keys| ensures SitsAt(t, keys[k]) {
      assert slots[At(Hashes(keys), k, displacement[GroupOf(Hashes(keys)[k], |displacement|)], |slots|)] == k;
    }
  }

  /** A displacement count that is tried for this size. */
  predicate Tried(size: nat, g: nat) { 1 <= g && (g == size || g == size / 2 || g == size / 4) }

  /** In a table of this size the keys can be placed, with one of the counts tried. */
  ghost predicate Placeable(keys: seq<Key>, size: nat)
    requires 1 <= size
  {
    exists g: nat :: Tried(size, g) && Works(Hashes(keys), size, g)
  }

  /** All displacement counts for one table size, from the size itself to a quarter. */
  method TrySize(keys: seq<Key>, size: nat, ghost log2: nat) returns (r: Option<Table>)
    requires TableSize(size, log2)
    ensures 1 <= size && (r.Some? <==> Placeable(keys, size))
    ensures r.Some? ==> Placed(r.value, keys, log2) && |r.value.entries| == size && Works(Hashes(keys), size, |r.value.displacement|)
    ensures r.Some? ==> forall g: nat :: Tried(size, g) && |r.value.displacement| < g ==> !Works(Hashes(keys), size, g)
  {
    SizeBounds(size, log2);
    var lowerBound: nat := if size / 4 > 0 then size / 4 else 1;
    var g: nat := size;
    while g >= lowerBound
      invariant Tried(size, g) || g < lowerBound
      invariant forall h: nat :: Tried(size, h) && g < h ==> !Works(Hashes(keys), size, h)
      decreases g
    {
      var ok, slots, displacement := PlaceKeys(Hashes(keys), size, g);
      if ok {
        var t := Pack(keys, slots[..], displacement[..], log2);
        return Some(t);
      }
      g := g / 2;
    }
    r := None;
  }

  /** The sizes tried are the powers of two that hold the keys, smallest first. */
  ghost predicate UnplaceableBelow(keys: seq<Key>, log2: nat) {
    forall n: nat {:trigger Pow2(n)} :: n < log2 && |keys| <= Pow2(n) ==> !Placeable(keys, Pow2(n))
  }

  ghost predicate SomeSize(keys: seq<Key>) {
    exists n: nat :: |keys| <= Pow2(n) <= MAX_SIZE && Placeable(keys, Pow2(n))
  }

  /** A table is built if and only if the keys can be placed in some size up to the
      largest; it has the smallest such size. */
  method Build(keys: seq<Key>) returns (r: Option<Table>)
    ensures r.Some? <==> SomeSize(keys)
    ensures r.Some? ==> Agrees(r.value, keys)
    ensures r.Some? ==> forall n: nat {:trigger Pow2(n)} :: |keys| <= Pow2(n) < |r.value.entries| ==> !Placeable(keys, Pow2(n))
  {
    var size: nat := 1;
    ghost var log2: nat := 0;
    while size < |keys|
      invariant size == Pow2(log2) && forall n: nat {:trigger Pow2(n)} :: n < log2 ==> Pow2(n) < |keys|
    {
      size := size * 2;
      log2 := log2 + 1;
    }
    while size <= MAX_SIZE
      invariant |keys| <= size == Pow2(log2) && UnplaceableBelow(keys, log2)
      decreases MAX_SIZE - size
    {
      SizeFits(log2);
      r := TrySize(keys, size, log2);
      if r.Some? {
        SmallerIsBelow(keys, log2, size - 1);
        return;
      }
      size := size * 2;
      log2 := log2 + 1;
    }
    SmallerIsBelow(keys, log2, MAX_SIZE);
    r := None;
  }

  lemma SmallerIsBelow(keys: seq<Key>, log2: nat, bound: nat)
    requires UnplaceableBelow(keys, log2) && bound < Pow2(log2)
    ensures forall n: nat {:trigger Pow2(n)} :: |keys| <= Pow2(n) <= bound ==> !Placeable(keys, Pow2(n))
  {
    forall n: nat {:trigger Pow2(n)} | |keys| <= Pow2(n) <= bound ensures n < log2 {
      if log2 <= n { Pow2Grows(log2, n); }
    }
  }

  lemma SizeFits(log2: nat)
    requires Pow2(log2) <= MAX_SIZE
    ensures log2 <= 16
  {
    assert Pow2(17) == 131072 by { assert Pow2(8) == 256; Pow2Splits(8, 8); TimesIsProduct(256, 256); }
    if log2 > 16 { Pow2Grows(17, log2); }
  }

  // -------------------------------------------------------------------------- prepare

  predicate ValidEntry(e: Key) {
    IsToken(e.name) && 1 <= e.value < RESERVED_BASE
  }

  method CheckName(name: string) returns (ok: bool)
    ensures ok <==> IsToken(name)
  {
    var i := 0;
    while i < |name|
      invariant 0 <= i <= |name| && forall j :: 0 <= j < i ==> IsTokenChar(name[j])
    {
      if !IsTokenChar(name[i]) {
        return false;
      }
      i := i + 1;
    }
    ok := name != "";
  }

  /** A table is made only of a valid list without two equal hashes, and then it is one
      on which every lookup answers for the list and the reserved names.  Such a list
      gets a table if and only if the greedy placement works out in some shape. */
  method Prepare(entries: seq<Key>, reserved: seq<Key>) returns (r: Option<Table>)
    ensures r.Some? <==>
      && |entries| <= MAX_SIZE && (forall i :: 0 <= i < |entries| ==> ValidEntry(entries[i]))
      && DistinctHashes(entries + reserved) && SomeSize(entries + reserved)
    ensures r.Some? ==> Agrees(r.value, entries + reserved)
  {
    if |entries| > MAX_SIZE {
      return None;
    }
    for i := 0 to |entries|
      invariant forall j :: 0 <= j < i ==> ValidEntry(entries[j])
    {
      var named := CheckName(entries[i].name);
      if !named || entries[i].value < 1 || entries[i].value >= RESERVED_BASE {
        assert !ValidEntry(entries[i]);
        return None;
      }
    }
    var keys := entries + reserved;
    var distinct := AllDistinct(Hashes(keys));
    DistinctAre(keys, distinct);
    if !distinct {
      return None;
    }
    r := Build(keys);
  }

  lemma DistinctAre(keys: seq<Key>, distinct: bool)
    requires distinct <==> forall i, j :: 0 <= i < j < |Hashes(keys)| ==> Hashes(keys)[i] != Hashes(keys)[j]
    ensures distinct <==> DistinctHashes(keys)
  {
    if distinct {
      forall i, j | 0 <= i < j < |keys| ensures HashOf(keys[i].name) != HashOf(keys[j].name) {
        assert Hashes(keys)[i] != Hashes(keys)[j];
      }
    } else {
      var i, j :| 0 <= i < j < |Hashes(keys)| && Hashes(keys)[i] == Hashes(keys)[j];
      assert HashOf(keys[i].name) == HashOf(keys[j].name);
    }
  }
}
