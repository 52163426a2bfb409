/** The perfect-hash table of header names that is built at run time from the caller's
    list and the reserved names: what a lookup must answer, and when a placement of
    keys into slots makes it answer that.

    A mask `x & (n - 1)` with `n` a power of two is the remainder by `n`. */
module HeaderTable {
  import opened Radix
  import opened HttpScan

  const UINT32: nat := 0x1_0000_0000
  const UINT64: nat := 0x1_0000_0000_0000_0000
  const MAX_SIZE: nat := 65536
  const RESERVED_BASE: int := 0x4000_0000

  // ------------------------------------------------------------------------- names

  predicate IsToken(name: string) {
    name != "" && forall i :: 0 <= i < |name| ==> IsTokenChar(name[i])
  }

  /** FNV-1a over the folded bytes, in 64-bit arithmetic. */
  function Fnv(h: bv64, folded: string): bv64
    decreases |folded|
  {
    if folded == "" then h
    else Fnv((h ^ ((folded[0] as int % 256) as bv64)) * 0x100_0000_01b3, folded[1..])
  }

  function HashOf(name: string): (r: nat)
    ensures r < UINT64
  {
    Fnv(0xcbf2_9ce4_8422_2325, FoldAll(name)) as nat
  }

  /** A name with the id the table's owner gave it. */
  datatype Key = Key(name: string, value: int)

  /** Key `k` is the name, up to case. */
  ghost predicate Matches(keys: seq<Key>, name: string, k: nat) {
    k < |keys| && FoldAll(keys[k].name) == FoldAll(name)
  }

  /** What a lookup must answer: the id of the entry equal up to case, or 0. */
  ghost predicate Answers(keys: seq<Key>, name: string, id: int) {
    if exists k: nat :: Matches(keys, name, k) then exists k: nat :: Matches(keys, name, k) && id == keys[k].value
    else id == 0
  }

  ghost predicate DistinctHashes(keys: seq<Key>) {
    forall i, j :: 0 <= i < j < |keys| ==> HashOf(keys[i].name) != HashOf(keys[j].name)
  }

  // --------------------------------------------------------------------- placement

  function Low(h: nat): (r: nat)
    ensures r < UINT32
  {
    h % UINT32
  }

  function High(h: nat): nat { h / UINT32 }

  /** The displacement group of a key. */
  function GroupOf(h: nat, groups: nat): (r: nat)
    requires 1 <= groups
    ensures r < groups
  {
    Rem(High(h), groups)
  }

  /** The slot of a key under a displacement, as the builder computes it: the sum does
      not wrap. */
  function PlaceOf(h: nat, d: nat, size: nat): (r: nat)
    requires 1 <= size
    ensures r < size
  {
    Rem(Low(h) + d, size)
  }

  /** The same as a lookup computes it, in 32-bit arithmetic. */
  function SlotOf(h: nat, d: nat, size: nat): (r: nat)
    requires 1 <= size
    ensures r < size
  {
    Rem((Low(h) + d) % UINT32, size)
  }

  /** Table sizes are powers of two up to 65536. */
  predicate TableSize(size: nat, log2: nat) { log2 <= 16 && size == Pow2(log2) }

  lemma SizeBounds(size: nat, log2: nat)
    requires TableSize(size, log2)
    ensures 1 <= size <= MAX_SIZE
  {
    Pow2Grows(log2, 16);
    assert Pow2(16) == 65536 by { assert Pow2(8) == 256; Pow2Splits(8, 8); TimesIsProduct(256, 256); }
  }

  lemma Uint32Multiple(size: nat, log2: nat)
    requires TableSize(size, log2)
    ensures exists q: nat :: Times(q, size) == UINT32
  {
    Pow2Splits(32 - log2, log2);
    assert Times(Pow2(32 - log2), size) == Pow2(32);
    assert Pow2(32) == UINT32 by {
      assert Pow2(8) == 256;
      Pow2Splits(8, 8);
      TimesIsProduct(256, 256);
      Pow2Splits(16, 16);
      TimesIsProduct(65536, 65536);
    }
  }

  /** Dropping a multiple of the size does not change the slot. */
  lemma RemDropsMultiple(x: nat, q: nat, w: nat)
    requires 1 <= w
    ensures Rem(Times(q, w) + x, w) == Rem(x, w)
  {
    QuotRem(x, w);
    TimesAdd(q, Quot(x, w), w);
    QuotRemUnique(Times(q, w) + x, w, q + Quot(x, w), Rem(x, w));
  }

  /** Lookup and placement agree, although only one of them wraps. */
  lemma SlotIsPlace(h: nat, d: nat, size: nat, log2: nat)
    requires TableSize(size, log2) && d < size
    ensures SlotOf(h, d, size) == PlaceOf(h, d, size)
  {
    SizeBounds(size, log2);
    Uint32Multiple(size, log2);
    var q: nat :| Times(q, size) == UINT32;
    var sum := Low(h) + d;
    if sum >= UINT32 {
      assert sum % UINT32 == sum - UINT32;
      RemDropsMultiple(sum - UINT32, q, size);
    } else {
      assert sum % UINT32 == sum;
    }
  }

  // -------------------------------------------------------------------------- table

  /** A table: entries, empty slots in between, and the displacement of each group. */
  datatype Entry = Empty | Entry(key: Key, hash: nat)

  datatype Table = Table(entries: seq<Entry>, displacement: seq<nat>)

  /** Every key sits in the slot a lookup computes for it, displacements fit 16 bits,
      and nothing else is in the table. */
  ghost predicate Placed(t: Table, keys: seq<Key>, log2: nat) {
    && TableSize(|t.entries|, log2) && 1 <= |t.displacement|
    && (forall g :: 0 <= g < |t.displacement| ==> t.displacement[g] < |t.entries| && t.displacement[g] < 65536)
    && (forall k :: 0 <= k < |keys| ==> SitsAt(t, keys[k]))
    && (forall p :: 0 <= p < |t.entries| && t.entries[p].Entry? ==>
          && t.entries[p].key in keys && t.entries[p].hash == HashOf(t.entries[p].key.name)
          && p == PlaceOf(t.entries[p].hash, t.displacement[GroupOf(t.entries[p].hash, |t.displacement|)], |t.entries|))
  }

  /** The table stands for the keys: it has a size a lookup can work with. */
  ghost predicate Agrees(t: Table, keys: seq<Key>) {
    exists log2: nat :: Placed(t, keys, log2)
  }

  ghost predicate SitsAt(t: Table, key: Key)
    requires 1 <= |t.entries| && 1 <= |t.displacement|
  {
    var h := HashOf(key.name);
    t.entries[PlaceOf(h, t.displacement[GroupOf(h, |t.displacement|)], |t.entries|)] == Entry(key, h)
  }

  /** The lookup of a token that has been scanned and hashed: one probe, then the full
      hash and the folded bytes are compared. */
  method Lookup(t: Table, name: string, ghost keys: seq<Key>) returns (id: int)
    requires Agrees(t, keys) && DistinctHashes(keys)
    ensures Answers(keys, name, id)
  {
    ghost var log2: nat :| Placed(t, keys, log2);
    var h := HashOf(name);
    var slot := SlotOf(h, t.displacement[GroupOf(h, |t.displacement|)], |t.entries|);
    SlotIsPlace(h, t.displacement[GroupOf(h, |t.displacement|)], |t.entries|, log2);
    var entry := t.entries[slot];
    id := 0;
    if entry.Entry? && entry.hash == h && |entry.key.name| == |name| {
      var i := 0;
      while i < |name| && Fold(entry.key.name[i]) == Fold(name[i])
        invariant 0 <= i <= |name| && forall j :: 0 <= j < i ==> Fold(entry.key.name[j]) == Fold(name[j])
      {
        i := i + 1;
      }
      if i == |name| {
        id := entry.key.value;
        assert FoldAll(entry.key.name) == FoldAll(name);
      } else {
        assert FoldAll(entry.key.name)[i] != FoldAll(name)[i];
      }
    }
    LookupAnswers(t, name, keys, log2, entry, id);
  }

  /** Equal names have equal hashes, so an equal entry can only be in the probed slot. */
  lemma LookupAnswers(t: Table, name: string, keys: seq<Key>, log2: nat, entry: Entry, id: int)
    requires Placed(t, keys, log2) && DistinctHashes(keys)
    requires var h := HashOf(name);
      entry == t.entries[PlaceOf(h, t.displacement[GroupOf(h, |t.displacement|)], |t.entries|)]
    requires id == if entry.Entry? && entry.hash == HashOf(name) && FoldAll(entry.key.name) == FoldAll(name) then entry.key.value else 0
    ensures Answers(keys, name, id)
  {
    if k: nat :| Matches(keys, name, k) {
      assert HashOf(keys[k].name) == HashOf(name) && SitsAt(t, keys[k]);
      assert entry == Entry(keys[k], HashOf(name));
    } else if entry.Entry? {
      var k: nat :| k < |keys| && keys[k] == entry.key;
      assert !Matches(keys, name, k);
    }
  }

  /** The answer is unique: with distinct hashes no two keys are equal up to case. */
  lemma AnswerIsUnique(keys: seq<Key>, name: string, one: int, other: int)
    requires DistinctHashes(keys) && Answers(keys, name, one) && Answers(keys, name, other)
    ensures one == other
  {
    if exists k: nat :: Matches(keys, name, k) {
      var i: nat :| Matches(keys, name, i) && one == keys[i].value;
      var j: nat :| Matches(keys, name, j) && other == keys[j].value;
      assert HashOf(keys[i].name) == HashOf(keys[j].name);
    }
  }
}
