/** Building the header table: groups of keys are placed largest first, each with the
    smallest displacement that maps all its keys onto free slots; table shapes are
    tried from the smallest up; a list with invalid names or two equal hashes is
    rejected. */
module HeaderBuild {
  import opened HeaderTable
  import opened HeaderBuckets

  // ------------------------------------------------------------------------- order

  datatype Group = Group(index: nat, size: nat)

  predicate Precedes(a: Group, b: Group) {
    a.size > b.size || (a.size == b.size && a.index < b.index)
  }

  ghost predicate Ordered(s: seq<Group>) {
    forall i, j :: 0 <= i < j < |s| ==> Precedes(s[i], s[j])
  }

  lemma InsertedOrder(before: seq<Group>, g: Group, after: seq<Group>)
    requires Ordered(before + after) && (forall e :: e in after ==> e.index != g.index)
    requires forall e :: e in before ==> Precedes(e, g)
    requires after != [] ==> !Precedes(after[0], g)
    ensures Ordered(before + [g] + after)
  {
    var s, r := before + after, before + [g] + after;
    forall j | 0 <= j < |after| ensures Precedes(g, after[j]) {
      assert after[j] in after && after[0] in after;
      assert s[|before|] == after[0] && s[|before| + j] == after[j];
    }
    forall i, j | 0 <= i < j < |r| ensures Precedes(r[i], r[j]) {
      if i != |before| && j != |before| {
        assert r[i] == s[if i < |before| then i else i - 1] && r[j] == s[if j < |before| then j else j - 1];
      } else if j == |before| {
        assert r[i] in before;
      }
    }
  }

  method InsertGroup(s: seq<Group>, g: Group) returns (r: seq<Group>)
    requires Ordered(s) && forall e :: e in s ==> e.index != g.index
    ensures Ordered(r)
    ensures forall e :: e in r <==> e in s || e == g
  {
    var i := 0;
    while i < |s| && Precedes(s[i], g)
      invariant 0 <= i <= |s| && forall e :: e in s[..i] ==> Precedes(e, g)
    {
      i := i + 1;
    }
    assert s == s[..i] + s[i..];
    InsertedOrder(s[..i], g, s[i..]);
    r := s[..i] + [g] + s[i..];
  }

  /** The groups of these sizes, largest first, ties in group order. */
  ghost predicate LargestFirst(order: seq<Group>, sizes: seq<nat>) {
    Ordered(order) && forall e :: e in order <==> e.index < |sizes| && e.size == sizes[e.index]
  }

  method SortGroups(sizes: array<nat>) returns (r: seq<Group>)
    ensures LargestFirst(r, sizes[..])
  {
    r := [];
    for i := 0 to sizes.Length
      invariant Ordered(r)
      invariant forall e :: e in r <==> e.index < i && e.size == sizes[e.index]
    {
      r := InsertGroup(r, Group(i, sizes[i]));
    }
  }

  lemma HasElement(a: seq<Group>, b: seq<Group>)
    requires a != [] && forall e :: e in a ==> e in b
    ensures b != []
  {
    assert a[0] in b;
  }

  /** There is only one such order, whatever sorts the groups. */
  lemma {:induction false} OneOrder(a: seq<Group>, b: seq<Group>)
    requires Ordered(a) && Ordered(b) && forall e :: e in a <==> e in b
    ensures a == b
  {
    if b != [] { HasElement(b, a); }
    if a != [] {
      HasElement(a, b);
      assert a[0] in b && b[0] in a;
      assert a[0] == b[0];
      forall e ensures e in a[1..] <==> e in b[1..] {
        if e in a[1..] { assert e in a && e != a[0]; }
        if e in b[1..] { assert e in b && e != b[0]; }
      }
      OneOrder(a[1..], b[1..]);
      assert a == [a[0]] + a[1..] && b == [b[0]] + b[1..];
    }
  }

  // --------------------------------------------------------------------- one group

  function At(hashes: seq<nat>, k: nat, d: nat, size: nat): (r: nat)
    requires k < |hashes| && 1 <= size
    ensures r < size
  {
    PlaceOf(hashes[k], d, size)
  }

  ghost predicate AllKeys(hashes: seq<nat>, members: seq<nat>) {
    forall n :: 0 <= n < |members| ==> members[n] < |hashes|
  }

  /** Under this displacement the group's keys land on free slots, no two on one. */
  ghost predicate Fits(hashes: seq<nat>, members: seq<nat>, slots: seq<int>, d: nat)
    requires AllKeys(hashes, members) && slots != []
  {
    forall n :: 0 <= n < |members| ==> FitsTo(hashes, members, slots, d, n)
  }

  ghost predicate FitsTo(hashes: seq<nat>, members: seq<nat>, slots: seq<int>, d: nat, n: nat)
    requires AllKeys(hashes, members) && slots != [] && n < |members|
  {
    && slots[At(hashes, members[n], d, |slots|)] < 0
    && forall m :: 0 <= m < n ==> At(hashes, members[m], d, |slots|) != At(hashes, members[n], d, |slots|)
  }

  method TryDisplacement(hashes: seq<nat>, members: seq<nat>, slots: array<int>, d: nat) returns (fits: bool, positions: seq<nat>)
    requires AllKeys(hashes, members) && slots.Length > 0
    ensures fits <==> Fits(hashes, members, slots[..], d)
    ensures fits ==> |positions| == |members| && forall n :: 0 <= n < |members| ==> positions[n] == At(hashes, members[n], d, slots.Length)
  {
    positions := [];
    var n := 0;
    while n < |members|
      invariant 0 <= n <= |members| && |positions| == n
      invariant forall m :: 0 <= m < n ==> positions[m] == At(hashes, members[m], d, slots.Length)
      invariant forall m :: 0 <= m < n ==> FitsTo(hashes, members, slots[..], d, m)
    {
      var pos := At(hashes, members[n], d, slots.Length);
      if slots[pos] >= 0 {
        assert !FitsTo(hashes, members, slots[..], d, n);
        return false, [];
      }
      var m := 0;
      while m < n && positions[m] != pos
        invariant 0 <= m <= n && forall j :: 0 <= j < m ==> positions[j] != pos
      {
        m := m + 1;
      }
      if m < n {
        assert !FitsTo(hashes, members, slots[..], d, n);
        return false, [];
      }
      positions := positions + [pos];
      n := n + 1;
    }
    fits := true;
  }

  // --------------------------------------------------------------------- all groups

  /** The keys of the groups done so far sit in their slots, and nothing else does. */
  ghost predicate Settled(hashes: seq<nat>, tags: seq<nat>, slots: seq<int>, displacement: seq<nat>, done: set<nat>)
    requires |tags| == |hashes| && slots != [] && Tagged(tags, |displacement|)
  {
    && (forall k: nat :: k < |hashes| && tags[k] in done ==> slots[At(hashes, k, displacement[tags[k]], |slots|)] == k)
    && (forall p :: 0 <= p < |slots| && slots[p] >= 0 ==>
          slots[p] < |hashes| && tags[slots[p]] in done && p == At(hashes, slots[p], displacement[tags[slots[p]]], |slots|))
    && (forall g :: 0 <= g < |displacement| ==> displacement[g] < |slots|)
  }

  ghost predicate Hit(hashes: seq<nat>, members: seq<nat>, d: nat, size: nat, upTo: nat, p: nat)
    requires AllKeys(hashes, members) && 1 <= size && upTo <= |members|
  {
    exists n :: 0 <= n < upTo && At(hashes, members[n], d, size) == p
  }

  /** The group's slots have its keys, the others what they had. */
  ghost predicate Written(hashes: seq<nat>, members: seq<nat>, before: seq<int>, after: seq<int>, d: nat, upTo: nat)
    requires AllKeys(hashes, members) && before != [] && upTo <= |members|
  {
    && |after| == |before|
    && (forall n :: 0 <= n < upTo ==> after[At(hashes, members[n], d, |before|)] == members[n])
    && (forall p: nat :: p < |before| && !Hit(hashes, members, d, |before|, upTo, p) ==> after[p] == before[p])
  }

  lemma WriteOne(hashes: seq<nat>, members: seq<nat>, before: seq<int>, after: seq<int>, d: nat, n: nat)
    requires AllKeys(hashes, members) && before != [] && n < |members|
    requires Fits(hashes, members, before, d) && Written(hashes, members, before, after, d, n)
    ensures Written(hashes, members, before, after[At(hashes, members[n], d, |before|) := members[n]], d, n + 1)
  {
    var size := |before|;
    var pos := At(hashes, members[n], d, size);
    var next := after[pos := members[n]];
    assert FitsTo(hashes, members, before, d, n);
    forall p: nat | p < size && !Hit(hashes, members, d, size, n + 1, p) ensures next[p] == before[p] {
      assert p != pos;
    }
  }

  /** The slots with the first `n` members written to their places. */
  ghost function Put(hashes: seq<nat>, members: seq<nat>, slots: seq<int>, d: nat, n: nat): (r: seq<int>)
    requires AllKeys(hashes, members) && slots != [] && n <= |members|
    ensures |r| == |slots|
  {
    if n == 0 then slots
    else Put(hashes, members, slots, d, n - 1)[At(hashes, members[n - 1], d, |slots|) := members[n - 1]]
  }

  lemma {:induction false} PutWrites(hashes: seq<nat>, members: seq<nat>, slots: seq<int>, d: nat, n: nat)
    requires AllKeys(hashes, members) && slots != [] && n <= |members| && Fits(hashes, members, slots, d)
    ensures Written(hashes, members, slots, Put(hashes, members, slots, d, n), d, n)
  {
    if n > 0 {
      PutWrites(hashes, members, slots, d, n - 1);
      WriteOne(hashes, members, slots, Put(hashes, members, slots, d, n - 1), d, n - 1);
    }
  }

  method WriteGroup(hashes: seq<nat>, members: seq<nat>, positions: seq<nat>, slots: array<int>, d: nat)
    requires AllKeys(hashes, members) && slots.Length > 0 && Fits(hashes, members, slots[..], d)
    requires |positions| == |members| && forall n :: 0 <= n < |members| ==> positions[n] == At(hashes, members[n], d, slots.Length)
    modifies slots
    ensures slots[..] == Put(hashes, members, old(slots[..]), d, |members|)
    ensures Written(hashes, members, old(slots[..]), slots[..], d, |members|)
  {
    var n := 0;
    while n < |members|
      invariant 0 <= n <= |members| && slots[..] == Put(hashes, members, old(slots[..]), d, n)
    {
      ghost var was := slots[..];
      slots[positions[n]] := members[n];
      assert slots[..] == was[positions[n] := members[n]];
      n := n + 1;
    }
    PutWrites(hashes, members, old(slots[..]), d, n);
  }

  /** The least displacement from `d` on that fits; the number of slots when none does. */
  ghost function LeastFit(hashes: seq<nat>, members: seq<nat>, slots: seq<int>, d: nat): (r: nat)
    requires AllKeys(hashes, members) && slots != [] && d <= |slots|
    ensures d <= r <= |slots| && (r < |slots| ==> Fits(hashes, members, slots, r))
    ensures forall e: nat :: d <= e < r ==> !Fits(hashes, members, slots, e)
    decreases |slots| - d
  {
    if d == |slots| || Fits(hashes, members, slots, d) then d else LeastFit(hashes, members, slots, d + 1)
  }

  /** The smallest displacement that fits, if there is one. */
  method PlaceGroup(hashes: seq<nat>, members: seq<nat>, slots: array<int>) returns (placed: bool, d: nat)
    requires AllKeys(hashes, members) && slots.Length > 0
    modifies slots
    ensures d == LeastFit(hashes, members, old(slots[..]), 0) && (placed <==> d < slots.Length)
    ensures slots[..] == if placed then Put(hashes, members, old(slots[..]), d, |members|) else old(slots[..])
    ensures placed ==> Written(hashes, members, old(slots[..]), slots[..], d, |members|)
  {
    d := 0;
    while d < slots.Length
      invariant d <= slots.Length && slots[..] == old(slots[..])
      invariant LeastFit(hashes, members, old(slots[..]), 0) == LeastFit(hashes, members, old(slots[..]), d)
    {
      var fits, positions := TryDisplacement(hashes, members, slots, d);
      if fits {
        WriteGroup(hashes, members, positions, slots, d);
        return true, d;
      }
      d := d + 1;
    }
    placed := false;
  }

  ghost predicate GroupIs(tags: seq<nat>, g: nat, members: seq<nat>) {
    forall k: nat :: k in members <==> k < |tags| && tags[k] == g
  }

  /** One more group settled. */
  lemma SettleGroup(hashes: seq<nat>, tags: seq<nat>, before: seq<int>, after: seq<int>, displacement: seq<nat>,
                    done: set<nat>, g: nat, members: seq<nat>, d: nat)
    requires |tags| == |hashes| && before != [] && Tagged(tags, |displacement|) && g < |displacement| && g !in done
    requires Settled(hashes, tags, before, displacement, done) && GroupIs(tags, g, members) && AllKeys(hashes, members)
    requires d < |before| && Fits(hashes, members, before, d) && Written(hashes, members, before, after, d, |members|)
    ensures Settled(hashes, tags, after, displacement[g := d], done + {g})
  {
    forall k: nat | k < |hashes| && tags[k] in done + {g}
      ensures after[At(hashes, k, displacement[g := d][tags[k]], |after|)] == k
    {
      if tags[k] == g {
        var n :| 0 <= n < |members| && members[n] == k;
      } else {
        KeepsSlot(hashes, tags, before, displacement, done, members, d, k);
      }
    }
    forall p: nat | p < |after| && after[p] >= 0
      ensures after[p] < |hashes| && tags[after[p]] in done + {g}
      ensures p == At(hashes, after[p], displacement[g := d][tags[after[p]]], |after|)
    {
      if Hit(hashes, members, d, |before|, |members|, p) {
        var n :| 0 <= n < |members| && At(hashes, members[n], d, |before|) == p;
        assert members[n] in members;
      }
    }
  }

  /** A slot taken by an earlier group is not free, so the new group does not hit it. */
  lemma KeepsSlot(hashes: seq<nat>, tags: seq<nat>, slots: seq<int>, displacement: seq<nat>, done: set<nat>,
                  members: seq<nat>, d: nat, k: nat)
    requires |tags| == |hashes| && slots != [] && Tagged(tags, |displacement|) && AllKeys(hashes, members)
    requires Settled(hashes, tags, slots, displacement, done) && Fits(hashes, members, slots, d) && k < |hashes| && tags[k] in done
    ensures !Hit(hashes, members, d, |slots|, |members|, At(hashes, k, displacement[tags[k]], |slots|))
  {
    forall n | 0 <= n < |members| ensures At(hashes, members[n], d, |slots|) != At(hashes, k, displacement[tags[k]], |slots|) {
      assert FitsTo(hashes, members, slots, d, n);
    }
  }

  /** A group's range of the bucketed keys. */
  lemma RangeIs(tags: seq<nat>, groups: nat, bucketed: seq<nat>, g: nat, from: nat, size: nat)
    requires Tagged(tags, groups) && g < groups && |bucketed| == |tags| && Filled(tags, bucketed, g, |tags|)
    requires StartsAt(tags, g, from) && size == |Members(tags, g, |tags|)|
    ensures from + size <= |bucketed| && bucketed[from..from + size] == Members(tags, g, |tags|)
    ensures GroupIs(tags, g, Members(tags, g, |tags|))
  {
    var members := Members(tags, g, |tags|);
    MembersAre(tags, g, |tags|);
    assert bucketed[from..from + size] == members;
  }

  /** A group behind an empty one is empty. */
  lemma RestIsEmpty(tags: seq<nat>, sizes: seq<nat>, order: seq<Group>, i: nat, k: nat)
    requires Tagged(tags, |sizes|) && LargestFirst(order, sizes) && i < |order| && order[i].size == 0 && k < |tags|
    requires forall g: nat :: g < |sizes| ==> sizes[g] == |Members(tags, g, |tags|)|
    ensures exists j :: 0 <= j < i && order[j].index == tags[k]
  {
    var e := Group(tags[k], sizes[tags[k]]);
    MembersAre(tags, tags[k], |tags|);
    assert k in Members(tags, tags[k], |tags|);
    assert e in order;
    var j :| 0 <= j < |order| && order[j] == e;
  }

  ghost function DoneBy(order: seq<Group>, i: nat): set<nat>
    requires i <= |order|
  {
    set j | 0 <= j < i :: order[j].index
  }

  /** The placement of the groups one after the other, each with the least displacement
      that fits, up to the first empty one; stuck at a group that fits nowhere. */
  datatype Placement = Placement(slots: seq<int>, displacement: seq<nat>) | Stuck

  ghost function Greedy(hashes: seq<nat>, tags: seq<nat>, order: seq<Group>, i: nat, slots: seq<int>, displacement: seq<nat>): Placement
    requires |tags| == |hashes| && slots != [] && i <= |order|
    requires forall e :: e in order ==> e.index < |displacement|
    decreases |order| - i
  {
    if i == |order| || order[i].size == 0 then Placement(slots, displacement)
    else
      assert order[i] in order;
      var g := order[i].index;
      var members := Members(tags, g, |tags|);
      var d := LeastFit(hashes, members, slots, 0);
      if d == |slots| then Stuck
      else Greedy(hashes, tags, order, i + 1, Put(hashes, members, slots, d, |members|), displacement[g := d])
  }

  ghost function Sizes(tags: seq<nat>, groups: nat): (r: seq<nat>)
    ensures |r| == groups && forall g :: 0 <= g < groups ==> r[g] == |Members(tags, g, |tags|)|
  {
    seq(groups, g requires 0 <= g < groups => |Members(tags, g, |tags|)|)
  }

  ghost function Fresh(hashes: seq<nat>, size: nat, groups: nat, order: seq<Group>): Placement
    requires 1 <= size && 1 <= groups && forall e :: e in order ==> e.index < groups
  {
    Greedy(hashes, Tags(hashes, groups), order, 0, seq(size, _ => -1), seq(groups, _ => 0))
  }

  /** In a table of this shape the greedy placement, largest group first, ends. */
  ghost predicate Works(hashes: seq<nat>, size: nat, groups: nat)
    requires 1 <= size && 1 <= groups
  {
    exists order :: LargestFirst(order, Sizes(Tags(hashes, groups), groups)) && Fresh(hashes, size, groups, order).Placement?
  }

  /** Since the order is unique, any one of them decides. */
  lemma OrderDecides(hashes: seq<nat>, size: nat, groups: nat, order: seq<Group>)
    requires 1 <= size && 1 <= groups && LargestFirst(order, Sizes(Tags(hashes, groups), groups))
    ensures Works(hashes, size, groups) <==> Fresh(hashes, size, groups, order).Placement?
  {
    if Works(hashes, size, groups) {
      var other :| LargestFirst(other, Sizes(Tags(hashes, groups), groups)) && Fresh(hashes, size, groups, other).Placement?;
      OneOrder(order, other);
    }
  }

  /** What the counting sort and the sort by size leave for the placement. */
  ghost predicate Bucketed(tags: seq<nat>, sizes: seq<nat>, start: seq<nat>, bucketed: seq<nat>, order: seq<Group>) {
    && Tagged(tags, |sizes|) && |bucketed| == |tags| && |start| == |sizes| + 1 && LargestFirst(order, sizes)
    && (forall g: nat :: g < |sizes| ==> sizes[g] == |Members(tags, g, |tags|)|)
    && (forall g: nat {:trigger start[g]} :: g < |start| ==> StartsAt(tags, g, start[g]))
    && (forall g: nat {:trigger Filled(tags, bucketed, g, |tags|)} :: g < |sizes| ==> Filled(tags, bucketed, g, |tags|))
  }

  /** Counting sort into groups, then the groups by size. */
  method BucketKeys(hashes: seq<nat>, groups: nat)
    returns (tags: seq<nat>, ghost sizes: seq<nat>, start: seq<nat>, bucketed: seq<nat>, order: seq<Group>)
    requires 1 <= groups
    ensures tags == Tags(hashes, groups) && sizes == Sizes(tags, groups) && Bucketed(tags, sizes, start, bucketed, order)
  {
    tags := Tags(hashes, groups);
    var counted := CountSizes(tags, groups);
    var starts := StartOffsets(tags, groups, counted);
    var filled := FillBuckets(tags, groups, starts);
    Rewind(tags, groups, starts);
    order := SortGroups(counted);
    sizes, start, bucketed := counted[..], starts[..], filled[..];
  }

  /** One attempt at a shape: it succeeds if and only if the greedy placement does, and
      then every key is in its slot. */
  method PlaceKeys(hashes: seq<nat>, size: nat, groups: nat) returns (ok: bool, slots: array<int>, displacement: array<nat>)
    requires 1 <= size && 1 <= groups
    ensures fresh(slots) && fresh(displacement) && slots.Length == size && displacement.Length == groups
    ensures ok <==> Works(hashes, size, groups)
    ensures ok ==> forall k: nat :: k < |hashes| ==>
              slots[At(hashes, k, displacement[GroupOf(hashes[k], groups)], size)] == k
    ensures ok ==> forall p :: 0 <= p < size && slots[p] >= 0 ==>
              slots[p] < |hashes| && p == At(hashes, slots[p], displacement[GroupOf(hashes[slots[p]], groups)], size)
    ensures ok ==> forall g :: 0 <= g < groups ==> displacement[g] < size
  {
    var tags, start, bucketed, order;
    ghost var sizes;
    tags, sizes, start, bucketed, order := BucketKeys(hashes, groups);
    OrderDecides(hashes, size, groups, order);
    slots := new int[size](_ => -1);
    displacement := new nat[groups](_ => 0);
    assert slots[..] == seq(size, _ => -1) && displacement[..] == seq(groups, _ => 0);
    ok := PlaceGroups(hashes, tags, sizes, start, bucketed, order, slots, displacement, Fresh(hashes, size, groups, order));
  }

  /** When the loop over the groups ends, every key's group is done. */
  lemma AllDone(tags: seq<nat>, sizes: seq<nat>, order: seq<Group>, i: nat, k: nat)
    requires Tagged(tags, |sizes|) && LargestFirst(order, sizes) && i <= |order| && k < |tags|
    requires i < |order| ==> order[i].size == 0
    requires forall g: nat :: g < |sizes| ==> sizes[g] == |Members(tags, g, |tags|)|
    ensures tags[k] in DoneBy(order, i)
  {
    if i < |order| {
      RestIsEmpty(tags, sizes, order, i, k);
    } else {
      assert Group(tags[k], sizes[tags[k]]) in order;
    }
  }

  method PlaceNext(hashes: seq<nat>, tags: seq<nat>, members: seq<nat>, g: nat, slots: array<int>, displacement: array<nat>,
                   ghost done: set<nat>) returns (placed: bool)
    requires |tags| == |hashes| && slots.Length > 0 && Tagged(tags, displacement.Length) && g < displacement.Length && g !in done
    requires Settled(hashes, tags, slots[..], displacement[..], done) && GroupIs(tags, g, members) && AllKeys(hashes, members)
    modifies slots, displacement
    ensures placed ==> Settled(hashes, tags, slots[..], displacement[..], done + {g})
    ensures var d := LeastFit(hashes, members, old(slots[..]), 0);
      && (placed <==> d < slots.Length)
      && (placed ==> slots[..] == Put(hashes, members, old(slots[..]), d, |members|) && displacement[..] == old(displacement[..])[g := d])
  {
    ghost var before, was := slots[..], displacement[..];
    var d;
    placed, d := PlaceGroup(hashes, members, slots);
    if placed {
      SettleGroup(hashes, tags, before, slots[..], was, done, g, members, d);
      displacement[g] := d;
      assert displacement[..] == was[g := d];
    }
  }

  /** One turn of the greedy placement. */
  method PlaceTurn(hashes: seq<nat>, tags: seq<nat>, ghost sizes: seq<nat>, start: seq<nat>, bucketed: seq<nat>,
                   order: seq<Group>, i: nat, slots: array<int>, displacement: array<nat>) returns (placed: bool)
    requires |tags| == |hashes| && slots.Length > 0 && |sizes| == displacement.Length
    requires Bucketed(tags, sizes, start, bucketed, order) && i < |order| && order[i].size != 0
    requires Settled(hashes, tags, slots[..], displacement[..], DoneBy(order, i))
    modifies slots, displacement
    ensures placed ==> Settled(hashes, tags, slots[..], displacement[..], DoneBy(order, i + 1))
    ensures old(Greedy(hashes, tags, order, i, slots[..], displacement[..]))
         == if placed then Greedy(hashes, tags, order, i + 1, slots[..], displacement[..]) else Stuck
  {
    assert order[i] in order;
    var g := order[i].index;
    var from := start[g];
    RangeIs(tags, |sizes|, bucketed, g, from, order[i].size);
    assert DoneBy(order, i + 1) == DoneBy(order, i) + {g};
    placed := PlaceNext(hashes, tags, bucketed[from..from + order[i].size], g, slots, displacement, DoneBy(order, i));
  }

  /** The loop over the groups is the greedy placement. */
  method PlaceGroups(hashes: seq<nat>, tags: seq<nat>, ghost sizes: seq<nat>, start: seq<nat>, bucketed: seq<nat>,
                     order: seq<Group>, slots: array<int>, displacement: array<nat>, ghost outcome: Placement) returns (ok: bool)
    requires |tags| == |hashes| && slots.Length > 0 && |sizes| == displacement.Length
    requires Bucketed(tags, sizes, start, bucketed, order)
    requires Settled(hashes, tags, slots[..], displacement[..], {})
    requires outcome == Greedy(hashes, tags, order, 0, slots[..], displacement[..])
    modifies slots, displacement
    ensures ok ==> exists done :: Settled(hashes, tags, slots[..], displacement[..], done) && forall k: nat :: k < |tags| ==> tags[k] in done
    ensures outcome == if ok then Placement(slots[..], displacement[..]) else Stuck
  {
    var i := 0;
    while i < |order| && order[i].size != 0
      invariant 0 <= i <= |order|
      invariant Settled(hashes, tags, slots[..], displacement[..], DoneBy(order, i))
      invariant outcome == Greedy(hashes, tags, order, i, slots[..], displacement[..])
    {
      var placed := PlaceTurn(hashes, tags, sizes, start, bucketed, order, i, slots, displacement);
      if !placed {
        return false;
      }
      i := i + 1;
    }
    forall k: nat | k < |tags| ensures tags[k] in DoneBy(order, i) { AllDone(tags, sizes, order, i, k); }
    ok := true;
  }
}
