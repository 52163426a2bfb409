/** The keys of the header table sorted into displacement groups by counting: sizes,
    start offsets, then one pass that drops each key into its group's range. */
module HeaderBuckets {
  import opened HeaderTable

  /** The group of each key. */
  function Tags(hashes: seq<nat>, groups: nat): (r: seq<nat>)
    requires 1 <= groups
    ensures |r| == |hashes| && forall k :: 0 <= k < |r| ==> r[k] == GroupOf(hashes[k], groups) && r[k] < groups
  {
    seq(|hashes|, k requires 0 <= k < |hashes| => GroupOf(hashes[k], groups))
  }

  ghost predicate Tagged(tags: seq<nat>, groups: nat) {
    1 <= groups && forall k :: 0 <= k < |tags| ==> tags[k] < groups
  }

  /** Which of the first `n` keys belong to group `g`, in list order. */
  function Members(tags: seq<nat>, g: nat, n: nat): (r: seq<nat>)
    requires n <= |tags|
    ensures |r| <= n && forall i :: 0 <= i < |r| ==> r[i] < n
  {
    if n == 0 then []
    else Members(tags, g, n - 1) + if tags[n - 1] == g then [n - 1] else []
  }

  lemma {:induction false} MembersAre(tags: seq<nat>, g: nat, n: nat)
    requires n <= |tags|
    ensures forall k: nat :: k in Members(tags, g, n) <==> k < n && tags[k] == g
    ensures forall i, j :: 0 <= i < j < |Members(tags, g, n)| ==>
              Members(tags, g, n)[i] < Members(tags, g, n)[j]
  {
    if n > 0 {
      MembersAre(tags, g, n - 1);
      var before := Members(tags, g, n - 1);
      forall i | 0 <= i < |before| ensures before[i] < n - 1 { assert before[i] in before; }
    }
  }

  /** Keys among the first `n` whose group comes before `g`. */
  function Before(tags: seq<nat>, g: nat, n: nat): nat
    requires n <= |tags|
  {
    if g == 0 then 0 else Before(tags, g - 1, n) + |Members(tags, g - 1, n)|
  }

  lemma {:induction false} BeforeStep(tags: seq<nat>, g: nat, n: nat)
    requires n < |tags|
    ensures Before(tags, g, n + 1)
            == Before(tags, g, n) + if tags[n] < g then 1 else 0
  {
    if g > 0 { BeforeStep(tags, g - 1, n); }
  }

  /** The groups together hold every key once. */
  lemma {:induction false} AllGrouped(tags: seq<nat>, groups: nat, n: nat)
    requires Tagged(tags, groups) && n <= |tags|
    ensures Before(tags, groups, n) == n
  {
    if n == 0 {
      NoneBefore(tags, groups);
    } else {
      AllGrouped(tags, groups, n - 1);
      BeforeStep(tags, groups, n - 1);
    }
  }

  lemma {:induction false} NoneBefore(tags: seq<nat>, g: nat)
    ensures Before(tags, g, 0) == 0
  {
    if g > 0 { NoneBefore(tags, g - 1); }
  }

  lemma {:induction false} NextBefore(tags: seq<nat>, g: nat)
    ensures Before(tags, g + 1, |tags|)
            == Before(tags, g, |tags|) + |Members(tags, g, |tags|)|
  {
  }

  lemma {:induction false} Within(tags: seq<nat>, groups: nat, h: nat)
    requires Tagged(tags, groups) && h <= groups
    ensures Before(tags, h, |tags|) <= |tags|
  {
    BeforeGrows(tags, h, groups);
    AllGrouped(tags, groups, |tags|);
  }

  /** Ranges of different groups do not overlap and lie within the array. */
  lemma {:induction false} Ranges(tags: seq<nat>, groups: nat, g: nat, h: nat)
    requires Tagged(tags, groups) && g < h <= groups
    ensures Before(tags, g, |tags|) + |Members(tags, g, |tags|)| <= Before(tags, h, |tags|)
    ensures Before(tags, h, |tags|) <= |tags|
  {
    NextBefore(tags, g);
    BeforeGrows(tags, g + 1, h);
    Within(tags, groups, h);
  }

  lemma {:induction false} BeforeGrows(tags: seq<nat>, g: nat, h: nat)
    requires g <= h
    ensures Before(tags, g, |tags|) <= Before(tags, h, |tags|)
  {
    if g < h { BeforeGrows(tags, g, h - 1); }
  }

  lemma {:induction false} MembersGrow(tags: seq<nat>, g: nat, m: nat, n: nat)
    requires m <= n <= |tags|
    ensures |Members(tags, g, m)| <= |Members(tags, g, n)|
  {
    if m < n { MembersGrow(tags, g, m, n - 1); }
  }

  // ---------------------------------------------------------------------- the passes

  method CountSizes(tags: seq<nat>, groups: nat) returns (sizes: array<nat>)
    requires Tagged(tags, groups)
    ensures fresh(sizes) && sizes.Length == groups
    ensures forall g :: 0 <= g < groups ==> sizes[g] == |Members(tags, g, |tags|)|
  {
    sizes := new nat[groups](_ => 0);
    for i := 0 to |tags|
      invariant forall g :: 0 <= g < groups ==> sizes[g] == |Members(tags, g, i)|
    {
      var g := tags[i];
      sizes[g] := sizes[g] + 1;
    }
  }

  ghost predicate StartsAt(tags: seq<nat>, g: nat, at: nat)
  {
    at == Before(tags, g, |tags|)
  }

  lemma {:induction false} NextStart(tags: seq<nat>, g: nat, at: nat)
    requires StartsAt(tags, g, at)
    ensures StartsAt(tags, g + 1, at + |Members(tags, g, |tags|)|)
  {
  }

  method StartOffsets(tags: seq<nat>, groups: nat, sizes: array<nat>) returns (start: array<nat>)
    requires Tagged(tags, groups) && sizes.Length == groups
    requires forall g :: 0 <= g < groups ==> sizes[g] == |Members(tags, g, |tags|)|
    ensures fresh(start) && start.Length == groups + 1
    ensures forall g {:trigger start[g]} :: 0 <= g <= groups ==> StartsAt(tags, g, start[g])
  {
    start := new nat[groups + 1](_ => 0);
    for i := 0 to groups
      invariant forall g {:trigger start[g]} :: 0 <= g <= i ==> StartsAt(tags, g, start[g])
    {
      NextStart(tags, i, start[i]);
      start[i + 1] := start[i] + sizes[i];
    }
  }

  /** A group's range so far holds its members so far. */
  ghost predicate Filled(tags: seq<nat>, bucketed: seq<nat>, g: nat, n: nat)
    requires n <= |tags| && |bucketed| == |tags|
  {
    var from, members := Before(tags, g, |tags|), Members(tags, g, n);
    from + |members| <= |tags| && forall j :: 0 <= j < |members| ==> bucketed[from + j] == members[j]
  }

  /** The running offset of a group after `n` keys. */
  ghost predicate RunsAt(tags: seq<nat>, g: nat, n: nat, at: nat)
    requires n <= |tags|
  {
    at == Before(tags, g, |tags|) + |Members(tags, g, n)|
  }

  /** Where key `n` goes: behind the earlier members of its group, inside the range. */
  lemma {:induction false} DropsAt(tags: seq<nat>, groups: nat, n: nat, at: nat)
    requires Tagged(tags, groups) && n < |tags| && RunsAt(tags, tags[n], n, at)
    ensures at < Before(tags, tags[n], |tags|) + |Members(tags, tags[n], |tags|)| <= |tags|
  {
    MembersGrow(tags, tags[n], n + 1, |tags|);
    Ranges(tags, groups, tags[n], groups);
  }

  /** No other group's range has that position. */
  lemma {:induction false} DropsOutside(tags: seq<nat>, groups: nat, n: nat, at: nat, g: nat)
    requires Tagged(tags, groups) && n < |tags| && RunsAt(tags, tags[n], n, at) && g < groups && g != tags[n]
    ensures at < Before(tags, g, |tags|) || Before(tags, g, |tags|) + |Members(tags, g, n)| <= at
  {
    DropsAt(tags, groups, n, at);
    MembersGrow(tags, g, n, |tags|);
    if g < tags[n] { Ranges(tags, groups, g, tags[n]); } else { Ranges(tags, groups, tags[n], g); }
  }

  /** Dropping key `n` into its group extends that group and leaves the others alone. */
  lemma {:induction false} FillStep(tags: seq<nat>, groups: nat, bucketed: seq<nat>, n: nat, g: nat, at: nat)
    requires Tagged(tags, groups) && n < |tags| && |bucketed| == |tags| && g < groups
    requires RunsAt(tags, tags[n], n, at) && Filled(tags, bucketed, g, n)
    ensures at < |tags| && Filled(tags, bucketed[at := n], g, n + 1)
  {
    DropsAt(tags, groups, n, at);
    if g != tags[n] { DropsOutside(tags, groups, n, at, g); }
  }

  /** One key: all groups' ranges and offsets after it. */
  lemma {:induction false} FillAll(tags: seq<nat>, groups: nat, bucketed: seq<nat>, n: nat, start: seq<nat>)
    requires Tagged(tags, groups) && n < |tags| && |bucketed| == |tags| && |start| == groups + 1
    requires forall g: nat {:trigger start[g]} :: g < groups ==> RunsAt(tags, g, n, start[g])
    requires forall g: nat {:trigger Filled(tags, bucketed, g, n)} :: g < groups ==> Filled(tags, bucketed, g, n)
    ensures var own := tags[n];
      && start[own] < |tags|
      && (forall g: nat {:trigger start[g]} :: g < groups ==>
            RunsAt(tags, g, n + 1, if g == own then start[g] + 1 else start[g]))
      && var after := bucketed[start[own] := n];
      && (forall g: nat {:trigger Filled(tags, after, g, n + 1)} :: g < groups ==>
            Filled(tags, after, g, n + 1))
  {
    var own := tags[n];
    assert RunsAt(tags, own, n, start[own]);
    FillStep(tags, groups, bucketed, n, own, start[own]);
    var after := bucketed[start[own] := n];
    var m := n + 1;
    forall g: nat | g < groups ensures Filled(tags, after, g, m) {
      FillStep(tags, groups, bucketed, n, g, start[own]);
    }
  }

  /** One key goes to the front of what is left of its group's range. */
  method FillOne(tags: seq<nat>, groups: nat, start: array<nat>, bucketed: array<nat>, i: nat)
    requires Tagged(tags, groups) && i < |tags| && start.Length == groups + 1 && bucketed.Length == |tags| && start != bucketed
    requires forall g: nat {:trigger start[g]} :: g < groups ==> RunsAt(tags, g, i, start[g])
    requires forall g: nat {:trigger Filled(tags, bucketed[..], g, i)} :: g < groups ==> Filled(tags, bucketed[..], g, i)
    modifies start, bucketed
    ensures forall g: nat {:trigger start[g]} :: g < groups ==> RunsAt(tags, g, i + 1, start[g])
    ensures forall g: nat {:trigger Filled(tags, bucketed[..], g, i + 1)} :: g < groups ==> Filled(tags, bucketed[..], g, i + 1)
  {
    var group := tags[i];
    ghost var was, offsets := bucketed[..], start[..];
    FillAll(tags, groups, was, i, offsets);
    bucketed[start[group]] := i;
    start[group] := start[group] + 1;
    assert bucketed[..] == was[offsets[group] := i];
  }

  /** The fill pass: `start` runs through each group's range. */
  method FillBuckets(tags: seq<nat>, groups: nat, start: array<nat>) returns (bucketed: array<nat>)
    requires Tagged(tags, groups) && start.Length == groups + 1
    requires forall g {:trigger start[g]} :: 0 <= g <= groups ==> StartsAt(tags, g, start[g])
    modifies start
    ensures fresh(bucketed) && bucketed.Length == |tags|
    ensures forall g: nat {:trigger start[g]} :: g < groups ==> StartsAt(tags, g + 1, start[g])
    ensures forall g: nat {:trigger Filled(tags, bucketed[..], g, |tags|)} :: g < groups ==>
              Filled(tags, bucketed[..], g, |tags|)
  {
    bucketed := new nat[|tags|](_ => 0);
    forall g: nat | g < groups ensures Filled(tags, bucketed[..], g, 0) { Ranges(tags, groups, g, groups); }
    for i := 0 to |tags|
      invariant fresh(bucketed) && bucketed.Length == |tags|
      invariant forall g: nat {:trigger start[g]} :: g < groups ==> RunsAt(tags, g, i, start[g])
      invariant forall g: nat {:trigger Filled(tags, bucketed[..], g, i)} :: g < groups ==>
                  Filled(tags, bucketed[..], g, i)
    {
      FillOne(tags, groups, start, bucketed, i);
    }
    forall g: nat | g < groups ensures StartsAt(tags, g + 1, start[g]) {
      assert RunsAt(tags, g, |tags|, start[g]);
    }
  }

  /** Move the offsets back to the start of each range. */
  method Rewind(tags: seq<nat>, groups: nat, start: array<nat>)
    requires Tagged(tags, groups) && start.Length == groups + 1
    requires forall g {:trigger start[g]} :: 0 <= g < groups ==> StartsAt(tags, g + 1, start[g])
    modifies start
    ensures forall g {:trigger start[g]} :: 0 <= g <= groups ==> StartsAt(tags, g, start[g])
  {
    var i := groups;
    while i > 0
      invariant 0 <= i <= groups
      invariant forall g {:trigger start[g]} :: i < g <= groups ==> StartsAt(tags, g, start[g])
      invariant forall g {:trigger start[g]} :: 0 <= g < i ==> StartsAt(tags, g + 1, start[g])
    {
      start[i] := start[i - 1];
      i := i - 1;
    }
    start[0] := 0;
  }
}
