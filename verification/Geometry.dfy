/** The radix arithmetic of the timing wheel: level widths, window starts, slot
    indices and the routing rule that picks the slot for a deadline.

    The number of bits per level and the number of levels stay symbolic.  A mask
    such as `tick & ~(width - 1)` is written as rounding down to a multiple of
    the width, and a shift as a division: widths are powers of two. */
module Geometry {
  import opened Radix

  datatype Params = Params(levelBits: nat, levels: nat)
  {
    predicate Valid() {
      6 <= levelBits && 1 <= levels && levelBits * levels < 64
    }
  }

  type Geometry = p: Params | p.Valid() witness Params(10, 4)

  /** One slot of the wheel. */
  datatype Key = Key(level: nat, index: nat)

  function Slots(g: Geometry): (r: nat)
    ensures 64 <= r && r % 64 == 0
  {
    Pow2Splits(6, g.levelBits - 6);
    assert Pow2(6) == 64;
    TimesIsProduct(64, Pow2(g.levelBits - 6));
    Pow2(g.levelBits)
  }

  /** Width in ticks of one window of a level. */
  function Width(g: Geometry, level: nat): (r: nat)
    ensures 1 <= r
  {
    if level == 0 then 1 else
      TimesMono(1, Slots(g), Width(g, level - 1));
      TimesOne(Width(g, level - 1));
      Times(Slots(g), Width(g, level - 1))
  }

  /** Rotation period of a level. */
  function Period(g: Geometry, level: nat): (r: nat)
    ensures 1 <= r
  {
    Width(g, level + 1)
  }

  /** Ticks covered by the whole wheel. */
  function Range(g: Geometry): (r: nat)
    ensures 1 <= r
  {
    Width(g, g.levels)
  }

  /** Slot index of a tick at a level. */
  function Index(g: Geometry, level: nat, tick: nat): (r: nat)
    ensures r < Slots(g)
  {
    Rem(Quot(tick, Width(g, level)), Slots(g))
  }

  function KeyAt(g: Geometry, level: nat, tick: nat): Key {
    Key(level, Index(g, level, tick))
  }

  predicate ValidKey(g: Geometry, k: Key) {
    k.level < g.levels && k.index < Slots(g)
  }

  predicate Aligned(g: Geometry, level: nat, tick: nat) {
    Rem(tick, Width(g, level)) == 0
  }

  /** `tick` is the start of a window that lives in slot `k`. */
  predicate WindowOf(g: Geometry, k: Key, tick: nat) {
    Aligned(g, k.level, tick) && Index(g, k.level, tick) == k.index
  }

  lemma {:induction false} WidthGrows(g: Geometry, lo: nat, hi: nat)
    requires lo <= hi
    ensures Width(g, lo) <= Width(g, hi)
  {
    if lo < hi {
      WidthGrows(g, lo, hi - 1);
      TimesMono(1, Slots(g), Width(g, hi - 1));
      TimesOne(Width(g, hi - 1));
    }
  }

  /** A boundary of a wide level is a boundary of every narrower one. */
  lemma {:induction false} AlignedBelow(g: Geometry, lo: nat, hi: nat, tick: nat)
    requires lo <= hi && Aligned(g, hi, tick)
    ensures Aligned(g, lo, tick)
  {
    if lo < hi {
      var w, q := Width(g, hi - 1), Quot(tick, Width(g, hi));
      MultipleOf(tick, Width(g, hi));
      TimesAssoc(q, Slots(g), w);
      TimesIsMultiple(Times(q, Slots(g)), w);
      AlignedBelow(g, lo, hi - 1, tick);
    }
  }

  // ------------------------------------------------------------- window classes

  /** The tick `j` windows further on, and its slot index. */
  lemma WindowShift(g: Geometry, level: nat, tick: nat, j: nat)
    requires Aligned(g, level, tick)
    ensures Aligned(g, level, tick + Times(j, Width(g, level)))
    ensures Index(g, level, tick + Times(j, Width(g, level))) == Rem(Index(g, level, tick) + j, Slots(g))
  {
    MultipleShift(tick, j, Width(g, level));
    RemAdd(Quot(tick, Width(g, level)), j, Slots(g));
  }

  /** Further on without wrapping around. */
  lemma WindowAhead(g: Geometry, level: nat, tick: nat, j: nat)
    requires Aligned(g, level, tick) && Index(g, level, tick) + j < Slots(g)
    ensures WindowOf(g, Key(level, Index(g, level, tick) + j), tick + Times(j, Width(g, level)))
  {
    WindowShift(g, level, tick, j);
  }

  /** Window starts of one slot recur once per period. */
  lemma WindowPlusPeriod(g: Geometry, k: Key, b: nat)
    requires WindowOf(g, k, b)
    ensures WindowOf(g, k, b + Period(g, k.level))
  {
    var S := Slots(g);
    WindowShift(g, k.level, b, S);
    TimesOne(S);
    QuotRemUnique(k.index + S, S, 1, k.index);
  }

  /** Window starts of the same slot are a whole number of rotations apart. */
  lemma WindowsRecur(g: Geometry, k: Key, a: nat, b: nat) returns (q: nat)
    requires WindowOf(g, k, a) && WindowOf(g, k, b) && a <= b
    ensures b == a + Times(q, Period(g, k.level))
  {
    var w, S := Width(g, k.level), Slots(g);
    var m, n := Quot(a, w), Quot(b, w);
    MultipleOf(a, w);
    MultipleOf(b, w);
    MultiplesOrder(n, m, w);
    QuotRem(m, S);
    QuotRem(n, S);
    MultiplesOrder(Quot(n, S), Quot(m, S), S);
    q := Quot(n, S) - Quot(m, S);
    TimesAdd(Quot(m, S), q, S);
    TimesAdd(m, Times(q, S), w);
    TimesAssoc(q, S, w);
  }

  /** Two different ones are at least a period apart. */
  lemma WindowsApart(g: Geometry, k: Key, a: nat, b: nat)
    requires WindowOf(g, k, a) && WindowOf(g, k, b) && a < b
    ensures a + Period(g, k.level) <= b
  {
    var w, S := Width(g, k.level), Slots(g);
    var m, n := Quot(a, w), Quot(b, w);
    MultipleOf(a, w);
    MultipleOf(b, w);
    MultiplesOrder(m, n, w);
    QuotRem(m, S);
    QuotRem(n, S);
    MultiplesOrder(Quot(m, S), Quot(n, S), S);
    TimesAdd(m, S, w);
    TimesMono(m + S, n, w);
  }

  /** The window of a level that contains a tick. */
  lemma WindowContaining(g: Geometry, level: nat, tick: nat)
    ensures WindowOf(g, KeyAt(g, level, tick), RoundDown(tick, Width(g, level)))
  {
    RoundDownIsMultiple(tick, Width(g, level));
  }

  /** Window start a fresh wheel gives to a slot. */
  function InitialBase(g: Geometry, k: Key, now: nat): nat {
    var start := RoundDown(now, Period(g, k.level)) + Times(k.index, Width(g, k.level));
    if start < now then start + Period(g, k.level) else start
  }

  /** Start-up gives each slot the first of its windows that is not in the past. */
  lemma InitialBaseOk(g: Geometry, k: Key, now: nat)
    requires ValidKey(g, k)
    ensures WindowOf(g, k, InitialBase(g, k, now))
    ensures now <= InitialBase(g, k, now) < now + Period(g, k.level)
  {
    var w, P := Width(g, k.level), Period(g, k.level);
    var r := RoundDown(now, P);
    RoundDownIsMultiple(now, P);
    AlignedBelow(g, k.level, k.level + 1, r);
    RoundBoundaryIndex(g, k.level, r);
    WindowAhead(g, k.level, r, k.index);
    TimesMono(k.index, Slots(g), w);
    var start := r + Times(k.index, w);
    if start < now {
      WindowPlusPeriod(g, k, start);
    }
  }

  /** A period boundary falls on slot 0. */
  lemma RoundBoundaryIndex(g: Geometry, level: nat, r: nat)
    requires Aligned(g, level + 1, r)
    ensures Index(g, level, r) == 0
  {
    var w, S := Width(g, level), Slots(g);
    var q := Quot(r, Period(g, level));
    MultipleOf(r, Period(g, level));
    TimesAssoc(q, S, w);
    TimesIsMultiple(Times(q, S), w);
    TimesIsMultiple(q, S);
  }

  // -------------------------------------------------------------------- routing

  /** Number of the highest set bit. */
  function HighestBit(x: nat): (r: nat)
    requires 1 <= x
    ensures Pow2(r) <= x < Pow2(r + 1)
  {
    if x == 1 then 0 else 1 + HighestBit(x / 2)
  }

  /** The level a numeric distance is routed to. */
  function LevelOf(g: Geometry, distance: nat): nat {
    if distance == 0 then 0 else Quot(HighestBit(distance), g.levelBits)
  }

  lemma {:induction false} WidthIsPow2(g: Geometry, level: nat)
    ensures Width(g, level) == Pow2(Times(level, g.levelBits))
  {
    if level > 0 {
      WidthIsPow2(g, level - 1);
      Pow2Splits(g.levelBits, Times(level - 1, g.levelBits));
    }
  }

  /** The level's width bounds the distance from below and its period from above:
      distances, not differing radix prefixes, choose the level. */
  lemma LevelBounds(g: Geometry, distance: nat)
    ensures distance < Period(g, LevelOf(g, distance))
    ensures LevelOf(g, distance) > 0 ==> Width(g, LevelOf(g, distance)) <= distance
  {
    var l := LevelOf(g, distance);
    WidthIsPow2(g, l);
    WidthIsPow2(g, l + 1);
    if distance > 0 {
      var h := HighestBit(distance);
      QuotRem(h, g.levelBits);
      Pow2Grows(Times(l, g.levelBits), h);
      Pow2Grows(h + 1, Times(l + 1, g.levelBits));
    }
  }

  lemma LevelBelow(g: Geometry, distance: nat, level: nat)
    requires distance < Width(g, level) && 1 <= level
    ensures LevelOf(g, distance) < level
  {
    LevelBounds(g, distance);
    if level <= LevelOf(g, distance) {
      WidthGrows(g, level, LevelOf(g, distance));
    }
  }

  function RouteTick(g: Geometry, hint: nat, deadline: nat): (r: nat)
    requires hint <= deadline
    ensures hint <= r <= deadline
    ensures r < hint + Range(g)
  {
    if deadline - hint < Range(g) then deadline else hint + Range(g) - 1
  }

  function RouteLevel(g: Geometry, hint: nat, deadline: nat): (r: nat)
    requires hint <= deadline
    ensures r < g.levels
  {
    LevelBelow(g, RouteTick(g, hint, deadline) - hint, g.levels);
    LevelOf(g, RouteTick(g, hint, deadline) - hint)
  }

  /** Start of the window a deadline is published into. */
  function RouteBase(g: Geometry, hint: nat, deadline: nat): (r: nat)
    requires hint <= deadline
    ensures r <= deadline
  {
    RoundDown(RouteTick(g, hint, deadline), Width(g, RouteLevel(g, hint, deadline)))
  }

  function RouteKey(g: Geometry, hint: nat, deadline: nat): (r: Key)
    requires hint <= deadline
    ensures ValidKey(g, r)
  {
    KeyAt(g, RouteLevel(g, hint, deadline), RouteTick(g, hint, deadline))
  }

  /** Where routing lands: in a window of the chosen slot that opens at or after
      the hint, strictly after it above level 0, and within one rotation. */
  lemma RouteLands(g: Geometry, hint: nat, deadline: nat)
    requires hint <= deadline
    ensures WindowOf(g, RouteKey(g, hint, deadline), RouteBase(g, hint, deadline))
    ensures hint <= RouteBase(g, hint, deadline)
    ensures RouteBase(g, hint, deadline) < hint + Period(g, RouteLevel(g, hint, deadline))
    ensures RouteLevel(g, hint, deadline) > 0 ==> hint < RouteBase(g, hint, deadline)
    ensures RouteLevel(g, hint, deadline) == 0
            ==> RouteBase(g, hint, deadline) == RouteTick(g, hint, deadline)
  {
    WindowContaining(g, RouteLevel(g, hint, deadline), RouteTick(g, hint, deadline));
    LevelBounds(g, RouteTick(g, hint, deadline) - hint);
  }

  /** A route that misses its window strictly descends a level, once the deadline
      is inside the wheel's range. */
  lemma RerouteDescends(g: Geometry, hint: nat, deadline: nat)
    requires hint <= deadline < hint + Range(g)
    requires RouteLevel(g, hint, deadline) > 0
    ensures hint < RouteBase(g, hint, deadline) <= deadline
    ensures RouteLevel(g, RouteBase(g, hint, deadline), deadline) < RouteLevel(g, hint, deadline)
  {
    RouteLands(g, hint, deadline);
    var base, level := RouteBase(g, hint, deadline), RouteLevel(g, hint, deadline);
    WidthGrows(g, level, g.levels);
    LevelBelow(g, deadline - base, level);
  }

  /** A level-0 route names the deadline's own tick exactly when it was not
      clamped to the wheel's range; with two levels or more it never is. */
  lemma LevelZeroIsExact(g: Geometry, hint: nat, deadline: nat)
    requires hint <= deadline && RouteLevel(g, hint, deadline) == 0
    ensures RouteBase(g, hint, deadline) == deadline <==> deadline - hint < Range(g)
    ensures 2 <= g.levels ==> RouteBase(g, hint, deadline) == deadline
  {
    RouteLands(g, hint, deadline);
    if Range(g) <= deadline - hint && 2 <= g.levels {
      LevelBounds(g, Range(g) - 1);
      WidthGrows(g, 2, g.levels);
      assert Width(g, 1) == Slots(g) by { TimesOne(Slots(g)); }
      TimesMono(2, Slots(g), Slots(g));
    }
  }

  /** Reading the slot a route names.  If all windows below the hint have been
      visited, a different window start can only be a later one: the routed
      window has been drained. */
  lemma MismatchIsDrained(g: Geometry, hint: nat, deadline: nat, base: nat)
    requires hint <= deadline && hint <= base
    requires WindowOf(g, RouteKey(g, hint, deadline), base)
    requires base != RouteBase(g, hint, deadline)
    ensures RouteBase(g, hint, deadline) + Period(g, RouteLevel(g, hint, deadline)) <= base
  {
    RouteLands(g, hint, deadline);
    var k, r := RouteKey(g, hint, deadline), RouteBase(g, hint, deadline);
    if base < r {
      WindowsApart(g, k, base, r);
    } else {
      WindowsApart(g, k, r, base);
    }
  }
}
