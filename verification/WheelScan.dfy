/** The sleep planner: from the occupancy bitmap alone, find the tick by which a
    sleeping loop has to be awake.

    The bitmap is the set of slots whose bit is 1.  `ScanWord` is one iteration
    of the planner's word loop; the concurrent model runs it one word at a time
    against a changing bitmap, `NearestWake` runs the whole loop nest. */
module WheelScan {
  import opened Radix
  import opened Geometry

  /** A wake tick; `Never` stands for the largest 64-bit value. */
  datatype Wake = Never | By(tick: nat)

  /** `t` is strictly earlier than the wake tick. */
  predicate Beats(t: nat, w: Wake) {
    w.Never? || t < w.tick
  }

  /** The wake tick is not later than `t`. */
  predicate NoLater(w: Wake, t: nat) {
    !Beats(t, w)
  }

  function Earlier(t: nat, w: Wake): Wake {
    if Beats(t, w) then By(t) else w
  }

  /** First boundary of a level at or after `from`. */
  function Boundary(g: Geometry, level: nat, from: nat): (r: nat)
    ensures from <= r
  {
    RoundUp(from, Width(g, level))
  }

  /** Windows to skip from the one at `n` to reach slot `index`. */
  function Gap(index: nat, n: nat, slots: nat): (r: nat)
    requires index < slots
    ensures r < slots
  {
    if Rem(n, slots) <= index then index - Rem(n, slots) else index + slots - Rem(n, slots)
  }

  /** First window start of slot `k` at or after `from`. */
  function NextVisit(g: Geometry, k: Key, from: nat): nat
    requires ValidKey(g, k)
  {
    var b := Boundary(g, k.level, from);
    b + Times(Gap(k.index, Quot(b, Width(g, k.level)), Slots(g)), Width(g, k.level))
  }

  lemma GapLands(index: nat, n: nat, slots: nat)
    requires index < slots
    ensures Rem(Rem(n, slots) + Gap(index, n, slots), slots) == index
  {
    var r := Rem(n, slots);
    if r > index {
      QuotRemUnique(index + slots, slots, 1, index) by { TimesOne(slots); }
    }
  }

  lemma NextVisitIsWindow(g: Geometry, k: Key, from: nat)
    requires ValidKey(g, k)
    ensures WindowOf(g, k, NextVisit(g, k, from))
    ensures Boundary(g, k.level, from) <= NextVisit(g, k, from)
            < Boundary(g, k.level, from) + Period(g, k.level)
  {
    var w, b := Width(g, k.level), Boundary(g, k.level, from);
    RoundUpLeast(from, w, b);
    var gap := Gap(k.index, Quot(b, w), Slots(g));
    WindowShift(g, k.level, b, gap);
    GapLands(k.index, Quot(b, w), Slots(g));
    TimesMono(gap, Slots(g), w);
  }

  /** No window start of the slot lies between `from` and its next visit. */
  lemma NextVisitIsLeast(g: Geometry, k: Key, from: nat, visit: nat)
    requires ValidKey(g, k) && WindowOf(g, k, visit) && from <= visit
    ensures NextVisit(g, k, from) <= visit
  {
    NextVisitIsWindow(g, k, from);
    RoundUpLeast(from, Width(g, k.level), visit);
    if visit < NextVisit(g, k, from) {
      WindowsApart(g, k, visit, NextVisit(g, k, from));
    }
  }

  /** A higher level has its first window start no earlier. */
  lemma BoundaryGrows(g: Geometry, from: nat, lo: nat, hi: nat)
    requires lo <= hi
    ensures Boundary(g, lo, from) <= Boundary(g, hi, from)
  {
    var m := Boundary(g, hi, from);
    RoundUpLeast(from, Width(g, hi), m);
    AlignedBelow(g, lo, hi, m);
    RoundUpLeast(from, Width(g, lo), m);
  }

  // -------------------------------------------------------------- one word read

  /** Lowest set bit among slots `lo..hi` of a level, `hi` if none is set. */
  function FirstSet(bits: set<Key>, level: nat, lo: nat, hi: nat): (r: nat)
    requires lo <= hi
    ensures lo <= r <= hi
    ensures forall i :: lo <= i < r ==> Key(level, i) !in bits
    ensures r < hi ==> Key(level, r) in bits
    decreases hi - lo
  {
    if lo == hi || Key(level, lo) in bits then lo else FirstSet(bits, level, lo + 1, hi)
  }

  /** Where the planner stands between two word loads. */
  datatype Scan =
    | Scanning(level: nat, slotIndex: nat, visitTick: nat, remaining: nat, best: Wake)
    | Scanned(best: Wake)

  function EnterLevel(g: Geometry, from: nat, level: nat, best: Wake): (r: Scan)
    requires level <= g.levels
    ensures r.best == best
  {
    if level == g.levels || NoLater(best, Boundary(g, level, from) + 1) then Scanned(best)
    else
      var boundary := Boundary(g, level, from);
      Scanning(level, Index(g, level, boundary), boundary, Slots(g), best)
  }

  /** How many slots the word at a slot index contributes. */
  function WordTake(slotIndex: nat, remaining: nat): (r: nat)
    ensures 1 <= remaining ==> 1 <= r <= remaining
    ensures r <= 64 - slotIndex % 64
  {
    if remaining < 64 - slotIndex % 64 then remaining else 64 - slotIndex % 64
  }

  /** Load one occupancy word and use it. */
  function ScanWord(g: Geometry, from: nat, sc: Scan, bits: set<Key>): Scan
    requires sc.Scanning? && sc.level < g.levels
  {
    var take := WordTake(sc.slotIndex, sc.remaining);
    var first := FirstSet(bits, sc.level, sc.slotIndex, sc.slotIndex + take);
    if first < sc.slotIndex + take then
      var candidate := sc.visitTick + Times(first - sc.slotIndex, Width(g, sc.level)) + 1;
      EnterLevel(g, from, sc.level + 1, Earlier(candidate, sc.best))
    else
      var visit := sc.visitTick + Times(take, Width(g, sc.level));
      if sc.remaining == take || NoLater(sc.best, visit + 1) then EnterLevel(g, from, sc.level + 1, sc.best)
      else Scanning(sc.level, Rem(sc.slotIndex + take, Slots(g)), visit, sc.remaining - take, sc.best)
  }

  ghost predicate PositionOk(g: Geometry, from: nat, level: nat, slotIndex: nat, visitTick: nat, remaining: nat) {
    && level < g.levels
    && remaining <= Slots(g)
    && Aligned(g, level, visitTick)
    && slotIndex == Index(g, level, visitTick)
    && Boundary(g, level, from) <= visitTick
    && visitTick + Times(remaining, Width(g, level)) == Boundary(g, level, from) + Period(g, level)
  }

  ghost predicate ScanOk(g: Geometry, from: nat, sc: Scan) {
    sc.Scanning? ==>
      && PositionOk(g, from, sc.level, sc.slotIndex, sc.visitTick, sc.remaining)
      && 1 <= sc.remaining
      && Beats(sc.visitTick + 1, sc.best)
  }

  /** The wake tick found so far serves slot `k`. */
  ghost predicate Serves(g: Geometry, from: nat, best: Wake, k: Key)
    requires ValidKey(g, k)
  {
    NoLater(best, NextVisit(g, k, from) + 1)
  }

  /** Slot `k` will still be looked at. */
  ghost predicate Ahead(g: Geometry, from: nat, sc: Scan, k: Key)
    requires ValidKey(g, k)
  {
    sc.Scanning? && (sc.level < k.level || (sc.level == k.level && sc.visitTick <= NextVisit(g, k, from)))
  }

  ghost predicate AheadOrServed(g: Geometry, from: nat, sc: Scan, k: Key)
    requires ValidKey(g, k)
  {
    Ahead(g, from, sc, k) || Serves(g, from, sc.best, k)
  }

  lemma EnterLevelOk(g: Geometry, from: nat, level: nat, best: Wake)
    requires level <= g.levels
    ensures ScanOk(g, from, EnterLevel(g, from, level, best))
  {
    RoundUpLeast(from, Width(g, level), 0);
  }

  /** Entering a level puts each slot of it and above it ahead, or the level is
      skipped because nothing there can be earlier. */
  lemma EnterLevelKeeps(g: Geometry, from: nat, level: nat, best: Wake, k: Key)
    requires level <= g.levels && ValidKey(g, k)
    requires level <= k.level || Serves(g, from, best, k)
    ensures AheadOrServed(g, from, EnterLevel(g, from, level, best), k)
  {
    if level <= k.level {
      NextVisitIsWindow(g, k, from);
      BoundaryGrows(g, from, level, k.level);
    }
  }

  lemma WordFits(slotIndex: nat, remaining: nat, slots: nat)
    requires slotIndex < slots && slots % 64 == 0
    ensures slotIndex + WordTake(slotIndex, remaining) <= slots
  {
  }

  /** A window start less than a period after the boundary is the slot's next visit. */
  lemma NextVisitIs(g: Geometry, k: Key, from: nat, visit: nat)
    requires ValidKey(g, k) && WindowOf(g, k, visit)
    requires Boundary(g, k.level, from) <= visit < Boundary(g, k.level, from) + Period(g, k.level)
    ensures NextVisit(g, k, from) == visit
  {
    NextVisitIsLeast(g, k, from, visit);
    NextVisitIsWindow(g, k, from);
    if NextVisit(g, k, from) < visit {
      WindowsApart(g, k, NextVisit(g, k, from), visit);
    }
  }

  /** Ticks of a word: slot `slotIndex + j` is visited `j` windows after the first. */
  lemma WordSlotVisit(g: Geometry, from: nat, level: nat, slotIndex: nat, visitTick: nat, remaining: nat, j: nat)
    requires PositionOk(g, from, level, slotIndex, visitTick, remaining)
    requires j < WordTake(slotIndex, remaining)
    ensures ValidKey(g, Key(level, slotIndex + j))
    ensures NextVisit(g, Key(level, slotIndex + j), from) == visitTick + Times(j, Width(g, level))
  {
    WordFits(slotIndex, remaining, Slots(g));
    SlotVisit(g, from, level, slotIndex, visitTick, remaining, j);
  }

  lemma SlotVisit(g: Geometry, from: nat, level: nat, slotIndex: nat, visitTick: nat, remaining: nat, j: nat)
    requires PositionOk(g, from, level, slotIndex, visitTick, remaining)
    requires j < remaining && slotIndex + j < Slots(g)
    ensures ValidKey(g, Key(level, slotIndex + j))
    ensures NextVisit(g, Key(level, slotIndex + j), from) == visitTick + Times(j, Width(g, level))
  {
    WindowAhead(g, level, visitTick, j);
    TimesMono(j, remaining, Width(g, level));
    NextVisitIs(g, Key(level, slotIndex + j), from, visitTick + Times(j, Width(g, level)));
  }

  /** Conversely, a slot visited within the word's ticks is one of its slots. */
  lemma InWord(g: Geometry, from: nat, level: nat, slotIndex: nat, visitTick: nat, remaining: nat, k: Key)
    requires PositionOk(g, from, level, slotIndex, visitTick, remaining)
    requires ValidKey(g, k) && k.level == level
    requires visitTick <= NextVisit(g, k, from)
             < visitTick + Times(WordTake(slotIndex, remaining), Width(g, level))
    ensures slotIndex <= k.index < slotIndex + WordTake(slotIndex, remaining)
  {
    var w, v := Width(g, level), NextVisit(g, k, from);
    var take := WordTake(slotIndex, remaining);
    NextVisitIsWindow(g, k, from);
    MultipleOf(v, w);
    MultipleOf(visitTick, w);
    MultiplesOrder(Quot(v, w), Quot(visitTick, w), w);
    var j := Quot(v, w) - Quot(visitTick, w);
    TimesAdd(Quot(visitTick, w), j, w);
    MultiplesOrder(j, take, w);
    WindowShift(g, level, visitTick, j);
    WordFits(slotIndex, remaining, Slots(g));
  }

  /** Moving past an empty word. */
  lemma SkipWordOk(g: Geometry, from: nat, level: nat, slotIndex: nat, visitTick: nat, remaining: nat, take: nat)
    requires PositionOk(g, from, level, slotIndex, visitTick, remaining) && take <= remaining
    ensures PositionOk(g, from, level, Rem(slotIndex + take, Slots(g)),
                       visitTick + Times(take, Width(g, level)), remaining - take)
  {
    WindowShift(g, level, visitTick, take);
    TimesAdd(take, remaining - take, Width(g, level));
  }

  /** A word load keeps the planner's position consistent. */
  lemma ScanWordOk(g: Geometry, from: nat, sc: Scan, bits: set<Key>)
    requires ScanOk(g, from, sc) && sc.Scanning?
    ensures ScanOk(g, from, ScanWord(g, from, sc, bits))
  {
    var sc' := ScanWord(g, from, sc, bits);
    if sc' == EnterLevel(g, from, sc.level + 1, sc'.best) {
      EnterLevelOk(g, from, sc.level + 1, sc'.best);
    } else {
      SkipWordOk(g, from, sc.level, sc.slotIndex, sc.visitTick, sc.remaining, WordTake(sc.slotIndex, sc.remaining));
    }
  }

  /** A word load never makes the wake tick later. */
  lemma ScanWordShrinks(g: Geometry, from: nat, sc: Scan, bits: set<Key>, t: nat)
    requires sc.Scanning? && sc.level < g.levels
    ensures NoLater(sc.best, t) ==> NoLater(ScanWord(g, from, sc, bits).best, t)
  {
  }

  /** A set bit of a word is visited no earlier than the word's first set bit. */
  lemma HitBeats(g: Geometry, from: nat, keys: set<Key>,
                 level: nat, slotIndex: nat, visitTick: nat, remaining: nat, first: nat, k: Key)
    requires PositionOk(g, from, level, slotIndex, visitTick, remaining)
    requires slotIndex <= first < slotIndex + WordTake(slotIndex, remaining)
    requires forall i :: slotIndex <= i < first ==> Key(level, i) !in keys
    requires k in keys && ValidKey(g, k) && k.level == level && visitTick <= NextVisit(g, k, from)
    ensures visitTick + Times(first - slotIndex, Width(g, level)) <= NextVisit(g, k, from)
  {
    var take, w := WordTake(slotIndex, remaining), Width(g, level);
    if NextVisit(g, k, from) < visitTick + Times(take, w) {
      InWord(g, from, level, slotIndex, visitTick, remaining, k);
      WordSlotVisit(g, from, level, slotIndex, visitTick, remaining, k.index - slotIndex);
      assert k == Key(level, k.index);
      TimesMono(first - slotIndex, k.index - slotIndex, w);
    } else {
      TimesMono(first - slotIndex, take, w);
    }
  }

  /** A slot of the level being scanned that is still ahead and whose bit is set:
      after the load it is served or still ahead. */
  lemma ScanWordSameLevel(g: Geometry, from: nat, sc: Scan, bits: set<Key>, k: Key)
    requires ScanOk(g, from, sc) && sc.Scanning? && ValidKey(g, k)
    requires k.level == sc.level && sc.visitTick <= NextVisit(g, k, from) && k in bits
    ensures
      var sc' := ScanWord(g, from, sc, bits);
      || Serves(g, from, sc'.best, k)
      || (sc'.Scanning? && sc'.level == sc.level && sc'.visitTick <= NextVisit(g, k, from))
  {
    var take := WordTake(sc.slotIndex, sc.remaining);
    var first := FirstSet(bits, sc.level, sc.slotIndex, sc.slotIndex + take);
    if first < sc.slotIndex + take {
      HitBeats(g, from, bits, sc.level, sc.slotIndex, sc.visitTick, sc.remaining, first, k);
    } else {
      NextVisitIsWindow(g, k, from);
      if NextVisit(g, k, from) < sc.visitTick + Times(take, Width(g, sc.level)) {
        InWord(g, from, sc.level, sc.slotIndex, sc.visitTick, sc.remaining, k);
      }
    }
  }

  /** One word load: a slot that was ahead or served stays so, or its bit was
      clear in the word just read. */
  lemma ScanWordKeeps(g: Geometry, from: nat, sc: Scan, bits: set<Key>, k: Key)
    requires ScanOk(g, from, sc) && sc.Scanning? && ValidKey(g, k)
    requires AheadOrServed(g, from, sc, k) && k in bits
    ensures AheadOrServed(g, from, ScanWord(g, from, sc, bits), k)
  {
    ScanWordShrinks(g, from, sc, bits, NextVisit(g, k, from) + 1);
    if Serves(g, from, ScanWord(g, from, sc, bits).best, k) {
    } else if k.level == sc.level {
      ScanWordSameLevel(g, from, sc, bits, k);
    } else {
      EnterLevelKeeps(g, from, sc.level + 1, ScanWord(g, from, sc, bits).best, k);
    }
  }

  // ------------------------------------------------------------- the whole scan

  ghost predicate ServesAll(g: Geometry, from: nat, best: Wake, keys: set<Key>)
    requires forall k :: k in keys ==> ValidKey(g, k)
  {
    forall k :: k in keys ==> Serves(g, from, best, k)
  }

  /** The wake tick is one past the visit of some occupied slot. */
  ghost predicate Witnessed(g: Geometry, from: nat, best: Wake, keys: set<Key>)
    requires forall k :: k in keys ==> ValidKey(g, k)
  {
    best.By? ==> exists k :: k in keys && best.tick == NextVisit(g, k, from) + 1
  }

  /** Slots of one level are served or not reached yet. */
  ghost predicate LevelSoFar(g: Geometry, from: nat, best: Wake, keys: set<Key>, level: nat, visitTick: nat)
    requires forall k :: k in keys ==> ValidKey(g, k)
  {
    forall k :: k in keys && k.level == level ==>
      Serves(g, from, best, k) || visitTick <= NextVisit(g, k, from)
  }

  ghost predicate LevelsBelow(g: Geometry, from: nat, best: Wake, keys: set<Key>, level: nat)
    requires forall k :: k in keys ==> ValidKey(g, k)
  {
    forall k :: k in keys && k.level < level ==> Serves(g, from, best, k)
  }

  lemma EntersLevel(g: Geometry, from: nat, best: Wake, keys: set<Key>, level: nat)
    requires forall k :: k in keys ==> ValidKey(g, k)
    requires level < g.levels
    ensures LevelSoFar(g, from, best, keys, level, Boundary(g, level, from))
    ensures PositionOk(g, from, level, Index(g, level, Boundary(g, level, from)), Boundary(g, level, from), Slots(g))
  {
    RoundUpLeast(from, Width(g, level), 0);
    forall k | k in keys && k.level == level
      ensures Boundary(g, level, from) <= NextVisit(g, k, from)
    {
      NextVisitIsWindow(g, k, from);
    }
  }

  lemma NothingHigher(g: Geometry, from: nat, best: Wake, keys: set<Key>, level: nat)
    requires forall k :: k in keys ==> ValidKey(g, k)
    requires LevelsBelow(g, from, best, keys, level) && NoLater(best, Boundary(g, level, from) + 1)
    ensures ServesAll(g, from, best, keys)
  {
    forall k | k in keys ensures Serves(g, from, best, k) {
      if level <= k.level {
        NextVisitIsWindow(g, k, from);
        BoundaryGrows(g, from, level, k.level);
      }
    }
  }

  lemma LevelFinished(g: Geometry, from: nat, best: Wake, keys: set<Key>, level: nat, visitTick: nat)
    requires forall k :: k in keys ==> ValidKey(g, k)
    requires LevelsBelow(g, from, best, keys, level) && LevelSoFar(g, from, best, keys, level, visitTick)
    requires visitTick == Boundary(g, level, from) + Period(g, level) || NoLater(best, visitTick + 1)
    ensures LevelsBelow(g, from, best, keys, level + 1)
  {
    forall k | k in keys && k.level < level + 1 ensures Serves(g, from, best, k) {
      NextVisitIsWindow(g, k, from);
    }
  }

  lemma EmptyWord(g: Geometry, from: nat, best: Wake, keys: set<Key>,
                  level: nat, slotIndex: nat, visitTick: nat, remaining: nat)
    requires forall k :: k in keys ==> ValidKey(g, k)
    requires PositionOk(g, from, level, slotIndex, visitTick, remaining)
    requires LevelSoFar(g, from, best, keys, level, visitTick)
    requires forall i :: slotIndex <= i < slotIndex + WordTake(slotIndex, remaining) ==> Key(level, i) !in keys
    ensures LevelSoFar(g, from, best, keys, level,
                       visitTick + Times(WordTake(slotIndex, remaining), Width(g, level)))
  {
    forall k | k in keys && k.level == level && !Serves(g, from, best, k)
      ensures visitTick + Times(WordTake(slotIndex, remaining), Width(g, level)) <= NextVisit(g, k, from)
    {
      if NextVisit(g, k, from) < visitTick + Times(WordTake(slotIndex, remaining), Width(g, level)) {
        InWord(g, from, level, slotIndex, visitTick, remaining, k);
      }
    }
  }

  lemma HitWitnessed(g: Geometry, from: nat, best: Wake, keys: set<Key>,
                     level: nat, slotIndex: nat, visitTick: nat, remaining: nat, first: nat)
    requires forall k :: k in keys ==> ValidKey(g, k)
    requires PositionOk(g, from, level, slotIndex, visitTick, remaining)
    requires slotIndex <= first < slotIndex + WordTake(slotIndex, remaining) && Key(level, first) in keys
    requires Witnessed(g, from, best, keys)
    ensures Witnessed(g, from, Earlier(visitTick + Times(first - slotIndex, Width(g, level)) + 1, best), keys)
  {
    FirstVisit(g, from, level, slotIndex, visitTick, remaining, first);
    VisitWitnessed(g, from, best, keys, Key(level, first));
  }

  lemma FirstVisit(g: Geometry, from: nat, level: nat, slotIndex: nat, visitTick: nat, remaining: nat, first: nat)
    requires PositionOk(g, from, level, slotIndex, visitTick, remaining)
    requires slotIndex <= first < slotIndex + WordTake(slotIndex, remaining)
    ensures ValidKey(g, Key(level, first))
    ensures NextVisit(g, Key(level, first), from) == visitTick + Times(first - slotIndex, Width(g, level))
  {
    WordSlotVisit(g, from, level, slotIndex, visitTick, remaining, first - slotIndex);
  }

  lemma VisitWitnessed(g: Geometry, from: nat, best: Wake, keys: set<Key>, k: Key)
    requires (forall k :: k in keys ==> ValidKey(g, k)) && k in keys && Witnessed(g, from, best, keys)
    ensures Witnessed(g, from, Earlier(NextVisit(g, k, from) + 1, best), keys)
  {
  }

  /** With the hit taken over, every occupied slot up to this level is served. */
  lemma HitFinishesLevel(g: Geometry, from: nat, best: Wake, keys: set<Key>,
                         level: nat, slotIndex: nat, visitTick: nat, remaining: nat, first: nat)
    requires forall k :: k in keys ==> ValidKey(g, k)
    requires PositionOk(g, from, level, slotIndex, visitTick, remaining)
    requires LevelsBelow(g, from, best, keys, level) && LevelSoFar(g, from, best, keys, level, visitTick)
    requires slotIndex <= first < slotIndex + WordTake(slotIndex, remaining) && Key(level, first) in keys
    requires forall i :: slotIndex <= i < first ==> Key(level, i) !in keys
    ensures
      var candidate := visitTick + Times(first - slotIndex, Width(g, level)) + 1;
      LevelsBelow(g, from, Earlier(candidate, best), keys, level + 1)
  {
    var candidate := visitTick + Times(first - slotIndex, Width(g, level)) + 1;
    forall k | k in keys && k.level < level + 1 ensures Serves(g, from, Earlier(candidate, best), k) {
      if k.level == level && !Serves(g, from, best, k) {
        HitBeats(g, from, keys, level, slotIndex, visitTick, remaining, first, k);
      }
    }
  }

  /** Exactness of the planner: the result is one past the earliest visit, at or
      after `from`, of any occupied slot on any level. */
  method NearestWake(g: Geometry, occupancy: set<Key>, from: nat) returns (best: Wake)
    requires forall k :: k in occupancy ==> ValidKey(g, k)
    ensures ServesAll(g, from, best, occupancy)
    ensures Witnessed(g, from, best, occupancy)
    ensures best.Never? <==> occupancy == {}
  {
    best := Never;
    var level: nat := 0;
    while level < g.levels
      invariant level <= g.levels
      invariant LevelsBelow(g, from, best, occupancy, level)
      invariant Witnessed(g, from, best, occupancy)
    {
      if NoLater(best, Boundary(g, level, from) + 1) {
        NothingHigher(g, from, best, occupancy, level);
        break;
      }
      best := ScanLevel(g, occupancy, from, level, best);
      level := level + 1;
    }
    if level == g.levels {
      assert ServesAll(g, from, best, occupancy);
    }
  }

  lemma WordHit(g: Geometry, from: nat, best: Wake, keys: set<Key>, level: nat, slotIndex: nat, visitTick: nat, remaining: nat, first: nat,
                wake: Wake)
    requires forall k :: k in keys ==> ValidKey(g, k)
    requires PositionOk(g, from, level, slotIndex, visitTick, remaining) && Witnessed(g, from, best, keys)
    requires LevelsBelow(g, from, best, keys, level) && LevelSoFar(g, from, best, keys, level, visitTick)
    requires first == FirstSet(keys, level, slotIndex, slotIndex + WordTake(slotIndex, remaining)) < slotIndex + WordTake(slotIndex, remaining)
    requires wake == Earlier(visitTick + Times(first - slotIndex, Width(g, level)) + 1, best)
    ensures LevelsBelow(g, from, wake, keys, level + 1) && Witnessed(g, from, wake, keys)
  {
    HitWitnessed(g, from, best, keys, level, slotIndex, visitTick, remaining, first);
    HitFinishesLevel(g, from, best, keys, level, slotIndex, visitTick, remaining, first);
  }

  lemma WordPassed(g: Geometry, from: nat, best: Wake, keys: set<Key>, level: nat, slotIndex: nat, visitTick: nat, remaining: nat, take: nat)
    requires forall k :: k in keys ==> ValidKey(g, k)
    requires PositionOk(g, from, level, slotIndex, visitTick, remaining) && 1 <= remaining
    requires LevelSoFar(g, from, best, keys, level, visitTick)
    requires take == WordTake(slotIndex, remaining) && FirstSet(keys, level, slotIndex, slotIndex + take) == slotIndex + take
    ensures PositionOk(g, from, level, Rem(slotIndex + take, Slots(g)), visitTick + Times(take, Width(g, level)), remaining - take)
    ensures LevelSoFar(g, from, best, keys, level, visitTick + Times(take, Width(g, level)))
  {
    EmptyWord(g, from, best, keys, level, slotIndex, visitTick, remaining);
    SkipWordOk(g, from, level, slotIndex, visitTick, remaining, take);
  }

  /** One level of the planner: a full circular pass in visit order. */
  method ScanLevel(g: Geometry, occupancy: set<Key>, from: nat, level: nat, before: Wake) returns (best: Wake)
    requires forall k :: k in occupancy ==> ValidKey(g, k)
    requires level < g.levels
    requires LevelsBelow(g, from, before, occupancy, level) && Witnessed(g, from, before, occupancy)
    ensures LevelsBelow(g, from, best, occupancy, level + 1)
    ensures Witnessed(g, from, best, occupancy)
  {
    best := before;
    var width: nat := Width(g, level);
    var visitTick: nat := Boundary(g, level, from);
    var slotIndex: nat := Index(g, level, visitTick);
    var remaining: nat := Slots(g);
    EntersLevel(g, from, best, occupancy, level);
    while remaining > 0
      invariant best == before
      invariant PositionOk(g, from, level, slotIndex, visitTick, remaining)
      invariant LevelSoFar(g, from, before, occupancy, level, visitTick)
      decreases remaining
    {
      if NoLater(before, visitTick + 1) {
        break;
      }
      var take := WordTake(slotIndex, remaining);
      var first := FirstSet(occupancy, level, slotIndex, slotIndex + take);
      if first < slotIndex + take {
        best := Earlier(visitTick + Times(first - slotIndex, width) + 1, before);
        WordHit(g, from, before, occupancy, level, slotIndex, visitTick, remaining, first, best);
        return;
      }
      WordPassed(g, from, before, occupancy, level, slotIndex, visitTick, remaining, take);
      visitTick := visitTick + Times(take, width);
      remaining := remaining - take;
      slotIndex := Rem(slotIndex + take, Slots(g));
    }
    LevelFinished(g, from, before, occupancy, level, visitTick);
  }

  // -------------------------------------------------------- word by word, same result

  /** Word loads until the scan is over, with a bitmap that does not change meanwhile. */
  function ScanAll(g: Geometry, from: nat, sc: Scan, bits: set<Key>): (best: Wake)
    requires ScanOk(g, from, sc)
    decreases if sc.Scanning? then g.levels - sc.level else 0, if sc.Scanning? then sc.remaining else 0
  {
    if sc.Scanned? then sc.best
    else
      ScanWordOk(g, from, sc, bits);
      ScanAll(g, from, ScanWord(g, from, sc, bits), bits)
  }

  lemma ScanWordWitnessed(g: Geometry, from: nat, sc: Scan, bits: set<Key>)
    requires (forall k :: k in bits ==> ValidKey(g, k)) && ScanOk(g, from, sc) && sc.Scanning? && Witnessed(g, from, sc.best, bits)
    ensures Witnessed(g, from, ScanWord(g, from, sc, bits).best, bits)
  {
    var end := sc.slotIndex + WordTake(sc.slotIndex, sc.remaining);
    var first := FirstSet(bits, sc.level, sc.slotIndex, end);
    ScanWordBest(g, from, sc, bits, end, first);
    if first < end { HitWitnessed(g, from, sc.best, bits, sc.level, sc.slotIndex, sc.visitTick, sc.remaining, first); }
  }

  lemma ScanWordBest(g: Geometry, from: nat, sc: Scan, bits: set<Key>, end: nat, first: nat)
    requires sc.Scanning? && sc.level < g.levels && end == sc.slotIndex + WordTake(sc.slotIndex, sc.remaining)
    requires first == FirstSet(bits, sc.level, sc.slotIndex, end)
    ensures ScanWord(g, from, sc, bits).best
         == if first < end then Earlier(sc.visitTick + Times(first - sc.slotIndex, Width(g, sc.level)) + 1, sc.best) else sc.best
  {
  }

  lemma {:induction false} ScanAllExact(g: Geometry, from: nat, sc: Scan, bits: set<Key>)
    requires (forall k :: k in bits ==> ValidKey(g, k)) && ScanOk(g, from, sc) && Witnessed(g, from, sc.best, bits)
    requires forall k :: k in bits ==> AheadOrServed(g, from, sc, k)
    ensures ServesAll(g, from, ScanAll(g, from, sc, bits), bits) && Witnessed(g, from, ScanAll(g, from, sc, bits), bits)
    decreases if sc.Scanning? then g.levels - sc.level else 0, if sc.Scanning? then sc.remaining else 0
  {
    if sc.Scanning? {
      ScanWordOk(g, from, sc, bits);
      ScanWordWitnessed(g, from, sc, bits);
      forall k | k in bits ensures AheadOrServed(g, from, ScanWord(g, from, sc, bits), k) {
        ScanWordKeeps(g, from, sc, bits, k);
      }
      ScanAllExact(g, from, ScanWord(g, from, sc, bits), bits);
    }
  }

  /** The planner that loads one word at a time finds exactly what the loop nest finds, as
      long as the bitmap stays. */
  lemma WordScanExact(g: Geometry, from: nat, bits: set<Key>)
    requires forall k :: k in bits ==> ValidKey(g, k)
    ensures ScanOk(g, from, EnterLevel(g, from, 0, Never))
    ensures var best := ScanAll(g, from, EnterLevel(g, from, 0, Never), bits);
      ServesAll(g, from, best, bits) && Witnessed(g, from, best, bits) && (best.Never? <==> bits == {})
  {
    EnterLevelOk(g, from, 0, Never);
    forall k | k in bits ensures AheadOrServed(g, from, EnterLevel(g, from, 0, Never), k) {
      EnterLevelKeeps(g, from, 0, Never, k);
    }
    ScanAllExact(g, from, EnterLevel(g, from, 0, Never), bits);
  }
}
