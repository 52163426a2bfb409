/** The timer wheel as one thread drives it: a table of slots updated in place,
    proved to behave as a plain collection of links ordered by deadline.

    A chain is the sequence of links hanging off a slot, newest first.  The
    generation-tagged status words of operations are the map `current`: the
    generation under which an operation is still pending. */
module TimerWheel {
  import opened Radix
  import opened Geometry
  import opened WheelScan

  datatype Link = Link(address: nat, op: nat, generation: nat, deadline: nat)

  datatype Slot = Slot(chain: seq<Link>, base: nat)

  /** The operation behind the link is still pending in the link's generation. */
  predicate IsLive(current: map<nat, nat>, l: Link) {
    l.op in current && current[l.op] == l.generation
  }

  /** Links of a chain that are due at `tick`, in chain order. */
  function Due(current: map<nat, nat>, chain: seq<Link>, tick: nat): (r: seq<Link>)
    ensures forall l :: l in r <==> l in chain && IsLive(current, l) && l.deadline <= tick
  {
    if chain == [] then []
    else (if IsLive(current, chain[0]) && chain[0].deadline <= tick then [chain[0]] else [])
         + Due(current, chain[1..], tick)
  }

  lemma {:induction false} DueDistinct(current: map<nat, nat>, chain: seq<Link>, tick: nat)
    requires Distinct(chain)
    ensures Distinct(Due(current, chain, tick))
  {
    if chain != [] { DueDistinct(current, chain[1..], tick); }
  }

  /** Links of a chain that outlive the visit at `tick`. */
  ghost function Staying(current: map<nat, nat>, chain: seq<Link>, tick: nat): (r: set<Link>)
    ensures forall l :: l in r <==> l in chain && IsLive(current, l) && tick < l.deadline
  {
    if chain == [] then {}
    else (if IsLive(current, chain[0]) && tick < chain[0].deadline then {chain[0]} else {})
         + Staying(current, chain[1..], tick)
  }

  /** Handling the rest of a chain turns the log and the live set into these. */
  ghost predicate Ends(current: map<nat, nat>, rest: seq<Link>, tick: nat, fired: seq<Link>, live: set<Link>,
                       doneFired: seq<Link>, doneLive: set<Link>)
  {
    && fired + Due(current, rest, tick) == doneFired
    && live + Staying(current, rest, tick) == doneLive
  }

  lemma EndsStep(current: map<nat, nat>, rest: seq<Link>, tick: nat, fired: seq<Link>, live: set<Link>,
                 doneFired: seq<Link>, doneLive: set<Link>)
    requires rest != [] && Ends(current, rest, tick, fired, live, doneFired, doneLive)
    ensures Ends(current, rest[1..], tick,
                 fired + if IsLive(current, rest[0]) && rest[0].deadline <= tick then [rest[0]] else [],
                 live + if IsLive(current, rest[0]) && tick < rest[0].deadline then {rest[0]} else {},
                 doneFired, doneLive)
  {
    var head := if IsLive(current, rest[0]) && rest[0].deadline <= tick then [rest[0]] else [];
    assert fired + (head + Due(current, rest[1..], tick)) == (fired + head) + Due(current, rest[1..], tick);
  }

  ghost predicate Distinct(s: seq<Link>) {
    forall i, j :: 0 <= i < j < |s| ==> s[i] != s[j]
  }

  ghost predicate SameArm(a: Link, b: Link) {
    a.op == b.op && a.generation == b.generation
  }

  /** No two links stand for the same start of the same operation. */
  ghost predicate OneLinkPerArm(links: set<Link>) {
    forall a, b :: a in links && b in links && SameArm(a, b) ==> a == b
  }

  ghost predicate ByDeadline(s: seq<Link>) {
    forall i, j :: 0 <= i < j < |s| ==> s[i].deadline <= s[j].deadline
  }

  lemma RangeIsWide(g: Geometry)
    ensures 2 <= Range(g)
  {
    WidthGrows(g, 1, g.levels);
    TimesOne(Slots(g));
  }

  /** `due` was taken out of the live links, each once. */
  ghost predicate Taken(before: set<Link>, after: set<Link>, due: seq<Link>) {
    && Distinct(due)
    && (forall l :: l in due ==> l in before)
    && (forall l :: l in after <==> l in before && l !in due)
  }

  lemma TakenTwice(a: set<Link>, b: set<Link>, c: set<Link>, first: seq<Link>, second: seq<Link>)
    requires Taken(a, b, first) && Taken(b, c, second)
    ensures Taken(a, c, first + second)
  {
    forall l ensures l in first + second <==> l in first || l in second {}
    forall i, j | 0 <= i < j < |first + second| ensures (first + second)[i] != (first + second)[j] {
      if i < |first| <= j { assert second[j - |first|] in second; }
    }
  }

  lemma SweptInOrder(before: set<Link>, live: set<Link>, due: seq<Link>, more: seq<Link>, tick: nat)
    requires ByDeadline(due) && Taken(before, live, due)
    requires forall l :: l in due <==> l in before && l.deadline < tick
    requires forall l :: l in more <==> l in live && l.deadline == tick
    ensures ByDeadline(due + more)
    ensures forall l :: l in due + more <==> l in before && l.deadline < tick + 1
  {
    forall l ensures l in due + more <==> l in due || l in more {}
    forall i, j | 0 <= i < j < |due + more| ensures (due + more)[i].deadline <= (due + more)[j].deadline {
      if i < |due| <= j { assert due[i] in due && more[j - |due|] in more; }
      if |due| <= i { assert more[i - |due|] in more && more[j - |due|] in more; }
    }
  }

  class Wheel {
    const g: Geometry
    const slots: array2<Slot>
    var bits: set<Key>
    var cursor: nat
    var current: map<nat, nat>
    var fired: seq<Link>
    /** Which slot each parked link sits in. */
    ghost var home: map<Link, Key>

    ghost predicate Shape()
      reads this
    {
      slots.Length0 == g.levels && slots.Length1 == Slots(g)
    }

    function At(k: Key): Slot
      requires Shape() && ValidKey(g, k)
      reads this, slots
    {
      slots[k.level, k.index]
    }

    /** The slot is open for a window that is not confirmed swept and starts
        within one rotation of `floor`. */
    ghost predicate SlotOpen(k: Key, floor: nat)
      requires Shape() && ValidKey(g, k)
      reads this, slots
    {
      WindowOf(g, k, At(k).base) && cursor <= At(k).base < floor + Period(g, k.level)
    }

    ghost predicate ChainOk(k: Key)
      requires Shape() && ValidKey(g, k)
      reads this, slots
    {
      && Distinct(At(k).chain)
      && (At(k).chain != [] ==> k in bits)
      && forall l :: l in At(k).chain ==> l in home && home[l] == k
    }

    ghost predicate LinkOk(l: Link)
      requires Shape() && l in home
      reads this, slots
    {
      ValidKey(g, home[l]) && l in At(home[l]).chain && At(home[l]).base <= l.deadline
    }

    /** Consistent, with every window below `floor` open at most one rotation
        ahead.  Between sweeps `floor` is the cursor; inside the sweep of a tick
        it is the tick after. */
    ghost predicate Open(floor: nat)
      reads this, slots
    {
      && Shape()
      && cursor <= floor
      && (forall k {:trigger SlotOpen(k, floor)} :: ValidKey(g, k) ==> SlotOpen(k, floor))
      && (forall k {:trigger ChainOk(k)} :: ValidKey(g, k) ==> ChainOk(k))
      && (forall l {:trigger LinkOk(l)} :: l in home ==> LinkOk(l))
      && (forall k {:trigger k in bits} :: k in bits ==> ValidKey(g, k))
      && OneLinkPerArm(home.Keys)
    }

    ghost predicate Valid()
      reads this, slots
    {
      Open(cursor)
    }

    /** The abstract value: parked links whose operation is still pending. */
    ghost function Live(): set<Link>
      reads this
    {
      set l | l in home && IsLive(current, l)
    }

    /** Everything pending lies at or ahead of the cursor. */
    lemma PendingAhead(l: Link)
      requires Valid() && l in home
      ensures cursor <= l.deadline
    {
      assert LinkOk(l) && SlotOpen(home[l], cursor);
    }

    constructor (g: Geometry, now: nat)
      ensures Valid() && fresh(slots) && this.g == g
      ensures cursor == now && home == map[] && fired == [] && current == map[]
    {
      this.g := g;
      var table := new Slot[g.levels, Slots(g)];
      for level := 0 to g.levels
        invariant forall l, i :: 0 <= l < level && 0 <= i < Slots(g) ==> table[l, i] == Slot([], InitialBase(g, Key(l, i), now))
      {
        for index := 0 to Slots(g)
          invariant forall l, i :: 0 <= l < level && 0 <= i < Slots(g) ==> table[l, i] == Slot([], InitialBase(g, Key(l, i), now))
          invariant forall i :: 0 <= i < index ==> table[level, i] == Slot([], InitialBase(g, Key(level, i), now))
        {
          table[level, index] := Slot([], InitialBase(g, Key(level, index), now));
        }
      }
      slots := table;
      bits, cursor, current, fired, home := {}, now, map[], [], map[];
      new;
      forall k | ValidKey(g, k) ensures SlotOpen(k, now) && ChainOk(k) {
        InitialBaseOk(g, k, now);
      }
    }

    /** Push the link onto the slot and mark it occupied. */
    method Publish(k: Key, link: Link, ghost floor: nat)
      requires Open(floor) && ValidKey(g, k)
      requires link !in home && OneLinkPerArm(home.Keys + {link}) && At(k).base <= link.deadline
      modifies this`bits, this`home, slots
      ensures Open(floor) && home == old(home)[link := k]
      ensures forall j :: ValidKey(g, j) ==> At(j).base == old(At(j).base)
    {
      assert SlotOpen(k, floor) && ChainOk(k);
      slots[k.level, k.index] := Slot([link] + slots[k.level, k.index].chain, slots[k.level, k.index].base);
      bits := bits + {k};
      home := home[link := k];
      forall j | ValidKey(g, j) ensures SlotOpen(j, floor) && ChainOk(j) {
        assert old(SlotOpen(j, floor)) && old(ChainOk(j));
      }
      forall l | l in home ensures LinkOk(l) {
        if l != link { assert old(LinkOk(l)); }
      }
      assert home.Keys == old(home.Keys) + {link};
    }

    /** Nothing but the table, the bitmap and `home` moves. */
    twostate predicate OnlyParks()
      reads this
    {
      cursor == old(cursor) && current == old(current) && fired == old(fired)
    }

    /** Can the window a far deadline is clamped to still be open?  Always, unless
        the wheel has a single level and the hint is a whole range behind. */
    predicate HintUsable(deadline: nat, hint: nat, floor: nat) {
      2 <= g.levels || deadline < hint + Range(g) || floor < hint + Range(g)
    }

    /** A miss proves the routed window drained; it is a sweep position at or
        below the cursor, and at level 0 it is the deadline itself. */
    lemma Missed(deadline: nat, hint: nat, floor: nat)
      requires Open(floor) && hint <= cursor && hint <= deadline
      requires At(RouteKey(g, hint, deadline)).base != RouteBase(g, hint, deadline)
      ensures RouteBase(g, hint, deadline) < floor
      ensures RouteLevel(g, hint, deadline) > 0 ==> hint < RouteBase(g, hint, deadline) <= deadline
      ensures RouteLevel(g, hint, deadline) == 0 && HintUsable(deadline, hint, floor) ==> deadline < floor
    {
      var k := RouteKey(g, hint, deadline);
      assert SlotOpen(k, floor);
      RouteLands(g, hint, deadline);
      MismatchIsDrained(g, hint, deadline, At(k).base);
      if RouteLevel(g, hint, deadline) == 0 {
        LevelZeroIsExact(g, hint, deadline);
      }
    }

    /** A hit means the routed window is not confirmed swept. */
    lemma Matched(deadline: nat, hint: nat, floor: nat)
      requires Open(floor) && hint <= cursor && hint <= deadline
      requires At(RouteKey(g, hint, deadline)).base == RouteBase(g, hint, deadline)
      ensures cursor <= deadline
      ensures g.levels == 1 && hint + Range(g) <= deadline ==> cursor < hint + Range(g)
    {
      assert SlotOpen(RouteKey(g, hint, deadline), floor);
    }

    /** Publish the link into the window that covers its deadline, routing from a
        sweep position that may be stale.  The link is accepted exactly when its
        tick is not confirmed swept, except on a single-level wheel whose hint is
        a whole range behind. */
    method Insert(link: Link, hint: nat, ghost floor: nat) returns (ok: bool)
      requires Open(floor) && hint <= cursor <= floor <= cursor + 1
      requires link !in home && OneLinkPerArm(home.Keys + {link})
      requires floor == cursor || link.deadline != cursor
      modifies this`bits, this`home, slots
      ensures Open(floor) && OnlyParks()
      ensures ok ==> cursor <= link.deadline && HintUsable(link.deadline, hint, cursor)
      ensures cursor <= link.deadline && HintUsable(link.deadline, hint, floor) ==> ok
      ensures home.Keys == old(home).Keys + (if ok then {link} else {})
      ensures forall k :: ValidKey(g, k) ==> At(k).base == old(At(k).base)
    {
      var at := hint;
      while true
        invariant hint <= at <= cursor && Open(floor) && home == old(home)
        invariant at != hint ==> at <= link.deadline
        invariant at != hint ==> 2 <= g.levels
        invariant forall k :: ValidKey(g, k) ==> At(k) == old(At(k))
        decreases link.deadline - at
      {
        if link.deadline < at {
          return false;
        }
        var level := RouteLevel(g, at, link.deadline);
        var expectedBase := RouteBase(g, at, link.deadline);
        var k := RouteKey(g, at, link.deadline);
        if At(k).base == expectedBase {
          Matched(link.deadline, at, floor);
          Publish(k, link, floor);
          return true;
        }
        Missed(link.deadline, at, floor);
        if level == 0 {
          return false;
        }
        at := expectedBase;
      }
    }

    /** Nothing the table's consistency reads has moved. */
    twostate lemma Unmoved(floor: nat)
      requires old(Open(floor)) && cursor == old(cursor) && home == old(home) && bits == old(bits)
      requires forall k :: ValidKey(g, k) ==> At(k) == old(At(k))
      ensures Open(floor)
    {
      forall k | ValidKey(g, k) ensures SlotOpen(k, floor) && ChainOk(k) {
        assert old(SlotOpen(k, floor)) && old(ChainOk(k));
      }
      forall l | l in home ensures LinkOk(l) {
        assert old(LinkOk(l));
      }
    }

    /** Take the chain of a slot and open its next rotation. */
    method Reopen(k: Key) returns (chain: seq<Link>)
      requires Open(cursor + 1) && ValidKey(g, k) && At(k).base == cursor
      modifies this`bits, this`home, slots
      ensures Open(cursor + 1) && chain == old(At(k).chain)
      ensures forall l :: l in home <==> l in old(home) && l !in chain
      ensures At(k).base == cursor + Period(g, k.level)
      ensures forall j :: ValidKey(g, j) && j != k ==> At(j).base == old(At(j).base)
    {
      assert SlotOpen(k, cursor + 1) && ChainOk(k);
      chain := At(k).chain;
      bits := bits - {k};
      slots[k.level, k.index] := Slot([], cursor + Period(g, k.level));
      home := home - (set l | l in chain);
      WindowPlusPeriod(g, k, cursor);
      forall j | ValidKey(g, j) ensures SlotOpen(j, cursor + 1) && ChainOk(j) {
        assert old(SlotOpen(j, cursor + 1)) && old(ChainOk(j));
      }
      forall l | l in home ensures LinkOk(l) {
        assert old(LinkOk(l));
      }
    }

    /** Visit the window that starts at the cursor.  Idempotent: a slot already
        open for a later window keeps its links. */
    method Detach(level: nat) returns (chain: seq<Link>)
      requires Open(cursor + 1) && level < g.levels && Aligned(g, level, cursor)
      modifies this`bits, this`home, slots
      ensures Open(cursor + 1)
      ensures Distinct(chain) && forall l :: l in chain ==> l in old(home) && cursor <= l.deadline
      ensures forall l :: l in home <==> l in old(home) && l !in chain
      ensures cursor < At(KeyAt(g, level, cursor)).base
      ensures forall k :: ValidKey(g, k) && k != KeyAt(g, level, cursor) ==> At(k).base == old(At(k).base)
    {
      var k := KeyAt(g, level, cursor);
      assert SlotOpen(k, cursor + 1) && ChainOk(k);
      if At(k).base > cursor {
        if At(k).chain != [] {
          bits := bits + {k};
        }
        Unmoved(cursor + 1);
        return [];
      }
      forall l | l in At(k).chain ensures cursor <= l.deadline {
        assert LinkOk(l);
      }
      chain := Reopen(k);
    }

    /** One link of a detached chain: dropped when its operation is gone, parked
        again when its deadline is ahead, timed out when it is due. */
    method Handle(link: Link)
      requires Open(cursor + 1) && cursor <= link.deadline
      requires link !in home && OneLinkPerArm(home.Keys + {link})
      modifies this`bits, this`home, this`current, this`fired, slots
      ensures Open(cursor + 1)
      ensures fired == old(fired) + if IsLive(old(current), link) && link.deadline <= cursor then [link] else []
      ensures Live() == old(Live()) + if IsLive(old(current), link) && cursor < link.deadline then {link} else {}
      ensures home.Keys <= old(home.Keys) + {link}
      ensures forall l :: !SameArm(l, link) ==> (IsLive(current, l) <==> IsLive(old(current), l))
      ensures forall k :: ValidKey(g, k) ==> At(k).base == old(At(k).base)
    {
      if !IsLive(current, link) {
        return;
      }
      if link.deadline > cursor {
        var ok := Insert(link, cursor, cursor + 1);
        assert HintUsable(link.deadline, cursor, cursor + 1) by { RangeIsWide(g); }
        if ok {
          return;
        }
      }
      current := current - {link.op};
      fired := fired + [link];
      Unmoved(cursor + 1);
    }

    /** The sweeper holds a private chain; `before` is the state of the operations
        when it was detached. */
    ghost predicate Carrying(chain: seq<Link>, arms: set<Link>, before: map<nat, nat>)
      reads this, slots
    {
      && Open(cursor + 1)
      && Distinct(chain) && home.Keys <= arms && OneLinkPerArm(arms)
      && forall l :: l in chain ==>
           l in arms && l !in home && cursor <= l.deadline && (IsLive(current, l) <==> IsLive(before, l))
    }

    method HandleFirst(chain: seq<Link>, ghost arms: set<Link>, ghost before: map<nat, nat>)
      requires chain != [] && Carrying(chain, arms, before)
      modifies this`bits, this`home, this`current, this`fired, slots
      ensures Carrying(chain[1..], arms, before)
      ensures fired == old(fired) + if IsLive(before, chain[0]) && chain[0].deadline <= cursor then [chain[0]] else []
      ensures Live() == old(Live()) + if IsLive(before, chain[0]) && cursor < chain[0].deadline then {chain[0]} else {}
      ensures forall k :: ValidKey(g, k) ==> At(k).base == old(At(k).base)
    {
      Handle(chain[0]);
    }

    /** The chain's due links are timed out in chain order; the rest stay. */
    method ProcessDetached(chain: seq<Link>, ghost arms: set<Link>)
      requires Carrying(chain, arms, current)
      modifies this`bits, this`home, this`current, this`fired, slots
      ensures Open(cursor + 1)
      ensures fired == old(fired) + Due(old(current), chain, cursor)
      ensures Live() == old(Live()) + Staying(old(current), chain, cursor) && home.Keys <= arms
      ensures forall k :: ValidKey(g, k) ==> At(k).base == old(At(k).base)
    {
      var rest := chain;
      ghost var doneFired, doneLive := fired + Due(current, chain, cursor), Live() + Staying(current, chain, cursor);
      while rest != []
        invariant Carrying(rest, arms, old(current))
        invariant Ends(old(current), rest, cursor, fired, Live(), doneFired, doneLive)
        invariant forall k :: ValidKey(g, k) ==> At(k).base == old(At(k).base)
      {
        ghost var firedBefore, liveBefore := fired, Live();
        HandleFirst(rest, arms, old(current));
        EndsStep(old(current), rest, cursor, firedBefore, liveBefore, doneFired, doneLive);
        rest := rest[1..];
      }
    }

    /** One window visit: its due links are timed out, nothing else changes hands. */
    method Visit(level: nat) returns (ghost due: seq<Link>)
      requires Open(cursor + 1) && level < g.levels && Aligned(g, level, cursor)
      modifies this`bits, this`home, this`current, this`fired, slots
      ensures Open(cursor + 1)
      ensures fired == old(fired) + due && Taken(old(Live()), Live(), due) && home.Keys <= old(home.Keys)
      ensures forall l :: l in due ==> l.deadline == cursor
      ensures cursor < At(KeyAt(g, level, cursor)).base
      ensures forall k :: ValidKey(g, k) && k != KeyAt(g, level, cursor) ==> At(k).base == old(At(k).base)
    {
      var chain := Detach(level);
      due := Due(current, chain, cursor);
      DueDistinct(current, chain, cursor);
      ProcessDetached(chain, old(home.Keys));
    }

    /** Every slot of the level, and of those above, is open past the cursor. */
    ghost predicate DrainedFrom(level: nat)
      requires Shape()
      reads this, slots
    {
      forall k :: ValidKey(g, k) && level <= k.level ==> cursor < At(k).base
    }

    twostate lemma LevelDrained(level: nat)
      requires Shape() && Open(cursor + 1) && level < g.levels && cursor == old(cursor)
      requires old(DrainedFrom(level + 1))
      requires Aligned(g, level, cursor) ==> cursor < At(KeyAt(g, level, cursor)).base
      requires forall k :: ValidKey(g, k) && !(Aligned(g, level, cursor) && k == KeyAt(g, level, cursor)) ==>
                 At(k).base == old(At(k).base)
      ensures DrainedFrom(level)
    {
      forall k | ValidKey(g, k) && level <= k.level ensures cursor < At(k).base {
        assert SlotOpen(k, cursor + 1);
      }
    }

    /** Sweeping a tick times out exactly the pending links whose deadline it is. */
    method SweepTick() returns (ghost due: seq<Link>)
      requires Valid()
      modifies this, slots
      ensures Valid() && cursor == old(cursor) + 1
      ensures fired == old(fired) + due && Taken(old(Live()), Live(), due) && home.Keys <= old(home.Keys)
      ensures forall l :: l in due <==> l in old(Live()) && l.deadline == old(cursor)
    {
      due := [];
      Widen();
      var level := g.levels;
      while level > 0
        invariant 0 <= level <= g.levels && Open(cursor + 1) && cursor == old(cursor)
        invariant fired == old(fired) + due && Taken(old(Live()), Live(), due) && home.Keys <= old(home.Keys)
        invariant forall l :: l in due ==> l.deadline == cursor
        invariant DrainedFrom(level)
      {
        level := level - 1;
        label visit:
        if Aligned(g, level, cursor) {
          ghost var liveBefore := Live();
          ghost var more := Visit(level);
          TakenTwice(old(Live()), liveBefore, Live(), due, more);
          due := due + more;
        }
        LevelDrained@visit(level);
      }
      Confirm();
      forall l | l in old(Live()) && l.deadline == old(cursor) ensures l in due {
        if l in Live() { PendingAhead(l); }
      }
    }

    /** Between sweeps the table is also in the shape a sweep works on. */
    lemma Widen()
      requires Valid()
      ensures Open(cursor + 1) && DrainedFrom(g.levels)
    {
      forall k | ValidKey(g, k) ensures SlotOpen(k, cursor + 1) { assert SlotOpen(k, cursor); }
    }

    /** Confirm the tick once every window that starts there is drained. */
    method Confirm()
      requires Open(cursor + 1) && DrainedFrom(0)
      modifies this`cursor
      ensures cursor == old(cursor) + 1 && Valid()
    {
      cursor := cursor + 1;
      forall k | ValidKey(g, k) ensures SlotOpen(k, cursor) && ChainOk(k) {
        assert old(SlotOpen(k, cursor + 1)) && old(ChainOk(k));
      }
      forall l | l in home ensures LinkOk(l) { assert old(LinkOk(l)); }
    }

    /** The wheel against its specification: all pending links with a deadline
        below `now`, and no others, are timed out, in order of deadline. */
    method ProcessTimeoutQueue(now: nat) returns (ghost due: seq<Link>)
      requires Valid()
      modifies this, slots
      ensures Valid() && cursor == if old(cursor) < now then now else old(cursor)
      ensures fired == old(fired) + due && Taken(old(Live()), Live(), due) && ByDeadline(due) && home.Keys <= old(home.Keys)
      ensures forall l :: l in due <==> l in old(Live()) && l.deadline < now
    {
      due := [];
      forall l | l in Live() ensures cursor <= l.deadline { PendingAhead(l); }
      if cursor < now {
        while cursor < now
          invariant Valid() && old(cursor) <= cursor <= now
          invariant fired == old(fired) + due && Taken(old(Live()), Live(), due) && ByDeadline(due) && home.Keys <= old(home.Keys)
          invariant forall l :: l in due <==> l in old(Live()) && l.deadline < cursor
          decreases now - cursor
        {
          ghost var liveBefore, tick := Live(), cursor;
          ghost var more := SweepTick();
          TakenTwice(old(Live()), liveBefore, Live(), due, more);
          SweptInOrder(old(Live()), liveBefore, due, more, tick);
          due := due + more;
        }
      }
    }

    /** Arm the timer of operation `link.op`, just started under `link.generation`. */
    method Arm(link: Link)
      requires Valid()
      requires link !in home && OneLinkPerArm(home.Keys + {link}) && IsLive(current, link)
      modifies this, slots
      ensures Valid() && cursor == old(cursor)
      ensures cursor <= link.deadline ==> Live() == old(Live()) + {link} && fired == old(fired)
      ensures link.deadline < cursor ==> Live() == old(Live()) && fired == old(fired) + [link]
    {
      var ok := Insert(link, cursor, cursor);
      RangeIsWide(g);
      if !ok {
        label refused:
        current := current - {link.op};
        fired := fired + [link];
        Unmoved@refused(cursor);
      }
    }

    /** An operation starts, completes or is recycled: its word moves, its links
        stay where they are until a visit finds them. */
    method SetOperation(op: nat, pending: bool, generation: nat)
      requires Valid()
      modifies this`current
      ensures Valid()
      ensures forall l :: l in Live() <==>
                l in home && if l.op == op then pending && l.generation == generation else IsLive(old(current), l)
    {
      current := if pending then current[op := generation] else current - {op};
      Unmoved(cursor);
    }

    /** How long a loop may sleep: planning from the bitmap alone never oversleeps
        a pending deadline, sleeps forever only over an empty wheel, and wakes no
        earlier than one past the next visit of a marked slot. */
    method PlanSleep() returns (wake: Wake)
      requires Valid()
      ensures forall k :: k in bits ==> ValidKey(g, k)
      ensures ServesAll(g, cursor, wake, bits) && Witnessed(g, cursor, wake, bits)
      ensures wake.Never? <==> bits == {}
      ensures forall l :: l in home ==> NoLater(wake, l.deadline + 1)
      ensures wake.Never? ==> home == map[]
    {
      wake := NearestWake(g, bits, cursor);
      forall l | l in home ensures NoLater(wake, l.deadline + 1) {
        var k := home[l];
        assert LinkOk(l) && ChainOk(k) && SlotOpen(k, cursor);
        NextVisitIsLeast(g, k, cursor, At(k).base);
        assert Serves(g, cursor, wake, k);
      }
    }
  }

  /** On a single-level wheel an insert whose hint is a whole range old is refused although
      its deadline is still ahead; with the current cursor as the hint it is accepted. */
  method RefusesAhead(g: Geometry, link: Link) returns (wheel: Wheel, stale: bool, current: bool)
    requires g.levels == 1 && Range(g) < link.deadline
    ensures fresh(wheel) && wheel.Valid() && wheel.g == g && wheel.cursor == Range(g) < link.deadline
    ensures !stale && current
  {
    wheel := new Wheel(g, 0);
    ghost var due := wheel.ProcessTimeoutQueue(Range(g));
    stale := wheel.Insert(link, 0, wheel.cursor);
    RangeIsWide(g);
    current := wheel.Insert(link, wheel.cursor, wheel.cursor);
  }
}
