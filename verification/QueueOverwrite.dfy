/** Why the first ring needs two cells.  In a ring of one cell the sequence number of a
    cell that was just published is the next position, so the next push takes the cell
    for a free one and overwrites a value that no pop has seen. */
module QueueOverwrite {
  import opened Radix
  import opened QueueMachine
  import opened QueueInvariant
  import opened QueueTheorems

  /** One thread, one push after the other; only the first ring is used. */
  ghost function With(c: Config, ring: seq<Cell>, enqueue: nat, claims: seq<Token>, act: Act,
                      pusher: map<Token, Tid>, claimedAt: map<Token, Place>): State
  {
    State(seq(c.partitions, i => if i == 0 then Part(ring, enqueue, 0, claims) else Part([], 0, 0, [])),
          0, 0, map[0 := act], pusher, claimedAt, [], [])
  }

  const ONE: map<Token, Tid> := map[7 := 0]
  const TWO: map<Token, Tid> := map[7 := 0, 8 := 0]

  const FIRST: map<Token, Place> := map[7 := Place(0, 0)]
  const BOTH: map<Token, Place> := map[7 := Place(0, 0), 8 := Place(0, 1)]

  /** Some run ends in this state. */
  ghost predicate Reachable(c: Config, s: State) {
    exists run: seq<State> :: Run(c, run) && run[|run| - 1] == s
  }

  lemma Extend(c: Config, s: State, s': State)
    requires Reachable(c, s) && Next(c, s, s') && Roomy(c, s')
    ensures Reachable(c, s')
  {
    var run: seq<State> :| Run(c, run) && run[|run| - 1] == s;
    var longer := run + [s'];
    forall i: nat | i + 1 < |longer| ensures StepAt(c, longer, i) {
      if i + 1 < |run| { assert StepAt(c, run, i); }
    }
    assert Run(c, longer) && longer[|longer| - 1] == s';
  }

  lemma OneCell(c: Config, pos: nat)
    requires c.log2 == 0 && pos <= 1
    ensures Size(c, 0) == 1 && Slot(c, 0, pos) == 0 && FreshRing(1) == [Cell(0, 0, 0, Free)]
  {
  }

  /** The two kinds of steps of the thread: its own record, and the first ring. */
  lemma ActMoves(c: Config, ring: seq<Cell>, enqueue: nat, claims: seq<Token>, a: Act, b: Act,
                 pusher: map<Token, Tid>, claimedAt: map<Token, Place>)
    ensures SetAct(With(c, ring, enqueue, claims, a, pusher, claimedAt), 0, b)
         == With(c, ring, enqueue, claims, b, pusher, claimedAt)
  {
    assert map[0 := a][0 := b] == map[0 := b];
  }

  lemma RingMoves(c: Config, part: Part, next: Part, a: Act, b: Act, pusher: map<Token, Tid>, claimedAt: map<Token, Place>)
    requires part.dequeue == next.dequeue == 0
    ensures var s := With(c, part.ring, part.enqueue, part.claims, a, pusher, claimedAt);
      && IsPart(s, 0) && s.parts[0] == part
      && SetAct(SetPart(s, 0, next), 0, b) == With(c, next.ring, next.enqueue, next.claims, b, pusher, claimedAt)
  {
    var s := With(c, part.ring, part.enqueue, part.claims, a, pusher, claimedAt);
    var t := With(c, next.ring, next.enqueue, next.claims, b, pusher, claimedAt);
    assert s.parts[0 := next] == t.parts;
    assert map[0 := a][0 := b] == map[0 := b];
  }

  lemma Goes(c: Config, s: State, s': State, v: Token, pos: nat)
    requires Reachable(c, s) && PushMoves(c, s, s', 0, v, 0, pos) && Roomy(c, s')
    ensures Reachable(c, s')
  {
    Extend(c, s, s');
  }

  lemma HasRoom(c: Config, ring: seq<Cell>, enqueue: nat, claims: seq<Token>, act: Act,
                pusher: map<Token, Tid>, claimedAt: map<Token, Place>)
    requires Small(c) && |claims| <= 2
    ensures Roomy(c, With(c, ring, enqueue, claims, act, pusher, claimedAt))
  {
    forall i: nat | i < c.partitions ensures Size(c, i) < SEALED - 2 { SizesFit(c, i); }
  }

  ghost predicate Small(c: Config) { c.log2 == 0 && c.partitions <= 32 }

  /** A push from its start up to the look at the ring. */
  lemma Starts(c: Config, ring: seq<Cell>, enqueue: nat, claims: seq<Token>, v: Token,
               before: map<Token, Tid>, pusher: map<Token, Tid>, claimedAt: map<Token, Place>)
    requires Small(c) && |claims| <= 2 && v !in before && pusher == before[v := 0]
    requires Reachable(c, With(c, ring, enqueue, claims, Idle, before, claimedAt))
    ensures Reachable(c, With(c, ring, enqueue, claims, if ring == [] then PushInstall(v, 0) else PushLoad(v, 0), pusher, claimedAt))
  {
    Begins(c, ring, enqueue, claims, v, before, pusher, claimedAt);
    var s2 := With(c, ring, enqueue, claims, PushInit(v, 0), pusher, claimedAt);
    var found := if ring == [] then PushInstall(v, 0) else PushLoad(v, 0);
    ActMoves(c, ring, enqueue, claims, PushInit(v, 0), found, pusher, claimedAt);
    HasRoom(c, ring, enqueue, claims, found, pusher, claimedAt);
    assert PushSeeRing(c, s2, With(c, ring, enqueue, claims, found, pusher, claimedAt), 0, v, 0);
    Goes(c, s2, With(c, ring, enqueue, claims, found, pusher, claimedAt), v, 0);
  }

  lemma Begins(c: Config, ring: seq<Cell>, enqueue: nat, claims: seq<Token>, v: Token,
               before: map<Token, Tid>, pusher: map<Token, Tid>, claimedAt: map<Token, Place>)
    requires Small(c) && |claims| <= 2 && v !in before && pusher == before[v := 0]
    requires Reachable(c, With(c, ring, enqueue, claims, Idle, before, claimedAt))
    ensures Reachable(c, With(c, ring, enqueue, claims, PushInit(v, 0), pusher, claimedAt))
  {
    var s0 := With(c, ring, enqueue, claims, Idle, before, claimedAt);
    var s1 := With(c, ring, enqueue, claims, PushStart(v), pusher, claimedAt);
    var s2 := With(c, ring, enqueue, claims, PushInit(v, 0), pusher, claimedAt);
    ActMoves(c, ring, enqueue, claims, Idle, PushStart(v), before, claimedAt);
    HasRoom(c, ring, enqueue, claims, PushStart(v), pusher, claimedAt);
    assert PushBegin(c, s0, s1, 0, v);
    Goes(c, s0, s1, v, 0);
    ActMoves(c, ring, enqueue, claims, PushStart(v), PushInit(v, 0), pusher, claimedAt);
    HasRoom(c, ring, enqueue, claims, PushInit(v, 0), pusher, claimedAt);
    assert PushSelect(c, s1, s2, 0, v);
    Goes(c, s1, s2, v, 0);
  }

  lemma Installs(c: Config, v: Token, pusher: map<Token, Tid>)
    requires Small(c) && Reachable(c, With(c, [], 0, [], PushInstall(v, 0), pusher, map[]))
    ensures Reachable(c, With(c, [Cell(0, 0, 0, Free)], 0, [], PushLoad(v, 0), pusher, map[]))
  {
    var s, s' := With(c, [], 0, [], PushInstall(v, 0), pusher, map[]), With(c, [Cell(0, 0, 0, Free)], 0, [], PushLoad(v, 0), pusher, map[]);
    OneCell(c, 0);
    RingMoves(c, Part([], 0, 0, []), Part([Cell(0, 0, 0, Free)], 0, 0, []), PushInstall(v, 0), PushLoad(v, 0), pusher, map[]);
    HasRoom(c, [Cell(0, 0, 0, Free)], 0, [], PushLoad(v, 0), pusher, map[]);
    assert PushInstalls(c, s, s', 0, v, 0);
    Goes(c, s, s', v, 0);
  }

  /** The cell's number is the position: the push goes on to claim it. */
  lemma Tests(c: Config, cell: Cell, pos: nat, claims: seq<Token>, v: Token, pusher: map<Token, Tid>, claimedAt: map<Token, Place>)
    requires Small(c) && |claims| <= 2 && pos <= 1 && cell.sequence == pos
    requires Reachable(c, With(c, [cell], pos, claims, PushLoad(v, 0), pusher, claimedAt))
    ensures Reachable(c, With(c, [cell], pos, claims, PushClaim(v, 0, pos), pusher, claimedAt))
  {
    OneCell(c, pos);
    var s := With(c, [cell], pos, claims, PushLoad(v, 0), pusher, claimedAt);
    var s' := With(c, [cell], pos, claims, PushTest(v, 0, pos), pusher, claimedAt);
    var s'' := With(c, [cell], pos, claims, PushClaim(v, 0, pos), pusher, claimedAt);
    ActMoves(c, [cell], pos, claims, PushLoad(v, 0), PushTest(v, 0, pos), pusher, claimedAt);
    HasRoom(c, [cell], pos, claims, PushTest(v, 0, pos), pusher, claimedAt);
    assert PushLoads(c, s, s', 0, v, 0);
    Goes(c, s, s', v, pos);
    ActMoves(c, [cell], pos, claims, PushTest(v, 0, pos), PushClaim(v, 0, pos), pusher, claimedAt);
    HasRoom(c, [cell], pos, claims, PushClaim(v, 0, pos), pusher, claimedAt);
    assert PushTests(c, s', s'', 0, v, 0, pos);
    Goes(c, s', s'', v, pos);
  }

  lemma Claims(c: Config, cell: Cell, pos: nat, claims: seq<Token>, v: Token,
               pusher: map<Token, Tid>, before: map<Token, Place>, after: map<Token, Place>)
    requires Small(c) && |claims| <= 1 && pos <= 1 && after == before[v := Place(0, pos)]
    requires Reachable(c, With(c, [cell], pos, claims, PushClaim(v, 0, pos), pusher, before))
    ensures Reachable(c, With(c, [cell.(phase := Writing(0))], pos + 1, claims + [v], PushStore(v, 0, pos), pusher, after))
  {
    OneCell(c, pos);
    var s := With(c, [cell], pos, claims, PushClaim(v, 0, pos), pusher, before);
    var busy := cell.(phase := Writing(0));
    RingMoves(c, Part([cell], pos, 0, claims), Part([busy], pos + 1, 0, claims + [v]), PushClaim(v, 0, pos), PushStore(v, 0, pos), pusher, before);
    var claimed := SetPart(s, 0, s.parts[0].(enqueue := pos + 1, claims := claims + [v]));
    assert [cell][0 := busy] == [busy];
    assert SetCell(c, claimed, 0, pos, busy) == SetPart(s, 0, Part([busy], pos + 1, 0, claims + [v]));
    var s' := With(c, [busy], pos + 1, claims + [v], PushStore(v, 0, pos), pusher, after);
    HasRoom(c, [busy], pos + 1, claims + [v], PushStore(v, 0, pos), pusher, after);
    assert PushClaims(c, s, s', 0, v, 0, pos);
    Goes(c, s, s', v, pos);
  }

  lemma Writes(c: Config, cell: Cell, pos: nat, claims: seq<Token>, v: Token, pusher: map<Token, Tid>, claimedAt: map<Token, Place>)
    requires Small(c) && |claims| <= 2 && pos <= 1
    requires Reachable(c, With(c, [cell], pos + 1, claims, PushStore(v, 0, pos), pusher, claimedAt))
    ensures Reachable(c, With(c, [cell.(data := v, sequence := pos + 1, phase := Ready)], pos + 1, claims, Idle, pusher, claimedAt))
  {
    OneCell(c, pos);
    var s := With(c, [cell], pos + 1, claims, PushStore(v, 0, pos), pusher, claimedAt);
    var stored, ready := cell.(data := v), cell.(data := v, sequence := pos + 1, phase := Ready);
    assert [cell][0 := stored] == [stored] && [stored][0 := ready] == [ready];
    var p := With(c, [stored], pos + 1, claims, PushPublish(v, 0, pos), pusher, claimedAt);
    RingMoves(c, Part([cell], pos + 1, 0, claims), Part([stored], pos + 1, 0, claims), PushStore(v, 0, pos), PushPublish(v, 0, pos), pusher, claimedAt);
    HasRoom(c, [stored], pos + 1, claims, PushPublish(v, 0, pos), pusher, claimedAt);
    assert PushStores(c, s, p, 0, v, 0, pos);
    Goes(c, s, p, v, pos);
    RingMoves(c, Part([stored], pos + 1, 0, claims), Part([ready], pos + 1, 0, claims), PushPublish(v, 0, pos), Idle, pusher, claimedAt);
    HasRoom(c, [ready], pos + 1, claims, Idle, pusher, claimedAt);
    assert PushPublishes(c, p, With(c, [ready], pos + 1, claims, Idle, pusher, claimedAt), 0, v, 0, pos);
    Goes(c, p, With(c, [ready], pos + 1, claims, Idle, pusher, claimedAt), v, pos);
  }

  /** From a ring whose cell carries the position's number, a whole push. */
  lemma WholePush(c: Config, cell: Cell, pos: nat, claims: seq<Token>, v: Token, ready: Cell, more: seq<Token>,
                  pusher: map<Token, Tid>, before: map<Token, Place>, after: map<Token, Place>)
    requires Small(c) && |claims| <= 1 && pos <= 1 && cell.sequence == pos && after == before[v := Place(0, pos)]
    requires ready == Cell(v, pos + 1, cell.turn, Ready) && more == claims + [v]
    requires Reachable(c, With(c, [cell], pos, claims, PushLoad(v, 0), pusher, before))
    ensures Reachable(c, With(c, [ready], pos + 1, more, Idle, pusher, after))
  {
    Tests(c, cell, pos, claims, v, pusher, before);
    Claims(c, cell, pos, claims, v, pusher, before, after);
    Writes(c, cell.(phase := Writing(0)), pos, more, v, pusher, after);
  }

  lemma Maps()
    ensures map[][7 := 0] == ONE && ONE[8 := 0] == TWO && map[][7 := Place(0, 0)] == FIRST && FIRST[8 := Place(0, 1)] == BOTH
  {
  }

  lemma {:induction false} SizesFit(c: Config, i: nat)
    requires c.log2 == 0 && i < 32
    ensures Size(c, i) < SEALED - 2
  {
    Pow2Grows(i, 32);
    HalfWord();
    Pow2Splits(16, 16);
    TimesIsProduct(65536, 65536);
  }

  lemma HalfWord()
    ensures Pow2(16) == 65536
  {
    assert Pow2(8) == 256;
    Pow2Splits(8, 8);
    TimesIsProduct(256, 256);
  }

  lemma InitReachable(c: Config)
    requires Small(c)
    ensures Reachable(c, With(c, [], 0, [], Idle, map[], map[]))
  {
    var s := With(c, [], 0, [], Idle, map[], map[]);
    HasRoom(c, [], 0, [], Idle, map[], map[]);
    assert s.parts == seq(c.partitions, i => Part([], 0, 0, []));
    var run := [s];
    assert Run(c, run) && run[|run| - 1] == s;
  }

  lemma FirstPush(c: Config, v: Token, cell: Cell, ready: Cell, claims: seq<Token>, pusher: map<Token, Tid>, claimedAt: map<Token, Place>)
    requires Small(c) && cell == Cell(0, 0, 0, Free) && ready == Cell(v, 1, 0, Ready) && claims == [v]
    requires pusher == map[][v := 0] && claimedAt == map[][v := Place(0, 0)]
    ensures Reachable(c, With(c, [ready], 1, claims, Idle, pusher, claimedAt))
  {
    Opens(c, v, cell, pusher);
    WholePush(c, cell, 0, [], v, ready, claims, pusher, map[], claimedAt);
  }

  lemma Opens(c: Config, v: Token, cell: Cell, pusher: map<Token, Tid>)
    requires Small(c) && cell == Cell(0, 0, 0, Free) && pusher == map[][v := 0]
    ensures Reachable(c, With(c, [cell], 0, [], PushLoad(v, 0), pusher, map[]))
  {
    InitReachable(c);
    Starts(c, [], 0, [], v, map[], pusher, map[]);
    Installs(c, v, pusher);
  }

  lemma SecondPush(c: Config, v: Token, cell: Cell, ready: Cell, claims: seq<Token>, more: seq<Token>,
                   before: map<Token, Tid>, pusher: map<Token, Tid>, claimed: map<Token, Place>, claimedAt: map<Token, Place>)
    requires Small(c) && cell.sequence == 1 && ready == Cell(v, 2, cell.turn, Ready) && |claims| <= 1 && more == claims + [v]
    requires v !in before && pusher == before[v := 0] && claimedAt == claimed[v := Place(0, 1)]
    requires Reachable(c, With(c, [cell], 1, claims, Idle, before, claimed))
    ensures Reachable(c, With(c, [ready], 2, more, Idle, pusher, claimedAt))
  {
    Starts(c, [cell], 1, claims, v, before, pusher, claimed);
    WholePush(c, cell, 1, claims, v, ready, more, pusher, claimed, claimedAt);
  }

  /** Push 7, then push 8: both are done, nothing was popped, and 7 is gone. */
  ghost function Overwritten(c: Config): State {
    With(c, [Cell(8, 2, 0, Ready)], 2, [7, 8], Idle, TWO, BOTH)
  }

  lemma Overwrites(c: Config)
    requires Small(c)
    ensures var s := Overwritten(c);
      Reachable(c, s) && AtRest(s) && 7 in s.pusher && s.popped == [] && !Accounted(c, s, 7)
  {
    Maps();
    FirstPush(c, 7, Cell(0, 0, 0, Free), Cell(7, 1, 0, Ready), [7], ONE, FIRST);
    SecondPush(c, 8, Cell(7, 1, 0, Ready), Cell(8, 2, 0, Ready), [7], [7, 8], ONE, TWO, FIRST, BOTH);
    OneCell(c, 0);
  }

  ghost predicate NeverLoses(c: Config) {
    forall run: seq<State>, i: nat, v: Token ::
      Run(c, run) && i < |run| && v in run[i].pusher && AtRest(run[i]) ==> Accounted(c, run[i], v)
  }

  /** The queue loses nothing if and only if its first ring has two cells or more. */
  lemma NothingLostExact(c: Config)
    requires c.partitions <= 32
    ensures NeverLoses(c) <==> Wide(c)
  {
    if Wide(c) {
      forall run: seq<State>, i: nat, v: Token | Run(c, run) && i < |run| && v in run[i].pusher && AtRest(run[i])
        ensures Accounted(c, run[i], v)
      {
        NothingLost(c, run, i, v);
      }
    } else {
      Overwrites(c);
      var run: seq<State> :| Run(c, run) && run[|run| - 1] == Overwritten(c);
      assert !Accounted(c, run[|run| - 1], 7);
    }
  }
}
