/** What the concurrent timer wheel promises, for every run of the machine. */
module WheelTheorems {
  import opened Geometry
  import opened WheelMachine
  import opened WheelInvariant
  import opened WheelFrame
  import opened WheelInsert
  import opened WheelSweep
  import opened WheelSleep

  // ------------------------------------------------------------- the first state

  lemma InitOk(c: Config, s: State)
    requires Init(c, s)
    ensures Inv(c, s)
  {
    forall k | ValidKey(c.g, k) ensures SlotOk(c, s, k) && ChainOk(c, s, k) && BitOk(c, s, k) {
      InitialBaseOk(c.g, k, s.cursor);
    }
  }

  // ---------------------------------------------------------------- environment

  /** Time passes and operation words move under the wheel's feet. */
  lemma EnvironmentThreads(c: Config, s: State, s': State)
    requires ThreadsOk(c, s) && s' == s.(clock := s'.clock, ops := s'.ops) && s.clock <= s'.clock
    ensures ThreadsOk(c, s')
  {
    forall u | u in s'.threads ensures InsOk(c, s', u) && SweepOk(c, s', u) && SleepOk(c, s', u) {
      assert Rely(c, s, s', u + 1);
      InsStable(c, s, s', u + 1, u);
      SweepStable(c, s, s', u + 1, u);
      SleepStable(c, s, s', u + 1, u);
    }
  }

  lemma EnvironmentKeeps(c: Config, s: State, s': State)
    requires Inv(c, s) && s' == s.(clock := s'.clock, ops := s'.ops) && s.clock <= s'.clock && LogOk(c, s')
    ensures Inv(c, s') && Tame(s, s')
  {
    EnvironmentThreads(c, s, s');
    SlotsKept(c, s, s');
    ChainsKept(c, s, s');
    PubsKept(c, s, s', 0);
    BitsKept(c, s, s', 0);
    CoversKept(c, s, s', 0);
  }

  // ----------------------------------------------------------------------- runs

  lemma MovesKeep(c: Config, s: State, s': State, t: Tid)
    requires Inv(c, s) && Moves(c, s, s', t)
    ensures Inv(c, s') && Tame(s, s')
  {
    if InsertLocalMoves(c, s, s', t) { InsertLocalMovesKeep(c, s, s', t); }
    else if InsertSharedMoves(c, s, s', t) { InsertSharedMovesKeep(c, s, s', t); }
    else if SweepLocalMoves(c, s, s', t) { SweepLocalMovesKeep(c, s, s', t); }
    else if SweepSharedMoves(c, s, s', t) { SweepSharedMovesKeep(c, s, s', t); }
    else { SleepMovesKeep(c, s, s', t); }
  }

  lemma OutsideKeeps(c: Config, s: State, s': State)
    requires Inv(c, s) && (ClockTick(c, s, s') || exists op: nat :: OpChange(c, s, s', op))
    ensures Inv(c, s') && Tame(s, s')
  {
    EnvironmentKeeps(c, s, s');
  }

  lemma NextKeeps(c: Config, s: State, s': State)
    requires Inv(c, s) && Next(c, s, s')
    ensures Inv(c, s') && Tame(s, s')
  {
    if t: Tid :| Moves(c, s, s', t) {
      MovesKeep(c, s, s', t);
    } else {
      OutsideKeeps(c, s, s');
    }
  }

  /** Every state of every run satisfies the invariant. */
  lemma {:induction false} RunInvariant(c: Config, run: seq<State>, i: nat)
    requires Run(c, run) && i < |run|
    ensures Inv(c, run[i])
  {
    if i == 0 {
      InitOk(c, run[0]);
    } else {
      RunInvariant(c, run, i - 1);
      assert StepAt(c, run, i - 1);
      NextKeeps(c, run[i - 1], run[i]);
    }
  }

  // ------------------------------------------------------------ no lost wake-up

  /** Loop `j` is in the kernel wait with a horizon that would miss the deadline. */
  ghost predicate Oversleeps(s: State, j: nat, deadline: nat) {
    j in s.threads && j < |s.wake| && s.threads[j].sleep.Asleep? && !Covers(s.wake[j], deadline)
  }

  /** Main theorem: in no run is every entered loop asleep past `deadline + 1` of a
      parked link whose insert has returned, unless the doorbell is pending. */
  lemma NoLostWakeup(c: Config, run: seq<State>, i: nat, p: Pub)
    requires Run(c, run) && i < |run|
    requires p in run[i].pubs && run[i].pubs[p].place.Parked? && run[i].pubs[p].stage.Returned?
    requires exists j: nat :: j < c.loops && !IsAbsent(run[i], j)
    requires forall j: nat :: j < c.loops ==> IsAbsent(run[i], j) || Oversleeps(run[i], j, run[i].pubs[p].link.deadline)
    ensures run[i].bell
  {
    RunInvariant(c, run, i);
    var s := run[i];
    assert CoverOk(c, s, p);
    forall j: nat | j < c.loops ensures !Covered(c, s, p, j) {
      assert IsAbsent(s, j) || Oversleeps(s, j, s.pubs[p].link.deadline);
    }
  }

  // ------------------------------------------------------------------ the bitmap

  /** In every reachable state a chain in a slot whose bit is clear has a publisher
      that has not set its bit yet, or a visitor between its clear and the drain
      or repair that resolves it. */
  lemma BitlessChain(c: Config, run: seq<State>, i: nat, k: Key)
    requires Run(c, run) && i < |run|
    requires k in run[i].slots && run[i].slots[k].chain != [] && k !in run[i].bits
    ensures || (exists t, p :: Inserts(run[i], t) && run[i].threads[t].ins.step == Marking(p) && p in run[i].slots[k].chain)
            || (exists t :: Unresolved(c, run[i], t, k))
  {
    RunInvariant(c, run, i);
    var s := run[i];
    var p := s.slots[k].chain[0];
    assert ChainOk(c, s, k) && BitOk(c, s, k);
    assert CoverOk(c, s, p);
    if s.pubs[p].stage.Unmarked? {
      assert Inserts(s, s.pubs[p].publisher);
    } else {
      assert Unresolved(c, s, s.clearer[k], k);
    }
  }

  /** When no thread is publishing or visiting, the bitmap misses no chain. */
  lemma QuiescentBitmap(c: Config, run: seq<State>, i: nat, k: Key)
    requires Run(c, run) && i < |run|
    requires forall t :: t in run[i].threads ==> !run[i].threads[t].ins.Inserting? && !run[i].threads[t].sweep.Visiting?
    requires k in run[i].slots && run[i].slots[k].chain != []
    ensures k in run[i].bits
  {
    if k !in run[i].bits {
      BitlessChain(c, run, i, k);
    }
  }

  // ---------------------------------------------------------- each link, one place

  lemma RunStep(c: Config, run: seq<State>, i: nat, p: Pub)
    requires Run(c, run) && i + 1 < |run|
    ensures PubMoves(run[i], run[i + 1], p)
    ensures run[i + 1].cursor == run[i].cursor || run[i + 1].cursor == run[i].cursor + 1
  {
    RunInvariant(c, run, i);
    assert StepAt(c, run, i);
    NextKeeps(c, run[i], run[i + 1]);
  }

  /** Over a whole run: a detached publication never hangs off a slot again, never
      changes hands, and a consumed one stays consumed.  So each publication is in
      exactly one detached chain. */
  lemma {:induction false} DetachedOnce(c: Config, run: seq<State>, i: nat, j: nat, p: Pub)
    requires Run(c, run) && i <= j < |run| && p in run[i].pubs
    ensures p in run[j].pubs && run[j].pubs[p].link == run[i].pubs[p].link
    ensures var a, b := run[i].pubs[p].place, run[j].pubs[p].place;
      && (b.Parked? ==> a.Parked?)
      && (a.Held? ==> b == a || b.Done?)
      && (a.Done? ==> b.Done?)
  {
    if i < j {
      DetachedOnce(c, run, i, j - 1, p);
      RunStep(c, run, j - 1, p);
    }
  }

  /** Conservation: a publication hangs off exactly its own slot, or is in exactly
      its holder's detached chain, or is consumed; and the link object it uses is
      used by nothing else. */
  lemma OnePlace(c: Config, run: seq<State>, i: nat, p: Pub)
    requires Run(c, run) && i < |run| && p in run[i].pubs
    ensures var s, pub := run[i], run[i].pubs[p];
      && (forall k :: k in s.slots ==> (p in s.slots[k].chain <==> pub.place.Parked? && pub.key == k))
      && (forall t :: t in s.threads ==> (p in HeldBy(s.threads[t].sweep) <==> pub.place == Held(t)))
      && (forall q :: q in s.pubs && q != p && !pub.place.Done? && !s.pubs[q].place.Done? ==>
            s.pubs[q].link.addr != pub.link.addr)
  {
    RunInvariant(c, run, i);
    var s, pub := run[i], run[i].pubs[p];
    assert PubOk(c, s, p);
    forall k | k in s.slots ensures p in s.slots[k].chain <==> pub.place.Parked? && pub.key == k {
      assert ChainOk(c, s, k);
    }
    forall t | t in s.threads ensures p in HeldBy(s.threads[t].sweep) <==> pub.place == Held(t) {
      assert SweepOk(c, s, t);
    }
    forall q | q in s.pubs && q != p && !pub.place.Done? && !s.pubs[q].place.Done?
      ensures s.pubs[q].link.addr != pub.link.addr
    {
      assert PubOk(c, s, q);
    }
  }

  // --------------------------------------------------------------- cursor and time

  /** The cursor never rewinds, and passes one tick at a time. */
  lemma {:induction false} CursorPasses(c: Config, run: seq<State>, i: nat, j: nat, tick: nat)
    requires Run(c, run) && i <= j < |run|
    ensures run[i].cursor <= run[j].cursor
    ensures run[i].cursor <= tick <= run[j].cursor ==> exists m :: i <= m <= j && run[m].cursor == tick
  {
    if i < j {
      CursorPasses(c, run, i, j - 1, tick);
      RunStep(c, run, j - 1, 0);
    }
  }

  /** When the cursor is past a tick, each window that starts there has been
      drained and reopened for a later rotation; what is still parked anywhere is
      not overdue. */
  lemma SweptBelowCursor(c: Config, run: seq<State>, i: nat, k: Key, tick: nat)
    requires Run(c, run) && i < |run| && ValidKey(c.g, k) && tick < run[i].cursor
    ensures k in run[i].slots && tick < run[i].slots[k].base
    ensures forall p :: p in run[i].slots[k].chain ==>
              p in run[i].pubs && tick < run[i].pubs[p].link.deadline
  {
    RunInvariant(c, run, i);
    assert SlotOk(c, run[i], k) && ChainOk(c, run[i], k);
  }

  /** No timeout is delivered before its deadline tick is over, for every geometry, when
      the deadline was in range of the hint it was last routed from.  With two levels or
      more it always was. */
  lemma TimeoutsSound(c: Config, run: seq<State>, i: nat)
    requires Run(c, run) && i < |run|
    ensures forall e :: e in run[i].log && InRange(c, e.hint, e.link.deadline) ==> e.link.deadline < e.at
    ensures 2 <= c.g.levels ==> forall e :: e in run[i].log ==> InRange(c, e.hint, e.link.deadline)
  {
    RunInvariant(c, run, i);
  }

  /** No operation generation is timed out twice, whatever the geometry. */
  lemma TimedOutOnce(c: Config, run: seq<State>, i: nat)
    requires Run(c, run) && i < |run|
    ensures forall a, b :: 0 <= a < b < |run[i].log| ==>
              run[i].log[a].link.op != run[i].log[b].link.op || run[i].log[a].link.generation != run[i].log[b].link.generation
  {
    RunInvariant(c, run, i);
  }

  /** An arm is refused, or a link found due, only when the sweep has reached its
      deadline tick and that tick is over, if the deadline was in range of the hint.  A
      refused arm has missed its tick for good: the deadline's own slot of the lowest
      level was drained and is open for a later rotation, also when the cursor still
      stands on the deadline.  RefusalExact shows that the condition is the exact one. */
  lemma RefusalSound(c: Config, run: seq<State>, i: nat, t: Tid)
    requires Run(c, run) && i < |run|
    requires Inserts(run[i], t) && (run[i].threads[t].ins.step.Refused? || run[i].threads[t].ins.step.Due?)
    ensures var ins := run[i].threads[t].ins;
      && (InRange(c, ins.hint, ins.link.deadline) ==> ins.link.deadline <= run[i].cursor && ins.link.deadline < run[i].clock)
      && (2 <= c.g.levels ==> InRange(c, ins.hint, ins.link.deadline))
      && (ins.step.Refused? && InRange(c, ins.hint, ins.link.deadline) ==>
            var k := KeyAt(c.g, 0, ins.link.deadline);
            k in run[i].slots && ins.link.deadline < run[i].slots[k].base)
  {
    RunInvariant(c, run, i);
    assert InsOk(c, run[i], t);
  }

  /** In time: a timeout the wheel delivers at time `at`, for an operation armed at
      time `armed`, comes after at least the requested microseconds. */
  lemma NoEarlyTimeout(c: Config, run: seq<State>, i: nat, e: Timeout, armed: nat, timeout: nat, at: nat)
    requires Run(c, run) && i < |run| && e in run[i].log
    requires 2 <= c.g.levels || InRange(c, e.hint, e.link.deadline)
    requires timeout <= TimerClock.UINT64_MAX
    requires e.link.deadline == TimerClock.ArmDeadline(TimerClock.Ticks(armed), timeout)
    requires e.at == TimerClock.Ticks(at)
    requires armed + timeout * 1000 <= (TimerClock.DEADLINE_LIMIT + 1) * TimerClock.TICK_NS
    ensures armed + timeout * 1000 <= at
  {
    TimeoutsSound(c, run, i);
    TimerClock.NeverEarly(armed, timeout);
    assert TimerClock.Swept(e.link.deadline, at);
    assert TimerClock.Elapsed(armed, timeout, at);
  }

  /** What a slot may hold while the sweep stands at `cursor`. */
  ghost predicate OpenAt(g: Geometry, k: Key, base: nat, cursor: nat) {
    WindowOf(g, k, base) && cursor <= base <= cursor + Period(g, k.level)
  }

  /** A level-0 miss is a sound reason to refuse, whatever the sweep has done since
      the hint was read, exactly when the deadline was within range of the hint.
      With two levels or more a level-0 route always is. */
  lemma RefusalExact(g: Geometry, hint: nat, deadline: nat)
    requires hint <= deadline && RouteLevel(g, hint, deadline) == 0
    ensures (forall cursor: nat, base: nat ::
               hint <= cursor && OpenAt(g, RouteKey(g, hint, deadline), base, cursor) && base != RouteBase(g, hint, deadline)
               ==> deadline <= cursor)
            <==> deadline < hint + Range(g)
    ensures 2 <= g.levels ==> deadline < hint + Range(g)
  {
    var k, r := RouteKey(g, hint, deadline), RouteBase(g, hint, deadline);
    RouteLands(g, hint, deadline);
    LevelZeroIsExact(g, hint, deadline);
    if deadline < hint + Range(g) {
      forall cursor: nat, base: nat | hint <= cursor && OpenAt(g, k, base, cursor) && base != r
        ensures deadline <= cursor
      {
        MismatchIsDrained(g, hint, deadline, base);
      }
    } else {
      WindowPlusPeriod(g, k, r);
      assert OpenAt(g, k, r + Period(g, 0), r);
    }
  }

  /** Why: on a single-level wheel every deadline beyond the range is routed to the
      last window in range of the hint.  Once the sweep has passed that window the
      insert is refused, although the deadline is still ahead. */
  lemma SingleLevelRefusal(g: Geometry, hint: nat, deadline: nat)
    requires g.levels == 1 && hint + Range(g) < deadline
    ensures RouteLevel(g, hint, deadline) == 0
    ensures var base := hint + Range(g) - 1 + Period(g, 0);
      && OpenAt(g, RouteKey(g, hint, deadline), base, hint + Range(g))
      && base != RouteBase(g, hint, deadline)
  {
    RouteLands(g, hint, deadline);
    WindowPlusPeriod(g, RouteKey(g, hint, deadline), RouteBase(g, hint, deadline));
  }
}
