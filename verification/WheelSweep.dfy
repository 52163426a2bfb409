/** The sweep keeps the wheel invariant. */
module WheelSweep {
  import opened Geometry
  import opened WheelMachine
  import opened WheelInvariant
  import opened WheelFrame

  /** The insertion and sleep records of a sweeping thread stay what they are. */
  lemma LocalInsSleep(c: Config, s: State, s': State, t: Tid)
    requires Rely(c, s, s', t) && Sweeps(s, t) && SleepOk(c, s, t)
    requires s'.threads[t].ins.NotInserting? && s'.threads[t].sleep == s.threads[t].sleep
    requires s'.wake == s.wake
    requires !s'.threads[t].sweep.NoSweep? ==>
               !s.threads[t].sweep.NoSweep? || s.threads[t].sleep.Outside? || s.threads[t].sleep.Running?
    ensures InsOk(c, s', t) && SleepOk(c, s', t)
  {
    if t < c.loops {
      SleepingStable(c, s, s', t, t, s.threads[t].sleep);
    }
  }

  /** A step of the sweep that touches nothing but the thread's own record. */
  lemma SweepLocal(c: Config, s: State, s': State, t: Tid, w: Sweep)
    requires Inv(c, s) && Sweeps(s, t) && s' == SetSweep(s, t, w)
    requires SweepingOk(c, s', t, w)
    requires HasBracket(w) <==> HasBracket(s.threads[t].sweep)
    requires HeldBy(w) == HeldBy(s.threads[t].sweep)
    requires !w.NoSweep? ==> !s.threads[t].sweep.NoSweep? || s.threads[t].sleep.Outside? || s.threads[t].sleep.Running?
    requires forall k :: ValidKey(c.g, k) && Unresolved(c, s, t, k) ==>
               Unresolved(c, s', t, k) || (k in s.slots && s.slots[k].chain == [])
    ensures Inv(c, s') && Tame(s, s')
  {
    assert SweepOk(c, s, t);
    RelyLocal(c, s, s', t, s'.threads[t]);
    LocalInsSleep(c, s, s', t);
    ThreadsStable(c, s, s', t);
    SlotsKept(c, s, s');
    ChainsKept(c, s, s');
    PubsKept(c, s, s', t);
    BitsKept(c, s, s', t);
    CoversKept(c, s, s', t);
  }

  lemma DrainedMore(c: Config, s: State, level: nat, tick: nat)
    requires DrainedFrom(c, s, level + 1, tick) && Drained(c, s, level, tick)
    ensures DrainedFrom(c, s, level, tick)
  {
    forall l: nat | level <= l ensures Drained(c, s, l, tick) {}
  }

  lemma {:induction false} VisitFromOk(c: Config, s: State, t: Tid, now: nat, tick: nat, level: nat)
    requires tick < now <= s.clock && tick <= s.cursor && level < c.g.levels
    requires DrainedFrom(c, s, level + 1, tick)
    ensures SweepingOk(c, s, t, VisitFrom(c, now, tick, level))
    ensures VisitFrom(c, now, tick, level).Visiting? && VisitFrom(c, now, tick, level).step.Loading?
    ensures !VisitFrom(c, now, tick, level).bracket
  {
    if level == 0 || Aligned(c.g, level, tick) {
    } else {
      DrainedMore(c, s, level, tick);
      VisitFromOk(c, s, t, now, tick, level - 1);
    }
  }

  lemma SweepBeginKeeps(c: Config, s: State, s': State, t: Tid, now: nat)
    requires Inv(c, s) && SweepBegin(c, s, s', t, now)
    ensures Inv(c, s') && Tame(s, s')
  {
    SweepLocal(c, s, s', t, Starting(now));
  }

  lemma SweepLoadCursorKeeps(c: Config, s: State, s': State, t: Tid)
    requires Inv(c, s) && SweepLoadCursor(c, s, s', t)
    ensures Inv(c, s') && Tame(s, s')
  {
    assert SweepOk(c, s, t);
    var w := s.threads[t].sweep;
    if w.now <= s.cursor {
      SweepLocal(c, s, s', t, NoSweep);
    } else {
      assert DrainedFrom(c, s', c.g.levels, s.cursor);
      VisitFromOk(c, s', t, w.now, s.cursor, c.g.levels - 1);
      SweepLocal(c, s, s', t, VisitFrom(c, w.now, s.cursor, c.g.levels - 1));
    }
  }

  lemma DetachLoadLowKeeps(c: Config, s: State, s': State, t: Tid)
    requires Inv(c, s) && DetachLoadLow(c, s, s', t)
    ensures Inv(c, s') && Tame(s, s')
  {
    assert SweepOk(c, s, t);
    RelyLocal(c, s, s', t, s'.threads[t]);
    DrainedStable(c, s, s', t, s.threads[t].sweep.level + 1, s.threads[t].sweep.tick);
    SweepLocal(c, s, s', t, s'.threads[t].sweep);
  }

  /** What a pair seen by the detach loop proves: the window is still this visit's,
      or it has been drained. */
  lemma AfterReadOk(c: Config, s: State, t: Tid, w: Sweep, pair: Pair)
    requires SlotsOk(c, s) && SweepingOk(c, s, t, w) && w.Visiting?
    requires VisitKey(c, w) in s.slots && pair.high == s.slots[VisitKey(c, w)].base
    ensures SweepingOk(c, s, t, AfterRead(w, pair))
    ensures HasBracket(AfterRead(w, pair)) <==> HasBracket(w)
    ensures HeldBy(AfterRead(w, pair)) == []
  {
    assert SlotOk(c, s, VisitKey(c, w));
    if pair.high > w.tick {
      DrainedMore(c, s, w.level, w.tick);
    }
  }

  lemma SameShared(c: Config, s: State, s': State, t: Tid, w: Sweep)
    requires s'.slots == s.slots && s'.pubs == s.pubs && s'.clock == s.clock && s'.cursor == s.cursor
    requires SweepingOk(c, s, t, w)
    ensures SweepingOk(c, s', t, w)
  {
    var level: nat, tick: nat :=
      if w.Visiting? then w.level + 1 else if w.Processing? then w.level else 0,
      if w.Visiting? || w.Processing? || w.Confirming? then w.tick else 0;
    if DrainedFrom(c, s, level, tick) {
      forall l: nat | level <= l ensures Drained(c, s', l, tick) {
        assert Drained(c, s, l, tick);
      }
    }
  }

  lemma DetachLoadHighKeeps(c: Config, s: State, s': State, t: Tid)
    requires Inv(c, s) && DetachLoadHigh(c, s, s', t)
    ensures Inv(c, s') && Tame(s, s')
  {
    assert SweepOk(c, s, t);
    var w := s.threads[t].sweep;
    var pair := Pair(w.step.low, s.slots[VisitKey(c, w)].base);
    AfterReadOk(c, s, t, w, pair);
    SameShared(c, s, s', t, AfterRead(w, pair));
    SweepLocal(c, s, s', t, AfterRead(w, pair));
  }

  lemma DetachTestKeeps(c: Config, s: State, s': State, t: Tid)
    requires Inv(c, s) && DetachTest(c, s, s', t)
    ensures Inv(c, s') && Tame(s, s')
  {
    assert SweepOk(c, s, t);
    SameShared(c, s, s', t, s'.threads[t].sweep);
    SweepLocal(c, s, s', t, s'.threads[t].sweep);
  }

  /** A visitor that loses the drain keeps its clear accountable: it will repair
      the bit, clear again, or it saw the reopened slot empty. */
  lemma DetachLostKeeps(c: Config, s: State, s': State, t: Tid)
    requires Inv(c, s) && DetachLost(c, s, s', t)
    ensures Inv(c, s') && Tame(s, s')
  {
    assert SweepOk(c, s, t);
    var w := s.threads[t].sweep;
    var k := VisitKey(c, w);
    assert ChainOk(c, s, k);
    AfterReadOk(c, s, t, w, PairOf(s, k));
    SameShared(c, s, s', t, AfterRead(w, PairOf(s, k)));
    SweepLocal(c, s, s', t, AfterRead(w, PairOf(s, k)));
  }

  // ------------------------------------------------------------------- brackets

  /** Only the thread's sweep record and the pre-clear words change. */
  ghost predicate BracketChanges(c: Config, s: State, s': State, t: Tid, w: Sweep) {
    && Sweeps(s, t)
    && s' == SetSweep(s, t, w).(seqs := s'.seqs, epoch := s'.epoch, active := s'.active, openers := s'.openers)
  }

  lemma BracketKeeps(c: Config, s: State, s': State, t: Tid, w: Sweep)
    requires Inv(c, s) && BracketChanges(c, s, s', t, w) && Rely(c, s, s', t) && GlobalOk(c, s')
    requires BracketOpen(c, s', t) <==> HasBracket(w)
    requires SweepingOk(c, s, t, w) && !w.NoSweep? && !s.threads[t].sweep.NoSweep?
    requires HeldBy(w) == HeldBy(s.threads[t].sweep)
    requires forall k :: Unresolved(c, s, t, k) ==> Unresolved(c, s', t, k)
    ensures Inv(c, s') && Tame(s, s')
  {
    SameShared(c, s, s', t, w);
    LocalInsSleep(c, s, s', t);
    ThreadsStable(c, s, s', t);
    SlotsKept(c, s, s');
    ChainsKept(c, s, s');
    PubsKept(c, s, s', t);
    BitsKept(c, s, s', t);
    CoversKept(c, s, s', t);
  }

  /** A step on the pre-clear words that only raises the sequences and the epoch. */
  lemma BracketRely(c: Config, s: State, s': State, t: Tid, w: Sweep)
    requires BracketChanges(c, s, s', t, w)
    requires s'.seqs == s.seqs || (t < |s.seqs| && s'.seqs == s.seqs[t := s.seqs[t] + 1])
    requires s.epoch <= s'.epoch && (s'.epoch == s.epoch ==> s'.active <= s.active)
    requires s'.openers == s.openers || s'.openers == s.openers + {t} || s'.openers == s.openers - {t}
    ensures Rely(c, s, s', t)
  {
  }

  /** Opening turns the loop's sequence odd, or adds one active visitor. */
  lemma OpenWords(c: Config, s: State, s': State, t: Tid)
    requires GlobalOk(c, s) && !BracketOpen(c, s, t) && DetachOpen(c, s, s', t)
    ensures GlobalOk(c, s') && BracketOpen(c, s', t)
  {
    if t < c.loops { OpenSeq(s.seqs, t); } else { assert |s.openers + {t}| == |s.openers| + 1; }
  }

  lemma OpenSeq(seqs: seq<nat>, t: nat)
    requires t < |seqs| && seqs[t] % 2 == 0
    ensures var after := seqs[t := seqs[t] + 1]; |after| == |seqs| && after[t] % 2 == 1
  {
  }

  /** Closing turns it even again, or takes one active visitor away. */
  lemma CloseWords(c: Config, s: State, s': State, t: Tid)
    requires GlobalOk(c, s) && BracketOpen(c, s, t) && DetachClose(c, s, s', t)
    ensures GlobalOk(c, s') && !BracketOpen(c, s', t)
  {
    if t < c.loops {
      assert s'.seqs[t] == s.seqs[t] + 1;
    } else {
      assert t in s.openers && s'.openers == s.openers - {t};
    }
  }

  lemma DetachOpenKeeps(c: Config, s: State, s': State, t: Tid)
    requires Inv(c, s) && DetachOpen(c, s, s', t)
    ensures Inv(c, s') && Tame(s, s')
  {
    assert SweepOk(c, s, t);
    var w := Bracketed(s.threads[t].sweep);
    OpenChanges(c, s, s', t, w);
    OpenWords(c, s, s', t);
    BracketKeeps(c, s, s', t, w);
  }

  function Bracketed(w: Sweep): Sweep
    requires w.Visiting? && w.step.Opening?
  {
    w.(bracket := true, step := Clearing(w.step.observed))
  }

  lemma OpenChanges(c: Config, s: State, s': State, t: Tid, w: Sweep)
    requires DetachOpen(c, s, s', t) && w == Bracketed(s.threads[t].sweep)
    ensures BracketChanges(c, s, s', t, w) && Rely(c, s, s', t)
  {
    if t < c.loops { assert s'.epoch == s.epoch && s'.openers == s.openers; } else { assert s'.seqs == s.seqs; }
    BracketRely(c, s, s', t, w);
  }

  lemma ClosingOk(c: Config, s: State, t: Tid)
    requires SweepOk(c, s, t) && s.threads[t].sweep.Visiting? && s.threads[t].sweep.step.Closing?
    ensures var w := s.threads[t].sweep; SweepingOk(c, s, t, Processing(w.now, w.tick, w.level, w.step.held))
  {
    DrainedMore(c, s, s.threads[t].sweep.level, s.threads[t].sweep.tick);
  }

  lemma CloseChanges(c: Config, s: State, s': State, t: Tid)
    requires GlobalOk(c, s) && BracketOpen(c, s, t) && DetachClose(c, s, s', t)
    ensures var w := s.threads[t].sweep;
      && BracketChanges(c, s, s', t, Processing(w.now, w.tick, w.level, w.step.held))
      && Rely(c, s, s', t)
  {
    if t < c.loops { assert s'.epoch == s.epoch && s'.openers == s.openers; } else { assert s'.seqs == s.seqs; }
    BracketRely(c, s, s', t, s'.threads[t].sweep);
  }

  lemma DetachCloseKeeps(c: Config, s: State, s': State, t: Tid)
    requires Inv(c, s) && DetachClose(c, s, s', t)
    ensures Inv(c, s') && Tame(s, s')
  {
    assert SweepOk(c, s, t);
    var w := s.threads[t].sweep;
    ClosingOk(c, s, t);
    CloseChanges(c, s, s', t);
    CloseWords(c, s, s', t);
    BracketKeeps(c, s, s', t, Processing(w.now, w.tick, w.level, w.step.held));
  }

  // ------------------------------------------------------- bit clear and repair

  /** Only the thread's sweep record, the bitmap and the clear history change. */
  ghost predicate BitChanges(c: Config, s: State, s': State, t: Tid, w: Sweep) {
    && Sweeps(s, t)
    && s' == SetSweep(s, t, w).(bits := s'.bits, clearer := s'.clearer)
  }

  lemma BitChangeRely(c: Config, s: State, s': State, t: Tid, w: Sweep)
    requires BitChanges(c, s, s', t, w)
    ensures Rely(c, s, s', t)
  {
  }

  lemma BitChangeKeeps(c: Config, s: State, s': State, t: Tid, w: Sweep)
    requires Inv(c, s) && BitChanges(c, s, s', t, w) && BitsOk(c, s')
    requires HasBracket(w) <==> HasBracket(s.threads[t].sweep)
    requires SweepingOk(c, s, t, w) && !w.NoSweep? && !s.threads[t].sweep.NoSweep?
    requires HeldBy(w) == HeldBy(s.threads[t].sweep)
    ensures Inv(c, s') && Tame(s, s')
  {
    assert SweepOk(c, s, t);
    BitChangeRely(c, s, s', t, w);
    SameShared(c, s, s', t, w);
    LocalInsSleep(c, s, s', t);
    ThreadsStable(c, s, s', t);
    SlotsKept(c, s, s');
    ChainsKept(c, s, s');
    PubsKept(c, s, s', t);
    CoversKept(c, s, s', t);
  }

  /** After a clear, the clearer answers for its slot. */
  lemma ClearBits(c: Config, s: State, s': State, t: Tid)
    requires SweepOk(c, s, t) && BitsOk(c, s) && DetachClear(c, s, s', t)
    ensures BitsOk(c, s')
  {
    var k := VisitKey(c, s.threads[t].sweep);
    forall x | ValidKey(c.g, x) ensures BitOk(c, s', x) {
      assert BitOk(c, s, x);
      assert Unresolved(c, s', t, k);
    }
  }

  lemma DetachClearKeeps(c: Config, s: State, s': State, t: Tid)
    requires Inv(c, s) && DetachClear(c, s, s', t)
    ensures Inv(c, s') && Tame(s, s')
  {
    assert SweepOk(c, s, t);
    ClearBits(c, s, s', t);
    BitChangeKeeps(c, s, s', t, s'.threads[t].sweep);
  }

  lemma RepairBits(c: Config, s: State, s': State, t: Tid)
    requires SweepOk(c, s, t) && BitsOk(c, s) && DetachRepair(c, s, s', t)
    ensures BitsOk(c, s')
  {
    forall x | ValidKey(c.g, x) ensures BitOk(c, s', x) {
      assert BitOk(c, s, x);
    }
  }

  lemma DetachRepairKeeps(c: Config, s: State, s': State, t: Tid)
    requires Inv(c, s) && DetachRepair(c, s, s', t)
    ensures Inv(c, s') && Tame(s, s')
  {
    assert SweepOk(c, s, t);
    var w := s.threads[t].sweep;
    DrainedMore(c, s, w.level, w.tick);
    RepairBits(c, s, s', t);
    BitChangeKeeps(c, s, s', t, Leave(w, []));
  }

  // ------------------------------------------------------------------ the drain

  /** The drain happens in the very tick the cursor is at. */
  lemma DrainAtCursor(c: Config, s: State, t: Tid)
    requires SlotsOk(c, s) && SweepOk(c, s, t) && Visits(c, s, t) && s.threads[t].sweep.step.Draining?
    requires s.threads[t].sweep.step.observed == PairOf(s, VisitKey(c, s.threads[t].sweep))
    ensures var w := s.threads[t].sweep;
      && s.slots[VisitKey(c, w)].base == w.tick == s.cursor
      && ValidKey(c.g, VisitKey(c, w)) && WindowOf(c.g, VisitKey(c, w), w.tick)
  {
    assert SlotOk(c, s, VisitKey(c, s.threads[t].sweep));
  }

  lemma DrainRely(c: Config, s: State, s': State, t: Tid)
    requires GlobalOk(c, s) && SlotsOk(c, s) && SweepOk(c, s, t) && ChainsOk(c, s) && DetachDrain(c, s, s', t)
    ensures Rely(c, s, s', t) && GlobalOk(c, s')
  {
    DrainAtCursor(c, s, t);
    assert ChainOk(c, s, VisitKey(c, s.threads[t].sweep));
  }

  lemma DrainSlots(c: Config, s: State, s': State, t: Tid)
    requires GlobalOk(c, s) && SlotsOk(c, s) && SweepOk(c, s, t) && DetachDrain(c, s, s', t)
    ensures SlotsOk(c, s')
  {
    DrainAtCursor(c, s, t);
    var w := s.threads[t].sweep;
    WindowPlusPeriod(c.g, VisitKey(c, w), w.tick);
    forall x | ValidKey(c.g, x) ensures SlotOk(c, s', x) {
      assert SlotOk(c, s, x);
    }
  }

  lemma DrainChains(c: Config, s: State, s': State, t: Tid)
    requires ChainsOk(c, s) && DetachDrain(c, s, s', t) && ValidKey(c.g, VisitKey(c, s.threads[t].sweep))
    ensures ChainsOk(c, s')
  {
    var k := VisitKey(c, s.threads[t].sweep);
    assert ChainOk(c, s, k);
    forall x | ValidKey(c.g, x) ensures ChainOk(c, s', x) {
      assert ChainOk(c, s, x);
      if x != k {
        forall p | p in s'.slots[x].chain ensures p in s.pubs && p !in s.slots[k].chain {}
      }
    }
  }

  lemma DrainPubs(c: Config, s: State, s': State, t: Tid)
    requires PubsOk(c, s) && ChainsOk(c, s) && DetachDrain(c, s, s', t)
    requires ValidKey(c.g, VisitKey(c, s.threads[t].sweep))
    ensures PubsOk(c, s')
  {
    assert ChainOk(c, s, VisitKey(c, s.threads[t].sweep));
    forall p | p in s'.pubs ensures PubOk(c, s', p) {
      assert PubOk(c, s, p);
    }
  }

  lemma DrainBits(c: Config, s: State, s': State, t: Tid)
    requires PubsOk(c, s) && BitsOk(c, s) && DetachDrain(c, s, s', t)
    ensures BitsOk(c, s')
  {
    var k := VisitKey(c, s.threads[t].sweep);
    forall x | ValidKey(c.g, x) ensures BitOk(c, s', x) {
      assert BitOk(c, s, x);
      forall p | p in s'.pubs && s'.pubs[p].key == x && s'.pubs[p].place.Parked?
        ensures x != k && s.pubs[p] == s'.pubs[p]
      {
        assert PubOk(c, s, p);
      }
    }
  }

  /** Exactly the drainer gets the chain, whole. */
  lemma DrainThread(c: Config, s: State, s': State, t: Tid)
    requires GlobalOk(c, s) && SlotsOk(c, s) && SweepOk(c, s, t) && ChainsOk(c, s) && SleepOk(c, s, t)
    requires DetachDrain(c, s, s', t) && Rely(c, s, s', t)
    ensures InsOk(c, s', t) && SweepOk(c, s', t) && SleepOk(c, s', t)
  {
    DrainAtCursor(c, s, t);
    var w := s.threads[t].sweep;
    assert ChainOk(c, s, VisitKey(c, w));
    LocalInsSleep(c, s, s', t);
    DrainedStable(c, s, s', t, w.level + 1, w.tick);
    DrainedMore(c, s', w.level, w.tick);
  }

  lemma DrainTame(c: Config, s: State, s': State, t: Tid)
    requires ChainsOk(c, s) && DetachDrain(c, s, s', t) && ValidKey(c.g, VisitKey(c, s.threads[t].sweep))
    ensures Tame(s, s')
  {
    assert ChainOk(c, s, VisitKey(c, s.threads[t].sweep));
  }

  lemma DetachDrainKeeps(c: Config, s: State, s': State, t: Tid)
    requires Inv(c, s) && DetachDrain(c, s, s', t)
    ensures Inv(c, s') && Tame(s, s')
  {
    assert SweepOk(c, s, t);
    DrainAtCursor(c, s, t);
    DrainTame(c, s, s', t);
    DrainRely(c, s, s', t);
    DrainThread(c, s, s', t);
    ThreadsStable(c, s, s', t);
    DrainSlots(c, s, s', t);
    DrainChains(c, s, s', t);
    DrainPubs(c, s, s', t);
    DrainBits(c, s, s', t);
    CoversKept(c, s, s', t);
  }

  // ------------------------------------------------------- the detached chain

  lemma ProcessEndKeeps(c: Config, s: State, s': State, t: Tid)
    requires Inv(c, s) && ProcessEnd(c, s, s', t)
    ensures Inv(c, s') && Tame(s, s')
  {
    assert SweepOk(c, s, t);
    var w := s.threads[t].sweep;
    SameShared(c, s, s', t, w);
    if w.level > 0 {
      VisitFromOk(c, s', t, w.now, w.tick, w.level - 1);
    }
    SweepLocal(c, s, s', t, s'.threads[t].sweep);
  }

  lemma ProcessRely(c: Config, s: State, s': State, t: Tid)
    requires GlobalOk(c, s) && PubsOk(c, s) && SweepOk(c, s, t) && ProcessLink(c, s, s', t)
    ensures Rely(c, s, s', t) && GlobalOk(c, s') && Tame(s, s')
  {
    assert PubOk(c, s, s.threads[t].sweep.held[0]);
    ProcessTame(c, s, s', t);
  }

  lemma ProcessTame(c: Config, s: State, s': State, t: Tid)
    requires SweepOk(c, s, t) && ProcessLink(c, s, s', t)
    ensures Tame(s, s')
  {
  }

  lemma ProcessThread(c: Config, s: State, s': State, t: Tid)
    requires GlobalOk(c, s) && SweepOk(c, s, t) && SleepOk(c, s, t)
    requires ProcessLink(c, s, s', t) && Rely(c, s, s', t)
    ensures InsOk(c, s', t) && SweepOk(c, s', t) && SleepOk(c, s', t)
  {
    var w := s.threads[t].sweep;
    DrainedStable(c, s, s', t, w.level, w.tick);
    assert HoldsAll(s', t, w.held[1..]) by {
      forall p | p in w.held[1..] ensures p in s'.pubs && s'.pubs[p].place == Held(t) {
        assert p in w.held && p != w.held[0];
      }
    }
    if t < c.loops {
      SleepingStable(c, s, s', t, t, s.threads[t].sleep);
    }
  }

  lemma ProcessPubs(c: Config, s: State, s': State, t: Tid)
    requires PubsOk(c, s) && ChainsOk(c, s) && SweepOk(c, s, t) && ProcessLink(c, s, s', t)
    ensures PubsOk(c, s') && ChainsOk(c, s')
  {
    var held := s.threads[t].sweep.held;
    assert PubOk(c, s, held[0]);
    forall x | ValidKey(c.g, x) ensures ChainOk(c, s', x) {
      assert ChainOk(c, s, x);
    }
    forall p | p in s'.pubs ensures PubOk(c, s', p) {
      assert PubOk(c, s, p);
      if p in held && p != held[0] { assert p in held[1..]; }
    }
  }

  lemma ProcessBits(c: Config, s: State, s': State, t: Tid)
    requires BitsOk(c, s) && ProcessLink(c, s, s', t)
    ensures BitsOk(c, s')
  {
    forall x | ValidKey(c.g, x) ensures BitOk(c, s', x) {
      assert BitOk(c, s, x);
    }
  }

  lemma ProcessLinkKeeps(c: Config, s: State, s': State, t: Tid)
    requires Inv(c, s) && ProcessLink(c, s, s', t)
    ensures Inv(c, s') && Tame(s, s')
  {
    assert SweepOk(c, s, t);
    ProcessRely(c, s, s', t);
    ProcessThread(c, s, s', t);
    ThreadsStable(c, s, s', t);
    SlotsKept(c, s, s');
    ProcessPubs(c, s, s', t);
    ProcessBits(c, s, s', t);
    CoversKept(c, s, s', t);
  }

  // ---------------------------------------------------------------- the confirm

  /** The cursor moves past a tick only when all windows starting there have been
      drained. */
  lemma ConfirmSlots(c: Config, s: State, s': State, t: Tid)
    requires GlobalOk(c, s) && SlotsOk(c, s) && SweepOk(c, s, t) && SweepConfirm(c, s, s', t)
    ensures SlotsOk(c, s')
  {
    var w := s.threads[t].sweep;
    forall k | ValidKey(c.g, k) ensures SlotOk(c, s', k) {
      assert SlotOk(c, s, k);
      assert Drained(c, s, k.level, w.tick);
    }
  }

  lemma ConfirmRely(c: Config, s: State, s': State, t: Tid)
    requires GlobalOk(c, s) && SweepOk(c, s, t) && SweepConfirm(c, s, s', t)
    ensures Rely(c, s, s', t) && GlobalOk(c, s') && SweepOk(c, s', t)
  {
  }

  lemma SweepConfirmKeeps(c: Config, s: State, s': State, t: Tid)
    requires Inv(c, s) && SweepConfirm(c, s, s', t)
    ensures Inv(c, s') && Tame(s, s')
  {
    assert SweepOk(c, s, t);
    ConfirmRely(c, s, s', t);
    LocalInsSleep(c, s, s', t);
    ThreadsStable(c, s, s', t);
    ConfirmSlots(c, s, s', t);
    ChainsKept(c, s, s');
    PubsKept(c, s, s', t);
    BitsKept(c, s, s', t);
    CoversKept(c, s, s', t);
  }

  lemma SweepLocalMovesKeep(c: Config, s: State, s': State, t: Tid)
    requires Inv(c, s) && SweepLocalMoves(c, s, s', t)
    ensures Inv(c, s') && Tame(s, s')
  {
    if SweepLoadCursor(c, s, s', t) { SweepLoadCursorKeeps(c, s, s', t); }
    else if DetachLoadLow(c, s, s', t) { DetachLoadLowKeeps(c, s, s', t); }
    else if DetachLoadHigh(c, s, s', t) { DetachLoadHighKeeps(c, s, s', t); }
    else if DetachTest(c, s, s', t) { DetachTestKeeps(c, s, s', t); }
    else if DetachLost(c, s, s', t) { DetachLostKeeps(c, s, s', t); }
    else if ProcessEnd(c, s, s', t) { ProcessEndKeeps(c, s, s', t); }
    else {
      var now: nat :| SweepBegin(c, s, s', t, now);
      SweepBeginKeeps(c, s, s', t, now);
    }
  }

  lemma SweepSharedMovesKeep(c: Config, s: State, s': State, t: Tid)
    requires Inv(c, s) && SweepSharedMoves(c, s, s', t)
    ensures Inv(c, s') && Tame(s, s')
  {
    if DetachOpen(c, s, s', t) { DetachOpenKeeps(c, s, s', t); }
    else if DetachClear(c, s, s', t) { DetachClearKeeps(c, s, s', t); }
    else if DetachDrain(c, s, s', t) { DetachDrainKeeps(c, s, s', t); }
    else if DetachRepair(c, s, s', t) { DetachRepairKeeps(c, s, s', t); }
    else if DetachClose(c, s, s', t) { DetachCloseKeeps(c, s, s', t); }
    else if ProcessLink(c, s, s', t) { ProcessLinkKeeps(c, s, s', t); }
    else { SweepConfirmKeeps(c, s, s', t); }
  }
}
