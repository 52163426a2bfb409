/** What sweeps and loops achieve, and that they do no more than they must: a sweep ends with
    the cursor at its tick, an insert rings only for a loop that it saw asleep past the
    deadline, and a loop plans to wake only for a slot that it saw marked, or at once. */
module WheelProgress {
  import opened Wrappers
  import opened Geometry
  import opened WheelScan
  import opened WheelMachine
  import opened WheelInvariant
  import opened WheelTheorems

  // ------------------------------------------------------------------ one thread's step

  /** A sweep keeps its target, gets the cursor past what it confirms, and ends only behind
      the target. */
  ghost predicate SweepGoes(s: State, s': State, w: Sweep, w': Sweep) {
    || w' == w || w.NoSweep? || (w.Starting? && w'.NoSweep? && w.now <= s.cursor)
    || (!w'.NoSweep? && w'.now == w.now && (w.Confirming? ==> w.tick < s'.cursor))
  }

  /** The insert has seen a sleeper. */
  predicate Saw(i: Insertion) { i.Inserting? && i.step.Kicking? && i.step.sawSleeper }

  /** Loop `l` sleeps past the deadline. */
  predicate Sleeps(s: State, l: nat, deadline: nat) { l < |s.wake| && s.wake[l] != Awake && !Covers(s.wake[l], deadline) }

  ghost predicate KickGoes(s: State, i: Insertion, i': Insertion) {
    || i' == i || !Saw(i')
    || (i.Inserting? && i.step.Kicking? && i'.link == i.link && (Saw(i) || Sleeps(s, i.step.next, i.link.deadline)))
  }

  /** A wake is the old one, or that of a slot that is marked now. */
  ghost predicate BestGoes(c: Config, s: State, from: nat, best: Wake, best': Wake) {
    best' == best || exists k :: k in s.bits && ValidKey(c.g, k) && best' == By(NextVisit(c.g, k, from) + 1)
  }

  ghost predicate PlanGoes(c: Config, s: State, z: Sleep, z': Sleep) {
    z' == z || match z'
      case Planning(_, from, _, _, scan) =>
        || (z.Snapping? && from == z.from && scan.best == Never)
        || (z.Planning? && from == z.from && BestGoes(c, s, from, z.scan.best, scan.best))
      case Snapping(_, from, _, after) =>
        || after.None? || (z.Snapping? && z.after == after && z.from == from)
        || (z.Planning? && z.from == from && BestGoes(c, s, from, z.scan.best, after.value.best))
      case Committing(_, wake) =>
        || (z.Planning? && BestGoes(c, s, z.from, z.scan.best, wake))
        || (z.Snapping? && (wake == By(z.from + 1) || (z.after.Some? && wake == z.after.value.best)))
      case _ => true
  }

  ghost predicate Goes(c: Config, s: State, s': State, t: Tid) {
    && t in s.threads && t in s'.threads && s.cursor <= s'.cursor
    && (forall u :: u in s.threads && u != t ==> u in s'.threads && s'.threads[u] == s.threads[u])
    && (forall u :: u in s'.threads ==> u in s.threads)
    && (s'.bell ==> s.bell || Saw(s.threads[t].ins))
    && SweepGoes(s, s', s.threads[t].sweep, s'.threads[t].sweep)
    && KickGoes(s, s.threads[t].ins, s'.threads[t].ins)
    && PlanGoes(c, s, s.threads[t].sleep, s'.threads[t].sleep)
  }

  lemma RoutesGo(c: Config, s: State, s': State, t: Tid)
    requires InsertLate(c, s, s', t) || InsertLoadLow(c, s, s', t)
    ensures Goes(c, s, s', t)
  {
  }

  lemma SeesGo(c: Config, s: State, s': State, t: Tid)
    requires InsertLoadHigh(c, s, s', t) || InsertLost(c, s, s', t)
    ensures Goes(c, s, s', t)
  {
  }

  lemma PublishGoes(c: Config, s: State, s': State, t: Tid, p: Pub)
    requires InsertPublish(c, s, s', t, p) || InsertMark(c, s, s', t)
    ensures Goes(c, s, s', t)
  {
  }

  lemma ArmsGo(c: Config, s: State, s': State, t: Tid, link: Link)
    requires Deliver(c, s, s', t) || Arm(c, s, s', t, link)
    ensures Goes(c, s, s', t)
  {
  }

  lemma KicksGo(c: Config, s: State, s': State, t: Tid)
    requires KickLoad(c, s, s', t)
    ensures Goes(c, s, s', t)
  {
  }

  lemma ReturnsGo(c: Config, s: State, s': State, t: Tid)
    requires KickCovered(c, s, s', t) || KickEnd(c, s, s', t)
    ensures Goes(c, s, s', t)
  {
  }

  lemma StartsGo(c: Config, s: State, s': State, t: Tid, now: nat)
    requires SweepBegin(c, s, s', t, now)
    ensures Goes(c, s, s', t)
  {
  }

  lemma {:induction false} VisitKeepsNow(c: Config, now: nat, tick: nat, level: nat)
    ensures VisitFrom(c, now, tick, level).Visiting? && VisitFrom(c, now, tick, level).now == now
  {
    if level > 0 { VisitKeepsNow(c, now, tick, level - 1); }
  }

  lemma CursorsGo(c: Config, s: State, s': State, t: Tid)
    requires SweepLoadCursor(c, s, s', t)
    ensures Goes(c, s, s', t)
  {
    VisitKeepsNow(c, s.threads[t].sweep.now, s.cursor, c.g.levels - 1);
  }

  lemma LevelsGo(c: Config, s: State, s': State, t: Tid)
    requires ProcessEnd(c, s, s', t)
    ensures Goes(c, s, s', t)
  {
    if s.threads[t].sweep.level > 0 { VisitKeepsNow(c, s.threads[t].sweep.now, s.threads[t].sweep.tick, s.threads[t].sweep.level - 1); }
  }

  lemma ReadsGo(c: Config, s: State, s': State, t: Tid)
    requires DetachLoadLow(c, s, s', t) || DetachLoadHigh(c, s, s', t)
    ensures Goes(c, s, s', t)
  {
  }

  lemma TestsGo(c: Config, s: State, s': State, t: Tid)
    requires DetachTest(c, s, s', t) || DetachLost(c, s, s', t)
    ensures Goes(c, s, s', t)
  {
  }

  lemma OpensGo(c: Config, s: State, s': State, t: Tid)
    requires DetachOpen(c, s, s', t)
    ensures Goes(c, s, s', t)
  {
  }

  lemma ClosesGo(c: Config, s: State, s': State, t: Tid)
    requires DetachClose(c, s, s', t)
    ensures Goes(c, s, s', t)
  {
  }

  lemma ClearsGo(c: Config, s: State, s': State, t: Tid)
    requires DetachClear(c, s, s', t) || DetachRepair(c, s, s', t)
    ensures Goes(c, s, s', t)
  {
  }

  lemma DrainsGo(c: Config, s: State, s': State, t: Tid)
    requires DetachDrain(c, s, s', t) || ProcessLink(c, s, s', t)
    ensures Goes(c, s, s', t)
  {
  }

  lemma ConfirmsGo(c: Config, s: State, s': State, t: Tid)
    requires Inv(c, s) && SweepConfirm(c, s, s', t)
    ensures Goes(c, s, s', t)
  {
    assert SweepOk(c, s, t);
  }

  lemma SnapsGo(c: Config, s: State, s': State, t: Tid)
    requires SleepLoadCursor(c, s, s', t) || SnapLoop(c, s, s', t)
    ensures Goes(c, s, s', t)
  {
  }

  lemma SumsGo(c: Config, s: State, s': State, t: Tid)
    requires SnapOverflow(c, s, s', t)
    ensures Goes(c, s, s', t)
  {
  }

  lemma LoopsGo(c: Config, s: State, s': State, t: Tid, now: nat)
    requires LoopEnter(c, s, s', t) || StoreEternal(c, s, s', t, now)
    ensures Goes(c, s, s', t)
  {
  }

  lemma SleepsGo(c: Config, s: State, s': State, t: Tid)
    requires StoreWake(c, s, s', t)
    ensures Goes(c, s, s', t)
  {
  }

  lemma WakesGo(c: Config, s: State, s': State, t: Tid)
    requires WakeUp(c, s, s', t)
    ensures Goes(c, s, s', t)
  {
  }

  lemma RisesGo(c: Config, s: State, s': State, t: Tid)
    requires StoreAwake(c, s, s', t)
    ensures Goes(c, s, s', t)
  {
  }

  lemma ScanGoes(c: Config, s: State, s': State, t: Tid)
    requires Inv(c, s) && ScanLoad(c, s, s', t)
    ensures Goes(c, s, s', t)
  {
    assert SleepOk(c, s, t);
    var z := s.threads[t].sleep;
    WordGoes(c, s, z.from, z.scan);
  }

  lemma WordGoes(c: Config, s: State, from: nat, sc: Scan)
    requires sc.Scanning? && ScanOk(c.g, from, sc)
    ensures BestGoes(c, s, from, sc.best, ScanWord(c.g, from, sc, s.bits).best)
  {
    var end := sc.slotIndex + WordTake(sc.slotIndex, sc.remaining);
    var first := FirstSet(s.bits, sc.level, sc.slotIndex, end);
    ScanWordBest(c.g, from, sc, s.bits, end, first);
    if first < end {
      FirstVisit(c.g, from, sc.level, sc.slotIndex, sc.visitTick, sc.remaining, first);
      assert Key(sc.level, first) in s.bits && ValidKey(c.g, Key(sc.level, first));
    }
  }

  lemma InsertsGo(c: Config, s: State, s': State, t: Tid)
    requires InsertLocalMoves(c, s, s', t) || InsertSharedMoves(c, s, s', t)
    ensures Goes(c, s, s', t)
  {
    if InsertLate(c, s, s', t) || InsertLoadLow(c, s, s', t) { RoutesGo(c, s, s', t); }
    else if InsertLoadHigh(c, s, s', t) || InsertLost(c, s, s', t) { SeesGo(c, s, s', t); }
    else if KickLoad(c, s, s', t) { KicksGo(c, s, s', t); }
    else if KickCovered(c, s, s', t) || KickEnd(c, s, s', t) { ReturnsGo(c, s, s', t); }
    else if p: Pub :| InsertPublish(c, s, s', t, p) { PublishGoes(c, s, s', t, p); }
    else if InsertMark(c, s, s', t) { PublishGoes(c, s, s', t, 0); }
    else if link: Link :| Arm(c, s, s', t, link) { ArmsGo(c, s, s', t, link); }
    else { DeliversGo(c, s, s', t); }
  }

  lemma DeliversGo(c: Config, s: State, s': State, t: Tid)
    requires Deliver(c, s, s', t)
    ensures Goes(c, s, s', t)
  {
  }

  lemma SweepsGo(c: Config, s: State, s': State, t: Tid)
    requires Inv(c, s) && (SweepLocalMoves(c, s, s', t) || SweepSharedMoves(c, s, s', t))
    ensures Goes(c, s, s', t)
  {
    if now: nat :| SweepBegin(c, s, s', t, now) { StartsGo(c, s, s', t, now); }
    else if SweepLoadCursor(c, s, s', t) { CursorsGo(c, s, s', t); }
    else if ProcessEnd(c, s, s', t) { LevelsGo(c, s, s', t); }
    else if DetachLoadLow(c, s, s', t) || DetachLoadHigh(c, s, s', t) { ReadsGo(c, s, s', t); }
    else if DetachTest(c, s, s', t) || DetachLost(c, s, s', t) { TestsGo(c, s, s', t); }
    else if DetachOpen(c, s, s', t) { OpensGo(c, s, s', t); }
    else if DetachClose(c, s, s', t) { ClosesGo(c, s, s', t); }
    else if DetachClear(c, s, s', t) || DetachRepair(c, s, s', t) { ClearsGo(c, s, s', t); }
    else if SweepConfirm(c, s, s', t) { ConfirmsGo(c, s, s', t); }
    else { DrainsGo(c, s, s', t); }
  }

  lemma SleepMovesGo(c: Config, s: State, s': State, t: Tid)
    requires Inv(c, s) && SleepMoves(c, s, s', t)
    ensures Goes(c, s, s', t)
  {
    if ScanLoad(c, s, s', t) { ScanGoes(c, s, s', t); }
    else if SleepLoadCursor(c, s, s', t) || SnapLoop(c, s, s', t) { SnapsGo(c, s, s', t); }
    else if SnapOverflow(c, s, s', t) { SumsGo(c, s, s', t); }
    else if StoreWake(c, s, s', t) { SleepsGo(c, s, s', t); }
    else if WakeUp(c, s, s', t) { WakesGo(c, s, s', t); }
    else if StoreAwake(c, s, s', t) { RisesGo(c, s, s', t); }
    else if now: nat :| StoreEternal(c, s, s', t, now) { LoopsGo(c, s, s', t, now); }
    else { LoopsGo(c, s, s', t, 0); }
  }

  lemma MovesGo(c: Config, s: State, s': State, t: Tid)
    requires Inv(c, s) && Moves(c, s, s', t)
    ensures Goes(c, s, s', t)
  {
    if InsertLocalMoves(c, s, s', t) || InsertSharedMoves(c, s, s', t) { InsertsGo(c, s, s', t); }
    else if SleepMoves(c, s, s', t) { SleepMovesGo(c, s, s', t); }
    else { SweepsGo(c, s, s', t); }
  }

  // ------------------------------------------------------------------------- along a run

  /** The step is one thread's, or the environment's, which leaves the threads alone. */
  ghost predicate StepGoes(c: Config, s: State, s': State) {
    || (s'.threads == s.threads && s'.cursor == s.cursor && s'.bell == s.bell)
    || exists t: Tid :: Goes(c, s, s', t)
  }

  lemma RunGoes(c: Config, run: seq<State>, i: nat)
    requires Run(c, run) && i + 1 < |run|
    ensures StepGoes(c, run[i], run[i + 1])
  {
    RunInvariant(c, run, i);
    assert StepAt(c, run, i);
    NextGoes(c, run[i], run[i + 1]);
  }

  lemma NextGoes(c: Config, s: State, s': State)
    requires Inv(c, s) && Next(c, s, s')
    ensures StepGoes(c, s, s')
  {
    if t: Tid :| Moves(c, s, s', t) { MovesGo(c, s, s', t); }
  }

  /** What thread `t` does in a step of anybody. */
  lemma ThreadGoes(c: Config, run: seq<State>, i: nat, t: Tid)
    requires Run(c, run) && i + 1 < |run| && t in run[i].threads
    ensures t in run[i + 1].threads && run[i].cursor <= run[i + 1].cursor
    ensures SweepGoes(run[i], run[i + 1], run[i].threads[t].sweep, run[i + 1].threads[t].sweep)
    ensures KickGoes(run[i], run[i].threads[t].ins, run[i + 1].threads[t].ins)
    ensures PlanGoes(c, run[i], run[i].threads[t].sleep, run[i + 1].threads[t].sleep)
  {
    RunGoes(c, run, i);
  }

  /** A sweep that has ended has brought the cursor to its tick. */
  lemma {:induction false} SweepReaches(c: Config, run: seq<State>, i: nat, j: nat, t: Tid, now: nat)
    requires Run(c, run) && i <= j < |run| && t in run[i].threads && run[i].threads[t].sweep == Starting(now)
    ensures t in run[j].threads && (now <= run[j].cursor || (!run[j].threads[t].sweep.NoSweep? && run[j].threads[t].sweep.now == now))
  {
    if i < j {
      SweepReaches(c, run, i, j - 1, t, now);
      ThreadGoes(c, run, j - 1, t);
    }
  }

  /** A tick that a sweeper confirms is behind the cursor. */
  lemma ConfirmPasses(c: Config, run: seq<State>, i: nat, t: Tid)
    requires Run(c, run) && i + 1 < |run| && t in run[i].threads && run[i].threads[t].sweep.Confirming?
    requires SweepConfirm(c, run[i], run[i + 1], t)
    ensures run[i].threads[t].sweep.tick < run[i + 1].cursor
  {
    ThreadGoes(c, run, i, t);
  }

  /** A sleeper that an insert has seen was asleep past the deadline when it looked. */
  lemma {:induction false} SawIsTrue(c: Config, run: seq<State>, j: nat, t: Tid) returns (m: nat, l: nat)
    requires Run(c, run) && j < |run| && t in run[j].threads && Saw(run[j].threads[t].ins)
    ensures m < j && Sleeps(run[m], l, run[j].threads[t].ins.link.deadline)
  {
    EarlierThread(c, run, j, t);
    ThreadGoes(c, run, j - 1, t);
    var i := run[j - 1].threads[t].ins;
    if Saw(i) { m, l := SawIsTrue(c, run, j - 1, t); } else { m, l := j - 1, i.step.next; }
  }

  lemma EarlierThread(c: Config, run: seq<State>, j: nat, t: Tid)
    requires Run(c, run) && j < |run| && t in run[j].threads && run[j].threads[t].ins.Inserting?
    ensures 0 < j && t in run[j - 1].threads
  {
    RunGoes(c, run, j - 1);
  }

  /** The bell is rung only by an insert that has seen a loop asleep past its deadline. */
  lemma RingsForSleepers(c: Config, run: seq<State>, j: nat) returns (t: Tid, m: nat, l: nat)
    requires Run(c, run) && j + 1 < |run| && run[j + 1].bell && !run[j].bell
    ensures t in run[j].threads && run[j].threads[t].ins.Inserting? && m < j && Sleeps(run[m], l, run[j].threads[t].ins.link.deadline)
  {
    RunGoes(c, run, j);
    t :| Goes(c, run[j], run[j + 1], t);
    m, l := SawIsTrue(c, run, j, t);
  }

  /** The wake is that of a slot which was marked at some moment so far. */
  ghost predicate SeenMarked(c: Config, run: seq<State>, j: nat, from: nat, best: Wake) {
    best.Never? || exists m: nat, k: Key :: m <= j < |run| && k in run[m].bits && ValidKey(c.g, k) && best == By(NextVisit(c.g, k, from) + 1)
  }

  ghost predicate PlanSeen(c: Config, run: seq<State>, j: nat, z: Sleep) {
    && (z.Planning? ==> SeenMarked(c, run, j, z.from, z.scan.best))
    && (z.Snapping? && z.after.Some? ==> SeenMarked(c, run, j, z.from, z.after.value.best))
  }

  lemma SeenLater(c: Config, run: seq<State>, j: nat, from: nat, best: Wake, best': Wake)
    requires j + 1 < |run| && SeenMarked(c, run, j, from, best) && BestGoes(c, run[j], from, best, best')
    ensures SeenMarked(c, run, j + 1, from, best')
  {
    if best' != best {
      var k :| k in run[j].bits && ValidKey(c.g, k) && best' == By(NextVisit(c.g, k, from) + 1);
    } else if best.By? {
      var m: nat, k: Key :| m <= j < |run| && k in run[m].bits && ValidKey(c.g, k) && best == By(NextVisit(c.g, k, from) + 1);
      assert m <= j + 1 && k in run[m].bits;
    }
  }

  lemma PlanSeenLater(c: Config, run: seq<State>, j: nat, z: Sleep, z': Sleep)
    requires j + 1 < |run| && PlanSeen(c, run, j, z) && PlanGoes(c, run[j], z, z')
    ensures PlanSeen(c, run, j + 1, z')
  {
    if z' == z {
      if z.Planning? { SeenLater(c, run, j, z.from, z.scan.best, z.scan.best); }
      if z.Snapping? && z.after.Some? { SeenLater(c, run, j, z.from, z.after.value.best, z.after.value.best); }
    } else if z'.Planning? {
      if z.Planning? { SeenLater(c, run, j, z.from, z.scan.best, z'.scan.best); }
    } else if z'.Snapping? && z'.after.Some? {
      if z.Planning? { SeenLater(c, run, j, z.from, z.scan.best, z'.after.value.best); }
      else { SeenLater(c, run, j, z.from, z.after.value.best, z.after.value.best); }
    }
  }

  lemma {:induction false} PlansSeen(c: Config, run: seq<State>, j: nat, t: Tid)
    requires Run(c, run) && j < |run| && t in run[j].threads
    ensures PlanSeen(c, run, j, run[j].threads[t].sleep)
  {
    if j > 0 {
      RunGoes(c, run, j - 1);
      assert t in run[j - 1].threads;
      PlansSeen(c, run, j - 1, t);
      ThreadGoes(c, run, j - 1, t);
      PlanSeenLater(c, run, j - 1, run[j - 1].threads[t].sleep, run[j].threads[t].sleep);
    }
  }

  /** The wake that a loop settles on is one tick behind where its scan began, or that of the
      next visit of a slot which it found marked. */
  lemma WakeHasReason(c: Config, run: seq<State>, j: nat, t: Tid)
    requires Run(c, run) && j + 1 < |run| && t in run[j].threads && t in run[j + 1].threads
    requires var z, z' := run[j].threads[t].sleep, run[j + 1].threads[t].sleep;
      (z.Planning? || z.Snapping?) && z'.Committing? && z'.wake.By?
    ensures var z, wake := run[j].threads[t].sleep, run[j + 1].threads[t].sleep.wake;
      wake == By(z.from + 1) || SeenMarked(c, run, j + 1, z.from, wake)
  {
    PlansSeen(c, run, j, t);
    ThreadGoes(c, run, j, t);
    var z, wake := run[j].threads[t].sleep, run[j + 1].threads[t].sleep.wake;
    if z.Planning? { SeenLater(c, run, j, z.from, z.scan.best, wake); }
    else if wake != By(z.from + 1) { SeenLater(c, run, j, z.from, wake, wake); }
  }
}
