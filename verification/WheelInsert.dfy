/** The arm path keeps the wheel invariant. */
module WheelInsert {
  import opened Geometry
  import opened WheelMachine
  import opened WheelInvariant
  import opened WheelFrame

  /** A step of the insert loop that touches nothing but the thread's own record. */
  lemma InsLocal(c: Config, s: State, s': State, t: Tid, ins: Insertion)
    requires Inv(c, s) && Inserts(s, t) && s' == SetIns(s, t, ins)
    requires InsertionOk(c, s', t, ins)
    requires !s.threads[t].ins.step.Marking? && !s.threads[t].ins.step.Kicking?
    ensures Inv(c, s') && Tame(s, s')
  {
    RelyLocal(c, s, s', t, s'.threads[t]);
    LocalSweepSleep(c, s, s', t);
    ThreadsStable(c, s, s', t);
    SlotsKept(c, s, s');
    ChainsKept(c, s, s');
    PubsKept(c, s, s', t);
    BitsKept(c, s, s', t);
    CoversKept(c, s, s', t);
  }

  /** The sweep and sleep records of the thread stay what they are. */
  lemma LocalSweepSleep(c: Config, s: State, s': State, t: Tid)
    requires Rely(c, s, s', t) && SweepOk(c, s, t) && SleepOk(c, s, t)
    requires s'.threads[t].sweep == s.threads[t].sweep && s'.threads[t].sleep == s.threads[t].sleep
    requires s'.seqs == s.seqs && s'.openers == s.openers && s'.wake == s.wake
    requires forall p :: p in HeldBy(s.threads[t].sweep) && p in s.pubs ==> p in s'.pubs && s'.pubs[p].place == s.pubs[p].place
    requires Busy(s'.threads[t]) ==> Busy(s.threads[t]) || s.threads[t].sleep.Outside? || s.threads[t].sleep.Running?
    ensures SweepOk(c, s', t) && SleepOk(c, s', t)
  {
    var w := s.threads[t].sweep;
    match w {
      case Visiting(_, tick, level, _, _) => DrainedStable(c, s, s', t, level + 1, tick);
      case Processing(_, tick, level, _) => DrainedStable(c, s, s', t, level, tick);
      case Confirming(_, tick) => DrainedStable(c, s, s', t, 0, tick);
      case _ =>
    }
    if t < c.loops {
      SleepingStable(c, s, s', t, t, s.threads[t].sleep);
    }
  }

  /** What an observed pair of the routed slot proves. */
  lemma ObservedOk(c: Config, s: State, s': State, t: Tid, pair: Pair)
    requires GlobalOk(c, s) && SlotsOk(c, s) && Inserts(s, t)
    requires var i := s.threads[t].ins;
      && i.hint <= s.cursor && i.hint <= i.link.deadline && OwnsLink(s, t, i.link)
      && pair.high == s.slots[RouteKey(c.g, i.hint, i.link.deadline)].base
      && s' == SetIns(s, t, Observed(c, i.link, i.hint, pair))
    ensures InsertionOk(c, s', t, s'.threads[t].ins)
  {
    var i := s.threads[t].ins;
    var k := RouteKey(c.g, i.hint, i.link.deadline);
    assert SlotOk(c, s, k);
    if pair.high != RouteBase(c.g, i.hint, i.link.deadline) {
      MismatchIsDrained(c.g, i.hint, i.link.deadline, s.slots[k].base);
      if k.level == 0 {
        LevelZeroIsExact(c.g, i.hint, i.link.deadline);
      }
    }
  }

  lemma InsertLateKeeps(c: Config, s: State, s': State, t: Tid)
    requires Inv(c, s) && InsertLate(c, s, s', t)
    ensures Inv(c, s') && Tame(s, s')
  {
    assert InsOk(c, s, t);
    assert SlotOk(c, s, KeyAt(c.g, 0, s.threads[t].ins.link.deadline));
    InsLocal(c, s, s', t, s.threads[t].ins.(step := Refused));
  }

  lemma InsertLoadLowKeeps(c: Config, s: State, s': State, t: Tid)
    requires Inv(c, s) && InsertLoadLow(c, s, s', t)
    ensures Inv(c, s') && Tame(s, s')
  {
    assert InsOk(c, s, t);
    InsLocal(c, s, s', t, s'.threads[t].ins);
  }

  lemma InsertLoadHighKeeps(c: Config, s: State, s': State, t: Tid)
    requires Inv(c, s) && InsertLoadHigh(c, s, s', t)
    ensures Inv(c, s') && Tame(s, s')
  {
    assert InsOk(c, s, t);
    var i := s.threads[t].ins;
    ObservedOk(c, s, s', t, Pair(i.step.low, s.slots[RouteKey(c.g, i.hint, i.link.deadline)].base));
    InsLocal(c, s, s', t, s'.threads[t].ins);
  }

  lemma InsertLostKeeps(c: Config, s: State, s': State, t: Tid)
    requires Inv(c, s) && InsertLost(c, s, s', t)
    ensures Inv(c, s') && Tame(s, s')
  {
    assert InsOk(c, s, t);
    var i := s.threads[t].ins;
    ObservedOk(c, s, s', t, PairOf(s, RouteKey(c.g, i.hint, i.link.deadline)));
    InsLocal(c, s, s', t, s'.threads[t].ins);
  }

  // ------------------------------------------------------------- the publication

  lemma PublishRely(c: Config, s: State, s': State, t: Tid, p: Pub)
    requires Inv(c, s) && InsertPublish(c, s, s', t, p)
    ensures Rely(c, s, s', t) && GlobalOk(c, s')
  {
    assert InsOk(c, s, t);
    forall q | q in s.pubs ensures PubKept(s, s', t, q) {}
  }

  lemma PublishThread(c: Config, s: State, s': State, t: Tid, p: Pub)
    requires Inv(c, s) && InsertPublish(c, s, s', t, p) && Rely(c, s, s', t)
    ensures InsOk(c, s', t) && SweepOk(c, s', t) && SleepOk(c, s', t)
  {
    assert InsOk(c, s, t);
    LocalSweepSleep(c, s, s', t);
  }

  lemma PublishThreads(c: Config, s: State, s': State, t: Tid, p: Pub)
    requires Inv(c, s) && InsertPublish(c, s, s', t, p) && Rely(c, s, s', t)
    ensures ThreadsOk(c, s')
  {
    PublishThread(c, s, s', t, p);
    ThreadsStable(c, s, s', t);
  }

  lemma PublishBases(c: Config, s: State, s': State, t: Tid, p: Pub)
    requires SlotsOk(c, s) && InsertPublish(c, s, s', t, p)
    ensures SlotsOk(c, s')
  {
    forall k | ValidKey(c.g, k) ensures SlotOk(c, s', k) {
      assert SlotOk(c, s, k);
    }
  }

  lemma PublishSlots(c: Config, s: State, s': State, t: Tid, p: Pub)
    requires Inv(c, s) && InsertPublish(c, s, s', t, p)
    ensures SlotsOk(c, s') && ChainsOk(c, s')
  {
    PublishBases(c, s, s', t, p);
    assert InsOk(c, s, t);
    forall k | ValidKey(c.g, k) ensures ChainOk(c, s', k) {
      assert ChainOk(c, s, k);
    }
  }

  lemma PublishPubs(c: Config, s: State, s': State, t: Tid, p: Pub)
    requires Inv(c, s) && InsertPublish(c, s, s', t, p)
    ensures PubsOk(c, s')
  {
    assert InsOk(c, s, t);
    forall q | q in s'.pubs ensures PubOk(c, s', q) {
      if q != p { assert PubOk(c, s, q); }
    }
  }

  lemma PublishBits(c: Config, s: State, s': State, t: Tid, p: Pub)
    requires Inv(c, s) && InsertPublish(c, s, s', t, p)
    ensures BitsOk(c, s')
  {
    forall k | ValidKey(c.g, k) ensures BitOk(c, s', k) {
      assert BitOk(c, s, k);
    }
  }

  lemma InsertPublishKeeps(c: Config, s: State, s': State, t: Tid, p: Pub)
    requires Inv(c, s) && InsertPublish(c, s, s', t, p)
    ensures Inv(c, s') && Tame(s, s')
  {
    PublishRely(c, s, s', t, p);
    PublishThreads(c, s, s', t, p);
    PublishSlots(c, s, s', t, p);
    PublishPubs(c, s, s', t, p);
    PublishBits(c, s, s', t, p);
    PublishCovers(c, s, s', t, p);
  }

  lemma PublishCovers(c: Config, s: State, s': State, t: Tid, p: Pub)
    requires Inv(c, s) && InsertPublish(c, s, s', t, p) && Rely(c, s, s', t)
    ensures CoversOk(c, s')
  {
    CoversKeptBut(c, s, s', t, p);
  }

  // --------------------------------------------------------- the occupancy set

  lemma MarkThread(c: Config, s: State, s': State, t: Tid)
    requires Inv(c, s) && InsertMark(c, s, s', t)
    ensures Rely(c, s, s', t)
    ensures InsOk(c, s', t) && SweepOk(c, s', t) && SleepOk(c, s', t)
  {
    assert InsOk(c, s, t) && SweepOk(c, s, t) && SleepOk(c, s, t);
    MarkRely(c, s, s', t);
    LocalSweepSleep(c, s, s', t);
  }

  lemma MarkRely(c: Config, s: State, s': State, t: Tid)
    requires InsOk(c, s, t) && InsertMark(c, s, s', t)
    ensures Rely(c, s, s', t)
  {
  }

  lemma MarkThreads(c: Config, s: State, s': State, t: Tid)
    requires Inv(c, s) && InsertMark(c, s, s', t)
    ensures ThreadsOk(c, s') && Rely(c, s, s', t) && InsOk(c, s, t)
  {
    MarkThread(c, s, s', t);
    ThreadsStable(c, s, s', t);
  }

  lemma MarkPubs(c: Config, s: State, s': State, t: Tid)
    requires Inv(c, s) && InsertMark(c, s, s', t)
    ensures ChainsOk(c, s') && PubsOk(c, s')
  {
    forall k | ValidKey(c.g, k) ensures ChainOk(c, s', k) {
      assert ChainOk(c, s, k);
    }
    forall q | q in s'.pubs ensures PubOk(c, s', q) {
      assert PubOk(c, s, q);
    }
  }

  /** The publisher's own set closes its bitless window. */
  lemma MarkBits(c: Config, s: State, s': State, t: Tid)
    requires Inv(c, s) && InsertMark(c, s, s', t)
    ensures BitsOk(c, s')
  {
    forall k | ValidKey(c.g, k) ensures BitOk(c, s', k) {
      assert BitOk(c, s, k);
    }
  }

  lemma InsertMarkKeeps(c: Config, s: State, s': State, t: Tid)
    requires Inv(c, s) && InsertMark(c, s, s', t)
    ensures Inv(c, s') && Tame(s, s')
  {
    MarkThreads(c, s, s', t);
    SlotsKept(c, s, s');
    MarkPubs(c, s, s', t);
    MarkBits(c, s, s', t);
    MarkCovers(c, s, s', t);
  }

  lemma MarkCovers(c: Config, s: State, s': State, t: Tid)
    requires Inv(c, s) && InsertMark(c, s, s', t) && Rely(c, s, s', t)
    ensures CoversOk(c, s')
  {
    assert InsOk(c, s, t);
    CoversKeptBut(c, s, s', t, s.threads[t].ins.step.pub);
  }

  // -------------------------------------------------------------------- the kick

  /** A loop whose horizon says awake covers everything, or is not there. */
  lemma AwakeCovers(c: Config, s: State, p: Pub, j: nat)
    requires GlobalOk(c, s) && j < c.loops && SleepOk(c, s, j) && s.wake[j] == Awake
    requires p in s.pubs && ValidKey(c.g, s.pubs[p].key)
    ensures CoveredOrAbsent(c, s, p, j)
  {
  }

  /** A loop whose horizon is no later than one past the deadline covers it. */
  lemma HorizonCovers(c: Config, s: State, p: Pub, j: nat)
    requires GlobalOk(c, s) && j < c.loops && SleepOk(c, s, j)
    requires p in s.pubs && ValidKey(c.g, s.pubs[p].key) && Covers(s.wake[j], s.pubs[p].link.deadline)
    ensures Covered(c, s, p, j)
  {
  }

  lemma KickLoadCover(c: Config, s: State, s': State, t: Tid)
    requires Inv(c, s) && KickLoad(c, s, s', t) && Rely(c, s, s', t)
    requires s.threads[t].ins.step.pub in s.pubs && s.pubs[s.threads[t].ins.step.pub].place.Parked?
    ensures CoverOk(c, s', s.threads[t].ins.step.pub)
  {
    assert InsOk(c, s, t);
    var step := s.threads[t].ins.step;
    var p := step.pub;
    assert CoverOk(c, s, p) && PubOk(c, s, p);
    KickKept(c, s, s', t, p, step);
    if s.wake[step.next] == Awake { KickNext(c, s, s', t, p, step.next); }
  }

  lemma KickNext(c: Config, s: State, s': State, t: Tid, p: Pub, j: nat)
    requires GlobalOk(c, s) && ThreadsOk(c, s) && Rely(c, s, s', t) && SleepersKept(c, s, s')
    requires j < c.loops && s.wake[j] == Awake && p in s.pubs && ValidKey(c.g, s.pubs[p].key)
    ensures CoveredOrAbsent(c, s', p, j)
  {
    assert SleepOk(c, s, j);
    AwakeCovers(c, s, p, j);
    if Covered(c, s, p, j) { CoveredStable(c, s, s', t, p, j); }
  }

  lemma KickLoadThreads(c: Config, s: State, s': State, t: Tid)
    requires ThreadsOk(c, s) && KickLoad(c, s, s', t)
    ensures ThreadsOk(c, s') && Rely(c, s, s', t)
  {
    assert InsOk(c, s, t) && SweepOk(c, s, t) && SleepOk(c, s, t);
    RelyLocal(c, s, s', t, s'.threads[t]);
    LocalSweepSleep(c, s, s', t);
    ThreadsStable(c, s, s', t);
  }

  lemma KickLoadKeeps(c: Config, s: State, s': State, t: Tid)
    requires Inv(c, s) && KickLoad(c, s, s', t)
    ensures Inv(c, s') && Tame(s, s')
  {
    assert InsOk(c, s, t);
    KickLoadThreads(c, s, s', t);
    SlotsKept(c, s, s');
    ChainsKept(c, s, s');
    PubsKept(c, s, s', t);
    BitsKept(c, s, s', t);
    var p := s.threads[t].ins.step.pub;
    CoversKeptBut(c, s, s', t, p);
    if s.pubs[p].place.Parked? { KickLoadCover(c, s, s', t); }
  }

  /** The insert returns: the thread's record and the publication's stage move. */
  ghost predicate Returns(s: State, s': State, t: Tid) {
    && Inserts(s, t) && s.threads[t].ins.step.Kicking? && s.threads[t].ins.step.pub in s.pubs
    && var p := s.threads[t].ins.step.pub;
    && s' == SetIns(s, t, NotInserting).(
               bell := s'.bell, pubs := s.pubs[p := s.pubs[p].(stage := Returned)])
  }

  lemma ReturnThread(c: Config, s: State, s': State, t: Tid)
    requires Inv(c, s) && Returns(s, s', t)
    ensures Rely(c, s, s', t)
    ensures InsOk(c, s', t) && SweepOk(c, s', t) && SleepOk(c, s', t)
  {
    assert InsOk(c, s, t) && SweepOk(c, s, t) && SleepOk(c, s, t);
    ReturnRely(c, s, s', t);
    LocalSweepSleep(c, s, s', t);
  }

  lemma ReturnRely(c: Config, s: State, s': State, t: Tid)
    requires InsOk(c, s, t) && Returns(s, s', t)
    ensures Rely(c, s, s', t)
  {
  }

  lemma ReturnPubs(c: Config, s: State, s': State, t: Tid)
    requires Inv(c, s) && Returns(s, s', t)
    ensures ChainsOk(c, s') && PubsOk(c, s') && BitsOk(c, s')
  {
    assert InsOk(c, s, t);
    forall k | ValidKey(c.g, k) ensures ChainOk(c, s', k) && BitOk(c, s', k) {
      assert ChainOk(c, s, k) && BitOk(c, s, k);
    }
    forall q | q in s'.pubs ensures PubOk(c, s', q) {
      assert PubOk(c, s, q);
    }
  }

  lemma ReturnKeeps(c: Config, s: State, s': State, t: Tid)
    requires Inv(c, s) && Returns(s, s', t) && (s.bell ==> s'.bell)
    requires var p := s.threads[t].ins.step.pub; s.pubs[p].place.Parked? ==> Safe(c, s', p)
    ensures Inv(c, s') && Tame(s, s')
  {
    ReturnThreads(c, s, s', t);
    SlotsKept(c, s, s');
    ReturnPubs(c, s, s', t);
    CoversKeptBut(c, s, s', t, s.threads[t].ins.step.pub);
  }

  lemma ReturnThreads(c: Config, s: State, s': State, t: Tid)
    requires Inv(c, s) && Returns(s, s', t)
    ensures ThreadsOk(c, s') && Rely(c, s, s', t)
  {
    ReturnThread(c, s, s', t);
    ThreadsStable(c, s, s', t);
  }

  lemma KickCoveredKeeps(c: Config, s: State, s': State, t: Tid)
    requires Inv(c, s) && KickCovered(c, s, s', t)
    ensures Inv(c, s') && Tame(s, s')
  {
    assert InsOk(c, s, t);
    var step := s.threads[t].ins.step;
    assert PubOk(c, s, step.pub) && SleepOk(c, s, step.next);
    ReturnThread(c, s, s', t);
    HorizonCovers(c, s, step.pub, step.next);
    CoveredStable(c, s, s', t, step.pub, step.next);
    ReturnKeeps(c, s, s', t);
  }

  /** All horizons said awake, or the bell is rung. */
  lemma KickEndSafe(c: Config, s: State, s': State, t: Tid)
    requires Inv(c, s) && KickEnd(c, s, s', t) && Rely(c, s, s', t)
    requires s.pubs[s.threads[t].ins.step.pub].place.Parked?
    ensures Safe(c, s', s.threads[t].ins.step.pub)
  {
    assert InsOk(c, s, t);
    var step := s.threads[t].ins.step;
    var p := step.pub;
    assert CoverOk(c, s, p);
    if !step.sawSleeper && !Safe(c, s', p) {
      forall j: nat | j < c.loops ensures IsAbsent(s', j) {
        assert CoveredOrAbsent(c, s, p, j);
        if Covered(c, s, p, j) { CoveredStable(c, s, s', t, p, j); }
      }
    }
  }

  lemma KickEndKeeps(c: Config, s: State, s': State, t: Tid)
    requires Inv(c, s) && KickEnd(c, s, s', t)
    ensures Inv(c, s') && Tame(s, s')
  {
    assert InsOk(c, s, t);
    var step := s.threads[t].ins.step;
    ReturnThread(c, s, s', t);
    if s.pubs[step.pub].place.Parked? { KickEndSafe(c, s, s', t); }
    ReturnKeeps(c, s, s', t);
  }

  // ---------------------------------------------------------- arming, delivering

  /** Only the thread's insertion, the ownership of one link that it owns or takes
      from the pool, and the operation words change. */
  ghost predicate LinkChanges(s: State, s': State, t: Tid, a: Addr, o: Owner) {
    && t in s.threads && t in s'.threads
    && (a in s.owner ==> s.owner[a] == Pool || s.owner[a] == ByThread(t))
    && s' == SetIns(s, t, s'.threads[t].ins).(owner := s.owner[a := o], ops := s'.ops, log := s'.log)
  }

  lemma LinkChangePubs(c: Config, s: State, s': State, t: Tid, a: Addr, o: Owner)
    requires PubsOk(c, s) && LinkChanges(s, s', t, a, o)
    ensures PubsOk(c, s')
  {
    forall q | q in s'.pubs ensures PubOk(c, s', q) {
      assert PubOk(c, s, q);
    }
  }

  lemma LinkChangeKeeps(c: Config, s: State, s': State, t: Tid, a: Addr, o: Owner)
    requires Inv(c, s) && LinkChanges(s, s', t, a, o)
    requires s.threads[t].ins.Inserting? ==> !s.threads[t].ins.step.Marking? && !s.threads[t].ins.step.Kicking?
    requires InsOk(c, s', t) && LogOk(c, s')
    requires s'.threads[t].ins.Inserting? ==> s.threads[t].ins.Inserting? || s.threads[t].sleep.Outside? || s.threads[t].sleep.Running?
    ensures Inv(c, s') && Tame(s, s')
  {
    LinkChangeRely(c, s, s', t, a, o);
    LinkChangeThreads(c, s, s', t, a, o);
    SlotsKept(c, s, s');
    ChainsKept(c, s, s');
    BitsKept(c, s, s', t);
    LinkChangeCovers(c, s, s', t, a, o);
    LinkChangePubs(c, s, s', t, a, o);
  }

  lemma LinkChangeRely(c: Config, s: State, s': State, t: Tid, a: Addr, o: Owner)
    requires LinkChanges(s, s', t, a, o)
    ensures Rely(c, s, s', t)
  {
  }

  lemma LinkChangeThreads(c: Config, s: State, s': State, t: Tid, a: Addr, o: Owner)
    requires ThreadsOk(c, s) && LinkChanges(s, s', t, a, o) && Rely(c, s, s', t) && InsOk(c, s', t)
    requires s'.threads[t].ins.Inserting? ==> s.threads[t].ins.Inserting? || s.threads[t].sleep.Outside? || s.threads[t].sleep.Running?
    ensures ThreadsOk(c, s')
  {
    LocalSweepSleep(c, s, s', t);
    ThreadsStable(c, s, s', t);
  }

  lemma LinkChangeCovers(c: Config, s: State, s': State, t: Tid, a: Addr, o: Owner)
    requires GlobalOk(c, s) && ThreadsOk(c, s) && CoversOk(c, s) && LinkChanges(s, s', t, a, o) && Rely(c, s, s', t)
    requires s.threads[t].ins.Inserting? ==> !s.threads[t].ins.step.Marking? && !s.threads[t].ins.step.Kicking?
    ensures CoversOk(c, s')
  {
    CoversKept(c, s, s', t);
  }

  lemma ArmKeeps(c: Config, s: State, s': State, t: Tid, link: Link)
    requires Inv(c, s) && Arm(c, s, s', t, link)
    ensures Inv(c, s') && Tame(s, s')
  {
    LinkChangeKeeps(c, s, s', t, link.addr, ByThread(t));
  }

  lemma DeliverLog(c: Config, s: State, s': State, t: Tid)
    requires Inv(c, s) && Deliver(c, s, s', t)
    ensures LogOk(c, s')
  {
    assert InsOk(c, s, t);
  }

  lemma DeliverKeeps(c: Config, s: State, s': State, t: Tid)
    requires Inv(c, s) && Deliver(c, s, s', t)
    ensures Inv(c, s') && Tame(s, s')
  {
    assert InsOk(c, s, t);
    DeliverLog(c, s, s', t);
    LinkChangeKeeps(c, s, s', t, s.threads[t].ins.link.addr, Pool);
  }

  lemma InsertLocalMovesKeep(c: Config, s: State, s': State, t: Tid)
    requires Inv(c, s) && InsertLocalMoves(c, s, s', t)
    ensures Inv(c, s') && Tame(s, s')
  {
    if InsertLate(c, s, s', t) { InsertLateKeeps(c, s, s', t); }
    else if InsertLoadLow(c, s, s', t) { InsertLoadLowKeeps(c, s, s', t); }
    else if InsertLoadHigh(c, s, s', t) { InsertLoadHighKeeps(c, s, s', t); }
    else if InsertLost(c, s, s', t) { InsertLostKeeps(c, s, s', t); }
    else { KickLoadKeeps(c, s, s', t); }
  }

  lemma InsertSharedMovesKeep(c: Config, s: State, s': State, t: Tid)
    requires Inv(c, s) && InsertSharedMoves(c, s, s', t)
    ensures Inv(c, s') && Tame(s, s')
  {
    if InsertMark(c, s, s', t) { InsertMarkKeeps(c, s, s', t); }
    else if KickCovered(c, s, s', t) { KickCoveredKeeps(c, s, s', t); }
    else if KickEnd(c, s, s', t) { KickEndKeeps(c, s, s', t); }
    else if Deliver(c, s, s', t) { DeliverKeeps(c, s, s', t); }
    else if exists link: Link :: Arm(c, s, s', t, link) {
      var link: Link :| Arm(c, s, s', t, link);
      ArmKeeps(c, s, s', t, link);
    } else {
      var p: Pub :| InsertPublish(c, s, s', t, p);
      InsertPublishKeeps(c, s, s', t, p);
    }
  }
}
