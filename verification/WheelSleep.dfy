/** The sleep protocol keeps the wheel invariant; in particular a loop never
    commits to a horizon that loses a parked link it answers for. */
module WheelSleep {
  import opened Geometry
  import opened WheelScan
  import opened WheelMachine
  import opened WheelInvariant
  import opened WheelFrame

  // ------------------------------------------------------------ loop-local steps

  /** Only the loop's sleep record, its own horizon and the doorbell change. */
  ghost predicate SleepChanges(c: Config, s: State, s': State, t: Tid, z: Sleep) {
    && IsLoop(c, s, t)
    && |s'.wake| == |s.wake| && (forall j :: 0 <= j < |s.wake| && j != t ==> s'.wake[j] == s.wake[j])
    && s' == SetSleep(s, t, z).(wake := s'.wake, bell := s'.bell)
  }

  lemma SleepRely(c: Config, s: State, s': State, t: Tid, z: Sleep)
    requires SleepChanges(c, s, s', t, z)
    ensures Rely(c, s, s', t)
  {
  }

  /** A publication that hangs off its slot and has set its bit. */
  ghost predicate Visible(s: State, p: Pub) {
    p in s.pubs && s.pubs[p].place.Parked? && !s.pubs[p].stage.Unmarked?
  }

  /** The moving loop keeps covering what it covered. */
  ghost predicate KeepsCovering(c: Config, s: State, s': State, t: Tid) {
    forall p {:trigger Covered(c, s', p, t)} :: Visible(s, p) && Covered(c, s, p, t) ==> Covered(c, s', p, t)
  }

  /** If the loop was absent or took the doorbell, it covers everything now. */
  ghost predicate TakesOver(c: Config, s: State, s': State, t: Tid)
    requires t in s.threads
  {
    (s'.bell == s.bell && !s.threads[t].sleep.Absent?)
    || forall p {:trigger Covered(c, s', p, t)} :: Visible(s, p) ==> Covered(c, s', p, t)
  }

  lemma SleepCovered(c: Config, s: State, s': State, t: Tid, z: Sleep, p: Pub, j: nat)
    requires SleepChanges(c, s, s', t, z) && Rely(c, s, s', t) && KeepsCovering(c, s, s', t)
    requires Visible(s, p) && Covered(c, s, p, j)
    ensures Covered(c, s', p, j)
  {
    if j != t {
      CoveredStable(c, s, s', t, p, j);
    }
  }

  /** Coverage after a sleep step: what was absent stays absent or is the loop that
      has just entered, which covers everything. */
  lemma SleepCover(c: Config, s: State, s': State, t: Tid, z: Sleep, p: Pub)
    requires GlobalOk(c, s) && SleepChanges(c, s, s', t, z) && Rely(c, s, s', t) && KeepsCovering(c, s, s', t)
    requires TakesOver(c, s, s', t)
    requires p in s.pubs && s.pubs[p].place.Parked? && CoverOk(c, s, p)
    requires s.pubs[p].stage.Marked? ==> InsOk(c, s, s.pubs[p].publisher)
    ensures CoverOk(c, s', p)
  {
    match s.pubs[p].stage {
      case Unmarked =>
      case Marked =>
        var step := s.threads[s.pubs[p].publisher].ins.step;
        if !step.sawSleeper {
          forall j: nat | j < step.next ensures CoveredOrAbsent(c, s', p, j) {
            assert CoveredOrAbsent(c, s, p, j);
            if Covered(c, s, p, j) { SleepCovered(c, s, s', t, z, p, j); }
          }
        }
      case Returned =>
        SleepSafe(c, s, s', t, z, p);
    }
  }

  lemma SleepSafe(c: Config, s: State, s': State, t: Tid, z: Sleep, p: Pub)
    requires GlobalOk(c, s) && SleepChanges(c, s, s', t, z) && Rely(c, s, s', t) && KeepsCovering(c, s, s', t)
    requires TakesOver(c, s, s', t)
    requires Visible(s, p) && Safe(c, s, p)
    ensures Safe(c, s', p)
  {
    assert IsAbsent(s, t) ==> Covered(c, s', p, t);
    if !Covered(c, s', p, t) && !s.bell {
      var j: nat :| j < c.loops && Covered(c, s, p, j);
      SleepCovered(c, s, s', t, z, p, j);
    }
  }

  lemma SleepCovers(c: Config, s: State, s': State, t: Tid, z: Sleep)
    requires GlobalOk(c, s) && ThreadsOk(c, s) && CoversOk(c, s)
    requires SleepChanges(c, s, s', t, z) && Rely(c, s, s', t) && KeepsCovering(c, s, s', t)
    requires TakesOver(c, s, s', t)
    ensures CoversOk(c, s')
  {
    forall p | p in s'.pubs ensures CoverOk(c, s', p) {
      if s.pubs[p].place.Parked? {
        assert CoverOk(c, s, p);
        SleepCover(c, s, s', t, z, p);
      }
    }
  }

  lemma SleepLocal(c: Config, s: State, s': State, t: Tid, z: Sleep)
    requires Inv(c, s) && SleepChanges(c, s, s', t, z)
    requires SleepingOk(c, s', t, z) && KeepsCovering(c, s, s', t)
    requires TakesOver(c, s, s', t)
    ensures Inv(c, s') && Tame(s, s')
  {
    SleepRely(c, s, s', t, z);
    assert SweepOk(c, s, t);
    ThreadsStable(c, s, s', t);
    SlotsKept(c, s, s');
    ChainsKept(c, s, s');
    PubsKept(c, s, s', t);
    BitsKept(c, s, s', t);
    SleepCovers(c, s, s', t, z);
  }

  // -------------------------------------------------------- steps of the protocol

  /** A parked link's slot is visited no later than its deadline, and not before
      the cursor. */
  lemma ParkedVisit(c: Config, s: State, p: Pub)
    requires SlotsOk(c, s) && ChainsOk(c, s) && PubsOk(c, s)
    requires p in s.pubs && s.pubs[p].place.Parked?
    ensures var k := s.pubs[p].key;
      && ValidKey(c.g, k) && k in s.slots && WindowOf(c.g, k, s.slots[k].base)
      && s.cursor <= s.slots[k].base <= s.pubs[p].link.deadline
  {
    assert PubOk(c, s, p);
    assert SlotOk(c, s, s.pubs[p].key) && ChainOk(c, s, s.pubs[p].key);
  }

  /** A wake that serves the slot from a scan origin not past the cursor is no
      later than one tick after the deadline. */
  lemma ServedInTime(c: Config, s: State, p: Pub, from: nat, best: Wake)
    requires SlotsOk(c, s) && ChainsOk(c, s) && PubsOk(c, s)
    requires p in s.pubs && s.pubs[p].place.Parked? && from <= s.cursor
    ensures ValidKey(c.g, s.pubs[p].key)
    ensures Serves(c.g, from, best, s.pubs[p].key) ==> NoLater(best, s.pubs[p].link.deadline + 1)
    ensures NoLater(best, from + 1) ==> NoLater(best, s.pubs[p].link.deadline + 1)
  {
    ParkedVisit(c, s, p);
    NextVisitIsLeast(c.g, s.pubs[p].key, from, s.slots[s.pubs[p].key].base);
  }

  /** The next stage of the protocol covers everything by itself. */
  lemma FreshStage(c: Config, s: State, s': State, t: Tid, z: Sleep)
    requires Inv(c, s) && SleepChanges(c, s, s', t, z) && SleepingOk(c, s', t, z)
    requires z.Running? || z.Preparing? || z.Waking? || (z.Snapping? && z.after.None?)
    ensures Inv(c, s') && Tame(s, s')
  {
    forall p | Visible(s, p) ensures Covered(c, s', p, t) {
      assert PubOk(c, s, p);
    }
    SleepLocal(c, s, s', t, z);
  }

  lemma LoopEnterKeeps(c: Config, s: State, s': State, t: Tid)
    requires Inv(c, s) && LoopEnter(c, s, s', t)
    ensures Inv(c, s') && Tame(s, s')
  {
    assert SleepOk(c, s, t);
    FreshStage(c, s, s', t, Running);
  }

  lemma StoreEternalKeeps(c: Config, s: State, s': State, t: Tid, now: nat)
    requires Inv(c, s) && StoreEternal(c, s, s', t, now)
    ensures Inv(c, s') && Tame(s, s')
  {
    FreshStage(c, s, s', t, Preparing(now));
  }

  lemma SleepLoadCursorKeeps(c: Config, s: State, s': State, t: Tid)
    requires Inv(c, s) && SleepLoadCursor(c, s, s', t)
    ensures Inv(c, s') && Tame(s, s')
  {
    assert SleepOk(c, s, t);
    FreshStage(c, s, s', t, s'.threads[t].sleep);
  }

  lemma WakeUpKeeps(c: Config, s: State, s': State, t: Tid)
    requires Inv(c, s) && WakeUp(c, s, s', t)
    ensures Inv(c, s') && Tame(s, s')
  {
    FreshStage(c, s, s', t, Waking);
  }

  lemma StoreAwakeKeeps(c: Config, s: State, s': State, t: Tid)
    requires Inv(c, s) && StoreAwake(c, s, s', t)
    ensures Inv(c, s') && Tame(s, s')
  {
    FreshStage(c, s, s', t, Running);
  }

  /** A horizon capped at the scan origin covers everything. */
  lemma CappedKeeps(c: Config, s: State, s': State, t: Tid, z: Sleep, from: nat)
    requires Inv(c, s) && SleepChanges(c, s, s', t, z) && s'.wake == s.wake
    requires s.wake[t] == Eternal && from <= s.cursor && s'.bell == s.bell && !s.threads[t].sleep.Absent?
    requires z.Committing? && NoLater(z.wake, from + 1)
    ensures Inv(c, s') && Tame(s, s')
  {
    forall p | Visible(s, p) ensures Covered(c, s', p, t) {
      ServedInTime(c, s, p, from, z.wake);
    }
    SleepLocal(c, s, s', t, z);
  }

  lemma SnapExtends(c: Config, s: State, t: Tid, vals: seq<nat>, v: nat)
    requires GlobalOk(c, s) && SnapOk(c, s, t, vals) && |vals| < c.loops && t < c.loops
    requires v == (if |vals| == t then 0 else s.seqs[|vals|]) && v % 2 == 0
    ensures SnapOk(c, s, t, vals + [v])
  {
  }

  lemma SnapLoopCovering(c: Config, s: State, s': State, t: Tid, v: nat)
    requires SleepOk(c, s, t) && IsLoop(c, s, t) && s.threads[t].sleep.Snapping?
    requires var z := s.threads[t].sleep;
      && |z.vals| < c.loops && |z.vals| < |s.seqs| && v == (if |z.vals| == t then 0 else s.seqs[|z.vals|])
      && s' == SetSleep(s, t, z.(vals := z.vals + [v]))
    ensures KeepsCovering(c, s, s', t)
  {
    var z := s.threads[t].sleep;
    forall p | Visible(s, p) && Covered(c, s, p, t) ensures Covered(c, s', p, t) {
      if z.after.Some? && !NoLater(z.after.value.best, s.pubs[p].link.deadline + 1) {
        var before := z.after.value.before;
        var i: nat :| i < |before| && before[i] < (if i < |z.vals| then z.vals[i] else Component(c, s, t, i));
        assert before[i] < (if i < |z.vals + [v]| then (z.vals + [v])[i] else Component(c, s', t, i));
      }
    }
  }

  lemma SnapLoopKeeps(c: Config, s: State, s': State, t: Tid)
    requires Inv(c, s) && SnapLoop(c, s, s', t)
    ensures Inv(c, s') && Tame(s, s')
  {
    assert SleepOk(c, s, t);
    var z := s.threads[t].sleep;
    var v := if |z.vals| == t then 0 else s.seqs[|z.vals|];
    if v % 2 == 1 {
      CappedKeeps(c, s, s', t, SnapActive(z), z.from);
    } else {
      SnapExtends(c, s, t, z.vals, v);
      SnapLoopCovering(c, s, s', t, v);
      SnapLoopThread(c, s, s', t, v);
      SleepLocal(c, s, s', t, s'.threads[t].sleep);
    }
  }

  lemma SnapLoopThread(c: Config, s: State, s': State, t: Tid, v: nat)
    requires GlobalOk(c, s) && SleepOk(c, s, t) && IsLoop(c, s, t) && s.threads[t].sleep.Snapping?
    requires var z := s.threads[t].sleep;
      && |z.vals| < c.loops && v == (if |z.vals| == t then 0 else s.seqs[|z.vals|])
      && SnapOk(c, s, t, z.vals + [v])
      && s' == SetSleep(s, t, z.(vals := z.vals + [v]))
    ensures SleepingOk(c, s', t, s'.threads[t].sleep)
  {
    var z := s.threads[t].sleep;
    SleepRely(c, s, s', t, s'.threads[t].sleep);
    SnapStable(c, s, s', t, t, z.vals + [v]);
    if z.after.Some? {
      SnapStable(c, s, s', t, t, z.after.value.before);
      assert z.after.value.before[|z.vals|] <= Component(c, s, t, |z.vals|);
    }
  }

  // --------------------------------------------------------- completed snapshots

  lemma {:induction false} SumGrows(vals: seq<nat>, before: seq<nat>)
    requires NotBelow(vals, before) && |vals| == |before|
    ensures Sum(before) <= Sum(vals)
    ensures (exists i: nat :: i < |before| && before[i] < vals[i]) ==> Sum(before) < Sum(vals)
  {
    if vals != [] {
      assert NotBelow(vals[1..], before[1..]);
      SumGrows(vals[1..], before[1..]);
      if i: nat :| i < |before| && before[i] < vals[i] && 0 < i {
        assert before[1..][i - 1] < vals[1..][i - 1];
      }
    }
  }

  /** Equal versions mean that no bracket has moved: the scan can be trusted. */
  lemma QuietVersions(c: Config, s: State, t: Tid, vals: seq<nat>, before: seq<nat>)
    requires NotBelow(vals, before) && |vals| == |before| && Sum(vals) == Sum(before)
    ensures !WillNotice(c, s, t, vals, before)
  {
    SumGrows(vals, before);
  }

  lemma StartScanKeeps(c: Config, s: State, s': State, t: Tid, vals: seq<nat>, retried: bool)
    requires Inv(c, s) && IsLoop(c, s, t) && s.threads[t].sleep.Snapping?
    requires var z := s.threads[t].sleep;
      s' == SetSleep(s, t, StartScan(c, z.now, z.from, vals, retried))
    requires FullSnap(c, s, t, vals)
    ensures Inv(c, s') && Tame(s, s')
  {
    assert SleepOk(c, s, t);
    var z := s.threads[t].sleep;
    EnterLevelOk(c.g, z.from, 0, Never);
    SleepRely(c, s, s', t, s'.threads[t].sleep);
    SnapStable(c, s, s', t, t, vals);
    forall p | Visible(s, p) ensures Covered(c, s', p, t) {
      assert PubOk(c, s, p);
      EnterLevelKeeps(c.g, z.from, 0, Never, s.pubs[p].key);
    }
    SleepLocal(c, s, s', t, s'.threads[t].sleep);
  }

  lemma TrustedKeeps(c: Config, s: State, s': State, t: Tid, vals: seq<nat>)
    requires Inv(c, s) && IsLoop(c, s, t) && s.threads[t].sleep.Snapping? && s.threads[t].sleep.after.Some?
    requires var z := s.threads[t].sleep;
      var a := z.after.value;
      && |z.vals| == c.loops && vals == z.vals + [s.epoch] && Sum(vals) == Sum(a.before)
      && s' == SetSleep(s, t, Committing(z.now, a.best))
    ensures Inv(c, s') && Tame(s, s')
  {
    assert SleepOk(c, s, t);
    var z := s.threads[t].sleep;
    var before := z.after.value.before;
    assert before[c.loops] <= Component(c, s, t, c.loops);
    QuietVersions(c, s, t, vals, before);
    assert forall i: nat :: i < |before| ==>
      (if i < |z.vals| then z.vals[i] else Component(c, s, t, i)) == vals[i];
    assert !WillNotice(c, s, t, z.vals, before);
    forall p | Visible(s, p) && Covered(c, s, p, t) ensures Covered(c, s', p, t) {}
    SleepLocal(c, s, s', t, s'.threads[t].sleep);
  }

  lemma SnapOverflowKeeps(c: Config, s: State, s': State, t: Tid)
    requires Inv(c, s) && SnapOverflow(c, s, s', t)
    ensures Inv(c, s') && Tame(s, s')
  {
    assert SleepOk(c, s, t);
    var z := s.threads[t].sleep;
    var vals := z.vals + [s.epoch];
    if s.active != 0 {
      CappedKeeps(c, s, s', t, SnapActive(z), z.from);
    } else if z.after.None? {
      StartScanKeeps(c, s, s', t, vals, false);
    } else if Sum(vals) == Sum(z.after.value.before) {
      TrustedKeeps(c, s, s', t, vals);
    } else if z.after.value.retried {
      CappedKeeps(c, s, s', t, Committing(z.now, Cap(z.after.value.best, z.from)), z.from);
    } else {
      StartScanKeeps(c, s, s', t, vals, true);
    }
  }

  // --------------------------------------------------------------- the word loads

  /** A visible link whose bit is clear has an open bracket behind it, and that
      bracket was opened after the planner's snapshot. */
  lemma ClearBitIsDirty(c: Config, s: State, t: Tid, p: Pub, before: seq<nat>)
    requires GlobalOk(c, s) && ThreadsOk(c, s) && PubsOk(c, s) && BitsOk(c, s)
    requires IsLoop(c, s, t) && FullSnap(c, s, t, before)
    requires Visible(s, p) && s.pubs[p].key !in s.bits
    ensures Dirty(c, s, t, before)
  {
    var k := s.pubs[p].key;
    assert PubOk(c, s, p) && BitOk(c, s, k);
    var u := s.clearer[k];
    assert Unresolved(c, s, u, k) && SweepOk(c, s, u);
    var i := if u < c.loops then u else c.loops;
    assert u >= c.loops ==> s.openers != {};
    assert before[i] < Component(c, s, t, i);
  }

  lemma ScanCovering(c: Config, s: State, s': State, t: Tid)
    requires Inv(c, s) && ScanLoad(c, s, s', t)
    requires s'.threads[t].sleep.Planning?
    ensures KeepsCovering(c, s, s', t)
  {
    assert SleepOk(c, s, t);
    var z := s.threads[t].sleep;
    SleepRely(c, s, s', t, s'.threads[t].sleep);
    forall p | Visible(s, p) && Covered(c, s, p, t) ensures Covered(c, s', p, t) {
      ScanCovers(c, s, t, p);
      if Dirty(c, s, t, z.before) { DirtyStable(c, s, s', t, z.before); }
    }
  }

  lemma DirtyStable(c: Config, s: State, s': State, t: Tid, before: seq<nat>)
    requires Rely(c, s, s', t) && Dirty(c, s, t, before)
    ensures Dirty(c, s', t, before)
  {
    var i: nat :| i < |before| && before[i] < Component(c, s, t, i);
    ComponentsGrow(c, s, s', t, t, i);
  }

  /** One word load, seen from one visible link. */
  lemma ScanCovers(c: Config, s: State, t: Tid, p: Pub)
    requires Inv(c, s) && IsLoop(c, s, t) && s.threads[t].sleep.Planning?
    requires Visible(s, p) && Covered(c, s, p, t)
    ensures var z := s.threads[t].sleep;
      && z.scan.Scanning? && z.scan.level < c.g.levels && ValidKey(c.g, s.pubs[p].key)
      && (|| AheadOrServed(c.g, z.from, ScanWord(c.g, z.from, z.scan, s.bits), s.pubs[p].key)
          || Dirty(c, s, t, z.before))
  {
    assert SleepOk(c, s, t);
    var z := s.threads[t].sleep;
    if !Dirty(c, s, t, z.before) {
      if s.pubs[p].key in s.bits {
        ScanWordKeeps(c.g, z.from, z.scan, s.bits, s.pubs[p].key);
      } else {
        ClearBitIsDirty(c, s, t, p, z.before);
      }
    }
  }

  lemma ScanDoneCovering(c: Config, s: State, s': State, t: Tid)
    requires Inv(c, s) && ScanLoad(c, s, s', t)
    requires s'.threads[t].sleep.Snapping?
    ensures KeepsCovering(c, s, s', t)
  {
    assert SleepOk(c, s, t);
    SleepRely(c, s, s', t, s'.threads[t].sleep);
    forall p | Visible(s, p) && Covered(c, s, p, t) ensures Covered(c, s', p, t) {
      ScanDoneCovers(c, s, s', t, p);
    }
  }

  lemma ScanDoneCovers(c: Config, s: State, s': State, t: Tid, p: Pub)
    requires Inv(c, s) && ScanLoad(c, s, s', t) && Rely(c, s, s', t)
    requires s'.threads[t].sleep.Snapping? && Visible(s, p) && Covered(c, s, p, t)
    ensures Covered(c, s', p, t)
  {
    assert SleepOk(c, s, t);
    var z := s.threads[t].sleep;
    ScanCovers(c, s, t, p);
    ServedInTime(c, s, p, z.from, ScanWord(c.g, z.from, z.scan, s.bits).best);
    if Dirty(c, s, t, z.before) { DirtyNoticed(c, s, s', t, z.before); }
  }

  lemma DirtyNoticed(c: Config, s: State, s': State, t: Tid, before: seq<nat>)
    requires Rely(c, s, s', t) && Dirty(c, s, t, before)
    ensures WillNotice(c, s', t, [], before)
  {
    DirtyStable(c, s, s', t, before);
    var i: nat :| i < |before| && before[i] < Component(c, s', t, i);
  }

  lemma ScanThread(c: Config, s: State, s': State, t: Tid)
    requires GlobalOk(c, s) && SleepOk(c, s, t) && ScanLoad(c, s, s', t)
    ensures SleepingOk(c, s', t, s'.threads[t].sleep)
  {
    var z := s.threads[t].sleep;
    ScanWordOk(c.g, z.from, z.scan, s.bits);
    SleepRely(c, s, s', t, s'.threads[t].sleep);
    SnapStable(c, s, s', t, t, z.before);
  }

  lemma ScanLoadKeeps(c: Config, s: State, s': State, t: Tid)
    requires Inv(c, s) && ScanLoad(c, s, s', t)
    ensures Inv(c, s') && Tame(s, s')
  {
    assert SleepOk(c, s, t);
    var z, z' := s.threads[t].sleep, s'.threads[t].sleep;
    ScanThread(c, s, s', t);
    if z'.Committing? {
      CappedKeeps(c, s, s', t, z', z.from);
    } else {
      if z'.Planning? { ScanCovering(c, s, s', t); } else { ScanDoneCovering(c, s, s', t); }
      SleepLocal(c, s, s', t, z');
    }
  }

  lemma StoreWakeKeeps(c: Config, s: State, s': State, t: Tid)
    requires Inv(c, s) && StoreWake(c, s, s', t)
    ensures Inv(c, s') && Tame(s, s')
  {
    assert SleepOk(c, s, t);
    SleepLocal(c, s, s', t, Asleep);
  }

  lemma SleepMovesKeep(c: Config, s: State, s': State, t: Tid)
    requires Inv(c, s) && SleepMoves(c, s, s', t)
    ensures Inv(c, s') && Tame(s, s')
  {
    if LoopEnter(c, s, s', t) { LoopEnterKeeps(c, s, s', t); }
    else if SleepLoadCursor(c, s, s', t) { SleepLoadCursorKeeps(c, s, s', t); }
    else if SnapLoop(c, s, s', t) { SnapLoopKeeps(c, s, s', t); }
    else if SnapOverflow(c, s, s', t) { SnapOverflowKeeps(c, s, s', t); }
    else if ScanLoad(c, s, s', t) { ScanLoadKeeps(c, s, s', t); }
    else if StoreWake(c, s, s', t) { StoreWakeKeeps(c, s, s', t); }
    else if WakeUp(c, s, s', t) { WakeUpKeeps(c, s, s', t); }
    else if StoreAwake(c, s, s', t) { StoreAwakeKeeps(c, s, s', t); }
    else {
      var now: nat :| StoreEternal(c, s, s', t, now);
      StoreEternalKeeps(c, s, s', t, now);
    }
  }
}
