/** How the pieces of the wheel invariant survive steps that do not concern them. */
module WheelFrame {
  import opened Geometry
  import opened WheelMachine
  import opened WheelInvariant

  // ----------------------------------------------------------- the other threads

  lemma InsStable(c: Config, s: State, s': State, t: Tid, u: Tid)
    requires Rely(c, s, s', t) && u != t && InsOk(c, s, u)
    ensures InsOk(c, s', u)
  {
    var i := s.threads[u].ins;
    if i.Inserting? && (i.step.Marking? || i.step.Kicking?) {
      assert PubKept(s, s', t, i.step.pub);
    }
  }

  lemma DrainedStable(c: Config, s: State, s': State, t: Tid, level: nat, tick: nat)
    requires Rely(c, s, s', t) && DrainedFrom(c, s, level, tick)
    ensures DrainedFrom(c, s', level, tick)
  {
    forall l: nat | level <= l ensures Drained(c, s', l, tick) {
      assert Drained(c, s, l, tick);
    }
  }

  lemma HoldsStable(c: Config, s: State, s': State, t: Tid, u: Tid, held: seq<Pub>)
    requires Rely(c, s, s', t) && u != t && HoldsAll(s, u, held)
    ensures HoldsAll(s', u, held)
  {
    forall p | p in held ensures p in s'.pubs && s'.pubs[p].place == Held(u) {
      assert PubKept(s, s', t, p);
    }
  }

  lemma SweepStable(c: Config, s: State, s': State, t: Tid, u: Tid)
    requires Rely(c, s, s', t) && u != t && SweepOk(c, s, u)
    ensures SweepOk(c, s', u)
  {
    var w := s.threads[u].sweep;
    assert s'.threads[u] == s.threads[u];
    match w {
      case Visiting(_, tick, level, _, step) =>
        DrainedStable(c, s, s', t, level + 1, tick);
        if step.Closing? { HoldsStable(c, s, s', t, u, step.held); }
      case Processing(_, tick, level, held) =>
        DrainedStable(c, s, s', t, level, tick);
        HoldsStable(c, s, s', t, u, held);
      case Confirming(_, tick) =>
        DrainedStable(c, s, s', t, 0, tick);
      case _ =>
    }
  }

  lemma ComponentsGrow(c: Config, s: State, s': State, t: Tid, j: nat, i: nat)
    requires Rely(c, s, s', t)
    ensures Component(c, s, j, i) <= Component(c, s', j, i)
  {
  }

  lemma SnapStable(c: Config, s: State, s': State, t: Tid, j: nat, vals: seq<nat>)
    requires Rely(c, s, s', t) && SnapOk(c, s, j, vals) && j < c.loops
    ensures SnapOk(c, s', j, vals)
  {
    forall i | 0 <= i < |vals| ensures vals[i] <= Component(c, s', j, i) {
      ComponentsGrow(c, s, s', t, j, i);
    }
  }

  lemma SleepingStable(c: Config, s: State, s': State, t: Tid, j: nat, z: Sleep)
    requires Rely(c, s, s', t) && j < c.loops && j < |s.wake| && SleepingOk(c, s, j, z)
    requires s'.wake[j] == s.wake[j]
    ensures SleepingOk(c, s', j, z)
  {
    match z {
      case Snapping(_, _, vals, after) =>
        SnapStable(c, s, s', t, j, vals);
        if after.Some? { SnapStable(c, s, s', t, j, after.value.before); }
      case Planning(_, _, before, _, _) =>
        SnapStable(c, s, s', t, j, before);
      case _ =>
    }
  }

  lemma SleepStable(c: Config, s: State, s': State, t: Tid, u: Tid)
    requires Rely(c, s, s', t) && u != t && SleepOk(c, s, u)
    ensures SleepOk(c, s', u)
  {
    assert s'.threads[u] == s.threads[u];
    if u < c.loops {
      SleepingStable(c, s, s', t, u, s.threads[u].sleep);
    }
  }

  lemma ThreadsStable(c: Config, s: State, s': State, t: Tid)
    requires ThreadsOk(c, s) && Rely(c, s, s', t)
    requires t in s.threads ==> InsOk(c, s', t) && SweepOk(c, s', t) && SleepOk(c, s', t)
    ensures ThreadsOk(c, s')
  {
    forall u | u in s'.threads ensures InsOk(c, s', u) && SweepOk(c, s', u) && SleepOk(c, s', u) {
      if u != t {
        InsStable(c, s, s', t, u);
        SweepStable(c, s, s', t, u);
        SleepStable(c, s, s', t, u);
      }
    }
  }

  // ------------------------------------------------------------------- coverage

  lemma WakesStable(c: Config, s: State, s': State, t: Tid, j: nat, z: Sleep, k: Key, deadline: nat)
    requires Rely(c, s, s', t) && j < |s.wake| && ValidKey(c.g, k)
    requires LoopCovers(c, s, j, z, k, deadline) && s'.wake[j] == s.wake[j]
    ensures LoopCovers(c, s', j, z, k, deadline)
  {
    match z {
      case Snapping(_, _, vals, after) =>
        if after.Some? && WillNotice(c, s, j, vals, after.value.before) {
          var before := after.value.before;
          var i: nat :| i < |before| && before[i] < (if i < |vals| then vals[i] else Component(c, s, j, i));
          ComponentsGrow(c, s, s', t, j, i);
        }
      case Planning(_, _, before, _, _) =>
        if Dirty(c, s, j, before) {
          var i: nat :| i < |before| && before[i] < Component(c, s, j, i);
          ComponentsGrow(c, s, s', t, j, i);
        }
      case _ =>
    }
  }

  /** A loop that does not move keeps covering what it covers. */
  lemma CoveredStable(c: Config, s: State, s': State, t: Tid, p: Pub, j: nat)
    requires Rely(c, s, s', t) && Covered(c, s, p, j)
    requires j in s'.threads && s'.threads[j].sleep == s.threads[j].sleep && s'.wake[j] == s.wake[j]
    ensures Covered(c, s', p, j)
  {
    assert PubKept(s, s', t, p);
    WakesStable(c, s, s', t, j, s.threads[j].sleep, s.pubs[p].key, s.pubs[p].link.deadline);
  }

  /** No loop gets less covering or becomes absent: what every step that is not a
      move of the sleep protocol satisfies. */
  ghost predicate SleepersKept(c: Config, s: State, s': State) {
    && s'.wake == s.wake
    && forall j: nat :: j < c.loops && j in s.threads ==> j in s'.threads && s'.threads[j].sleep == s.threads[j].sleep
  }

  lemma KickKept(c: Config, s: State, s': State, t: Tid, p: Pub, step: InsertStep)
    requires GlobalOk(c, s) && Rely(c, s, s', t) && SleepersKept(c, s, s')
    requires KickOk(c, s, p, step) && step.next <= c.loops
    ensures KickOk(c, s', p, step)
  {
    if !step.sawSleeper {
      forall j: nat | j < step.next ensures CoveredOrAbsent(c, s', p, j) {
        assert CoveredOrAbsent(c, s, p, j);
        if Covered(c, s, p, j) { CoveredStable(c, s, s', t, p, j); }
      }
    }
  }

  lemma SafeKept(c: Config, s: State, s': State, t: Tid, p: Pub)
    requires GlobalOk(c, s) && Rely(c, s, s', t) && SleepersKept(c, s, s')
    requires Safe(c, s, p) && (s.bell ==> s'.bell)
    ensures Safe(c, s', p)
  {
    if !s.bell {
      if exists j: nat :: j < c.loops && Covered(c, s, p, j) {
        var j: nat :| j < c.loops && Covered(c, s, p, j);
        CoveredStable(c, s, s', t, p, j);
      } else {
        forall j: nat | j < c.loops ensures IsAbsent(s', j) {
          assert IsAbsent(s, j);
        }
      }
    }
  }

  /** Coverage of a publication whose stage and publisher do not move. */
  lemma CoverKept(c: Config, s: State, s': State, t: Tid, p: Pub)
    requires GlobalOk(c, s) && Rely(c, s, s', t) && SleepersKept(c, s, s') && (s.bell ==> s'.bell)
    requires p in s.pubs && CoverOk(c, s, p)
    requires p in s'.pubs && s'.pubs[p].stage == s.pubs[p].stage && (s'.pubs[p].place.Parked? ==> s.pubs[p].place.Parked?)
    requires var u := s.pubs[p].publisher;
             s.pubs[p].stage.Returned? || (InsOk(c, s, u) && u in s'.threads && s'.threads[u].ins == s.threads[u].ins)
    ensures CoverOk(c, s', p)
  {
    assert PubKept(s, s', t, p);
    if s'.pubs[p].place.Parked? {
      match s.pubs[p].stage {
        case Unmarked =>
        case Marked => KickKept(c, s, s', t, p, s.threads[s.pubs[p].publisher].ins.step);
        case Returned => SafeKept(c, s, s', t, p);
      }
    }
  }

  // -------------------------------------------------------------- local changes

  /** Only the record of thread `t` changes. */
  lemma RelyLocal(c: Config, s: State, s': State, t: Tid, th: Thread)
    requires t in s.threads && s' == With(s, t, th)
    ensures Rely(c, s, s', t)
  {
  }

  lemma SlotsKept(c: Config, s: State, s': State)
    requires SlotsOk(c, s) && s'.slots == s.slots && s'.cursor == s.cursor && s.clock <= s'.clock
    ensures SlotsOk(c, s')
  {
    forall k | ValidKey(c.g, k) ensures SlotOk(c, s', k) {
      assert SlotOk(c, s, k);
    }
  }

  lemma ChainsKept(c: Config, s: State, s': State)
    requires ChainsOk(c, s) && s'.slots == s.slots && s'.pubs == s.pubs
    ensures ChainsOk(c, s')
  {
    forall k | ValidKey(c.g, k) ensures ChainOk(c, s', k) {
      assert ChainOk(c, s, k);
    }
  }

  lemma PubsKept(c: Config, s: State, s': State, t: Tid)
    requires PubsOk(c, s) && s'.slots == s.slots && s'.pubs == s.pubs && s'.owner == s.owner
    requires s'.threads.Keys == s.threads.Keys
    requires forall u :: u in s.threads && u != t ==> s'.threads[u] == s.threads[u]
    requires t in s.threads ==> HeldBy(s'.threads[t].sweep) == HeldBy(s.threads[t].sweep)
    ensures PubsOk(c, s')
  {
    forall p | p in s'.pubs ensures PubOk(c, s', p) {
      assert PubOk(c, s, p);
    }
  }

  /** A visitor stays unresolved, or its slot has become empty or marked. */
  lemma BitsKept(c: Config, s: State, s': State, t: Tid)
    requires BitsOk(c, s) && s'.bits == s.bits && s'.clearer == s.clearer && s'.pubs == s.pubs
    requires s'.threads.Keys == s.threads.Keys
    requires forall u :: u in s.threads && u != t ==> s'.threads[u] == s.threads[u]
    requires forall k :: ValidKey(c.g, k) && Unresolved(c, s, t, k) ==>
               Unresolved(c, s', t, k) || (PubsOk(c, s) && k in s.slots && s.slots[k].chain == [])
    ensures BitsOk(c, s')
  {
    forall k | ValidKey(c.g, k) ensures BitOk(c, s', k) {
      assert BitOk(c, s, k);
      forall p | p in s'.pubs && s'.pubs[p].key == k && s'.pubs[p].place.Parked? && !s'.pubs[p].stage.Unmarked? && k !in s'.bits
        ensures k in s'.clearer && Unresolved(c, s', s'.clearer[k], k)
      {
        assert Unresolved(c, s, s.clearer[k], k);
        if PubsOk(c, s) { assert PubOk(c, s, p); }
      }
    }
  }

  /** Coverage of all publications other than `x`, the one the thread's own
      insert is working on. */
  lemma CoversKeptBut(c: Config, s: State, s': State, t: Tid, x: Pub)
    requires GlobalOk(c, s) && ThreadsOk(c, s) && CoversOk(c, s)
    requires Rely(c, s, s', t) && SleepersKept(c, s, s') && (s.bell ==> s'.bell)
    requires forall p :: p in s.pubs && p != x ==>
               p in s'.pubs && s'.pubs[p].stage == s.pubs[p].stage && (s'.pubs[p].place.Parked? ==> s.pubs[p].place.Parked?)
    requires t in s.threads ==>
               var i := s.threads[t].ins;
               s'.threads[t].ins == i || !i.Inserting?
               || !(i.step.Marking? || i.step.Kicking?) || i.step.pub == x
    ensures forall p :: p in s.pubs && p != x ==> CoverOk(c, s', p)
  {
    forall p | p in s.pubs && p != x ensures CoverOk(c, s', p) {
      if s.pubs[p].place.Parked? {
        assert CoverOk(c, s, p);
        CoverKept(c, s, s', t, p);
      }
    }
  }

  lemma CoversKept(c: Config, s: State, s': State, t: Tid)
    requires GlobalOk(c, s) && ThreadsOk(c, s) && CoversOk(c, s)
    requires Rely(c, s, s', t) && SleepersKept(c, s, s') && (s.bell ==> s'.bell)
    requires s'.pubs.Keys == s.pubs.Keys
    requires forall p :: p in s.pubs ==>
               s'.pubs[p].stage == s.pubs[p].stage && (s'.pubs[p].place.Parked? ==> s.pubs[p].place.Parked?)
    requires t in s.threads ==>
               var i := s.threads[t].ins;
               s'.threads[t].ins == i || !i.Inserting? || !(i.step.Marking? || i.step.Kicking?)
    ensures CoversOk(c, s')
  {
    forall p | p in s'.pubs ensures CoverOk(c, s', p) {
      if s.pubs[p].place.Parked? {
        assert CoverOk(c, s, p);
        CoverKept(c, s, s', t, p);
      }
    }
  }
}
