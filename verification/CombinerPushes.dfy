/** How a push ends: a signal that was begun for the current generation lands on an entry
    however often its swap loses, and an operation lands in the log or is dropped by an
    acquisition. */
module CombinerPushes {
  import opened Wrappers
  import opened CombinerMachine
  import opened CombinerInvariant
  import opened CombinerTheorems

  // --------------------------------------------------------------------- one step

  /** The thread is at work on a signal that names the generation. */
  predicate Checks(s: State, t: Tid, g: nat, tags: set<Tag>) {
    && t in s.acts
    && (s.acts[t] == CheckedLoad(g, tags) || (s.acts[t].CheckedSwap? && s.acts[t].generation == g && s.acts[t].tags == tags))
  }

  /** The thread is at work on the push of an operation. */
  predicate Pushes(s: State, t: Tid, a: Op) {
    t in s.acts && (s.acts[t] == PushLoad(a) || (s.acts[t].PushSwap? && s.acts[t].op == a))
  }

  /** The operation is the newest entry, or the thread has the object and drops it. */
  ghost predicate Lands(s: State, s': State, t: Tid, a: Op) {
    s'.log == s.log + [Entry(Some(a), {})] || (t in s'.acts && s'.acts[t] == OwnDrop(a))
  }

  /** The moves of one thread leave the others' positions alone. */
  ghost predicate ActsAlone(s: State, s': State, t: Tid) {
    forall u :: u in s.acts && u != t ==> u in s'.acts && s'.acts[u] == s.acts[u]
  }

  lemma PushAlone(s: State, s': State, t: Tid, a: Op, n: nat, tags: set<Tag>, seen: Word)
    requires PushMoves(s, s', t, a, n, tags, seen)
    ensures ActsAlone(s, s', t) && s'.generation == s.generation && (s'.stage.Dead? ==> s.stage.Dead?)
  {
    if PushTags(s, s', t, tags) || CheckedBegin(s, s', t, n, tags) || CheckedLoads(s, s', t, n, tags) || CheckedSwaps(s, s', t, n, tags, seen) {
      SignalAlone(s, s', t, n, tags, seen);
    } else {
      OperationAlone(s, s', t, a, n, seen);
    }
  }

  lemma OperationAlone(s: State, s': State, t: Tid, a: Op, n: nat, seen: Word)
    requires || InitOp(s, s', t, a) || PushLoads(s, s', t, a) || PushStacks(s, s', t, a, seen) || PushOwns(s, s', t, a, seen)
             || PushRetries(s, s', t, a, seen) || Acquire(s, s', t, n) || AcquireHolding(s, s', t, a, n, seen)
    ensures ActsAlone(s, s', t) && s'.generation == s.generation && (s'.stage.Dead? ==> s.stage.Dead?)
  {
  }

  lemma SignalAlone(s: State, s': State, t: Tid, n: nat, tags: set<Tag>, seen: Word)
    requires PushTags(s, s', t, tags) || CheckedBegin(s, s', t, n, tags) || CheckedLoads(s, s', t, n, tags) || CheckedSwaps(s, s', t, n, tags, seen)
    ensures ActsAlone(s, s', t) && s'.generation == s.generation && (s'.stage.Dead? ==> s.stage.Dead?)
  {
  }

  lemma RefAlone(s: State, s': State, t: Tid, a: Op, n: nat)
    requires RefMoves(s, s', t, a, n)
    ensures ActsAlone(s, s', t) && s'.generation == s.generation && (s'.stage.Dead? ==> s.stage.Dead?)
  {
  }

  /** Destroying takes the generation with it. */
  ghost predicate Ages(s: State, s': State) {
    s.generation <= s'.generation && (s'.generation == s.generation && s'.stage.Dead? ==> s.stage.Dead?)
  }

  lemma FileAlone(s: State, s': State, t: Tid, a: Op)
    requires OwnFiles(s, s', t, a) || OwnUnfiles(s, s', t, a) || OwnDrops(s, s', t, a)
    ensures ActsAlone(s, s', t) && Ages(s, s')
  {
  }

  lemma LookAlone(s: State, s': State, t: Tid)
    requires OwnLoads(s, s', t) || OwnReleases(s, s', t)
    ensures ActsAlone(s, s', t) && Ages(s, s')
  {
  }

  lemma WalkAlone(s: State, s': State, t: Tid, w: Word, r: Word)
    requires OwnCaptures(s, s', t, w) || OwnWalks(s, s', t, w, r)
    ensures ActsAlone(s, s', t) && Ages(s, s')
  {
  }

  lemma DispatchAlone(s: State, s': State, t: Tid, a: Op, n: nat, started: Option<Op>)
    requires OwnRuns(s, s', t, a) || OwnTurns(s, s', t, n, started)
    ensures ActsAlone(s, s', t) && Ages(s, s')
  {
  }

  lemma TailAlone(s: State, s': State, t: Tid, w: Word, r: Word)
    requires OwnTails(s, s', t, w, r) || OwnLists(s, s', t, r)
    ensures ActsAlone(s, s', t) && Ages(s, s')
  {
  }

  lemma OwnAlone(s: State, s': State, t: Tid, a: Op, n: nat, started: Option<Op>, w: Word, r: Word)
    requires OwnMoves(s, s', t, a, n, started, w, r)
    ensures ActsAlone(s, s', t) && Ages(s, s') && t in s.acts && Owns(s.acts[t])
  {
    if OwnRuns(s, s', t, a) || OwnTurns(s, s', t, n, started) {
      DispatchAlone(s, s', t, a, n, started);
    } else if OwnTails(s, s', t, w, r) || OwnLists(s, s', t, r) {
      TailAlone(s, s', t, w, r);
    } else if OwnFiles(s, s', t, a) || OwnUnfiles(s, s', t, a) || OwnDrops(s, s', t, a) {
      FileAlone(s, s', t, a);
    } else if OwnLoads(s, s', t) || OwnReleases(s, s', t) {
      LookAlone(s, s', t);
    } else {
      WalkAlone(s, s', t, w, r);
    }
  }

  lemma MovesAlone(s: State, s': State, t: Tid)
    requires Moves(s, s', t)
    ensures ActsAlone(s, s', t) && Ages(s, s')
  {
    if a: Op, n: nat, tags: set<Tag>, seen: Word :| PushMoves(s, s', t, a, n, tags, seen) {
      PushAlone(s, s', t, a, n, tags, seen);
    } else if a: Op, n: nat :| RefMoves(s, s', t, a, n) {
      RefAlone(s, s', t, a, n);
    } else {
      var a: Op, n: nat, started: Option<Op>, w: Word, r: Word :| OwnMoves(s, s', t, a, n, started, w, r);
      OwnAlone(s, s', t, a, n, started, w, r);
    }
  }

  /** A thread at work on a push takes a step of that push. */
  lemma OwnStep(s: State, s': State, t: Tid) returns (a: Op, n: nat, tags: set<Tag>, seen: Word)
    requires Moves(s, s', t) && t in s.acts
    requires s.acts[t].CheckedLoad? || s.acts[t].CheckedSwap? || s.acts[t].PushLoad? || s.acts[t].PushSwap?
    ensures PushMoves(s, s', t, a, n, tags, seen)
  {
    if b: Op, m: nat :| RefMoves(s, s', t, b, m) {
      assert false;
    } else if b: Op, m: nat, started: Option<Op>, w: Word, r: Word :| OwnMoves(s, s', t, b, m, started, w, r) {
      OwnAlone(s, s', t, b, m, started, w, r);
      assert false;
    }
    a, n, tags, seen :| PushMoves(s, s', t, a, n, tags, seen);
  }

  lemma CheckedMove(s: State, s': State, t: Tid, g: nat, tags: set<Tag>)
    requires Moves(s, s', t) && Checks(s, t, g, tags) && s.generation == g
    ensures Checks(s', t, g, tags) || Signals(s, s', t, tags)
  {
    var a, n, more, seen := OwnStep(s, s', t);
    if s.acts[t].CheckedLoad? {
      assert CheckedLoads(s, s', t, n, more);
    } else {
      assert CheckedSwaps(s, s', t, n, more, seen);
    }
  }

  lemma PushMove(s: State, s': State, t: Tid, a: Op)
    requires Moves(s, s', t) && Pushes(s, t, a)
    ensures Pushes(s', t, a) || Lands(s, s', t, a)
  {
    var b, n, tags, seen := OwnStep(s, s', t);
    if s.acts[t].PushLoad? {
      assert PushLoads(s, s', t, b);
    } else {
      assert PushStacks(s, s', t, b, seen) || PushOwns(s, s', t, b, seen) || PushRetries(s, s', t, b, seen)
          || AcquireHolding(s, s', t, b, n, seen);
    }
  }

  lemma CheckedNext(s: State, s': State, t: Tid, g: nat, tags: set<Tag>)
    requires Next(s, s') && Checks(s, t, g, tags) && s.generation == g
    ensures Checks(s', t, g, tags) || Signals(s, s', t, tags)
  {
    if u: Tid :| Moves(s, s', u) {
      if u == t { CheckedMove(s, s', t, g, tags); } else { MovesAlone(s, s', u); }
    }
  }

  lemma PushNext(s: State, s': State, t: Tid, a: Op)
    requires Next(s, s') && Pushes(s, t, a)
    ensures Pushes(s', t, a) || Lands(s, s', t, a)
  {
    if u: Tid :| Moves(s, s', u) {
      if u == t { PushMove(s, s', t, a); } else { MovesAlone(s, s', u); }
    }
  }

  lemma NextAges(s: State, s': State)
    requires Next(s, s')
    ensures Ages(s, s')
  {
    if u: Tid :| Moves(s, s', u) { MovesAlone(s, s', u); }
  }

  // ------------------------------------------------------------------------- runs

  lemma {:induction false} RunAges(run: seq<State>, i: nat, j: nat)
    requires Run(run) && i <= j < |run|
    ensures Ages(run[i], run[j])
  {
    if i < j {
      RunAges(run, i, j - 1);
      StepAges(run, j - 1);
    }
  }

  lemma StepAges(run: seq<State>, i: nat)
    requires Run(run) && i + 1 < |run|
    ensures Ages(run[i], run[i + 1])
  {
    assert StepAt(run, i);
    NextAges(run[i], run[i + 1]);
  }

  /** The step of the push that carries the signal. */
  lemma {:induction false} CheckedEnds(run: seq<State>, i: nat, j: nat, t: Tid, g: nat, tags: set<Tag>) returns (m: nat)
    requires Run(run) && i < j < |run| && Checks(run[i], t, g, tags) && !Checks(run[j], t, g, tags) && run[i].generation == g == run[j].generation
    ensures i <= m < j && Signals(run[m], run[m + 1], t, tags)
    decreases j - i
  {
    assert StepAt(run, i);
    RunAges(run, i, i + 1);
    RunAges(run, i + 1, j);
    CheckedNext(run[i], run[i + 1], t, g, tags);
    if Checks(run[i + 1], t, g, tags) { m := CheckedEnds(run, i + 1, j, t, g, tags); } else { m := i; }
  }

  /** The signal is on an entry no older than the newest one at `s`. */
  ghost predicate SignalledSince(s: State, s': State, tags: set<Tag>) {
    exists k: nat :: |s.log| <= k + 1 && k < |s'.log| && tags <= s'.log[k].tags
  }

  lemma LivesThrough(run: seq<State>, i: nat, j: nat)
    requires Run(run) && i <= j < |run| && run[i].generation == run[j].generation && !run[i].stage.Dead?
    ensures Lives(run, i, j)
  {
    forall m: nat | i <= m <= j ensures !run[m].stage.Dead? {
      RunAges(run, i, m);
      RunAges(run, m, j);
    }
  }

  /** No validated signal is dropped: one that was begun for the current generation of a
      living object is on an entry when the thread is through with it, if the object has
      kept that generation, and that entry is not older than the newest one at the
      beginning. */
  lemma ValidatedSignalLands(run: seq<State>, i: nat, j: nat, t: Tid, g: nat, tags: set<Tag>)
    requires Run(run) && i + 1 < j < |run| && CheckedBegin(run[i], run[i + 1], t, g, tags)
    requires run[i].generation == g == run[j].generation && !Checks(run[j], t, g, tags)
    ensures SignalledSince(run[i], run[j], tags)
  {
    RunAges(run, i, i + 1);
    RunAges(run, i + 1, j);
    var m := CheckedEnds(run, i + 1, j, t, g, tags);
    LivesThrough(run, i, j);
    assert Lives(run, i, m) && Lives(run, m, j);
    RunGrows(run, i, m);
    SignalIsPositional(run, m, j, t, tags);
  }

  /** No operation is dropped but by an acquisition: the step that ends its push puts it
      into the log as the newest entry, or gives the object to the pusher, who drops it. */
  lemma {:induction false} OperationLands(run: seq<State>, i: nat, j: nat, t: Tid, a: Op) returns (m: nat)
    requires Run(run) && i < j < |run| && Pushes(run[i], t, a) && !Pushes(run[j], t, a)
    ensures i <= m < j && Pushes(run[m], t, a) && Lands(run[m], run[m + 1], t, a)
    decreases j - i
  {
    assert StepAt(run, i);
    PushNext(run[i], run[i + 1], t, a);
    if Pushes(run[i + 1], t, a) { m := OperationLands(run, i + 1, j, t, a); } else { m := i; }
  }
}
