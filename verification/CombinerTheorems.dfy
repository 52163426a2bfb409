/** What the combiner promises, for every run and any number of threads. */
module CombinerTheorems {
  import opened Wrappers
  import opened CombinerMachine
  import opened CombinerInvariant
  import opened CombinerSteps

  lemma InitOk(s: State)
    requires Init(s)
    ensures Inv(s)
  {
    assert EntriesOf([ZERO]) == [];
    forall t | t in s.acts ensures ActOk(s, t) {}
  }

  lemma {:induction false} RunInvariant(run: seq<State>, i: nat)
    requires Run(run) && i < |run|
    ensures Inv(run[i])
  {
    if i == 0 {
      InitOk(run[0]);
    } else {
      RunInvariant(run, i - 1);
      assert StepAt(run, i - 1);
      NextKeeps(run[i - 1], run[i]);
    }
  }

  // ------------------------------------------------------------------------- lock

  /** At most one thread owns the object, and on a living object the word is zero
      exactly when none does. */
  lemma SingleOwner(run: seq<State>, i: nat, t: Tid, u: Tid)
    requires Run(run) && i < |run| && t in run[i].acts && u in run[i].acts
    ensures Owns(run[i].acts[t]) && Owns(run[i].acts[u]) ==> t == u
    ensures !run[i].stage.Dead? && run[i].head == ZERO ==> !Owns(run[i].acts[t])
    ensures !run[i].stage.Dead? && run[i].head != ZERO ==>
              exists w :: w in run[i].acts && Owns(run[i].acts[w])
  {
    RunInvariant(run, i);
    var s := run[i];
    assert ActOk(s, t) && ActOk(s, u);
    if !s.stage.Dead? {
      if s.head == ZERO { UnownedWord(s); }
      else {
        assert s.owner.Some? && ActOk(s, s.owner.value);
      }
    }
  }

  // -------------------------------------------------------------------------- log

  /** What has been dispatched is a prefix of what was pushed, in push order and
      with the signals that were or-ed on; an unowned object has nothing left to
      dispatch. */
  lemma DispatchedInOrder(run: seq<State>, i: nat)
    requires Run(run) && i < |run|
    ensures run[i].ran <= run[i].log
    ensures !run[i].stage.Dead? && run[i].head == ZERO ==> run[i].ran == run[i].log
  {
    RunInvariant(run, i);
    if !run[i].stage.Dead? && run[i].head == ZERO { UnownedWord(run[i]); }
  }

  /** Same object, one step or many later: the log only grows at its end, and only
      its newest entry, while undispatched, may still gain signals. */
  ghost predicate LogGrows(s: State, s': State) {
    && |s.log| <= |s'.log| && s.ran <= s'.ran
    && (forall i :: 0 <= i < |s.log| ==> s'.log[i].op == s.log[i].op && s.log[i].tags <= s'.log[i].tags)
    && (forall i :: 0 <= i < |s.log| && (i < |s.ran| || i + 1 < |s.log|) ==> s'.log[i] == s.log[i])
  }

  lemma RideGrows(s: State, s': State, tags: set<Tag>)
    requires Inv(s) && !s.stage.Dead? && tags != {} && s'.log == Ride(s.log, s.head, tags) && s'.ran == s.ran
    ensures LogGrows(s, s')
  {
    RideFrame(s.log, s.head, tags);
    RideKeepsRan(s, tags);
    forall i | 0 <= i < |s.ran| ensures s'.log[i] == s.log[i] {
      assert s.ran[i] == s.log[i];
    }
  }

  lemma PushMovesGrow(s: State, s': State, t: Tid, a: Op, n: nat, tags: set<Tag>, seen: Word)
    requires Inv(s) && !s.stage.Dead? && PushMoves(s, s', t, a, n, tags, seen)
    ensures LogGrows(s, s')
  {
    if t in s.acts { assert ActOk(s, t); }
    if s'.log == Ride(s.log, s.head, tags) && tags != {} { RideGrows(s, s', tags); }
  }

  lemma RefMovesGrow(s: State, s': State, t: Tid, a: Op, n: nat)
    requires Inv(s) && !s.stage.Dead? && RefMoves(s, s', t, a, n)
    ensures LogGrows(s, s')
  {
    if PushDeletes(s, s', t) { RideGrows(s, s', {Delete}); }
  }

  lemma OwnMovesGrow(s: State, s': State, t: Tid, a: Op, n: nat, started: Option<Op>, w: Word, r: Word)
    requires OwnMoves(s, s', t, a, n, started, w, r)
    ensures LogGrows(s, s')
  {
    if OwnFiles(s, s', t, a) || OwnUnfiles(s, s', t, a) || OwnDrops(s, s', t, a) || OwnLoads(s, s', t) || OwnReleases(s, s', t) || OwnCaptures(s, s', t, w) || OwnWalks(s, s', t, w, r) {
      assert s'.ran == s.ran;
    } else {
      DispatchGrows(s, s', t, a, n, started, w, r);
    }
  }

  lemma DispatchGrows(s: State, s': State, t: Tid, a: Op, n: nat, started: Option<Op>, w: Word, r: Word)
    requires OwnRuns(s, s', t, a) || OwnTurns(s, s', t, n, started) || OwnTails(s, s', t, w, r) || OwnLists(s, s', t, r)
    ensures s'.log == s.log && s.ran <= s'.ran
  {
    if OwnTurns(s, s', t, n, started) { TurnGrows(s, s', t, n, started); }
  }

  lemma TurnGrows(s: State, s': State, t: Tid, n: nat, started: Option<Op>)
    requires OwnTurns(s, s', t, n, started)
    ensures s'.log == s.log && s.ran <= s'.ran
  {
  }

  lemma NextGrows(s: State, s': State)
    requires Inv(s) && Next(s, s') && !s.stage.Dead?
    ensures LogGrows(s, s')
  {
    var t: Tid :| Moves(s, s', t);
    if a: Op, n: nat, tags: set<Tag>, seen: Word :| PushMoves(s, s', t, a, n, tags, seen) {
      PushMovesGrow(s, s', t, a, n, tags, seen);
    } else if a: Op, n: nat :| RefMoves(s, s', t, a, n) {
      RefMovesGrow(s, s', t, a, n);
    } else {
      var a: Op, n: nat, started: Option<Op>, w: Word, r: Word :| OwnMoves(s, s', t, a, n, started, w, r);
      OwnMovesGrow(s, s', t, a, n, started, w, r);
    }
  }

  /** The object is not destroyed between two points of a run. */
  ghost predicate Lives(run: seq<State>, i: nat, j: nat) {
    i <= j < |run| && forall m: nat {:trigger run[m]} :: i <= m <= j ==> !run[m].stage.Dead?
  }

  lemma GrowsOn(a: State, b: State, c: State)
    requires LogGrows(a, b) && LogGrows(b, c)
    ensures LogGrows(a, c)
  {
  }

  lemma StepGrows(run: seq<State>, i: nat)
    requires Run(run) && i + 1 < |run| && !run[i].stage.Dead?
    ensures LogGrows(run[i], run[i + 1])
  {
    RunInvariant(run, i);
    assert StepAt(run, i);
    NextGrows(run[i], run[i + 1]);
  }

  lemma {:induction false} RunGrows(run: seq<State>, i: nat, j: nat)
    requires Run(run) && Lives(run, i, j)
    ensures LogGrows(run[i], run[j])
  {
    if i < j {
      RunGrows(run, i, j - 1);
      StepGrows(run, j - 1);
      GrowsOn(run[i], run[j - 1], run[j]);
    }
  }

  /** The fetch-or of a signal: of a thread that holds a reference, of one that holds
      none and had its generation validated, or of the last reference's holder. */
  ghost predicate Signals(s: State, s': State, t: Tid, tags: set<Tag>) {
    || PushTags(s, s', t, tags)
    || CheckedSwaps(s, s', t, s.generation, tags, s.head)
    || (tags == {Delete} && PushDeletes(s, s', t))
  }

  /** A signal is positional: it stays on the entry that was newest when it was
      pushed.  Everything pushed before is dispatched before that entry or as that
      entry, and everything pushed after comes after it. */
  lemma SignalIsPositional(run: seq<State>, i: nat, j: nat, t: Tid, tags: set<Tag>)
    requires Run(run) && i + 1 < |run| && Signals(run[i], run[i + 1], t, tags) && Lives(run, i, j) && i < j
    ensures var at := |run[i + 1].log| - 1;
      && |run[i].log| - 1 <= at <= |run[i].log| && at < |run[j].log| && tags <= run[j].log[at].tags
      && (forall x :: 0 <= x < |run[i].log| ==> run[j].log[x].op == run[i].log[x].op)
      && (at == |run[i].log| ==> run[j].log[at].op == None)
      && (at < |run[j].ran| ==> tags <= run[j].ran[at].tags)
  {
    StepGrows(run, i);
    RunGrows(run, i + 1, j);
    RideFrame(run[i].log, run[i].head, tags);
    DispatchedInOrder(run, j);
  }

  // --------------------------------------------------------------------- lifetime

  /** Each incarnation has at most one delete signal.  It is no operation's, and no
      assertion on the way fails: the count is positive when a reference is
      dropped, and the bit is clear when it is added. */
  lemma DeleteOnce(run: seq<State>, i: nat, t: Tid)
    requires Run(run) && i < |run|
    ensures forall x, y :: 0 <= x < y < |run[i].log| ==> Delete !in run[i].log[x].tags || Delete !in run[i].log[y].tags
    ensures forall x :: 0 <= x < |run[i].log| && Delete in run[i].log[x].tags && !run[i].stage.Dead? ==> run[i].log[x].op == None
    ensures t in run[i].acts && run[i].acts[t].Unref? ==> run[i].refs > 0
    ensures t in run[i].acts && run[i].acts[t].PushDelete? ==>
              && Delete !in run[i].head.tags && run[i].refs == 0
              && forall u :: u in run[i].acts && run[i].acts[u].PushDelete? ==> u == t
  {
    RunInvariant(run, i);
    var s := run[i];
    if t in s.acts && s.acts[t].Unref? { assert ActOk(s, t); }
    if t in s.acts && s.acts[t].PushDelete? {
      assert ActOk(s, t);
      NoOperation(s);
      forall u | u in s.acts && s.acts[u].PushDelete? ensures u == t { assert ActOk(s, u); }
    }
  }

  /** An object without references is on its way out: the thread that dropped the last one
      is about to signal the deletion, or an owner has the signal still to dispatch, or it
      is destroyed. */
  lemma LastReferenceDeletes(run: seq<State>, i: nat)
    requires Run(run) && i < |run| && run[i].refs == 0
    ensures || (exists t :: t in run[i].acts && run[i].acts[t].PushDelete?)
            || (run[i].owner.Some? && exists k: nat :: |run[i].ran| <= k < |run[i].log| && Delete in run[i].log[k].tags)
            || run[i].stage.Dead?
  {
    RunInvariant(run, i);
    var s := run[i];
    assert s.owned == {} && EntriesOf([ZERO]) == [];
  }

  /** What the queues and the slot hold has been started and not finished. */
  ghost predicate FilesOk(s: State) {
    forall a: Op :: Filed(s.files, a) ==> a in s.place && s.place[a] == Started
  }

  /** A step that files nothing and forgets nothing filed. */
  ghost predicate LeavesFiled(s: State, s': State) {
    s'.files == s.files && forall a: Op :: Filed(s.files, a) && a in s.place && s.place[a] == Started ==> a in s'.place && s'.place[a] == Started
  }

  lemma PushFiles(s: State, s': State, t: Tid, a: Op, n: nat, tags: set<Tag>, seen: Word)
    requires Inv(s) && PushMoves(s, s', t, a, n, tags, seen)
    ensures LeavesFiled(s, s')
  {
    if PushStacks(s, s', t, a, seen) {
      assert ActOk(s, t);
    } else if !InitOp(s, s', t, a) {
      PushPlaces(s, s', t, a, n, tags, seen);
    }
  }

  lemma PushPlaces(s: State, s': State, t: Tid, a: Op, n: nat, tags: set<Tag>, seen: Word)
    requires PushMoves(s, s', t, a, n, tags, seen) && !InitOp(s, s', t, a) && !PushStacks(s, s', t, a, seen)
    ensures s'.files == s.files && s'.place == s.place
  {
  }

  lemma RefFiles(s: State, s': State, t: Tid, a: Op, n: nat)
    requires RefMoves(s, s', t, a, n)
    ensures LeavesFiled(s, s')
  {
    if !FinishOp(s, s', t, a) { assert s'.files == s.files && s'.place == s.place; }
  }

  lemma OwnFiled(s: State, s': State, t: Tid, a: Op, n: nat, started: Option<Op>, w: Word, r: Word)
    requires Inv(s) && FilesOk(s) && OwnMoves(s, s', t, a, n, started, w, r)
    ensures FilesOk(s')
  {
    if OwnFiles(s, s', t, a) || OwnUnfiles(s, s', t, a) {
    } else if OwnDrops(s, s', t, a) {
      assert ActOk(s, t);
    } else if OwnLoads(s, s', t) || OwnReleases(s, s', t) || OwnCaptures(s, s', t, w) || OwnWalks(s, s', t, w, r) {
      LookFiles(s, s', t, w, r);
    } else {
      DispatchFiles(s, s', t, a, n, started, w, r);
    }
  }

  lemma LookFiles(s: State, s': State, t: Tid, w: Word, r: Word)
    requires OwnLoads(s, s', t) || OwnReleases(s, s', t) || OwnCaptures(s, s', t, w) || OwnWalks(s, s', t, w, r)
    ensures LeavesFiled(s, s')
  {
    if !OwnCaptures(s, s', t, w) { assert s'.files == s.files && s'.place == s.place; }
  }

  lemma DispatchFiles(s: State, s': State, t: Tid, a: Op, n: nat, started: Option<Op>, w: Word, r: Word)
    requires OwnRuns(s, s', t, a) || OwnTurns(s, s', t, n, started) || OwnTails(s, s', t, w, r) || OwnLists(s, s', t, r)
    ensures LeavesFiled(s, s')
  {
    if OwnTurns(s, s', t, n, started) {
      TurnFiles(s, s', t, n, started);
    } else if OwnRuns(s, s', t, a) {
    } else {
      assert s'.files == s.files;
    }
  }

  lemma TurnFiles(s: State, s': State, t: Tid, n: nat, started: Option<Op>)
    requires OwnTurns(s, s', t, n, started)
    ensures LeavesFiled(s, s')
  {
  }

  lemma {:induction false} RunFiles(run: seq<State>, i: nat)
    requires Run(run) && i < |run|
    ensures FilesOk(run[i])
  {
    if i > 0 {
      RunFiles(run, i - 1);
      RunInvariant(run, i - 1);
      assert StepAt(run, i - 1);
      NextFiles(run[i - 1], run[i]);
    }
  }

  lemma NextFiles(s: State, s': State)
    requires Inv(s) && FilesOk(s) && Next(s, s')
    ensures FilesOk(s')
  {
    if !Reinit(s, s') {
      var t: Tid :| Moves(s, s', t);
      MovesFiles(s, s', t);
    }
  }

  lemma MovesFiles(s: State, s': State, t: Tid)
    requires Inv(s) && FilesOk(s) && Moves(s, s', t)
    ensures FilesOk(s')
  {
    if a: Op, n: nat, tags: set<Tag>, seen: Word :| PushMoves(s, s', t, a, n, tags, seen) {
      PushFiles(s, s', t, a, n, tags, seen);
    } else if a: Op, n: nat :| RefMoves(s, s', t, a, n) {
      RefFiles(s, s', t, a, n);
    } else {
      var a: Op, n: nat, started: Option<Op>, w: Word, r: Word :| OwnMoves(s, s', t, a, n, started, w, r);
      OwnFiled(s, s', t, a, n, started, w, r);
    }
  }

  /** When the delete signal has been dispatched the object is idle: no reference is
      held, no operation is with a pusher, waiting, captured or started, and both queues
      and the initialization slot are empty.  The signal is the last thing dispatched for
      this object. */
  lemma DestroyedIdle(run: seq<State>, i: nat)
    requires Run(run) && i < |run| && run[i].stage.Dead?
    ensures run[i].refs == 0 && run[i].place == map[] && run[i].owner == None
    ensures run[i].files == EMPTY
    ensures run[i].ran != [] && Delete in run[i].ran[|run[i].ran| - 1].tags
  {
    RunInvariant(run, i);
    RunFiles(run, i);
    assert forall a :: a in run[i].place ==> OfOp(a) in run[i].owned;
    NothingFiled(run[i].files);
  }

  lemma NothingFiled(f: Files)
    requires forall a: Op :: !Filed(f, a)
    ensures f == EMPTY
  {
    if f.readQueue != [] { assert Filed(f, f.readQueue[0]); }
    if f.writeQueue != [] { assert Filed(f, f.writeQueue[0]); }
    if f.initialization.Some? { assert Filed(f, f.initialization.value); }
  }

  lemma DeadPush(s: State, s': State, t: Tid, a: Op, n: nat, tags: set<Tag>, seen: Word)
    requires Inv(s) && s.stage.Dead? && PushMoves(s, s', t, a, n, tags, seen)
    ensures s'.ran == s.ran && s'.head == s.head && s'.stage == Dead && s'.place == s.place
  {
    assert ActOk(s, t);
    assert s.owned == {} && OfOp(a) !in s.owned;
  }

  lemma DeadRef(s: State, s': State, t: Tid, a: Op, n: nat)
    requires Inv(s) && s.stage.Dead?
    ensures !RefMoves(s, s', t, a, n)
  {
    assert t in s.acts ==> ActOk(s, t);
    assert s.owned == {} && OfOp(a) !in s.owned && InHand(t) !in s.owned;
  }

  lemma DeadOwn(s: State, s': State, t: Tid, a: Op, n: nat, started: Option<Op>, w: Word, r: Word)
    requires Inv(s) && s.stage.Dead?
    ensures !OwnMoves(s, s', t, a, n, started, w, r)
  {
    assert t in s.acts ==> ActOk(s, t);
  }

  /** Until its storage becomes a new object nothing touches a destroyed object: not
      its word, not its log; late signals fail their generation check. */
  lemma DeadIsFinal(run: seq<State>, i: nat)
    requires Run(run) && i + 1 < |run| && run[i].stage.Dead?
    ensures if run[i + 1].stage.Dead? then run[i + 1].ran == run[i].ran && run[i + 1].head == run[i].head
            else run[i + 1].ran == [] && run[i + 1].stage.Alive? && run[i + 1].refs == 1
  {
    RunInvariant(run, i);
    assert StepAt(run, i);
    var s, s' := run[i], run[i + 1];
    if !Reinit(s, s') {
      var t: Tid :| Moves(s, s', t);
      if a: Op, n: nat, tags: set<Tag>, seen: Word :| PushMoves(s, s', t, a, n, tags, seen) {
        DeadPush(s, s', t, a, n, tags, seen);
      } else if a: Op, n: nat :| RefMoves(s, s', t, a, n) {
        DeadRef(s, s', t, a, n);
      } else {
        var a: Op, n: nat, started: Option<Op>, w: Word, r: Word :| OwnMoves(s, s', t, a, n, started, w, r);
        DeadOwn(s, s', t, a, n, started, w, r);
      }
    }
  }

  // --------------------------------------------------------------------- progress

  lemma FreshHandle(owned: set<Ref>) returns (n: nat)
    ensures Handle(n) !in owned
  {
    n := 0;
    var rest := owned;
    while rest != {}
      invariant rest <= owned
      invariant forall r :: r in owned && r !in rest && r.Handle? ==> r.n < n
      decreases rest
    {
      var r :| r in rest;
      if r.Handle? && n <= r.n { n := r.n + 1; }
      rest := rest - {r};
    }
  }

  /** The guards of the steps are never in the way: a thread inside an operation can
      always take its next step. */
  lemma NeverStuck(run: seq<State>, i: nat, t: Tid)
    requires Run(run) && i < |run| && t in run[i].acts && run[i].acts[t] != Idle
    ensures exists s' :: Moves(run[i], s', t)
  {
    RunInvariant(run, i);
    assert ActOk(run[i], t);
    if Owns(run[i].acts[t]) { var s' := OwnerMoves(run[i], t); } else { var s' := PusherMoves(run[i], t); }
  }

  lemma PusherMoves(s: State, t: Tid) returns (s': State)
    requires Inv(s) && t in s.acts && ActOk(s, t) && s.acts[t] != Idle && !Owns(s.acts[t])
    ensures Moves(s, s', t)
  {
    match s.acts[t]
    case PushLoad(a) =>
      s' := SetAct(s, t, PushSwap(a, s.head)).(next := if s.head == ZERO then s.next else s.next[a := s.head]);
      assert PushMoves(s, s', t, a, 0, {}, ZERO);
    case PushSwap(a, seen) => s' := SwapMoves(s, t, a, seen);
    case CheckedLoad(g, tags) =>
      s' := SetAct(s, t, CheckedSwap(g, tags, s.head));
      assert PushMoves(s, s', t, 0, g, tags, ZERO);
    case CheckedSwap(g, tags, seen) =>
      s' := if s.head == seen && s.generation == g then OrTags(s, t, tags)
                else SetAct(s, t, if s.generation != g then Idle else CheckedSwap(g, tags, s.head));
      assert PushMoves(s, s', t, 0, g, tags, seen);
    case Unref => s' := UnrefMoves(s, t);
    case PushDelete => s' := DeleteMoves(s, t);
  }

  lemma UnrefMoves(s: State, t: Tid) returns (s': State)
    requires Inv(s) && t in s.acts && ActOk(s, t) && s.acts[t].Unref?
    ensures Moves(s, s', t)
  {
    assert |s.owned| > 0;
    s' := SetAct(s, t, if s.refs == 1 then PushDelete else Idle).(
      refs := s.refs - 1, owned := s.owned - {InHand(t)}, stage := if s.refs == 1 then Dying(t) else s.stage);
    assert RefMoves(s, s', t, 0, 0);
  }

  lemma DeleteMoves(s: State, t: Tid) returns (s': State)
    requires Inv(s) && t in s.acts && s.acts[t].PushDelete?
    ensures Moves(s, s', t)
  {
    s' := OrTags(s, t, {Delete}).(stage := Condemned(|Ride(s.log, s.head, {Delete})| - 1));
    assert RefMoves(s, s', t, 0, 0);
  }

  lemma SwapMoves(s: State, t: Tid, a: Op, seen: Word) returns (s': State)
    requires Inv(s) && t in s.acts && s.acts[t] == PushSwap(a, seen)
    ensures Moves(s, s', t)
  {
    if s.head != seen {
      s' := SetAct(s, t, PushLoad(a));
      assert PushRetries(s, s', t, a, seen);
    } else if seen != ZERO {
      s' := SetAct(s, t, Idle).(
        head := Word(At(a), {}), pile := s.pile + [Word(At(a), {})], place := s.place[a := Waiting(|s.pile|)],
        log := s.log + [Entry(Some(a), {})]);
      assert PushStacks(s, s', t, a, seen);
    } else {
      s' := SetAct(s, t, OwnRun(a)).(
        head := STUB, pile := [STUB], owner := Some(t), queued := [Entry(Some(a), {})], log := s.log + [Entry(Some(a), {})]);
      assert PushOwns(s, s', t, a, seen);
    }
    assert PushMoves(s, s', t, a, 0, {}, seen);
  }

  lemma TwoRefs(owned: set<Ref>, p: Ref, q: Ref)
    requires p in owned && q in owned && p != q
    ensures 1 < |owned|
  {
    assert q in owned - {p} && |owned - {p}| == |owned| - 1;
  }

  lemma OwnerMoves(s: State, t: Tid) returns (s': State)
    requires Inv(s) && t in s.acts && ActOk(s, t) && Owns(s.acts[t])
    ensures Moves(s, s', t)
  {
    match s.acts[t]
    case OwnRun(a) =>
      s' := Dispatch(s, t, Entry(Some(a), {}), OwnLoad);
      assert OwnMoves(s, s', t, a, 0, None, ZERO, ZERO);
    case OwnDrop(a) =>
      assert OfOp(a) in s.owned;
      TwoRefs(s.owned, OfOp(a), InHand(t));
      s' := SetAct(s, t, OwnTurn).(refs := s.refs - 1, owned := s.owned - {OfOp(a)}, place := s.place - {a});
      assert OwnMoves(s, s', t, a, 0, None, ZERO, ZERO);
    case OwnTurn =>
      var n := FreshHandle(s.owned);
      s' := Dispatch(s, t, Entry(None, {}), OwnLoad).(
        refs := s.refs + 0, place := s.place, owned := s.owned - {InHand(t)} + {Handle(n)} + {});
      assert OwnMoves(s, s', t, 0, n, None, ZERO, ZERO);
    case OwnLoad =>
      s' := SetAct(s, t, if s.head == STUB then OwnRelease else OwnCapture(s.head));
      assert OwnMoves(s, s', t, 0, 0, None, ZERO, ZERO);
    case OwnRelease =>
      s' := if s.head == STUB then SetAct(s, t, Idle).(head := ZERO, pile := [ZERO], owner := None)
                else SetAct(s, t, OwnLoad);
      assert OwnMoves(s, s', t, 0, 0, None, ZERO, ZERO);
    case OwnCapture(seen) =>
      s' := if s.head == seen
        then SetAct(s, t, OwnWalk(seen, ZERO)).(
          head := STUB, pile := [STUB], held := s.pile, mark := |s.pile| - 1, queued := EntriesOf(s.pile), place := Capture(s.place))
        else SetAct(s, t, OwnCapture(s.head));
      assert OwnMoves(s, s', t, 0, 0, None, seen, ZERO);
    case OwnWalk(current, reversed) => s' := WalkMoves(s, t, current, reversed);
    case OwnTail(tail, reversed) =>
      s' := if tail == ZERO then SetAct(s, t, OwnList(reversed)).(mark := 1)
                else Dispatch(s, t, Entry(None, tail.tags), OwnList(reversed)).(mark := 1);
      assert OwnMoves(s, s', t, 0, 0, None, tail, reversed);
    case OwnList(reversed) => s' := ListMoves(s, t, reversed);
  }

  lemma WalkMoves(s: State, t: Tid, current: Word, reversed: Word) returns (s': State)
    requires Inv(s) && ActOk(s, t) && s.acts[t] == OwnWalk(current, reversed)
    ensures Moves(s, s', t)
  {
    assert s.mark > 0 ==> HeldLink(s, s.mark);
    s' := if current == ZERO || current == STUB then SetAct(s, t, OwnTail(ZERO, reversed))
      else if !current.node.At? then SetAct(s, t, OwnTail(current, reversed))
      else SetAct(s, t, OwnWalk(s.next[current.node.op], current)).(
        next := s.next[current.node.op := reversed], mark := Down(s.mark));
    assert OwnMoves(s, s', t, 0, 0, None, current, reversed);
  }

  lemma ListMoves(s: State, t: Tid, reversed: Word) returns (s': State)
    requires Inv(s) && ActOk(s, t) && s.acts[t] == OwnList(reversed)
    ensures Moves(s, s', t)
  {
    assert s.mark < |s.held| ==> HeldUp(s, s.mark);
    s' := if reversed == ZERO then SetAct(s, t, OwnLoad)
      else Dispatch(s, t, EntryOf(reversed), OwnList(s.next[reversed.node.op])).(mark := s.mark + 1);
    assert OwnMoves(s, s', t, 0, 0, None, ZERO, reversed);
  }
}
