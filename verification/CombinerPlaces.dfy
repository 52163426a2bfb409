/** Where the operations are: every one that was initialised and is not over is with its
    pusher, or on the stack, or in the chain that the owner has captured and not dispatched
    yet, or started. */
module CombinerPlaces {
  import opened Wrappers
  import opened CombinerMachine
  import opened CombinerInvariant
  import opened CombinerSteps
  import opened CombinerTheorems

  predicate Has(act: Act, a: Op) {
    act == PushLoad(a) || (act.PushSwap? && act.op == a) || act == OwnDrop(a) || act == OwnRun(a)
  }

  /** The captured node at `i` is still to be dispatched. */
  predicate Keeps(act: Act, mark: nat, i: nat) { act.OwnWalk? || act.OwnTail? || (act.OwnList? && mark <= i) }

  ghost predicate Found(s: State, a: Op)
    requires a in s.place
  {
    match s.place[a]
    case With(t) => t in s.acts && Has(s.acts[t], a)
    case Waiting(i) => 0 < i < |s.pile| && s.pile[i].node == At(a)
    case Captured(i) =>
      && 0 < i < |s.held| && s.held[i].node == At(a)
      && s.owner.Some? && s.owner.value in s.acts && Keeps(s.acts[s.owner.value], s.mark, i)
    case Started => true
  }

  ghost predicate AllFound(s: State) { forall a {:trigger Found(s, a)} :: a in s.place ==> Found(s, a) }

  // ------------------------------------------------------------------------- one step

  /** The nodes of the stack stay where they are. */
  ghost predicate Stacked(s: State, s': State) {
    |s.pile| <= |s'.pile| && forall i :: 0 <= i < |s.pile| ==> s'.pile[i].node == s.pile[i].node
  }

  /** A step of a thread that is not the owner, before and after. */
  ghost predicate Outside(s: State, s': State, t: Tid) {
    && t in s.acts && t in s'.acts && s'.acts == s.acts[t := s'.acts[t]] && s.owner != Some(t) && s'.owner == s.owner
    && Stacked(s, s') && s'.held == s.held && s'.mark == s.mark
  }

  lemma OutsideFinds(s: State, s': State, t: Tid, a: Op)
    requires Outside(s, s', t) && a in s.place && a in s'.place && s'.place[a] == s.place[a] && Found(s, a)
    requires Has(s.acts[t], a) ==> Has(s'.acts[t], a)
    ensures Found(s', a)
  {
  }

  lemma LooksFind(s: State, s': State, t: Tid, a: Op, n: nat, tags: set<Tag>, seen: Word)
    requires Inv(s) && AllFound(s)
    requires || PushLoads(s, s', t, a) || PushRetries(s, s', t, a, seen) || CheckedBegin(s, s', t, n, tags) || CheckedLoads(s, s', t, n, tags)
    ensures AllFound(s')
  {
    assert ActOk(s, t);
    forall b | b in s'.place ensures Found(s', b) {
      assert Found(s, b);
      OutsideFinds(s, s', t, b);
    }
  }

  lemma InitFinds(s: State, s': State, t: Tid, a: Op)
    requires Inv(s) && AllFound(s) && InitOp(s, s', t, a)
    ensures AllFound(s')
  {
    assert ActOk(s, t);
    forall b | b in s'.place ensures Found(s', b) {
      if b != a {
        assert Found(s, b);
        OutsideFinds(s, s', t, b);
      }
    }
  }

  lemma StacksFind(s: State, s': State, t: Tid, a: Op, seen: Word)
    requires Inv(s) && AllFound(s) && PushStacks(s, s', t, a, seen)
    ensures AllFound(s')
  {
    assert ActOk(s, t);
    forall b | b in s'.place ensures Found(s', b) {
      if b != a {
        assert Found(s, b);
        OutsideFinds(s, s', t, b);
      }
    }
  }

  lemma RefsFind(s: State, s': State, t: Tid, a: Op, n: nat)
    requires Inv(s) && AllFound(s) && (Retain(s, s', t, n) || DropHandle(s, s', t, n) || FinishOp(s, s', t, a) || Unrefs(s, s', t))
    ensures AllFound(s')
  {
    assert ActOk(s, t);
    forall b | b in s'.place ensures Found(s', b) {
      assert Found(s, b);
      OutsideFinds(s, s', t, b);
    }
  }

  /** Signals change no node, and whoever takes the object with them finds no chain. */
  lemma OrFinds(s: State, s': State, t: Tid, tags: set<Tag>)
    requires Inv(s) && !s.stage.Dead? && AllFound(s) && t in s.acts && s' == OrTags(s, t, tags).(stage := s'.stage)
    requires s.acts[t].Idle? || s.acts[t].CheckedSwap? || s.acts[t].PushDelete?
    ensures AllFound(s')
  {
    assert ActOk(s, t);
    forall b | b in s'.place ensures Found(s', b) {
      assert Found(s, b);
      if s.head == ZERO { UnownedWord(s); } else { OutsideFinds(s, s', t, b); }
    }
  }

  /** An unowned object has nothing stacked or captured. */
  lemma TakesFind(s: State, s': State, t: Tid, a: Op, n: nat, seen: Word)
    requires Inv(s) && !s.stage.Dead? && AllFound(s)
    requires PushOwns(s, s', t, a, seen) || Acquire(s, s', t, n) || AcquireHolding(s, s', t, a, n, seen)
    ensures AllFound(s')
  {
    assert ActOk(s, t);
    UnownedWord(s);
    forall b | b in s'.place ensures Found(s', b) { assert Found(s, b); }
  }

  // ---------------------------------------------------------------------- the owner's steps

  /** The owner leaves the chain and its place in it alone. */
  ghost predicate OwnStill(s: State, s': State, t: Tid) {
    && t in s.acts && t in s'.acts && s'.acts == s.acts[t := s'.acts[t]] && s.owner == Some(t)
    && Stacked(s, s') && (s'.owner == Some(t) && s'.held == s.held)
  }

  lemma OwnFinds(s: State, s': State, t: Tid, b: Op)
    requires OwnStill(s, s', t) && b in s.place && b in s'.place && s'.place[b] == s.place[b] && Found(s, b)
    requires Has(s.acts[t], b) ==> Has(s'.acts[t], b)
    requires s.place[b].Captured? && Keeps(s.acts[t], s.mark, s.place[b].i) ==> Keeps(s'.acts[t], s'.mark, s.place[b].i)
    ensures Found(s', b)
  {
  }

  lemma FilesFind(s: State, s': State, t: Tid, a: Op)
    requires Inv(s) && AllFound(s) && (OwnFiles(s, s', t, a) || OwnUnfiles(s, s', t, a) || OwnDrops(s, s', t, a) || OwnLoads(s, s', t))
    ensures AllFound(s')
  {
    assert ActOk(s, t);
    forall b | b in s'.place ensures Found(s', b) {
      assert Found(s, b);
      if OwnFiles(s, s', t, a) || OwnUnfiles(s, s', t, a) { assert s' == s.(files := s'.files); } else { OwnFinds(s, s', t, b); }
    }
  }

  lemma ReleasesFind(s: State, s': State, t: Tid)
    requires Inv(s) && AllFound(s) && OwnReleases(s, s', t)
    ensures AllFound(s')
  {
    assert ActOk(s, t);
    assert 1 < |s.pile| ==> LinkOk(s, |s.pile| - 1);
    forall b | b in s'.place ensures Found(s', b) { assert Found(s, b); }
  }

  lemma CapturesFind(s: State, s': State, t: Tid, seen: Word)
    requires Inv(s) && AllFound(s) && OwnCaptures(s, s', t, seen)
    ensures AllFound(s')
  {
    assert ActOk(s, t);
    forall b | b in s'.place ensures Found(s', b) { assert Found(s, b); }
  }

  lemma WalksFind(s: State, s': State, t: Tid, w: Word, r: Word)
    requires Inv(s) && AllFound(s) && OwnWalks(s, s', t, w, r)
    ensures AllFound(s')
  {
    assert ActOk(s, t);
    forall b | b in s'.place ensures Found(s', b) {
      assert Found(s, b);
      OwnFinds(s, s', t, b);
    }
  }

  /** A dispatched operation has started; with the delete signal nothing is left. */
  lemma DispatchFinds(s: State, s': State, t: Tid, e: Entry, onward: Act, mark: nat)
    requires Inv(s) && AllFound(s) && t in s.acts && s.owner == Some(t) && s.queued != []
    requires s' == Dispatch(s, t, e, onward).(mark := mark) && Delete !in e.tags
    requires forall b :: b in s.place && Has(s.acts[t], b) ==> e.op == Some(b)
    requires forall b, i :: b in s.place && s.place[b] == Captured(i) && Keeps(s.acts[t], s.mark, i) ==> e.op == Some(b) || Keeps(onward, mark, i)
    ensures AllFound(s')
  {
    forall b | b in s'.place ensures Found(s', b) {
      if e.op != Some(b) {
        assert Found(s, b);
        OwnFinds(s, s', t, b);
      }
    }
  }

  lemma RunsFind(s: State, s': State, t: Tid, a: Op)
    requires Inv(s) && AllFound(s) && OwnRuns(s, s', t, a)
    ensures AllFound(s')
  {
    assert ActOk(s, t);
    assert s' == Dispatch(s, t, Entry(Some(a), {}), OwnLoad).(mark := s.mark);
    DispatchFinds(s, s', t, Entry(Some(a), {}), OwnLoad, s.mark);
  }

  lemma TurnsFind(s: State, s': State, t: Tid, n: nat, started: Option<Op>)
    requires Inv(s) && AllFound(s) && OwnTurns(s, s', t, n, started)
    ensures AllFound(s')
  {
    assert ActOk(s, t);
    forall b | b in s'.place ensures Found(s', b) {
      if started != Some(b) {
        assert Found(s, b);
        OwnFinds(s, s', t, b);
      }
    }
  }

  lemma TailsFind(s: State, s': State, t: Tid, tail: Word, reversed: Word)
    requires Inv(s) && AllFound(s) && OwnTails(s, s', t, tail, reversed) && (tail == ZERO || Delete !in tail.tags)
    ensures AllFound(s')
  {
    assert ActOk(s, t);
    if tail == ZERO {
      forall b | b in s'.place ensures Found(s', b) {
        assert Found(s, b);
        OwnFinds(s, s', t, b);
      }
    } else {
      assert forall b :: b in s.place ==> Found(s, b);
      DispatchFinds(s, s', t, Entry(None, tail.tags), OwnList(reversed), 1);
    }
  }

  lemma ListsFind(s: State, s': State, t: Tid, reversed: Word)
    requires Inv(s) && AllFound(s) && OwnLists(s, s', t, reversed) && (reversed == ZERO || Delete !in reversed.tags)
    ensures AllFound(s')
  {
    assert ActOk(s, t);
    assert s.mark < |s.held| ==> HeldUp(s, s.mark);
    if reversed == ZERO {
      forall b | b in s'.place ensures Found(s', b) {
        assert Found(s, b);
        OwnFinds(s, s', t, b);
      }
    } else {
      forall b, i | b in s.place && s.place[b] == Captured(i) && Keeps(s.acts[t], s.mark, i)
        ensures Some(reversed.node.op) == Some(b) || Keeps(OwnList(s.next[reversed.node.op]), s.mark + 1, i)
      {
        assert Found(s, b);
      }
      DispatchFinds(s, s', t, EntryOf(reversed), OwnList(s.next[reversed.node.op]), s.mark + 1);
    }
  }

  /** The delete signal finds no operation. */
  lemma DeleteFinds(s: State, s': State, t: Tid, e: Entry, onward: Act)
    requires Inv(s) && s.queued != [] && Delete in e.tags && s'.place == Dispatch(s, t, e, onward).place
    requires !s.stage.Dead? && s.queued[0] == e && (e.op.Some? ==> e.op.value in s.place)
    ensures AllFound(s')
  {
    NextEntry(s);
    assert Delete in s.log[|s.ran|].tags;
    NoOperation(s);
  }

  lemma TailDeletes(s: State, s': State, t: Tid, tail: Word, reversed: Word)
    requires Inv(s) && OwnTails(s, s', t, tail, reversed) && tail != ZERO && Delete in tail.tags
    ensures AllFound(s')
  {
    assert ActOk(s, t);
    OwnerLives(s, t);
    TailTurns(s, s', t, tail, reversed);
    DeleteFinds(s, s', t, Entry(None, tail.tags), OwnList(reversed));
  }

  lemma ListDeletes(s: State, s': State, t: Tid, reversed: Word)
    requires Inv(s) && OwnLists(s, s', t, reversed) && reversed != ZERO && Delete in reversed.tags
    ensures AllFound(s')
  {
    assert ActOk(s, t);
    OwnerLives(s, t);
    assert s.mark < |s.held| && HeldUp(s, s.mark);
    assert s.queued[0] == EntryOf(reversed);
    DeleteFinds(s, s', t, EntryOf(reversed), OwnList(s.next[reversed.node.op]));
  }

  lemma OwnerLives(s: State, t: Tid)
    requires Inv(s) && s.owner == Some(t)
    ensures !s.stage.Dead?
  {
  }

  lemma PushMovesFind(s: State, s': State, t: Tid, a: Op, n: nat, tags: set<Tag>, seen: Word)
    requires Inv(s) && AllFound(s) && PushMoves(s, s', t, a, n, tags, seen)
    ensures AllFound(s')
  {
    assert ActOk(s, t);
    if InitOp(s, s', t, a) { InitFinds(s, s', t, a); }
    else if PushStacks(s, s', t, a, seen) { StacksFind(s, s', t, a, seen); }
    else if PushOwns(s, s', t, a, seen) || Acquire(s, s', t, n) || AcquireHolding(s, s', t, a, n, seen) { TakesFind(s, s', t, a, n, seen); }
    else if PushTags(s, s', t, tags) || CheckedSwaps(s, s', t, n, tags, seen) { SignalsFind(s, s', t, n, tags, seen); }
    else { LooksFind(s, s', t, a, n, tags, seen); }
  }

  lemma SignalsFind(s: State, s': State, t: Tid, n: nat, tags: set<Tag>, seen: Word)
    requires Inv(s) && AllFound(s) && (PushTags(s, s', t, tags) || CheckedSwaps(s, s', t, n, tags, seen))
    ensures AllFound(s')
  {
    assert ActOk(s, t);
    if PushTags(s, s', t, tags) || (s.head == seen && s.generation == n) {
      OrFinds(s, s', t, tags);
    } else {
      forall b | b in s'.place ensures Found(s', b) {
        assert Found(s, b);
        OutsideFinds(s, s', t, b);
      }
    }
  }

  lemma RefMovesFind(s: State, s': State, t: Tid, a: Op, n: nat)
    requires Inv(s) && AllFound(s) && RefMoves(s, s', t, a, n)
    ensures AllFound(s')
  {
    assert PushDeletes(s, s', t) ==> ActOk(s, t);
    if PushDeletes(s, s', t) { OrFinds(s, s', t, {Delete}); } else { RefsFind(s, s', t, a, n); }
  }

  lemma OwnMovesFind(s: State, s': State, t: Tid, a: Op, n: nat, started: Option<Op>, w: Word, r: Word)
    requires Inv(s) && AllFound(s) && OwnMoves(s, s', t, a, n, started, w, r)
    ensures AllFound(s')
  {
    if OwnRuns(s, s', t, a) { RunsFind(s, s', t, a); }
    else if OwnTurns(s, s', t, n, started) { TurnsFind(s, s', t, n, started); }
    else if OwnReleases(s, s', t) { ReleasesFind(s, s', t); }
    else if OwnCaptures(s, s', t, w) { CapturesFind(s, s', t, w); }
    else if OwnWalks(s, s', t, w, r) { WalksFind(s, s', t, w, r); }
    else if OwnTails(s, s', t, w, r) { if w == ZERO || Delete !in w.tags { TailsFind(s, s', t, w, r); } else { TailDeletes(s, s', t, w, r); } }
    else if OwnLists(s, s', t, r) { if r == ZERO || Delete !in r.tags { ListsFind(s, s', t, r); } else { ListDeletes(s, s', t, r); } }
    else { FilesFind(s, s', t, a); }
  }

  lemma MovesFind(s: State, s': State, t: Tid)
    requires Inv(s) && AllFound(s) && Moves(s, s', t)
    ensures AllFound(s')
  {
    if a: Op, n: nat, tags: set<Tag>, seen: Word :| PushMoves(s, s', t, a, n, tags, seen) {
      PushMovesFind(s, s', t, a, n, tags, seen);
    } else if a: Op, n: nat :| RefMoves(s, s', t, a, n) {
      RefMovesFind(s, s', t, a, n);
    } else {
      var a: Op, n: nat, started: Option<Op>, w: Word, r: Word :| OwnMoves(s, s', t, a, n, started, w, r);
      OwnMovesFind(s, s', t, a, n, started, w, r);
    }
  }

  lemma NextFinds(s: State, s': State)
    requires Inv(s) && AllFound(s) && Next(s, s')
    ensures AllFound(s')
  {
    if Reinit(s, s') {
      assert forall a :: a in s.place ==> OfOp(a) in s.owned;
    } else {
      var t: Tid :| Moves(s, s', t);
      MovesFind(s, s', t);
    }
  }

  /** No operation is ever nowhere. */
  lemma {:induction false} OperationsFound(run: seq<State>, i: nat)
    requires Run(run) && i < |run|
    ensures AllFound(run[i])
  {
    if i > 0 {
      OperationsFound(run, i - 1);
      RunInvariant(run, i - 1);
      assert StepAt(run, i - 1);
      NextFinds(run[i - 1], run[i]);
    }
  }

  /** When nobody owns the object and no push is in progress, every operation that is not
      over has been started. */
  lemma IdleMeansStarted(run: seq<State>, i: nat, a: Op)
    requires Run(run) && i < |run| && !run[i].stage.Dead? && run[i].owner == None && a in run[i].place
    requires forall t :: t in run[i].acts ==> !Has(run[i].acts[t], a)
    ensures run[i].place[a] == Started
  {
    OperationsFound(run, i);
    RunInvariant(run, i);
    assert Found(run[i], a);
  }
}
