/** Every step of the combiner keeps its invariant. */
module CombinerSteps {
  import opened Wrappers
  import opened CombinerMachine
  import opened CombinerInvariant

  // -------------------------------------------------------------- pile arithmetic

  lemma PushedEntries(pile: seq<Word>, w: Word)
    requires pile != []
    ensures EntriesOf(pile + [w]) == EntriesOf(pile) + [EntryOf(w)]
  {
    assert Tops(pile + [w], 1) == Tops(pile, 1) + [EntryOf(w)];
  }

  lemma TopEntries(pile: seq<Word>)
    requires 1 < |pile|
    ensures EntriesOf(pile) == EntriesOf(pile[..|pile| - 1]) + [EntryOf(pile[|pile| - 1])]
  {
    PushedEntries(pile[..|pile| - 1], pile[|pile| - 1]);
    assert pile == pile[..|pile| - 1] + [pile[|pile| - 1]];
  }

  /** Signals or-ed into the word are signals on the newest waiting entry. */
  lemma RiddenEntries(before: seq<Entry>, pile: seq<Word>, tags: set<Tag>)
    requires pile != [] && !pile[0].node.At? && tags != {}
    requires forall i :: 0 < i < |pile| ==> pile[i].node.At?
    ensures var head := pile[|pile| - 1];
      && Ride(before + EntriesOf(pile), head, tags)
         == before + EntriesOf(pile[|pile| - 1 := head.(tags := head.tags + tags)])
  {
    var n := |pile| - 1;
    var head := pile[n];
    var pile' := pile[n := head.(tags := head.tags + tags)];
    if n > 0 {
      TopEntries(pile);
      TopEntries(pile');
      assert pile'[..n] == pile[..n];
    } else {
      assert EntriesOf(pile) == Bottom(head) && EntriesOf(pile') == Bottom(pile'[0]);
      assert head.tags == {} ==> head.tags + tags == tags;
    }
  }

  // --------------------------------------------------------- steps that only look

  lemma PileKept(s: State, s': State)
    requires PileOk(s) && s'.head == s.head && s'.pile == s.pile && s'.owner == s.owner && s'.queued == s.queued
    requires forall a, i :: a in s.place && s.place[a] == Waiting(i) ==>
               && a in s'.place && s'.place[a] == Waiting(i)
               && (a in s.next ==> a in s'.next && s'.next[a] == s.next[a])
    ensures PileOk(s')
  {
    forall i: nat | 0 < i < |s'.pile| ensures LinkOk(s', i) { assert LinkOk(s, i); }
  }

  /** Only the thread's own position changes. */
  lemma QuietKeeps(s: State, s': State, t: Tid)
    requires Inv(s) && t in s.acts && t in s'.acts
    requires s' == s.(acts := s.acts[t := s'.acts[t]], mark := s'.mark)
    requires s.owner == Some(t) || s'.mark == s.mark
    requires !s.acts[t].Unref? && !s.acts[t].OwnDrop? && !s.acts[t].OwnTurn? && !s.acts[t].PushDelete?
    requires ActOk(s', t)
    ensures Inv(s')
  {
    if !s.stage.Dead? { PileKept(s, s'); }
    ActsKept(s, s', t);
    if s.stage.Dying? { assert ActOk(s, s.stage.t); }
    forall u | InHand(u) in s'.owned ensures u in s'.acts && (s'.acts[u].Unref? || s'.acts[u].OwnDrop? || s'.acts[u].OwnTurn?) {
    }
  }

  lemma PushLooksKeep(s: State, s': State, t: Tid, a: Op, g: nat, tags: set<Tag>, seen: Word)
    requires Inv(s)
    requires PushRetries(s, s', t, a, seen) || CheckedBegin(s, s', t, g, tags) || CheckedLoads(s, s', t, g, tags)
    ensures Inv(s')
  {
    assert ActOk(s, t);
    QuietKeeps(s, s', t);
  }

  lemma CheckedFailKeeps(s: State, s': State, t: Tid, g: nat, tags: set<Tag>, seen: Word)
    requires Inv(s) && CheckedSwaps(s, s', t, g, tags, seen) && !(s.head == seen && s.generation == g)
    ensures Inv(s')
  {
    assert ActOk(s, t);
    QuietKeeps(s, s', t);
  }

  lemma OwnLooksKeep(s: State, s': State, t: Tid)
    requires Inv(s)
    requires || OwnLoads(s, s', t)
             || (OwnReleases(s, s', t) && s.head != STUB)
             || (exists seen :: OwnCaptures(s, s', t, seen) && s.head != seen)
    ensures Inv(s')
  {
    assert ActOk(s, t);
    QuietKeeps(s, s', t);
  }

  // ------------------------------------------------------------------- references

  lemma InitOpKeeps(s: State, s': State, t: Tid, a: Op)
    requires Inv(s) && InitOp(s, s', t, a)
    ensures Inv(s')
  {
    assert ActOk(s, t);
    assert OfOp(a) !in s.owned;
    if !s.stage.Dead? { PileKept(s, s'); }
    ActsKept(s, s', t);
  }

  lemma RetainKeeps(s: State, s': State, t: Tid, n: nat)
    requires Inv(s) && Retain(s, s', t, n)
    ensures Inv(s')
  {
    assert ActOk(s, t);
    if !s.stage.Dead? { PileKept(s, s'); }
    ActsKept(s, s', t);
  }

  lemma DropHandleKeeps(s: State, s': State, t: Tid, n: nat)
    requires Inv(s) && DropHandle(s, s', t, n)
    ensures Inv(s')
  {
    assert ActOk(s, t);
    assert |s'.owned| == |s.owned|;
    if !s.stage.Dead? { PileKept(s, s'); }
    ActsKept(s, s', t);
  }

  lemma FinishOpKeeps(s: State, s': State, t: Tid, a: Op)
    requires Inv(s) && FinishOp(s, s', t, a)
    ensures Inv(s')
  {
    assert ActOk(s, t);
    FinishOpRefs(s, s', t, a);
    if !s.stage.Dead? { PileKept(s, s'); }
    ActsKept(s, s', t);
  }

  lemma FinishOpRefs(s: State, s': State, t: Tid, a: Op)
    requires RefsOk(s) && FinishOp(s, s', t, a)
    ensures RefsOk(s')
  {
    assert OfOp(a) in s.owned && |s'.owned| == |s.owned|;
  }

  lemma UnrefsKeep(s: State, s': State, t: Tid)
    requires Inv(s) && Unrefs(s, s', t)
    ensures Inv(s')
  {
    assert ActOk(s, t);
    UnrefsRefs(s, s', t);
    PileKept(s, s');
    ActsKept(s, s', t);
  }

  lemma UnrefsRefs(s: State, s': State, t: Tid)
    requires RefsOk(s) && Unrefs(s, s', t) && InHand(t) in s.owned
    ensures RefsOk(s') && s.stage.Alive?
  {
    assert |s'.owned| == |s.owned| - 1;
  }

  // ------------------------------------------------------------------------ pushes

  lemma PushLoadsKeep(s: State, s': State, t: Tid, a: Op)
    requires Inv(s) && PushLoads(s, s', t, a)
    ensures Inv(s')
  {
    assert ActOk(s, t);
    if !s.stage.Dead? { PileKept(s, s'); }
    ActsKept(s, s', t);
  }

  /** A pusher's operation keeps the object alive. */
  lemma PusherAlive(s: State, t: Tid, a: Op)
    requires RefsOk(s) && PusherOk(s, t, a)
    ensures s.stage.Alive?
  {
    assert OfOp(a) in s.owned;
  }

  lemma PushStacksKeep(s: State, s': State, t: Tid, a: Op, seen: Word)
    requires Inv(s) && PushStacks(s, s', t, a, seen)
    ensures Inv(s')
  {
    assert ActOk(s, t);
    PusherAlive(s, t, a);
    PushedEntries(s.pile, Word(At(a), {}));
    assert s'.log == s'.ran + s'.queued + EntriesOf(s'.pile);
    forall i: nat | 0 < i < |s'.pile| ensures LinkOk(s', i) {
      if i < |s.pile| { assert LinkOk(s, i); }
    }
    ActsKept(s, s', t);
  }

  lemma PushOwnsKeep(s: State, s': State, t: Tid, a: Op, seen: Word)
    requires Inv(s) && PushOwns(s, s', t, a, seen)
    ensures Inv(s')
  {
    assert ActOk(s, t);
    PusherAlive(s, t, a);
    UnownedWord(s);
    ActsKept(s, s', t);
  }

  /** A zero word: nobody owns the object and nothing is undispatched. */
  lemma UnownedWord(s: State)
    requires PileOk(s) && LogOk(s) && !s.stage.Dead? && s.head == ZERO
    ensures s.owner == None && s.queued == [] && s.ran == s.log && s.pile == [ZERO]
    ensures EntriesOf([ZERO]) == [] && EntriesOf([STUB]) == []
  {
    assert 1 < |s.pile| ==> LinkOk(s, |s.pile| - 1);
    assert Tops([ZERO], 1) == [] && Tops([STUB], 1) == [];
  }

  lemma AcquireKeeps(s: State, s': State, t: Tid, n: nat)
    requires Inv(s) && Acquire(s, s', t, n)
    ensures Inv(s')
  {
    assert ActOk(s, t);
    UnownedWord(s);
    AcquireRefs(s, s', t, n);
    ActsKept(s, s', t);
  }

  lemma AcquireRefs(s: State, s': State, t: Tid, n: nat)
    requires Inv(s) && Acquire(s, s', t, n)
    ensures RefsOk(s') && s.stage.Alive?
  {
    assert |s'.owned| == |s.owned|;
  }

  lemma AcquireHoldingKeeps(s: State, s': State, t: Tid, a: Op, n: nat, seen: Word)
    requires Inv(s) && AcquireHolding(s, s', t, a, n, seen)
    ensures Inv(s')
  {
    assert ActOk(s, t);
    PusherAlive(s, t, a);
    UnownedWord(s);
    assert |s'.owned| == |s.owned|;
    ActsKept(s, s', t);
  }

  // ------------------------------------------------------------------------ signals

  lemma OrPile(s: State, s': State, t: Tid, tags: set<Tag>)
    requires Inv(s) && !s.stage.Dead? && t in s.acts && tags != {} && s'.next == s.next && s'.place == s.place
    requires s'.head == OrTags(s, t, tags).head && s'.pile == OrTags(s, t, tags).pile
    requires s'.owner == OrTags(s, t, tags).owner && s'.log == OrTags(s, t, tags).log
    requires s'.queued == s.queued && s'.ran == s.ran
    ensures PileOk(s') && s'.log == s'.ran + s'.queued + EntriesOf(s'.pile)
  {
    forall i: nat | 0 < i < |s.pile| ensures s.pile[i].node.At? { assert LinkOk(s, i); }
    RiddenEntries(s.ran + s.queued, s.pile, tags);
    if s.head == ZERO { UnownedWord(s); }
    forall i: nat | 0 < i < |s'.pile| ensures LinkOk(s', i) { assert LinkOk(s, i); }
  }

  /** A signal leaves the entries before the newest alone, and the newest one's
      operation. */
  lemma RideFrame(log: seq<Entry>, head: Word, tags: set<Tag>)
    ensures |log| <= |Ride(log, head, tags)| <= |log| + 1 && Ride(log, head, tags) != []
    ensures forall i :: 0 <= i < |log| ==> Ride(log, head, tags)[i].op == log[i].op
    ensures forall i :: 0 <= i < |log| ==> log[i].tags <= Ride(log, head, tags)[i].tags <= log[i].tags + tags
    ensures forall i :: 0 <= i < |Ride(log, head, tags)| - 1 ==> Ride(log, head, tags)[i] == log[i]
    ensures |log| < |Ride(log, head, tags)| ==> Ride(log, head, tags)[|log|] == Entry(None, tags)
    ensures tags <= Ride(log, head, tags)[|Ride(log, head, tags)| - 1].tags
  {
  }

  /** Entries already dispatched or captured are never the newest waiting one. */
  lemma RideKeepsRan(s: State, tags: set<Tag>)
    requires Inv(s) && !s.stage.Dead? && tags != {}
    ensures s.ran <= Ride(s.log, s.head, tags)
  {
    forall i: nat | 0 < i < |s.pile| ensures s.pile[i].node.At? { assert LinkOk(s, i); }
    RiddenEntries(s.ran + s.queued, s.pile, tags);
  }

  lemma OrRely(s: State, s': State, t: Tid, tags: set<Tag>)
    requires Inv(s) && !s.stage.Dead? && t in s.acts && tags != {}
    requires s' == OrTags(s, t, tags).(stage := s'.stage) && !s'.stage.Dead?
    requires s'.stage == s.stage || s.stage == Dying(t)
    ensures Rely(s, s', t)
  {
    if s.head == ZERO { UnownedWord(s); }
  }

  lemma OrDelete(s: State, tags: set<Tag>)
    requires Inv(s) && !s.stage.Dead? && Delete !in tags
    ensures DeleteOk(s.(log := Ride(s.log, s.head, tags)))
  {
    RideFrame(s.log, s.head, tags);
  }

  lemma OrKeeps(s: State, s': State, t: Tid, tags: set<Tag>)
    requires Inv(s) && !s.stage.Dead? && t in s.acts && tags != {} && Delete !in tags && s' == OrTags(s, t, tags)
    requires s.acts[t].Idle? || s.acts[t].CheckedSwap?
    ensures Inv(s')
  {
    assert ActOk(s, t);
    OrPile(s, s', t, tags);
    RideKeepsRan(s, tags);
    OrDelete(s, tags);
    OrActs(s, s', t, tags);
  }

  lemma OrActs(s: State, s': State, t: Tid, tags: set<Tag>)
    requires Inv(s) && !s.stage.Dead? && t in s.acts && tags != {} && Delete !in tags && s' == OrTags(s, t, tags)
    requires s.acts[t].Idle? || s.acts[t].CheckedSwap?
    ensures ActsOk(s')
  {
    assert ActOk(s, t);
    if s.head == ZERO { UnownedWord(s); }
    OrRely(s, s', t, tags);
    ActsKept(s, s', t);
  }

  lemma CondemnedOk(s: State)
    requires Inv(s) && s.stage.Dying?
    ensures s.ran <= Ride(s.log, s.head, {Delete})
    ensures DeleteOk(s.(log := Ride(s.log, s.head, {Delete}), stage := Condemned(|Ride(s.log, s.head, {Delete})| - 1)))
  {
    NoOperation(s);
    RideFrame(s.log, s.head, {Delete});
    RideKeepsRan(s, {Delete});
  }

  /** When the last reference goes no operation is left anywhere, so the delete
      signal rides no operation, and no earlier one is in the word. */
  lemma PushDeletesKeep(s: State, s': State, t: Tid)
    requires Inv(s) && PushDeletes(s, s', t)
    ensures Inv(s') && Delete !in s.head.tags && s.place == map[]
  {
    assert ActOk(s, t);
    NoOperation(s);
    OrPile(s, s', t, {Delete});
    CondemnedOk(s);
    DeleteActs(s, s', t);
  }

  lemma DeleteActs(s: State, s': State, t: Tid)
    requires Inv(s) && PushDeletes(s, s', t)
    ensures ActsOk(s')
  {
    assert ActOk(s, t);
    if s.head == ZERO { UnownedWord(s); }
    OrRely(s, s', t, {Delete});
    ActsKept(s, s', t);
  }

  lemma NoOperation(s: State)
    requires Inv(s) && !s.stage.Alive? && !s.stage.Dead?
    ensures s.place == map[] && |s.pile| == 1 && !s.head.node.At?
    ensures s.head.tags != {} ==> s.log != [] && s.log[|s.log| - 1] == Entry(None, s.head.tags)
  {
    assert forall a :: a in s.place ==> OfOp(a) in s.owned;
    assert 1 < |s.pile| ==> LinkOk(s, 1);
    assert EntriesOf(s.pile) == Bottom(s.pile[0]);
  }

  // ---------------------------------------------------------------------- dispatch

  /** What the owner dispatches next is the oldest undispatched entry of the log. */
  lemma NextEntry(s: State)
    requires Inv(s) && !s.stage.Dead? && s.queued != []
    ensures |s.ran| < |s.log| && s.log[|s.ran|] == s.queued[0]
    ensures s.log == (s.ran + [s.queued[0]]) + s.queued[1..] + EntriesOf(s.pile)
    ensures s.ran + [s.queued[0]] <= s.log
  {
    assert s.queued == [s.queued[0]] + s.queued[1..];
  }

  lemma DispatchPile(s: State, s': State, t: Tid, e: Entry, onward: Act)
    requires Inv(s) && s.owner == Some(t) && s.queued != [] && Delete !in e.tags
    requires e.op.Some? ==> e.op.value in s.place && !s.place[e.op.value].Waiting?
    requires s'.head == s.head && s'.pile == s.pile && s'.owner == s.owner && s'.next == s.next
    requires s'.place == Dispatch(s, t, e, onward).place
    ensures PileOk(s')
  {
    forall i: nat | 0 < i < |s'.pile| ensures LinkOk(s', i) { assert LinkOk(s, i); }
  }

  /** All of the invariant but the owner's own next position. */
  lemma DispatchKeeps(s: State, s': State, t: Tid, e: Entry, onward: Act)
    requires Inv(s) && s.owner == Some(t) && t in s.acts && !s.acts[t].OwnDrop? && !s.acts[t].OwnTurn? && s.queued != [] && e == s.queued[0]
    requires e.op.Some? ==> e.op.value in s.place && (s.place[e.op.value] == With(t) || s.place[e.op.value].Captured?)
    requires s' == Dispatch(s, t, e, onward).(mark := s'.mark) && Owns(onward) && Delete !in e.tags
    requires t in s'.acts && ActOk(s', t)
    ensures Inv(s')
  {
    NextEntry(s);
    DispatchPile(s, s', t, e, onward);
    DispatchRefs(s, s', t, e, onward);
    ActsKept(s, s', t);
  }

  lemma DispatchRefs(s: State, s': State, t: Tid, e: Entry, onward: Act)
    requires Inv(s) && s.owner == Some(t) && t in s.acts && !s.acts[t].OwnDrop? && !s.acts[t].OwnTurn? && s.queued != [] && Delete !in e.tags
    requires e.op.Some? ==> e.op.value in s.place
    requires s' == Dispatch(s, t, e, onward).(mark := s'.mark)
    ensures RefsOk(s')
  {
    assert ActOk(s, t);
  }

  /** Dispatching the delete signal: it is the only one, no operation of this
      incarnation exists any more, and nothing else was captured with it. */
  lemma DestroyKeeps(s: State, s': State, t: Tid, e: Entry, onward: Act)
    requires Inv(s) && s.owner == Some(t) && t in s.acts && !s.acts[t].OwnDrop? && !s.acts[t].OwnTurn? && s.queued != [] && e == s.queued[0]
    requires s' == Dispatch(s, t, e, onward).(mark := s'.mark) && Delete in e.tags
    ensures Inv(s') && s.place == map[] && s.stage == Condemned(|s.ran|) && e.op == None
  {
    NextEntry(s);
    assert ActOk(s, t);
    assert Delete in s.log[|s.ran|].tags;
    NoOperation(s);
    assert s'.ran[|s'.ran| - 1] == e;
    ActsKept(s, s', t);
  }

  lemma OwnRunsKeep(s: State, s': State, t: Tid, a: Op)
    requires Inv(s) && OwnRuns(s, s', t, a)
    ensures Inv(s')
  {
    assert ActOk(s, t);
    DispatchKeeps(s, s', t, Entry(Some(a), {}), OwnLoad);
  }

  /** The queues are no part of what the combiner relies on. */
  lemma OwnFilesKeep(s: State, s': State, t: Tid)
    requires Inv(s) && t in s.acts
    requires s' == s.(files := s'.files)
    ensures Inv(s')
  {
    if !s.stage.Dead? { PileKept(s, s'); }
    forall u | u in s'.acts ensures ActOk(s', u) { FiledActOk(s, s', u); }
  }

  lemma FiledActOk(s: State, s': State, u: Tid)
    requires ActsOk(s) && u in s.acts && s' == s.(files := s'.files)
    ensures ActOk(s', u)
  {
    assert ActOk(s, u);
    if s.acts[u].OwnWalk? || s.acts[u].OwnTail? {
      forall i: nat | 0 < i < |s'.held| ensures HeldLink(s', i) { assert HeldLink(s, i); }
    } else if s.acts[u].OwnList? {
      forall i: nat | s'.mark <= i < |s'.held| ensures HeldUp(s', i) { assert HeldUp(s, i); }
    }
  }

  lemma OwnDropsKeep(s: State, s': State, t: Tid, a: Op)
    requires Inv(s) && OwnDrops(s, s', t, a)
    ensures Inv(s')
  {
    assert ActOk(s, t);
    PusherAlive(s, t, a);
    assert OfOp(a) in s.owned && |s'.owned| == |s.owned| - 1;
    PileKept(s, s');
    ActsKept(s, s', t);
  }

  lemma OwnTurnsRefs(s: State, s': State, t: Tid, n: nat, started: Option<Op>)
    requires Inv(s) && OwnTurns(s, s', t, n, started)
    ensures RefsOk(s') && s.stage.Alive?
  {
    assert ActOk(s, t);
    var back := s.owned - {InHand(t)} + {Handle(n)};
    assert |back| == |s.owned|;
    if started.Some? { assert OfOp(started.value) !in s.owned; }
  }

  lemma OwnTurnsKeep(s: State, s': State, t: Tid, n: nat, started: Option<Op>)
    requires Inv(s) && OwnTurns(s, s', t, n, started)
    ensures Inv(s')
  {
    assert ActOk(s, t);
    OwnTurnsRefs(s, s', t, n, started);
    NextEntry(s);
    forall i: nat | 0 < i < |s'.pile| ensures LinkOk(s', i) { assert LinkOk(s, i); }
    OwnTurnsActs(s, s', t, n, started);
  }

  lemma OwnTurnsActs(s: State, s': State, t: Tid, n: nat, started: Option<Op>)
    requires Inv(s) && OwnTurns(s, s', t, n, started)
    ensures ActsOk(s')
  {
    assert ActOk(s, t);
    ActsKept(s, s', t);
  }

  lemma OwnTailsKeep(s: State, s': State, t: Tid, tail: Word, reversed: Word)
    requires Inv(s) && OwnTails(s, s', t, tail, reversed)
    ensures Inv(s')
  {
    assert ActOk(s, t);
    TailTurns(s, s', t, tail, reversed);
    if tail == ZERO {
      QuietKeeps(s, s', t);
    } else if Delete in tail.tags {
      DestroyKeeps(s, s', t, Entry(None, tail.tags), OwnList(reversed));
    } else {
      DispatchKeeps(s, s', t, Entry(None, tail.tags), OwnList(reversed));
    }
  }

  /** The bottom entry is first, and the reversed operations follow it. */
  lemma TailTurns(s: State, s': State, t: Tid, tail: Word, reversed: Word)
    requires Inv(s) && OwnTails(s, s', t, tail, reversed)
    ensures tail != ZERO ==> s.queued[0] == Entry(None, tail.tags)
    ensures (tail == ZERO || Delete !in tail.tags) ==> ActOk(s', t)
  {
    assert ActOk(s, t);
    if tail == ZERO || Delete !in tail.tags { TailActs(s, s', t, tail, reversed); }
  }

  lemma TailActs(s: State, s': State, t: Tid, tail: Word, reversed: Word)
    requires ActOk(s, t) && OwnTails(s, s', t, tail, reversed) && (tail == ZERO || Delete !in tail.tags)
    ensures ActOk(s', t)
  {
    assert s.held[0].tags != {} ==> EntriesOf(s.held)[1..] == Tops(s.held, 1);
    TailList(s, s', t, tail, reversed);
  }

  lemma TailList(s: State, s': State, t: Tid, tail: Word, reversed: Word)
    requires ActOk(s, t) && OwnTails(s, s', t, tail, reversed) && (tail == ZERO || Delete !in tail.tags)
    ensures ListOk(s')
  {
    forall i: nat | 1 <= i < |s'.held| ensures HeldUp(s', i) {
      assert HeldLink(s, i);
    }
  }

  lemma OwnListsKeep(s: State, s': State, t: Tid, reversed: Word)
    requires Inv(s) && OwnLists(s, s', t, reversed)
    ensures Inv(s')
  {
    assert ActOk(s, t);
    if reversed == ZERO {
      assert s.mark < |s.held| ==> HeldUp(s, s.mark);
      assert Tops(s.held, |s.held|) == [];
      QuietKeeps(s, s', t);
    } else {
      assert HeldUp(s, s.mark);
      assert Tops(s.held, s.mark)[0] == EntryOf(reversed);
      if Delete in reversed.tags {
        DestroyKeeps(s, s', t, EntryOf(reversed), OwnList(s.next[reversed.node.op]));
      } else {
        ListTurns(s, s', t, reversed);
        DispatchKeeps(s, s', t, EntryOf(reversed), OwnList(s.next[reversed.node.op]));
      }
    }
  }

  lemma ListTurns(s: State, s': State, t: Tid, reversed: Word)
    requires Inv(s) && OwnLists(s, s', t, reversed) && reversed != ZERO && Delete !in reversed.tags
    ensures ActOk(s', t)
  {
    assert ActOk(s, t) && HeldUp(s, s.mark);
    assert Tops(s.held, s.mark)[1..] == Tops(s.held, s.mark + 1);
    forall i: nat | s'.mark <= i < |s'.held| ensures HeldUp(s', i) { assert HeldUp(s, i); }
  }

  // -------------------------------------------------------------- release, capture

  lemma OwnReleasesKeep(s: State, s': State, t: Tid)
    requires Inv(s) && OwnReleases(s, s', t)
    ensures Inv(s')
  {
    if s.head != STUB {
      OwnLooksKeep(s, s', t);
    } else {
      NothingWaits(s, t);
      ActsKept(s, s', t);
    }
  }

  /** Under a bare stub nothing is captured or waiting. */
  lemma NothingWaits(s: State, t: Tid)
    requires Inv(s) && Does(s, t, OwnRelease) && s.head == STUB
    ensures s.queued == [] && s.pile == [STUB] && s.log == s.ran && s.owner == Some(t) && EntriesOf([ZERO]) == []
  {
    assert ActOk(s, t);
    assert 1 < |s.pile| ==> LinkOk(s, |s.pile| - 1);
    assert EntriesOf([STUB]) == [] && EntriesOf([ZERO]) == [];
  }

  lemma CapturedChain(s: State, s': State, t: Tid, seen: Word)
    requires Inv(s) && OwnCaptures(s, s', t, seen) && s.head == seen
    ensures ActOk(s', t)
  {
    assert ActOk(s, t);
    forall i: nat | 0 < i < |s'.held| ensures HeldLink(s', i) { assert LinkOk(s, i); }
  }

  lemma OwnCapturesKeep(s: State, s': State, t: Tid, seen: Word)
    requires Inv(s) && OwnCaptures(s, s', t, seen)
    ensures Inv(s')
  {
    assert ActOk(s, t);
    if s.head != seen {
      OwnLooksKeep(s, s', t);
    } else {
      CapturedLog(s, s', t, seen);
      CapturedActs(s, s', t, seen);
    }
  }

  lemma CapturedLog(s: State, s': State, t: Tid, seen: Word)
    requires Inv(s) && OwnCaptures(s, s', t, seen) && s.head == seen
    ensures LogOk(s')
  {
    assert ActOk(s, t);
    assert EntriesOf([STUB]) == [];
    assert s'.queued + EntriesOf(s'.pile) == EntriesOf(s.pile);
  }

  lemma CapturedActs(s: State, s': State, t: Tid, seen: Word)
    requires Inv(s) && OwnCaptures(s, s', t, seen) && s.head == seen
    ensures ActsOk(s')
  {
    assert ActOk(s, t);
    CapturedChain(s, s', t, seen);
    ActsKept(s, s', t);
  }

  /** One node of the walk: its link turns from down to up. */
  lemma WalkTurns(s: State, s': State, t: Tid, current: Word, reversed: Word)
    requires Inv(s) && OwnWalks(s, s', t, current, reversed) && current.node.At?
    ensures ActOk(s', t) && s.mark > 0 && HeldLink(s, s.mark)
  {
    assert ActOk(s, t);
    assert s.mark > 0 ==> HeldLink(s, s.mark);
    forall i: nat | 0 < i < |s'.held| ensures HeldLink(s', i) { assert HeldLink(s, i); }
  }

  lemma WalkActs(s: State, s': State, t: Tid, current: Word, reversed: Word)
    requires Inv(s) && OwnWalks(s, s', t, current, reversed) && current.node.At?
    ensures ActsOk(s') && s.mark > 0 && HeldLink(s, s.mark)
  {
    assert ActOk(s, t);
    WalkTurns(s, s', t, current, reversed);
    ActsKept(s, s', t);
  }

  lemma OwnWalksKeep(s: State, s': State, t: Tid, current: Word, reversed: Word)
    requires Inv(s) && OwnWalks(s, s', t, current, reversed)
    ensures Inv(s')
  {
    assert ActOk(s, t);
    if current.node.At? {
      WalkActs(s, s', t, current, reversed);
      PileKept(s, s');
    } else {
      WalkEnds(s, s', t, current, reversed);
      QuietKeeps(s, s', t);
    }
  }

  lemma WalkEnds(s: State, s': State, t: Tid, current: Word, reversed: Word)
    requires Inv(s) && OwnWalks(s, s', t, current, reversed) && !current.node.At?
    ensures ActOk(s', t)
  {
    assert ActOk(s, t);
    assert s.mark > 0 ==> HeldLink(s, s.mark);
    forall i: nat | 0 < i < |s'.held| ensures HeldLink(s', i) { assert HeldLink(s, i); }
  }

  // ---------------------------------------------------------------------- any step

  lemma ReinitKeeps(s: State, s': State)
    requires Inv(s) && Reinit(s, s')
    ensures Inv(s')
  {
    assert s.place == map[] by { assert forall a :: a in s.place ==> OfOp(a) in s.owned; }
    assert EntriesOf([ZERO]) == [];
    forall u | u in s'.acts ensures ActOk(s', u) { assert ActOk(s, u); }
  }

  lemma PushMovesKeep(s: State, s': State, t: Tid, a: Op, n: nat, tags: set<Tag>, seen: Word)
    requires Inv(s) && PushMoves(s, s', t, a, n, tags, seen)
    ensures Inv(s')
  {
    if InitOp(s, s', t, a) { InitOpKeeps(s, s', t, a); }
    else if PushLoads(s, s', t, a) { PushLoadsKeep(s, s', t, a); }
    else if PushStacks(s, s', t, a, seen) { PushStacksKeep(s, s', t, a, seen); }
    else if PushOwns(s, s', t, a, seen) { PushOwnsKeep(s, s', t, a, seen); }
    else if Acquire(s, s', t, n) { AcquireKeeps(s, s', t, n); }
    else if AcquireHolding(s, s', t, a, n, seen) { AcquireHoldingKeeps(s, s', t, a, n, seen); }
    else if PushTags(s, s', t, tags) { OrKeeps(s, s', t, tags); }
    else if CheckedSwaps(s, s', t, n, tags, seen) {
      assert ActOk(s, t);
      if s.head == seen && s.generation == n { OrKeeps(s, s', t, tags); } else { CheckedFailKeeps(s, s', t, n, tags, seen); }
    }
    else { PushLooksKeep(s, s', t, a, n, tags, seen); }
  }

  lemma RefMovesKeep(s: State, s': State, t: Tid, a: Op, n: nat)
    requires Inv(s) && RefMoves(s, s', t, a, n)
    ensures Inv(s')
  {
    if Retain(s, s', t, n) { RetainKeeps(s, s', t, n); }
    else if DropHandle(s, s', t, n) { DropHandleKeeps(s, s', t, n); }
    else if FinishOp(s, s', t, a) { FinishOpKeeps(s, s', t, a); }
    else if Unrefs(s, s', t) { UnrefsKeep(s, s', t); }
    else { PushDeletesKeep(s, s', t); }
  }

  lemma OwnMovesKeep(s: State, s': State, t: Tid, a: Op, n: nat, started: Option<Op>, w: Word, r: Word)
    requires Inv(s) && OwnMoves(s, s', t, a, n, started, w, r)
    ensures Inv(s')
  {
    if OwnRuns(s, s', t, a) { OwnRunsKeep(s, s', t, a); }
    else if OwnFiles(s, s', t, a) || OwnUnfiles(s, s', t, a) { OwnFilesKeep(s, s', t); }
    else if OwnDrops(s, s', t, a) { OwnDropsKeep(s, s', t, a); }
    else if OwnTurns(s, s', t, n, started) { OwnTurnsKeep(s, s', t, n, started); }
    else if OwnLoads(s, s', t) { OwnLooksKeep(s, s', t); }
    else if OwnReleases(s, s', t) { OwnReleasesKeep(s, s', t); }
    else if OwnCaptures(s, s', t, w) { OwnCapturesKeep(s, s', t, w); }
    else if OwnWalks(s, s', t, w, r) { OwnWalksKeep(s, s', t, w, r); }
    else if OwnTails(s, s', t, w, r) { OwnTailsKeep(s, s', t, w, r); }
    else { OwnListsKeep(s, s', t, r); }
  }

  lemma MovesKeep(s: State, s': State, t: Tid)
    requires Inv(s) && Moves(s, s', t)
    ensures Inv(s')
  {
    if a: Op, n: nat, tags: set<Tag>, seen: Word :| PushMoves(s, s', t, a, n, tags, seen) {
      PushMovesKeep(s, s', t, a, n, tags, seen);
    } else if a: Op, n: nat :| RefMoves(s, s', t, a, n) {
      RefMovesKeep(s, s', t, a, n);
    } else {
      var a: Op, n: nat, started: Option<Op>, w: Word, r: Word :| OwnMoves(s, s', t, a, n, started, w, r);
      OwnMovesKeep(s, s', t, a, n, started, w, r);
    }
  }

  lemma NextKeeps(s: State, s': State)
    requires Inv(s) && Next(s, s')
    ensures Inv(s')
  {
    if Reinit(s, s') {
      ReinitKeeps(s, s');
    } else {
      var t: Tid :| Moves(s, s', t);
      MovesKeep(s, s', t);
    }
  }
}
