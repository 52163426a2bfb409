/** One object's combiner: a single word that is at once the object's lock and its
    mailbox.  Zero means unowned.  Otherwise it points at the newest waiting
    operation, or at a stub, with signal bits in its low part.  Whoever turns it
    from zero owns the object and must dispatch everything that arrives until it
    can turn the word back to zero.

    One atomic access is one step, including the owner's walk over a captured
    chain, and any number of threads push.  Words are compared by value, so an
    operation's storage may be recycled and pushed again between a load and the
    compare-and-swap that follows.

    Auxiliary state, never read by a step's decisions: the words of the waiting and
    of the captured chain, oldest first, and how far the owner is in the latter;
    where each operation is; who holds a
    reference; the log of everything pushed and of everything dispatched. */
module CombinerMachine {
  import opened Wrappers

  type Tid = nat
  type Op = nat

  datatype Tag = ProgressRead | ProgressWrite | Error | Cancel | Delete | CancelIo

  datatype Node = Null | Stub | At(op: Op)

  datatype Word = Word(node: Node, tags: set<Tag>)

  const ZERO := Word(Null, {})
  const STUB := Word(Stub, {})

  /** A unit of dispatch: an operation, a caller's own turn, or bare signals. */
  datatype Entry = Entry(op: Option<Op>, tags: set<Tag>)

  /** A counted reference to the object. */
  datatype Ref = Handle(n: nat) | OfOp(op: Op) | InHand(t: Tid)

  /** Where an initialised operation is. */
  datatype Where = With(t: Tid) | Waiting(i: nat) | Captured(i: nat) | Started

  datatype Stage = Alive | Dying(t: Tid) | Condemned(at: nat) | Dead

  datatype Act =
    | Idle
    | PushLoad(op: Op)
    | PushSwap(op: Op, seen: Word)
    | CheckedLoad(generation: nat, tags: set<Tag>)
    | CheckedSwap(generation: nat, tags: set<Tag>, seen: Word)
    | Unref
    | PushDelete
    | OwnDrop(op: Op)
    | OwnTurn
    | OwnRun(op: Op)
    | OwnLoad
    | OwnRelease
    | OwnCapture(seen: Word)
    | OwnWalk(current: Word, reversed: Word)
    | OwnTail(tail: Word, reversed: Word)
    | OwnList(reversed: Word)

  predicate Owns(a: Act) {
    a.OwnDrop? || a.OwnTurn? || a.OwnRun? || a.OwnLoad? || a.OwnRelease? || a.OwnCapture? || a.OwnWalk? || a.OwnTail? || a.OwnList?
  }

  /** Where the object keeps its started operations. */
  datatype Files = Files(readQueue: seq<Op>, writeQueue: seq<Op>, initialization: Option<Op>)

  const EMPTY := Files([], [], None)

  datatype State = State(
    head: Word, generation: nat, refs: nat, next: map<Op, Word>, acts: map<Tid, Act>,
    files: Files,
    pile: seq<Word>, held: seq<Word>, mark: nat, queued: seq<Entry>, place: map<Op, Where>, owned: set<Ref>, owner: Option<Tid>,
    log: seq<Entry>, ran: seq<Entry>, stage: Stage)

  // ------------------------------------------------------------- what a pile says

  function EntryOf(w: Word): Entry {
    Entry(if w.node.At? then Some(w.node.op) else None, w.tags)
  }

  /** The bottom word is a stub or a null pointer: it stands for an entry only if
      it carries signals. */
  function Bottom(w: Word): seq<Entry> {
    if w.tags == {} then [] else [EntryOf(w)]
  }

  /** Entries of the operations from position `k` up. */
  function Tops(pile: seq<Word>, k: nat): seq<Entry>
    requires k <= |pile|
  {
    seq(|pile| - k, i requires 0 <= i < |pile| - k => EntryOf(pile[k + i]))
  }

  function EntriesOf(pile: seq<Word>): seq<Entry>
    requires pile != []
  {
    Bottom(pile[0]) + Tops(pile, 1)
  }

  // ---------------------------------------------------------------------- pushes

  function SetAct(s: State, t: Tid, a: Act): State { s.(acts := s.acts[t := a]) }

  predicate Does(s: State, t: Tid, a: Act) { t in s.acts && s.acts[t] == a }

  /** Signals ride the newest entry that is still waiting; if there is none they
      become an entry of their own. */
  function Ride(log: seq<Entry>, head: Word, tags: set<Tag>): seq<Entry> {
    if (head.node.At? || head.tags != {}) && log != [] then
      log[|log| - 1 := log[|log| - 1].(tags := log[|log| - 1].tags + tags)]
    else
      log + [Entry(None, tags)]
  }

  /** The fetch-or: whoever turns the word from zero becomes the owner. */
  function OrTags(s: State, t: Tid, tags: set<Tag>): State
    requires s.pile != []
  {
    var word := s.head.(tags := s.head.tags + tags);
    SetAct(s, t, if s.head == ZERO then OwnLoad else Idle).(
      head := word, pile := s.pile[|s.pile| - 1 := word], log := Ride(s.log, s.head, tags),
      owner := if s.head == ZERO then Some(t) else s.owner)
  }

  /** A new operation takes its reference while another one keeps the object. */
  ghost predicate InitOp(s: State, s': State, t: Tid, a: Op) {
    && Does(s, t, Idle) && s.owned != {} && a !in s.place
    && s' == SetAct(s, t, PushLoad(a)).(refs := s.refs + 1, owned := s.owned + {OfOp(a)}, place := s.place[a := With(t)])
  }

  ghost predicate PushLoads(s: State, s': State, t: Tid, a: Op) {
    && Does(s, t, PushLoad(a))
    && s' == SetAct(s, t, PushSwap(a, s.head)).(next := if s.head == ZERO then s.next else s.next[a := s.head])
  }

  /** Onto an owned object: the operation waits on top. */
  ghost predicate PushStacks(s: State, s': State, t: Tid, a: Op, seen: Word) {
    && Does(s, t, PushSwap(a, seen)) && s.head == seen && seen != ZERO
    && s' == SetAct(s, t, Idle).(
         head := Word(At(a), {}), pile := s.pile + [Word(At(a), {})], place := s.place[a := Waiting(|s.pile|)],
         log := s.log + [Entry(Some(a), {})])
  }

  /** Onto an unowned object: the pusher becomes the owner and runs it directly. */
  ghost predicate PushOwns(s: State, s': State, t: Tid, a: Op, seen: Word) {
    && Does(s, t, PushSwap(a, seen)) && s.head == seen && seen == ZERO
    && s' == SetAct(s, t, OwnRun(a)).(
         head := STUB, pile := [STUB], owner := Some(t), queued := [Entry(Some(a), {})], log := s.log + [Entry(Some(a), {})])
  }

  ghost predicate PushRetries(s: State, s': State, t: Tid, a: Op, seen: Word) {
    Does(s, t, PushSwap(a, seen)) && s.head != seen && s' == SetAct(s, t, PushLoad(a))
  }

  /** A call that finds the object unowned takes it and runs in the caller's turn. */
  ghost predicate Acquire(s: State, s': State, t: Tid, n: nat) {
    && Does(s, t, Idle) && Handle(n) in s.owned && InHand(t) !in s.owned && s.head == ZERO
    && s' == SetAct(s, t, OwnTurn).(
         head := STUB, pile := [STUB], owner := Some(t), queued := [Entry(None, {})], log := s.log + [Entry(None, {})],
         owned := s.owned - {Handle(n)} + {InHand(t)})
  }

  /** Such a call may have prepared an operation against an earlier look at the word; it
      takes the object in the caller's turn all the same and drops the operation. */
  ghost predicate AcquireHolding(s: State, s': State, t: Tid, a: Op, n: nat, seen: Word) {
    && Does(s, t, PushSwap(a, seen)) && s.head == seen && seen == ZERO && Handle(n) in s.owned && InHand(t) !in s.owned
    && s' == SetAct(s, t, OwnDrop(a)).(
         head := STUB, pile := [STUB], owner := Some(t), queued := [Entry(None, {})], log := s.log + [Entry(None, {})],
         owned := s.owned - {Handle(n)} + {InHand(t)})
  }

  ghost predicate PushTags(s: State, s': State, t: Tid, tags: set<Tag>) {
    && Does(s, t, Idle) && s.owned != {} && s.pile != [] && tags != {} && Delete !in tags
    && s' == OrTags(s, t, tags)
  }

  /** A signal from a source that holds no reference names the generation it was
      armed for, which the swap validates together with the word. */
  ghost predicate CheckedBegin(s: State, s': State, t: Tid, g: nat, tags: set<Tag>) {
    && Does(s, t, Idle) && tags != {} && Delete !in tags
    && (g < s.generation || (g == s.generation && !s.stage.Dead?))
    && s' == SetAct(s, t, CheckedLoad(g, tags))
  }

  ghost predicate CheckedLoads(s: State, s': State, t: Tid, g: nat, tags: set<Tag>) {
    Does(s, t, CheckedLoad(g, tags)) && s' == SetAct(s, t, CheckedSwap(g, tags, s.head))
  }

  ghost predicate CheckedSwaps(s: State, s': State, t: Tid, g: nat, tags: set<Tag>, seen: Word) {
    && Does(s, t, CheckedSwap(g, tags, seen)) && s.pile != []
    && s' == if s.head == seen && s.generation == g then OrTags(s, t, tags)
             else SetAct(s, t, if s.generation != g then Idle else CheckedSwap(g, tags, s.head))
  }

  // ------------------------------------------------------------------- references

  ghost predicate Retain(s: State, s': State, t: Tid, n: nat) {
    && Does(s, t, Idle) && s.owned != {} && Handle(n) !in s.owned
    && s' == s.(refs := s.refs + 1, owned := s.owned + {Handle(n)})
  }

  ghost predicate DropHandle(s: State, s': State, t: Tid, n: nat) {
    && Does(s, t, Idle) && Handle(n) in s.owned && InHand(t) !in s.owned
    && s' == SetAct(s, t, Unref).(owned := s.owned - {Handle(n)} + {InHand(t)})
  }

  /** The operation is in one of the object's queues or in its initialization slot. */
  predicate Filed(f: Files, a: Op) { a in f.readQueue || a in f.writeQueue || f.initialization == Some(a) }

  /** A started operation that was released is over: its storage is free before its
      reference goes. */
  ghost predicate FinishOp(s: State, s': State, t: Tid, a: Op) {
    && Does(s, t, Idle) && a in s.place && s.place[a] == Started && !Filed(s.files, a) && InHand(t) !in s.owned
    && s' == SetAct(s, t, Unref).(owned := s.owned - {OfOp(a)} + {InHand(t)}, place := s.place - {a})
  }

  ghost predicate Unrefs(s: State, s': State, t: Tid) {
    && Does(s, t, Unref) && s.refs > 0
    && s' == SetAct(s, t, if s.refs == 1 then PushDelete else Idle).(
         refs := s.refs - 1, owned := s.owned - {InHand(t)}, stage := if s.refs == 1 then Dying(t) else s.stage)
  }

  ghost predicate PushDeletes(s: State, s': State, t: Tid) {
    && Does(s, t, PushDelete) && s.pile != []
    && s' == OrTags(s, t, {Delete}).(stage := Condemned(|Ride(s.log, s.head, {Delete})| - 1))
  }

  // ----------------------------------------------------------------------- owner

  /** Dispatching an entry: the delete signal destroys the object and ends the
      drain, anything else runs and the drain goes on. */
  function Dispatch(s: State, t: Tid, e: Entry, onward: Act): State
    requires s.queued != []
  {
    var after := s.(
      ran := s.ran + [e], queued := s.queued[1..],
      place := if e.op.Some? then s.place[e.op.value := Started] else s.place);
    if Delete in e.tags then
      SetAct(after, t, Idle).(generation := s.generation + 1, stage := Dead, owner := None)
    else
      SetAct(after, t, onward)
  }

  ghost predicate OwnRuns(s: State, s': State, t: Tid, a: Op) {
    Does(s, t, OwnRun(a)) && s.queued != [] && s' == Dispatch(s, t, Entry(Some(a), {}), OwnLoad)
  }

  /** A handler of the owner puts a started operation into a queue or into the empty
      slot. */
  ghost predicate OwnFiles(s: State, s': State, t: Tid, a: Op) {
    && t in s.acts && Owns(s.acts[t]) && a in s.place && s.place[a] == Started && !Filed(s.files, a)
    && s' == s.(files := s'.files)
    && (|| s'.files == s.files.(readQueue := s.files.readQueue + [a])
        || s'.files == s.files.(writeQueue := s.files.writeQueue + [a])
        || (s.files.initialization == None && s'.files == s.files.(initialization := Some(a))))
  }

  function Without(ops: seq<Op>, a: Op): (r: seq<Op>)
    ensures forall x :: x in r <==> x in ops && x != a
  {
    if ops == [] then [] else (if ops[0] == a then [] else [ops[0]]) + Without(ops[1..], a)
  }

  /** A release takes it out again. */
  ghost predicate OwnUnfiles(s: State, s': State, t: Tid, a: Op) {
    && t in s.acts && Owns(s.acts[t]) && Filed(s.files, a)
    && s' == s.(files := Files(Without(s.files.readQueue, a), Without(s.files.writeQueue, a),
                               if s.files.initialization == Some(a) then None else s.files.initialization))
  }

  /** The caller's own reference is still there: this one is not the last. */
  ghost predicate OwnDrops(s: State, s': State, t: Tid, a: Op) {
    && Does(s, t, OwnDrop(a)) && 1 < s.refs
    && s' == SetAct(s, t, OwnTurn).(refs := s.refs - 1, owned := s.owned - {OfOp(a)}, place := s.place - {a})
  }

  /** The caller's turn, in which it may start an operation of its own. */
  ghost predicate OwnTurns(s: State, s': State, t: Tid, n: nat, started: Option<Op>) {
    && Does(s, t, OwnTurn) && s.queued != [] && InHand(t) in s.owned && Handle(n) !in s.owned
    && (started.Some? ==> started.value !in s.place)
    && var after := Dispatch(s, t, Entry(None, {}), OwnLoad);
    && s' == after.(
         refs := s.refs + if started.Some? then 1 else 0,
         place := if started.Some? then s.place[started.value := Started] else s.place,
         owned := s.owned - {InHand(t)} + {Handle(n)} + if started.Some? then {OfOp(started.value)} else {})
  }

  ghost predicate OwnLoads(s: State, s': State, t: Tid) {
    Does(s, t, OwnLoad) && s' == SetAct(s, t, if s.head == STUB then OwnRelease else OwnCapture(s.head))
  }

  ghost predicate OwnReleases(s: State, s': State, t: Tid) {
    && Does(s, t, OwnRelease)
    && s' == if s.head == STUB then SetAct(s, t, Idle).(head := ZERO, pile := [ZERO], owner := None)
             else SetAct(s, t, OwnLoad)
  }

  function Capture(place: map<Op, Where>): map<Op, Where> {
    map a | a in place :: if place[a].Waiting? then Captured(place[a].i) else place[a]
  }

  ghost predicate OwnCaptures(s: State, s': State, t: Tid, seen: Word) {
    && Does(s, t, OwnCapture(seen)) && s.pile != []
    && s' == if s.head == seen
             then SetAct(s, t, OwnWalk(seen, ZERO)).(
                    head := STUB, pile := [STUB], held := s.pile, mark := |s.pile| - 1, queued := EntriesOf(s.pile), place := Capture(s.place))
             else SetAct(s, t, OwnCapture(s.head))
  }

  function Down(mark: nat): nat { if mark > 0 then mark - 1 else 0 }

  /** Reverse the captured chain one node at a time; a node without a pointer is
      its oldest entry. */
  ghost predicate OwnWalks(s: State, s': State, t: Tid, current: Word, reversed: Word) {
    && Does(s, t, OwnWalk(current, reversed))
    && if current == ZERO || current == STUB then s' == SetAct(s, t, OwnTail(ZERO, reversed))
       else if !current.node.At? then s' == SetAct(s, t, OwnTail(current, reversed))
       else
         && current.node.op in s.next
         && s' == SetAct(s, t, OwnWalk(s.next[current.node.op], current)).(
                    next := s.next[current.node.op := reversed], mark := Down(s.mark))
  }

  ghost predicate OwnTails(s: State, s': State, t: Tid, tail: Word, reversed: Word) {
    && Does(s, t, OwnTail(tail, reversed))
    && if tail == ZERO then s' == SetAct(s, t, OwnList(reversed)).(mark := 1)
       else s.queued != [] && s' == Dispatch(s, t, Entry(None, tail.tags), OwnList(reversed)).(mark := 1)
  }

  ghost predicate OwnLists(s: State, s': State, t: Tid, reversed: Word) {
    && Does(s, t, OwnList(reversed))
    && if reversed == ZERO then s' == SetAct(s, t, OwnLoad)
       else
         && reversed.node.At? && reversed.node.op in s.next && s.queued != []
         && s' == Dispatch(s, t, EntryOf(reversed), OwnList(s.next[reversed.node.op])).(mark := s.mark + 1)
  }

  // ------------------------------------------------------------------------ runs

  /** The destroyed object's storage becomes a new object. */
  ghost predicate Reinit(s: State, s': State) {
    && s.stage.Dead?
    && s' == s.(head := ZERO, refs := 1, pile := [ZERO], held := [], queued := [], owned := {Handle(0)},
                files := EMPTY,
                log := [], ran := [], stage := Alive)
  }

  ghost predicate PushMoves(s: State, s': State, t: Tid, a: Op, n: nat, tags: set<Tag>, seen: Word) {
    || InitOp(s, s', t, a)
    || PushLoads(s, s', t, a)
    || PushStacks(s, s', t, a, seen)
    || PushOwns(s, s', t, a, seen)
    || PushRetries(s, s', t, a, seen)
    || Acquire(s, s', t, n)
    || AcquireHolding(s, s', t, a, n, seen)
    || PushTags(s, s', t, tags)
    || CheckedBegin(s, s', t, n, tags)
    || CheckedLoads(s, s', t, n, tags)
    || CheckedSwaps(s, s', t, n, tags, seen)
  }

  ghost predicate RefMoves(s: State, s': State, t: Tid, a: Op, n: nat) {
    || Retain(s, s', t, n)
    || DropHandle(s, s', t, n)
    || FinishOp(s, s', t, a)
    || Unrefs(s, s', t)
    || PushDeletes(s, s', t)
  }

  ghost predicate OwnMoves(s: State, s': State, t: Tid, a: Op, n: nat, started: Option<Op>, w: Word, r: Word) {
    || OwnRuns(s, s', t, a)
    || OwnFiles(s, s', t, a)
    || OwnUnfiles(s, s', t, a)
    || OwnDrops(s, s', t, a)
    || OwnTurns(s, s', t, n, started)
    || OwnLoads(s, s', t)
    || OwnReleases(s, s', t)
    || OwnCaptures(s, s', t, w)
    || OwnWalks(s, s', t, w, r)
    || OwnTails(s, s', t, w, r)
    || OwnLists(s, s', t, r)
  }

  ghost predicate Moves(s: State, s': State, t: Tid) {
    || (exists a: Op, n: nat, tags: set<Tag>, seen: Word :: PushMoves(s, s', t, a, n, tags, seen))
    || (exists a: Op, n: nat :: RefMoves(s, s', t, a, n))
    || (exists a: Op, n: nat, started: Option<Op>, w: Word, r: Word :: OwnMoves(s, s', t, a, n, started, w, r))
  }

  ghost predicate Next(s: State, s': State) {
    Reinit(s, s') || exists t: Tid :: Moves(s, s', t)
  }

  ghost predicate Init(s: State) {
    && s.head == ZERO && s.refs == 1 && s.pile == [ZERO] && s.held == [] && s.queued == []
    && s.files == EMPTY
    && s.place == map[] && s.owned == {Handle(0)} && s.owner == None && s.log == [] && s.ran == [] && s.stage == Alive
    && forall t :: t in s.acts ==> s.acts[t] == Idle
  }

  ghost predicate StepAt(run: seq<State>, i: nat)
    requires i + 1 < |run|
  {
    Next(run[i], run[i + 1])
  }

  ghost predicate Run(run: seq<State>) {
    run != [] && Init(run[0]) && forall i: nat {:trigger StepAt(run, i)} :: i + 1 < |run| ==> StepAt(run, i)
  }
}
