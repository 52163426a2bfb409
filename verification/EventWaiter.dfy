/** A callback-less user event: permits, the coroutine that waits for one, and the
    deletion that must wake it.  Three words take part: the waiter word (credits, a
    waiting coroutine, or the terminal mark, with a sequence number), the signal
    count behind the event's doorbell, and the tag with its delete and
    waiter-committed bits.

    One atomic access is one step; a 128-bit load is two, low half first.  Callers
    wait with one coroutine at a time and delete once.

    Auxiliary state, never read by a step's decisions: the books on permits, the
    waits begun so far and the waits woken, which thread is the waiting one, and the
    manual activations posted and granted as permits. */
module EventWaiter {
  import opened Wrappers

  type Tid = nat

  datatype Low = Credits(n: nat) | Waiter(id: nat) | Deleted

  datatype Word = Word(low: Low, sequence: nat)

  datatype Act =
    | Idle
    | ActivateRing
    | ReadyTake
    | ReadyLook(n: nat)
    | CancelClear
    | ResumeLow(n: nat, manual: bool)
    | ResumeHigh(n: nat, manual: bool, low: Low)
    | ResumeSwap(n: nat, manual: bool, seen: Word)
    | CancelLow
    | CancelHigh(low: Low)
    | CancelSwap(seen: Word)
    | InstallLow
    | InstallHigh(low: Low)
    | InstallSwap(seen: Word)
    | InstallCommit(id: nat)
    | InstallPost(id: nat)
    | InstallRing(id: nat)
    | Yielded(id: nat)
    | DeletePost
    | DeleteRing

  datatype State = State(
    semaphore: bool, word: Word, signal: nat, bell: bool, committed: bool, deleting: bool, acts: map<Tid, Act>,
    accepted: nat, resumes: nat, consumed: nat, lost: nat, waits: nat, woken: seq<nat>, waiter: Option<Tid>,
    posted: nat, granted: nat)

  function SetAct(s: State, t: Tid, a: Act): State { s.(acts := s.acts[t := a]) }

  predicate Does(s: State, t: Tid, a: Act) { t in s.acts && s.acts[t] == a }

  // ----------------------------------------------------------------------- signals

  /** A manual activation: a semaphore counts, a plain event coalesces.  The one that
      finds no signal pending rings the bell.  Its look at the delete bit may be long
      ago, so it can also come after the delete. */
  ghost predicate Activates(s: State, s': State, t: Tid) {
    && Does(s, t, Idle)
    && s' == SetAct(s, t, if s.signal == 0 then ActivateRing else Idle).(
         signal := if s.semaphore then s.signal + 1 else 1, posted := s.posted + 1)
  }

  ghost predicate ActivateRings(s: State, s': State, t: Tid) {
    Does(s, t, ActivateRing) && s' == SetAct(s, t, Idle).(bell := true)
  }

  /** A loop thread answers the bell. */
  ghost predicate Readies(s: State, s': State, t: Tid) {
    Does(s, t, Idle) && s.bell && s' == SetAct(s, t, ReadyTake).(bell := false)
  }

  ghost predicate ReadyTakes(s: State, s': State, t: Tid) {
    && Does(s, t, ReadyTake)
    && s' == SetAct(s, t, if s.signal == 0 then Idle else ReadyLook(s.signal)).(signal := 0)
  }

  /** What was taken becomes permits, or the cancellation if the event is deleted by
      now: a deletion can come between the two accesses. */
  ghost predicate ReadyLooks(s: State, s': State, t: Tid, n: nat) {
    Does(s, t, ReadyLook(n)) && s' == SetAct(s, t, if s.deleting then CancelClear else ResumeLow(n, true))
  }

  /** The cancellation wipes the signals that came since. */
  ghost predicate CancelClears(s: State, s': State, t: Tid) {
    Does(s, t, CancelClear) && s' == SetAct(s, t, CancelLow).(signal := 0)
  }

  // ------------------------------------------------------------------------ resume

  /** Ticks of the event's timer come in here. */
  ghost predicate TimerResumes(s: State, s': State, t: Tid, n: nat) {
    Does(s, t, Idle) && 0 < n && s' == SetAct(s, t, ResumeLow(n, false))
  }

  ghost predicate ResumeLoadLow(s: State, s': State, t: Tid, n: nat, manual: bool) {
    Does(s, t, ResumeLow(n, manual)) && s' == SetAct(s, t, ResumeHigh(n, manual, s.word.low))
  }

  ghost predicate ResumeLoadHigh(s: State, s': State, t: Tid, n: nat, manual: bool, low: Low) {
    && Does(s, t, ResumeHigh(n, manual, low))
    && s' == SetAct(s, t, if low.Deleted? then Idle else ResumeSwap(n, manual, Word(low, s.word.sequence)))
  }

  /** A tick of a superseded schedule gives up; a manual wake never does. */
  ghost predicate ResumeQuits(s: State, s': State, t: Tid, n: nat, seen: Word) {
    Does(s, t, ResumeSwap(n, false, seen)) && s' == SetAct(s, t, Idle)
  }

  ghost predicate ResumeMisses(s: State, s': State, t: Tid, n: nat, manual: bool, seen: Word) {
    && Does(s, t, ResumeSwap(n, manual, seen)) && s.word != seen
    && s' == SetAct(s, t, if s.word.low.Deleted? then Idle else ResumeSwap(n, manual, s.word))
  }

  /** The permits are banked, or the first of them wakes the waiter. */
  ghost predicate ResumeSwaps(s: State, s': State, t: Tid, n: nat, manual: bool, seen: Word) {
    && Does(s, t, ResumeSwap(n, manual, seen)) && s.word == seen && 0 < n && !seen.low.Deleted?
    && var idle := SetAct(s, t, Idle).(accepted := s.accepted + n, granted := if manual then s.granted + n else s.granted);
       s' == if seen.low.Waiter? then
               idle.(word := Word(Credits(n - 1), seen.sequence + 1), resumes := s.resumes + 1, woken := s.woken + [seen.low.id])
             else idle.(word := Word(Credits(seen.low.n + n), seen.sequence + 1))
  }

  // ------------------------------------------------------------------------ cancel

  ghost predicate CancelLoadLow(s: State, s': State, t: Tid) {
    Does(s, t, CancelLow) && s' == SetAct(s, t, CancelHigh(s.word.low))
  }

  ghost predicate CancelLoadHigh(s: State, s': State, t: Tid, low: Low) {
    && Does(s, t, CancelHigh(low))
    && s' == SetAct(s, t, if low.Deleted? then Idle else CancelSwap(Word(low, s.word.sequence)))
  }

  ghost predicate CancelSwaps(s: State, s': State, t: Tid, seen: Word) {
    && Does(s, t, CancelSwap(seen)) && !seen.low.Deleted?
    && if s.word != seen then s' == SetAct(s, t, if s.word.low.Deleted? then Idle else CancelSwap(s.word))
       else
         s' == SetAct(s, t, Idle).(
           word := Word(Deleted, seen.sequence + 1),
           lost := if seen.low.Credits? then seen.low.n else 0,
           woken := if seen.low.Waiter? then s.woken + [seen.low.id] else s.woken)
  }

  // --------------------------------------------------------------------------- wait

  ghost predicate InstallBegin(s: State, s': State, t: Tid) {
    Does(s, t, Idle) && s.waiter == None && s' == SetAct(s, t, InstallLow).(waiter := Some(t))
  }

  ghost predicate InstallLoadLow(s: State, s': State, t: Tid) {
    Does(s, t, InstallLow) && s' == SetAct(s, t, InstallHigh(s.word.low))
  }

  ghost predicate InstallLoadHigh(s: State, s': State, t: Tid, low: Low) {
    && Does(s, t, InstallHigh(low))
    && s' == if low.Deleted? then SetAct(s, t, Idle).(waiter := None)
             else SetAct(s, t, InstallSwap(Word(low, s.word.sequence)))
  }

  /** Take a banked permit, or park in the word when there is none. */
  ghost predicate InstallSwaps(s: State, s': State, t: Tid, seen: Word) {
    && Does(s, t, InstallSwap(seen)) && seen.low.Credits?
    && if s.word != seen then
         s' == if s.word.low.Deleted? then SetAct(s, t, Idle).(waiter := None) else SetAct(s, t, InstallSwap(s.word))
       else if seen.low.n == 0 then
         s' == SetAct(s, t, InstallCommit(s.waits)).(word := Word(Waiter(s.waits), seen.sequence + 1), waits := s.waits + 1)
       else
         s' == SetAct(s, t, Idle).(
           word := Word(Credits(seen.low.n - 1), seen.sequence + 1), consumed := s.consumed + 1, waiter := None)
  }

  /** The rendezvous with deletion: the second of the two to write the tag sees the
      other's bit and posts the cancellation. */
  ghost predicate InstallCommits(s: State, s': State, t: Tid, id: nat) {
    && Does(s, t, InstallCommit(id))
    && s' == SetAct(s, t, if s.deleting then InstallPost(id) else Yielded(id)).(committed := true)
  }

  ghost predicate InstallPosts(s: State, s': State, t: Tid, id: nat) {
    Does(s, t, InstallPost(id)) && s' == SetAct(s, t, InstallRing(id)).(signal := 1)
  }

  ghost predicate InstallRings(s: State, s': State, t: Tid, id: nat) {
    Does(s, t, InstallRing(id)) && s' == SetAct(s, t, Yielded(id)).(bell := true)
  }

  /** Woken: the wait is over and its commit bit goes. */
  ghost predicate Finishes(s: State, s': State, t: Tid, id: nat) {
    Does(s, t, Yielded(id)) && id in s.woken && s' == SetAct(s, t, Idle).(committed := false, waiter := None)
  }

  // ------------------------------------------------------------------------- delete

  ghost predicate Deletes(s: State, s': State, t: Tid) {
    && Does(s, t, Idle) && !s.deleting
    && s' == SetAct(s, t, if s.committed then DeletePost else Idle).(deleting := true)
  }

  ghost predicate DeletePosts(s: State, s': State, t: Tid) {
    Does(s, t, DeletePost) && s' == SetAct(s, t, DeleteRing).(signal := 1)
  }

  ghost predicate DeleteRings(s: State, s': State, t: Tid) {
    Does(s, t, DeleteRing) && s' == SetAct(s, t, Idle).(bell := true)
  }

  // --------------------------------------------------------------------------- runs

  ghost predicate SignalMoves(s: State, s': State, t: Tid, n: nat) {
    || Activates(s, s', t) || ActivateRings(s, s', t)
    || Readies(s, s', t) || ReadyTakes(s, s', t) || ReadyLooks(s, s', t, n) || CancelClears(s, s', t)
    || Deletes(s, s', t) || DeletePosts(s, s', t) || DeleteRings(s, s', t)
  }

  ghost predicate WakeMoves(s: State, s': State, t: Tid, n: nat, manual: bool, low: Low, seen: Word) {
    || TimerResumes(s, s', t, n) || ResumeLoadLow(s, s', t, n, manual) || ResumeLoadHigh(s, s', t, n, manual, low)
    || ResumeQuits(s, s', t, n, seen) || ResumeMisses(s, s', t, n, manual, seen) || ResumeSwaps(s, s', t, n, manual, seen)
    || CancelLoadLow(s, s', t) || CancelLoadHigh(s, s', t, low) || CancelSwaps(s, s', t, seen)
  }

  ghost predicate WaitMoves(s: State, s': State, t: Tid, id: nat, low: Low, seen: Word) {
    || InstallBegin(s, s', t) || InstallLoadLow(s, s', t) || InstallLoadHigh(s, s', t, low) || InstallSwaps(s, s', t, seen)
    || InstallCommits(s, s', t, id) || InstallPosts(s, s', t, id) || InstallRings(s, s', t, id) || Finishes(s, s', t, id)
  }

  ghost predicate Next(s: State, s': State) {
    || (exists t: Tid, n: nat :: SignalMoves(s, s', t, n))
    || (exists t: Tid, n: nat, manual: bool, low: Low, seen: Word :: WakeMoves(s, s', t, n, manual, low, seen))
    || (exists t: Tid, id: nat, low: Low, seen: Word :: WaitMoves(s, s', t, id, low, seen))
  }

  ghost predicate Init(s: State) {
    && s.word == Word(Credits(0), 0) && s.signal == 0 && !s.bell && !s.committed && !s.deleting
    && s.accepted == 0 && s.resumes == 0 && s.consumed == 0 && s.lost == 0 && s.waits == 0 && s.woken == [] && s.waiter == None
    && s.posted == 0 && s.granted == 0
    && forall t :: t in s.acts ==> s.acts[t] == Idle
  }

  ghost predicate StepAt(run: seq<State>, i: nat)
    requires i + 1 < |run|
  {
    Next(run[i], run[i + 1])
  }

  ghost predicate Run(run: seq<State>) {
    run != [] && Init(run[0]) && forall i: nat {:trigger StepAt(run, i)} :: i + 1 < |run| ==> StepAt(run, i)
  }

  // ---------------------------------------------------------------------- invariant

  predicate Waits(a: Act) {
    a.InstallLow? || a.InstallHigh? || a.InstallSwap? || a.InstallCommit? || a.InstallPost? || a.InstallRing? || a.Yielded?
  }

  /** The coroutine has parked in the word. */
  predicate Parked(a: Act) { a.InstallCommit? || a.InstallPost? || a.InstallRing? || a.Yielded? }

  predicate Committed(a: Act) { a.InstallPost? || a.InstallRing? || a.Yielded? }

  /** Every accepted permit woke a wait, was taken by one, or is banked. */
  ghost predicate BooksOk(s: State) {
    && s.accepted == s.resumes + s.consumed + (match s.word.low case Credits(n) => n case Waiter(_) => 0 case Deleted => s.lost)
    && (forall a, b :: 0 <= a < b < |s.woken| ==> s.woken[a] != s.woken[b])
    && (forall id :: id in s.woken ==> id < s.waits)
    && (s.word.low.Waiter? ==> s.word.low.id < s.waits && s.word.low.id !in s.woken)
    && (s.word.low.Deleted? ==> s.deleting)
    && (forall id: nat :: id < s.waits ==> id in s.woken || s.word.low == Waiter(id))
  }

  ghost predicate WaiterOk(s: State) {
    && (s.waiter.Some? ==> s.waiter.value in s.acts)
    && (s.word.low.Waiter? ==> s.waiter.Some? && Parked(s.acts[s.waiter.value]) && s.acts[s.waiter.value].id == s.word.low.id)
    && (s.committed <==> s.waiter.Some? && Committed(s.acts[s.waiter.value]))
  }

  ghost predicate ActOk(s: State, t: Tid) {
    && t in s.acts
    && (Waits(s.acts[t]) <==> s.waiter == Some(t))
    && match s.acts[t]
       case InstallHigh(low) => !low.Waiter? && (low.Deleted? ==> s.word.low.Deleted?)
       case InstallSwap(seen) => seen.low.Credits?
       case ReadyLook(n) => 0 < n
       case CancelClear => s.deleting
       case ResumeLow(n, _) => 0 < n
       case ResumeHigh(n, _, low) => 0 < n && (low.Deleted? ==> s.deleting)
       case ResumeSwap(n, _, seen) => 0 < n && !seen.low.Deleted?
       case CancelHigh(low) => s.deleting && (low.Deleted? ==> s.word.low.Deleted?)
       case CancelLow => s.deleting
       case CancelSwap(seen) => s.deleting && !seen.low.Deleted?
       case InstallPost(id) => s.deleting
       case InstallRing(id) => s.deleting
       case DeletePost => s.deleting
       case DeleteRing => s.deleting
       case _ => true
  }

  predicate Posting(a: Act) { a.InstallPost? || a.DeletePost? }

  predicate Ringing(a: Act) { a.InstallRing? || a.DeleteRing? || a.ReadyTake? }

  /** On the way to the cancellation, provided the event is deleted. */
  predicate Cancelling(a: Act) { a.ReadyLook? || a.CancelClear? || a.CancelLow? || a.CancelHigh? || a.CancelSwap? }

  ghost predicate SomePosts(s: State) { exists t :: t in s.acts && Posting(s.acts[t]) }

  ghost predicate SomeCancels(s: State) { exists t :: t in s.acts && Cancelling(s.acts[t]) }

  ghost predicate SomeRings(s: State) { exists t :: t in s.acts && Ringing(s.acts[t]) }

  /** A committed wait on a deleted event will be cancelled: the cancellation is being
      posted, is posted and the bell rung or answered, or is being carried out.  A
      manual activation that has not rung its bell yet does not count. */
  ghost predicate Rescued(s: State) {
    SomePosts(s) || SomeCancels(s) || (s.signal > 0 && (s.bell || SomeRings(s)))
  }

  ghost predicate RescueOk(s: State) {
    s.deleting && s.committed && s.word.low.Waiter? ==> Rescued(s)
  }

  ghost predicate ActsOk(s: State) {
    forall t {:trigger ActOk(s, t)} :: t in s.acts ==> ActOk(s, t)
  }

  ghost predicate Inv(s: State) {
    BooksOk(s) && WaiterOk(s) && ActsOk(s) && RescueOk(s)
  }

  ghost predicate Rely(s: State, s': State, t: Tid) {
    && t in s.acts && t in s'.acts && s'.acts == s.acts[t := s'.acts[t]]
    && (s.deleting ==> s'.deleting) && (s.word.low.Deleted? ==> s'.word.low.Deleted?)
    && (s'.waiter == s.waiter || ((s.waiter == None || s.waiter == Some(t)) && (s'.waiter == None || s'.waiter == Some(t))))
  }

  lemma ActsKept(s: State, s': State, t: Tid)
    requires ActsOk(s) && Rely(s, s', t) && ActOk(s', t)
    ensures ActsOk(s')
  {
    forall u | u in s'.acts ensures ActOk(s', u) {
      if u != t { assert ActOk(s, u); }
    }
  }

  /** A rescue in progress survives the step of a thread that keeps its part in it. */
  lemma RescueKept(s: State, s': State, t: Tid)
    requires Rescued(s) && t in s.acts && t in s'.acts && s'.acts == s.acts[t := s'.acts[t]]
    requires (Posting(s.acts[t]) ==> Posting(s'.acts[t])) && (Cancelling(s.acts[t]) ==> Cancelling(s'.acts[t]))
    requires s.signal > 0 ==> s'.signal > 0
    requires s.signal > 0 && (s.bell || Ringing(s.acts[t])) ==> s'.bell || Ringing(s'.acts[t])
    ensures Rescued(s')
  {
    if SomePosts(s) {
      var u :| u in s.acts && Posting(s.acts[u]);
      assert u in s'.acts && Posting(s'.acts[u]);
    } else if SomeCancels(s) {
      var u :| u in s.acts && Cancelling(s.acts[u]);
      assert u in s'.acts && Cancelling(s'.acts[u]);
    } else if s.bell {
      assert s'.bell || (t in s'.acts && Ringing(s'.acts[t]));
    } else {
      var u :| u in s.acts && Ringing(s.acts[u]);
      assert s'.bell || (u in s'.acts && Ringing(s'.acts[u])) || (t in s'.acts && Ringing(s'.acts[t]));
    }
  }

  // -------------------------------------------------------------------------- steps

  /** Nothing leaves the terminal mark. */
  ghost predicate Absorbs(s: State, s': State) {
    s.word.low.Deleted? ==> s'.word == s.word && s'.accepted == s.accepted && s'.woken == s.woken
  }

  /** A step that leaves word, tag and books alone and keeps the thread's part in a
      rescue. */
  lemma QuietKeeps(s: State, s': State, t: Tid)
    requires Inv(s) && t in s.acts && t in s'.acts
    requires s' == s.(acts := s.acts[t := s'.acts[t]], signal := s'.signal, bell := s'.bell, waiter := s'.waiter, posted := s'.posted)
    requires ActOk(s', t) && !Parked(s.acts[t]) && !Parked(s'.acts[t])
    requires s'.waiter == s.waiter || (s.waiter == None && s'.waiter == Some(t)) || (s.waiter == Some(t) && s'.waiter == None)
    requires (Posting(s.acts[t]) ==> Posting(s'.acts[t])) && (s.deleting && Cancelling(s.acts[t]) ==> Cancelling(s'.acts[t]) || s.word.low.Deleted?)
    requires s.signal > 0 ==> s'.signal > 0
    requires s.signal > 0 && (s.bell || Ringing(s.acts[t])) ==> s'.bell || Ringing(s'.acts[t])
    ensures Inv(s') && Absorbs(s, s')
  {
    ActsKept(s, s', t);
    if s'.deleting && s'.committed && s'.word.low.Waiter? { RescueKept(s, s', t); }
  }

  lemma ActivateKeeps(s: State, s': State, t: Tid)
    requires Inv(s) && (Activates(s, s', t) || ActivateRings(s, s', t) || Readies(s, s', t) || DeleteRings(s, s', t))
    ensures Inv(s') && Absorbs(s, s')
  {
    assert ActOk(s, t);
    QuietKeeps(s, s', t);
  }

  lemma ReadyTakesKeep(s: State, s': State, t: Tid)
    requires Inv(s) && ReadyTakes(s, s', t)
    ensures Inv(s') && Absorbs(s, s')
  {
    assert ActOk(s, t);
    if s.signal == 0 {
      QuietKeeps(s, s', t);
    } else {
      ActsKept(s, s', t);
      if s'.deleting && s'.committed && s'.word.low.Waiter? { assert t in s'.acts && Cancelling(s'.acts[t]); }
    }
  }

  lemma ReadyLooksKeep(s: State, s': State, t: Tid, n: nat)
    requires Inv(s) && ReadyLooks(s, s', t, n)
    ensures Inv(s') && Absorbs(s, s')
  {
    assert ActOk(s, t);
    QuietKeeps(s, s', t);
  }

  lemma CancelClearsKeep(s: State, s': State, t: Tid)
    requires Inv(s) && CancelClears(s, s', t)
    ensures Inv(s') && Absorbs(s, s')
  {
    assert ActOk(s, t);
    ActsKept(s, s', t);
    assert t in s'.acts && Cancelling(s'.acts[t]);
  }

  lemma DeletesKeep(s: State, s': State, t: Tid)
    requires Inv(s) && (Deletes(s, s', t) || DeletePosts(s, s', t))
    ensures Inv(s') && Absorbs(s, s')
  {
    assert ActOk(s, t);
    ActsKept(s, s', t);
    assert t in s'.acts && s'.committed ==> Posting(s'.acts[t]) || Ringing(s'.acts[t]);
  }

  lemma SignalMovesKeep(s: State, s': State, t: Tid, n: nat)
    requires Inv(s) && SignalMoves(s, s', t, n)
    ensures Inv(s') && Absorbs(s, s')
  {
    if ReadyTakes(s, s', t) { ReadyTakesKeep(s, s', t); }
    else if ReadyLooks(s, s', t, n) { ReadyLooksKeep(s, s', t, n); }
    else if CancelClears(s, s', t) { CancelClearsKeep(s, s', t); }
    else if Deletes(s, s', t) || DeletePosts(s, s', t) { DeletesKeep(s, s', t); }
    else { ActivateKeeps(s, s', t); }
  }

  /** Another thread's swap that leaves no waiter in the word. */
  lemma WordLeaves(s: State, s': State, t: Tid)
    requires WaiterOk(s) && t in s.acts && t in s'.acts && s'.acts == s.acts[t := s'.acts[t]] && s.waiter != Some(t)
    requires s'.waiter == s.waiter && s'.committed == s.committed && !s'.word.low.Waiter?
    ensures WaiterOk(s') && RescueOk(s')
  {
  }

  lemma WokenGrows(woken: seq<nat>, id: nat)
    requires (forall a, b :: 0 <= a < b < |woken| ==> woken[a] != woken[b]) && id !in woken
    ensures forall a, b :: 0 <= a < b < |woken + [id]| ==> (woken + [id])[a] != (woken + [id])[b]
  {
  }

  lemma ResumeSwapsKeep(s: State, s': State, t: Tid, n: nat, manual: bool, seen: Word)
    requires Inv(s) && ResumeSwaps(s, s', t, n, manual, seen)
    ensures Inv(s') && Absorbs(s, s')
  {
    assert ActOk(s, t);
    ResumeBooks(s, s', t, n, manual, seen);
    WordLeaves(s, s', t);
    ResumeActs(s, s', t, n, manual, seen);
  }

  lemma ResumeBooks(s: State, s': State, t: Tid, n: nat, manual: bool, seen: Word)
    requires BooksOk(s) && ResumeSwaps(s, s', t, n, manual, seen)
    ensures BooksOk(s')
  {
    if seen.low.Waiter? { WokenGrows(s.woken, seen.low.id); }
  }

  lemma ResumeActs(s: State, s': State, t: Tid, n: nat, manual: bool, seen: Word)
    requires ActsOk(s) && ResumeSwaps(s, s', t, n, manual, seen)
    ensures ActsOk(s')
  {
    assert ActOk(s, t);
    ActsKept(s, s', t);
  }

  lemma CancelSwapsKeep(s: State, s': State, t: Tid, seen: Word)
    requires Inv(s) && CancelSwaps(s, s', t, seen)
    ensures Inv(s') && Absorbs(s, s')
  {
    assert ActOk(s, t);
    if s.word != seen {
      QuietKeeps(s, s', t);
    } else {
      if seen.low.Waiter? { WokenGrows(s.woken, seen.low.id); }
      WordLeaves(s, s', t);
      ActsKept(s, s', t);
    }
  }

  lemma WakeMovesKeep(s: State, s': State, t: Tid, n: nat, manual: bool, low: Low, seen: Word)
    requires Inv(s) && WakeMoves(s, s', t, n, manual, low, seen)
    ensures Inv(s') && Absorbs(s, s')
  {
    if ResumeSwaps(s, s', t, n, manual, seen) { ResumeSwapsKeep(s, s', t, n, manual, seen); }
    else if CancelSwaps(s, s', t, seen) { CancelSwapsKeep(s, s', t, seen); }
    else if CancelLoadLow(s, s', t) || CancelLoadHigh(s, s', t, low) { CancelLoadsKeep(s, s', t, low); }
    else { ResumeLoadsKeep(s, s', t, n, manual, low, seen); }
  }

  lemma CancelLoadsKeep(s: State, s': State, t: Tid, low: Low)
    requires Inv(s) && (CancelLoadLow(s, s', t) || CancelLoadHigh(s, s', t, low))
    ensures Inv(s') && Absorbs(s, s')
  {
    assert ActOk(s, t);
    QuietKeeps(s, s', t);
  }

  lemma ResumeLoadsKeep(s: State, s': State, t: Tid, n: nat, manual: bool, low: Low, seen: Word)
    requires Inv(s)
    requires || TimerResumes(s, s', t, n) || ResumeLoadLow(s, s', t, n, manual) || ResumeLoadHigh(s, s', t, n, manual, low)
             || ResumeQuits(s, s', t, n, seen) || ResumeMisses(s, s', t, n, manual, seen)
    ensures Inv(s') && Absorbs(s, s')
  {
    assert ActOk(s, t);
    QuietKeeps(s, s', t);
  }

  lemma InstallSwapsKeep(s: State, s': State, t: Tid, seen: Word)
    requires Inv(s) && InstallSwaps(s, s', t, seen)
    ensures Inv(s') && Absorbs(s, s')
  {
    assert ActOk(s, t);
    if s.word != seen {
      QuietKeeps(s, s', t);
    } else if seen.low.n == 0 {
      InstallParks(s, s', t, seen);
    } else {
      ActsKept(s, s', t);
    }
  }

  lemma InstallParks(s: State, s': State, t: Tid, seen: Word)
    requires Inv(s) && InstallSwaps(s, s', t, seen) && s.word == seen && seen.low.n == 0
    ensures Inv(s') && Absorbs(s, s')
  {
    assert ActOk(s, t);
    ActsKept(s, s', t);
  }

  lemma InstallLoadsKeep(s: State, s': State, t: Tid, low: Low)
    requires Inv(s) && (InstallBegin(s, s', t) || InstallLoadLow(s, s', t) || InstallLoadHigh(s, s', t, low))
    ensures Inv(s') && Absorbs(s, s')
  {
    assert ActOk(s, t);
    QuietKeeps(s, s', t);
  }

  lemma CommitKeeps(s: State, s': State, t: Tid, id: nat)
    requires Inv(s) && (InstallCommits(s, s', t, id) || InstallPosts(s, s', t, id))
    ensures Inv(s') && Absorbs(s, s')
  {
    assert ActOk(s, t);
    ActsKept(s, s', t);
    assert t in s'.acts && s'.deleting ==> Posting(s'.acts[t]) || Ringing(s'.acts[t]);
  }

  lemma FinishKeeps(s: State, s': State, t: Tid, id: nat)
    requires Inv(s) && (InstallRings(s, s', t, id) || Finishes(s, s', t, id))
    ensures Inv(s') && Absorbs(s, s')
  {
    assert ActOk(s, t);
    ActsKept(s, s', t);
    if s'.deleting && s'.committed && s'.word.low.Waiter? { RescueKept(s, s', t); }
  }

  lemma WaitMovesKeep(s: State, s': State, t: Tid, id: nat, low: Low, seen: Word)
    requires Inv(s) && WaitMoves(s, s', t, id, low, seen)
    ensures Inv(s') && Absorbs(s, s')
  {
    if InstallSwaps(s, s', t, seen) { InstallSwapsKeep(s, s', t, seen); }
    else if InstallCommits(s, s', t, id) || InstallPosts(s, s', t, id) { CommitKeeps(s, s', t, id); }
    else if InstallRings(s, s', t, id) || Finishes(s, s', t, id) { FinishKeeps(s, s', t, id); }
    else { InstallLoadsKeep(s, s', t, low); }
  }

  lemma NextKeeps(s: State, s': State)
    requires Inv(s) && Next(s, s')
    ensures Inv(s') && Absorbs(s, s')
  {
    if t: Tid, n: nat :| SignalMoves(s, s', t, n) {
      SignalMovesKeep(s, s', t, n);
    } else if t: Tid, n: nat, manual: bool, low: Low, seen: Word :| WakeMoves(s, s', t, n, manual, low, seen) {
      WakeMovesKeep(s, s', t, n, manual, low, seen);
    } else {
      var t: Tid, id: nat, low: Low, seen: Word :| WaitMoves(s, s', t, id, low, seen);
      WaitMovesKeep(s, s', t, id, low, seen);
    }
  }

  // ------------------------------------------------------------------------ promises

  lemma {:induction false} RunInvariant(run: seq<State>, i: nat)
    requires Run(run) && i < |run|
    ensures Inv(run[i])
  {
    if i == 0 {
      forall t | t in run[0].acts ensures ActOk(run[0], t) {}
    } else {
      RunInvariant(run, i - 1);
      assert StepAt(run, i - 1);
      NextKeeps(run[i - 1], run[i]);
    }
  }

  /** Conservation: until the terminal mark, every permit accepted has resumed a
      coroutine, was consumed by one that found it banked, or is banked.  No wait is
      woken twice. */
  lemma PermitsConserved(run: seq<State>, i: nat)
    requires Run(run) && i < |run|
    ensures run[i].word.low.Credits? ==> run[i].accepted == run[i].resumes + run[i].consumed + run[i].word.low.n
    ensures run[i].word.low.Waiter? ==> run[i].accepted == run[i].resumes + run[i].consumed
    ensures forall a, b :: 0 <= a < b < |run[i].woken| ==> run[i].woken[a] != run[i].woken[b]
    ensures forall id :: id in run[i].woken ==> id < run[i].waits
  {
    RunInvariant(run, i);
  }

  /** The terminal mark absorbs. */
  lemma {:induction false} DeletedAbsorbs(run: seq<State>, i: nat, j: nat)
    requires Run(run) && i <= j < |run| && run[i].word.low.Deleted?
    ensures run[j].word == run[i].word && run[j].accepted == run[i].accepted && run[j].woken == run[i].woken
  {
    if i < j {
      DeletedAbsorbs(run, i, j - 1);
      RunInvariant(run, j - 1);
      assert StepAt(run, j - 1);
      NextKeeps(run[j - 1], run[j]);
    }
  }

  /** A committed wait and a delete never miss each other: as long as the wait is in
      the word of a deleted event, its cancellation is on the way. */
  lemma CancellationOnTheWay(run: seq<State>, i: nat)
    requires Run(run) && i < |run| && run[i].deleting && run[i].committed && run[i].word.low.Waiter?
    ensures Rescued(run[i])
  {
    RunInvariant(run, i);
  }

  /** A wait that has left the word was woken, so its coroutine can go on. */
  lemma LeavesWoken(run: seq<State>, i: nat, id: nat)
    requires Run(run) && i < |run| && id < run[i].waits && run[i].word.low != Waiter(id)
    ensures id in run[i].woken
  {
    RunInvariant(run, i);
  }

  /** Only one coroutine is ever in the word: a second one finds credits or the
      terminal mark, never another waiter. */
  lemma OneWaiter(run: seq<State>, i: nat, t: Tid)
    requires Run(run) && i < |run| && t in run[i].acts
    requires run[i].acts[t].InstallLow? || run[i].acts[t].InstallHigh? || run[i].acts[t].InstallSwap?
    ensures !run[i].word.low.Waiter?
  {
    RunInvariant(run, i);
    assert ActOk(run[i], t);
  }
}
