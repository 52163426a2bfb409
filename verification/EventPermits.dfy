/** What becomes of the activations of a callback-less user event that is not deleted: on a
    semaphore each is a permit granted, one that a loop thread carries, or one that is still
    signalled; on a plain event they coalesce.  A signal is never without its bell. */
module EventPermits {
  import opened EventWaiter

  /** Permits that a thread carries from the signal count to the waiter word. */
  function Due(a: Act): nat {
    match a
    case ReadyLook(n) => n
    case ResumeLow(n, manual) => if manual then n else 0
    case ResumeHigh(n, manual, _) => if manual then n else 0
    case ResumeSwap(n, manual, _) => if manual then n else 0
    case _ => 0
  }

  /** What the threads below `k` carry. */
  function Owed(acts: map<Tid, Act>, k: nat): nat {
    if k == 0 then 0 else Owed(acts, k - 1) + if k - 1 in acts then Due(acts[k - 1]) else 0
  }

  lemma {:induction false} OwedChanges(acts: map<Tid, Act>, t: Tid, a: Act, k: nat)
    requires t in acts
    ensures Owed(acts[t := a], k) == if t < k then Owed(acts, k) - Due(acts[t]) + Due(a) else Owed(acts, k)
  {
    if k > 0 { OwedChanges(acts, t, a, k - 1); }
  }

  lemma {:induction false} NothingOwed(acts: map<Tid, Act>, k: nat)
    requires forall t :: t in acts ==> Due(acts[t]) == 0
    ensures Owed(acts, k) == 0
  {
    if k > 0 { NothingOwed(acts, k - 1); }
  }

  ghost predicate Threads(s: State, k: nat) { forall t :: t in s.acts ==> t < k }

  function Kept(s: State, k: nat): nat { s.granted + Owed(s.acts, k) + s.signal }

  ghost predicate Accounted(s: State, k: nat) {
    s.deleting || (if s.semaphore then s.posted == Kept(s, k) else s.signal <= 1 && Kept(s, k) <= s.posted)
  }

  // -------------------------------------------------------------------------- one step

  ghost predicate Moves(s: State, s': State, t: Tid) {
    t in s.acts && t in s'.acts && s'.acts == s.acts[t := s'.acts[t]] && s'.semaphore == s.semaphore
  }

  /** What comes in is what is posted; a plain event may lose what it coalesces with a
      signal that stays. */
  ghost predicate Balanced(s: State, s': State, t: Tid)
    requires t in s.acts && t in s'.acts
  {
    var gain := (s'.granted - s.granted) + (Due(s'.acts[t]) - Due(s.acts[t])) + (s'.signal - s.signal);
    && (s'.posted != s.posted ==> s'.signal > 0 && s'.granted == s.granted && Due(s'.acts[t]) == Due(s.acts[t]))
    && if s.semaphore then gain == s'.posted - s.posted >= 0 else s'.signal <= 1 && 0 <= gain <= s'.posted - s.posted
  }

  lemma StepAccounts(s: State, s': State, t: Tid, k: nat)
    requires Moves(s, s', t) && t < k && Accounted(s, k) && !s.deleting && Balanced(s, s', t)
    ensures Accounted(s', k) && Kept(s, k) <= Kept(s', k)
  {
    OwedChanges(s.acts, t, s'.acts[t], k);
  }

  predicate Rings(a: Act) { a.ActivateRing? || a.InstallRing? || a.DeleteRing? || a.ReadyTake? }

  /** A signal that appears is rung by whoever set it, and a bell or a ringer goes only
      with the signal or to another. */
  ghost predicate RingsOn(s: State, s': State, t: Tid)
    requires t in s.acts && t in s'.acts
  {
    s'.signal > 0 ==>
      && (s.signal > 0 || Rings(s'.acts[t]))
      && (s.bell || Rings(s.acts[t]) ==> s'.bell || Rings(s'.acts[t]))
  }

  ghost predicate Fine(s: State, s': State, t: Tid) {
    && Moves(s, s', t) && RingsOn(s, s', t) && (s.deleting ==> s'.deleting)
    && (!s.deleting && !s'.deleting && (!s.semaphore ==> s.signal <= 1) ==> Balanced(s, s', t))
  }

  lemma ActivateFine(s: State, s': State, t: Tid)
    requires Activates(s, s', t) || ActivateRings(s, s', t) || DeleteRings(s, s', t) || Readies(s, s', t)
    ensures Fine(s, s', t)
  {
  }

  lemma ReadyFine(s: State, s': State, t: Tid, n: nat)
    requires ActOk(s, t) && (ReadyTakes(s, s', t) || ReadyLooks(s, s', t, n) || CancelClears(s, s', t))
    ensures Fine(s, s', t)
  {
  }

  lemma DeleteFine(s: State, s': State, t: Tid)
    requires ActOk(s, t) && (Deletes(s, s', t) || DeletePosts(s, s', t))
    ensures Fine(s, s', t)
  {
  }

  lemma SignalFine(s: State, s': State, t: Tid, n: nat)
    requires ActOk(s, t) && SignalMoves(s, s', t, n)
    ensures Fine(s, s', t)
  {
    if ReadyTakes(s, s', t) || ReadyLooks(s, s', t, n) || CancelClears(s, s', t) { ReadyFine(s, s', t, n); }
    else if Deletes(s, s', t) || DeletePosts(s, s', t) { DeleteFine(s, s', t); }
    else { ActivateFine(s, s', t); }
  }

  lemma ResumeLoadsFine(s: State, s': State, t: Tid, n: nat, manual: bool, low: Low)
    requires ActOk(s, t) && (TimerResumes(s, s', t, n) || ResumeLoadLow(s, s', t, n, manual) || ResumeLoadHigh(s, s', t, n, manual, low))
    ensures Fine(s, s', t)
  {
  }

  lemma ResumeEndsFine(s: State, s': State, t: Tid, n: nat, manual: bool, seen: Word)
    requires BooksOk(s) && (ResumeQuits(s, s', t, n, seen) || ResumeMisses(s, s', t, n, manual, seen))
    ensures Fine(s, s', t)
  {
  }

  lemma ResumeSwapsFine(s: State, s': State, t: Tid, n: nat, manual: bool, seen: Word)
    requires ResumeSwaps(s, s', t, n, manual, seen)
    ensures Fine(s, s', t)
  {
  }

  lemma CancelLoadsFine(s: State, s': State, t: Tid, low: Low)
    requires CancelLoadLow(s, s', t) || CancelLoadHigh(s, s', t, low)
    ensures Fine(s, s', t)
  {
  }

  lemma CancelSwapsFine(s: State, s': State, t: Tid, seen: Word)
    requires CancelSwaps(s, s', t, seen)
    ensures Fine(s, s', t)
  {
  }

  lemma WakeFine(s: State, s': State, t: Tid, n: nat, manual: bool, low: Low, seen: Word)
    requires BooksOk(s) && ActOk(s, t) && WakeMoves(s, s', t, n, manual, low, seen)
    ensures Fine(s, s', t)
  {
    if CancelLoadLow(s, s', t) || CancelLoadHigh(s, s', t, low) { CancelLoadsFine(s, s', t, low); }
    else if CancelSwaps(s, s', t, seen) { CancelSwapsFine(s, s', t, seen); }
    else if ResumeSwaps(s, s', t, n, manual, seen) { ResumeSwapsFine(s, s', t, n, manual, seen); }
    else if ResumeQuits(s, s', t, n, seen) || ResumeMisses(s, s', t, n, manual, seen) { ResumeEndsFine(s, s', t, n, manual, seen); }
    else { ResumeLoadsFine(s, s', t, n, manual, low); }
  }

  /** Nothing about signals or permits changes. */
  ghost predicate Silent(s: State, s': State, t: Tid) {
    && Moves(s, s', t) && s'.signal == s.signal && s'.bell == s.bell && s'.posted == s.posted && s'.granted == s.granted
    && s'.deleting == s.deleting && Due(s'.acts[t]) == Due(s.acts[t]) && Rings(s'.acts[t]) == Rings(s.acts[t])
  }

  lemma SilentFine(s: State, s': State, t: Tid)
    requires Silent(s, s', t)
    ensures Fine(s, s', t)
  {
  }

  lemma InstallBeginSilent(s: State, s': State, t: Tid)
    requires InstallBegin(s, s', t) || InstallLoadLow(s, s', t)
    ensures Silent(s, s', t)
  {
  }

  lemma InstallLoadSilent(s: State, s': State, t: Tid, low: Low)
    requires InstallLoadHigh(s, s', t, low)
    ensures Silent(s, s', t)
  {
  }

  lemma InstallSwapsSilent(s: State, s': State, t: Tid, seen: Word)
    requires InstallSwaps(s, s', t, seen)
    ensures Silent(s, s', t)
  {
    var a := if s.word != seen then (if s.word.low.Deleted? then Idle else InstallSwap(s.word))
             else if seen.low.n == 0 then InstallCommit(s.waits) else Idle;
    ActMoves(s, s', t, a);
  }

  lemma ActMoves(s: State, s': State, t: Tid, a: Act)
    requires t in s.acts && s'.acts == s.acts[t := a] && s'.semaphore == s.semaphore
    ensures Moves(s, s', t) && s'.acts[t] == a
  {
  }

  lemma CommitFine(s: State, s': State, t: Tid, id: nat)
    requires ActOk(s, t)
    requires InstallCommits(s, s', t, id) || InstallPosts(s, s', t, id) || InstallRings(s, s', t, id) || Finishes(s, s', t, id)
    ensures Fine(s, s', t)
  {
  }

  lemma WaitFine(s: State, s': State, t: Tid, id: nat, low: Low, seen: Word)
    requires ActOk(s, t) && WaitMoves(s, s', t, id, low, seen)
    ensures Fine(s, s', t)
  {
    if InstallBegin(s, s', t) || InstallLoadLow(s, s', t) {
      InstallBeginSilent(s, s', t);
      SilentFine(s, s', t);
    } else if InstallLoadHigh(s, s', t, low) {
      InstallLoadSilent(s, s', t, low);
      SilentFine(s, s', t);
    } else if InstallSwaps(s, s', t, seen) {
      InstallSwapsSilent(s, s', t, seen);
      SilentFine(s, s', t);
    } else {
      CommitFine(s, s', t, id);
    }
  }

  lemma NextFine(s: State, s': State) returns (t: Tid)
    requires Inv(s) && Next(s, s')
    ensures Fine(s, s', t)
  {
    if u: Tid, n: nat :| SignalMoves(s, s', u, n) {
      t := u;
      assert ActOk(s, t);
      SignalFine(s, s', t, n);
    } else if u: Tid, n: nat, manual: bool, low: Low, seen: Word :| WakeMoves(s, s', u, n, manual, low, seen) {
      t := u;
      assert ActOk(s, t);
      WakeFine(s, s', t, n, manual, low, seen);
    } else {
      var u: Tid, id: nat, low: Low, seen: Word :| WaitMoves(s, s', u, id, low, seen);
      t := u;
      assert ActOk(s, t);
      WaitFine(s, s', t, id, low, seen);
    }
  }

  lemma NextAccounts(s: State, s': State, t: Tid, k: nat)
    requires Fine(s, s', t) && Threads(s, k) && Accounted(s, k)
    ensures Accounted(s', k) && Threads(s', k)
    ensures !s'.deleting ==> Kept(s, k) <= Kept(s', k) && (s'.posted != s.posted ==> s'.signal > 0)
  {
    if !s'.deleting { StepAccounts(s, s', t, k); }
  }

  // -------------------------------------------------------------------------- promises

  lemma {:induction false} RunAccounts(run: seq<State>, i: nat, k: nat)
    requires Run(run) && i < |run| && Threads(run[0], k)
    ensures Accounted(run[i], k) && Threads(run[i], k)
  {
    if i == 0 {
      NothingOwed(run[0].acts, k);
    } else {
      RunAccounts(run, i - 1, k);
      RunInvariant(run, i - 1);
      assert StepAt(run, i - 1);
      var t := NextFine(run[i - 1], run[i]);
      NextAccounts(run[i - 1], run[i], t, k);
    }
  }

  /** Activations of a semaphore: every one is a permit that was granted, or is carried to
      the waiter word, or is signalled. */
  lemma ActivationsArePermits(run: seq<State>, i: nat, k: nat)
    requires Run(run) && i < |run| && Threads(run[0], k) && !run[i].deleting && run[i].semaphore
    ensures run[i].posted == run[i].granted + Owed(run[i].acts, k) + run[i].signal
  {
    RunAccounts(run, i, k);
  }

  /** Once the signals are taken and nobody carries any, the permits granted are the
      activations. */
  lemma AllActivationsGranted(run: seq<State>, i: nat, k: nat)
    requires Run(run) && i < |run| && Threads(run[0], k) && !run[i].deleting && run[i].signal == 0
    requires forall t :: t in run[i].acts ==> Due(run[i].acts[t]) == 0
    ensures if run[i].semaphore then run[i].granted == run[i].posted else run[i].granted <= run[i].posted
  {
    RunAccounts(run, i, k);
    NothingOwed(run[i].acts, k);
  }

  /** Nothing is lost again while the event is not deleted. */
  lemma {:induction false} KeptStays(run: seq<State>, i: nat, j: nat, k: nat)
    requires Run(run) && i <= j < |run| && Threads(run[0], k) && !run[j].deleting
    ensures Kept(run[i], k) <= Kept(run[j], k)
  {
    if i < j {
      KeptOnce(run, j - 1, k);
      KeptStays(run, i, j - 1, k);
    }
  }

  lemma KeptOnce(run: seq<State>, i: nat, k: nat)
    requires Run(run) && i + 1 < |run| && Threads(run[0], k) && !run[i + 1].deleting
    ensures !run[i].deleting && Kept(run[i], k) <= Kept(run[i + 1], k)
    ensures run[i + 1].posted != run[i].posted ==> Kept(run[i + 1], k) > run[i].granted + Owed(run[i].acts, k)
  {
    RunAccounts(run, i, k);
    RunInvariant(run, i);
    assert StepAt(run, i);
    var t := NextFine(run[i], run[i + 1]);
    NextAccounts(run[i], run[i + 1], t, k);
    if run[i + 1].posted != run[i].posted { PostedStep(run[i], run[i + 1], t, k); }
  }

  /** An activation counts for at least one permit beyond those that were taken before it,
      on a plain event too. */
  lemma ActivationCounts(run: seq<State>, i: nat, j: nat, k: nat)
    requires Run(run) && i < j < |run| && Threads(run[0], k) && !run[j].deleting && run[i + 1].posted != run[i].posted
    ensures run[j].granted + Owed(run[j].acts, k) + run[j].signal > run[i].granted + Owed(run[i].acts, k)
  {
    NotDeletedBefore(run, i + 1, j);
    KeptStays(run, i + 1, j, k);
    KeptOnce(run, i, k);
  }

  lemma PostedStep(s: State, s': State, t: Tid, k: nat)
    requires Fine(s, s', t) && Threads(s, k) && Accounted(s, k) && !s'.deleting && s'.posted != s.posted
    ensures Kept(s', k) > s.granted + Owed(s.acts, k)
  {
    OwedChanges(s.acts, t, s'.acts[t], k);
  }

  lemma {:induction false} NotDeletedBefore(run: seq<State>, i: nat, j: nat)
    requires Run(run) && i <= j < |run| && !run[j].deleting
    ensures !run[i].deleting
  {
    if i < j {
      RunInvariant(run, j - 1);
      assert StepAt(run, j - 1);
      var t := NextFine(run[j - 1], run[j]);
      NotDeletedBefore(run, i, j - 1);
    }
  }

  // ------------------------------------------------------------------------------ the bell

  /** The bell rings, somebody is about to ring it, or somebody answers it. */
  ghost predicate Heard(s: State) { s.signal > 0 ==> s.bell || exists t :: t in s.acts && Rings(s.acts[t]) }

  lemma HeardStill(s: State, s': State, t: Tid)
    requires Heard(s) && Moves(s, s', t) && RingsOn(s, s', t)
    ensures Heard(s')
  {
    if s'.signal > 0 {
      if Rings(s'.acts[t]) {
        assert t in s'.acts;
      } else if !s.bell {
        var u :| u in s.acts && Rings(s.acts[u]);
        assert u in s'.acts && (u != t ==> Rings(s'.acts[u]));
      }
    }
  }

  /** A signal that is pending reaches a loop thread: its bell is rung, or about to be, or
      being answered. */
  lemma {:induction false} SignalIsHeard(run: seq<State>, i: nat)
    requires Run(run) && i < |run|
    ensures Heard(run[i])
  {
    if i > 0 {
      SignalIsHeard(run, i - 1);
      RunInvariant(run, i - 1);
      assert StepAt(run, i - 1);
      var t := NextFine(run[i - 1], run[i]);
      HeardStill(run[i - 1], run[i], t);
    }
  }

  // ------------------------------------------------------------------------------ the wait

  /** The wait took a banked permit, was woken, or found the event deleted. */
  ghost predicate WaitOver(s: State, s': State, t: Tid)
    requires t in s.acts
  {
    || s'.consumed == s.consumed + 1
    || (s.acts[t].Yielded? && s.acts[t].id in s.woken)
    || s.word.low.Deleted?
  }

  lemma InstallLooks(s: State, s': State, t: Tid, low: Low)
    requires ActOk(s, t) && (InstallLoadLow(s, s', t) || InstallLoadHigh(s, s', t, low))
    ensures t in s'.acts && (Waits(s'.acts[t]) || WaitOver(s, s', t))
  {
  }

  lemma InstallEnds(s: State, s': State, t: Tid, seen: Word)
    requires InstallSwaps(s, s', t, seen)
    ensures t in s'.acts && (Waits(s'.acts[t]) || WaitOver(s, s', t))
  {
  }

  lemma WaitGoes(s: State, s': State, t: Tid, id: nat, low: Low, seen: Word)
    requires ActOk(s, t) && WaitMoves(s, s', t, id, low, seen) && Waits(s.acts[t])
    ensures t in s'.acts && (Waits(s'.acts[t]) || WaitOver(s, s', t))
  {
    if InstallSwaps(s, s', t, seen) { InstallEnds(s, s', t, seen); }
    else if InstallLoadLow(s, s', t) || InstallLoadHigh(s, s', t, low) { InstallLooks(s, s', t, low); }
  }

  lemma NotByOthers(s: State, s': State, t: Tid, u: Tid)
    requires Fine(s, s', t) && u in s.acts && u != t
    ensures u in s'.acts && s'.acts[u] == s.acts[u]
  {
  }

  lemma SignalsDoNotWait(s: State, s': State, t: Tid, n: nat)
    requires SignalMoves(s, s', t, n)
    ensures t in s.acts && !Waits(s.acts[t])
  {
  }

  lemma WakesDoNotWait(s: State, s': State, t: Tid, n: nat, manual: bool, low: Low, seen: Word)
    requires WakeMoves(s, s', t, n, manual, low, seen)
    ensures t in s.acts && !Waits(s.acts[t])
  {
  }

  lemma NextWaits(s: State, s': State, u: Tid)
    requires Inv(s) && Next(s, s') && u in s.acts && Waits(s.acts[u])
    ensures u in s'.acts && (Waits(s'.acts[u]) || WaitOver(s, s', u))
  {
    assert ActOk(s, u);
    if t: Tid, n: nat :| SignalMoves(s, s', t, n) {
      SignalsDoNotWait(s, s', t, n);
      assert ActOk(s, t);
      SignalFine(s, s', t, n);
      NotByOthers(s, s', t, u);
    } else if t: Tid, n: nat, manual: bool, low: Low, seen: Word :| WakeMoves(s, s', t, n, manual, low, seen) {
      WakesDoNotWait(s, s', t, n, manual, low, seen);
      assert ActOk(s, t);
      WakeFine(s, s', t, n, manual, low, seen);
      NotByOthers(s, s', t, u);
    } else {
      var t: Tid, id: nat, low: Low, seen: Word :| WaitMoves(s, s', t, id, low, seen);
      WaitNext(s, s', t, id, low, seen, u);
    }
  }

  lemma WaitNext(s: State, s': State, t: Tid, id: nat, low: Low, seen: Word, u: Tid)
    requires Inv(s) && WaitMoves(s, s', t, id, low, seen) && u in s.acts && Waits(s.acts[u])
    ensures u in s'.acts && (Waits(s'.acts[u]) || WaitOver(s, s', u))
  {
    assert ActOk(s, u) && ActOk(s, t);
    if u == t {
      WaitGoes(s, s', t, id, low, seen);
    } else {
      WaitFine(s, s', t, id, low, seen);
      NotByOthers(s, s', t, u);
    }
  }

  /** No wait returns for nothing: when it is over it has taken a permit, was woken, or the
      event is deleted. */
  lemma {:induction false} WaitReturns(run: seq<State>, i: nat, j: nat, t: Tid) returns (m: nat)
    requires Run(run) && i < j < |run| && t in run[i].acts && Waits(run[i].acts[t]) && t in run[j].acts && !Waits(run[j].acts[t])
    ensures i <= m < j && t in run[m].acts && Waits(run[m].acts[t]) && WaitOver(run[m], run[m + 1], t)
    decreases j - i
  {
    m := i;
    RunInvariant(run, i);
    assert StepAt(run, i);
    NextWaits(run[i], run[i + 1], t);
    if Waits(run[i + 1].acts[t]) { m := WaitReturns(run, i + 1, j, t); }
  }
}
