/** What becomes of publications and signals: a signal whose generation stays is accepted, a
    publication is carried out unless it has to give up, and the one that a deletion makes is
    carried out in any case, is the last, and leaves the timer stopped. */
module EventRequests {
  import opened Wrappers
  import opened EventTimer

  predicate Publishes(a: Act) { a.PubLow? || a.PubHigh? || a.PubTest? || a.PubSwap? }

  predicate Signals(a: Act, g: nat, ticks: nat) {
    a == SigLow(g, ticks) || ((a.SigHigh? || a.SigSwap?) && a.g == g && a.ticks == ticks)
  }

  // ------------------------------------------------------------------------ invariant

  /** Only the deleting thread has the terminal request; no swap that is under way can hit
      the word behind it; and nobody arms its generation. */
  ghost predicate ThreadOk(s: State, t: Tid) {
    && t in s.acts
    && (s.life == Deleting(t) ==> Publishes(s.acts[t]))
    && (Publishes(s.acts[t]) ==> (s.acts[t].q.terminal <==> s.life == Deleting(t)) && (s.acts[t].q.terminal ==> s.acts[t].q == STOP))
    && match s.acts[t]
       case PubTest(q, seen) => seen.generation <= s.word.generation
       case PubSwap(q, seen) => seen.generation <= s.word.generation && (s.life.Closed? ==> seen.generation < s.life.generation)
       case OwnArm(_, applied, _) => s.life != Closed(applied)
       case OwnNote(_, applied, _) => s.life != Closed(applied)
       case _ => true
  }

  ghost predicate ClosedOk(s: State) {
    s.life.Closed? ==>
      && s.word.generation == s.life.generation && s.word.low == 0 && s.life.generation !in s.armedFor
      && (s.applied == s.life.generation ==> !s.timer.armed)
  }

  ghost predicate RequestsOk(s: State) {
    ClosedOk(s) && forall t {:trigger ThreadOk(s, t)} :: t in s.acts ==> ThreadOk(s, t)
  }

  /** What the other threads may count on when `t` moves. */
  ghost predicate Leaves(s: State, s': State, t: Tid) {
    && t in s.acts && t in s'.acts && (forall u :: u in s'.acts ==> u in s.acts)
    && (forall u :: u in s.acts && u != t ==> u in s'.acts && s'.acts[u] == s.acts[u])
    && s.word.generation <= s'.word.generation
    && (|| s'.life == s.life
        || (s.life.Living? && s'.life == Deleting(t))
        || (s.life == Deleting(t) && s'.life == Closed(s.word.generation + 1)))
  }

  lemma OthersOk(s: State, s': State, t: Tid)
    requires Inv(s) && RequestsOk(s) && Leaves(s, s', t) && ThreadOk(s', t) && ClosedOk(s')
    ensures RequestsOk(s')
  {
    forall u | u in s'.acts ensures ThreadOk(s', u) {
      if u != t { OtherOk(s, s', t, u); }
    }
  }

  lemma OtherOk(s: State, s': State, t: Tid, u: Tid)
    requires Inv(s) && RequestsOk(s) && Leaves(s, s', t) && u in s'.acts && u != t
    ensures ThreadOk(s', u)
  {
    assert ThreadOk(s, u) && ActOk(s, u);
  }

  // ---------------------------------------------------------------------------- steps

  lemma PubLooksKeep(s: State, s': State, t: Tid, q: Request, low: nat, seen: Control)
    requires Inv(s) && RequestsOk(s)
    requires PubBegin(s, s', t, q) || Deletes(s, s', t) || PubLoadLow(s, s', t, q) || PubLoadHigh(s, s', t, q, low)
    ensures RequestsOk(s') && Leaves(s, s', t)
  {
    assert ThreadOk(s, t);
    OthersOk(s, s', t);
  }

  lemma PubTestsKeep(s: State, s': State, t: Tid, q: Request, seen: Control)
    requires Inv(s) && RequestsOk(s) && PubTests(s, s', t, q, seen)
    ensures RequestsOk(s') && Leaves(s, s', t)
  {
    assert ThreadOk(s, t);
    OthersOk(s, s', t);
  }

  lemma PubSwapsKeepRequests(s: State, s': State, t: Tid, q: Request, seen: Control)
    requires Inv(s) && RequestsOk(s) && PubSwaps(s, s', t, q, seen)
    ensures RequestsOk(s') && Leaves(s, s', t)
  {
    assert ThreadOk(s, t);
    if s.word == seen { SwapCloses(s, s', t, q, seen); }
    OthersOk(s, s', t);
  }

  lemma SwapCloses(s: State, s': State, t: Tid, q: Request, seen: Control)
    requires Inv(s) && ClosedOk(s) && ThreadOk(s, t) && PubSwaps(s, s', t, q, seen) && s.word == seen
    ensures ClosedOk(s') && Leaves(s, s', t) && ThreadOk(s', t)
  {
    assert GenerationOk(s, s.word.generation + 1);
  }

  lemma SigLooksKeepRequests(s: State, s': State, t: Tid, g: nat, ticks: nat, low: nat)
    requires Inv(s) && RequestsOk(s)
    requires SigBegin(s, s', t, g, ticks) || SigLoadLow(s, s', t, g, ticks) || SigLoadHigh(s, s', t, g, ticks, low)
    ensures RequestsOk(s') && Leaves(s, s', t)
  {
    assert ThreadOk(s, t);
    OthersOk(s, s', t);
  }

  lemma SigSwapsKeepRequests(s: State, s': State, t: Tid, g: nat, ticks: nat, seen: Control)
    requires Inv(s) && RequestsOk(s) && SigSwaps(s, s', t, g, ticks, seen)
    ensures RequestsOk(s') && Leaves(s, s', t)
  {
    assert ThreadOk(s, t) && ActOk(s, t);
    SwapIsOpen(s, s', t, g, ticks, seen);
    OthersOk(s, s', t);
  }

  lemma SwapIsOpen(s: State, s': State, t: Tid, g: nat, ticks: nat, seen: Control)
    requires ClosedOk(s) && ThreadOk(s, t) && ActOk(s, t) && SigSwaps(s, s', t, g, ticks, seen)
    ensures ClosedOk(s') && Leaves(s, s', t) && ThreadOk(s', t)
  {
  }

  lemma SigMovesKeepRequests(s: State, s': State, t: Tid, g: nat, ticks: nat, low: nat, seen: Control)
    requires Inv(s) && RequestsOk(s) && SigMoves(s, s', t, g, ticks, low, seen)
    ensures RequestsOk(s') && Leaves(s, s', t)
  {
    if SigSwaps(s, s', t, g, ticks, seen) { SigSwapsKeepRequests(s, s', t, g, ticks, seen); }
    else { SigLooksKeepRequests(s, s', t, g, ticks, low); }
  }

  lemma OwnFlipsKeepRequests(s: State, s': State, t: Tid, kind: Kind, applied: nat, cur: Control)
    requires Inv(s) && RequestsOk(s) && OwnFlips(s, s', t, kind, applied, cur)
    ensures RequestsOk(s') && Leaves(s, s', t)
  {
    assert ThreadOk(s, t) && ActOk(s, t);
    OthersOk(s, s', t);
  }

  lemma OwnArmsKeepRequests(s: State, s': State, t: Tid, kind: Kind, applied: nat, counter: nat, has: bool, armed: bool)
    requires Inv(s) && RequestsOk(s) && (OwnArms(s, s', t, kind, applied, counter) || OwnNotes(s, s', t, kind, applied, counter, has, armed))
    ensures RequestsOk(s') && Leaves(s, s', t)
  {
    assert ThreadOk(s, t) && ActOk(s, t);
    OthersOk(s, s', t);
  }

  lemma OwnDrainsKeepRequests(s: State, s': State, t: Tid, kind: Kind, applied: nat, cur: Control)
    requires Inv(s) && RequestsOk(s) && (OwnDrains(s, s', t, kind, applied, cur) || OwnReleases(s, s', t, kind, applied, cur))
    ensures RequestsOk(s') && Leaves(s, s', t)
  {
    assert ThreadOk(s, t) && ActOk(s, t);
    OthersOk(s, s', t);
  }

  lemma OwnCountsKeepRequests(s: State, s': State, t: Tid, kind: Kind, applied: nat, cur: Control, pending: nat, n: nat)
    requires Inv(s) && RequestsOk(s) && OwnCounts(s, s', t, kind, applied, cur, pending, n)
    ensures RequestsOk(s') && Leaves(s, s', t)
  {
    assert ThreadOk(s, t) && ActOk(s, t);
    OthersOk(s, s', t);
  }

  lemma OwnMovesKeepRequests(s: State, s': State, t: Tid, n: nat, has: bool, armed: bool)
    requires Inv(s) && RequestsOk(s) && OwnMoves(s, s', t, n, has, armed)
    ensures RequestsOk(s') && Leaves(s, s', t)
  {
    match s.acts[t]
    case Own(kind, applied, cur) =>
      if OwnFlips(s, s', t, kind, applied, cur) { OwnFlipsKeepRequests(s, s', t, kind, applied, cur); }
      else { OwnDrainsKeepRequests(s, s', t, kind, applied, cur); }
    case OwnArm(kind, applied, counter) => OwnArmsKeepRequests(s, s', t, kind, applied, counter, has, armed);
    case OwnNote(kind, applied, counter) => OwnArmsKeepRequests(s, s', t, kind, applied, counter, has, armed);
    case OwnCount(kind, applied, cur, pending) => OwnCountsKeepRequests(s, s', t, kind, applied, cur, pending, n);
  }

  lemma PubMovesKeepRequests(s: State, s': State, t: Tid, q: Request, low: nat, seen: Control)
    requires Inv(s) && RequestsOk(s) && PubMoves(s, s', t, q, low, seen)
    ensures RequestsOk(s') && Leaves(s, s', t)
  {
    if PubSwaps(s, s', t, q, seen) { PubSwapsKeepRequests(s, s', t, q, seen); }
    else if PubTests(s, s', t, q, seen) { PubTestsKeep(s, s', t, q, seen); }
    else { PubLooksKeep(s, s', t, q, low, seen); }
  }

  // ------------------------------------------------------------------- how a call ends

  /** The request is in the word, as the next generation. */
  ghost predicate Carried(s: State, s': State, q: Request) {
    var g, counter := s.word.generation + 1, if q.counter > 0 then q.counter else 0;
    && s'.word == Control(q.period, g, counter, true) && Count(s'.counters, g) == counter && s'.applied < g
    && (q.terminal ==> s'.life == Closed(g))
  }

  /** The publication goes on, is carried out, or has to give up over what it has seen. */
  ghost predicate Goes(s: State, s': State, t: Tid)
    requires t in s.acts && t in s'.acts && Publishes(s.acts[t])
  {
    var a, a' := s.acts[t], s'.acts[t];
    || (Publishes(a') && a'.q == a.q && SeesOn(s, a, a'))
    || Carried(s, s', a.q)
    || (a.PubTest? && GivesUp(a.q, !s.life.Living?, a.seen.generation))
  }

  /** What it has in view is the word of now or what it had before. */
  ghost predicate SeesOn(s: State, a: Act, a': Act) {
    && (a'.PubTest? ==> a'.seen.generation == s.word.generation)
    && (a'.PubSwap? ==> a.PubTest? && a'.seen == a.seen)
  }

  /** The signal goes on, is accepted, or finds another generation. */
  ghost predicate Ticks(s: State, s': State, t: Tid, g: nat, ticks: nat)
    requires t in s'.acts
  {
    || Signals(s'.acts[t], g, ticks)
    || Accepted(s, s', g, ticks)
    || s.word.generation != g
  }

  ghost predicate Accepted(s: State, s': State, g: nat, ticks: nat) {
    && s'.word.generation == s.word.generation == g && s'.word.low == s.word.low + ticks
    && Count(s'.accepted, g) == Count(s.accepted, g) + ticks
  }

  lemma PubGoes(s: State, s': State, t: Tid, q: Request, low: nat, seen: Control)
    requires WordOk(s) && PubMoves(s, s', t, q, low, seen) && t in s.acts && t in s'.acts && Publishes(s.acts[t])
    ensures Goes(s, s', t)
  {
    if PubSwaps(s, s', t, q, seen) { SwapGoes(s, s', t, q, seen); }
  }

  lemma SwapGoes(s: State, s': State, t: Tid, q: Request, seen: Control)
    requires WordOk(s) && PubSwaps(s, s', t, q, seen) && t in s'.acts
    ensures Goes(s, s', t)
  {
  }

  lemma SigTicks(s: State, s': State, t: Tid, g: nat, ticks: nat, h: nat, n: nat, low: nat, seen: Control)
    requires ActOk(s, t) && SigMoves(s, s', t, h, n, low, seen) && t in s'.acts && Signals(s.acts[t], g, ticks)
    ensures Ticks(s, s', t, g, ticks)
  {
    if SigSwaps(s, s', t, h, n, seen) { SwapTicks(s, s', t, h, n, seen); }
  }

  lemma SwapTicks(s: State, s': State, t: Tid, g: nat, ticks: nat, seen: Control)
    requires ActOk(s, t) && SigSwaps(s, s', t, g, ticks, seen) && t in s'.acts
    ensures Ticks(s, s', t, g, ticks)
  {
  }

  /** One step: the invariant holds on, and every thread's call goes as it may. */
  ghost predicate Fair(s: State, s': State) {
    && RequestsOk(s') && s.word.generation <= s'.word.generation && (s'.life.Living? ==> s.life.Living?)
    && (s.life.Closed? ==> s'.life == s.life)
    && (forall t :: t in s'.acts ==> t in s.acts)
    && (forall t {:trigger Moved(s, s', t)} :: t in s.acts ==> Moved(s, s', t))
  }

  ghost predicate Moved(s: State, s': State, t: Tid)
    requires t in s.acts
  {
    && t in s'.acts && (Publishes(s.acts[t]) ==> s'.acts[t] == s.acts[t] || Goes(s, s', t))
    && (forall g: nat, ticks: nat {:trigger Signals(s.acts[t], g, ticks)} :: Signals(s.acts[t], g, ticks) ==> Ticks(s, s', t, g, ticks))
  }

  lemma NextFair(s: State, s': State)
    requires Inv(s) && RequestsOk(s) && Next(s, s')
    ensures Fair(s, s')
  {
    if PubNext(s, s') { PubNextFair(s, s'); } else if SigNext(s, s') { SigNextFair(s, s'); } else { OwnNextFair(s, s'); }
  }

  lemma PubNextFair(s: State, s': State)
    requires Inv(s) && RequestsOk(s) && PubNext(s, s')
    ensures Fair(s, s')
  {
    var t: Tid, q: Request, low: nat, seen: Control :| PubMoves(s, s', t, q, low, seen);
    PubMovesKeepRequests(s, s', t, q, low, seen);
    if Publishes(s.acts[t]) { PubGoes(s, s', t, q, low, seen); }
    NotSignalling(s, s', t, q, low, seen);
    OthersMoved(s, s', t);
  }

  lemma NotSignalling(s: State, s': State, t: Tid, q: Request, low: nat, seen: Control)
    requires PubMoves(s, s', t, q, low, seen)
    ensures t in s.acts && (Publishes(s.acts[t]) || s.acts[t] == Idle)
  {
  }

  lemma SigNextFair(s: State, s': State)
    requires Inv(s) && RequestsOk(s) && SigNext(s, s')
    ensures Fair(s, s')
  {
    var t: Tid, g: nat, n: nat, low: nat, seen: Control :| SigMoves(s, s', t, g, n, low, seen);
    SigMovesKeepRequests(s, s', t, g, n, low, seen);
    assert ActOk(s, t);
    forall h: nat, ticks: nat | Signals(s.acts[t], h, ticks) ensures Ticks(s, s', t, h, ticks) {
      SigTicks(s, s', t, h, ticks, g, n, low, seen);
    }
    NotPublishing(s, s', t, g, n, low, seen);
    OthersMoved(s, s', t);
  }

  lemma NotPublishing(s: State, s': State, t: Tid, g: nat, n: nat, low: nat, seen: Control)
    requires SigMoves(s, s', t, g, n, low, seen)
    ensures t in s.acts && !Publishes(s.acts[t])
  {
  }

  lemma OwnNextFair(s: State, s': State)
    requires Inv(s) && RequestsOk(s) && OwnNext(s, s')
    ensures Fair(s, s')
  {
    var t: Tid, n: nat, has: bool, armed: bool :| OwnMoves(s, s', t, n, has, armed);
    OwnMovesKeepRequests(s, s', t, n, has, armed);
    OthersMoved(s, s', t);
  }

  lemma OthersMoved(s: State, s': State, t: Tid)
    requires Leaves(s, s', t) && RequestsOk(s') && Moved(s, s', t)
    ensures Fair(s, s')
  {
  }

  // ------------------------------------------------------------------------- promises

  lemma {:induction false} RunRequests(run: seq<State>, i: nat)
    requires Run(run) && i < |run|
    ensures RequestsOk(run[i])
  {
    if i == 0 {
      forall t | t in run[0].acts ensures ThreadOk(run[0], t) {}
    } else {
      RunRequests(run, i - 1);
      StepFair(run, i - 1);
    }
  }

  lemma StepFair(run: seq<State>, i: nat)
    requires Run(run) && i + 1 < |run| && RequestsOk(run[i])
    ensures Fair(run[i], run[i + 1])
  {
    RunInvariant(run, i);
    assert StepAt(run, i);
    NextFair(run[i], run[i + 1]);
  }

  lemma FairAt(run: seq<State>, i: nat)
    requires Run(run) && i + 1 < |run|
    ensures Fair(run[i], run[i + 1])
  {
    RunRequests(run, i);
    StepFair(run, i);
  }

  lemma {:induction false} RunAges(run: seq<State>, i: nat, j: nat)
    requires Run(run) && i <= j < |run|
    ensures run[i].word.generation <= run[j].word.generation && (run[j].life.Living? ==> run[i].life.Living?)
    ensures run[i].life.Closed? ==> run[j].life == run[i].life
  {
    if i < j {
      RunAges(run, i, j - 1);
      FairAt(run, j - 1);
    }
  }

  /** After the terminal publication no other follows: the word keeps its generation and
      never shows a tick, and once it is at rest the timer is stopped. */
  lemma TerminalIsLast(run: seq<State>, i: nat, j: nat)
    requires Run(run) && i <= j < |run| && run[i].life.Closed?
    ensures run[j].word.generation == run[i].life.generation && run[j].word.low == 0
    ensures !run[j].word.owner ==> !run[j].timer.armed
  {
    RunAges(run, i, j);
    RunRequests(run, j);
    RunInvariant(run, j);
  }

  /** The step at which a signal is through. */
  lemma {:induction false} SignalEnds(run: seq<State>, i: nat, j: nat, t: Tid, g: nat, ticks: nat) returns (m: nat)
    requires Run(run) && i < j < |run| && t in run[i].acts && Signals(run[i].acts[t], g, ticks)
    requires t in run[j].acts && !Signals(run[j].acts[t], g, ticks)
    ensures i <= m < j && (Accepted(run[m], run[m + 1], g, ticks) || run[m].word.generation != g)
    decreases j - i
  {
    m := i;
    FairAt(run, i);
    assert Moved(run[i], run[i + 1], t);
    if Signals(run[i + 1].acts[t], g, ticks) { m := SignalEnds(run, i + 1, j, t, g, ticks); }
  }

  /** No tick is dropped: a signal of an armed generation that is still in the word when
      the signalling thread is through has added its ticks. */
  lemma SignalLands(run: seq<State>, i: nat, j: nat, t: Tid, g: nat, ticks: nat)
    requires Run(run) && i < j < |run| && t in run[i].acts && Signals(run[i].acts[t], g, ticks)
    requires t in run[j].acts && !Signals(run[j].acts[t], g, ticks) && run[j].word.generation == g
    ensures exists m: nat :: i <= m < j && Accepted(run[m], run[m + 1], g, ticks)
  {
    var m := SignalEnds(run, i, j, t, g, ticks);
    RunInvariant(run, i);
    assert ActOk(run[i], t) && GenerationOk(run[i], g);
    RunAges(run, i, m);
    RunAges(run, m, j);
  }

  /** What a publishing thread has in view was the word's generation since `i`. */
  ghost predicate SawSince(run: seq<State>, i: nat, j: nat, t: Tid, q: Request)
    requires i <= j < |run|
  {
    && t in run[j].acts && Publishes(run[j].acts[t]) && run[j].acts[t].q == q
    && (run[j].acts[t].PubTest? || run[j].acts[t].PubSwap? ==>
          exists m: nat :: i <= m <= j && run[m].word.generation == run[j].acts[t].seen.generation)
  }

  /** It was carried out, the event died, or another generation than the required one was
      in the word meanwhile. */
  ghost predicate PublicationEnds(run: seq<State>, i: nat, j: nat, q: Request)
    requires i <= j < |run|
  {
    || (exists m: nat :: i <= m < j && Carried(run[m], run[m + 1], q))
    || (!q.terminal && !run[j].life.Living?)
    || (q.required != 0 && exists m: nat :: i <= m <= j && run[m].word.generation != q.required)
  }

  lemma SeesLater(run: seq<State>, i: nat, j: nat, t: Tid, q: Request)
    requires Run(run) && i <= j && j + 1 < |run| && SawSince(run, i, j, t, q)
    ensures SawSince(run, i, j + 1, t, q) || PublicationEnds(run, i, j + 1, q)
  {
    FairAt(run, j);
    assert Moved(run[j], run[j + 1], t);
    var a, a' := run[j].acts[t], run[j + 1].acts[t];
    if Goes(run[j], run[j + 1], t) && Publishes(a') && a'.q == q && SeesOn(run[j], a, a') {
      assert a'.PubTest? ==> run[j].word.generation == a'.seen.generation;
    }
  }

  lemma EndsLater(run: seq<State>, i: nat, j: nat, k: nat, q: Request)
    requires Run(run) && i <= j <= k < |run| && PublicationEnds(run, i, j, q)
    ensures PublicationEnds(run, i, k, q)
  {
    RunAges(run, j, k);
  }

  lemma {:induction false} PublishesUntil(run: seq<State>, i: nat, j: nat, t: Tid, q: Request)
    requires Run(run) && i <= j < |run| && t in run[i].acts && run[i].acts[t] == PubLow(q)
    ensures SawSince(run, i, j, t, q) || PublicationEnds(run, i, j, q)
  {
    if i < j {
      PublishesUntil(run, i, j - 1, t, q);
      if SawSince(run, i, j - 1, t, q) { SeesLater(run, i, j - 1, t, q); } else { EndsLater(run, i, j - 1, j, q); }
    }
  }

  /** No publication is dropped: when the publishing thread is through, its request was put
      into the word, or the event died, or the generation that it required was gone. */
  lemma PublicationLands(run: seq<State>, i: nat, j: nat, t: Tid, q: Request)
    requires Run(run) && i <= j < |run| && t in run[i].acts && run[i].acts[t] == PubLow(q)
    requires t in run[j].acts && !Publishes(run[j].acts[t])
    ensures PublicationEnds(run, i, j, q)
  {
    PublishesUntil(run, i, j, t, q);
  }

  /** A deletion that is through has closed the event. */
  lemma DeletionCloses(run: seq<State>, i: nat, j: nat, t: Tid)
    requires Run(run) && i + 1 <= j < |run| && Deletes(run[i], run[i + 1], t) && t in run[j].acts && !Publishes(run[j].acts[t])
    ensures run[j].life.Closed?
  {
    PublicationLands(run, i + 1, j, t, STOP);
    var m: nat :| i + 1 <= m < j && Carried(run[m], run[m + 1], STOP);
    RunAges(run, m + 1, j);
  }
}
