/** Where the ticks of an event's timer go.  Ticks that an owner drains are handed to the
    backend if the owner came with a signal and the timer is armed, and are discarded if it
    came with a publication; and a schedule delivers exactly what the backend makes of
    them, up to its counter. */
module EventTicks {
  import opened Wrappers
  import opened EventTimer

  /** Drained by the owner and not handed on yet. */
  function InFlight(s: State, g: nat): nat {
    if s.owner.Some? && s.owner.value in s.acts && s.acts[s.owner.value].OwnCount? && s.acts[s.owner.value].applied == g
    then s.acts[s.owner.value].pending else 0
  }

  function Min(a: nat, b: nat): nat { if a < b then a else b }

  /** What a schedule delivers of the ticks that the backend reports. */
  function Delivery(counter: nat, answered: nat): nat { if counter == 0 then answered else Min(counter, answered) }

  ghost predicate TallyOk(s: State, g: nat) {
    && Count(s.drained, g) == Count(s.tally.signalled, g) + Count(s.tally.discarded, g)
    && Count(s.tally.signalled, g) == Count(s.tally.handed, g) + Count(s.tally.late, g) + InFlight(s, g)
    && Count(s.delivered, g) == Delivery(Count(s.counters, g), Count(s.tally.answered, g))
    && (s.applied < g ==> Count(s.tally.answered, g) == 0)
  }

  ghost predicate TalliesOk(s: State) {
    && (forall g: nat {:trigger TallyOk(s, g)} :: TallyOk(s, g))
    && (s.timer.armed && Count(s.counters, s.applied) == 0 ==> s.timer.remaining == 0)
  }

  // --------------------------------------------------------------------- one step

  /** Nothing is drained, handed on or delivered. */
  ghost predicate Still(s: State, s': State) {
    && s'.tally == s.tally && s'.drained == s.drained && s'.delivered == s.delivered && s'.counters == s.counters
    && s'.applied == s.applied && s'.timer == s.timer
    && forall g: nat {:trigger InFlight(s', g)} :: InFlight(s', g) == InFlight(s, g)
  }

  lemma StillOk(s: State, s': State)
    requires TalliesOk(s) && Still(s, s')
    ensures TalliesOk(s')
  {
    forall g: nat ensures TallyOk(s', g) { assert TallyOk(s, g); }
  }

  /** A step of a thread that does not own the word, before and after. */
  lemma OutsideIsStill(s: State, s': State, t: Tid)
    requires Inv(s) && t in s.acts && t in s'.acts
    requires s' == s.(acts := s.acts[t := s'.acts[t]], life := s'.life)
    requires !Owns(s.acts[t]) && !Owns(s'.acts[t])
    ensures Still(s, s')
  {
    assert ActOk(s, t);
  }

  lemma PubEdges(s: State, s': State, t: Tid, q: Request, seen: Control)
    requires Inv(s) && (PubBegin(s, s', t, q) || Deletes(s, s', t) || PubTests(s, s', t, q, seen))
    ensures Still(s, s')
  {
    OutsideIsStill(s, s', t);
  }

  lemma PubLooks(s: State, s': State, t: Tid, q: Request, low: nat)
    requires Inv(s) && (PubLoadLow(s, s', t, q) || PubLoadHigh(s, s', t, q, low))
    ensures Still(s, s')
  {
    OutsideIsStill(s, s', t);
  }

  lemma PubTallies(s: State, s': State, t: Tid, q: Request, seen: Control)
    requires Inv(s) && TalliesOk(s) && PubSwaps(s, s', t, q, seen)
    ensures TalliesOk(s')
  {
    if s.word != seen {
      OutsideIsStill(s, s', t);
      StillOk(s, s');
    } else {
      forall g: nat ensures TallyOk(s', g) { PubTally(s, s', t, q, seen, g); }
    }
  }

  lemma PubTally(s: State, s': State, t: Tid, q: Request, seen: Control, g: nat)
    requires Inv(s) && TalliesOk(s) && PubSwaps(s, s', t, q, seen) && s.word == seen
    ensures TallyOk(s', g)
  {
    assert ActOk(s, t) && TallyOk(s, g) && GenerationOk(s, g);
  }

  lemma SigLooks(s: State, s': State, t: Tid, g: nat, ticks: nat, low: nat)
    requires Inv(s) && (SigBegin(s, s', t, g, ticks) || SigLoadLow(s, s', t, g, ticks) || SigLoadHigh(s, s', t, g, ticks, low))
    ensures Still(s, s')
  {
    OutsideIsStill(s, s', t);
  }

  lemma SigLands(s: State, s': State, t: Tid, g: nat, ticks: nat, seen: Control)
    requires Inv(s) && SigSwaps(s, s', t, g, ticks, seen)
    ensures Still(s, s')
  {
    if s.word != seen { OutsideIsStill(s, s', t); } else { assert ActOk(s, t); }
  }

  lemma FlipTallies(s: State, s': State, t: Tid, kind: Kind, applied: nat, cur: Control)
    requires Inv(s) && TalliesOk(s) && OwnFlips(s, s', t, kind, applied, cur)
    ensures TalliesOk(s')
  {
    assert ActOk(s, t);
    forall g: nat ensures TallyOk(s', g) {
      assert TallyOk(s, g);
      FlipTally(s, s', t, kind, applied, cur, g);
    }
  }

  lemma FlipTally(s: State, s': State, t: Tid, kind: Kind, applied: nat, cur: Control, g: nat)
    requires WordOk(s) && ActOk(s, t) && TallyOk(s, g) && OwnFlips(s, s', t, kind, applied, cur)
    ensures TallyOk(s', g)
  {
  }

  lemma ArmTallies(s: State, s': State, t: Tid, kind: Kind, applied: nat, counter: nat, has: bool, armed: bool)
    requires Inv(s) && TalliesOk(s) && (OwnArms(s, s', t, kind, applied, counter) || OwnNotes(s, s', t, kind, applied, counter, has, armed))
    ensures TalliesOk(s')
  {
    assert ActOk(s, t);
    forall g: nat ensures TallyOk(s', g) { assert TallyOk(s, g); }
  }

  lemma ReleaseTallies(s: State, s': State, t: Tid, kind: Kind, applied: nat, cur: Control)
    requires Inv(s) && OwnReleases(s, s', t, kind, applied, cur)
    ensures Still(s, s')
  {
    assert ActOk(s, t);
  }

  lemma DrainTallies(s: State, s': State, t: Tid, kind: Kind, applied: nat, cur: Control)
    requires Inv(s) && TalliesOk(s) && OwnDrains(s, s', t, kind, applied, cur)
    ensures TalliesOk(s')
  {
    if s.word != cur {
      LostDrain(s, s', t, kind, applied, cur);
      StillOk(s, s');
    } else {
      forall g: nat ensures TallyOk(s', g) {
        if kind.Kernel? { SignalDrain(s, s', t, applied, cur, g); } else { UserDrain(s, s', t, applied, cur, g); }
      }
    }
  }

  lemma LostDrain(s: State, s': State, t: Tid, kind: Kind, applied: nat, cur: Control)
    requires Inv(s) && OwnDrains(s, s', t, kind, applied, cur) && s.word != cur
    ensures Still(s, s')
  {
    assert ActOk(s, t);
  }

  lemma SignalDrain(s: State, s': State, t: Tid, applied: nat, cur: Control, g: nat)
    requires Inv(s) && TalliesOk(s) && OwnDrains(s, s', t, Kernel, applied, cur) && s.word == cur
    ensures TallyOk(s', g)
  {
    assert ActOk(s, t) && TallyOk(s, g);
  }

  lemma UserDrain(s: State, s': State, t: Tid, applied: nat, cur: Control, g: nat)
    requires Inv(s) && TalliesOk(s) && OwnDrains(s, s', t, User, applied, cur) && s.word == cur
    ensures TallyOk(s', g)
  {
    assert ActOk(s, t) && TallyOk(s, g);
  }

  lemma LateTallies(s: State, s': State, t: Tid, kind: Kind, applied: nat, cur: Control, pending: nat, ticks: nat)
    requires Inv(s) && TalliesOk(s) && OwnCounts(s, s', t, kind, applied, cur, pending, ticks) && (!s.timer.present || !s.timer.armed)
    ensures TalliesOk(s')
  {
    assert ActOk(s, t);
    forall g: nat ensures TallyOk(s', g) { assert TallyOk(s, g); }
  }

  lemma CountTallies(s: State, s': State, t: Tid, kind: Kind, applied: nat, cur: Control, pending: nat, ticks: nat)
    requires Inv(s) && TalliesOk(s) && OwnCounts(s, s', t, kind, applied, cur, pending, ticks) && s.timer.present && s.timer.armed
    ensures TalliesOk(s')
  {
    assert ActOk(s, t);
    forall g: nat ensures TallyOk(s', g) { assert TallyOk(s, g); }
  }

  lemma OwnTallies(s: State, s': State, t: Tid, n: nat, has: bool, armed: bool)
    requires Inv(s) && TalliesOk(s) && OwnMoves(s, s', t, n, has, armed)
    ensures TalliesOk(s')
  {
    match s.acts[t]
    case Own(kind, applied, cur) =>
      if OwnFlips(s, s', t, kind, applied, cur) { FlipTallies(s, s', t, kind, applied, cur); }
      else if OwnDrains(s, s', t, kind, applied, cur) { DrainTallies(s, s', t, kind, applied, cur); }
      else { ReleaseTallies(s, s', t, kind, applied, cur); StillOk(s, s'); }
    case OwnArm(kind, applied, counter) => ArmTallies(s, s', t, kind, applied, counter, has, armed);
    case OwnNote(kind, applied, counter) => ArmTallies(s, s', t, kind, applied, counter, has, armed);
    case OwnCount(kind, applied, cur, pending) =>
      if s.timer.present && s.timer.armed { CountTallies(s, s', t, kind, applied, cur, pending, n); }
      else { LateTallies(s, s', t, kind, applied, cur, pending, n); }
  }

  lemma PubNextTallies(s: State, s': State)
    requires Inv(s) && TalliesOk(s) && PubNext(s, s')
    ensures TalliesOk(s')
  {
    var t: Tid, q: Request, low: nat, seen: Control :| PubMoves(s, s', t, q, low, seen);
    if PubSwaps(s, s', t, q, seen) {
      PubTallies(s, s', t, q, seen);
    } else {
      if PubLoadLow(s, s', t, q) || PubLoadHigh(s, s', t, q, low) { PubLooks(s, s', t, q, low); } else { PubEdges(s, s', t, q, seen); }
      StillOk(s, s');
    }
  }

  lemma SigNextTallies(s: State, s': State)
    requires Inv(s) && TalliesOk(s) && SigNext(s, s')
    ensures TalliesOk(s')
  {
    var t: Tid, g: nat, ticks: nat, low: nat, seen: Control :| SigMoves(s, s', t, g, ticks, low, seen);
    if SigSwaps(s, s', t, g, ticks, seen) { SigLands(s, s', t, g, ticks, seen); } else { SigLooks(s, s', t, g, ticks, low); }
    StillOk(s, s');
  }

  lemma OwnNextTallies(s: State, s': State)
    requires Inv(s) && TalliesOk(s) && OwnNext(s, s')
    ensures TalliesOk(s')
  {
    var t: Tid, n: nat, has: bool, armed: bool :| OwnMoves(s, s', t, n, has, armed);
    OwnTallies(s, s', t, n, has, armed);
  }

  lemma NextTallies(s: State, s': State)
    requires Inv(s) && TalliesOk(s) && Next(s, s')
    ensures TalliesOk(s')
  {
    if PubNext(s, s') { PubNextTallies(s, s'); } else if SigNext(s, s') { SigNextTallies(s, s'); } else { OwnNextTallies(s, s'); }
  }

  // --------------------------------------------------------------------- promises

  lemma {:induction false} RunTallies(run: seq<State>, i: nat)
    requires Run(run) && i < |run|
    ensures TalliesOk(run[i])
  {
    if i == 0 {
      forall g: nat ensures TallyOk(run[0], g) {}
    } else {
      RunTallies(run, i - 1);
      RunInvariant(run, i - 1);
      assert StepAt(run, i - 1);
      NextTallies(run[i - 1], run[i]);
    }
  }

  /** Every drained tick was drained by an owner that came with a signal or by one that
      came with a publication, and when nobody owns the word all of the former have been
      handed to the backend or have found no armed timer. */
  lemma TicksAccountedFor(run: seq<State>, i: nat, g: nat)
    requires Run(run) && i < |run|
    ensures var s := run[i];
      && Count(s.drained, g) == Count(s.tally.signalled, g) + Count(s.tally.discarded, g)
      && (!s.word.owner ==> Count(s.tally.signalled, g) == Count(s.tally.handed, g) + Count(s.tally.late, g))
  {
    RunInvariant(run, i);
    RunTallies(run, i);
    assert TallyOk(run[i], g);
  }

  /** A schedule delivers every tick that the backend reports, a finite one up to its
      counter. */
  lemma DeliversExactly(run: seq<State>, i: nat, g: nat)
    requires Run(run) && i < |run|
    ensures var s := run[i];
      Count(s.delivered, g) == if Count(s.counters, g) == 0 then Count(s.tally.answered, g)
                               else Min(Count(s.counters, g), Count(s.tally.answered, g))
  {
    RunTallies(run, i);
    assert TallyOk(run[i], g);
  }

  // ------------------------------------------------------------------- who does what

  /** Ticks are delivered, and handed to the backend, by an owner that came with a signal,
      while the timer is armed; they are late only while it is not. */
  ghost predicate Handles(s: State, s': State) {
    && (s'.delivered != s.delivered || s'.tally.handed != s.tally.handed ==>
          s.timer.armed && s.owner.Some? && s.owner.value in s.acts && Owns(s.acts[s.owner.value]) && s.acts[s.owner.value].kind.Kernel?)
    && (s'.tally.late != s.tally.late ==> !s.timer.present || !s.timer.armed)
  }

  /** The owner stays of its kind, and no other thread moves. */
  ghost predicate OwnerGoesOn(s: State, s': State, t: Tid, kind: Kind) {
    && OwnsAs(s, t, kind) && t in s'.acts && (Owns(s'.acts[t]) ==> s'.acts[t].kind == kind)
    && forall u :: u in s'.acts && u != t ==> u in s.acts && s'.acts[u] == s.acts[u]
  }

  lemma CountHandles(s: State, s': State, t: Tid, kind: Kind, applied: nat, cur: Control, pending: nat, ticks: nat)
    requires Inv(s) && OwnCounts(s, s', t, kind, applied, cur, pending, ticks)
    ensures Handles(s, s') && OwnerGoesOn(s, s', t, kind)
  {
    assert ActOk(s, t);
  }

  lemma FlipHandles(s: State, s': State, t: Tid, kind: Kind, applied: nat, cur: Control)
    requires OwnFlips(s, s', t, kind, applied, cur)
    ensures Handles(s, s') && OwnerGoesOn(s, s', t, kind)
  {
  }

  lemma ArmHandles(s: State, s': State, t: Tid, kind: Kind, applied: nat, counter: nat, has: bool, armed: bool)
    requires OwnArms(s, s', t, kind, applied, counter) || OwnNotes(s, s', t, kind, applied, counter, has, armed)
    ensures Handles(s, s') && OwnerGoesOn(s, s', t, kind)
  {
  }

  lemma DrainHandles(s: State, s': State, t: Tid, kind: Kind, applied: nat, cur: Control)
    requires OwnDrains(s, s', t, kind, applied, cur)
    ensures Handles(s, s') && OwnerGoesOn(s, s', t, kind)
  {
  }

  lemma ReleaseHandles(s: State, s': State, t: Tid, kind: Kind, applied: nat, cur: Control)
    requires OwnReleases(s, s', t, kind, applied, cur)
    ensures Handles(s, s') && OwnerGoesOn(s, s', t, kind)
  {
  }

  lemma OwnHandles(s: State, s': State, t: Tid, n: nat, has: bool, armed: bool)
    requires Inv(s) && OwnMoves(s, s', t, n, has, armed)
    ensures Handles(s, s') && OwnerGoesOn(s, s', t, s.acts[t].kind)
  {
    match s.acts[t]
    case Own(kind, applied, cur) =>
      if OwnFlips(s, s', t, kind, applied, cur) { FlipHandles(s, s', t, kind, applied, cur); }
      else if OwnDrains(s, s', t, kind, applied, cur) { DrainHandles(s, s', t, kind, applied, cur); }
      else { ReleaseHandles(s, s', t, kind, applied, cur); }
    case OwnArm(kind, applied, counter) => ArmHandles(s, s', t, kind, applied, counter, has, armed);
    case OwnNote(kind, applied, counter) => ArmHandles(s, s', t, kind, applied, counter, has, armed);
    case OwnCount(kind, applied, cur, pending) => CountHandles(s, s', t, kind, applied, cur, pending, n);
  }

  lemma PubHandles(s: State, s': State, t: Tid, q: Request, low: nat, seen: Control)
    requires PubMoves(s, s', t, q, low, seen)
    ensures s'.delivered == s.delivered && s'.tally == s.tally
  {
    if PubSwaps(s, s', t, q, seen) { SwapHandles(s, s', t, q, seen); }
  }

  lemma SwapHandles(s: State, s': State, t: Tid, q: Request, seen: Control)
    requires PubSwaps(s, s', t, q, seen)
    ensures s'.delivered == s.delivered && s'.tally == s.tally
  {
  }

  lemma SigHandles(s: State, s': State, t: Tid, g: nat, ticks: nat, low: nat, seen: Control)
    requires SigMoves(s, s', t, g, ticks, low, seen)
    ensures s'.delivered == s.delivered && s'.tally == s.tally
  {
  }

  lemma NextHandles(s: State, s': State)
    requires Inv(s) && Next(s, s')
    ensures Handles(s, s')
  {
    if PubNext(s, s') {
      var t: Tid, q: Request, low: nat, seen: Control :| PubMoves(s, s', t, q, low, seen);
      PubHandles(s, s', t, q, low, seen);
    } else if SigNext(s, s') {
      var t: Tid, g: nat, ticks: nat, low: nat, seen: Control :| SigMoves(s, s', t, g, ticks, low, seen);
      SigHandles(s, s', t, g, ticks, low, seen);
    } else {
      var t: Tid, n: nat, has: bool, armed: bool :| OwnMoves(s, s', t, n, has, armed);
      OwnHandles(s, s', t, n, has, armed);
    }
  }

  /** No step of an owner that came with a publication delivers. */
  lemma OnlySignalsDeliver(run: seq<State>, i: nat)
    requires Run(run) && i + 1 < |run|
    ensures Handles(run[i], run[i + 1])
  {
    RunInvariant(run, i);
    assert StepAt(run, i);
    NextHandles(run[i], run[i + 1]);
  }

  ghost predicate OwnsAs(s: State, t: Tid, kind: Kind) { t in s.acts && Owns(s.acts[t]) && s.acts[t].kind == kind }

  /** How the word came to the thread: with ticks that a signal added, or with a request. */
  ghost predicate Comes(s: State, s': State, kind: Kind) {
    match kind
    case Kernel =>
      s'.word.generation == s.word.generation && s'.word.low > s.word.low
      && Count(s'.accepted, s.word.generation) - Count(s.accepted, s.word.generation) == s'.word.low - s.word.low
    case User => s'.word.generation == s.word.generation + 1
  }

  lemma SigComes(s: State, s': State, t: Tid, g: nat, ticks: nat, low: nat, seen: Control, u: Tid, k: Kind)
    requires Inv(s) && SigMoves(s, s', t, g, ticks, low, seen) && OwnsAs(s', u, k)
    ensures OwnsAs(s, u, k) || (!(u in s.acts && Owns(s.acts[u])) && Comes(s, s', k))
  {
    if SigSwaps(s, s', t, g, ticks, seen) {
      LandComes(s, s', t, g, ticks, seen, u, k);
    } else {
      LookComes(s, s', t, g, ticks, low, u, k);
    }
  }

  lemma LandComes(s: State, s': State, t: Tid, g: nat, ticks: nat, seen: Control, u: Tid, k: Kind)
    requires Inv(s) && SigSwaps(s, s', t, g, ticks, seen) && OwnsAs(s', u, k)
    ensures OwnsAs(s, u, k) || (!(u in s.acts && Owns(s.acts[u])) && Comes(s, s', k))
  {
    assert ActOk(s, t);
  }

  lemma LookComes(s: State, s': State, t: Tid, g: nat, ticks: nat, low: nat, u: Tid, k: Kind)
    requires SigBegin(s, s', t, g, ticks) || SigLoadLow(s, s', t, g, ticks) || SigLoadHigh(s, s', t, g, ticks, low)
    requires OwnsAs(s', u, k)
    ensures OwnsAs(s, u, k)
  {
  }

  lemma PubComes(s: State, s': State, t: Tid, q: Request, low: nat, seen: Control, u: Tid, k: Kind)
    requires PubMoves(s, s', t, q, low, seen) && OwnsAs(s', u, k)
    ensures OwnsAs(s, u, k) || (!(u in s.acts && Owns(s.acts[u])) && Comes(s, s', k))
  {
    if PubSwaps(s, s', t, q, seen) {
      RequestComes(s, s', t, q, seen, u, k);
    } else if PubLoadLow(s, s', t, q) || PubLoadHigh(s, s', t, q, low) {
      LoadComes(s, s', t, q, low, u, k);
    } else {
      EdgeComes(s, s', t, q, seen, u, k);
    }
  }

  lemma RequestComes(s: State, s': State, t: Tid, q: Request, seen: Control, u: Tid, k: Kind)
    requires PubSwaps(s, s', t, q, seen) && OwnsAs(s', u, k)
    ensures OwnsAs(s, u, k) || (!(u in s.acts && Owns(s.acts[u])) && Comes(s, s', k))
  {
  }

  lemma EdgeComes(s: State, s': State, t: Tid, q: Request, seen: Control, u: Tid, k: Kind)
    requires (PubBegin(s, s', t, q) || Deletes(s, s', t) || PubTests(s, s', t, q, seen)) && OwnsAs(s', u, k)
    ensures OwnsAs(s, u, k)
  {
  }

  lemma LoadComes(s: State, s': State, t: Tid, q: Request, low: nat, u: Tid, k: Kind)
    requires (PubLoadLow(s, s', t, q) || PubLoadHigh(s, s', t, q, low)) && OwnsAs(s', u, k)
    ensures OwnsAs(s, u, k)
  {
  }

  lemma NextComes(s: State, s': State, u: Tid, k: Kind)
    requires Inv(s) && Next(s, s') && OwnsAs(s', u, k)
    ensures OwnsAs(s, u, k) || (!(u in s.acts && Owns(s.acts[u])) && Comes(s, s', k))
  {
    if PubNext(s, s') {
      var t: Tid, q: Request, low: nat, seen: Control :| PubMoves(s, s', t, q, low, seen);
      PubComes(s, s', t, q, low, seen, u, k);
    } else if SigNext(s, s') {
      var t: Tid, g: nat, ticks: nat, low: nat, seen: Control :| SigMoves(s, s', t, g, ticks, low, seen);
      SigComes(s, s', t, g, ticks, low, seen, u, k);
    } else {
      var t: Tid, n: nat, has: bool, armed: bool :| OwnMoves(s, s', t, n, has, armed);
      OwnHandles(s, s', t, n, has, armed);
    }
  }

  lemma StepComes(run: seq<State>, i: nat, t: Tid, kind: Kind)
    requires Run(run) && i < |run| && OwnsAs(run[i], t, kind)
    ensures 0 < i && (OwnsAs(run[i - 1], t, kind) || Comes(run[i - 1], run[i], kind))
  {
    RunInvariant(run, i - 1);
    assert StepAt(run, i - 1);
    NextComes(run[i - 1], run[i], t, kind);
  }

  /** An owner is of the kind of the step that gave it the word: a signal that landed, or
      a publication. */
  lemma {:induction false} OwnershipBegan(run: seq<State>, i: nat, t: Tid, kind: Kind) returns (m: nat)
    requires Run(run) && i < |run| && OwnsAs(run[i], t, kind)
    ensures m < i && Comes(run[m], run[m + 1], kind)
    ensures forall x: nat {:trigger OwnsAs(run[x], t, kind)} :: m < x <= i ==> OwnsAs(run[x], t, kind)
  {
    StepComes(run, i, t, kind);
    if OwnsAs(run[i - 1], t, kind) { m := OwnershipBegan(run, i - 1, t, kind); } else { m := i - 1; }
  }
}
