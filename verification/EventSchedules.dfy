/** What an owner of the timer's word does for a schedule: the request in force is armed or
    stopped as it asked when the word is free again, an owner that is left alone frees the
    word, and a finite schedule can deliver all its ticks. */
module EventSchedules {
  import opened Wrappers
  import opened EventTimer
  import opened EventRequests

  predicate ArmsFor(a: Act, g: nat) { a.OwnArm? && a.applied == g }
  predicate NotesFor(a: Act, g: nat) { a.OwnNote? && a.applied == g }

  ghost predicate OwnerDoes(s: State, p: (Act, nat) -> bool, g: nat) {
    s.owner.Some? && s.owner.value in s.acts && p(s.acts[s.owner.value], g)
  }

  // ------------------------------------------------------------------ armed as it asked

  /** Generation `g` asked for period `p`: the request waits in the word, or it is in force
      and the timer was armed for it or is about to be, or stopped. */
  ghost predicate Asked(s: State, g: nat, p: nat) {
    && s.word.generation == g
    && if s.applied < g then s.word.low == p
       else if p > 0 then s.applied == g && (g in s.armedFor || OwnerDoes(s, ArmsFor, g))
       else s.applied == g && g !in s.armedFor && !s.timer.armed && !OwnerDoes(s, ArmsFor, g) && !OwnerDoes(s, NotesFor, g)
  }

  lemma OutsideAsked(s: State, s': State, t: Tid, g: nat, p: nat)
    requires Asked(s, g, p) && t in s.acts && !Owns(s.acts[t]) && s.owner != Some(t)
    requires t in s'.acts && s'.acts == s.acts[t := s'.acts[t]] && s'.owner == s.owner
    requires s'.word == s.word && s'.applied == s.applied && s'.armedFor == s.armedFor && s'.timer == s.timer
    ensures Asked(s', g, p)
  {
  }

  lemma PubAsked(s: State, s': State, t: Tid, q: Request, low: nat, seen: Control, g: nat, p: nat)
    requires Inv(s) && Asked(s, g, p) && PubMoves(s, s', t, q, low, seen) && s'.word.generation == g
    ensures Asked(s', g, p)
  {
    assert ActOk(s, t);
    if PubSwaps(s, s', t, q, seen) { PubLosesAsked(s, s', t, q, seen, g, p); } else { PubLooksAsked(s, s', t, q, low, seen, g, p); }
  }

  lemma PubLosesAsked(s: State, s': State, t: Tid, q: Request, seen: Control, g: nat, p: nat)
    requires ActOk(s, t) && Asked(s, g, p) && PubSwaps(s, s', t, q, seen) && s'.word.generation == g
    ensures Asked(s', g, p)
  {
    OutsideAsked(s, s', t, g, p);
  }

  lemma PubLooksAsked(s: State, s': State, t: Tid, q: Request, low: nat, seen: Control, g: nat, p: nat)
    requires ActOk(s, t) && Asked(s, g, p)
    requires || PubBegin(s, s', t, q) || Deletes(s, s', t) || PubLoadLow(s, s', t, q) || PubLoadHigh(s, s', t, q, low)
             || PubTests(s, s', t, q, seen)
    ensures Asked(s', g, p)
  {
    OutsideAsked(s, s', t, g, p);
  }

  lemma SigAsked(s: State, s': State, t: Tid, h: nat, ticks: nat, low: nat, seen: Control, g: nat, p: nat)
    requires Inv(s) && Asked(s, g, p) && SigMoves(s, s', t, h, ticks, low, seen)
    ensures Asked(s', g, p)
  {
    if SigSwaps(s, s', t, h, ticks, seen) { SigSwapAsked(s, s', t, h, ticks, seen, g, p); } else { SigLooksAsked(s, s', t, h, ticks, low, g, p); }
  }

  lemma SigLooksAsked(s: State, s': State, t: Tid, h: nat, ticks: nat, low: nat, g: nat, p: nat)
    requires Inv(s) && Asked(s, g, p)
    requires SigBegin(s, s', t, h, ticks) || SigLoadLow(s, s', t, h, ticks) || SigLoadHigh(s, s', t, h, ticks, low)
    ensures Asked(s', g, p)
  {
    assert ActOk(s, t);
    OutsideAsked(s, s', t, g, p);
  }

  lemma SigSwapAsked(s: State, s': State, t: Tid, h: nat, ticks: nat, seen: Control, g: nat, p: nat)
    requires Inv(s) && Asked(s, g, p) && SigSwaps(s, s', t, h, ticks, seen)
    ensures Asked(s', g, p)
  {
    assert ActOk(s, t);
    if s.word != seen { OutsideAsked(s, s', t, g, p); } else { SignalFindsActive(s, t, h, ticks, seen); }
  }

  lemma FlipAsked(s: State, s': State, t: Tid, kind: Kind, applied: nat, cur: Control, g: nat, p: nat)
    requires Inv(s) && Asked(s, g, p) && OwnFlips(s, s', t, kind, applied, cur)
    ensures Asked(s', g, p)
  {
    assert ActOk(s, t) && GenerationOk(s, g);
  }

  lemma ArmAsked(s: State, s': State, t: Tid, kind: Kind, applied: nat, counter: nat, has: bool, armed: bool, g: nat, p: nat)
    requires Inv(s) && Asked(s, g, p) && (OwnArms(s, s', t, kind, applied, counter) || OwnNotes(s, s', t, kind, applied, counter, has, armed))
    ensures Asked(s', g, p)
  {
    assert ActOk(s, t);
  }

  lemma DrainAsked(s: State, s': State, t: Tid, kind: Kind, applied: nat, cur: Control, g: nat, p: nat)
    requires Inv(s) && Asked(s, g, p) && (OwnDrains(s, s', t, kind, applied, cur) || OwnReleases(s, s', t, kind, applied, cur))
    ensures Asked(s', g, p)
  {
    assert ActOk(s, t);
  }

  lemma CountAsked(s: State, s': State, t: Tid, kind: Kind, applied: nat, cur: Control, pending: nat, n: nat, g: nat, p: nat)
    requires Inv(s) && Asked(s, g, p) && OwnCounts(s, s', t, kind, applied, cur, pending, n)
    ensures Asked(s', g, p)
  {
    assert ActOk(s, t);
  }

  lemma OwnAsked(s: State, s': State, t: Tid, n: nat, has: bool, armed: bool, g: nat, p: nat)
    requires Inv(s) && Asked(s, g, p) && OwnMoves(s, s', t, n, has, armed)
    ensures Asked(s', g, p)
  {
    match s.acts[t]
    case Own(kind, applied, cur) =>
      if OwnFlips(s, s', t, kind, applied, cur) { FlipAsked(s, s', t, kind, applied, cur, g, p); }
      else { DrainAsked(s, s', t, kind, applied, cur, g, p); }
    case OwnArm(kind, applied, counter) => ArmAsked(s, s', t, kind, applied, counter, has, armed, g, p);
    case OwnNote(kind, applied, counter) => ArmAsked(s, s', t, kind, applied, counter, has, armed, g, p);
    case OwnCount(kind, applied, cur, pending) => CountAsked(s, s', t, kind, applied, cur, pending, n, g, p);
  }

  lemma NextAsked(s: State, s': State, g: nat, p: nat)
    requires Inv(s) && Asked(s, g, p) && Next(s, s') && s'.word.generation == g
    ensures Asked(s', g, p)
  {
    if PubNext(s, s') {
      var t: Tid, q: Request, low: nat, seen: Control :| PubMoves(s, s', t, q, low, seen);
      PubAsked(s, s', t, q, low, seen, g, p);
    } else if SigNext(s, s') {
      var t: Tid, h: nat, ticks: nat, low: nat, seen: Control :| SigMoves(s, s', t, h, ticks, low, seen);
      SigAsked(s, s', t, h, ticks, low, seen, g, p);
    } else {
      var t: Tid, n: nat, has: bool, armed: bool :| OwnMoves(s, s', t, n, has, armed);
      OwnAsked(s, s', t, n, has, armed, g, p);
    }
  }

  lemma {:induction false} StaysAsked(run: seq<State>, i: nat, j: nat, g: nat, p: nat)
    requires Run(run) && i <= j < |run| && Asked(run[i], g, p) && run[j].word.generation == g
    ensures Asked(run[j], g, p)
  {
    if i < j {
      RunAges(run, i, j - 1);
      RunAges(run, j - 1, j);
      StaysAsked(run, i, j - 1, g, p);
      StepAsked(run, j - 1, g, p);
    }
  }

  lemma StepAsked(run: seq<State>, i: nat, g: nat, p: nat)
    requires Run(run) && i + 1 < |run| && Asked(run[i], g, p) && run[i + 1].word.generation == g
    ensures Asked(run[i + 1], g, p)
  {
    RunInvariant(run, i);
    assert StepAt(run, i);
    NextAsked(run[i], run[i + 1], g, p);
  }

  /** A publication that was carried out and not superseded is in force when the word is
      free: with a period the timer was armed for it, without one the timer is stopped and
      never was. */
  lemma RequestIsInForce(run: seq<State>, i: nat, j: nat, q: Request)
    requires Run(run) && i + 1 <= j < |run| && Carried(run[i], run[i + 1], q)
    requires run[j].word.generation == run[i + 1].word.generation && !run[j].word.owner
    ensures var g := run[j].word.generation;
      && run[j].applied == g
      && (if q.period > 0 then g in run[j].armedFor else g !in run[j].armedFor && !run[j].timer.armed)
  {
    var g := run[j].word.generation;
    StaysAsked(run, i + 1, j, g, q.period);
    RunInvariant(run, j);
  }

  // ------------------------------------------------------------------ an owner left alone

  /** How far the word is from being free. */
  function WordRank(word: Control, applied: nat): nat {
    if word.generation != applied then (if word.low != 0 then 4 else 2) else if word.low != 0 then 3 else 1
  }

  function OwnRank(word: Control, applied: nat, cur: Control): nat {
    WordRank(word, applied) + if cur != word then 1 else 0
  }

  function Rank(s: State, t: Tid): nat
    requires t in s.acts
  {
    match s.acts[t]
    case Own(_, applied, cur) => OwnRank(s.word, applied, cur)
    case OwnCount(_, applied, cur, _) => 1 + OwnRank(s.word, applied, cur)
    case OwnNote(_, applied, _) => 1 + OwnRank(s.word, applied, Control(0, applied, 0, true))
    case OwnArm(_, applied, _) => 2 + OwnRank(s.word, applied, Control(0, applied, 0, true))
    case _ => 0
  }

  lemma FlipStep(s: State, t: Tid, kind: Kind, applied: nat, cur: Control) returns (s': State)
    requires t in s.acts && s.acts[t] == Own(kind, applied, cur) && cur.generation != applied
    ensures OwnFlips(s, s', t, kind, applied, cur) && t in s'.acts && Rank(s', t) < Rank(s, t)
  {
    var stopped := s.(timer := s.timer.(armed := false));
    if s.word != cur {
      s' := SetAct(stopped, t, Own(kind, applied, s.word));
    } else {
      var active := Control(0, cur.generation, 0, true);
      s' := SetAct(stopped, t, if cur.low != 0 then OwnArm(kind, cur.generation, cur.counter) else Own(kind, cur.generation, active)).(
        word := active, applied := cur.generation);
    }
  }

  lemma DrainStep(s: State, t: Tid, kind: Kind, applied: nat, cur: Control) returns (s': State)
    requires t in s.acts && s.acts[t] == Own(kind, applied, cur) && cur.generation == applied && cur.low != 0
    ensures OwnDrains(s, s', t, kind, applied, cur) && t in s'.acts && Rank(s', t) < Rank(s, t)
  {
    if s.word != cur {
      s' := SetAct(s, t, Own(kind, applied, s.word));
    } else {
      s' := SetAct(s, t, if kind.Kernel? then OwnCount(kind, applied, cur.(low := 0), cur.low) else Own(kind, applied, cur.(low := 0))).(
        word := cur.(low := 0), drained := Add(s.drained, applied, cur.low),
        tally := if kind.Kernel? then s.tally.(signalled := Add(s.tally.signalled, applied, cur.low))
                 else s.tally.(discarded := Add(s.tally.discarded, applied, cur.low)));
    }
  }

  lemma ReleaseStep(s: State, t: Tid, kind: Kind, applied: nat, cur: Control) returns (s': State)
    requires t in s.acts && s.acts[t] == Own(kind, applied, cur) && cur.generation == applied && cur.low == 0
    ensures OwnReleases(s, s', t, kind, applied, cur) && t in s'.acts && Rank(s', t) < Rank(s, t)
    ensures s.word == cur ==> s'.acts[t] == Idle && !s'.word.owner
  {
    s' := if s.word != cur then SetAct(s, t, Own(kind, applied, s.word))
          else SetAct(s, t, Idle).(word := cur.(owner := false), owner := None);
  }

  lemma ArmStep(s: State, t: Tid) returns (s': State)
    requires t in s.acts && (s.acts[t].OwnArm? || s.acts[t].OwnNote?)
    ensures OwnMoves(s, s', t, 0, s.timer.present, false) && t in s'.acts && Rank(s', t) < Rank(s, t) && Owns(s'.acts[t])
  {
    if s.acts[t].OwnArm? {
      s' := SetAct(s, t, OwnNote(s.acts[t].kind, s.acts[t].applied, s.acts[t].counter)).(armedFor := s.armedFor + {s.acts[t].applied});
    } else {
      s' := SetAct(s, t, Own(s.acts[t].kind, s.acts[t].applied, Control(0, s.acts[t].applied, 0, true))).(
        timer := if s.timer.present then Timer(true, false, s.acts[t].counter) else s.timer);
    }
  }

  lemma CountStep(s: State, t: Tid) returns (s': State)
    requires t in s.acts && s.acts[t].OwnCount?
    ensures OwnMoves(s, s', t, 0, s.timer.present, false) && t in s'.acts && Rank(s', t) < Rank(s, t) && Owns(s'.acts[t])
  {
    var kind, applied, cur, pending := s.acts[t].kind, s.acts[t].applied, s.acts[t].current, s.acts[t].pending;
    var own := SetAct(s, t, Own(kind, applied, cur));
    if !s.timer.present || !s.timer.armed {
      s' := own.(tally := s.tally.(late := Add(s.tally.late, applied, pending)));
    } else {
      var left := s.timer.remaining;
      s' := own.(
        timer := if left == 0 then s.timer else s.timer.(remaining := left, armed := left != 0), delivered := Add(s.delivered, applied, 0),
        tally := s.tally.(handed := Add(s.tally.handed, applied, pending), answered := Add(s.tally.answered, applied, 0)));
    }
    assert OwnCounts(s, s', t, kind, applied, cur, pending, 0);
  }

  /** Free of the word. */
  predicate Freed(s: State, t: Tid) { t in s.acts && s.acts[t] == Idle && !s.word.owner }

  lemma AloneStep(s: State, t: Tid) returns (s': State)
    requires t in s.acts && Owns(s.acts[t])
    ensures OwnMoves(s, s', t, 0, s.timer.present, false) && t in s'.acts && Rank(s', t) < Rank(s, t)
    ensures Owns(s'.acts[t]) || Freed(s', t)
  {
    if s.acts[t].OwnCount? {
      s' := CountStep(s, t);
    } else if s.acts[t].Own? {
      var kind, applied, cur := s.acts[t].kind, s.acts[t].applied, s.acts[t].current;
      if cur.generation != applied { s' := FlipStep(s, t, kind, applied, cur); }
      else if cur.low != 0 { s' := DrainStep(s, t, kind, applied, cur); }
      else { s' := ReleaseStep(s, t, kind, applied, cur); }
    } else {
      s' := ArmStep(s, t);
    }
  }

  ghost predicate AlonePath(path: seq<State>, t: Tid) {
    forall i: nat {:trigger path[i]} :: i + 1 < |path| ==> OwnMoves(path[i], path[i + 1], t, 0, path[i].timer.present, false)
  }

  lemma PathGrows(s: State, path: seq<State>, t: Tid)
    requires path != [] && AlonePath(path, t) && OwnMoves(s, path[0], t, 0, s.timer.present, false)
    ensures AlonePath([s] + path, t)
  {
    var all := [s] + path;
    forall i: nat | i + 1 < |all| ensures OwnMoves(all[i], all[i + 1], t, 0, all[i].timer.present, false) {
      if i > 0 { assert all[i] == path[i - 1] && all[i + 1] == path[i]; }
    }
  }

  /** An owner that nobody disturbs gives the word back within eight steps. */
  lemma {:induction false} OwnerAloneFrees(s: State, t: Tid) returns (path: seq<State>)
    requires t in s.acts && Owns(s.acts[t])
    ensures 1 < |path| <= Rank(s, t) + 1 <= 8 && path[0] == s && AlonePath(path, t) && Freed(path[|path| - 1], t)
    decreases Rank(s, t)
  {
    var s' := AloneStep(s, t);
    var rest := [s'];
    if Owns(s'.acts[t]) { rest := OwnerAloneFrees(s', t); }
    PathGrows(s, rest, t);
    path := [s] + rest;
  }

  // ---------------------------------------------------------------- a schedule that is kept

  /** One thread starts a schedule of `n` ticks, which then come in one signal. */
  function Ask(n: nat): Request { Request(1, n, 0, false) }

  function Requested(n: nat): Control { Control(1, 1, n, true) }

  const ACTIVE := Control(0, 1, 0, true)

  const FRESH := State(Control(0, 0, 0, false), Timer(false, false, 0), Living, map[0 := Idle], None, 0, {}, map[], map[], map[], map[], BLANK)

  function Published(n: nat): State {
    SetAct(FRESH, 0, Own(User, 0, Requested(n))).(word := Requested(n), owner := Some(0), counters := map[1 := n])
  }

  function Flipped(n: nat): State { SetAct(Published(n), 0, OwnArm(User, 1, n)).(word := ACTIVE, applied := 1) }

  function Armed(n: nat): State { SetAct(Flipped(n), 0, OwnNote(User, 1, n)).(armedFor := {1}) }

  function Noted(n: nat): State { SetAct(Armed(n), 0, Own(User, 1, ACTIVE)).(timer := Timer(true, true, n)) }

  function Waiting(n: nat): State { SetAct(Noted(n), 0, Idle).(word := ACTIVE.(owner := false), owner := None) }

  function Signalled(n: nat): State {
    SetAct(Waiting(n), 0, Own(Kernel, 1, ACTIVE.(low := n))).(word := ACTIVE.(low := n), owner := Some(0), accepted := map[1 := n])
  }

  function Drained(n: nat): State {
    SetAct(Signalled(n), 0, OwnCount(Kernel, 1, ACTIVE, n)).(
      word := ACTIVE, drained := map[1 := n], tally := BLANK.(signalled := map[1 := n]))
  }

  function Delivered(n: nat): State {
    SetAct(Drained(n), 0, Own(Kernel, 1, ACTIVE)).(
      timer := Timer(true, false, 0), delivered := map[1 := n],
      tally := BLANK.(signalled := map[1 := n], handed := map[1 := n], answered := map[1 := n]))
  }

  function Over(n: nat): State { SetAct(Delivered(n), 0, Idle).(word := ACTIVE.(owner := false), owner := None) }

  function At(s: State, a: Act): State { SetAct(s, 0, a) }

  /** The run, one state after every step. */
  function Kept(n: nat): seq<State> {
    [FRESH, At(FRESH, PubLow(Ask(n))), At(FRESH, PubHigh(Ask(n), 0)), At(FRESH, PubTest(Ask(n), FRESH.word)),
     At(FRESH, PubSwap(Ask(n), FRESH.word)), Published(n), Flipped(n), Armed(n), Noted(n), Waiting(n),
     At(Waiting(n), SigLow(1, n)), At(Waiting(n), SigHigh(1, n, 0)), At(Waiting(n), SigSwap(1, n, Waiting(n).word)),
     Signalled(n), Drained(n), Delivered(n), Over(n)]
  }

  lemma KeptLoads(n: nat)
    ensures PubBegin(FRESH, At(FRESH, PubLow(Ask(n))), 0, Ask(n))
    ensures PubLoadLow(At(FRESH, PubLow(Ask(n))), At(FRESH, PubHigh(Ask(n), 0)), 0, Ask(n))
  {
    assert map[0 := PubLow(Ask(n))][0 := PubHigh(Ask(n), 0)] == map[0 := PubHigh(Ask(n), 0)];
  }

  lemma KeptLooks(n: nat)
    ensures PubLoadHigh(At(FRESH, PubHigh(Ask(n), 0)), At(FRESH, PubTest(Ask(n), FRESH.word)), 0, Ask(n), 0)
    ensures PubTests(At(FRESH, PubTest(Ask(n), FRESH.word)), At(FRESH, PubSwap(Ask(n), FRESH.word)), 0, Ask(n), FRESH.word)
  {
  }

  lemma KeptSwaps(n: nat)
    requires 0 < n
    ensures PubSwaps(At(FRESH, PubSwap(Ask(n), FRESH.word)), Published(n), 0, Ask(n), FRESH.word)
  {
  }

  lemma KeptFlips(n: nat)
    ensures Next(Published(n), Flipped(n))
  {
    assert OwnFlips(Published(n), Flipped(n), 0, User, 0, Requested(n));
    assert OwnMoves(Published(n), Flipped(n), 0, n, true, true);
  }

  lemma KeptArms(n: nat)
    ensures Next(Flipped(n), Armed(n))
  {
    assert OwnArms(Flipped(n), Armed(n), 0, User, 1, n);
    assert OwnMoves(Flipped(n), Armed(n), 0, n, true, true);
  }

  lemma KeptNotes(n: nat)
    ensures Next(Armed(n), Noted(n))
  {
    assert OwnNotes(Armed(n), Noted(n), 0, User, 1, n, true, true);
    assert OwnMoves(Armed(n), Noted(n), 0, n, true, true);
  }

  lemma KeptReleases(n: nat)
    ensures Next(Noted(n), Waiting(n))
  {
    assert OwnReleases(Noted(n), Waiting(n), 0, User, 1, ACTIVE);
    assert OwnMoves(Noted(n), Waiting(n), 0, n, true, true);
  }

  lemma KeptRings(n: nat)
    requires 0 < n
    ensures SigBegin(Waiting(n), At(Waiting(n), SigLow(1, n)), 0, 1, n)
  {
  }

  lemma KeptSees(n: nat)
    ensures SigLoadLow(At(Waiting(n), SigLow(1, n)), At(Waiting(n), SigHigh(1, n, 0)), 0, 1, n)
    ensures SigLoadHigh(At(Waiting(n), SigHigh(1, n, 0)), At(Waiting(n), SigSwap(1, n, Waiting(n).word)), 0, 1, n, 0)
  {
  }

  lemma KeptSignals(n: nat)
    ensures SigSwaps(At(Waiting(n), SigSwap(1, n, Waiting(n).word)), Signalled(n), 0, 1, n, Waiting(n).word)
  {
  }

  lemma KeptDrains(n: nat)
    requires 0 < n
    ensures Next(Signalled(n), Drained(n))
  {
    assert OwnDrains(Signalled(n), Drained(n), 0, Kernel, 1, ACTIVE.(low := n));
    assert OwnMoves(Signalled(n), Drained(n), 0, n, true, true);
  }

  lemma KeptDelivers(n: nat)
    requires 0 < n
    ensures Next(Drained(n), Delivered(n))
  {
    assert OwnCounts(Drained(n), Delivered(n), 0, Kernel, 1, ACTIVE, n, n);
    assert OwnMoves(Drained(n), Delivered(n), 0, n, true, true);
  }

  lemma KeptFrees(n: nat)
    ensures Next(Delivered(n), Over(n))
  {
    assert OwnReleases(Delivered(n), Over(n), 0, Kernel, 1, ACTIVE);
    assert OwnMoves(Delivered(n), Over(n), 0, n, true, true);
  }

  lemma KeptPublishes(n: nat, i: nat)
    requires 0 < n && i < 5
    ensures Next(Kept(n)[i], Kept(n)[i + 1])
  {
    KeptLoads(n);
    KeptLooks(n);
    KeptSwaps(n);
    assert PubMoves(Kept(n)[i], Kept(n)[i + 1], 0, Ask(n), 0, FRESH.word);
  }

  lemma KeptStarts(n: nat, i: nat)
    requires 0 < n && 5 <= i < 9
    ensures Next(Kept(n)[i], Kept(n)[i + 1])
  {
    var run := Kept(n);
    assert run[5] == Published(n) && run[6] == Flipped(n) && run[7] == Armed(n) && run[8] == Noted(n) && run[9] == Waiting(n);
    if i == 5 { KeptFlips(n); } else if i == 6 { KeptArms(n); } else if i == 7 { KeptNotes(n); } else { KeptReleases(n); }
  }

  lemma KeptTicks(n: nat, i: nat)
    requires 0 < n && 9 <= i < 13
    ensures Next(Kept(n)[i], Kept(n)[i + 1])
  {
    KeptRings(n);
    KeptSees(n);
    KeptSignals(n);
    assert SigMoves(Kept(n)[i], Kept(n)[i + 1], 0, 1, n, 0, Waiting(n).word);
  }

  lemma KeptEnds(n: nat, i: nat)
    requires 0 < n && 13 <= i < 16
    ensures Next(Kept(n)[i], Kept(n)[i + 1])
  {
    var run := Kept(n);
    assert run[13] == Signalled(n) && run[14] == Drained(n) && run[15] == Delivered(n) && run[16] == Over(n);
    if i == 13 { KeptDrains(n); } else if i == 14 { KeptDelivers(n); } else { KeptFrees(n); }
  }

  /** For every positive counter there is a run in which the schedule is started, armed and
      signalled, delivers all its ticks and leaves the timer stopped and the word free. */
  lemma ScheduleIsKept(n: nat)
    requires 0 < n
    ensures Run(Kept(n)) && var s := Kept(n)[16]; Count(s.delivered, 1) == Count(s.counters, 1) == n && !s.timer.armed && !s.word.owner
  {
    var run := Kept(n);
    forall i: nat | i + 1 < |run| ensures StepAt(run, i) {
      if i < 5 { KeptPublishes(n, i); } else if i < 9 { KeptStarts(n, i); } else if i < 13 { KeptTicks(n, i); } else { KeptEnds(n, i); }
    }
  }
}
