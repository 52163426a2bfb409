/** The control word of a user event's timer.  One 128-bit word holds either a
    requested schedule (period, finite counter) or the ticks that have arrived for
    the schedule in force, together with the schedule's generation and an owner bit.
    Which of the two it is, no field says: whoever acts on the word infers it from
    the generation.

    One atomic access is one step; a 128-bit load is two, low half first.  Signals of
    a timer armed for a generation may arrive at any time after it was armed, also
    long after it was stopped.  Generations are not bounded.

    Auxiliary state, never read by a step's decisions: the owner, the generation in
    force, the generations ever armed, who deletes and the generation of the terminal
    publication, and per generation the requested counter, the
    ticks accepted, drained and delivered, and what became of the drained ones. */
module EventTimer {
  import opened Wrappers

  type Tid = nat

  datatype Control = Control(low: nat, generation: nat, counter: nat, owner: bool)

  /** A publication: period 0 stops; `required` 0 means whatever generation is there; the
      terminal one is the deletion's. */
  datatype Request = Request(period: nat, counter: int, required: nat, terminal: bool)

  const STOP := Request(0, 0, 0, true)

  /** A user thread that publishes discards raced ticks; a signal delivers them. */
  datatype Kind = User | Kernel

  datatype Act =
    | Idle
    | PubLow(q: Request)
    | PubHigh(q: Request, low: nat)
    | PubTest(q: Request, seen: Control)
    | PubSwap(q: Request, seen: Control)
    | SigLow(g: nat, ticks: nat)
    | SigHigh(g: nat, ticks: nat, low: nat)
    | SigSwap(g: nat, ticks: nat, seen: Control)
    | Own(kind: Kind, applied: nat, current: Control)
    | OwnArm(kind: Kind, applied: nat, counter: nat)
    | OwnNote(kind: Kind, applied: nat, counter: nat)
    | OwnCount(kind: Kind, applied: nat, current: Control, pending: nat)

  predicate Owns(a: Act) { a.Own? || a.OwnArm? || a.OwnNote? || a.OwnCount? }

  /** The delete mark, with who deletes or the generation of the terminal publication. */
  datatype Life = Living | Deleting(t: Tid) | Closed(generation: nat)

  /** The backend timer's private state; a finite schedule has `remaining` ticks. */
  datatype Timer = Timer(present: bool, armed: bool, remaining: nat)

  /** Drained ticks, per generation: by an owner that came with a signal or with a
      publication; of the former, those handed to the backend and those that found no
      armed timer; and the ticks that the backend made of what it was handed. */
  datatype Tally = Tally(signalled: map<nat, nat>, discarded: map<nat, nat>, handed: map<nat, nat>, late: map<nat, nat>, answered: map<nat, nat>)

  const BLANK := Tally(map[], map[], map[], map[], map[])

  datatype State = State(
    word: Control, timer: Timer, life: Life, acts: map<Tid, Act>,
    owner: Option<Tid>, applied: nat, armedFor: set<nat>, counters: map<nat, nat>,
    accepted: map<nat, nat>, drained: map<nat, nat>, delivered: map<nat, nat>, tally: Tally)

  function Count(m: map<nat, nat>, g: nat): nat { if g in m then m[g] else 0 }

  function Add(m: map<nat, nat>, g: nat, n: nat): map<nat, nat> { m[g := Count(m, g) + n] }

  function SetAct(s: State, t: Tid, a: Act): State { s.(acts := s.acts[t := a]) }

  predicate Does(s: State, t: Tid, a: Act) { t in s.acts && s.acts[t] == a }

  // ---------------------------------------------------------------------- publish

  function Desired(q: Request, generation: nat): Control {
    Control(q.period, generation + 1, if q.counter > 0 then q.counter else 0, true)
  }

  ghost predicate PubBegin(s: State, s': State, t: Tid, q: Request) {
    Does(s, t, Idle) && !q.terminal && s' == SetAct(s, t, PubLow(q))
  }

  /** Deletion marks the event first and then publishes the stop. */
  ghost predicate Deletes(s: State, s': State, t: Tid) {
    Does(s, t, Idle) && s.life.Living? && s' == SetAct(s, t, PubLow(STOP)).(life := Deleting(t))
  }

  ghost predicate PubLoadLow(s: State, s': State, t: Tid, q: Request) {
    Does(s, t, PubLow(q)) && s' == SetAct(s, t, PubHigh(q, s.word.low))
  }

  ghost predicate PubLoadHigh(s: State, s': State, t: Tid, q: Request, low: nat) {
    Does(s, t, PubHigh(q, low)) && s' == SetAct(s, t, PubTest(q, s.word.(low := low)))
  }

  predicate GivesUp(q: Request, dying: bool, generation: nat) {
    (!q.terminal && dying) || (q.required != 0 && generation != q.required)
  }

  /** A publication gives up on a dying event, the terminal one excepted, and when it has
      found another generation than it requires. */
  ghost predicate PubTests(s: State, s': State, t: Tid, q: Request, seen: Control) {
    && Does(s, t, PubTest(q, seen))
    && s' == SetAct(s, t, if GivesUp(q, !s.life.Living?, seen.generation) then Idle else PubSwap(q, seen))
  }

  ghost predicate PubSwaps(s: State, s': State, t: Tid, q: Request, seen: Control) {
    && Does(s, t, PubSwap(q, seen))
    && if s.word != seen then s' == SetAct(s, t, PubLow(q))
       else
         var desired := Desired(q, seen.generation);
         s' == SetAct(s, t, if seen.owner then Idle else Own(User, seen.generation, desired)).(
           word := desired, owner := if seen.owner then s.owner else Some(t),
           life := if q.terminal then Closed(desired.generation) else s.life,
           counters := s.counters[desired.generation := desired.counter])
  }

  // ----------------------------------------------------------------------- signal

  ghost predicate SigBegin(s: State, s': State, t: Tid, g: nat, ticks: nat) {
    Does(s, t, Idle) && g in s.armedFor && 0 < ticks && s' == SetAct(s, t, SigLow(g, ticks))
  }

  ghost predicate SigLoadLow(s: State, s': State, t: Tid, g: nat, ticks: nat) {
    Does(s, t, SigLow(g, ticks)) && s' == SetAct(s, t, SigHigh(g, ticks, s.word.low))
  }

  ghost predicate SigLoadHigh(s: State, s': State, t: Tid, g: nat, ticks: nat, low: nat) {
    && Does(s, t, SigHigh(g, ticks, low))
    && s' == SetAct(s, t, if s.word.generation != g then Idle else SigSwap(g, ticks, s.word.(low := low)))
  }

  ghost predicate SigSwaps(s: State, s': State, t: Tid, g: nat, ticks: nat, seen: Control) {
    && Does(s, t, SigSwap(g, ticks, seen))
    && if s.word != seen then s' == SetAct(s, t, if s.word.generation != g then Idle else SigLow(g, ticks))
       else
         var desired := seen.(low := seen.low + ticks, owner := true);
         s' == SetAct(s, t, if seen.owner then Idle else Own(Kernel, seen.generation, desired)).(
           word := desired, owner := if seen.owner then s.owner else Some(t),
           accepted := s.accepted[g := Count(s.accepted, g) + ticks])
  }

  // ------------------------------------------------------------------------ owner

  /** A generation not in force yet: stop the old timer and turn the request into an
      active word without ticks.  The new timer is armed only after that. */
  ghost predicate OwnFlips(s: State, s': State, t: Tid, kind: Kind, applied: nat, cur: Control) {
    && Does(s, t, Own(kind, applied, cur)) && cur.generation != applied
    && var stopped := s.(timer := s.timer.(armed := false));
    && if s.word != cur then s' == SetAct(stopped, t, Own(kind, applied, s.word))
       else
         var active := Control(0, cur.generation, 0, true);
         s' == SetAct(stopped, t, if cur.low != 0 then OwnArm(kind, cur.generation, cur.counter)
                                  else Own(kind, cur.generation, active)).(
           word := active, applied := cur.generation)
  }

  ghost predicate OwnArms(s: State, s': State, t: Tid, kind: Kind, applied: nat, counter: nat) {
    && Does(s, t, OwnArm(kind, applied, counter))
    && s' == SetAct(s, t, OwnNote(kind, applied, counter)).(armedFor := s.armedFor + {applied})
  }

  /** The backend reports whether it has a timer at all and whether arming worked. */
  ghost predicate OwnNotes(s: State, s': State, t: Tid, kind: Kind, applied: nat, counter: nat, has: bool, armed: bool) {
    && Does(s, t, OwnNote(kind, applied, counter)) && (s.timer.present ==> has)
    && s' == SetAct(s, t, Own(kind, applied, Control(0, applied, 0, true))).(
         timer := if has then Timer(true, armed, counter) else s.timer)
  }

  ghost predicate OwnDrains(s: State, s': State, t: Tid, kind: Kind, applied: nat, cur: Control) {
    && Does(s, t, Own(kind, applied, cur)) && cur.generation == applied && cur.low != 0
    && if s.word != cur then s' == SetAct(s, t, Own(kind, applied, s.word))
       else
         s' == SetAct(s, t, if kind.Kernel? then OwnCount(kind, applied, cur.(low := 0), cur.low) else Own(kind, applied, cur.(low := 0))).(
           word := cur.(low := 0), drained := Add(s.drained, applied, cur.low),
           tally := if kind.Kernel? then s.tally.(signalled := Add(s.tally.signalled, applied, cur.low))
                    else s.tally.(discarded := Add(s.tally.discarded, applied, cur.low)))
  }

  /** Ticks of an armed timer are delivered, as many as the backend makes of them and
      the schedule has left; the last one of a finite schedule stops the timer. */
  ghost predicate OwnCounts(s: State, s': State, t: Tid, kind: Kind, applied: nat, cur: Control, pending: nat, ticks: nat) {
    && Does(s, t, OwnCount(kind, applied, cur, pending))
    && if !s.timer.present || !s.timer.armed then
         s' == SetAct(s, t, Own(kind, applied, cur)).(tally := s.tally.(late := Add(s.tally.late, applied, pending)))
       else
         var left := s.timer.remaining;
         var count := if left != 0 && ticks > left then left else ticks;
         s' == SetAct(s, t, Own(kind, applied, cur)).(
           timer := if left == 0 then s.timer else s.timer.(remaining := left - count, armed := left != count),
           delivered := Add(s.delivered, applied, count),
           tally := s.tally.(handed := Add(s.tally.handed, applied, pending), answered := Add(s.tally.answered, applied, ticks)))
  }

  ghost predicate OwnReleases(s: State, s': State, t: Tid, kind: Kind, applied: nat, cur: Control) {
    && Does(s, t, Own(kind, applied, cur)) && cur.generation == applied && cur.low == 0
    && if s.word != cur then s' == SetAct(s, t, Own(kind, applied, s.word))
       else s' == SetAct(s, t, Idle).(word := cur.(owner := false), owner := None)
  }

  // ------------------------------------------------------------------------- runs

  ghost predicate PubMoves(s: State, s': State, t: Tid, q: Request, low: nat, seen: Control) {
    || PubBegin(s, s', t, q) || Deletes(s, s', t) || PubLoadLow(s, s', t, q) || PubLoadHigh(s, s', t, q, low)
    || PubTests(s, s', t, q, seen) || PubSwaps(s, s', t, q, seen)
  }

  ghost predicate SigMoves(s: State, s': State, t: Tid, g: nat, ticks: nat, low: nat, seen: Control) {
    || SigBegin(s, s', t, g, ticks) || SigLoadLow(s, s', t, g, ticks)
    || SigLoadHigh(s, s', t, g, ticks, low) || SigSwaps(s, s', t, g, ticks, seen)
  }

  /** A step of the owner, from where it is. */
  ghost predicate OwnMoves(s: State, s': State, t: Tid, n: nat, has: bool, armed: bool) {
    && t in s.acts && Owns(s.acts[t])
    && match s.acts[t]
       case Own(kind, applied, cur) =>
         OwnFlips(s, s', t, kind, applied, cur) || OwnDrains(s, s', t, kind, applied, cur) || OwnReleases(s, s', t, kind, applied, cur)
       case OwnArm(kind, applied, counter) => OwnArms(s, s', t, kind, applied, counter)
       case OwnNote(kind, applied, counter) => OwnNotes(s, s', t, kind, applied, counter, has, armed)
       case OwnCount(kind, applied, cur, pending) => OwnCounts(s, s', t, kind, applied, cur, pending, n)
       case _ => false
  }

  ghost predicate PubNext(s: State, s': State) {
    exists t: Tid, q: Request, low: nat, seen: Control :: PubMoves(s, s', t, q, low, seen)
  }

  ghost predicate SigNext(s: State, s': State) {
    exists t: Tid, g: nat, ticks: nat, low: nat, seen: Control :: SigMoves(s, s', t, g, ticks, low, seen)
  }

  ghost predicate OwnNext(s: State, s': State) {
    exists t: Tid, n: nat, has: bool, armed: bool :: OwnMoves(s, s', t, n, has, armed)
  }

  ghost predicate Next(s: State, s': State) { PubNext(s, s') || SigNext(s, s') || OwnNext(s, s') }

  /** A fresh event; its word keeps the generation of the storage's previous use. */
  ghost predicate Init(s: State) {
    && s.word == Control(0, s.applied, 0, false) && !s.timer.armed && s.owner == None && s.armedFor == {}
    && s.life.Living?
    && s.counters == map[] && s.accepted == map[] && s.drained == map[] && s.delivered == map[] && s.tally == BLANK
    && forall t :: t in s.acts ==> s.acts[t] == Idle
  }

  ghost predicate StepAt(run: seq<State>, i: nat)
    requires i + 1 < |run|
  {
    Next(run[i], run[i + 1])
  }

  ghost predicate Run(run: seq<State>) {
    run != [] && Init(run[0]) && forall i: nat {:trigger StepAt(run, i)} :: i + 1 < |run| ==> StepAt(run, i)
  }

  // -------------------------------------------------------------------- invariant

  /** The word holds a request exactly while its generation is ahead of the one in
      force; an unowned word holds nothing to do. */
  ghost predicate WordOk(s: State) {
    && s.applied <= s.word.generation
    && (s.word.owner <==> s.owner.Some?)
    && (!s.word.owner ==> s.word.generation == s.applied && s.word.low == 0)
    && (s.applied < s.word.generation ==> Count(s.counters, s.word.generation) == s.word.counter)
    && (s.applied == s.word.generation ==>
          s.word.low == Count(s.accepted, s.applied) - Count(s.drained, s.applied))
    && (s.timer.armed && Count(s.counters, s.applied) > 0 ==>
          0 < s.timer.remaining && Count(s.delivered, s.applied) + s.timer.remaining == Count(s.counters, s.applied))
  }

  /** One generation's books: nothing happens before it is in force, what is drained
      was accepted, and a finite schedule delivers at most its counter. */
  ghost predicate GenerationOk(s: State, g: nat) {
    && (g in s.armedFor ==> g <= s.applied)
    && (s.word.generation < g ==> Count(s.counters, g) == 0)
    && (s.applied < g ==> Count(s.accepted, g) == 0 && Count(s.delivered, g) == 0)
    && Count(s.drained, g) <= Count(s.accepted, g)
    && (Count(s.counters, g) > 0 ==> Count(s.delivered, g) <= Count(s.counters, g))
  }

  ghost predicate BooksOk(s: State) {
    forall g: nat {:trigger GenerationOk(s, g)} :: GenerationOk(s, g)
  }

  ghost predicate ArmingOk(s: State, applied: nat, counter: nat) {
    applied == s.applied && !s.timer.armed && counter == Count(s.counters, applied) && Count(s.delivered, applied) == 0
  }

  ghost predicate ActOk(s: State, t: Tid) {
    && t in s.acts
    && (Owns(s.acts[t]) <==> s.owner == Some(t))
    && match s.acts[t]
       case SigLow(g, ticks) => g in s.armedFor && 0 < ticks
       case SigHigh(g, ticks, low) => g in s.armedFor && 0 < ticks
       case SigSwap(g, ticks, seen) => g in s.armedFor && 0 < ticks && seen.generation == g
       case Own(kind, applied, cur) => applied == s.applied && s.applied <= cur.generation && cur.owner
       case OwnArm(kind, applied, counter) => ArmingOk(s, applied, counter)
       case OwnNote(kind, applied, counter) => ArmingOk(s, applied, counter)
       case OwnCount(kind, applied, cur, pending) => kind.Kernel? && applied == s.applied && cur.generation == applied && cur.owner
       case _ => true
  }

  ghost predicate ActsOk(s: State) {
    && (forall t {:trigger ActOk(s, t)} :: t in s.acts ==> ActOk(s, t))
    && (s.owner.Some? ==> s.owner.value in s.acts)
  }

  ghost predicate Inv(s: State) {
    WordOk(s) && BooksOk(s) && ActsOk(s)
  }

  /** What the other threads may count on when `t` moves. */
  ghost predicate Rely(s: State, s': State, t: Tid) {
    && t in s.acts && t in s'.acts && s'.acts == s.acts[t := s'.acts[t]]
    && s.armedFor <= s'.armedFor
    && (s'.owner == s.owner || ((s.owner == None || s.owner == Some(t)) && (s'.owner == None || s'.owner == Some(t))))
    && (s.owner.Some? && s.owner.value != t ==>
          && s'.applied == s.applied && s'.timer == s.timer && s'.delivered == s.delivered
          && Count(s'.counters, s.applied) == Count(s.counters, s.applied))
  }

  lemma ActsKept(s: State, s': State, t: Tid)
    requires ActsOk(s) && Rely(s, s', t) && ActOk(s', t)
    ensures ActsOk(s')
  {
    forall u | u in s'.acts ensures ActOk(s', u) {
      if u != t { assert ActOk(s, u); }
    }
  }

  // ------------------------------------------------------------------------ steps

  /** Only the thread's own position changes. */
  lemma QuietKeeps(s: State, s': State, t: Tid)
    requires Inv(s) && t in s.acts && t in s'.acts && ActOk(s', t)
    requires s' == s.(acts := s.acts[t := s'.acts[t]], life := s'.life)
    ensures Inv(s')
  {
    forall g: nat ensures GenerationOk(s', g) { assert GenerationOk(s, g); }
    ActsKept(s, s', t);
  }

  lemma PubSwapsKeep(s: State, s': State, t: Tid, q: Request, seen: Control)
    requires Inv(s) && PubSwaps(s, s', t, q, seen)
    ensures Inv(s')
  {
    assert ActOk(s, t);
    if s.word != seen {
      QuietKeeps(s, s', t);
    } else {
      PubWord(s, s', t, q, seen);
      PubBooks(s, s', t, q, seen);
      PubActs(s, s', t, q, seen);
    }
  }

  lemma PubWord(s: State, s': State, t: Tid, q: Request, seen: Control)
    requires WordOk(s) && PubSwaps(s, s', t, q, seen) && s.word == seen
    ensures WordOk(s')
  {
  }

  lemma PubActs(s: State, s': State, t: Tid, q: Request, seen: Control)
    requires WordOk(s) && ActsOk(s) && PubSwaps(s, s', t, q, seen) && s.word == seen
    ensures ActsOk(s')
  {
    assert ActOk(s, t);
    ActsKept(s, s', t);
  }

  lemma PubBooks(s: State, s': State, t: Tid, q: Request, seen: Control)
    requires WordOk(s) && BooksOk(s) && PubSwaps(s, s', t, q, seen) && s.word == seen
    ensures BooksOk(s')
  {
    forall g: nat ensures GenerationOk(s', g) { assert GenerationOk(s, g); }
  }

  lemma PubMovesKeep(s: State, s': State, t: Tid, q: Request, low: nat, seen: Control)
    requires Inv(s) && PubMoves(s, s', t, q, low, seen)
    ensures Inv(s')
  {
    if PubSwaps(s, s', t, q, seen) {
      PubSwapsKeep(s, s', t, q, seen);
    } else if PubLoadLow(s, s', t, q) || PubLoadHigh(s, s', t, q, low) {
      PubLoadsKeep(s, s', t, q, low);
    } else {
      PubEdgesKeep(s, s', t, q, seen);
    }
  }

  lemma PubLoadsKeep(s: State, s': State, t: Tid, q: Request, low: nat)
    requires Inv(s) && (PubLoadLow(s, s', t, q) || PubLoadHigh(s, s', t, q, low))
    ensures Inv(s')
  {
    assert ActOk(s, t);
    QuietKeeps(s, s', t);
  }

  lemma PubEdgesKeep(s: State, s': State, t: Tid, q: Request, seen: Control)
    requires Inv(s) && (PubBegin(s, s', t, q) || Deletes(s, s', t) || PubTests(s, s', t, q, seen))
    ensures Inv(s')
  {
    assert ActOk(s, t);
    QuietKeeps(s, s', t);
  }

  /** A signal lands only on the active word of its own generation. */
  lemma SignalFindsActive(s: State, t: Tid, g: nat, ticks: nat, seen: Control)
    requires Inv(s) && Does(s, t, SigSwap(g, ticks, seen)) && s.word == seen
    ensures s.word.generation == g == s.applied
  {
    assert ActOk(s, t) && GenerationOk(s, g);
  }

  lemma SigSwapsKeep(s: State, s': State, t: Tid, g: nat, ticks: nat, seen: Control)
    requires Inv(s) && SigSwaps(s, s', t, g, ticks, seen)
    ensures Inv(s')
  {
    assert ActOk(s, t);
    if s.word != seen {
      QuietKeeps(s, s', t);
    } else {
      SignalFindsActive(s, t, g, ticks, seen);
      SigBooks(s, s', t, g, ticks, seen);
      SigRely(s, s', t, g, ticks, seen);
      ActsKept(s, s', t);
    }
  }

  lemma SigBooks(s: State, s': State, t: Tid, g: nat, ticks: nat, seen: Control)
    requires WordOk(s) && BooksOk(s) && SigSwaps(s, s', t, g, ticks, seen) && s.word == seen
    requires seen.generation == g == s.applied
    ensures BooksOk(s') && WordOk(s')
  {
    forall h: nat ensures GenerationOk(s', h) { assert GenerationOk(s, h); }
  }

  lemma SigRely(s: State, s': State, t: Tid, g: nat, ticks: nat, seen: Control)
    requires Inv(s) && SigSwaps(s, s', t, g, ticks, seen) && s.word == seen && seen.generation == g == s.applied
    ensures Rely(s, s', t) && ActOk(s', t)
  {
    assert ActOk(s, t);
  }

  lemma SigMovesKeep(s: State, s': State, t: Tid, g: nat, ticks: nat, low: nat, seen: Control)
    requires Inv(s) && SigMoves(s, s', t, g, ticks, low, seen)
    ensures Inv(s')
  {
    if SigSwaps(s, s', t, g, ticks, seen) {
      SigSwapsKeep(s, s', t, g, ticks, seen);
    } else {
      SigLooksKeep(s, s', t, g, ticks, low);
    }
  }

  lemma SigLooksKeep(s: State, s': State, t: Tid, g: nat, ticks: nat, low: nat)
    requires Inv(s) && (SigBegin(s, s', t, g, ticks) || SigLoadLow(s, s', t, g, ticks) || SigLoadHigh(s, s', t, g, ticks, low))
    ensures Inv(s')
  {
    assert ActOk(s, t);
    QuietKeeps(s, s', t);
  }

  lemma OwnFlipsKeep(s: State, s': State, t: Tid, kind: Kind, applied: nat, cur: Control)
    requires Inv(s) && OwnFlips(s, s', t, kind, applied, cur)
    ensures Inv(s')
  {
    assert ActOk(s, t) && GenerationOk(s, cur.generation);
    forall g: nat ensures GenerationOk(s', g) { assert GenerationOk(s, g); }
    ActsKept(s, s', t);
  }

  lemma OwnArmsKeep(s: State, s': State, t: Tid, kind: Kind, applied: nat, counter: nat)
    requires Inv(s) && OwnArms(s, s', t, kind, applied, counter)
    ensures Inv(s')
  {
    assert ActOk(s, t);
    forall g: nat ensures GenerationOk(s', g) { assert GenerationOk(s, g); }
    ActsKept(s, s', t);
  }

  lemma OwnNotesKeep(s: State, s': State, t: Tid, kind: Kind, applied: nat, counter: nat, has: bool, armed: bool)
    requires Inv(s) && OwnNotes(s, s', t, kind, applied, counter, has, armed)
    ensures Inv(s')
  {
    assert ActOk(s, t);
    forall g: nat ensures GenerationOk(s', g) { assert GenerationOk(s, g); }
    ActsKept(s, s', t);
  }

  lemma OwnDrainsKeep(s: State, s': State, t: Tid, kind: Kind, applied: nat, cur: Control)
    requires Inv(s) && OwnDrains(s, s', t, kind, applied, cur)
    ensures Inv(s')
  {
    assert ActOk(s, t);
    if s.word != cur {
      QuietKeeps(s, s', t);
    } else {
      DrainBooks(s, s', t, kind, applied, cur);
      ActsKept(s, s', t);
    }
  }

  lemma DrainBooks(s: State, s': State, t: Tid, kind: Kind, applied: nat, cur: Control)
    requires WordOk(s) && BooksOk(s) && OwnDrains(s, s', t, kind, applied, cur) && s.word == cur && applied == s.applied
    ensures WordOk(s') && BooksOk(s')
  {
    forall g: nat ensures GenerationOk(s', g) { assert GenerationOk(s, g); }
  }

  lemma OwnCountsKeep(s: State, s': State, t: Tid, kind: Kind, applied: nat, cur: Control, pending: nat, ticks: nat)
    requires Inv(s) && OwnCounts(s, s', t, kind, applied, cur, pending, ticks)
    ensures Inv(s')
  {
    assert ActOk(s, t);
    CountBooks(s, s', t, kind, applied, cur, pending, ticks);
    ActsKept(s, s', t);
  }

  lemma CountBooks(s: State, s': State, t: Tid, kind: Kind, applied: nat, cur: Control, pending: nat, ticks: nat)
    requires WordOk(s) && BooksOk(s) && OwnCounts(s, s', t, kind, applied, cur, pending, ticks) && applied == s.applied
    ensures WordOk(s') && BooksOk(s')
  {
    CountWord(s, s', t, kind, applied, cur, pending, ticks);
    forall g: nat ensures GenerationOk(s', g) { CountGeneration(s, s', t, kind, applied, cur, pending, ticks, g); }
  }

  lemma CountWord(s: State, s': State, t: Tid, kind: Kind, applied: nat, cur: Control, pending: nat, ticks: nat)
    requires WordOk(s) && OwnCounts(s, s', t, kind, applied, cur, pending, ticks) && applied == s.applied
    ensures WordOk(s')
  {
    if s.timer.present && s.timer.armed { CountArmed(s, s', t, kind, applied, cur, pending, ticks); }
  }

  lemma CountArmed(s: State, s': State, t: Tid, kind: Kind, applied: nat, cur: Control, pending: nat, ticks: nat)
    requires WordOk(s) && OwnCounts(s, s', t, kind, applied, cur, pending, ticks) && applied == s.applied && s.timer.present && s.timer.armed
    ensures WordOk(s')
  {
  }

  lemma CountGeneration(s: State, s': State, t: Tid, kind: Kind, applied: nat, cur: Control, pending: nat, ticks: nat, g: nat)
    requires WordOk(s) && BooksOk(s) && OwnCounts(s, s', t, kind, applied, cur, pending, ticks) && applied == s.applied
    ensures GenerationOk(s', g)
  {
    assert GenerationOk(s, g);
  }

  lemma OwnReleasesKeep(s: State, s': State, t: Tid, kind: Kind, applied: nat, cur: Control)
    requires Inv(s) && OwnReleases(s, s', t, kind, applied, cur)
    ensures Inv(s')
  {
    assert ActOk(s, t);
    if s.word != cur {
      QuietKeeps(s, s', t);
    } else {
      ReleaseBooks(s, s', t, kind, applied, cur);
      ReleaseActs(s, s', t, kind, applied, cur);
    }
  }

  lemma ReleaseActs(s: State, s': State, t: Tid, kind: Kind, applied: nat, cur: Control)
    requires ActsOk(s) && OwnReleases(s, s', t, kind, applied, cur) && s.word == cur
    ensures ActsOk(s')
  {
    assert ActOk(s, t);
    ActsKept(s, s', t);
  }

  lemma ReleaseBooks(s: State, s': State, t: Tid, kind: Kind, applied: nat, cur: Control)
    requires BooksOk(s) && OwnReleases(s, s', t, kind, applied, cur) && s.word == cur
    ensures BooksOk(s')
  {
    forall g: nat ensures GenerationOk(s', g) { assert GenerationOk(s, g); }
  }

  lemma OwnMovesKeep(s: State, s': State, t: Tid, n: nat, has: bool, armed: bool)
    requires Inv(s) && OwnMoves(s, s', t, n, has, armed)
    ensures Inv(s')
  {
    match s.acts[t]
    case Own(kind, applied, cur) =>
      if OwnFlips(s, s', t, kind, applied, cur) { OwnFlipsKeep(s, s', t, kind, applied, cur); }
      else if OwnDrains(s, s', t, kind, applied, cur) { OwnDrainsKeep(s, s', t, kind, applied, cur); }
      else { OwnReleasesKeep(s, s', t, kind, applied, cur); }
    case OwnArm(kind, applied, counter) => OwnArmsKeep(s, s', t, kind, applied, counter);
    case OwnNote(kind, applied, counter) => OwnNotesKeep(s, s', t, kind, applied, counter, has, armed);
    case OwnCount(kind, applied, cur, pending) => OwnCountsKeep(s, s', t, kind, applied, cur, pending, n);
  }

  lemma NextKeeps(s: State, s': State)
    requires Inv(s) && Next(s, s')
    ensures Inv(s')
  {
    if PubNext(s, s') { PubNextKeeps(s, s'); } else if SigNext(s, s') { SigNextKeeps(s, s'); } else { OwnNextKeeps(s, s'); }
  }

  lemma PubNextKeeps(s: State, s': State)
    requires Inv(s) && PubNext(s, s')
    ensures Inv(s')
  {
    var t: Tid, q: Request, low: nat, seen: Control :| PubMoves(s, s', t, q, low, seen);
    PubMovesKeep(s, s', t, q, low, seen);
  }

  lemma SigNextKeeps(s: State, s': State)
    requires Inv(s) && SigNext(s, s')
    ensures Inv(s')
  {
    var t: Tid, g: nat, ticks: nat, low: nat, seen: Control :| SigMoves(s, s', t, g, ticks, low, seen);
    SigMovesKeep(s, s', t, g, ticks, low, seen);
  }

  lemma OwnNextKeeps(s: State, s': State)
    requires Inv(s) && OwnNext(s, s')
    ensures Inv(s')
  {
    var t: Tid, n: nat, has: bool, armed: bool :| OwnMoves(s, s', t, n, has, armed);
    OwnMovesKeep(s, s', t, n, has, armed);
  }

  // --------------------------------------------------------------------- promises

  lemma {:induction false} RunInvariant(run: seq<State>, i: nat)
    requires Run(run) && i < |run|
    ensures Inv(run[i])
  {
    if i == 0 {
      InitOk(run[0]);
    } else {
      RunInvariant(run, i - 1);
      assert StepAt(run, i - 1);
      NextKeeps(run[i - 1], run[i]);
    }
  }

  lemma InitOk(s: State)
    requires Init(s)
    ensures Inv(s)
  {
    forall t | t in s.acts ensures ActOk(s, t) {}
  }

  /** At most one thread processes the word, and when the owner bit is clear no tick
      is pending and no request is unapplied. */
  lemma OneOwner(run: seq<State>, i: nat, t: Tid, u: Tid)
    requires Run(run) && i < |run| && t in run[i].acts && u in run[i].acts
    ensures Owns(run[i].acts[t]) && Owns(run[i].acts[u]) ==> t == u
    ensures Owns(run[i].acts[t]) ==> run[i].word.owner
    ensures !run[i].word.owner ==> run[i].word.low == 0 && run[i].word.generation == run[i].applied
  {
    RunInvariant(run, i);
    assert ActOk(run[i], t) && ActOk(run[i], u);
  }

  /** A signal that lands finds the active word of its own generation: it is never
      added to a period. */
  lemma TicksLandOnActive(run: seq<State>, i: nat, t: Tid, g: nat, ticks: nat, seen: Control)
    requires Run(run) && i + 1 < |run| && SigSwaps(run[i], run[i + 1], t, g, ticks, seen) && run[i].word == seen
    ensures run[i].word.generation == g == run[i].applied
    ensures run[i].word.low == Count(run[i].accepted, g) - Count(run[i].drained, g)
  {
    RunInvariant(run, i);
    SignalFindsActive(run[i], t, g, ticks, seen);
  }

  /** What an owner drains was accepted as ticks, and a schedule started with a
      positive counter delivers at most that many. */
  lemma AtMostCounter(run: seq<State>, i: nat, g: nat)
    requires Run(run) && i < |run|
    ensures Count(run[i].drained, g) <= Count(run[i].accepted, g)
    ensures Count(run[i].counters, g) > 0 ==> Count(run[i].delivered, g) <= Count(run[i].counters, g)
    ensures run[i].applied < g ==> Count(run[i].accepted, g) == 0 && Count(run[i].delivered, g) == 0
  {
    RunInvariant(run, i);
    assert GenerationOk(run[i], g);
  }
}
