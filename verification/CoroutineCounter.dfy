/** The counter by which threads share one coroutine: a call adds two, every return
    from the coroutine to its runner takes one off twice.  A call that finds the
    counter at zero runs the coroutine; any other call is banked in the counter.

    One atomic access is one step, and any number of threads call.  Context switches
    are steps of the thread on which the coroutine runs.

    Auxiliary state, never read by a step's decisions: the calls made, the times the
    coroutine's body was resumed, and the thread that runs it. */
module CoroutineCounter {
  import opened Wrappers

  type Tid = nat

  datatype Act =
    | Idle
    | CallAdd
    | RunIn
    | Inside
    | YieldTwice
    | Ending
    | Out
    | OutSub(finished: bool)

  datatype State = State(
    counter: int, finished: bool, freed: bool, acts: map<Tid, Act>, calls: nat, resumes: nat, runner: Option<Tid>)

  function SetAct(s: State, t: Tid, a: Act): State { s.(acts := s.acts[t := a]) }

  predicate Does(s: State, t: Tid, a: Act) { t in s.acts && s.acts[t] == a }

  /** A call on a finished coroutine does nothing. */
  ghost predicate CallChecks(s: State, s': State, t: Tid) {
    Does(s, t, Idle) && s' == SetAct(s, t, if s.finished then Idle else CallAdd)
  }

  ghost predicate CallAdds(s: State, s': State, t: Tid) {
    && Does(s, t, CallAdd)
    && s' == SetAct(s, t, if s.counter != 0 then Idle else RunIn).(
         counter := s.counter + 2, calls := s.calls + 1, runner := if s.counter != 0 then s.runner else Some(t))
  }

  ghost predicate SwitchesIn(s: State, s': State, t: Tid) {
    Does(s, t, RunIn) && s' == SetAct(s, t, Inside).(resumes := s.resumes + 1)
  }

  /** With a call banked the coroutine goes straight on, else it switches out. */
  ghost predicate Yields(s: State, s': State, t: Tid) {
    Does(s, t, Inside) && s' == SetAct(s, t, if s.counter != 2 then YieldTwice else Out).(counter := s.counter - 1)
  }

  ghost predicate YieldsTwice(s: State, s': State, t: Tid) {
    Does(s, t, YieldTwice) && s' == SetAct(s, t, Inside).(counter := s.counter - 1, resumes := s.resumes + 1)
  }

  ghost predicate Ends(s: State, s': State, t: Tid) {
    Does(s, t, Inside) && s' == SetAct(s, t, Ending).(finished := true)
  }

  ghost predicate EndSubs(s: State, s': State, t: Tid) {
    Does(s, t, Ending) && s' == SetAct(s, t, Out).(counter := s.counter - 1)
  }

  ghost predicate OutLoads(s: State, s': State, t: Tid) {
    Does(s, t, Out) && s' == SetAct(s, t, OutSub(s.finished))
  }

  /** The runner goes round again for a banked call, or leaves; behind a finished
      coroutine it frees it. */
  ghost predicate OutSubs(s: State, s': State, t: Tid, finished: bool) {
    && Does(s, t, OutSub(finished))
    && s' == if s.counter != 1 && !finished then SetAct(s, t, RunIn).(counter := s.counter - 1)
             else SetAct(s, t, Idle).(counter := s.counter - 1, runner := None, freed := s.freed || finished)
  }

  ghost predicate Moves(s: State, s': State, t: Tid) {
    || CallChecks(s, s', t) || CallAdds(s, s', t) || SwitchesIn(s, s', t) || Yields(s, s', t) || YieldsTwice(s, s', t)
    || Ends(s, s', t) || EndSubs(s, s', t) || OutLoads(s, s', t) || (exists f :: OutSubs(s, s', t, f))
  }

  ghost predicate Next(s: State, s': State) { exists t: Tid :: Moves(s, s', t) }

  ghost predicate Init(s: State) {
    && s.counter == 0 && !s.finished && !s.freed && s.calls == 0 && s.resumes == 0 && s.runner == None
    && forall t :: t in s.acts ==> s.acts[t] == Idle
  }

  ghost predicate StepAt(run: seq<State>, i: nat)
    requires i + 1 < |run|
  {
    Next(run[i], run[i + 1])
  }

  ghost predicate Run(run: seq<State>) {
    run != [] && Init(run[0]) && forall i: nat {:trigger StepAt(run, i)} :: i + 1 < |run| ==> StepAt(run, i)
  }

  /** No call touches the coroutine after it was freed, neither to look at its flag nor
      to add: the callers' duty. */
  ghost predicate NoLateCall(run: seq<State>) {
    forall i: nat, t: Tid {:trigger LateCall(run, i, t)} :: i + 1 < |run| ==> !LateCall(run, i, t)
  }

  ghost predicate LateCall(run: seq<State>, i: nat, t: Tid)
    requires i + 1 < |run|
  {
    run[i].freed && (CallChecks(run[i], run[i + 1], t) || CallAdds(run[i], run[i + 1], t))
  }

  // ---------------------------------------------------------------------- invariant

  predicate Runs(a: Act) { a != Idle && a != CallAdd }

  /** What the counter says, by where the coroutine is. */
  ghost predicate CounterOk(s: State) {
    && s.resumes <= s.calls
    && var banked := 2 * (s.calls - s.resumes);
    && (s.runner.None? ==> (if s.freed then s.counter == banked else s.counter == 0 && banked == 0 && !s.finished))
    && (s.runner.Some? ==>
          && s.runner.value in s.acts && Runs(s.acts[s.runner.value]) && !s.freed
          && match s.acts[s.runner.value]
             case RunIn => s.counter == banked && 0 < banked && !s.finished
             case Inside => s.counter == banked + 2 && !s.finished
             case YieldTwice => s.counter == banked + 1 && 0 < banked && !s.finished
             case Ending => s.counter == banked + 2 && s.finished
             case Out => s.counter == banked + 1
             case OutSub(f) => s.counter == banked + 1 && f == s.finished
             case _ => false)
  }

  ghost predicate Inv(s: State) {
    && CounterOk(s)
    && (s.freed ==> s.finished)
    && forall t {:trigger t in s.acts} :: t in s.acts ==> (Runs(s.acts[t]) <==> s.runner == Some(t))
  }

  lemma MovesKeep(s: State, s': State, t: Tid)
    requires Inv(s) && Moves(s, s', t) && (s.freed ==> !CallAdds(s, s', t))
    ensures Inv(s')
  {
  }

  lemma {:induction false} RunInvariant(run: seq<State>, i: nat)
    requires Run(run) && NoLateCall(run) && i < |run|
    ensures Inv(run[i])
  {
    if i > 0 {
      RunInvariant(run, i - 1);
      assert StepAt(run, i - 1);
      var t: Tid :| Moves(run[i - 1], run[i], t);
      assert !LateCall(run, i - 1, t);
      MovesKeep(run[i - 1], run[i], t);
    }
  }

  // ------------------------------------------------------------------------ promises

  /** At most one thread runs the coroutine. */
  lemma OneRunner(run: seq<State>, i: nat, t: Tid, u: Tid)
    requires Run(run) && NoLateCall(run) && i < |run| && t in run[i].acts && u in run[i].acts
    ensures Runs(run[i].acts[t]) && Runs(run[i].acts[u]) ==> t == u
  {
    RunInvariant(run, i);
  }

  /** The coroutine switches out only when no call was banked for it, and goes straight on
      only for one that was. */
  lemma YieldsForBanked(run: seq<State>, i: nat, t: Tid)
    requires Run(run) && NoLateCall(run) && i + 1 < |run| && Yields(run[i], run[i + 1], t)
    ensures t in run[i + 1].acts && (run[i + 1].acts[t].Out? <==> run[i].calls == run[i].resumes)
    ensures run[i + 1].acts[t].YieldTwice? <==> run[i].resumes < run[i].calls
  {
    RunInvariant(run, i);
  }

  /** Every call becomes exactly one resumption or stays banked: the body has been
      resumed once per call, short of the calls banked in the counter, and a counter
      at rest has none. */
  lemma CallsAccountedFor(run: seq<State>, i: nat)
    requires Run(run) && NoLateCall(run) && i < |run|
    ensures run[i].resumes <= run[i].calls
    ensures run[i].runner.None? && !run[i].freed ==> run[i].counter == 0 && run[i].resumes == run[i].calls
    ensures forall t :: t in run[i].acts && run[i].acts[t].Inside? ==>
              run[i].counter == 2 * (run[i].calls - run[i].resumes) + 2
  {
    RunInvariant(run, i);
  }

  /** A finished context is never entered again. */
  lemma NeverReentered(run: seq<State>, i: nat, t: Tid)
    requires Run(run) && NoLateCall(run) && i + 1 < |run|
    requires SwitchesIn(run[i], run[i + 1], t) || YieldsTwice(run[i], run[i + 1], t)
    ensures !run[i].finished && !run[i].freed
  {
    RunInvariant(run, i);
  }

  /** The callers' duty is needed.  A call that looked at the flag before the coroutine
      finished and adds after the runner has left enters the finished context exactly
      when no other call was left banked. */
  lemma LateCallExact(run: seq<State>, i: nat, t: Tid)
    requires Run(run) && i + 1 < |run| && NoLateCall(run[..i + 1])
    requires run[i].freed && CallAdds(run[i], run[i + 1], t)
    ensures run[i].finished
    ensures run[i + 1].acts[t].RunIn? <==> run[i].calls == run[i].resumes
  {
    var before := run[..i + 1];
    forall j: nat | j + 1 < |before| ensures StepAt(before, j) { assert StepAt(run, j); }
    RunInvariant(before, i);
  }

  /** Such a run: thread 1 looks, thread 0 runs the coroutine to its end and frees it,
      and thread 1 goes in. */
  function Race(): (run: seq<State>)
    ensures |run| == 11
  {
    var s0 := State(0, false, false, map[0 := Idle, 1 := Idle], 0, 0, None);
    var s1 := SetAct(s0, 1, CallAdd);
    var s2 := SetAct(s1, 0, CallAdd);
    var s3 := SetAct(s2, 0, RunIn).(counter := 2, calls := 1, runner := Some(0));
    var s4 := SetAct(s3, 0, Inside).(resumes := 1);
    var s5 := SetAct(s4, 0, Ending).(finished := true);
    var s6 := SetAct(s5, 0, Out).(counter := 1);
    var s7 := SetAct(s6, 0, OutSub(true));
    var s8 := SetAct(s7, 0, Idle).(counter := 0, runner := None, freed := true);
    var s9 := SetAct(s8, 1, RunIn).(counter := 2, calls := 2, runner := Some(1));
    var s10 := SetAct(s9, 1, Inside).(resumes := 2);
    [s0, s1, s2, s3, s4, s5, s6, s7, s8, s9, s10]
  }

  lemma RaceStarts(run: seq<State>, i: nat)
    requires run == Race() && i < 5
    ensures StepAt(run, i)
  {
    assert CallChecks(run[0], run[1], 1) && CallChecks(run[1], run[2], 0) && CallAdds(run[2], run[3], 0);
    assert SwitchesIn(run[3], run[4], 0) && Ends(run[4], run[5], 0);
    assert Moves(run[i], run[i + 1], if i == 0 then 1 else 0);
  }

  lemma RaceEnds(run: seq<State>, i: nat)
    requires run == Race() && 5 <= i < 10
    ensures StepAt(run, i)
  {
    assert EndSubs(run[5], run[6], 0) && OutLoads(run[6], run[7], 0) && OutSubs(run[7], run[8], 0, true);
    assert CallAdds(run[8], run[9], 1) && SwitchesIn(run[9], run[10], 1);
    assert Moves(run[i], run[i + 1], if i >= 8 then 1 else 0);
  }

  lemma LateCallReenters()
    ensures Run(Race()) && LateCall(Race(), 8, 1)
    ensures Race()[9].finished && Race()[9].freed && SwitchesIn(Race()[9], Race()[10], 1)
  {
    var run := Race();
    forall i: nat | i + 1 < |run| ensures StepAt(run, i) {
      if i < 5 { RaceStarts(run, i); } else { RaceEnds(run, i); }
    }
  }
}
