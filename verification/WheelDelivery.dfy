/** What becomes of an armed timeout: as long as its operation is pending under the
    generation it was armed for, its link is in the wheel or with a thread, and once the
    sweep has passed the deadline and no thread has the link any more, the operation has
    been timed out or has ended by itself. */
module WheelDelivery {
  import opened Geometry
  import opened WheelMachine
  import opened WheelInvariant
  import opened WheelTheorems

  /** The operation waits under the generation of the link. */
  predicate Awaits(s: State, link: Link) { TagOf(s, link.op) == Tag(link.generation, true) }

  /** A thread inserts the link or is about to time it out. */
  predicate Inserted(i: Insertion, link: Link) {
    && i.Inserting? && i.link == link
    && (i.step.Routing? || i.step.HalfLoaded? || i.step.Attempting? || i.step.Refused? || i.step.Due?)
  }

  ghost predicate InsertedBy(s: State, t: Tid, link: Link) { t in s.threads && Inserted(s.threads[t].ins, link) }

  /** The link hangs off a slot or is in a detached chain. */
  ghost predicate Published(s: State, p: Pub, link: Link) {
    p in s.pubs && s.pubs[p].link == link && !s.pubs[p].place.Done?
  }

  ghost predicate Carried(s: State, link: Link) {
    (exists p: Pub :: Published(s, p, link)) || (exists t: Tid :: InsertedBy(s, t, link))
  }

  // --------------------------------------------------------------------- one step

  /** Nothing that is published is finished off, and no other thread's record moves. */
  ghost predicate Leaves(s: State, s': State, t: Tid) {
    && (forall p: Pub, link: Link :: Published(s, p, link) ==> Published(s', p, link))
    && (forall u: Tid, link: Link :: u != t && InsertedBy(s, u, link) ==> InsertedBy(s', u, link))
  }

  ghost predicate Hands(s: State, s': State, t: Tid) {
    forall link: Link :: InsertedBy(s, t, link) ==> InsertedBy(s', t, link)
  }

  /** Only the thread's own record and words outside the wheel's books change. */
  ghost predicate Quiet(s: State, s': State, t: Tid) {
    && t in s.threads && t in s'.threads && (forall u :: u in s.threads && u != t ==> u in s'.threads && s'.threads[u] == s.threads[u])
    && s'.pubs == s.pubs && s'.ops == s.ops && s'.log == s.log
    && forall link: Link :: Inserted(s.threads[t].ins, link) ==> Inserted(s'.threads[t].ins, link)
  }

  lemma QuietLeaves(s: State, s': State, t: Tid)
    requires Quiet(s, s', t)
    ensures Leaves(s, s', t) && Hands(s, s', t)
  {
  }

  lemma RouteQuiet(c: Config, s: State, s': State, t: Tid)
    requires InsertLate(c, s, s', t) || InsertLoadLow(c, s, s', t)
    ensures Quiet(s, s', t)
  {
  }

  lemma KickQuiet(c: Config, s: State, s': State, t: Tid)
    requires KickLoad(c, s, s', t)
    ensures Quiet(s, s', t)
  {
  }

  lemma ObservedQuiet(c: Config, s: State, s': State, t: Tid)
    requires InsertLoadHigh(c, s, s', t) || InsertLost(c, s, s', t)
    ensures Quiet(s, s', t)
  {
  }

  lemma LocalQuiet(c: Config, s: State, s': State, t: Tid)
    requires InsertLocalMoves(c, s, s', t)
    ensures Quiet(s, s', t)
  {
    if InsertLoadHigh(c, s, s', t) || InsertLost(c, s, s', t) { ObservedQuiet(c, s, s', t); }
    else if KickLoad(c, s, s', t) { KickQuiet(c, s, s', t); }
    else { RouteQuiet(c, s, s', t); }
  }

  lemma PublishLeaves(c: Config, s: State, s': State, t: Tid, p: Pub, link: Link)
    requires InsertPublish(c, s, s', t, p)
    ensures Leaves(s, s', t) && (InsertedBy(s, t, link) ==> Published(s', p, link))
  {
  }

  lemma MarkLeaves(c: Config, s: State, s': State, t: Tid)
    requires InsertMark(c, s, s', t)
    ensures Leaves(s, s', t) && Hands(s, s', t)
  {
  }

  lemma KickLeaves(c: Config, s: State, s': State, t: Tid)
    requires KickCovered(c, s, s', t) || KickEnd(c, s, s', t)
    ensures Leaves(s, s', t) && Hands(s, s', t)
  {
  }

  lemma ArmLeaves(c: Config, s: State, s': State, t: Tid, link: Link)
    requires Arm(c, s, s', t, link)
    ensures Leaves(s, s', t) && Hands(s, s', t) && InsertedBy(s', t, link)
  {
  }

  /** The thread that gives a link up has ended the operation's wait. */
  lemma DeliverLeaves(c: Config, s: State, s': State, t: Tid, link: Link)
    requires Deliver(c, s, s', t)
    ensures Leaves(s, s', t) && (InsertedBy(s, t, link) ==> !Awaits(s', link))
  {
  }

  lemma BeginQuiet(c: Config, s: State, s': State, t: Tid, now: nat)
    requires SweepBegin(c, s, s', t, now)
    ensures Quiet(s, s', t)
  {
  }

  lemma TickQuiet(c: Config, s: State, s': State, t: Tid)
    requires SweepLoadCursor(c, s, s', t) || ProcessEnd(c, s, s', t)
    ensures Quiet(s, s', t)
  {
  }

  lemma ReadQuiet(c: Config, s: State, s': State, t: Tid)
    requires DetachLoadLow(c, s, s', t) || DetachLoadHigh(c, s, s', t)
    ensures Quiet(s, s', t)
  {
  }

  lemma TestQuiet(c: Config, s: State, s': State, t: Tid)
    requires DetachTest(c, s, s', t) || DetachLost(c, s, s', t)
    ensures Quiet(s, s', t)
  {
  }

  lemma SweepLocalQuiet(c: Config, s: State, s': State, t: Tid)
    requires SweepLocalMoves(c, s, s', t)
    ensures Quiet(s, s', t)
  {
    if now: nat :| SweepBegin(c, s, s', t, now) { BeginQuiet(c, s, s', t, now); }
    else if SweepLoadCursor(c, s, s', t) || ProcessEnd(c, s, s', t) { TickQuiet(c, s, s', t); }
    else if DetachLoadLow(c, s, s', t) || DetachLoadHigh(c, s, s', t) { ReadQuiet(c, s, s', t); }
    else { TestQuiet(c, s, s', t); }
  }

  lemma OpenQuiet(c: Config, s: State, s': State, t: Tid)
    requires DetachOpen(c, s, s', t)
    ensures Quiet(s, s', t)
  {
  }

  lemma CloseQuiet(c: Config, s: State, s': State, t: Tid)
    requires DetachClose(c, s, s', t)
    ensures Quiet(s, s', t)
  {
  }

  lemma BitQuiet(c: Config, s: State, s': State, t: Tid)
    requires DetachClear(c, s, s', t) || DetachRepair(c, s, s', t)
    ensures Quiet(s, s', t)
  {
  }

  lemma ConfirmQuiet(c: Config, s: State, s': State, t: Tid)
    requires SweepConfirm(c, s, s', t)
    ensures Quiet(s, s', t)
  {
  }

  lemma DrainLeaves(c: Config, s: State, s': State, t: Tid)
    requires DetachDrain(c, s, s', t)
    ensures Leaves(s, s', t) && Hands(s, s', t)
  {
  }

  /** A held link that is awaited goes to the thread that held it. */
  lemma ProcessHands(c: Config, s: State, s': State, t: Tid, link: Link)
    requires ProcessLink(c, s, s', t) && Carried(s, link) && Awaits(s, link)
    ensures Carried(s', link)
  {
    if p: Pub :| Published(s, p, link) {
      if p == s.threads[t].sweep.held[0] { assert InsertedBy(s', t, link); } else { assert Published(s', p, link); }
    } else {
      var u: Tid :| InsertedBy(s, u, link);
      assert InsertedBy(s', u, link);
    }
  }

  lemma EnterQuiet(c: Config, s: State, s': State, t: Tid)
    requires LoopEnter(c, s, s', t) || StoreAwake(c, s, s', t)
    ensures Quiet(s, s', t)
  {
  }

  lemma EternalQuiet(c: Config, s: State, s': State, t: Tid, now: nat)
    requires StoreEternal(c, s, s', t, now)
    ensures Quiet(s, s', t)
  {
  }

  lemma WakeQuiet(c: Config, s: State, s': State, t: Tid)
    requires StoreWake(c, s, s', t)
    ensures Quiet(s, s', t)
  {
  }

  lemma WakeUpQuiet(c: Config, s: State, s': State, t: Tid)
    requires WakeUp(c, s, s', t)
    ensures Quiet(s, s', t)
  {
  }

  lemma CursorQuiet(c: Config, s: State, s': State, t: Tid)
    requires SleepLoadCursor(c, s, s', t)
    ensures Quiet(s, s', t)
  {
  }

  lemma SnapLoopQuiet(c: Config, s: State, s': State, t: Tid)
    requires SnapLoop(c, s, s', t)
    ensures Quiet(s, s', t)
  {
  }

  lemma SnapQuiet(c: Config, s: State, s': State, t: Tid)
    requires SnapOverflow(c, s, s', t)
    ensures Quiet(s, s', t)
  {
  }

  lemma ScanQuiet(c: Config, s: State, s': State, t: Tid)
    requires ScanLoad(c, s, s', t)
    ensures Quiet(s, s', t)
  {
  }

  lemma SleepQuiet(c: Config, s: State, s': State, t: Tid)
    requires SleepMoves(c, s, s', t)
    ensures Quiet(s, s', t)
  {
    if now: nat :| StoreEternal(c, s, s', t, now) { EternalQuiet(c, s, s', t, now); }
    else if SleepLoadCursor(c, s, s', t) { CursorQuiet(c, s, s', t); }
    else if SnapLoop(c, s, s', t) { SnapLoopQuiet(c, s, s', t); }
    else if SnapOverflow(c, s, s', t) { SnapQuiet(c, s, s', t); }
    else if ScanLoad(c, s, s', t) { ScanQuiet(c, s, s', t); }
    else if StoreWake(c, s, s', t) { WakeQuiet(c, s, s', t); }
    else if WakeUp(c, s, s', t) { WakeUpQuiet(c, s, s', t); }
    else { EnterQuiet(c, s, s', t); }
  }

  /** The steps that are not quiet. */
  ghost predicate Touches(c: Config, s: State, s': State, t: Tid) {
    InsertSharedMoves(c, s, s', t) || ProcessLink(c, s, s', t) || DetachDrain(c, s, s', t)
  }

  lemma OthersQuiet(c: Config, s: State, s': State, t: Tid)
    requires Moves(c, s, s', t) && !Touches(c, s, s', t)
    ensures Quiet(s, s', t)
  {
    if InsertLocalMoves(c, s, s', t) { LocalQuiet(c, s, s', t); }
    else if SweepLocalMoves(c, s, s', t) { SweepLocalQuiet(c, s, s', t); }
    else if SleepMoves(c, s, s', t) { SleepQuiet(c, s, s', t); }
    else if DetachOpen(c, s, s', t) { OpenQuiet(c, s, s', t); }
    else if DetachClose(c, s, s', t) { CloseQuiet(c, s, s', t); }
    else if SweepConfirm(c, s, s', t) { ConfirmQuiet(c, s, s', t); }
    else { BitQuiet(c, s, s', t); }
  }

  lemma HandedOn(s: State, s': State, t: Tid, link: Link)
    requires Leaves(s, s', t) && Carried(s, link) && (InsertedBy(s, t, link) ==> Carried(s', link))
    ensures Carried(s', link)
  {
    if p: Pub :| Published(s, p, link) {
      assert Published(s', p, link);
    } else {
      var u: Tid :| InsertedBy(s, u, link);
      if u != t { assert InsertedBy(s', u, link); }
    }
  }

  lemma HandsOn(s: State, s': State, t: Tid, link: Link)
    requires Leaves(s, s', t) && Hands(s, s', t) && Carried(s, link)
    ensures Carried(s', link)
  {
    if InsertedBy(s, t, link) { assert InsertedBy(s', t, link); }
    HandedOn(s, s', t, link);
  }

  lemma SharedCarries(c: Config, s: State, s': State, t: Tid, link: Link)
    requires InsertSharedMoves(c, s, s', t) && Carried(s, link) && Awaits(s', link)
    ensures Carried(s', link)
  {
    if p: Pub :| InsertPublish(c, s, s', t, p) {
      PublishLeaves(c, s, s', t, p, link);
      HandedOn(s, s', t, link);
    } else if Deliver(c, s, s', t) {
      DeliverLeaves(c, s, s', t, link);
      HandedOn(s, s', t, link);
    } else if l: Link :| Arm(c, s, s', t, l) {
      ArmLeaves(c, s, s', t, l);
      HandsOn(s, s', t, link);
    } else {
      if InsertMark(c, s, s', t) { MarkLeaves(c, s, s', t); } else { KickLeaves(c, s, s', t); }
      HandsOn(s, s', t, link);
    }
  }

  lemma MovesCarry(c: Config, s: State, s': State, t: Tid, link: Link)
    requires Moves(c, s, s', t) && Carried(s, link) && Awaits(s, link) && Awaits(s', link)
    ensures Carried(s', link)
  {
    if InsertSharedMoves(c, s, s', t) {
      SharedCarries(c, s, s', t, link);
    } else if ProcessLink(c, s, s', t) {
      ProcessHands(c, s, s', t, link);
    } else if DetachDrain(c, s, s', t) {
      DrainLeaves(c, s, s', t);
      HandsOn(s, s', t, link);
    } else {
      OthersQuiet(c, s, s', t);
      QuietLeaves(s, s', t);
      HandsOn(s, s', t, link);
    }
  }

  /** Only a delivery and the environment touch operation words, and only a delivery the
      log. */
  lemma WordsKept(c: Config, s: State, s': State, t: Tid)
    requires Moves(c, s, s', t) && !Deliver(c, s, s', t)
    ensures s'.ops == s.ops && s'.log == s.log
  {
    if !Touches(c, s, s', t) { OthersQuiet(c, s, s', t); }
    else if InsertSharedMoves(c, s, s', t) { SharedWords(c, s, s', t); }
    else { SweepWords(c, s, s', t); }
  }

  lemma SweepWords(c: Config, s: State, s': State, t: Tid)
    requires ProcessLink(c, s, s', t) || DetachDrain(c, s, s', t)
    ensures s'.ops == s.ops && s'.log == s.log
  {
  }

  lemma SharedWords(c: Config, s: State, s': State, t: Tid)
    requires InsertSharedMoves(c, s, s', t) && !Deliver(c, s, s', t)
    ensures s'.ops == s.ops && s'.log == s.log
  {
    if p: Pub :| InsertPublish(c, s, s', t, p) { PublishWords(c, s, s', t, p); }
    else if link: Link :| Arm(c, s, s', t, link) { ArmWords(c, s, s', t, link); }
    else if InsertMark(c, s, s', t) { MarkWords(c, s, s', t); }
    else { KickWords(c, s, s', t); }
  }

  lemma PublishWords(c: Config, s: State, s': State, t: Tid, p: Pub)
    requires InsertPublish(c, s, s', t, p)
    ensures s'.ops == s.ops && s'.log == s.log
  {
  }

  lemma ArmWords(c: Config, s: State, s': State, t: Tid, link: Link)
    requires Arm(c, s, s', t, link)
    ensures s'.ops == s.ops && s'.log == s.log
  {
  }

  lemma KickWords(c: Config, s: State, s': State, t: Tid)
    requires KickCovered(c, s, s', t) || KickEnd(c, s, s', t)
    ensures s'.ops == s.ops && s'.log == s.log
  {
  }

  lemma MarkWords(c: Config, s: State, s': State, t: Tid)
    requires InsertMark(c, s, s', t)
    ensures s'.ops == s.ops && s'.log == s.log
  {
  }

  /** How one operation word moves: its delivery, its own end or its next generation. */
  ghost predicate WordMoves(s: State, s': State, op: nat) {
    var was, now := TagOf(s, op), TagOf(s', op);
    now == was || now == Tag(was.generation, false) || now == Tag(was.generation + 1, true)
  }

  lemma DeliverMoves(c: Config, s: State, s': State, t: Tid, op: nat)
    requires Deliver(c, s, s', t)
    ensures s.log <= s'.log
    ensures TagOf(s', op) == TagOf(s, op)
         || (TagOf(s, op).pending && TagOf(s', op) == Tag(TagOf(s, op).generation, false) && TimedOut(s', op, TagOf(s, op).generation))
  {
    if s'.log != s.log { assert s'.log[|s.log|] in s'.log; }
  }

  lemma NextWords(c: Config, s: State, s': State, op: nat)
    requires Next(c, s, s')
    ensures WordMoves(s, s', op) && s.log <= s'.log
    ensures TagOf(s', op) == TagOf(s, op) || OpChange(c, s, s', op)
         || (TagOf(s, op).pending && TagOf(s', op) == Tag(TagOf(s, op).generation, false) && TimedOut(s', op, TagOf(s, op).generation))
  {
    if t: Tid :| Moves(c, s, s', t) {
      if Deliver(c, s, s', t) { DeliverMoves(c, s, s', t, op); } else { WordsKept(c, s, s', t); }
    } else if o: nat :| OpChange(c, s, s', o) {
      ChangeMoves(c, s, s', o, op);
    }
  }

  lemma ChangeMoves(c: Config, s: State, s': State, o: nat, op: nat)
    requires OpChange(c, s, s', o)
    ensures WordMoves(s, s', op) && s.log <= s'.log && (TagOf(s', op) != TagOf(s, op) ==> o == op)
  {
  }

  lemma NextCarries(c: Config, s: State, s': State, link: Link)
    requires Next(c, s, s') && Carried(s, link) && Awaits(s, link) && Awaits(s', link)
    ensures Carried(s', link)
  {
    if t: Tid :| Moves(c, s, s', t) {
      MovesCarry(c, s, s', t, link);
    } else {
      StillCarried(s, s', link);
    }
  }

  lemma StillCarried(s: State, s': State, link: Link)
    requires s'.pubs == s.pubs && s'.threads == s.threads && Carried(s, link)
    ensures Carried(s', link)
  {
    if p: Pub :| Published(s, p, link) {
      assert Published(s', p, link);
    } else {
      var u: Tid :| InsertedBy(s, u, link);
      assert InsertedBy(s', u, link);
    }
  }

  // ------------------------------------------------------------------------- runs

  /** Step `k` arms the link, for a generation that its operation has reached. */
  ghost predicate ArmedAt(c: Config, run: seq<State>, k: nat, t: Tid, link: Link) {
    k + 1 < |run| && Arm(c, run[k], run[k + 1], t, link) && link.generation <= TagOf(run[k], link.op).generation
  }

  /** While the operation waits, its link is parked, in a detached chain, or with a thread
      that inserts it or is about to time it out. */
  ghost predicate Accounted(s: State, link: Link) {
    link.generation <= TagOf(s, link.op).generation && (Awaits(s, link) ==> Carried(s, link))
  }

  lemma NextAccounts(c: Config, s: State, s': State, link: Link)
    requires Next(c, s, s') && Accounted(s, link)
    ensures Accounted(s', link)
  {
    NextWords(c, s, s', link.op);
    if Awaits(s', link) { NextCarries(c, s, s', link); }
  }

  lemma ArmAccounts(c: Config, s: State, s': State, t: Tid, link: Link)
    requires Arm(c, s, s', t, link) && link.generation <= TagOf(s, link.op).generation
    ensures Accounted(s', link)
  {
    ArmLeaves(c, s, s', t, link);
  }

  /** No timeout is lost, in any state after it was armed. */
  lemma {:induction false} ArmedIsCarried(c: Config, run: seq<State>, k: nat, i: nat, t: Tid, link: Link)
    requires Run(c, run) && ArmedAt(c, run, k, t, link) && k < i < |run|
    ensures Accounted(run[i], link)
  {
    if i == k + 1 {
      ArmAccounts(c, run[k], run[i], t, link);
    } else {
      ArmedIsCarried(c, run, k, i - 1, t, link);
      assert StepAt(c, run, i - 1);
      NextAccounts(c, run[i - 1], run[i], link);
    }
  }

  /** Some thread has the link in its hands. */
  ghost predicate InHands(s: State, link: Link) {
    || (exists p: Pub :: p in s.pubs && s.pubs[p].link == link && s.pubs[p].place.Held?)
    || (exists t: Tid :: InsertedBy(s, t, link))
  }

  /** Once the cursor is past the deadline and no thread has the link, the operation does
      not wait any more. */
  lemma SweptIsOver(c: Config, run: seq<State>, k: nat, i: nat, t: Tid, link: Link)
    requires Run(c, run) && ArmedAt(c, run, k, t, link) && k < i < |run|
    requires link.deadline < run[i].cursor && !InHands(run[i], link)
    ensures !Awaits(run[i], link)
  {
    ArmedIsCarried(c, run, k, i, t, link);
    if Awaits(run[i], link) {
      var p: Pub :| Published(run[i], p, link);
      RunInvariant(c, run, i);
      assert PubOk(c, run[i], p);
      SweptBelowCursor(c, run, i, run[i].pubs[p].key, link.deadline);
    }
  }

  /** From `k` to `i` the operation does not end by itself and is not recycled. */
  ghost predicate LeftAlone(c: Config, run: seq<State>, k: nat, i: nat, op: nat) {
    forall m: nat {:trigger Untouched(c, run, m, op)} :: k <= m < i < |run| ==> Untouched(c, run, m, op)
  }

  ghost predicate Untouched(c: Config, run: seq<State>, m: nat, op: nat)
    requires m + 1 < |run|
  {
    !OpChange(c, run[m], run[m + 1], op)
  }

  ghost predicate TimedOut(s: State, op: nat, generation: nat) {
    exists e :: e in s.log && e.link.op == op && e.link.generation == generation
  }

  lemma StillTimedOut(s: State, s': State, op: nat, generation: nat)
    requires s.log <= s'.log
    ensures TimedOut(s, op, generation) ==> TimedOut(s', op, generation)
  {
    if e :| e in s.log && e.link.op == op && e.link.generation == generation { assert e in s'.log; }
  }

  /** The operation still waits under the generation, or has been timed out. */
  ghost predicate WaitsOrTimedOut(s: State, op: nat, generation: nat) {
    || TagOf(s, op) == Tag(generation, true)
    || (TagOf(s, op) == Tag(generation, false) && TimedOut(s, op, generation))
  }

  lemma NextWaits(c: Config, s: State, s': State, op: nat, generation: nat)
    requires Next(c, s, s') && !OpChange(c, s, s', op) && WaitsOrTimedOut(s, op, generation)
    ensures WaitsOrTimedOut(s', op, generation)
  {
    NextWords(c, s, s', op);
    StillTimedOut(s, s', op, generation);
  }

  lemma {:induction false} EndsTimedOut(c: Config, run: seq<State>, k: nat, i: nat, op: nat, generation: nat)
    requires Run(c, run) && k <= i < |run| && TagOf(run[k], op) == Tag(generation, true) && LeftAlone(c, run, k, i, op)
    ensures WaitsOrTimedOut(run[i], op, generation)
  {
    if k < i {
      EndsTimedOut(c, run, k, i - 1, op, generation);
      assert StepAt(c, run, i - 1) && Untouched(c, run, i - 1, op);
      NextWaits(c, run[i - 1], run[i], op, generation);
    }
  }

  /** Completeness: an operation that waits when it is armed, and is left alone, has been
      timed out once the cursor is past its deadline and no thread has its link. */
  lemma DueIsTimedOut(c: Config, run: seq<State>, k: nat, i: nat, t: Tid, link: Link)
    requires Run(c, run) && ArmedAt(c, run, k, t, link) && k < i < |run|
    requires Awaits(run[k], link) && LeftAlone(c, run, k, i, link.op)
    requires link.deadline < run[i].cursor && !InHands(run[i], link)
    ensures TimedOut(run[i], link.op, link.generation)
  {
    SweptIsOver(c, run, k, i, t, link);
    EndsTimedOut(c, run, k, i, link.op, link.generation);
  }
}
