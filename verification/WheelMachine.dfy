/** The concurrent timer wheel as a state machine.

    Any number of threads run the arm path, the sweep and the sleep planner.  One
    step is one load, store, fetch-op or compare-and-swap of one shared word (the
    two halves of a 128-bit load are two steps) together with the local work up
    to the next shared access.  Steps interleave sequentially consistently.

    Threads `0 .. loops-1` own the loop state of the same number; every other
    thread sweeps without a loop state. */
module WheelMachine {
  import opened Wrappers
  import opened Geometry
  import opened WheelScan
  import opened TimerClock

  type Tid = nat
  type Addr = nat
  type Pub = nat

  datatype Config = Config(g: Geometry, loops: nat)

  /** What a timeout-grid link carries. */
  datatype Link = Link(addr: Addr, op: nat, generation: nat, deadline: nat)

  /** A slot: the chain hanging off its head, newest first, and its window start. */
  datatype Slot = Slot(chain: seq<Pub>, base: nat)

  /** The two words of a slot as a thread sees them. */
  datatype Pair = Pair(low: Option<Addr>, high: nat)

  /** A published wake-up horizon. */
  datatype Horizon = Awake | Eternal | At(tick: nat)

  /** One successful publication of a link into a slot; never reused. */
  datatype Publication = Publication(link: Link, key: Key, publisher: Tid, stage: Stage, place: Place)
  datatype Stage = Unmarked | Marked | Returned
  datatype Place = Parked | Held(holder: Tid) | Done

  datatype Owner = Pool | ByThread(t: Tid) | ByPub(p: Pub)

  /** The status word of an operation. */
  datatype Tag = Tag(generation: nat, pending: bool)

  datatype Insertion = NotInserting | Inserting(link: Link, hint: nat, step: InsertStep)
  datatype InsertStep =
    | Routing
    | HalfLoaded(low: Option<Addr>)
    | Attempting(observed: Pair)
    | Marking(pub: Pub)
    | Kicking(pub: Pub, next: nat, sawSleeper: bool)
    | Refused
    | Due

  datatype Sweep =
    | NoSweep
    | Starting(now: nat)
    | Visiting(now: nat, tick: nat, level: nat, bracket: bool, step: DetachStep)
    | Processing(now: nat, tick: nat, level: nat, held: seq<Pub>)
    | Confirming(now: nat, tick: nat)
  datatype DetachStep =
    | Loading
    | HalfRead(low: Option<Addr>)
    | Testing(observed: Pair)
    | Opening(observed: Pair)
    | Clearing(observed: Pair)
    | Draining(observed: Pair)
    | Repairing
    | Closing(held: seq<Pub>)

  datatype Sleep =
    | Outside
    | Absent
    | Running
    | Preparing(now: nat)
    | Snapping(now: nat, from: nat, vals: seq<nat>, after: Option<Attempt>)
    | Planning(now: nat, from: nat, before: seq<nat>, retried: bool, scan: Scan)
    | Committing(now: nat, wake: Wake)
    | Asleep
    | Waking
  /** A finished bitmap scan awaiting its closing snapshot. */
  datatype Attempt = Attempt(before: seq<nat>, retried: bool, best: Wake)

  datatype Thread = Thread(ins: Insertion, sweep: Sweep, sleep: Sleep)

  /** A delivered timeout: the link, the hint it was last routed from, and when. */
  datatype Timeout = Timeout(link: Link, hint: nat, at: nat)

  datatype State = State(
    slots: map<Key, Slot>,
    bits: set<Key>,
    cursor: nat,
    clock: nat,
    wake: seq<Horizon>,
    seqs: seq<nat>,
    epoch: nat,
    active: nat,
    bell: bool,
    ops: map<nat, Tag>,
    threads: map<Tid, Thread>,
    // history: publications, link ownership, who last cleared a bit or opened an
    // overflow bracket, and the timeouts delivered so far
    pubs: map<Pub, Publication>,
    owner: map<Addr, Owner>,
    clearer: map<Key, Tid>,
    openers: set<Tid>,
    log: seq<Timeout>)

  // ------------------------------------------------------------------- helpers

  function HeadOf(s: State, chain: seq<Pub>): Option<Addr> {
    if chain != [] && chain[0] in s.pubs then Some(s.pubs[chain[0]].link.addr) else None
  }

  function PairOf(s: State, k: Key): Pair
    requires k in s.slots
  {
    Pair(HeadOf(s, s.slots[k].chain), s.slots[k].base)
  }

  function With(s: State, t: Tid, th: Thread): State {
    s.(threads := s.threads[t := th])
  }

  function SetIns(s: State, t: Tid, ins: Insertion): State
    requires t in s.threads
  {
    With(s, t, s.threads[t].(ins := ins))
  }

  function SetSweep(s: State, t: Tid, sweep: Sweep): State
    requires t in s.threads
  {
    With(s, t, s.threads[t].(sweep := sweep))
  }

  function SetSleep(s: State, t: Tid, sleep: Sleep): State
    requires t in s.threads
  {
    With(s, t, s.threads[t].(sleep := sleep))
  }

  function TagOf(s: State, op: nat): Tag {
    if op in s.ops then s.ops[op] else Tag(0, false)
  }

  /** The deadline is within the wheel's range of the hint. */
  predicate InRange(c: Config, hint: nat, deadline: nat) { deadline < hint + Range(c.g) }

  // ---------------------------------------------------------------- publishing

  /** The insert loop after it has seen a pair of the routed slot. */
  function Observed(c: Config, link: Link, hint: nat, pair: Pair): Insertion
    requires hint <= link.deadline
  {
    if pair.high == RouteBase(c.g, hint, link.deadline) then Inserting(link, hint, Attempting(pair))
    else if RouteLevel(c.g, hint, link.deadline) == 0 then Inserting(link, hint, Refused)
    else Inserting(link, RouteBase(c.g, hint, link.deadline), Routing)
  }

  ghost predicate Inserts(s: State, t: Tid) {
    t in s.threads && s.threads[t].ins.Inserting?
  }

  /** Local: the deadline is behind the cursor hint. */
  ghost predicate InsertLate(c: Config, s: State, s': State, t: Tid) {
    && Inserts(s, t)
    && var i := s.threads[t].ins;
    && i.step.Routing? && i.link.deadline < i.hint
    && s' == SetIns(s, t, i.(step := Refused))
  }

  ghost predicate InsertLoadLow(c: Config, s: State, s': State, t: Tid) {
    && Inserts(s, t)
    && var i := s.threads[t].ins;
    && i.step.Routing? && i.hint <= i.link.deadline
    && var k := RouteKey(c.g, i.hint, i.link.deadline);
    && k in s.slots
    && s' == SetIns(s, t, i.(step := HalfLoaded(PairOf(s, k).low)))
  }

  ghost predicate InsertLoadHigh(c: Config, s: State, s': State, t: Tid) {
    && Inserts(s, t)
    && var i := s.threads[t].ins;
    && i.step.HalfLoaded? && i.hint <= i.link.deadline
    && var k := RouteKey(c.g, i.hint, i.link.deadline);
    && k in s.slots
    && s' == SetIns(s, t, Observed(c, i.link, i.hint, Pair(i.step.low, s.slots[k].base)))
  }

  ghost predicate InsertLost(c: Config, s: State, s': State, t: Tid) {
    && Inserts(s, t)
    && var i := s.threads[t].ins;
    && i.step.Attempting? && i.hint <= i.link.deadline
    && var k := RouteKey(c.g, i.hint, i.link.deadline);
    && k in s.slots && i.step.observed != PairOf(s, k)
    && s' == SetIns(s, t, Observed(c, i.link, i.hint, PairOf(s, k)))
  }

  /** The pair CAS succeeds: the link becomes the head of the chain. */
  ghost predicate InsertPublish(c: Config, s: State, s': State, t: Tid, p: Pub) {
    && Inserts(s, t)
    && var i := s.threads[t].ins;
    && i.step.Attempting? && i.hint <= i.link.deadline
    && var k := RouteKey(c.g, i.hint, i.link.deadline);
    && k in s.slots && i.step.observed == PairOf(s, k)
    && p !in s.pubs
    && s' == SetIns(s, t, i.(step := Marking(p))).(
               slots := s.slots[k := Slot([p] + s.slots[k].chain, s.slots[k].base)],
               pubs := s.pubs[p := Publication(i.link, k, t, Unmarked, Parked)],
               owner := s.owner[i.link.addr := ByPub(p)])
  }

  /** The publisher's own occupancy set. */
  ghost predicate InsertMark(c: Config, s: State, s': State, t: Tid) {
    && Inserts(s, t)
    && var i := s.threads[t].ins;
    && i.step.Marking? && i.step.pub in s.pubs
    && var pub := s.pubs[i.step.pub];
    && s' == SetIns(s, t, i.(step := Kicking(i.step.pub, 0, false))).(
               bits := s.bits + {pub.key},
               pubs := s.pubs[i.step.pub := pub.(stage := Marked)])
  }

  predicate Covers(h: Horizon, deadline: nat) {
    h.At? && h.tick <= deadline + 1
  }

  /** One horizon load of the kick loop that does not end it. */
  ghost predicate KickLoad(c: Config, s: State, s': State, t: Tid) {
    && Inserts(s, t)
    && var i := s.threads[t].ins;
    && i.step.Kicking? && i.step.next < c.loops && i.step.next < |s.wake|
    && var h := s.wake[i.step.next];
    && !Covers(h, i.link.deadline)
    && s' == SetIns(s, t, i.(step := Kicking(i.step.pub, i.step.next + 1, i.step.sawSleeper || h != Awake)))
  }

  /** A covering horizon ends the insert. */
  ghost predicate KickCovered(c: Config, s: State, s': State, t: Tid) {
    && Inserts(s, t)
    && var i := s.threads[t].ins;
    && i.step.Kicking? && i.step.next < c.loops && i.step.next < |s.wake| && i.step.pub in s.pubs
    && Covers(s.wake[i.step.next], i.link.deadline)
    && s' == SetIns(s, t, NotInserting).(
               pubs := s.pubs[i.step.pub := s.pubs[i.step.pub].(stage := Returned)])
  }

  /** The loop is over: ring if a sleeper was seen. */
  ghost predicate KickEnd(c: Config, s: State, s': State, t: Tid) {
    && Inserts(s, t)
    && var i := s.threads[t].ins;
    && i.step.Kicking? && i.step.next == c.loops && i.step.pub in s.pubs
    && s' == SetIns(s, t, NotInserting).(
               bell := s.bell || i.step.sawSleeper,
               pubs := s.pubs[i.step.pub := s.pubs[i.step.pub].(stage := Returned)])
  }

  /** The generation-gated cancel of a due or refused link; the link is recycled. */
  ghost predicate Deliver(c: Config, s: State, s': State, t: Tid) {
    && Inserts(s, t)
    && var i := s.threads[t].ins;
    && (i.step.Refused? || i.step.Due?)
    && var wins := TagOf(s, i.link.op) == Tag(i.link.generation, true);
    && s' == SetIns(s, t, NotInserting).(
               ops := if wins then s.ops[i.link.op := Tag(i.link.generation, false)] else s.ops,
               log := if wins then s.log + [Timeout(i.link, i.hint, s.clock)] else s.log,
               owner := s.owner[i.link.addr := Pool])
  }

  /** A producer takes a free link and arms it with the cursor it just loaded. */
  ghost predicate Arm(c: Config, s: State, s': State, t: Tid, link: Link) {
    && t in s.threads
    && var th := s.threads[t];
    && th.ins.NotInserting? && (th.sweep.NoSweep? || th.sweep.Processing?)
    && (th.sleep.Outside? || th.sleep.Running?)
    && (link.addr in s.owner ==> s.owner[link.addr] == Pool)
    && s' == SetIns(s, t, Inserting(link, s.cursor, Routing)).(
               owner := s.owner[link.addr := ByThread(t)])
  }

  // ------------------------------------------------------------------- sweeping

  ghost predicate Sweeps(s: State, t: Tid) {
    t in s.threads && s.threads[t].ins.NotInserting?
  }

  ghost predicate SweepBegin(c: Config, s: State, s': State, t: Tid, now: nat) {
    && Sweeps(s, t)
    && var th := s.threads[t];
    && th.sweep.NoSweep? && (th.sleep.Outside? || th.sleep.Running?)
    && now <= s.clock
    && s' == SetSweep(s, t, Starting(now))
  }

  /** The next aligned level at or below `level`; level 0 always is. */
  function VisitFrom(c: Config, now: nat, tick: nat, level: nat): Sweep {
    if level == 0 || Aligned(c.g, level, tick) then Visiting(now, tick, level, false, Loading)
    else VisitFrom(c, now, tick, level - 1)
  }

  ghost predicate SweepLoadCursor(c: Config, s: State, s': State, t: Tid) {
    && Sweeps(s, t)
    && var w := s.threads[t].sweep;
    && w.Starting?
    && s' == SetSweep(s, t, if w.now <= s.cursor then NoSweep
                            else VisitFrom(c, w.now, s.cursor, c.g.levels - 1))
  }

  ghost predicate Visits(c: Config, s: State, t: Tid) {
    && Sweeps(s, t) && s.threads[t].sweep.Visiting?
    && KeyAt(c.g, s.threads[t].sweep.level, s.threads[t].sweep.tick) in s.slots
  }

  function VisitKey(c: Config, w: Sweep): Key
    requires w.Visiting?
  {
    KeyAt(c.g, w.level, w.tick)
  }

  function Leave(w: Sweep, held: seq<Pub>): Sweep
    requires w.Visiting?
  {
    if w.bracket then w.(step := Closing(held)) else Processing(w.now, w.tick, w.level, held)
  }

  /** The detach loop after it has seen a pair. */
  function AfterRead(w: Sweep, pair: Pair): Sweep
    requires w.Visiting?
  {
    if pair.high > w.tick then (if pair.low.Some? then w.(step := Repairing) else Leave(w, []))
    else if w.bracket then w.(step := Clearing(pair))
    else w.(step := Testing(pair))
  }

  ghost predicate DetachLoadLow(c: Config, s: State, s': State, t: Tid) {
    && Visits(c, s, t)
    && var w := s.threads[t].sweep;
    && w.step.Loading?
    && s' == SetSweep(s, t, w.(step := HalfRead(PairOf(s, VisitKey(c, w)).low)))
  }

  ghost predicate DetachLoadHigh(c: Config, s: State, s': State, t: Tid) {
    && Visits(c, s, t)
    && var w := s.threads[t].sweep;
    && w.step.HalfRead?
    && s' == SetSweep(s, t, AfterRead(w, Pair(w.step.low, s.slots[VisitKey(c, w)].base)))
  }

  ghost predicate DetachTest(c: Config, s: State, s': State, t: Tid) {
    && Visits(c, s, t)
    && var w := s.threads[t].sweep;
    && w.step.Testing?
    && s' == SetSweep(s, t, w.(step := if VisitKey(c, w) in s.bits then Opening(w.step.observed)
                                       else Draining(w.step.observed)))
  }

  /** Open the pre-clear bracket: the loop's own sequence turns odd, or the shared
      overflow word counts one more entry and one more active visitor. */
  ghost predicate DetachOpen(c: Config, s: State, s': State, t: Tid) {
    && Visits(c, s, t)
    && var w := s.threads[t].sweep;
    && w.step.Opening?
    && var u := SetSweep(s, t, w.(bracket := true, step := Clearing(w.step.observed)));
    && (if t < c.loops
        then t < |s.seqs| && s' == u.(seqs := s.seqs[t := s.seqs[t] + 1])
        else s' == u.(epoch := s.epoch + 1, active := s.active + 1, openers := s.openers + {t}))
  }

  ghost predicate DetachClear(c: Config, s: State, s': State, t: Tid) {
    && Visits(c, s, t)
    && var w := s.threads[t].sweep;
    && w.step.Clearing?
    && s' == SetSweep(s, t, w.(step := Draining(w.step.observed))).(
               bits := s.bits - {VisitKey(c, w)},
               clearer := s.clearer[VisitKey(c, w) := t])
  }

  function HoldAll(pubs: map<Pub, Publication>, chain: seq<Pub>, t: Tid): map<Pub, Publication> {
    map p | p in pubs :: if p in chain then pubs[p].(place := Held(t)) else pubs[p]
  }

  /** The drain CAS succeeds: the chain is detached and the slot reopened. */
  ghost predicate DetachDrain(c: Config, s: State, s': State, t: Tid) {
    && Visits(c, s, t)
    && var w := s.threads[t].sweep;
    && var k := VisitKey(c, w);
    && w.step.Draining? && w.step.observed == PairOf(s, k)
    && s' == SetSweep(s, t, Leave(w, s.slots[k].chain)).(
               slots := s.slots[k := Slot([], w.tick + Period(c.g, w.level))],
               pubs := HoldAll(s.pubs, s.slots[k].chain, t))
  }

  ghost predicate DetachLost(c: Config, s: State, s': State, t: Tid) {
    && Visits(c, s, t)
    && var w := s.threads[t].sweep;
    && w.step.Draining? && w.step.observed != PairOf(s, VisitKey(c, w))
    && s' == SetSweep(s, t, AfterRead(w, PairOf(s, VisitKey(c, w))))
  }

  /** A chain was seen in the reopened slot: set its bit again. */
  ghost predicate DetachRepair(c: Config, s: State, s': State, t: Tid) {
    && Visits(c, s, t)
    && var w := s.threads[t].sweep;
    && w.step.Repairing?
    && s' == SetSweep(s, t, Leave(w, [])).(bits := s.bits + {VisitKey(c, w)})
  }

  ghost predicate DetachClose(c: Config, s: State, s': State, t: Tid) {
    && Visits(c, s, t)
    && var w := s.threads[t].sweep;
    && w.step.Closing?
    && var u := SetSweep(s, t, Processing(w.now, w.tick, w.level, w.step.held));
    && (if t < c.loops
        then t < |s.seqs| && s' == u.(seqs := s.seqs[t := s.seqs[t] + 1])
        else s.active > 0 && s' == u.(active := s.active - 1, openers := s.openers - {t}))
  }

  /** Local: the detached chain is used up. */
  ghost predicate ProcessEnd(c: Config, s: State, s': State, t: Tid) {
    && Sweeps(s, t)
    && var w := s.threads[t].sweep;
    && w.Processing? && w.held == []
    && s' == SetSweep(s, t, if w.level == 0 then Confirming(w.now, w.tick)
                            else VisitFrom(c, w.now, w.tick, w.level - 1))
  }

  /** Look at the operation of the first link of the detached chain: drop a stale
      link, re-route one that is not due yet, deliver one that is. */
  ghost predicate ProcessLink(c: Config, s: State, s': State, t: Tid) {
    && Sweeps(s, t)
    && var w := s.threads[t].sweep;
    && w.Processing? && w.held != [] && w.held[0] in s.pubs
    && var pub := s.pubs[w.held[0]];
    && var live := TagOf(s, pub.link.op) == Tag(pub.link.generation, true);
    && s' == With(s, t, s.threads[t].(
                    ins := if !live then NotInserting
                           else if w.tick < pub.link.deadline then Inserting(pub.link, w.tick, Routing)
                           else Inserting(pub.link, w.tick, Due),
                    sweep := w.(held := w.held[1..]))).(
               pubs := s.pubs[w.held[0] := pub.(place := Done)],
               owner := s.owner[pub.link.addr := if live then ByThread(t) else Pool])
  }

  /** Confirm the tick: the cursor moves from exactly this tick to the next. */
  ghost predicate SweepConfirm(c: Config, s: State, s': State, t: Tid) {
    && Sweeps(s, t)
    && var w := s.threads[t].sweep;
    && w.Confirming?
    && s' == SetSweep(s, t, Starting(w.now)).(
               cursor := if s.cursor == w.tick then w.tick + 1 else s.cursor)
  }

  // ------------------------------------------------------------------- sleeping

  ghost predicate IsLoop(c: Config, s: State, t: Tid) {
    && t < c.loops && t in s.threads && t < |s.wake|
    && s.threads[t].ins.NotInserting? && s.threads[t].sweep.NoSweep?
  }

  ghost predicate LoopEnter(c: Config, s: State, s': State, t: Tid) {
    && IsLoop(c, s, t) && s.threads[t].sleep.Absent?
    && s' == SetSleep(s, t, Running)
  }

  /** The worst case goes out first. */
  ghost predicate StoreEternal(c: Config, s: State, s': State, t: Tid, now: nat) {
    && IsLoop(c, s, t) && s.threads[t].sleep.Running?
    && now <= s.clock
    && s' == SetSleep(s, t, Preparing(now)).(wake := s.wake[t := Eternal])
  }

  ghost predicate SleepLoadCursor(c: Config, s: State, s': State, t: Tid) {
    && IsLoop(c, s, t)
    && var z := s.threads[t].sleep;
    && z.Preparing?
    && s' == SetSleep(s, t, Snapping(z.now, if s.cursor < z.now then s.cursor else z.now, [], None))
  }

  function Cap(best: Wake, from: nat): Wake {
    Earlier(from + 1, best)
  }

  function Sum(vals: seq<nat>): nat {
    if vals == [] then 0 else vals[0] + Sum(vals[1..])
  }

  function StartScan(c: Config, now: nat, from: nat, before: seq<nat>, retried: bool): Sleep {
    Planning(now, from, before, retried, EnterLevel(c.g, from, 0, Never))
  }

  /** A bracket was open at this snapshot. */
  function SnapActive(z: Sleep): Sleep
    requires z.Snapping?
  {
    if z.after.None? then Committing(z.now, By(z.from + 1))
    else Committing(z.now, Cap(z.after.value.best, z.from))
  }

  /** The snapshot is complete and quiet: its version is the sum of the values. */
  function SnapDone(c: Config, z: Sleep, vals: seq<nat>): Sleep
    requires z.Snapping?
  {
    if z.after.None? then StartScan(c, z.now, z.from, vals, false)
    else
      var a := z.after.value;
      if Sum(vals) == Sum(a.before) then Committing(z.now, a.best)
      else if a.retried then Committing(z.now, Cap(a.best, z.from))
      else StartScan(c, z.now, z.from, vals, true)
  }

  /** Load the sequence of loop state `|vals|`; the own one is skipped. */
  ghost predicate SnapLoop(c: Config, s: State, s': State, t: Tid) {
    && IsLoop(c, s, t)
    && var z := s.threads[t].sleep;
    && z.Snapping? && |z.vals| < c.loops && |z.vals| < |s.seqs|
    && var v := if |z.vals| == t then 0 else s.seqs[|z.vals|];
    && s' == SetSleep(s, t, if v % 2 == 1 then SnapActive(z) else z.(vals := z.vals + [v]))
  }

  ghost predicate SnapOverflow(c: Config, s: State, s': State, t: Tid) {
    && IsLoop(c, s, t)
    && var z := s.threads[t].sleep;
    && z.Snapping? && |z.vals| == c.loops
    && s' == SetSleep(s, t, if s.active != 0 then SnapActive(z) else SnapDone(c, z, z.vals + [s.epoch]))
  }

  /** The scan has its result; a wake at the scan origin needs no validation. */
  function ScanDone(z: Sleep, best: Wake): Sleep
    requires z.Planning?
  {
    if best == By(z.from + 1) then Committing(z.now, best)
    else Snapping(z.now, z.from, [], Some(Attempt(z.before, z.retried, best)))
  }

  ghost predicate ScanLoad(c: Config, s: State, s': State, t: Tid) {
    && IsLoop(c, s, t)
    && var z := s.threads[t].sleep;
    && z.Planning? && z.scan.Scanning? && z.scan.level < c.g.levels
    && var sc := ScanWord(c.g, z.from, z.scan, s.bits);
    && s' == SetSleep(s, t, if sc.Scanned? then ScanDone(z, sc.best) else z.(scan := sc))
  }

  /** The longest sleep one kernel call can be asked for. */
  function Clamp(tick: nat, now: nat): nat {
    if tick > now + SLEEP_TICKS_LIMIT then now + SLEEP_TICKS_LIMIT else tick
  }

  ghost predicate StoreWake(c: Config, s: State, s': State, t: Tid) {
    && IsLoop(c, s, t)
    && var z := s.threads[t].sleep;
    && z.Committing?
    && s' == SetSleep(s, t, Asleep).(
               wake := if z.wake.Never? then s.wake else s.wake[t := At(Clamp(z.wake.tick, z.now))])
  }

  /** The kernel wait returns: on the doorbell, on the timeout or on other traffic. */
  ghost predicate WakeUp(c: Config, s: State, s': State, t: Tid) {
    && IsLoop(c, s, t) && s.threads[t].sleep.Asleep?
    && (s' == SetSleep(s, t, Waking) || s' == SetSleep(s, t, Waking).(bell := false))
  }

  ghost predicate StoreAwake(c: Config, s: State, s': State, t: Tid) {
    && IsLoop(c, s, t) && s.threads[t].sleep.Waking?
    && s' == SetSleep(s, t, Running).(wake := s.wake[t := Awake])
  }

  // ---------------------------------------------------------------- environment

  ghost predicate ClockTick(c: Config, s: State, s': State) {
    s' == s.(clock := s.clock + 1)
  }

  /** An operation ends by itself, or its storage starts the next generation. */
  ghost predicate OpChange(c: Config, s: State, s': State, op: nat) {
    || s' == s.(ops := s.ops[op := Tag(TagOf(s, op).generation, false)])
    || s' == s.(ops := s.ops[op := Tag(TagOf(s, op).generation + 1, true)])
  }

  // ----------------------------------------------------------------------- runs

  ghost predicate InsertLocalMoves(c: Config, s: State, s': State, t: Tid) {
    || InsertLate(c, s, s', t)
    || InsertLoadLow(c, s, s', t)
    || InsertLoadHigh(c, s, s', t)
    || InsertLost(c, s, s', t)
    || KickLoad(c, s, s', t)
  }

  ghost predicate InsertSharedMoves(c: Config, s: State, s': State, t: Tid) {
    || (exists p: Pub :: InsertPublish(c, s, s', t, p))
    || InsertMark(c, s, s', t)
    || KickCovered(c, s, s', t)
    || KickEnd(c, s, s', t)
    || Deliver(c, s, s', t)
    || (exists link: Link :: Arm(c, s, s', t, link))
  }

  ghost predicate SweepLocalMoves(c: Config, s: State, s': State, t: Tid) {
    || (exists now: nat :: SweepBegin(c, s, s', t, now))
    || SweepLoadCursor(c, s, s', t)
    || DetachLoadLow(c, s, s', t)
    || DetachLoadHigh(c, s, s', t)
    || DetachTest(c, s, s', t)
    || DetachLost(c, s, s', t)
    || ProcessEnd(c, s, s', t)
  }

  ghost predicate SweepSharedMoves(c: Config, s: State, s': State, t: Tid) {
    || DetachOpen(c, s, s', t)
    || DetachClear(c, s, s', t)
    || DetachDrain(c, s, s', t)
    || DetachRepair(c, s, s', t)
    || DetachClose(c, s, s', t)
    || ProcessLink(c, s, s', t)
    || SweepConfirm(c, s, s', t)
  }

  ghost predicate SleepMoves(c: Config, s: State, s': State, t: Tid) {
    || LoopEnter(c, s, s', t)
    || (exists now: nat :: StoreEternal(c, s, s', t, now))
    || SleepLoadCursor(c, s, s', t)
    || SnapLoop(c, s, s', t)
    || SnapOverflow(c, s, s', t)
    || ScanLoad(c, s, s', t)
    || StoreWake(c, s, s', t)
    || WakeUp(c, s, s', t)
    || StoreAwake(c, s, s', t)
  }

  ghost predicate Moves(c: Config, s: State, s': State, t: Tid) {
    || InsertLocalMoves(c, s, s', t) || InsertSharedMoves(c, s, s', t)
    || SweepLocalMoves(c, s, s', t) || SweepSharedMoves(c, s, s', t)
    || SleepMoves(c, s, s', t)
  }

  ghost predicate Next(c: Config, s: State, s': State) {
    || ClockTick(c, s, s')
    || (exists op: nat :: OpChange(c, s, s', op))
    || (exists t: Tid :: Moves(c, s, s', t))
  }

  /** A fresh wheel: every slot empty and open for its next window, no thread at
      work, no loop entered. */
  ghost predicate Init(c: Config, s: State) {
    && 1 <= c.loops
    && (forall k :: k in s.slots <==> ValidKey(c.g, k))
    && (forall k :: k in s.slots ==> s.slots[k] == Slot([], InitialBase(c.g, k, s.cursor)))
    && s.bits == {}
    && s.clock == s.cursor
    && |s.wake| == c.loops && (forall j :: 0 <= j < c.loops ==> s.wake[j] == Awake)
    && |s.seqs| == c.loops && (forall j :: 0 <= j < c.loops ==> s.seqs[j] == 0)
    && s.epoch == 0 && s.active == 0 && !s.bell
    && (forall j: nat :: j < c.loops ==> j in s.threads)
    && (forall t :: t in s.threads ==>
          s.threads[t] == Thread(NotInserting, NoSweep, if t < c.loops then Absent else Outside))
    && s.pubs == map[] && s.owner == map[] && s.openers == {} && s.log == []
  }

  ghost predicate StepAt(c: Config, run: seq<State>, i: nat) {
    i + 1 < |run| ==> Next(c, run[i], run[i + 1])
  }

  ghost predicate Run(c: Config, run: seq<State>) {
    && run != [] && Init(c, run[0])
    && forall i: nat {:trigger StepAt(c, run, i)} :: StepAt(c, run, i)
  }
}
