/** What every reachable state of the concurrent wheel satisfies. */
module WheelInvariant {
  import opened Geometry
  import opened WheelScan
  import opened WheelMachine

  ghost predicate NoDup(q: seq<Pub>) {
    forall i, j :: 0 <= i < j < |q| ==> q[i] != q[j]
  }

  // --------------------------------------------------------------- shared words

  ghost predicate GlobalOk(c: Config, s: State) {
    && 1 <= c.loops
    && (forall k :: k in s.slots <==> ValidKey(c.g, k))
    && s.cursor <= s.clock
    && |s.wake| == c.loops && |s.seqs| == c.loops
    && (forall j: nat :: j < c.loops ==> j in s.threads)
    && |s.openers| == s.active
  }

  /** A slot is open for the first of its windows the sweep has not visited: the
      window start is not behind the cursor, at most one rotation ahead, and the
      window before it began before now. */
  ghost predicate SlotOk(c: Config, s: State, k: Key) {
    && k in s.slots
    && WindowOf(c.g, k, s.slots[k].base)
    && s.cursor <= s.slots[k].base <= s.cursor + Period(c.g, k.level)
    && s.slots[k].base < s.clock + Period(c.g, k.level)
  }

  ghost predicate SlotsOk(c: Config, s: State) {
    forall k {:trigger SlotOk(c, s, k)} :: ValidKey(c.g, k) ==> SlotOk(c, s, k)
  }

  // -------------------------------------------------------------------- threads

  ghost predicate OwnsLink(s: State, t: Tid, link: Link) {
    link.addr in s.owner && s.owner[link.addr] == ByThread(t)
  }

  ghost predicate Published(s: State, t: Tid, p: Pub, link: Link, stage: Stage) {
    p in s.pubs && s.pubs[p].publisher == t && s.pubs[p].link == link && s.pubs[p].stage == stage
  }

  ghost predicate InsertionOk(c: Config, s: State, t: Tid, i: Insertion) {
    i.Inserting? ==>
      && i.hint <= s.cursor
      && match i.step
         case Routing => OwnsLink(s, t, i.link)
         case HalfLoaded(_) => OwnsLink(s, t, i.link) && i.hint <= i.link.deadline
         case Attempting(o) =>
           OwnsLink(s, t, i.link) && i.hint <= i.link.deadline && o.high == RouteBase(c.g, i.hint, i.link.deadline)
         case Marking(p) => Published(s, t, p, i.link, Unmarked)
         case Kicking(p, next, _) => Published(s, t, p, i.link, Marked) && next <= c.loops
         case Refused =>
           ExpiredOk(c, s, t, i) && (InRange(c, i.hint, i.link.deadline) ==> Swept(c, s, i.link.deadline))
         case Due => ExpiredOk(c, s, t, i)
  }

  /** The sweep has reached the deadline and its tick is over, if the deadline was in
      range of the hint; with two levels or more it was. */
  ghost predicate ExpiredOk(c: Config, s: State, t: Tid, i: Insertion)
    requires i.Inserting?
  {
    && OwnsLink(s, t, i.link) && (2 <= c.g.levels ==> InRange(c, i.hint, i.link.deadline))
    && (InRange(c, i.hint, i.link.deadline) ==> i.link.deadline <= s.cursor && i.link.deadline < s.clock)
  }

  /** The tick's own slot of the lowest level has been drained and reopened. */
  ghost predicate Swept(c: Config, s: State, tick: nat) {
    KeyAt(c.g, 0, tick) in s.slots && tick < s.slots[KeyAt(c.g, 0, tick)].base
  }

  ghost predicate InsOk(c: Config, s: State, t: Tid) {
    t in s.threads && InsertionOk(c, s, t, s.threads[t].ins)
  }

  /** The window of a level that starts at a tick has been visited. */
  ghost predicate Drained(c: Config, s: State, level: nat, tick: nat) {
    level < c.g.levels && Aligned(c.g, level, tick) ==>
      KeyAt(c.g, level, tick) in s.slots && tick < s.slots[KeyAt(c.g, level, tick)].base
  }

  ghost predicate DrainedFrom(c: Config, s: State, level: nat, tick: nat) {
    forall l: nat {:trigger Drained(c, s, l, tick)} :: level <= l ==> Drained(c, s, l, tick)
  }

  ghost predicate HoldsAll(s: State, t: Tid, held: seq<Pub>) {
    && NoDup(held)
    && forall p :: p in held ==> p in s.pubs && s.pubs[p].place == Held(t)
  }

  ghost predicate BracketOpen(c: Config, s: State, t: Tid) {
    if t < c.loops then t < |s.seqs| && s.seqs[t] % 2 == 1 else t in s.openers
  }

  predicate HasBracket(w: Sweep) {
    w.Visiting? && w.bracket
  }

  ghost predicate DetachOk(c: Config, s: State, t: Tid, w: Sweep)
    requires w.Visiting?
  {
    match w.step
    case Loading => !w.bracket
    case HalfRead(_) => !w.bracket
    case Testing(o) => !w.bracket && o.high == w.tick
    case Opening(o) => !w.bracket && o.high == w.tick
    case Clearing(o) => w.bracket && o.high == w.tick
    case Draining(o) => o.high == w.tick
    case Repairing => Drained(c, s, w.level, w.tick)
    case Closing(held) => w.bracket && Drained(c, s, w.level, w.tick) && HoldsAll(s, t, held)
  }

  ghost predicate SweepingOk(c: Config, s: State, t: Tid, w: Sweep) {
    match w
    case NoSweep => true
    case Starting(now) => now <= s.clock
    case Visiting(now, tick, level, _, _) =>
      && tick < now <= s.clock && tick <= s.cursor
      && level < c.g.levels && Aligned(c.g, level, tick)
      && DrainedFrom(c, s, level + 1, tick)
      && DetachOk(c, s, t, w)
    case Processing(now, tick, level, held) =>
      && tick < now <= s.clock && tick <= s.cursor
      && level < c.g.levels
      && DrainedFrom(c, s, level, tick)
      && HoldsAll(s, t, held)
    case Confirming(now, tick) =>
      && tick < now <= s.clock && tick <= s.cursor
      && DrainedFrom(c, s, 0, tick)
  }

  ghost predicate SweepOk(c: Config, s: State, t: Tid) {
    && t in s.threads
    && (BracketOpen(c, s, t) <==> HasBracket(s.threads[t].sweep))
    && SweepingOk(c, s, t, s.threads[t].sweep)
  }

  /** The word behind component `i` of the snapshots of loop `j`. */
  function Component(c: Config, s: State, j: nat, i: nat): nat {
    if i == j then 0 else if i < c.loops then (if i < |s.seqs| then s.seqs[i] else 0) else s.epoch
  }

  /** Snapshot values: even, and not ahead of the words they were read from; no
      overflow bracket has been opened since an unchanged epoch. */
  ghost predicate SnapOk(c: Config, s: State, j: nat, vals: seq<nat>) {
    && |vals| <= c.loops + 1
    && (forall i :: 0 <= i < |vals| ==> vals[i] <= Component(c, s, j, i))
    && (forall i :: 0 <= i < |vals| && i < c.loops ==> vals[i] % 2 == 0)
    && (|vals| == c.loops + 1 && vals[c.loops] == s.epoch ==> s.active == 0)
  }

  ghost predicate FullSnap(c: Config, s: State, j: nat, vals: seq<nat>) {
    SnapOk(c, s, j, vals) && |vals| == c.loops + 1
  }

  ghost predicate NotBelow(vals: seq<nat>, before: seq<nat>) {
    |vals| <= |before| && forall i :: 0 <= i < |vals| ==> before[i] <= vals[i]
  }

  ghost predicate SleepingOk(c: Config, s: State, j: nat, z: Sleep)
    requires j < |s.wake|
  {
    match z
    case Outside => false
    case Absent => s.wake[j] == Awake
    case Running => s.wake[j] == Awake
    case Preparing(_) => s.wake[j] == Eternal
    case Snapping(_, from, vals, after) =>
      && s.wake[j] == Eternal && from <= s.cursor && |vals| <= c.loops && SnapOk(c, s, j, vals)
      && (after.Some? ==> FullSnap(c, s, j, after.value.before) && NotBelow(vals, after.value.before))
    case Planning(_, from, before, _, scan) =>
      && s.wake[j] == Eternal && from <= s.cursor && FullSnap(c, s, j, before)
      && scan.Scanning? && ScanOk(c.g, from, scan)
    case Committing(_, _) => s.wake[j] == Eternal
    case Asleep => s.wake[j] != Awake
    case Waking => true
  }

  predicate Busy(th: Thread) {
    th.ins.Inserting? || !th.sweep.NoSweep?
  }

  ghost predicate SleepOk(c: Config, s: State, t: Tid) {
    && t in s.threads
    && (if t < c.loops then t < |s.wake| && SleepingOk(c, s, t, s.threads[t].sleep)
        else s.threads[t].sleep.Outside?)
    && (Busy(s.threads[t]) ==> s.threads[t].sleep.Outside? || s.threads[t].sleep.Running?)
  }

  ghost predicate ThreadsOk(c: Config, s: State) {
    forall t {:trigger InsOk(c, s, t)} {:trigger SweepOk(c, s, t)} {:trigger SleepOk(c, s, t)} ::
      t in s.threads ==> InsOk(c, s, t) && SweepOk(c, s, t) && SleepOk(c, s, t)
  }

  // --------------------------------------------------------------- conservation

  /** What hangs off a slot is parked there, once, and not overdue. */
  ghost predicate ChainOk(c: Config, s: State, k: Key) {
    && k in s.slots
    && NoDup(s.slots[k].chain)
    && forall p :: p in s.slots[k].chain ==>
         p in s.pubs && s.pubs[p].key == k && s.pubs[p].place == Parked && s.slots[k].base <= s.pubs[p].link.deadline
  }

  ghost predicate ChainsOk(c: Config, s: State) {
    forall k {:trigger ChainOk(c, s, k)} :: ValidKey(c.g, k) ==> ChainOk(c, s, k)
  }

  function HeldBy(w: Sweep): seq<Pub> {
    if w.Processing? then w.held
    else if w.Visiting? && w.step.Closing? then w.step.held
    else []
  }

  /** No publication is lost: it hangs off its slot, or its detacher still holds
      it, or it has been consumed. */
  ghost predicate PubOk(c: Config, s: State, p: Pub) {
    && p in s.pubs
    && var pub := s.pubs[p];
    && ValidKey(c.g, pub.key)
    && (pub.place.Parked? ==> pub.key in s.slots && p in s.slots[pub.key].chain)
    && (pub.place.Held? ==> pub.place.holder in s.threads && p in HeldBy(s.threads[pub.place.holder].sweep))
    && (!pub.place.Done? ==> pub.link.addr in s.owner && s.owner[pub.link.addr] == ByPub(p))
  }

  ghost predicate PubsOk(c: Config, s: State) {
    forall p {:trigger PubOk(c, s, p)} :: p in s.pubs ==> PubOk(c, s, p)
  }

  // --------------------------------------------------------------------- bitmap

  /** Thread `t` is inside its bracket on slot `k`, between a clear and the drain
      or the repair that resolves it. */
  ghost predicate Unresolved(c: Config, s: State, t: Tid, k: Key) {
    && t in s.threads
    && var w := s.threads[t].sweep;
    && w.Visiting? && w.bracket && VisitKey(c, w) == k
    && (w.step.Clearing? || w.step.Draining? || w.step.Repairing?)
  }

  /** The bitmap invariant: a chain with a publication that has set its bit, in a
      slot whose bit is clear, has a visitor that has cleared it and has not
      resolved that clear. */
  ghost predicate BitOk(c: Config, s: State, k: Key) {
    forall p :: p in s.pubs && s.pubs[p].key == k && s.pubs[p].place.Parked? && !s.pubs[p].stage.Unmarked? && k !in s.bits ==>
      k in s.clearer && Unresolved(c, s, s.clearer[k], k)
  }

  ghost predicate BitsOk(c: Config, s: State) {
    forall k {:trigger BitOk(c, s, k)} :: ValidKey(c.g, k) ==> BitOk(c, s, k)
  }

  // ------------------------------------------------------------------- coverage

  /** Some bracket has moved since the snapshot. */
  ghost predicate Dirty(c: Config, s: State, j: nat, before: seq<nat>) {
    exists i: nat :: i < |before| && before[i] < Component(c, s, j, i)
  }

  /** The closing snapshot has seen, or is going to see, a bracket move. */
  ghost predicate WillNotice(c: Config, s: State, j: nat, vals: seq<nat>, before: seq<nat>) {
    exists i: nat :: i < |before| && before[i] < (if i < |vals| then vals[i] else Component(c, s, j, i))
  }

  /** Loop `j` is awake, or its plan is going to account for slot `k`, or it
      sleeps no longer than one tick past the deadline. */
  ghost predicate LoopCovers(c: Config, s: State, j: nat, z: Sleep, k: Key, deadline: nat)
    requires ValidKey(c.g, k) && j < |s.wake|
  {
    match z
    case Outside => false
    case Absent => false
    case Running => true
    case Preparing(_) => true
    case Snapping(_, _, vals, after) =>
      after.Some? ==> NoLater(after.value.best, deadline + 1) || WillNotice(c, s, j, vals, after.value.before)
    case Planning(_, from, before, _, scan) => AheadOrServed(c.g, from, scan, k) || Dirty(c, s, j, before)
    case Committing(_, wake) => NoLater(wake, deadline + 1)
    case Asleep => Covers(s.wake[j], deadline)
    case Waking => true
  }

  ghost predicate Covered(c: Config, s: State, p: Pub, j: nat) {
    && p in s.pubs && ValidKey(c.g, s.pubs[p].key) && j < |s.wake| && j in s.threads
    && LoopCovers(c, s, j, s.threads[j].sleep, s.pubs[p].key, s.pubs[p].link.deadline)
  }

  ghost predicate IsAbsent(s: State, j: nat) {
    j in s.threads && s.threads[j].sleep.Absent?
  }

  ghost predicate CoveredOrAbsent(c: Config, s: State, p: Pub, j: nat) {
    Covered(c, s, p, j) || IsAbsent(s, j)
  }

  /** The doorbell is pending, or some loop covers the publication, or no loop has
      been entered at all. */
  ghost predicate Safe(c: Config, s: State, p: Pub) {
    || s.bell
    || (exists j: nat :: j < c.loops && Covered(c, s, p, j))
    || (forall j: nat :: j < c.loops ==> IsAbsent(s, j))
  }

  /** The kick loop of the publisher: horizons read so far left no gap. */
  ghost predicate KickOk(c: Config, s: State, p: Pub, step: InsertStep) {
    && step.Kicking? && step.pub == p
    && (step.sawSleeper || forall j: nat :: j < step.next ==> CoveredOrAbsent(c, s, p, j))
  }

  ghost predicate CoverOk(c: Config, s: State, p: Pub) {
    p in s.pubs && s.pubs[p].place.Parked? ==>
      var pub := s.pubs[p];
      match pub.stage
      case Unmarked =>
        Inserts(s, pub.publisher) && s.threads[pub.publisher].ins.step == Marking(p)
      case Marked =>
        Inserts(s, pub.publisher) && KickOk(c, s, p, s.threads[pub.publisher].ins.step)
      case Returned => Safe(c, s, p)
  }

  ghost predicate CoversOk(c: Config, s: State) {
    forall p {:trigger CoverOk(c, s, p)} :: p in s.pubs ==> CoverOk(c, s, p)
  }

  // ------------------------------------------------------------------- timeouts

  /** No timeout was delivered before its deadline tick was over, unless its deadline was
      out of range of the hint on a single-level wheel, and none twice. */
  ghost predicate LogOk(c: Config, s: State) {
    && (forall e :: e in s.log ==> 2 <= c.g.levels ==> InRange(c, e.hint, e.link.deadline))
    && (forall e :: e in s.log ==> InRange(c, e.hint, e.link.deadline) ==> e.link.deadline < e.at)
    && (forall e :: e in s.log ==>
          e.link.op in s.ops && (e.link.generation < s.ops[e.link.op].generation
                                 || s.ops[e.link.op] == Tag(e.link.generation, false)))
    && (forall i, j :: 0 <= i < j < |s.log| ==>
          s.log[i].link.op != s.log[j].link.op || s.log[i].link.generation != s.log[j].link.generation)
  }

  ghost predicate Inv(c: Config, s: State) {
    && GlobalOk(c, s)
    && SlotsOk(c, s)
    && ThreadsOk(c, s)
    && ChainsOk(c, s)
    && PubsOk(c, s)
    && BitsOk(c, s)
    && CoversOk(c, s)
    && LogOk(c, s)
  }

  // ----------------------------------------------------------- steps, seen by one

  /** A publication goes from its slot to one detacher and from there to its end. */
  ghost predicate PlaceMoves(p: Place, p': Place) {
    p' == p || (p.Parked? && p'.Held?) || (p.Held? && p'.Done?)
  }

  ghost predicate PubMoves(s: State, s': State, p: Pub) {
    p in s.pubs ==>
      && p in s'.pubs && s'.pubs[p].link == s.pubs[p].link && s'.pubs[p].key == s.pubs[p].key
      && PlaceMoves(s.pubs[p].place, s'.pubs[p].place)
  }

  /** What no step exceeds: the cursor moves by at most one tick and publications
      only move on. */
  ghost predicate Tame(s: State, s': State) {
    && (s'.cursor == s.cursor || s'.cursor == s.cursor + 1)
    && forall p: Pub {:trigger PubMoves(s, s', p)} :: PubMoves(s, s', p)
  }

  // ------------------------------------------------------------- interference

  ghost predicate PubKept(s: State, s': State, t: Tid, p: Pub) {
    p in s.pubs ==>
      && p in s'.pubs
      && s'.pubs[p].link == s.pubs[p].link && s'.pubs[p].key == s.pubs[p].key
      && s'.pubs[p].publisher == s.pubs[p].publisher
      && (s.pubs[p].publisher != t ==> s'.pubs[p].stage == s.pubs[p].stage)
      && (s.pubs[p].place.Held? && s.pubs[p].place.holder != t ==> s'.pubs[p].place == s.pubs[p].place)
  }

  /** What the other threads may rely on when thread `t` takes a step. */
  ghost predicate Rely(c: Config, s: State, s': State, t: Tid) {
    && s'.threads.Keys == s.threads.Keys
    && (forall u :: u in s.threads && u != t ==> s'.threads[u] == s.threads[u])
    && s.cursor <= s'.cursor && s.clock <= s'.clock
    && (forall k :: k in s.slots ==> k in s'.slots && s.slots[k].base <= s'.slots[k].base)
    && |s'.wake| == |s.wake| && |s'.seqs| == |s.seqs|
    && (forall j :: 0 <= j < |s.wake| && j != t ==> s'.wake[j] == s.wake[j])
    && (forall j :: 0 <= j < |s.seqs| ==> s.seqs[j] <= s'.seqs[j] && (j != t ==> s'.seqs[j] == s.seqs[j]))
    && s.epoch <= s'.epoch && (s'.epoch == s.epoch ==> s'.active <= s.active)
    && (forall u :: u != t ==> (u in s'.openers <==> u in s.openers))
    && (forall p {:trigger PubKept(s, s', t, p)} :: p in s.pubs ==> PubKept(s, s', t, p))
    && (forall a :: a in s.owner && s.owner[a].ByThread? && s.owner[a].t != t ==>
          a in s'.owner && s'.owner[a] == s.owner[a])
  }
}
