/** The unbounded queue that any number of threads push to and pop from: a ladder
    of rings, each twice the size of the one before.  One atomic load, store or
    compare-and-swap is one step; between steps any thread may move.

    Auxiliary state, never read by a step's decisions: the position a cell is due
    to serve (`turn`) and what is happening to it (`phase`), the values claimed in
    each ring in order of position, which push claimed which position, the
    positions taken by pops and what the pops returned. */
module QueueMachine {
  import opened Radix

  type Tid = nat
  /** Each push brings its own token, so that two pushes can be told apart. */
  type Token = nat

  /** Number of rings, and the size of the first one as a power of two. */
  datatype Ladder = Ladder(partitions: nat, log2: nat)

  type Config = p: Ladder | 1 <= p.partitions witness Ladder(32, 12)

  const SEALED: nat := 0x4000_0000_0000_0000

  function Size(c: Config, i: nat): (r: nat)
    ensures 1 <= r && (1 <= c.log2 ==> 2 <= r)
  {
    Pow2(c.log2 + i)
  }

  datatype Phase = Free | Writing(holder: Tid) | Ready | Reading(holder: Tid)

  datatype Cell = Cell(data: Token, sequence: nat, turn: nat, phase: Phase)

  /** `ring` is empty until some push has installed the element array. */
  datatype Part = Part(ring: seq<Cell>, enqueue: nat, dequeue: nat, claims: seq<Token>)

  datatype Place = Place(part: nat, pos: nat)

  datatype Act =
    | Idle
    | PushStart(v: Token)
    | PushInit(v: Token, part: nat)
    | PushInstall(v: Token, part: nat)
    | PushLoad(v: Token, part: nat)
    | PushTest(v: Token, part: nat, pos: nat)
    | PushClaim(v: Token, part: nat, pos: nat)
    | PushStore(v: Token, part: nat, pos: nat)
    | PushPublish(v: Token, part: nat, pos: nat)
    | PushGrow(v: Token, part: nat)
    | PopStart
    | PopRing(part: nat)
    | PopLoad(part: nat)
    | PopTest(part: nat, pos: nat)
    | PopClaim(part: nat, pos: nat)
    | PopFetch(part: nat, pos: nat)
    | PopRelease(part: nat, pos: nat, v: Token)
    | PopEmpty(part: nat)
    | PopCheck(part: nat)
    | PopCompare(part: nat, seen: nat)
    | PopSeal(part: nat, seen: nat)
    | PopAdvance(part: nat)

  datatype Popped = Popped(place: Place, v: Token)

  datatype State = State(
    parts: seq<Part>, read: nat, write: nat, acts: map<Tid, Act>,
    pusher: map<Token, Tid>, claimedAt: map<Token, Place>, takes: seq<Place>, popped: seq<Popped>)

  // --------------------------------------------------------------------- access

  predicate IsPart(s: State, i: nat) { i < |s.parts| }

  /** Index of the cell that serves a position. */
  function Slot(c: Config, i: nat, pos: nat): (r: nat)
    ensures r < Size(c, i)
  {
    Rem(pos, Size(c, i))
  }

  predicate HasCell(c: Config, s: State, i: nat, pos: nat) {
    IsPart(s, i) && |s.parts[i].ring| == Size(c, i)
  }

  function CellOf(c: Config, s: State, i: nat, pos: nat): Cell
    requires HasCell(c, s, i, pos)
  {
    s.parts[i].ring[Slot(c, i, pos)]
  }

  function SetAct(s: State, t: Tid, a: Act): State {
    s.(acts := s.acts[t := a])
  }

  function SetPart(s: State, i: nat, p: Part): State
    requires IsPart(s, i)
  {
    s.(parts := s.parts[i := p])
  }

  function SetCell(c: Config, s: State, i: nat, pos: nat, cell: Cell): State
    requires HasCell(c, s, i, pos)
  {
    SetPart(s, i, s.parts[i].(ring := s.parts[i].ring[Slot(c, i, pos) := cell]))
  }

  function FreshRing(size: nat): seq<Cell> {
    seq(size, i requires 0 <= i => Cell(0, i, i, Free))
  }

  predicate At(s: State, t: Tid, a: Act) { t in s.acts && s.acts[t] == a }

  // ----------------------------------------------------------------------- push

  ghost predicate PushBegin(c: Config, s: State, s': State, t: Tid, v: Token) {
    At(s, t, Idle) && v !in s.pusher && s' == SetAct(s, t, PushStart(v)).(pusher := s.pusher[v := t])
  }

  ghost predicate PushSelect(c: Config, s: State, s': State, t: Tid, v: Token) {
    At(s, t, PushStart(v)) && s' == SetAct(s, t, PushInit(v, s.write))
  }

  ghost predicate PushSeeRing(c: Config, s: State, s': State, t: Tid, v: Token, i: nat) {
    && At(s, t, PushInit(v, i)) && IsPart(s, i)
    && s' == SetAct(s, t, if s.parts[i].ring == [] then PushInstall(v, i) else PushLoad(v, i))
  }

  /** Install an initialised element array, unless another push was first. */
  ghost predicate PushInstalls(c: Config, s: State, s': State, t: Tid, v: Token, i: nat) {
    && At(s, t, PushInstall(v, i)) && IsPart(s, i)
    && s' == SetAct(if s.parts[i].ring == [] then SetPart(s, i, s.parts[i].(ring := FreshRing(Size(c, i)))) else s,
                    t, PushLoad(v, i))
  }

  ghost predicate PushLoads(c: Config, s: State, s': State, t: Tid, v: Token, i: nat) {
    && At(s, t, PushLoad(v, i)) && IsPart(s, i)
    && s' == SetAct(s, t, PushTest(v, i, s.parts[i].enqueue))
  }

  ghost predicate PushTests(c: Config, s: State, s': State, t: Tid, v: Token, i: nat, pos: nat) {
    && At(s, t, PushTest(v, i, pos)) && HasCell(c, s, i, pos)
    && var sequence := CellOf(c, s, i, pos).sequence;
    && s' == SetAct(s, t, if sequence == pos then PushClaim(v, i, pos)
                          else if sequence < pos then PushGrow(v, i)
                          else PushLoad(v, i))
  }

  ghost predicate PushClaims(c: Config, s: State, s': State, t: Tid, v: Token, i: nat, pos: nat) {
    && At(s, t, PushClaim(v, i, pos)) && HasCell(c, s, i, pos)
    && s.parts[i].enqueue == pos
    && s' == SetAct(
               SetCell(c, SetPart(s, i, s.parts[i].(enqueue := pos + 1, claims := s.parts[i].claims + [v])),
                       i, pos, CellOf(c, s, i, pos).(phase := Writing(t))),
               t, PushStore(v, i, pos)).(claimedAt := s.claimedAt[v := Place(i, pos)])
  }

  ghost predicate PushClaimFails(c: Config, s: State, s': State, t: Tid, v: Token, i: nat, pos: nat) {
    && At(s, t, PushClaim(v, i, pos)) && IsPart(s, i)
    && s.parts[i].enqueue != pos
    && s' == SetAct(s, t, PushTest(v, i, s.parts[i].enqueue))
  }

  ghost predicate PushStores(c: Config, s: State, s': State, t: Tid, v: Token, i: nat, pos: nat) {
    && At(s, t, PushStore(v, i, pos)) && HasCell(c, s, i, pos)
    && s' == SetAct(SetCell(c, s, i, pos, CellOf(c, s, i, pos).(data := v)), t, PushPublish(v, i, pos))
  }

  ghost predicate PushPublishes(c: Config, s: State, s': State, t: Tid, v: Token, i: nat, pos: nat) {
    && At(s, t, PushPublish(v, i, pos)) && HasCell(c, s, i, pos)
    && s' == SetAct(SetCell(c, s, i, pos, CellOf(c, s, i, pos).(sequence := pos + 1, phase := Ready)), t, Idle)
  }

  /** The ring is full: move the write cursor on, unless someone did, and retry. */
  ghost predicate PushGrows(c: Config, s: State, s': State, t: Tid, v: Token, i: nat) {
    && At(s, t, PushGrow(v, i))
    && s' == SetAct(s, t, PushStart(v)).(write := if i + 1 < c.partitions && s.write == i then i + 1 else s.write)
  }

  // ------------------------------------------------------------------------ pop

  ghost predicate PopBegin(c: Config, s: State, s': State, t: Tid) {
    At(s, t, Idle) && s' == SetAct(s, t, PopStart)
  }

  ghost predicate PopSelect(c: Config, s: State, s': State, t: Tid) {
    At(s, t, PopStart) && s' == SetAct(s, t, PopRing(s.read))
  }

  ghost predicate PopSeesRing(c: Config, s: State, s': State, t: Tid, i: nat) {
    && At(s, t, PopRing(i)) && IsPart(s, i)
    && s' == SetAct(s, t, if s.parts[i].ring == [] then PopEmpty(i) else PopLoad(i))
  }

  ghost predicate PopLoads(c: Config, s: State, s': State, t: Tid, i: nat) {
    && At(s, t, PopLoad(i)) && IsPart(s, i)
    && s' == SetAct(s, t, PopTest(i, s.parts[i].dequeue))
  }

  ghost predicate PopTests(c: Config, s: State, s': State, t: Tid, i: nat, pos: nat) {
    && At(s, t, PopTest(i, pos)) && HasCell(c, s, i, pos)
    && var sequence := CellOf(c, s, i, pos).sequence;
    && s' == SetAct(s, t, if sequence == pos + 1 then PopClaim(i, pos)
                          else if sequence < pos + 1 then PopEmpty(i)
                          else PopLoad(i))
  }

  ghost predicate PopClaims(c: Config, s: State, s': State, t: Tid, i: nat, pos: nat) {
    && At(s, t, PopClaim(i, pos)) && HasCell(c, s, i, pos)
    && s.parts[i].dequeue == pos
    && s' == SetAct(
               SetCell(c, SetPart(s, i, s.parts[i].(dequeue := pos + 1)),
                       i, pos, CellOf(c, s, i, pos).(phase := Reading(t))),
               t, PopFetch(i, pos)).(takes := s.takes + [Place(i, pos)])
  }

  ghost predicate PopClaimFails(c: Config, s: State, s': State, t: Tid, i: nat, pos: nat) {
    && At(s, t, PopClaim(i, pos)) && IsPart(s, i)
    && s.parts[i].dequeue != pos
    && s' == SetAct(s, t, PopTest(i, s.parts[i].dequeue))
  }

  ghost predicate PopFetches(c: Config, s: State, s': State, t: Tid, i: nat, pos: nat) {
    && At(s, t, PopFetch(i, pos)) && HasCell(c, s, i, pos)
    && s' == SetAct(s, t, PopRelease(i, pos, CellOf(c, s, i, pos).data))
  }

  /** Give the cell back for its next lap and return the value. */
  ghost predicate PopReleases(c: Config, s: State, s': State, t: Tid, i: nat, pos: nat, v: Token) {
    && At(s, t, PopRelease(i, pos, v)) && HasCell(c, s, i, pos)
    && s' == SetAct(
               SetCell(c, s, i, pos, CellOf(c, s, i, pos).(sequence := pos + Size(c, i), turn := pos + Size(c, i), phase := Free)),
               t, Idle).(popped := s.popped + [Popped(Place(i, pos), v)])
  }

  /** Nothing here: give up unless pushes have moved on to a later ring. */
  ghost predicate PopGivesUp(c: Config, s: State, s': State, t: Tid, i: nat) {
    At(s, t, PopEmpty(i)) && s' == SetAct(s, t, if i >= s.write then Idle else PopCheck(i))
  }

  ghost predicate PopChecks(c: Config, s: State, s': State, t: Tid, i: nat) {
    && At(s, t, PopCheck(i)) && IsPart(s, i)
    && s' == SetAct(s, t, if s.parts[i].enqueue == SEALED then PopAdvance(i) else PopCompare(i, s.parts[i].enqueue))
  }

  ghost predicate PopCompares(c: Config, s: State, s': State, t: Tid, i: nat, seen: nat) {
    && At(s, t, PopCompare(i, seen)) && IsPart(s, i)
    && s' == SetAct(s, t, if s.parts[i].dequeue != seen then PopStart else PopSeal(i, seen))
  }

  ghost predicate PopSeals(c: Config, s: State, s': State, t: Tid, i: nat, seen: nat) {
    && At(s, t, PopSeal(i, seen)) && IsPart(s, i)
    && s' == if s.parts[i].enqueue == seen
             then SetAct(SetPart(s, i, s.parts[i].(enqueue := SEALED)), t, PopAdvance(i))
             else SetAct(s, t, PopStart)
  }

  ghost predicate PopAdvances(c: Config, s: State, s': State, t: Tid, i: nat) {
    At(s, t, PopAdvance(i)) && s' == SetAct(s, t, PopStart).(read := if s.read == i then i + 1 else s.read)
  }

  // ----------------------------------------------------------------------- runs

  ghost predicate PushMoves(c: Config, s: State, s': State, t: Tid, v: Token, i: nat, pos: nat) {
    || PushBegin(c, s, s', t, v)
    || PushSelect(c, s, s', t, v)
    || PushSeeRing(c, s, s', t, v, i)
    || PushInstalls(c, s, s', t, v, i)
    || PushLoads(c, s, s', t, v, i)
    || PushTests(c, s, s', t, v, i, pos)
    || PushClaims(c, s, s', t, v, i, pos)
    || PushClaimFails(c, s, s', t, v, i, pos)
    || PushStores(c, s, s', t, v, i, pos)
    || PushPublishes(c, s, s', t, v, i, pos)
    || PushGrows(c, s, s', t, v, i)
  }

  ghost predicate PopMoves(c: Config, s: State, s': State, t: Tid, v: Token, i: nat, pos: nat) {
    || PopBegin(c, s, s', t)
    || PopSelect(c, s, s', t)
    || PopSeesRing(c, s, s', t, i)
    || PopLoads(c, s, s', t, i)
    || PopTests(c, s, s', t, i, pos)
    || PopClaims(c, s, s', t, i, pos)
    || PopClaimFails(c, s, s', t, i, pos)
    || PopFetches(c, s, s', t, i, pos)
    || PopReleases(c, s, s', t, i, pos, v)
    || PopGivesUp(c, s, s', t, i)
    || PopChecks(c, s, s', t, i)
    || PopCompares(c, s, s', t, i, pos)
    || PopSeals(c, s, s', t, i, pos)
    || PopAdvances(c, s, s', t, i)
  }

  ghost predicate Next(c: Config, s: State, s': State) {
    exists t: Tid, v: Token, i: nat, pos: nat ::
      PushMoves(c, s, s', t, v, i, pos) || PopMoves(c, s, s', t, v, i, pos)
  }

  ghost predicate Init(c: Config, s: State) {
    && s.parts == seq(c.partitions, i => Part([], 0, 0, []))
    && s.read == 0 && s.write == 0
    && (forall t :: t in s.acts ==> s.acts[t] == Idle)
    && s.pusher == map[] && s.claimedAt == map[] && s.takes == [] && s.popped == []
  }

  /** Positions stay below the seal: no ring is pushed to 2^62 times. */
  ghost predicate Roomy(c: Config, s: State) {
    forall i {:trigger s.parts[i]} :: 0 <= i < |s.parts| ==> |s.parts[i].claims| + Size(c, i) < SEALED
  }

  ghost predicate StepAt(c: Config, run: seq<State>, i: nat)
    requires i + 1 < |run|
  {
    Next(c, run[i], run[i + 1])
  }

  ghost predicate Run(c: Config, run: seq<State>) {
    && run != [] && Init(c, run[0])
    && (forall i: nat {:trigger StepAt(c, run, i)} :: i + 1 < |run| ==> StepAt(c, run, i))
    && (forall i: nat {:trigger run[i]} :: i < |run| ==> Roomy(c, run[i]))
  }
}
