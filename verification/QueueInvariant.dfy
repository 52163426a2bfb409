/** What every reachable state of the queue satisfies. */
module QueueInvariant {
  import opened Radix
  import opened QueueMachine

  /** Counters of one ring.  A sealed ring is drained. */
  ghost predicate PartOk(c: Config, s: State, i: nat) {
    && IsPart(s, i)
    && var p := s.parts[i];
    && p.dequeue <= |p.claims| <= p.dequeue + Size(c, i)
    && (if p.enqueue == SEALED then p.dequeue == |p.claims| else p.enqueue == |p.claims|)
    && (|p.ring| == Size(c, i) || (p.ring == [] && p.claims == []))
  }

  /** One cell: the position it serves is within a lap of both counters, and its
      sequence word tells the phase. */
  ghost predicate CellOk(c: Config, s: State, i: nat, k: nat) {
    && IsPart(s, i) && k < |s.parts[i].ring|
    && var p, cell := s.parts[i], s.parts[i].ring[k];
    && Slot(c, i, cell.turn) == k
    && cell.turn < p.dequeue + Size(c, i)
    && |p.claims| <= cell.turn + Size(c, i)
    && match cell.phase
       case Free => cell.sequence == cell.turn && |p.claims| <= cell.turn
       case Writing(t) => cell.sequence == cell.turn && p.dequeue <= cell.turn < |p.claims| && Writes(s, t, i, cell.turn)
       case Ready => cell.sequence == cell.turn + 1 && p.dequeue <= cell.turn < |p.claims| && cell.data == p.claims[cell.turn]
       case Reading(t) => cell.sequence == cell.turn + 1 && cell.turn < p.dequeue && cell.turn < |p.claims|
                          && cell.data == p.claims[cell.turn] && Reads(s, t, i, cell.turn)
  }

  ghost predicate Writes(s: State, t: Tid, i: nat, pos: nat) {
    t in s.acts && (s.acts[t].PushStore? || s.acts[t].PushPublish?) && s.acts[t].part == i && s.acts[t].pos == pos
  }

  ghost predicate Reads(s: State, t: Tid, i: nat, pos: nat) {
    t in s.acts && (s.acts[t].PopFetch? || s.acts[t].PopRelease?) && s.acts[t].part == i && s.acts[t].pos == pos
  }

  ghost predicate PartsOk(c: Config, s: State) {
    && |s.parts| == c.partitions && s.read <= s.write < c.partitions
    && (forall i: nat {:trigger PartOk(c, s, i)} :: i < c.partitions ==> PartOk(c, s, i))
    && (forall i: nat {:trigger SealedAt(s, i)} :: i < s.read ==> SealedAt(s, i))
  }

  ghost predicate SealedAt(s: State, i: nat) { IsPart(s, i) && s.parts[i].enqueue == SEALED }

  ghost predicate CellsOk(c: Config, s: State) {
    forall i: nat, k: nat {:trigger CellOk(c, s, i, k)} :: i < c.partitions && IsPart(s, i) && k < |s.parts[i].ring| ==> CellOk(c, s, i, k)
  }

  /** The token has not been claimed a position yet. */
  ghost predicate Unplaced(s: State, t: Tid, v: Token) {
    v in s.pusher && s.pusher[v] == t && v !in s.claimedAt
  }

  ghost predicate Allocated(c: Config, s: State, i: nat) {
    IsPart(s, i) && |s.parts[i].ring| == Size(c, i)
  }

  ghost predicate ActOk(c: Config, s: State, t: Tid) {
    && t in s.acts
    && match s.acts[t]
       case Idle => true
       case PushStart(v) => Unplaced(s, t, v)
       case PushInit(v, i) => Unplaced(s, t, v) && i < c.partitions
       case PushInstall(v, i) => Unplaced(s, t, v) && i < c.partitions
       case PushLoad(v, i) => Unplaced(s, t, v) && Allocated(c, s, i)
       case PushTest(v, i, pos) => Unplaced(s, t, v) && Allocated(c, s, i)
       case PushClaim(v, i, pos) => Unplaced(s, t, v) && Allocated(c, s, i) && pos <= CellOf(c, s, i, pos).turn
       case PushStore(v, i, pos) => Holds(c, s, i, pos, Writing(t)) && pos < |s.parts[i].claims| && s.parts[i].claims[pos] == v
       case PushPublish(v, i, pos) =>
         && Holds(c, s, i, pos, Writing(t)) && pos < |s.parts[i].claims| && s.parts[i].claims[pos] == v
         && CellOf(c, s, i, pos).data == v
       case PushGrow(v, i) => Unplaced(s, t, v)
       case PopStart => true
       case PopRing(i) => i <= s.read
       case PopLoad(i) => i <= s.read && Allocated(c, s, i)
       case PopTest(i, pos) => i <= s.read && Allocated(c, s, i)
       case PopClaim(i, pos) => i <= s.read && Allocated(c, s, i) && HasPublished(c, s, i, pos)
       case PopFetch(i, pos) => Holds(c, s, i, pos, Reading(t))
       case PopRelease(i, pos, v) => Holds(c, s, i, pos, Reading(t)) && CellOf(c, s, i, pos).data == v
       case PopEmpty(i) => i <= s.read
       case PopCheck(i) => i <= s.read && i < s.write
       case PopCompare(i, seen) => i <= s.read && i < s.write && seen != SEALED
       case PopSeal(i, seen) => i <= s.read && i < s.write && seen != SEALED && IsPart(s, i) && seen <= s.parts[i].dequeue
       case PopAdvance(i) => i < s.write && SealedAt(s, i)
  }

  ghost predicate Holds(c: Config, s: State, i: nat, pos: nat, phase: Phase) {
    Allocated(c, s, i) && CellOf(c, s, i, pos).turn == pos && CellOf(c, s, i, pos).phase == phase
  }

  /** The push at `pos` has published, at this lap or before. */
  ghost predicate HasPublished(c: Config, s: State, i: nat, pos: nat) {
    && Allocated(c, s, i)
    && var cell := CellOf(c, s, i, pos);
    && (pos < cell.turn || (pos == cell.turn && pos < cell.sequence))
  }

  ghost predicate ActsOk(c: Config, s: State) {
    forall t {:trigger ActOk(c, s, t)} :: t in s.acts ==> ActOk(c, s, t)
  }

  /** Positions and tokens correspond one to one. */
  ghost predicate PlaceOk(s: State, i: nat, pos: nat)
    requires IsPart(s, i) && pos < |s.parts[i].claims|
  {
    var v := s.parts[i].claims[pos];
    v in s.pusher && v in s.claimedAt && s.claimedAt[v] == Place(i, pos)
  }

  /** The push still looks for a position. */
  predicate Carries(a: Act, v: Token) {
    && (a.PushStart? || a.PushInit? || a.PushInstall? || a.PushLoad? || a.PushTest? || a.PushClaim? || a.PushGrow?)
    && a.v == v
  }

  /** A push that has begun has its position or is still looking for one. */
  ghost predicate TokenOk(s: State, v: Token)
    requires v in s.pusher
  {
    if v in s.claimedAt then
      var p := s.claimedAt[v];
      IsPart(s, p.part) && p.pos < |s.parts[p.part].claims| && s.parts[p.part].claims[p.pos] == v
    else
      s.pusher[v] in s.acts && Carries(s.acts[s.pusher[v]], v)
  }

  ghost predicate PlacesOk(s: State) {
    && (forall v :: v in s.claimedAt ==> v in s.pusher)
    && (forall v {:trigger TokenOk(s, v)} :: v in s.pusher ==> TokenOk(s, v))
    && (forall i: nat, pos: nat {:trigger PlaceOk(s, i, pos)} ::
          IsPart(s, i) && pos < |s.parts[i].claims| ==> PlaceOk(s, i, pos))
  }

  predicate Before(a: Place, b: Place) {
    a.part < b.part || (a.part == b.part && a.pos < b.pos)
  }

  /** Positions are taken in lexicographic order, none skipped. */
  ghost predicate TakesOk(s: State) {
    && (forall a, b :: 0 <= a < b < |s.takes| ==> Before(s.takes[a], s.takes[b]))
    && (forall i: nat, pos: nat {:trigger Place(i, pos)} ::
          Place(i, pos) in s.takes <==> IsPart(s, i) && pos < s.parts[i].dequeue)
    && (forall i: nat :: s.read < i && IsPart(s, i) ==> s.parts[i].dequeue == 0)
  }

  ghost predicate Returned(s: State, place: Place) {
    exists e :: e in s.popped && e.place == place
  }

  /** A taken position has been returned, or its pop is still at work. */
  ghost predicate TakenOk(c: Config, s: State, i: nat, pos: nat) {
    Returned(s, Place(i, pos)) || (Allocated(c, s, i) && CellOf(c, s, i, pos).turn == pos && CellOf(c, s, i, pos).phase.Reading?)
  }

  /** What a pop returned was pushed at that position, whose cell has moved on. */
  ghost predicate PoppedOk(c: Config, s: State, e: Popped) {
    && Allocated(c, s, e.place.part) && e.place.pos < s.parts[e.place.part].dequeue
    && e.place.pos < |s.parts[e.place.part].claims| && s.parts[e.place.part].claims[e.place.pos] == e.v
    && e.place.pos < CellOf(c, s, e.place.part, e.place.pos).turn
  }

  ghost predicate LogOk(c: Config, s: State) {
    && (forall e {:trigger PoppedOk(c, s, e)} :: e in s.popped ==> PoppedOk(c, s, e))
    && (forall a, b :: 0 <= a < b < |s.popped| ==> s.popped[a].place != s.popped[b].place)
    && (forall i: nat, pos: nat {:trigger TakenOk(c, s, i, pos)} ::
          IsPart(s, i) && pos < s.parts[i].dequeue ==> TakenOk(c, s, i, pos))
  }

  /** The sizes of the rings make a cell that waits for its next lap differ from one that
      was just published. */
  ghost predicate Wide(c: Config) { 1 <= c.log2 }

  ghost predicate Inv(c: Config, s: State) {
    && Wide(c)
    && PartsOk(c, s) && CellsOk(c, s) && ActsOk(c, s) && PlacesOk(s) && TakesOk(s) && LogOk(c, s)
  }

  // ------------------------------------------------------------------ stability

  ghost predicate CellMoves(a: Cell, b: Cell, t: Tid) {
    && (a.turn < b.turn || (a.turn == b.turn && a.sequence <= b.sequence))
    && ((a.phase.Writing? || a.phase.Reading?) && a.phase.holder != t ==> b == a)
  }

  ghost predicate PartMoves(c: Config, a: Part, b: Part, t: Tid) {
    && a.claims <= b.claims && a.dequeue <= b.dequeue
    && (a.enqueue == SEALED ==> b.enqueue == SEALED)
    && (a.ring != [] ==> |b.ring| == |a.ring|)
    && forall k :: 0 <= k < |a.ring| && k < |b.ring| ==> CellMoves(a.ring[k], b.ring[k], t)
  }

  /** What the other threads may count on when `t` moves. */
  ghost predicate Rely(c: Config, s: State, s': State, t: Tid) {
    && |s'.parts| == |s.parts| && s.read <= s'.read && s.write <= s'.write
    && (forall u :: u in s'.acts <==> u in s.acts)
    && (forall u :: u in s.acts && u != t ==> s'.acts[u] == s.acts[u])
    && (forall i :: 0 <= i < |s.parts| ==> PartMoves(c, s.parts[i], s'.parts[i], t))
    && (forall v :: v in s.pusher ==> v in s'.pusher && s'.pusher[v] == s.pusher[v])
    && (forall v :: v in s'.claimedAt ==> v in s.claimedAt || (v in s.pusher && s.pusher[v] == t))
  }

  lemma OtherActKept(c: Config, s: State, s': State, t: Tid, u: Tid)
    requires ActOk(c, s, u) && Rely(c, s, s', t) && u != t
    ensures ActOk(c, s', u)
  {
  }

  lemma ActsKept(c: Config, s: State, s': State, t: Tid)
    requires ActsOk(c, s) && Rely(c, s, s', t) && (t in s'.acts ==> ActOk(c, s', t))
    ensures ActsOk(c, s')
  {
    forall u | u in s'.acts ensures ActOk(c, s', u) {
      if u != t {
        assert ActOk(c, s, u);
        OtherActKept(c, s, s', t, u);
      }
    }
  }

  /** Two positions of one cell are a whole lap apart. */
  lemma SameSlot(c: Config, i: nat, a: nat, b: nat)
    requires Slot(c, i, a) == Slot(c, i, b) && a < b
    ensures a + Size(c, i) <= b
  {
    var n := Size(c, i);
    QuotRem(a, n);
    QuotRem(b, n);
    MultiplesOrder(Quot(a, n), Quot(b, n), n);
  }

  /** The cell of a position that is claimed but not taken, or next to be claimed,
      serves exactly that position. */
  lemma TurnIs(c: Config, s: State, i: nat, pos: nat)
    requires PartOk(c, s, i) && Allocated(c, s, i) && CellOk(c, s, i, Slot(c, i, pos))
    requires s.parts[i].dequeue <= pos < |s.parts[i].claims|
    ensures CellOf(c, s, i, pos).turn == pos
  {
    var turn := CellOf(c, s, i, pos).turn;
    if turn < pos { SameSlot(c, i, turn, pos); }
    if pos < turn { SameSlot(c, i, pos, turn); }
  }
}
