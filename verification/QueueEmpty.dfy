/** What the answer "empty" rests on: at some moment of the pop the ring that is read was
    the ring that is written, and nothing was published at its next position.  A pop that
    is alone and finds nothing has everything that was ever pushed behind it. */
module QueueEmpty {
  import opened QueueMachine
  import opened QueueInvariant
  import opened QueueSteps
  import opened QueueTheorems

  predicate Pops(a: Act) {
    || a.PopStart? || a.PopRing? || a.PopLoad? || a.PopTest? || a.PopClaim? || a.PopFetch? || a.PopRelease?
    || a.PopEmpty? || a.PopCheck? || a.PopCompare? || a.PopSeal? || a.PopAdvance?
  }

  /** The push has chosen a ring and no position in it. */
  predicate Chooses(a: Act) {
    a.PushInit? || a.PushInstall? || a.PushLoad? || a.PushTest? || a.PushClaim? || a.PushGrow?
  }

  // -------------------------------------------------------------------- the front

  /** Pushes go to rings up to the write cursor, and a pop's position is not ahead of its
      ring's. */
  ghost predicate ThreadFront(s: State, t: Tid) {
    && t in s.acts
    && (Chooses(s.acts[t]) ==> s.acts[t].part <= s.write)
    && (s.acts[t].PopTest? || s.acts[t].PopClaim? ==>
          IsPart(s, s.acts[t].part) && s.acts[t].pos <= s.parts[s.acts[t].part].dequeue)
  }

  ghost predicate FrontOk(s: State) {
    && (forall i: nat {:trigger IsPart(s, i)} :: IsPart(s, i) && s.write < i ==> s.parts[i].claims == [])
    && (forall t {:trigger ThreadFront(s, t)} :: t in s.acts ==> ThreadFront(s, t))
  }

  ghost predicate ActsAlone(s: State, s': State, t: Tid) {
    && t in s.acts && (forall u :: u in s'.acts <==> u in s.acts)
    && forall u :: u in s.acts && u != t ==> s'.acts[u] == s.acts[u]
  }

  ghost predicate ClaimsAlone(s: State, s': State, t: Tid) {
    && |s'.parts| == |s.parts|
    && forall j: nat {:trigger IsPart(s, j)} :: IsPart(s, j) && s'.parts[j].claims != s.parts[j].claims ==>
         t in s.acts && s.acts[t].PushClaim? && s.acts[t].part == j
  }

  lemma PushOpens(c: Config, s: State, s': State, t: Tid, v: Token, i: nat)
    requires PushBegin(c, s, s', t, v) || PushSelect(c, s, s', t, v) || PushSeeRing(c, s, s', t, v, i) || PushInstalls(c, s, s', t, v, i)
    requires t in s.acts && ThreadFront(s, t)
    ensures ActsAlone(s, s', t) && ClaimsAlone(s, s', t) && ThreadFront(s', t)
    ensures !Pops(s.acts[t]) && !s'.acts[t].PopEmpty?
  {
  }

  lemma PushLooks(c: Config, s: State, s': State, t: Tid, v: Token, i: nat, pos: nat)
    requires PushLoads(c, s, s', t, v, i) || PushTests(c, s, s', t, v, i, pos) || PushClaimFails(c, s, s', t, v, i, pos) || PushGrows(c, s, s', t, v, i)
    requires t in s.acts && ThreadFront(s, t)
    ensures ActsAlone(s, s', t) && ClaimsAlone(s, s', t) && ThreadFront(s', t)
    ensures !Pops(s.acts[t]) && !s'.acts[t].PopEmpty?
  {
  }

  lemma PushWrites(c: Config, s: State, s': State, t: Tid, v: Token, i: nat, pos: nat)
    requires PushClaims(c, s, s', t, v, i, pos) || PushStores(c, s, s', t, v, i, pos) || PushPublishes(c, s, s', t, v, i, pos)
    requires t in s.acts && ThreadFront(s, t)
    ensures ActsAlone(s, s', t) && ClaimsAlone(s, s', t) && ThreadFront(s', t)
    ensures !Pops(s.acts[t]) && !s'.acts[t].PopEmpty?
  {
  }

  lemma PushFront(c: Config, s: State, s': State, t: Tid, v: Token, i: nat, pos: nat)
    requires PushMoves(c, s, s', t, v, i, pos) && t in s.acts && ThreadFront(s, t)
    ensures ActsAlone(s, s', t) && ClaimsAlone(s, s', t) && ThreadFront(s', t)
    ensures !Pops(s.acts[t]) && !s'.acts[t].PopEmpty?
  {
    if PushBegin(c, s, s', t, v) || PushSelect(c, s, s', t, v) || PushSeeRing(c, s, s', t, v, i) || PushInstalls(c, s, s', t, v, i) {
      PushOpens(c, s, s', t, v, i);
    } else if PushClaims(c, s, s', t, v, i, pos) || PushStores(c, s, s', t, v, i, pos) || PushPublishes(c, s, s', t, v, i, pos) {
      PushWrites(c, s, s', t, v, i, pos);
    } else {
      PushLooks(c, s, s', t, v, i, pos);
    }
  }

  lemma PopLooks(c: Config, s: State, s': State, t: Tid, i: nat, pos: nat)
    requires PopBegin(c, s, s', t) || PopSelect(c, s, s', t) || PopSeesRing(c, s, s', t, i) || PopLoads(c, s, s', t, i)
          || PopTests(c, s, s', t, i, pos) || PopClaimFails(c, s, s', t, i, pos)
    requires t in s.acts && ThreadFront(s, t)
    ensures ActsAlone(s, s', t) && ClaimsAlone(s, s', t) && ThreadFront(s', t) && s'.pusher == s.pusher
    ensures s'.acts[t] != Idle && (s'.acts[t].PopEmpty? ==> s'.acts[t].part == i && (PopTests(c, s, s', t, i, pos) || PopSeesRing(c, s, s', t, i)))
  {
  }

  lemma PopTakes(c: Config, s: State, s': State, t: Tid, v: Token, i: nat, pos: nat)
    requires PopClaims(c, s, s', t, i, pos) || PopFetches(c, s, s', t, i, pos) || PopReleases(c, s, s', t, i, pos, v)
    requires t in s.acts && ThreadFront(s, t)
    ensures ActsAlone(s, s', t) && ClaimsAlone(s, s', t) && ThreadFront(s', t) && s'.pusher == s.pusher
    ensures !s'.acts[t].PopEmpty? && !EndsEmpty(s, s', t)
  {
  }

  lemma PopChecked(c: Config, s: State, s': State, t: Tid, i: nat, pos: nat)
    requires PopGivesUp(c, s, s', t, i) || PopChecks(c, s, s', t, i) || PopCompares(c, s, s', t, i, pos)
    requires t in s.acts && ThreadFront(s, t)
    ensures ActsAlone(s, s', t) && ClaimsAlone(s, s', t) && ThreadFront(s', t) && s'.pusher == s.pusher
    ensures !s'.acts[t].PopEmpty? && (EndsEmpty(s, s', t) ==> FoundEmpty(s, t, i) && s.write <= i)
  {
  }

  lemma PopMovesOn(c: Config, s: State, s': State, t: Tid, i: nat, pos: nat)
    requires PopSeals(c, s, s', t, i, pos) || PopAdvances(c, s, s', t, i)
    requires t in s.acts && ThreadFront(s, t)
    ensures ActsAlone(s, s', t) && ClaimsAlone(s, s', t) && ThreadFront(s', t) && s'.pusher == s.pusher
    ensures !s'.acts[t].PopEmpty? && !EndsEmpty(s, s', t)
  {
  }

  lemma PopFront(c: Config, s: State, s': State, t: Tid, v: Token, i: nat, pos: nat)
    requires PopMoves(c, s, s', t, v, i, pos) && t in s.acts && ThreadFront(s, t)
    ensures ActsAlone(s, s', t) && ClaimsAlone(s, s', t) && ThreadFront(s', t) && s'.pusher == s.pusher
    ensures s'.acts[t].PopEmpty? ==> s'.acts[t].part == i && (PopTests(c, s, s', t, i, pos) || PopSeesRing(c, s, s', t, i))
    ensures EndsEmpty(s, s', t) ==> FoundEmpty(s, t, i) && s.write <= i
  {
    if PopClaims(c, s, s', t, i, pos) || PopFetches(c, s, s', t, i, pos) || PopReleases(c, s, s', t, i, pos, v) {
      PopTakes(c, s, s', t, v, i, pos);
    } else if PopGivesUp(c, s, s', t, i) || PopChecks(c, s, s', t, i) || PopCompares(c, s, s', t, i, pos) {
      PopChecked(c, s, s', t, i, pos);
    } else if PopSeals(c, s, s', t, i, pos) || PopAdvances(c, s, s', t, i) {
      PopMovesOn(c, s, s', t, i, pos);
    } else {
      PopLooks(c, s, s', t, i, pos);
    }
  }

  lemma PushIn(c: Config, s: State, s': State, t: Tid, v: Token, i: nat, pos: nat)
    requires PushMoves(c, s, s', t, v, i, pos)
    ensures t in s.acts
  {
  }

  lemma PopIn(c: Config, s: State, s': State, t: Tid, v: Token, i: nat, pos: nat)
    requires PopMoves(c, s, s', t, v, i, pos)
    ensures t in s.acts
  {
  }

  /** What any step is, seen from outside. */
  ghost predicate Stepped(s: State, s': State, t: Tid) {
    ActsAlone(s, s', t) && ClaimsAlone(s, s', t) && ThreadFront(s', t)
  }

  lemma MoveSteps(c: Config, s: State, s': State, t: Tid, v: Token, i: nat, pos: nat)
    requires FrontOk(s) && (PushMoves(c, s, s', t, v, i, pos) || PopMoves(c, s, s', t, v, i, pos))
    ensures Stepped(s, s', t)
  {
    if PushMoves(c, s, s', t, v, i, pos) {
      PushIn(c, s, s', t, v, i, pos);
      assert ThreadFront(s, t);
      PushFront(c, s, s', t, v, i, pos);
    } else {
      PopIn(c, s, s', t, v, i, pos);
      assert ThreadFront(s, t);
      PopFront(c, s, s', t, v, i, pos);
    }
  }

  lemma Mover(c: Config, s: State, s': State) returns (t: Tid)
    requires FrontOk(s) && Next(c, s, s')
    ensures Stepped(s, s', t)
  {
    var u: Tid, v: Token, i: nat, pos: nat :| PushMoves(c, s, s', u, v, i, pos) || PopMoves(c, s, s', u, v, i, pos);
    t := u;
    MoveSteps(c, s, s', u, v, i, pos);
  }

  lemma OtherFront(s: State, s': State, u: Tid)
    requires ThreadFront(s, u) && Grows(s, s') && u in s'.acts && s'.acts[u] == s.acts[u]
    ensures ThreadFront(s', u)
  {
    if s.acts[u].PopTest? || s.acts[u].PopClaim? { assert PartGrows(s.parts[s.acts[u].part], s'.parts[s.acts[u].part]); }
  }

  lemma FrontKept(c: Config, s: State, s': State)
    requires FrontOk(s) && Next(c, s, s') && Grows(s, s')
    ensures FrontOk(s')
  {
    var t := Mover(c, s, s');
    assert ThreadFront(s, t);
    forall u | u in s'.acts ensures ThreadFront(s', u) {
      if u != t {
        assert ThreadFront(s, u);
        OtherFront(s, s', u);
      }
    }
    forall i: nat | IsPart(s', i) && s'.write < i ensures s'.parts[i].claims == [] { assert IsPart(s, i); }
  }

  lemma {:induction false} RunFront(c: Config, run: seq<State>, i: nat)
    requires Wide(c) && Run(c, run) && i < |run|
    ensures FrontOk(run[i])
  {
    if i == 0 {
      InitFront(c, run[0]);
    } else {
      RunFront(c, run, i - 1);
      FrontStep(c, run, i - 1);
    }
  }

  lemma InitFront(c: Config, s: State)
    requires Init(c, s)
    ensures FrontOk(s)
  {
    forall t | t in s.acts ensures ThreadFront(s, t) {}
  }

  lemma FrontStep(c: Config, run: seq<State>, i: nat)
    requires Wide(c) && Run(c, run) && i + 1 < |run| && FrontOk(run[i])
    ensures FrontOk(run[i + 1])
  {
    assert StepAt(c, run, i);
    StepGrows(c, run, i);
    FrontKept(c, run[i], run[i + 1]);
  }

  // ----------------------------------------------------------------- what a pop saw

  /** Nothing is published at the ring's next position. */
  ghost predicate Vacant(c: Config, s: State, i: nat) {
    && IsPart(s, i)
    && (s.parts[i].ring == [] || (Allocated(c, s, i) && CellOf(c, s, i, s.parts[i].dequeue).sequence <= s.parts[i].dequeue))
  }

  /** A position that was seen unpublished is the next one. */
  lemma SeenIsNext(c: Config, s: State, i: nat, pos: nat)
    requires PartOk(c, s, i) && Allocated(c, s, i) && CellOk(c, s, i, Slot(c, i, pos)) && pos <= s.parts[i].dequeue
    requires CellOf(c, s, i, pos).sequence <= pos
    ensures pos == s.parts[i].dequeue
  {
    var turn := CellOf(c, s, i, pos).turn;
    if turn < pos { SameSlot(c, i, turn, pos); }
  }

  ghost predicate Sees(c: Config, s: State, t: Tid, p: nat) {
    t in s.acts && (s.acts[t] == PopRing(p) || (s.acts[t].PopTest? && s.acts[t].part == p)) && p <= s.read && Vacant(c, s, p)
  }

  ghost predicate FoundEmpty(s: State, t: Tid, p: nat) { t in s.acts && s.acts[t] == PopEmpty(p) }

  lemma RingSeen(c: Config, s: State, s': State, t: Tid, i: nat)
    requires Inv(c, s) && PopSeesRing(c, s, s', t, i) && FoundEmpty(s', t, i)
    ensures Sees(c, s, t, i)
  {
    assert ActOk(c, s, t);
  }

  lemma CellSeen(c: Config, s: State, s': State, t: Tid, i: nat, pos: nat)
    requires Inv(c, s) && FrontOk(s) && PopTests(c, s, s', t, i, pos) && FoundEmpty(s', t, i)
    ensures Sees(c, s, t, i)
  {
    assert ActOk(c, s, t) && ThreadFront(s, t) && PartOk(c, s, i) && CellOk(c, s, i, Slot(c, i, pos));
    SeenIsNext(c, s, i, pos);
  }

  /** The thread's own step to that verdict. */
  lemma OwnSight(c: Config, s: State, s': State, t: Tid, v: Token, i: nat, pos: nat, p: nat)
    requires Inv(c, s) && FrontOk(s) && (PushMoves(c, s, s', t, v, i, pos) || PopMoves(c, s, s', t, v, i, pos))
    requires FoundEmpty(s', t, p)
    ensures Sees(c, s, t, p)
  {
    assert ThreadFront(s, t);
    if PushMoves(c, s, s', t, v, i, pos) { PushFront(c, s, s', t, v, i, pos); } else { PopFront(c, s, s', t, v, i, pos); }
    if PopTests(c, s, s', t, i, pos) { CellSeen(c, s, s', t, i, pos); } else { RingSeen(c, s, s', t, i); }
  }

  lemma MoveSees(c: Config, s: State, s': State, u: Tid, v: Token, i: nat, pos: nat, t: Tid, p: nat)
    requires Inv(c, s) && FrontOk(s) && (PushMoves(c, s, s', u, v, i, pos) || PopMoves(c, s, s', u, v, i, pos))
    requires FoundEmpty(s', t, p)
    ensures FoundEmpty(s, t, p) || Sees(c, s, t, p)
  {
    if u == t { OwnSight(c, s, s', t, v, i, pos, p); } else { MoveSteps(c, s, s', u, v, i, pos); }
  }

  lemma StepSees(c: Config, s: State, s': State, t: Tid, p: nat)
    requires Inv(c, s) && FrontOk(s) && Next(c, s, s') && FoundEmpty(s', t, p)
    ensures FoundEmpty(s, t, p) || Sees(c, s, t, p)
  {
    var u: Tid, v: Token, i: nat, pos: nat :| PushMoves(c, s, s', u, v, i, pos) || PopMoves(c, s, s', u, v, i, pos);
    MoveSees(c, s, s', u, v, i, pos, t, p);
  }

  lemma NotAtStart(c: Config, s: State, t: Tid, p: nat)
    requires Init(c, s)
    ensures !FoundEmpty(s, t, p)
  {
  }

  lemma SightAt(c: Config, run: seq<State>, i: nat, t: Tid, p: nat)
    requires Wide(c) && Run(c, run) && i + 1 < |run| && FoundEmpty(run[i + 1], t, p)
    ensures FoundEmpty(run[i], t, p) || Sees(c, run[i], t, p)
  {
    RunInvariant(c, run, i);
    RunFront(c, run, i);
    assert StepAt(c, run, i);
    StepSees(c, run[i], run[i + 1], t, p);
  }

  /** Back to the moment at which the pop saw it. */
  lemma {:induction false} SeenBefore(c: Config, run: seq<State>, j: nat, t: Tid, p: nat) returns (m: nat)
    requires Wide(c) && Run(c, run) && j < |run| && FoundEmpty(run[j], t, p)
    ensures m < j && Sees(c, run[m], t, p)
    ensures forall x: nat {:trigger FoundEmpty(run[x], t, p)} :: m < x <= j ==> FoundEmpty(run[x], t, p)
  {
    NotAtStart(c, run[0], t, p);
    SightAt(c, run, j - 1, t, p);
    if Sees(c, run[j - 1], t, p) { m := j - 1; } else { m := SeenBefore(c, run, j - 1, t, p); }
  }

  /** The thread's pop is over without a value. */
  ghost predicate EndsEmpty(s: State, s': State, t: Tid) {
    t in s.acts && t in s'.acts && Pops(s.acts[t]) && s'.acts[t] == Idle && s'.popped == s.popped
  }

  lemma EmptyEnds(c: Config, s: State, s': State, t: Tid) returns (p: nat)
    requires FrontOk(s) && Next(c, s, s') && EndsEmpty(s, s', t)
    ensures FoundEmpty(s, t, p) && s.write <= p
  {
    var u: Tid, v: Token, i: nat, pos: nat :| PushMoves(c, s, s', u, v, i, pos) || PopMoves(c, s, s', u, v, i, pos);
    p := i;
    MoveEnds(c, s, s', u, v, i, pos, t);
  }

  lemma MoveEnds(c: Config, s: State, s': State, u: Tid, v: Token, i: nat, pos: nat, t: Tid)
    requires FrontOk(s) && (PushMoves(c, s, s', u, v, i, pos) || PopMoves(c, s, s', u, v, i, pos)) && EndsEmpty(s, s', t)
    ensures FoundEmpty(s, t, i) && s.write <= i
  {
    MoveSteps(c, s, s', u, v, i, pos);
    assert u == t && ThreadFront(s, t);
    if PushMoves(c, s, s', u, v, i, pos) { PushFront(c, s, s', u, v, i, pos); } else { PopFront(c, s, s', u, v, i, pos); }
  }

  /** At moment `m` the queue had nothing to give: the ring that is read is the one that is
      written, and nothing is published at its next position. */
  ghost predicate EmptyAt(c: Config, s: State) { s.read == s.write && Vacant(c, s, s.read) }

  /** An empty answer was true at some moment of the call. */
  lemma EmptyIsTrue(c: Config, run: seq<State>, b: nat, j: nat, t: Tid) returns (m: nat)
    requires Wide(c) && Run(c, run) && b < j && j + 1 < |run| && PopBegin(c, run[b], run[b + 1], t) && EndsEmpty(run[j], run[j + 1], t)
    ensures b < m < j && EmptyAt(c, run[m]) && Sees(c, run[m], t, run[m].read)
  {
    var p := EndSeen(c, run, j, t);
    m := SeenBefore(c, run, j, t, p);
    assert b > m ==> FoundEmpty(run[b], t, p);
    SeenWasEmpty(c, run, m, j, t, p);
  }

  lemma EndSeen(c: Config, run: seq<State>, j: nat, t: Tid) returns (p: nat)
    requires Wide(c) && Run(c, run) && j + 1 < |run| && EndsEmpty(run[j], run[j + 1], t)
    ensures FoundEmpty(run[j], t, p) && run[j].write <= p
  {
    RunFront(c, run, j);
    assert StepAt(c, run, j);
    p := EmptyEnds(c, run[j], run[j + 1], t);
  }

  lemma SeenWasEmpty(c: Config, run: seq<State>, m: nat, j: nat, t: Tid, p: nat)
    requires Wide(c) && Run(c, run) && m < j < |run| && Sees(c, run[m], t, p) && run[j].write <= p
    ensures EmptyAt(c, run[m]) && p == run[m].read
  {
    RunInvariant(c, run, m);
    RunGrows(c, run, m, j);
  }

  // ------------------------------------------------------------------- a pop alone

  /** No other thread is inside an operation. */
  ghost predicate Alone(s: State, t: Tid) { forall u :: u in s.acts && u != t ==> s.acts[u] == Idle }

  /** Then everything claimed in the ring has been taken. */
  lemma AllTaken(c: Config, s: State, t: Tid, i: nat)
    requires Inv(c, s) && Alone(s, t) && Sees(c, s, t, i) && i < c.partitions
    ensures s.parts[i].dequeue == |s.parts[i].claims|
  {
    assert PartOk(c, s, i);
    if s.parts[i].ring != [] && s.parts[i].dequeue < |s.parts[i].claims| {
      assert CellOk(c, s, i, Slot(c, i, s.parts[i].dequeue));
      TurnIs(c, s, i, s.parts[i].dequeue);
      assert false;
    }
  }

  lemma TakenIsReturned(c: Config, s: State, t: Tid, i: nat, pos: nat)
    requires Inv(c, s) && Alone(s, t) && t in s.acts && !s.acts[t].PopFetch? && !s.acts[t].PopRelease? && i < c.partitions && IsPart(s, i)
    requires pos < s.parts[i].dequeue && pos < |s.parts[i].claims|
    ensures Popped(Place(i, pos), s.parts[i].claims[pos]) in s.popped
  {
    assert TakenOk(c, s, i, pos);
    assert Allocated(c, s, i) ==> CellOk(c, s, i, Slot(c, i, pos));
    assert Returned(s, Place(i, pos));
    var e :| e in s.popped && e.place == Place(i, pos);
    assert PoppedOk(c, s, e);
  }

  lemma NothingLeft(c: Config, s: State, t: Tid, v: Token)
    requires Inv(c, s) && FrontOk(s) && Alone(s, t) && EmptyAt(c, s) && Sees(c, s, t, s.read) && v in s.pusher
    ensures exists e :: e in s.popped && e.v == v
  {
    assert TokenOk(s, v);
    var p := s.claimedAt[v];
    assert IsPart(s, p.part) && PartOk(c, s, p.part);
    if p.part < s.read { assert SealedAt(s, p.part); } else { AllTaken(c, s, t, s.read); }
    TakenIsReturned(c, s, t, p.part, p.pos);
  }

  lemma AloneStep(c: Config, s: State, s': State, t: Tid)
    requires FrontOk(s) && Next(c, s, s') && Alone(s, t) && Alone(s', t) && t in s.acts && Pops(s.acts[t])
    ensures s'.pusher == s.pusher
  {
    var u: Tid, v: Token, i: nat, pos: nat :| PushMoves(c, s, s', u, v, i, pos) || PopMoves(c, s, s', u, v, i, pos);
    if PushMoves(c, s, s', u, v, i, pos) {
      NoPush(c, s, s', u, v, i, pos);
    } else {
      PopIn(c, s, s', u, v, i, pos);
      assert ThreadFront(s, u);
      PopFront(c, s, s', u, v, i, pos);
    }
  }

  /** A push that begins is at work. */
  lemma NoPush(c: Config, s: State, s': State, t: Tid, v: Token, i: nat, pos: nat)
    requires PushMoves(c, s, s', t, v, i, pos)
    ensures t in s.acts && t in s'.acts && !Pops(s.acts[t]) && (s.acts[t] == Idle ==> s'.acts[t] != Idle)
  {
    if !PushBegin(c, s, s', t, v) { PushAtWork(c, s, s', t, v, i, pos); }
  }

  lemma PushAtWork(c: Config, s: State, s': State, t: Tid, v: Token, i: nat, pos: nat)
    requires PushMoves(c, s, s', t, v, i, pos) && !PushBegin(c, s, s', t, v)
    ensures t in s.acts && t in s'.acts && !Pops(s.acts[t]) && s.acts[t] != Idle
  {
    if PushClaims(c, s, s', t, v, i, pos) || PushStores(c, s, s', t, v, i, pos) || PushPublishes(c, s, s', t, v, i, pos) {
      PushHoldsPlace(c, s, s', t, v, i, pos);
    } else {
      PushLooksOn(c, s, s', t, v, i, pos);
    }
  }

  lemma PushLooksOn(c: Config, s: State, s': State, t: Tid, v: Token, i: nat, pos: nat)
    requires || PushSelect(c, s, s', t, v) || PushSeeRing(c, s, s', t, v, i) || PushInstalls(c, s, s', t, v, i) || PushLoads(c, s, s', t, v, i)
             || PushTests(c, s, s', t, v, i, pos) || PushClaimFails(c, s, s', t, v, i, pos) || PushGrows(c, s, s', t, v, i)
    ensures t in s.acts && t in s'.acts && !Pops(s.acts[t]) && s.acts[t] != Idle
  {
  }

  lemma PushHoldsPlace(c: Config, s: State, s': State, t: Tid, v: Token, i: nat, pos: nat)
    requires PushClaims(c, s, s', t, v, i, pos) || PushStores(c, s, s', t, v, i, pos) || PushPublishes(c, s, s', t, v, i, pos)
    ensures t in s.acts && t in s'.acts && !Pops(s.acts[t]) && s.acts[t] != Idle
  {
  }

  lemma {:induction false} AlonePushers(c: Config, run: seq<State>, m: nat, j: nat, t: Tid)
    requires Wide(c) && Run(c, run) && m <= j < |run|
    requires forall x: nat {:trigger run[x]} :: m <= x <= j ==> Alone(run[x], t) && t in run[x].acts && Pops(run[x].acts[t])
    ensures run[j].pusher == run[m].pusher
  {
    if m < j {
      AlonePushers(c, run, m, j - 1, t);
      AloneAt(c, run, j - 1, t);
    }
  }

  lemma AloneAt(c: Config, run: seq<State>, i: nat, t: Tid)
    requires Wide(c) && Run(c, run) && i + 1 < |run| && Alone(run[i], t) && Alone(run[i + 1], t)
    requires t in run[i].acts && Pops(run[i].acts[t])
    ensures run[i + 1].pusher == run[i].pusher
  {
    RunFront(c, run, i);
    assert StepAt(c, run, i);
    AloneStep(c, run[i], run[i + 1], t);
  }

  /** A pop that runs from its begin to an empty answer with no other operation in progress
      leaves nothing behind: every value ever pushed has been returned. */
  lemma EmptyAloneIsDrained(c: Config, run: seq<State>, b: nat, j: nat, t: Tid, v: Token)
    requires Wide(c) && Run(c, run) && b < j && j + 1 < |run| && PopBegin(c, run[b], run[b + 1], t) && EndsEmpty(run[j], run[j + 1], t)
    requires forall x: nat {:trigger run[x]} :: b < x <= j ==> Alone(run[x], t) && t in run[x].acts && Pops(run[x].acts[t])
    requires v in run[j].pusher
    ensures exists e :: e in run[j].popped && e.v == v
  {
    var m := EmptyIsTrue(c, run, b, j, t);
    AlonePushers(c, run, m, j, t);
    RunInvariant(c, run, m);
    RunFront(c, run, m);
    NothingLeft(c, run[m], t, v);
    RunGrows(c, run, m, j);
    var e :| e in run[m].popped && e.v == v;
    assert e in run[j].popped;
  }
}
