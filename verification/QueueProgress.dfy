/** What a look at a cell means: a push takes its position, or the ring was full or sealed, or
    another push was faster; a pop that looks again was overtaken by another pop. */
module QueueProgress {
  import opened Radix
  import opened QueueMachine
  import opened QueueInvariant
  import opened QueueTheorems

  /** At a ring that was the one to write. */
  predicate Pushing(a: Act) { a.PushInit? || a.PushInstall? || a.PushLoad? || a.PushTest? || a.PushClaim? || a.PushGrow? }

  /** At a ring that was the one to read. */
  predicate Popping(a: Act) {
    a.PopRing? || a.PopLoad? || a.PopTest? || a.PopClaim? || a.PopEmpty? || a.PopCheck? || a.PopCompare? || a.PopSeal? || a.PopAdvance?
  }

  /** What a thread has in view was so: its ring is not ahead of the cursor, and the position
      of a push was the ring's enqueue position. */
  ghost predicate LookedOk(s: State, t: Tid) {
    && t in s.acts && (Pushing(s.acts[t]) ==> s.acts[t].part <= s.write) && (Popping(s.acts[t]) ==> s.acts[t].part <= s.read)
    && (s.acts[t].PushTest? ==>
          IsPart(s, s.acts[t].part) && (s.acts[t].pos == SEALED || s.acts[t].pos <= |s.parts[s.acts[t].part].claims|))
  }

  ghost predicate LooksOk(s: State) {
    forall t {:trigger LookedOk(s, t)} :: t in s.acts ==> LookedOk(s, t)
  }

  /** A step of `t` leaves the others where they are, and takes it to a look only with the
      enqueue position in hand. */
  ghost predicate Looks(s: State, s': State, t: Tid) {
    && t in s.acts && t in s'.acts && (forall u :: u in s'.acts ==> u in s.acts)
    && (forall u :: u in s.acts && u != t ==> u in s'.acts && s'.acts[u] == s.acts[u])
    && (s'.acts[t].PushTest? ==> IsPart(s, s'.acts[t].part) && s'.acts[t].pos == s.parts[s'.acts[t].part].enqueue)
    && (Pushing(s'.acts[t]) ==> s'.acts[t].part == s.write || (Pushing(s.acts[t]) && s'.acts[t].part == s.acts[t].part))
    && (Popping(s'.acts[t]) ==> s'.acts[t].part == s.read || (Popping(s.acts[t]) && s'.acts[t].part == s.acts[t].part))
  }

  lemma PushBeginsLook(c: Config, s: State, s': State, t: Tid, v: Token, i: nat, pos: nat)
    requires || PushBegin(c, s, s', t, v) || PushSelect(c, s, s', t, v) || PushSeeRing(c, s, s', t, v, i)
             || PushInstalls(c, s, s', t, v, i) || PushLoads(c, s, s', t, v, i)
    ensures Looks(s, s', t)
  {
  }

  lemma PushTriesLook(c: Config, s: State, s': State, t: Tid, v: Token, i: nat, pos: nat)
    requires PushTests(c, s, s', t, v, i, pos) || PushClaimFails(c, s, s', t, v, i, pos) || PushGrows(c, s, s', t, v, i)
    ensures Looks(s, s', t)
  {
  }

  lemma PushWritesLook(c: Config, s: State, s': State, t: Tid, v: Token, i: nat, pos: nat)
    requires PushClaims(c, s, s', t, v, i, pos) || PushStores(c, s, s', t, v, i, pos) || PushPublishes(c, s, s', t, v, i, pos)
    ensures Looks(s, s', t)
  {
  }

  lemma PushesLook(c: Config, s: State, s': State, t: Tid, v: Token, i: nat, pos: nat)
    requires PushMoves(c, s, s', t, v, i, pos)
    ensures Looks(s, s', t)
  {
    if || PushBegin(c, s, s', t, v) || PushSelect(c, s, s', t, v) || PushSeeRing(c, s, s', t, v, i)
       || PushInstalls(c, s, s', t, v, i) || PushLoads(c, s, s', t, v, i) {
      PushBeginsLook(c, s, s', t, v, i, pos);
    } else if PushTests(c, s, s', t, v, i, pos) || PushClaimFails(c, s, s', t, v, i, pos) || PushGrows(c, s, s', t, v, i) {
      PushTriesLook(c, s, s', t, v, i, pos);
    } else {
      PushWritesLook(c, s, s', t, v, i, pos);
    }
  }

  lemma PopsLook(c: Config, s: State, s': State, t: Tid, v: Token, i: nat, pos: nat)
    requires PopMoves(c, s, s', t, v, i, pos)
    ensures Looks(s, s', t)
  {
    if || PopClaims(c, s, s', t, i, pos) || PopReleases(c, s, s', t, i, pos, v) || PopSeals(c, s, s', t, i, pos) {
      PopTakesLook(c, s, s', t, v, i, pos);
    } else if PopGivesUp(c, s, s', t, i) || PopChecks(c, s, s', t, i) || PopCompares(c, s, s', t, i, pos) || PopAdvances(c, s, s', t, i) {
      PopLeavesLook(c, s, s', t, i, pos);
    } else {
      PopTriesLook(c, s, s', t, i, pos);
    }
  }

  lemma PopTakesLook(c: Config, s: State, s': State, t: Tid, v: Token, i: nat, pos: nat)
    requires PopClaims(c, s, s', t, i, pos) || PopReleases(c, s, s', t, i, pos, v) || PopSeals(c, s, s', t, i, pos)
    ensures Looks(s, s', t)
  {
  }

  lemma PopLeavesLook(c: Config, s: State, s': State, t: Tid, i: nat, pos: nat)
    requires PopGivesUp(c, s, s', t, i) || PopChecks(c, s, s', t, i) || PopCompares(c, s, s', t, i, pos) || PopAdvances(c, s, s', t, i)
    ensures Looks(s, s', t)
  {
  }

  lemma PopTriesLook(c: Config, s: State, s': State, t: Tid, i: nat, pos: nat)
    requires || PopBegin(c, s, s', t) || PopSelect(c, s, s', t) || PopSeesRing(c, s, s', t, i) || PopLoads(c, s, s', t, i)
             || PopTests(c, s, s', t, i, pos) || PopClaimFails(c, s, s', t, i, pos) || PopFetches(c, s, s', t, i, pos)
    ensures Looks(s, s', t)
  {
  }

  lemma NextLooks(c: Config, s: State, s': State)
    requires Inv(c, s) && Roomy(c, s) && LooksOk(s) && Next(c, s, s')
    ensures LooksOk(s')
  {
    NextGrows(c, s, s');
    var t: Tid, v: Token, i: nat, pos: nat :| PushMoves(c, s, s', t, v, i, pos) || PopMoves(c, s, s', t, v, i, pos);
    if PushMoves(c, s, s', t, v, i, pos) { PushesLook(c, s, s', t, v, i, pos); } else { PopsLook(c, s, s', t, v, i, pos); }
    LooksStay(c, s, s', t);
  }

  lemma LooksStay(c: Config, s: State, s': State, t: Tid)
    requires PartsOk(c, s) && LooksOk(s) && Grows(s, s') && Looks(s, s', t)
    ensures LooksOk(s')
  {
    forall u | u in s'.acts ensures LookedOk(s', u) {
      assert LookedOk(s, u);
      if s'.acts[u].PushTest? {
        var p := s'.acts[u].part;
        assert IsPart(s, p) && PartOk(c, s, p) && PartGrows(s.parts[p], s'.parts[p]);
      }
    }
  }

  lemma {:induction false} RunLooks(c: Config, run: seq<State>, i: nat)
    requires Wide(c) && Run(c, run) && i < |run|
    ensures LooksOk(run[i])
  {
    if i == 0 {
      forall t | t in run[0].acts ensures LookedOk(run[0], t) {}
    } else {
      RunLooks(c, run, i - 1);
      RunInvariant(c, run, i - 1);
      assert StepAt(c, run, i - 1);
      NextLooks(c, run[i - 1], run[i]);
    }
  }

  // -------------------------------------------------------------------------- decisions

  /** The cell that the next position needs still holds the value of a lap before. */
  ghost predicate FullAt(c: Config, s: State, i: nat, pos: nat) {
    && Allocated(c, s, i) && s.parts[i].enqueue == pos && Size(c, i) <= pos
    && CellOf(c, s, i, pos).turn == pos - Size(c, i) && !CellOf(c, s, i, pos).phase.Free?
  }

  /** The turn of a position's cell is a whole number of laps from it. */
  lemma WithinLap(c: Config, i: nat, pos: nat, turn: nat)
    requires Slot(c, i, turn) == Slot(c, i, pos)
    ensures turn < pos ==> turn + Size(c, i) <= pos
    ensures pos < turn ==> pos + Size(c, i) <= turn
  {
    if turn < pos { SameSlot(c, i, turn, pos); } else if pos < turn { SameSlot(c, i, pos, turn); }
  }

  lemma PushLookMeans(c: Config, s: State, i: nat, pos: nat)
    requires Wide(c) && PartOk(c, s, i) && Allocated(c, s, i) && CellOk(c, s, i, Slot(c, i, pos)) && |s.parts[i].claims| + Size(c, i) < SEALED
    ensures CellOf(c, s, i, pos).sequence > pos ==> s.parts[i].enqueue != pos
    ensures CellOf(c, s, i, pos).sequence < pos ==> pos == SEALED || SealedAt(s, i) || |s.parts[i].claims| < pos || FullAt(c, s, i, pos)
  {
    var cell := CellOf(c, s, i, pos);
    WithinLap(c, i, pos, cell.turn);
  }

  lemma PopLookMeans(c: Config, s: State, i: nat, pos: nat)
    requires Wide(c) && PartOk(c, s, i) && Allocated(c, s, i) && CellOk(c, s, i, Slot(c, i, pos))
    ensures CellOf(c, s, i, pos).sequence > pos + 1 ==> s.parts[i].dequeue != pos
  {
    var cell := CellOf(c, s, i, pos);
    WithinLap(c, i, pos, cell.turn);
  }

  /** A push moves on to the next ring only from one that is full or sealed, and looks at
      the same ring again only when another push has taken the position. */
  lemma PushDecides(c: Config, run: seq<State>, k: nat, t: Tid, v: Token, i: nat, pos: nat)
    requires Wide(c) && Run(c, run) && k + 1 < |run| && PushTests(c, run[k], run[k + 1], t, v, i, pos)
    ensures t in run[k + 1].acts
    ensures run[k + 1].acts[t].PushGrow? ==> pos == SEALED || SealedAt(run[k], i) || FullAt(c, run[k], i, pos)
    ensures run[k + 1].acts[t].PushLoad? ==> run[k].parts[i].enqueue != pos
    ensures run[k + 1].acts[t].PushGrow? || run[k + 1].acts[t].PushLoad? || run[k + 1].acts[t].PushClaim?
  {
    var s := run[k];
    RunInvariant(c, run, k);
    RunLooks(c, run, k);
    assert LookedOk(s, t) && ActOk(c, s, t) && PartOk(c, s, i) && CellOk(c, s, i, Slot(c, i, pos)) && Roomy(c, s);
    PushLookMeans(c, s, i, pos);
  }

  /** A pop looks at the same ring again only when another pop has taken the position. */
  lemma PopDecides(c: Config, run: seq<State>, k: nat, t: Tid, i: nat, pos: nat)
    requires Wide(c) && Run(c, run) && k + 1 < |run| && PopTests(c, run[k], run[k + 1], t, i, pos)
    ensures t in run[k + 1].acts && (run[k + 1].acts[t].PopLoad? ==> run[k].parts[i].dequeue != pos)
  {
    var s := run[k];
    RunInvariant(c, run, k);
    assert ActOk(c, s, t) && PartOk(c, s, i) && CellOk(c, s, i, Slot(c, i, pos));
    PopLookMeans(c, s, i, pos);
  }

  /** A push that leaves a full ring finds the write cursor behind it, unless it is the last. */
  lemma GrowPasses(c: Config, run: seq<State>, k: nat, t: Tid, v: Token, i: nat)
    requires Wide(c) && Run(c, run) && k + 1 < |run| && PushGrows(c, run[k], run[k + 1], t, v, i) && i + 1 < c.partitions
    ensures i < run[k + 1].write
  {
    RunLooks(c, run, k);
    assert LookedOk(run[k], t);
  }

  /** A pop that leaves a sealed ring finds the read cursor behind it. */
  lemma AdvancePasses(c: Config, run: seq<State>, k: nat, t: Tid, i: nat)
    requires Wide(c) && Run(c, run) && k + 1 < |run| && PopAdvances(c, run[k], run[k + 1], t, i)
    ensures i < run[k + 1].read
  {
    RunLooks(c, run, k);
    assert LookedOk(run[k], t);
  }
}
