/** What the queue promises, for every run and any number of threads. */
module QueueTheorems {
  import opened QueueMachine
  import opened QueueInvariant
  import opened QueueSteps

  lemma InitOk(c: Config, s: State)
    requires Wide(c) && Init(c, s)
    ensures Inv(c, s)
  {
  }

  lemma {:induction false} RunInvariant(c: Config, run: seq<State>, i: nat)
    requires Wide(c) && Run(c, run) && i < |run|
    ensures Inv(c, run[i])
  {
    if i == 0 {
      InitOk(c, run[0]);
    } else {
      RunInvariant(c, run, i - 1);
      assert StepAt(c, run, i - 1);
      NextKeeps(c, run[i - 1], run[i]);
    }
  }

  // ----------------------------------------------------------------- along a run

  ghost predicate PartGrows(a: Part, b: Part) {
    && a.claims <= b.claims && a.dequeue <= b.dequeue
    && (a.enqueue == SEALED ==> b.enqueue == SEALED && b.claims == a.claims)
  }

  /** Nothing is unclaimed or untaken again, and a sealed ring gets no more pushes. */
  ghost predicate Grows(s: State, s': State) {
    && |s'.parts| == |s.parts| && s.read <= s'.read && s.write <= s'.write
    && (forall p :: 0 <= p < |s.parts| ==> PartGrows(s.parts[p], s'.parts[p]))
    && s.takes <= s'.takes && s.popped <= s'.popped
  }

  lemma PushClaimsGrow(c: Config, s: State, s': State, t: Tid, v: Token, i: nat, pos: nat)
    requires Inv(c, s) && Roomy(c, s) && PushClaims(c, s, s', t, v, i, pos)
    ensures Grows(s, s')
  {
    PushClaimReady(c, s, t, v, i, pos);
  }

  lemma PushGrowsParts(c: Config, s: State, s': State, t: Tid, v: Token, i: nat, pos: nat)
    requires PushInstalls(c, s, s', t, v, i) || PushStores(c, s, s', t, v, i, pos) || PushPublishes(c, s, s', t, v, i, pos)
    ensures Grows(s, s')
  {
  }

  lemma PopGrowsParts(c: Config, s: State, s': State, t: Tid, v: Token, i: nat, pos: nat)
    requires Inv(c, s)
    requires PopClaims(c, s, s', t, i, pos) || PopReleases(c, s, s', t, i, pos, v) || PopSeals(c, s, s', t, i, pos)
    ensures Grows(s, s')
  {
  }

  /** The other steps leave the rings as they are. */
  lemma PushLooksGrow(c: Config, s: State, s': State, t: Tid, v: Token, i: nat, pos: nat)
    requires PushMoves(c, s, s', t, v, i, pos)
    requires !PushClaims(c, s, s', t, v, i, pos) && !PushInstalls(c, s, s', t, v, i)
    requires !PushStores(c, s, s', t, v, i, pos) && !PushPublishes(c, s, s', t, v, i, pos)
    ensures Grows(s, s')
  {
    assert s'.parts == s.parts && s'.takes == s.takes && s'.popped == s.popped && s'.read == s.read;
    StillGrows(s, s');
  }

  lemma StillGrows(s: State, s': State)
    requires s'.parts == s.parts && s'.takes == s.takes && s'.popped == s.popped && s.read <= s'.read && s.write <= s'.write
    ensures Grows(s, s')
  {
  }

  lemma PopLooksGrow(c: Config, s: State, s': State, t: Tid, v: Token, i: nat, pos: nat)
    requires PopMoves(c, s, s', t, v, i, pos)
    requires !PopClaims(c, s, s', t, i, pos) && !PopReleases(c, s, s', t, i, pos, v) && !PopSeals(c, s, s', t, i, pos)
    ensures Grows(s, s')
  {
    if PopAdvances(c, s, s', t, i) {
      assert s'.parts == s.parts && s'.takes == s.takes && s'.popped == s.popped && s'.write == s.write;
    } else {
      assert s'.parts == s.parts && s'.takes == s.takes && s'.popped == s.popped && s'.read == s.read && s'.write == s.write;
    }
    StillGrows(s, s');
  }

  lemma NextGrows(c: Config, s: State, s': State)
    requires Inv(c, s) && Roomy(c, s) && Next(c, s, s')
    ensures Grows(s, s')
  {
    var t: Tid, v: Token, i: nat, pos: nat :| PushMoves(c, s, s', t, v, i, pos) || PopMoves(c, s, s', t, v, i, pos);
    if PushMoves(c, s, s', t, v, i, pos) {
      if PushClaims(c, s, s', t, v, i, pos) {
        PushClaimsGrow(c, s, s', t, v, i, pos);
      } else if PushInstalls(c, s, s', t, v, i) || PushStores(c, s, s', t, v, i, pos) || PushPublishes(c, s, s', t, v, i, pos) {
        PushGrowsParts(c, s, s', t, v, i, pos);
      } else {
        PushLooksGrow(c, s, s', t, v, i, pos);
      }
    } else if PopClaims(c, s, s', t, i, pos) || PopReleases(c, s, s', t, i, pos, v) || PopSeals(c, s, s', t, i, pos) {
      PopGrowsParts(c, s, s', t, v, i, pos);
    } else {
      PopLooksGrow(c, s, s', t, v, i, pos);
    }
  }

  lemma GrowsOn(a: State, b: State, c: State)
    requires Grows(a, b) && Grows(b, c)
    ensures Grows(a, c)
  {
    forall p | 0 <= p < |a.parts| ensures PartGrows(a.parts[p], c.parts[p]) {
      assert PartGrows(a.parts[p], b.parts[p]) && PartGrows(b.parts[p], c.parts[p]);
    }
  }

  lemma StepGrows(c: Config, run: seq<State>, i: nat)
    requires Wide(c) && Run(c, run) && i + 1 < |run|
    ensures Grows(run[i], run[i + 1])
  {
    RunInvariant(c, run, i);
    assert StepAt(c, run, i);
    NextGrows(c, run[i], run[i + 1]);
  }

  lemma {:induction false} RunGrows(c: Config, run: seq<State>, i: nat, j: nat)
    requires Wide(c) && Run(c, run) && i <= j < |run|
    ensures Grows(run[i], run[j])
  {
    if i < j {
      RunGrows(c, run, i, j - 1);
      StepGrows(c, run, j - 1);
      GrowsOn(run[i], run[j - 1], run[j]);
    }
  }

  // ------------------------------------------------------------------- promises

  /** Conservation, first half: a pop returns the value pushed at the position it
      took, and no pushed value is returned twice. */
  lemma PopReturnsPush(c: Config, run: seq<State>, i: nat, a: nat)
    requires Wide(c) && Run(c, run) && i < |run| && a < |run[i].popped|
    ensures var s, e := run[i], run[i].popped[a];
      && IsPart(s, e.place.part) && e.place.pos < |s.parts[e.place.part].claims|
      && s.parts[e.place.part].claims[e.place.pos] == e.v
      && e.v in s.claimedAt && s.claimedAt[e.v] == e.place
      && forall b :: 0 <= b < |s.popped| && b != a ==> s.popped[b].v != e.v
  {
    RunInvariant(c, run, i);
    var s := run[i];
    forall b | 0 <= b < |s.popped|
      ensures s.popped[b].v in s.claimedAt && s.claimedAt[s.popped[b].v] == s.popped[b].place
    {
      var e := s.popped[b];
      assert e in s.popped && PoppedOk(c, s, e) && PlaceOk(s, e.place.part, e.place.pos);
    }
    assert PoppedOk(c, s, s.popped[a]);
  }

  /** A pushed value is accounted for: it waits in its cell or was returned. */
  ghost predicate Accounted(c: Config, s: State, v: Token) {
    && v in s.claimedAt
    && var p := s.claimedAt[v];
    && Allocated(c, s, p.part)
    && (if p.pos < s.parts[p.part].dequeue then Popped(p, v) in s.popped
        else CellOf(c, s, p.part, p.pos).data == v && CellOf(c, s, p.part, p.pos).sequence == p.pos + 1)
  }

  ghost predicate AtRest(s: State) { forall t :: t in s.acts ==> s.acts[t] == Idle }

  /** Conservation, second half: when no thread is inside an operation, every push
      that ever began is accounted for. */
  lemma NothingLost(c: Config, run: seq<State>, i: nat, v: Token)
    requires Wide(c) && Run(c, run) && i < |run| && v in run[i].pusher && AtRest(run[i])
    ensures Accounted(c, run[i], v)
  {
    RunInvariant(c, run, i);
    var s := run[i];
    assert TokenOk(s, v);
    var p := s.claimedAt[v];
    assert PartOk(c, s, p.part) && CellOk(c, s, p.part, Slot(c, p.part, p.pos));
    if p.pos < s.parts[p.part].dequeue {
      assert TakenOk(c, s, p.part, p.pos);
      var e :| e in s.popped && e.place == p;
      assert PoppedOk(c, s, e);
    } else {
      TurnIs(c, s, p.part, p.pos);
    }
  }

  /** Positions are taken in order: within a ring one after the other, and a later
      ring only after the earlier one. */
  lemma TakenInOrder(c: Config, run: seq<State>, i: nat, a: nat, b: nat)
    requires Wide(c) && Run(c, run) && i < |run| && a < b < |run[i].takes|
    ensures Before(run[i].takes[a], run[i].takes[b])
    ensures run[i].takes[b].part <= run[i].read
  {
    RunInvariant(c, run, i);
    var x := run[i].takes[b];
    assert x in run[i].takes && x == Place(x.part, x.pos);
  }

  /** The read cursor leaves a ring only when every position ever claimed there has
      been taken, and never passes the write cursor. */
  lemma ReadPassesDrained(c: Config, run: seq<State>, i: nat, p: nat)
    requires Wide(c) && Run(c, run) && i < |run|
    ensures run[i].read <= run[i].write < |run[i].parts|
    ensures p < run[i].read ==> run[i].parts[p].dequeue == |run[i].parts[p].claims|
  {
    RunInvariant(c, run, i);
    assert p < run[i].read ==> SealedAt(run[i], p) && PartOk(c, run[i], p);
  }

  /** A sealed ring stays sealed and drained: no push claims a cell there again. */
  lemma SealedForGood(c: Config, run: seq<State>, i: nat, j: nat, p: nat)
    requires Wide(c) && Run(c, run) && i <= j < |run| && p < |run[i].parts| && run[i].parts[p].enqueue == SEALED
    ensures p < |run[j].parts| && run[j].parts[p].enqueue == SEALED
    ensures run[j].parts[p].claims == run[i].parts[p].claims
    ensures run[j].parts[p].dequeue == |run[j].parts[p].claims|
  {
    RunGrows(c, run, i, j);
    RunInvariant(c, run, j);
    assert PartOk(c, run[j], p);
  }
}
