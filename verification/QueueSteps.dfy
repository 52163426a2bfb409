/** Every step of the queue keeps its invariant. */
module QueueSteps {
  import opened Radix
  import opened QueueMachine
  import opened QueueInvariant

  // ------------------------------------------------------- steps that only look

  /** The act of a thread that holds no cell. */
  predicate HandsFree(a: Act) {
    !a.PushStore? && !a.PushPublish? && !a.PopFetch? && !a.PopRelease?
  }

  lemma SameCells(c: Config, s: State, s': State, t: Tid)
    requires CellsOk(c, s) && s'.parts == s.parts && |s.parts| == c.partitions
    requires t in s.acts && t in s'.acts && s'.acts == s.acts[t := s'.acts[t]]
    requires HandsFree(s.acts[t])
    ensures CellsOk(c, s')
  {
    forall i: nat, k: nat | i < c.partitions && k < |s'.parts[i].ring| ensures CellOk(c, s', i, k) {
      assert CellOk(c, s, i, k);
    }
  }

  /** Only the cursors between rings and the bookkeeping may differ. */
  lemma SameParts(c: Config, s: State, s': State)
    requires PartsOk(c, s) && s'.parts == s.parts && s'.read == s.read && s.write <= s'.write < c.partitions
    ensures PartsOk(c, s')
  {
    forall i: nat | i < c.partitions ensures PartOk(c, s', i) { assert PartOk(c, s, i); }
    forall i: nat | i < s'.read ensures SealedAt(s', i) { assert SealedAt(s, i); }
  }

  lemma SameLog(c: Config, s: State, s': State)
    requires LogOk(c, s) && s'.parts == s.parts && s'.popped == s.popped
    ensures LogOk(c, s')
  {
    forall e | e in s'.popped ensures PoppedOk(c, s', e) { assert PoppedOk(c, s, e); }
    forall i: nat, pos: nat | IsPart(s', i) && pos < s'.parts[i].dequeue ensures TakenOk(c, s', i, pos) {
      assert TakenOk(c, s, i, pos);
    }
  }

  lemma SamePlaces(c: Config, s: State, s': State, t: Tid)
    requires PlacesOk(s) && s'.parts == s.parts && s'.claimedAt == s.claimedAt
    requires t in s.acts && t in s'.acts && s'.acts == s.acts[t := s'.acts[t]]
    requires forall v :: v in s.pusher ==> v in s'.pusher && s'.pusher[v] == s.pusher[v]
    requires forall v :: v in s'.pusher && v !in s.pusher ==> s'.pusher[v] == t && Carries(s'.acts[t], v)
    requires forall v :: Carries(s.acts[t], v) ==> Carries(s'.acts[t], v)
    ensures PlacesOk(s')
  {
    forall v | v in s'.pusher ensures TokenOk(s', v) {
      if v in s.pusher { assert TokenOk(s, v); }
    }
    forall i: nat, pos: nat | IsPart(s', i) && pos < |s'.parts[i].claims| ensures PlaceOk(s', i, pos) {
      assert PlaceOk(s, i, pos);
    }
  }

  /** A step of a thread that holds no cell and leaves the rings alone. */
  lemma QuietKeeps(c: Config, s: State, s': State, t: Tid)
    requires Inv(c, s) && t in s.acts && t in s'.acts && HandsFree(s.acts[t])
    requires s' == s.(acts := s.acts[t := s'.acts[t]], write := s'.write, pusher := s'.pusher)
    requires s.write <= s'.write < c.partitions
    requires forall v :: v in s.pusher ==> v in s'.pusher && s'.pusher[v] == s.pusher[v]
    requires forall v :: v in s'.pusher && v !in s.pusher ==> s'.pusher[v] == t && Carries(s'.acts[t], v)
    requires forall v :: Carries(s.acts[t], v) ==> Carries(s'.acts[t], v)
    requires ActOk(c, s', t)
    ensures Inv(c, s')
  {
    SameCells(c, s, s', t);
    SameParts(c, s, s');
    SameLog(c, s, s');
    SamePlaces(c, s, s', t);
    ActsKept(c, s, s', t);
  }

  lemma PushLooksKeep(c: Config, s: State, s': State, t: Tid, v: Token, i: nat, pos: nat)
    requires Inv(c, s)
    requires || PushBegin(c, s, s', t, v) || PushSelect(c, s, s', t, v) || PushSeeRing(c, s, s', t, v, i)
             || PushLoads(c, s, s', t, v, i) || PushClaimFails(c, s, s', t, v, i, pos) || PushGrows(c, s, s', t, v, i)
    ensures Inv(c, s')
  {
    if PushBegin(c, s, s', t, v) || PushSelect(c, s, s', t, v) || PushSeeRing(c, s, s', t, v, i) {
      PushOpensKeep(c, s, s', t, v, i);
    } else {
      PushRetriesKeep(c, s, s', t, v, i, pos);
    }
  }

  lemma PushOpensKeep(c: Config, s: State, s': State, t: Tid, v: Token, i: nat)
    requires Inv(c, s) && (PushBegin(c, s, s', t, v) || PushSelect(c, s, s', t, v) || PushSeeRing(c, s, s', t, v, i))
    ensures Inv(c, s')
  {
    assert ActOk(c, s, t);
    assert IsPart(s, i) && i < c.partitions ==> PartOk(c, s, i);
    QuietKeeps(c, s, s', t);
  }

  lemma PushRetriesKeep(c: Config, s: State, s': State, t: Tid, v: Token, i: nat, pos: nat)
    requires Inv(c, s) && (PushLoads(c, s, s', t, v, i) || PushClaimFails(c, s, s', t, v, i, pos) || PushGrows(c, s, s', t, v, i))
    ensures Inv(c, s')
  {
    assert ActOk(c, s, t);
    QuietKeeps(c, s, s', t);
  }

  lemma PushTestsKeep(c: Config, s: State, s': State, t: Tid, v: Token, i: nat, pos: nat)
    requires Inv(c, s) && PushTests(c, s, s', t, v, i, pos)
    ensures Inv(c, s')
  {
    assert ActOk(c, s, t);
    assert CellOk(c, s, i, Slot(c, i, pos));
    if CellOf(c, s, i, pos).turn < pos { SameSlot(c, i, CellOf(c, s, i, pos).turn, pos); }
    QuietKeeps(c, s, s', t);
  }

  lemma PopLooksKeep(c: Config, s: State, s': State, t: Tid, i: nat, pos: nat)
    requires Inv(c, s)
    requires || PopBegin(c, s, s', t) || PopSelect(c, s, s', t) || PopSeesRing(c, s, s', t, i)
             || PopLoads(c, s, s', t, i) || PopClaimFails(c, s, s', t, i, pos)
    ensures Inv(c, s')
  {
    if PopBegin(c, s, s', t) || PopSelect(c, s, s', t) || PopSeesRing(c, s, s', t, i) {
      PopOpensKeep(c, s, s', t, i);
    } else {
      PopRetriesKeep(c, s, s', t, i, pos);
    }
  }

  lemma PopOpensKeep(c: Config, s: State, s': State, t: Tid, i: nat)
    requires Inv(c, s) && (PopBegin(c, s, s', t) || PopSelect(c, s, s', t) || PopSeesRing(c, s, s', t, i))
    ensures Inv(c, s')
  {
    assert ActOk(c, s, t);
    assert IsPart(s, i) && i < c.partitions ==> PartOk(c, s, i);
    QuietKeeps(c, s, s', t);
  }

  lemma PopRetriesKeep(c: Config, s: State, s': State, t: Tid, i: nat, pos: nat)
    requires Inv(c, s) && (PopLoads(c, s, s', t, i) || PopClaimFails(c, s, s', t, i, pos))
    ensures Inv(c, s')
  {
    assert ActOk(c, s, t);
    QuietKeeps(c, s, s', t);
  }

  lemma PopChecksKeep(c: Config, s: State, s': State, t: Tid, i: nat, seen: nat)
    requires Inv(c, s)
    requires PopGivesUp(c, s, s', t, i) || PopChecks(c, s, s', t, i) || PopCompares(c, s, s', t, i, seen)
    ensures Inv(c, s')
  {
    assert ActOk(c, s, t);
    QuietKeeps(c, s, s', t);
  }

  lemma PopTestsKeep(c: Config, s: State, s': State, t: Tid, i: nat, pos: nat)
    requires Inv(c, s) && PopTests(c, s, s', t, i, pos)
    ensures Inv(c, s')
  {
    assert ActOk(c, s, t);
    assert CellOk(c, s, i, Slot(c, i, pos));
    if CellOf(c, s, i, pos).turn < pos { SameSlot(c, i, CellOf(c, s, i, pos).turn, pos); }
    QuietKeeps(c, s, s', t);
  }

  // -------------------------------------------------------- steps on one cell

  /** Thread `t` changes the cell of position `pos` and, at most, moves one of the
      ring's counters past that position. */
  ghost predicate Touches(c: Config, s: State, s': State, t: Tid, i: nat, pos: nat) {
    && HasCell(c, s, i, pos) && HasCell(c, s', i, pos) && t in s.acts && t in s'.acts
    && s'.parts == s.parts[i := s'.parts[i]]
    && s'.parts[i].ring == s.parts[i].ring[Slot(c, i, pos) := CellOf(c, s', i, pos)]
    && s'.acts == s.acts[t := s'.acts[t]]
    && (HandsFree(s.acts[t]) || (s.acts[t].part == i && s.acts[t].pos == pos))
    && s'.read == s.read && s'.write == s.write
    && var p, p' := s.parts[i], s'.parts[i];
    && p.claims <= p'.claims && (|p'.claims| == |p.claims| || (|p.claims| == pos && |p'.claims| == pos + 1))
    && (p'.dequeue == p.dequeue || (p.dequeue == pos && p'.dequeue == pos + 1))
  }

  lemma LapSlot(c: Config, i: nat, pos: nat)
    ensures Slot(c, i, pos + Size(c, i)) == Slot(c, i, pos)
  {
    assert Rem(pos + Size(c, i), Size(c, i)) == Rem(pos, Size(c, i));
  }

  lemma OtherCellKept(c: Config, s: State, s': State, t: Tid, i: nat, pos: nat, j: nat, k: nat)
    requires Touches(c, s, s', t, i, pos) && CellOk(c, s, j, k)
    requires j != i || k != Slot(c, i, pos)
    ensures CellOk(c, s', j, k)
  {
    if j == i { LapSlot(c, i, s.parts[i].ring[k].turn); }
  }

  lemma CellsKept(c: Config, s: State, s': State, t: Tid, i: nat, pos: nat)
    requires CellsOk(c, s) && |s.parts| == c.partitions && Touches(c, s, s', t, i, pos)
    requires CellOk(c, s', i, Slot(c, i, pos))
    ensures CellsOk(c, s')
  {
    forall j: nat, k: nat | j < c.partitions && k < |s'.parts[j].ring| ensures CellOk(c, s', j, k) {
      if j != i || k != Slot(c, i, pos) {
        assert CellOk(c, s, j, k);
        OtherCellKept(c, s, s', t, i, pos, j, k);
      }
    }
  }

  lemma PartsKept(c: Config, s: State, s': State, t: Tid, i: nat, pos: nat)
    requires PartsOk(c, s) && Touches(c, s, s', t, i, pos)
    requires PartOk(c, s', i) && (SealedAt(s, i) ==> SealedAt(s', i))
    ensures PartsOk(c, s')
  {
    forall j: nat | j < c.partitions ensures PartOk(c, s', j) { if j != i { assert PartOk(c, s, j); } }
    forall j: nat | j < s'.read ensures SealedAt(s', j) { assert SealedAt(s, j); }
  }

  lemma RelyTouches(c: Config, s: State, s': State, t: Tid, i: nat, pos: nat)
    requires Touches(c, s, s', t, i, pos) && CellMoves(CellOf(c, s, i, pos), CellOf(c, s', i, pos), t)
    requires SealedAt(s, i) ==> SealedAt(s', i)
    requires s'.pusher == s.pusher
    requires forall v :: v in s'.claimedAt ==> v in s.claimedAt || (v in s.pusher && s.pusher[v] == t)
    ensures Rely(c, s, s', t)
  {
    forall j | 0 <= j < |s.parts| ensures PartMoves(c, s.parts[j], s'.parts[j], t) {
    }
  }

  /** Nothing was taken or returned, and the cell did not go back. */
  lemma LogKept(c: Config, s: State, s': State, t: Tid, i: nat, pos: nat)
    requires LogOk(c, s) && Touches(c, s, s', t, i, pos) && s'.popped == s.popped
    requires s'.parts[i].dequeue == s.parts[i].dequeue
    requires CellOf(c, s', i, pos).turn == CellOf(c, s, i, pos).turn
    requires !CellOf(c, s, i, pos).phase.Reading?
    ensures LogOk(c, s')
  {
    forall e | e in s'.popped ensures PoppedOk(c, s', e) { assert PoppedOk(c, s, e); }
    forall j: nat, q: nat | IsPart(s', j) && q < s'.parts[j].dequeue ensures TakenOk(c, s', j, q) {
      assert TakenOk(c, s, j, q);
    }
  }

  lemma PlacesKept(c: Config, s: State, s': State, t: Tid, i: nat, pos: nat)
    requires PlacesOk(s) && Touches(c, s, s', t, i, pos)
    requires s'.pusher == s.pusher && s'.claimedAt == s.claimedAt && s'.parts[i].claims == s.parts[i].claims
    requires forall v :: !Carries(s.acts[t], v)
    ensures PlacesOk(s')
  {
    forall v | v in s'.pusher ensures TokenOk(s', v) { assert TokenOk(s, v); }
    forall j: nat, q: nat | IsPart(s', j) && q < |s'.parts[j].claims| ensures PlaceOk(s', j, q) {
      assert PlaceOk(s, j, q);
    }
  }

  lemma PushStoresKeep(c: Config, s: State, s': State, t: Tid, v: Token, i: nat, pos: nat)
    requires Inv(c, s) && PushStores(c, s, s', t, v, i, pos)
    ensures Inv(c, s')
  {
    assert ActOk(c, s, t) && PartOk(c, s, i) && CellOk(c, s, i, Slot(c, i, pos));
    assert Touches(c, s, s', t, i, pos);
    CellsKept(c, s, s', t, i, pos);
    PartsKept(c, s, s', t, i, pos);
    RelyTouches(c, s, s', t, i, pos);
    ActsKept(c, s, s', t);
    LogKept(c, s, s', t, i, pos);
    PlacesKept(c, s, s', t, i, pos);
  }

  lemma PushPublishesKeep(c: Config, s: State, s': State, t: Tid, v: Token, i: nat, pos: nat)
    requires Inv(c, s) && PushPublishes(c, s, s', t, v, i, pos)
    ensures Inv(c, s')
  {
    assert ActOk(c, s, t) && PartOk(c, s, i) && CellOk(c, s, i, Slot(c, i, pos));
    assert Touches(c, s, s', t, i, pos);
    CellsKept(c, s, s', t, i, pos);
    PartsKept(c, s, s', t, i, pos);
    RelyTouches(c, s, s', t, i, pos);
    ActsKept(c, s, s', t);
    LogKept(c, s, s', t, i, pos);
    PlacesKept(c, s, s', t, i, pos);
  }

  // --------------------------------------------------------------------- claims

  /** At a successful claim the cell is free and serves the claimed position. */
  lemma PushClaimReady(c: Config, s: State, t: Tid, v: Token, i: nat, pos: nat)
    requires Inv(c, s) && Roomy(c, s) && At(s, t, PushClaim(v, i, pos)) && HasCell(c, s, i, pos) && s.parts[i].enqueue == pos
    ensures pos == |s.parts[i].claims| && pos != SEALED
    ensures CellOf(c, s, i, pos).turn == pos && CellOf(c, s, i, pos).phase == Free
    ensures pos < s.parts[i].dequeue + Size(c, i) && Unplaced(s, t, v)
  {
    assert ActOk(c, s, t) && PartOk(c, s, i) && CellOk(c, s, i, Slot(c, i, pos));
    var turn := CellOf(c, s, i, pos).turn;
    if pos < turn { SameSlot(c, i, pos, turn); }
  }

  lemma PushClaimsPlaces(c: Config, s: State, s': State, t: Tid, v: Token, i: nat, pos: nat)
    requires Inv(c, s) && PushClaims(c, s, s', t, v, i, pos) && pos == |s.parts[i].claims| && Unplaced(s, t, v)
    ensures PlacesOk(s')
  {
    forall w | w in s'.pusher ensures TokenOk(s', w) { assert TokenOk(s, w); }
    forall j: nat, q: nat | IsPart(s', j) && q < |s'.parts[j].claims| ensures PlaceOk(s', j, q) {
      if j != i || q != pos { assert PlaceOk(s, j, q); }
    }
  }

  lemma PushClaimsKeep(c: Config, s: State, s': State, t: Tid, v: Token, i: nat, pos: nat)
    requires Inv(c, s) && Roomy(c, s) && Roomy(c, s') && PushClaims(c, s, s', t, v, i, pos)
    ensures Inv(c, s')
  {
    PushClaimReady(c, s, t, v, i, pos);
    assert PartOk(c, s, i) && CellOk(c, s, i, Slot(c, i, pos));
    assert Touches(c, s, s', t, i, pos);
    assert |s'.parts[i].claims| + Size(c, i) < SEALED;
    CellsKept(c, s, s', t, i, pos);
    PartsKept(c, s, s', t, i, pos);
    RelyTouches(c, s, s', t, i, pos);
    ActsKept(c, s, s', t);
    LogKept(c, s, s', t, i, pos);
    PushClaimsPlaces(c, s, s', t, v, i, pos);
  }

  /** At a successful claim the cell holds the value pushed at that position, and
      the ring is the one the read cursor stands on. */
  lemma PopClaimReady(c: Config, s: State, t: Tid, i: nat, pos: nat)
    requires Inv(c, s) && At(s, t, PopClaim(i, pos)) && HasCell(c, s, i, pos) && s.parts[i].dequeue == pos
    ensures CellOf(c, s, i, pos).turn == pos && CellOf(c, s, i, pos).phase == Ready
    ensures pos < |s.parts[i].claims| && i == s.read && !SealedAt(s, i)
  {
    assert ActOk(c, s, t) && PartOk(c, s, i) && CellOk(c, s, i, Slot(c, i, pos));
    var turn := CellOf(c, s, i, pos).turn;
    if pos < turn { SameSlot(c, i, pos, turn); }
    assert i < s.read ==> SealedAt(s, i);
  }

  lemma PopClaimsTakes(c: Config, s: State, s': State, t: Tid, i: nat, pos: nat)
    requires Inv(c, s) && PopClaims(c, s, s', t, i, pos) && i == s.read
    ensures TakesOk(s')
  {
    forall a, b | 0 <= a < b < |s'.takes| ensures Before(s'.takes[a], s'.takes[b]) {
      var x := s'.takes[a];
      if b == |s.takes| {
        assert x == s.takes[a] && x in s.takes && x == Place(x.part, x.pos);
      }
    }
    forall j: nat, q: nat ensures Place(j, q) in s'.takes <==> IsPart(s', j) && q < s'.parts[j].dequeue {
      assert Place(j, q) in s'.takes <==> Place(j, q) in s.takes || Place(j, q) == Place(i, pos);
    }
  }

  lemma PopClaimsLog(c: Config, s: State, s': State, t: Tid, i: nat, pos: nat)
    requires Inv(c, s) && PopClaims(c, s, s', t, i, pos) && CellOf(c, s, i, pos).turn == pos
    requires CellOf(c, s, i, pos).phase == Ready
    ensures LogOk(c, s')
  {
    forall e | e in s'.popped ensures PoppedOk(c, s', e) { assert PoppedOk(c, s, e); }
    forall j: nat, q: nat | IsPart(s', j) && q < s'.parts[j].dequeue ensures TakenOk(c, s', j, q) {
      if j != i || q != pos { assert TakenOk(c, s, j, q); }
    }
  }

  lemma PopClaimsKeep(c: Config, s: State, s': State, t: Tid, i: nat, pos: nat)
    requires Inv(c, s) && PopClaims(c, s, s', t, i, pos)
    ensures Inv(c, s')
  {
    PopClaimReady(c, s, t, i, pos);
    assert PartOk(c, s, i) && CellOk(c, s, i, Slot(c, i, pos));
    assert Touches(c, s, s', t, i, pos);
    CellsKept(c, s, s', t, i, pos);
    PartsKept(c, s, s', t, i, pos);
    RelyTouches(c, s, s', t, i, pos);
    ActsKept(c, s, s', t);
    PopClaimsLog(c, s, s', t, i, pos);
    PlacesKept(c, s, s', t, i, pos);
    PopClaimsTakes(c, s, s', t, i, pos);
  }

  lemma PopFetchesKeep(c: Config, s: State, s': State, t: Tid, i: nat, pos: nat)
    requires Inv(c, s) && PopFetches(c, s, s', t, i, pos)
    ensures Inv(c, s')
  {
    assert ActOk(c, s, t) && PartOk(c, s, i) && CellOk(c, s, i, Slot(c, i, pos));
    assert Touches(c, s, s', t, i, pos);
    CellsKept(c, s, s', t, i, pos);
    SameParts(c, s, s');
    RelyTouches(c, s, s', t, i, pos);
    ActsKept(c, s, s', t);
    SameLog(c, s, s');
    SamePlaces(c, s, s', t);
  }

  lemma PopReleasesLog(c: Config, s: State, s': State, t: Tid, i: nat, pos: nat, v: Token)
    requires Inv(c, s) && PopReleases(c, s, s', t, i, pos, v)
    ensures LogOk(c, s')
  {
    assert ActOk(c, s, t) && PartOk(c, s, i) && CellOk(c, s, i, Slot(c, i, pos));
    LapSlot(c, i, pos);
    forall e | e in s'.popped ensures PoppedOk(c, s', e) {
      if e in s.popped { assert PoppedOk(c, s, e); }
    }
    forall a, b | 0 <= a < b < |s'.popped| ensures s'.popped[a].place != s'.popped[b].place {
      if b == |s.popped| { assert PoppedOk(c, s, s.popped[a]); }
    }
    forall j: nat, q: nat | IsPart(s', j) && q < s'.parts[j].dequeue ensures TakenOk(c, s', j, q) {
      PopReleasesTaken(c, s, s', t, i, pos, v, j, q);
    }
  }

  lemma PopReleasesTaken(c: Config, s: State, s': State, t: Tid, i: nat, pos: nat, v: Token, j: nat, q: nat)
    requires Inv(c, s) && PopReleases(c, s, s', t, i, pos, v) && IsPart(s', j) && q < s'.parts[j].dequeue
    ensures TakenOk(c, s', j, q)
  {
    assert ActOk(c, s, t);
    assert s'.popped[|s.popped|] == Popped(Place(i, pos), v);
    assert TakenOk(c, s, j, q);
    if Returned(s, Place(j, q)) {
      var e :| e in s.popped && e.place == Place(j, q);
      assert e in s'.popped;
    }
  }

  lemma PopReleasesKeep(c: Config, s: State, s': State, t: Tid, i: nat, pos: nat, v: Token)
    requires Inv(c, s) && PopReleases(c, s, s', t, i, pos, v)
    ensures Inv(c, s')
  {
    assert ActOk(c, s, t) && PartOk(c, s, i) && CellOk(c, s, i, Slot(c, i, pos));
    LapSlot(c, i, pos);
    assert Touches(c, s, s', t, i, pos);
    CellsKept(c, s, s', t, i, pos);
    PartsKept(c, s, s', t, i, pos);
    RelyTouches(c, s, s', t, i, pos);
    ActsKept(c, s, s', t);
    PopReleasesLog(c, s, s', t, i, pos, v);
    PlacesKept(c, s, s', t, i, pos);
  }

  // ---------------------------------------------------------------- whole rings

  lemma FreshCellOk(c: Config, s: State, i: nat, k: nat)
    requires IsPart(s, i) && s.parts[i].ring == FreshRing(Size(c, i)) && k < Size(c, i)
    requires s.parts[i].claims == [] && s.parts[i].dequeue == 0
    ensures CellOk(c, s, i, k)
  {
  }

  lemma PushInstallsKeep(c: Config, s: State, s': State, t: Tid, v: Token, i: nat)
    requires Inv(c, s) && PushInstalls(c, s, s', t, v, i)
    ensures Inv(c, s')
  {
    assert ActOk(c, s, t) && PartOk(c, s, i);
    if s.parts[i].ring != [] {
      QuietKeeps(c, s, s', t);
    } else {
      assert s'.parts[i].claims == [] && s'.parts[i].ring == FreshRing(Size(c, i));
      forall j: nat, k: nat | j < c.partitions && k < |s'.parts[j].ring| ensures CellOk(c, s', j, k) {
        if j == i { FreshCellOk(c, s', i, k); } else { assert CellOk(c, s, j, k); }
      }
      RingKeeps(c, s, s', t, i);
    }
  }

  /** A step that changes one ring's array or seal, and none of its history. */
  lemma RingKeeps(c: Config, s: State, s': State, t: Tid, i: nat)
    requires Inv(c, s) && IsPart(s, i) && t in s.acts && t in s'.acts
    requires |s'.parts| == |s.parts|
    requires s' == s.(parts := s.parts[i := s'.parts[i]], acts := s.acts[t := s'.acts[t]])
    requires s'.parts[i] == s.parts[i].(ring := s'.parts[i].ring, enqueue := s'.parts[i].enqueue)
    requires s.parts[i].ring == [] || s'.parts[i].ring == s.parts[i].ring
    requires SealedAt(s, i) ==> SealedAt(s', i)
    requires CellsOk(c, s') && PartOk(c, s', i) && ActOk(c, s', t)
    requires forall v :: Carries(s.acts[t], v) ==> Carries(s'.acts[t], v)
    ensures Inv(c, s')
  {
    forall v | v in s'.pusher ensures TokenOk(s', v) { assert TokenOk(s, v); }
    forall j: nat | j < c.partitions ensures PartOk(c, s', j) { if j != i { assert PartOk(c, s, j); } }
    forall j: nat | j < s'.read ensures SealedAt(s', j) { assert SealedAt(s, j); }
    forall j: nat, q: nat | IsPart(s', j) && q < |s'.parts[j].claims| ensures PlaceOk(s', j, q) {
      assert PlaceOk(s, j, q);
    }
    forall j | 0 <= j < |s.parts| ensures PartMoves(c, s.parts[j], s'.parts[j], t) {}
    ActsKept(c, s, s', t);
    RingKeepsLog(c, s, s', i);
  }

  lemma RingKeepsLog(c: Config, s: State, s': State, i: nat)
    requires LogOk(c, s) && IsPart(s, i) && |s'.parts| == |s.parts| && s'.popped == s.popped
    requires s'.parts == s.parts[i := s'.parts[i]]
    requires s'.parts[i] == s.parts[i].(ring := s'.parts[i].ring, enqueue := s'.parts[i].enqueue)
    requires s.parts[i].ring == [] || s'.parts[i].ring == s.parts[i].ring
    requires PartOk(c, s, i)
    ensures LogOk(c, s')
  {
    forall e | e in s'.popped ensures PoppedOk(c, s', e) { assert PoppedOk(c, s, e); }
    forall j: nat, q: nat | IsPart(s', j) && q < s'.parts[j].dequeue ensures TakenOk(c, s', j, q) {
      assert TakenOk(c, s, j, q);
    }
  }

  /** The seal lands only on a ring all of whose claimed positions are taken. */
  lemma PopSealsKeep(c: Config, s: State, s': State, t: Tid, i: nat, seen: nat)
    requires Inv(c, s) && PopSeals(c, s, s', t, i, seen)
    ensures Inv(c, s')
  {
    assert ActOk(c, s, t) && PartOk(c, s, i);
    if s.parts[i].enqueue != seen {
      QuietKeeps(c, s, s', t);
    } else {
      SealedCells(c, s, s', t, i, seen);
      RingKeeps(c, s, s', t, i);
    }
  }

  lemma SealedCells(c: Config, s: State, s': State, t: Tid, i: nat, seen: nat)
    requires Inv(c, s) && PopSeals(c, s, s', t, i, seen) && s.parts[i].enqueue == seen
    ensures CellsOk(c, s')
  {
    forall j: nat, k: nat | j < c.partitions && k < |s'.parts[j].ring| ensures CellOk(c, s', j, k) {
      assert CellOk(c, s, j, k);
    }
  }

  lemma PopAdvancesKeep(c: Config, s: State, s': State, t: Tid, i: nat)
    requires Inv(c, s) && PopAdvances(c, s, s', t, i)
    ensures Inv(c, s')
  {
    assert ActOk(c, s, t);
    SameCells(c, s, s', t);
    forall j: nat | j < c.partitions ensures PartOk(c, s', j) { assert PartOk(c, s, j); }
    forall j: nat | j < s'.read ensures SealedAt(s', j) { assert j < s.read ==> SealedAt(s, j); }
    SameLog(c, s, s');
    SamePlaces(c, s, s', t);
    ActsKept(c, s, s', t);
  }

  // ------------------------------------------------------------------- any step

  lemma NextKeeps(c: Config, s: State, s': State)
    requires Inv(c, s) && Roomy(c, s) && Roomy(c, s') && Next(c, s, s')
    ensures Inv(c, s')
  {
    var t: Tid, v: Token, i: nat, pos: nat :| PushMoves(c, s, s', t, v, i, pos) || PopMoves(c, s, s', t, v, i, pos);
    if PushMoves(c, s, s', t, v, i, pos) {
      PushMovesKeep(c, s, s', t, v, i, pos);
    } else {
      PopMovesKeep(c, s, s', t, v, i, pos);
    }
  }

  lemma PushMovesKeep(c: Config, s: State, s': State, t: Tid, v: Token, i: nat, pos: nat)
    requires Inv(c, s) && Roomy(c, s) && Roomy(c, s') && PushMoves(c, s, s', t, v, i, pos)
    ensures Inv(c, s')
  {
    if PushInstalls(c, s, s', t, v, i) { PushInstallsKeep(c, s, s', t, v, i); }
    else if PushTests(c, s, s', t, v, i, pos) { PushTestsKeep(c, s, s', t, v, i, pos); }
    else if PushClaims(c, s, s', t, v, i, pos) { PushClaimsKeep(c, s, s', t, v, i, pos); }
    else if PushStores(c, s, s', t, v, i, pos) { PushStoresKeep(c, s, s', t, v, i, pos); }
    else if PushPublishes(c, s, s', t, v, i, pos) { PushPublishesKeep(c, s, s', t, v, i, pos); }
    else { PushLooksKeep(c, s, s', t, v, i, pos); }
  }

  lemma PopMovesKeep(c: Config, s: State, s': State, t: Tid, v: Token, i: nat, pos: nat)
    requires Inv(c, s) && PopMoves(c, s, s', t, v, i, pos)
    ensures Inv(c, s')
  {
    if PopTests(c, s, s', t, i, pos) { PopTestsKeep(c, s, s', t, i, pos); }
    else if PopClaims(c, s, s', t, i, pos) { PopClaimsKeep(c, s, s', t, i, pos); }
    else if PopFetches(c, s, s', t, i, pos) { PopFetchesKeep(c, s, s', t, i, pos); }
    else if PopReleases(c, s, s', t, i, pos, v) { PopReleasesKeep(c, s, s', t, i, pos, v); }
    else if PopSeals(c, s, s', t, i, pos) { PopSealsKeep(c, s, s', t, i, pos); }
    else if PopAdvances(c, s, s', t, i) { PopAdvancesKeep(c, s, s', t, i); }
    else if PopGivesUp(c, s, s', t, i) || PopChecks(c, s, s', t, i) || PopCompares(c, s, s', t, i, pos) {
      PopChecksKeep(c, s, s', t, i, pos);
    } else {
      PopLooksKeep(c, s, s', t, i, pos);
    }
  }
}
