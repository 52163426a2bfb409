/** A parser fed from a connection: what one call leaves unconsumed is kept and put
    before the bytes that arrive next. */
module HttpStream {
  import opened HttpSpec
  import opened HttpCut
  import opened HttpResponse
  import opened HttpParser

  lemma AtomsSnoc(events: seq<Event>, all: seq<Event>)
    requires all != [] && events == all[..|all| - 1]
    ensures Atoms(all) == Atoms(events) + AtomsOf(all[|all| - 1])
  {
  }

  lemma Assoc(a: seq<Atom>, b: seq<Atom>, c: seq<Atom>)
    ensures a + (b + c) == (a + b) + c
  {
  }

  lemma {:induction false} AtomsJoin(one: seq<Event>, other: seq<Event>)
    ensures Atoms(one + other) == Atoms(one) + Atoms(other)
  {
    if other == [] {
      assert one + other == one;
    } else {
      var init := other[..|other| - 1];
      AtomsJoin(one, init);
      assert (one + other)[..|one + other| - 1] == one + init;
      AtomsSnoc(one + init, one + other);
      AtomsSnoc(init, other);
      Assoc(Atoms(one), Atoms(init), AtomsOf(other[|other| - 1]));
    }
  }

  /** What all calls make together, from the calls so far and those to come. */
  ghost predicate Remains(m: Machine, all: Outcome, n: nat, atoms: seq<Atom>, phase: Phase, kept: string, pieces: seq<string>)
    requires Progresses(m)
  {
    all == After(n, atoms, FeedAll(m, phase, kept, pieces))
  }

  lemma RemainsOn(m: Machine, all: Outcome, n: nat, atoms: seq<Atom>, phase: Phase, kept: string, pieces: seq<string>, o: Outcome)
    requires Progresses(m) && Remains(m, all, n, atoms, phase, kept, pieces) && o == Feed(m, phase, kept)
    ensures if o.verdict == NeedMore && pieces != []
            then Remains(m, all, n + o.n, atoms + o.atoms, o.phase, kept[o.n..] + pieces[0], pieces[1..])
            else all == Outcome(o.phase, n + o.n, atoms + o.atoms, o.verdict)
  {
    if o.verdict == NeedMore && pieces != [] {
      AfterTwice(n, atoms, o.n, o.atoms, FeedAll(m, o.phase, kept[o.n..] + pieces[0], pieces[1..]));
    }
  }

  /** One call on what was kept. */
  method Read(p: Parser, kept: string, ghost m: Machine, ghost all: Outcome, n: nat, events: seq<Event>, ghost pieces: seq<string>)
    returns (verdict: Verdict, n': nat, events': seq<Event>, kept': string)
    requires p.Valid() && p.Implements(m) && Remains(m, all, n, Atoms(events), p.Phase(), kept, pieces)
    modifies p
    ensures p.Valid()
    ensures if verdict == NeedMore && pieces != []
            then Remains(m, all, n', Atoms(events'), p.Phase(), kept' + pieces[0], pieces[1..])
            else all == Outcome(p.Phase(), n', Atoms(events'), verdict)
  {
    ghost var phase := p.Phase();
    var k, more;
    verdict, k, more := p.ParseWith(kept, m);
    RemainsOn(m, all, n, Atoms(events), phase, kept, pieces, Outcome(p.Phase(), k, Atoms(more), verdict));
    AtomsJoin(events, more);
    n', events', kept' := n + k, events + more, kept[k..];
  }

  /** The loop of the connection: parse, and while more is needed keep the rest and read
      the next piece. */
  method Drive(p: Parser, pieces: seq<string>, ghost m: Machine) returns (verdict: Verdict, n: nat, events: seq<Event>)
    requires p.Valid() && p.Implements(m)
    modifies p
    ensures p.Valid()
    ensures FeedAll(m, old(p.Phase()), "", pieces) == Outcome(p.Phase(), n, Atoms(events), verdict)
  {
    ghost var all := FeedAll(m, p.Phase(), "", pieces);
    assert After(0, [], all) == all && pieces[0..] == pieces;
    var kept;
    verdict, n, events, kept := Read(p, "", m, all, 0, [], pieces);
    var i: nat := 0;
    while verdict == NeedMore && i < |pieces|
      invariant i <= |pieces| && p.Valid()
      invariant if verdict == NeedMore && i < |pieces|
                then Remains(m, all, n, Atoms(events), p.Phase(), kept + pieces[i], pieces[i + 1..])
                else all == Outcome(p.Phase(), n, Atoms(events), verdict)
    {
      assert i + 1 < |pieces| ==> pieces[i + 1..][0] == pieces[i + 1] && pieces[i + 1..][1..] == pieces[i + 2..];
      verdict, n, events, kept := Read(p, kept + pieces[i], m, all, n, events, pieces[i + 1..]);
      i := i + 1;
    }
  }

  /** Whatever pieces a message arrives in, a request parser ends as if it had been given
      the concatenation at once, and so does a response parser, except that the last
      report is unmarked when a call ended strictly inside a body of known length. */
  method ReadMessage(p: Parser, pieces: seq<string>) returns (verdict: Verdict, n: nat, events: seq<Event>)
    requires p.Valid()
    modifies p
    ensures p.Valid()
    ensures p.kind.Request? ==>
              Feed(p.Machine(), old(p.Phase()), Concat(pieces)) == Outcome(p.Phase(), n, Atoms(events), verdict)
    ensures p.kind.Response? ==>
              SameButMark(Outcome(p.Phase(), n, Atoms(events), verdict), Feed(p.Machine(), old(p.Phase()), Concat(pieces)),
                          EndsInBody(p.names, old(p.Phase()), pieces))
  {
    ghost var phase := p.Phase();
    verdict, n, events := Drive(p, pieces, p.Machine());
    if p.kind.Request? {
      CutIndependent(p.names, phase, "", pieces);
      assert "" + Concat(pieces) == Concat(pieces);
    } else {
      ResponseCuts(p.names, phase, pieces);
    }
  }
}
