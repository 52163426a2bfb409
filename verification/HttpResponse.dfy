/** What the cuts change in a response, and what they do not.  A response parser marks
    the last report of a body of known length only when it is the whole body, so the
    mark depends on whether a call ended strictly inside the body.  Everything else is
    as in one buffer, and so is the mark behind a chunked body. */
module HttpResponse {
  import opened HttpScan
  import opened HttpSpec
  import opened HttpCut
  import HeaderTable

  // ----------------------------------------------------- units that ask for more bytes

  /** A unit that was not complete in the buffer ends behind it. */
  lemma {:induction false} TokenLater(b: string, x: string, i: nat, eos: char)
    requires i <= |b| && Token(b, i, eos) == More && Token(b + x, i, eos).Done?
    ensures |b| <= Token(b + x, i, eos).end
    decreases |b| - i
  {
    if i < |b| { TokenLater(b, x, i + 1, eos); }
  }

  lemma {:induction false} LineLater(b: string, x: string, i: nat)
    requires i <= |b| && Line(b, i) == More && Line(b + x, i).Done?
    ensures |b| < Line(b + x, i).end
    decreases |b| - i
  {
    if i < |b| && b[i] != '\r' { LineLater(b, x, i + 1); }
  }

  lemma {:induction false} SkipOwsLater(b: string, x: string, i: nat)
    requires i <= |b|
    ensures SkipOws(b, i) == SkipOws(b + x, i) || |b| == SkipOws(b, i) <= SkipOws(b + x, i)
    decreases |b| - i
  {
    if i < |b| && IsOws(b[i]) { SkipOwsLater(b, x, i + 1); }
  }

  lemma {:induction false} SkipSpacesLater(b: string, x: string, i: nat)
    requires i <= |b|
    ensures SkipSpaces(b, i) == SkipSpaces(b + x, i) || |b| == SkipSpaces(b, i) <= SkipSpaces(b + x, i)
    decreases |b| - i
  {
    if i < |b| && b[i] == ' ' { SkipSpacesLater(b, x, i + 1); }
  }

  lemma {:induction false} DecLater(b: string, x: string, i: nat, value: nat, digits: nat)
    requires i <= |b| && Dec(b, i, value, digits) == NoMore && Dec(b + x, i, value, digits).Value?
    ensures |b| < Dec(b + x, i, value, digits).end
    decreases |b| - i
  {
    if i < |b| && IsDigit(b[i]) {
      DecLater(b, x, i + 1, value * 10 + DigitOf(b[i]), digits + 1);
    } else if i < |b| {
      SkipOwsLater(b, x, i);
    }
  }

  lemma StatusLater(b: string, x: string, q: nat, major: nat, minor: nat)
    requires q <= |b| && StatusStep(b, q, major, minor) == MORE && StatusStep(b + x, q, major, minor).Go?
    ensures |b| < StatusStep(b + x, q, major, minor).n
  {
    if |b| > q + 3 {
      var text := if b[q + 3] == ' ' then SkipOws(b, q + 3) else q + 3;
      SkipOwsLater(b, x, q + 3);
      if text < |b| { LineLater(b, x, text); }
    }
  }

  lemma StartLineLater(b: string, x: string)
    requires StartLineStep(b) == MORE && StartLineStep(b + x).Go?
    ensures |b| < StartLineStep(b + x).n
  {
    if |b| > 8 {
      Slice(b, x, 0, 5);
      SkipSpacesLater(b, x, 8);
      var q := SkipSpaces(b, 8);
      if q < |b| { StatusLater(b, x, q, DigitOf(b[5]), DigitOf(b[7])); }
    }
  }

  lemma FieldLater(names: Names, f: Framing, b: string, x: string, k: nat, q: nat)
    requires k <= q <= |b| && FieldStep(names, f, b, k, q) == MORE && FieldStep(names, f, b + x, k, q).Go?
    ensures |b| < FieldStep(names, f, b + x, k, q).n
  {
    Slice(b, x, 0, k);
    if names.field(b[..k]) == CONTENT_LENGTH { DecLater(b, x, q, 0, 0); } else { LineLater(b, x, q); }
  }

  lemma HeaderLater(kind: Kind, names: Names, f: Framing, b: string, x: string)
    requires HeaderStep(kind, names, f, b) == MORE && HeaderStep(kind, names, f, b + x).Go?
    ensures |b| < HeaderStep(kind, names, f, b + x).n
  {
    if |b| >= 2 {
      if Token(b, 0, ':') == More {
        TokenLater(b, x, 0, ':');
      } else {
        TokenStable(b, x, 0, ':');
        ValueLater(names, f, b, x, Token(b, 0, ':').end);
      }
    }
  }

  lemma ValueLater(names: Names, f: Framing, b: string, x: string, k: nat)
    requires k < |b| && FieldStep(names, f, b, k, SkipOws(b, k + 1)) == MORE && FieldStep(names, f, b + x, k, SkipOws(b + x, k + 1)).Go?
    ensures |b| < FieldStep(names, f, b + x, k, SkipOws(b + x, k + 1)).n
  {
    SkipOwsLater(b, x, k + 1);
    var q := SkipOws(b, k + 1);
    if q < |b| { FieldLater(names, f, b, x, k, q); } else { FieldBehind(names, f, b + x, k, SkipOws(b + x, k + 1)); }
  }

  lemma FieldBehind(names: Names, f: Framing, b: string, k: nat, q: nat)
    requires k <= q <= |b| && FieldStep(names, f, b, k, q).Go?
    ensures q < FieldStep(names, f, b, k, q).n
  {
  }

  // ------------------------------------------------------------- a parser and its double

  /** Before the body, in a body of known length, and in or behind a chunked one. */
  predicate Before(phase: Phase) { phase.StartLine? || phase.Header? }
  predicate Behind(phase: Phase) { phase.Chunk? || phase.Trailer? || phase.Last? }

  /** The unit of a body of known length: `whole` says that the mark stays due after a
      part of the body was reported. */
  function BodyStep(left: nat, first: bool, whole: bool, b: string): Step {
    if left <= |b| then Go(Last, left, Octets(b[..left]) + if first then [End] else [])
    else if b == "" then MORE
    else Go(Length(left - |b|, first && whole), |b|, Octets(b))
  }

  ghost predicate SameUnit(m: Machine, n: Machine, phase: Phase, b: string) {
    && (!phase.Length? ==> m(phase, b) == n(phase, b))
    && (phase.Length? ==> m(phase, b) == BodyStep(phase.left, phase.first, false, b))
    && (phase.Length? && phase.first ==> n(phase, b) == BodyStep(phase.left, true, true, b))
    && (phase.Last? ==> n(phase, b) == Stop(Ok, 0, []))
  }

  /** Headers lead to a body, and a body to the end. */
  ghost predicate LeadsForward(n: Machine, phase: Phase, b: string) {
    n(phase, b).Go? ==>
      && (Before(phase) ==> Before(n(phase, b).phase) || Behind(n(phase, b).phase) || IsFresh(n(phase, b).phase))
      && (Behind(phase) ==> Behind(n(phase, b).phase))
  }

  predicate IsFresh(phase: Phase) { phase.Length? && phase.first }

  ghost predicate EndsLater(n: Machine, phase: Phase, b: string, x: string) {
    Before(phase) && n(phase, b) == MORE && n(phase, b + x).Go? ==> |b| < n(phase, b + x).n
  }

  /** `m` is the response parser, `n` the one that marks the end of every body. */
  ghost predicate Twins(m: Machine, n: Machine) {
    && Progresses(m) && Cuttable(n, Tail())
    && (forall phase, b :: SameUnit(m, n, phase, b))
    && (forall phase, b :: LeadsForward(n, phase, b))
    && (forall phase, b, x :: EndsLater(n, phase, b, x))
  }

  lemma ResponseTwins(names: Names)
    ensures Twins(MachineOf(Response, names), MarkingOf(Response, names))
  {
    var m, n := MachineOf(Response, names), MarkingOf(Response, names);
    ParserProgresses(Response, names);
    MarkingCuttable(Response, names);
    forall phase, b ensures SameUnit(m, n, phase, b) {}
    forall phase, b ensures LeadsForward(n, phase, b) { ResponseForward(names, phase, b); }
    forall phase, b, x ensures EndsLater(n, phase, b, x) {
      if Before(phase) && n(phase, b) == MORE && n(phase, b + x).Go? {
        if phase.StartLine? { StartLineLater(b, x); } else { HeaderLater(Response, names, phase.f, b, x); }
      }
    }
  }

  lemma ResponseForward(names: Names, phase: Phase, b: string)
    ensures LeadsForward(MarkingOf(Response, names), phase, b)
  {
  }

  // ------------------------------------------------------------------ where the body is

  /** The body of known length that a message has: where it starts, how long it is, and
      what is reported before it. */
  datatype Body = NoBody | Body(start: nat, left: nat, atoms: seq<Atom>)

  function Moved(n: nat, atoms: seq<Atom>, r: Body): Body {
    match r
    case NoBody => NoBody
    case Body(start, left, more) => Body(n + start, left, atoms + more)
  }

  ghost function BodyOf(n: Machine, phase: Phase, b: string): (r: Body)
    requires Progresses(n)
    ensures r.Body? ==> r.start <= |b|
    decreases |b|, Rank(phase)
  {
    assert Advances(n(phase, b), phase, b);
    if phase.Length? then Body(0, phase.left, [])
    else match n(phase, b)
      case Stop(_, _, _) => NoBody
      case Go(next, k, atoms) => Moved(k, atoms, BodyOf(n, next, b[k..]))
  }

  lemma {:induction false} BehindHasNone(m: Machine, n: Machine, phase: Phase, b: string)
    requires Twins(m, n) && Behind(phase)
    ensures BodyOf(n, phase, b) == NoBody && Behind(Feed(n, phase, b).phase)
    ensures Feed(m, phase, b) == Feed(n, phase, b)
    decreases |b|, Rank(phase)
  {
    var s := n(phase, b);
    assert SameUnit(m, n, phase, b) && LeadsForward(n, phase, b) && Advances(s, phase, b);
    if s.Go? { BehindHasNone(m, n, s.phase, b[s.n..]); }
  }

  /** The call reports what is before the body and goes on as in the body. */
  ghost predicate Reaches(m: Machine, phase: Phase, b: string, r: Body)
    requires Progresses(m) && r.Body? && r.start <= |b|
  {
    Feed(m, phase, b) == After(r.start, r.atoms, Feed(m, Length(r.left, true), b[r.start..]))
  }

  lemma {:induction false} ReachesAfter(m: Machine, phase: Phase, b: string, s: Step, rest: string, r: Body)
    requires Progresses(m) && m(phase, b) == s && s.Go? && s.n <= |b| && rest == b[s.n..]
    requires r.Body? && r.start <= |rest| && Reaches(m, s.phase, rest, r)
    ensures Reaches(m, phase, b, Moved(s.n, s.atoms, r))
  {
    FeedGoes(m, phase, b, s, rest);
    assert rest[r.start..] == b[s.n + r.start..];
    AfterTwice(s.n, s.atoms, r.start, r.atoms, Feed(m, Length(r.left, true), rest[r.start..]));
  }

  lemma {:induction false} ReachesNow(m: Machine, left: nat, b: string)
    requires Progresses(m)
    ensures Reaches(m, Length(left, true), b, Body(0, left, []))
  {
    assert b[0..] == b;
    AfterNothing(Feed(m, Length(left, true), b));
  }

  /** One buffer, up to the body or without one. */
  lemma {:induction false} HeadCall(m: Machine, n: Machine, phase: Phase, b: string)
    requires Twins(m, n) && (Before(phase) || IsFresh(phase))
    ensures var r := BodyOf(n, phase, b);
      if r.Body? then
        Reaches(m, phase, b, r) && Reaches(n, phase, b, r)
      else
        Feed(m, phase, b) == Feed(n, phase, b) && (Before(Feed(n, phase, b).phase) || Behind(Feed(n, phase, b).phase))
    decreases |b|, Rank(phase)
  {
    var s := n(phase, b);
    assert SameUnit(m, n, phase, b) && LeadsForward(n, phase, b) && Advances(s, phase, b);
    if phase.Length? {
      ReachesNow(m, phase.left, b);
      ReachesNow(n, phase.left, b);
    } else if s.Go? {
      var rest := b[s.n..];
      if Behind(s.phase) {
        BehindHasNone(m, n, s.phase, rest);
      } else {
        HeadCall(m, n, s.phase, rest);
        var r := BodyOf(n, s.phase, rest);
        if r.Body? {
          ReachesAfter(m, phase, b, s, rest, r);
          ReachesAfter(n, phase, b, s, rest, r);
        }
      }
    }
  }

  lemma AfterNothing(o: Outcome)
    ensures After(0, [], o) == o
  {
  }

  /** A body that starts in the first buffer is there whatever follows. */
  lemma {:induction false} BodyStays(m: Machine, n: Machine, phase: Phase, b: string, x: string)
    requires Twins(m, n) && (Before(phase) || IsFresh(phase)) && BodyOf(n, phase, b).Body?
    ensures BodyOf(n, phase, b + x) == BodyOf(n, phase, b)
    decreases |b|, Rank(phase)
  {
    var s := n(phase, b);
    assert SameUnit(m, n, phase, b) && LeadsForward(n, phase, b) && Advances(s, phase, b) && StableAt(n, phase, b, x);
    if !phase.Length? {
      if Behind(s.phase) { BehindHasNone(m, n, s.phase, b[s.n..]); }
      assert (b + x)[s.n..] == b[s.n..] + x;
      BodyStays(m, n, s.phase, b[s.n..], x);
    }
  }

  /** Otherwise it is where the next call finds it, behind the first buffer. */
  ghost predicate Comes(n: Machine, phase: Phase, b: string, x: string)
    requires Progresses(n)
  {
    var o, r := Feed(n, phase, b), BodyOf(n, phase, b + x);
    && (o.verdict != NeedMore ==> r == NoBody)
    && (o.verdict == NeedMore ==> r == Moved(o.n, o.atoms, BodyOf(n, o.phase, b[o.n..] + x)))
    && (r.Body? ==> |b| <= r.start)
  }

  lemma NeverComes(m: Machine, n: Machine, phase: Phase, b: string, x: string)
    requires Twins(m, n) && Behind(phase)
    ensures Comes(n, phase, b, x)
  {
    var o := Feed(n, phase, b);
    BehindHasNone(m, n, phase, b);
    BehindHasNone(m, n, phase, b + x);
    BehindHasNone(m, n, o.phase, b[o.n..] + x);
  }

  lemma ComesAtOnce(n: Machine, phase: Phase, b: string, x: string)
    requires Progresses(n) && Before(phase) && n(phase, b) == MORE && EndsLater(n, phase, b, x)
    ensures Comes(n, phase, b, x)
  {
    assert b[0..] == b;
    MovedNowhere(BodyOf(n, phase, b + x));
    assert Advances(n(phase, b + x), phase, b + x);
  }

  lemma ComesAfter(n: Machine, phase: Phase, b: string, x: string, s: Step, rest: string)
    requires Progresses(n) && Before(phase) && n(phase, b) == s == n(phase, b + x) && s.Go? && s.n <= |b| && rest == b[s.n..]
    requires Comes(n, s.phase, rest, x)
    ensures Comes(n, phase, b, x)
  {
    assert (b + x)[s.n..] == rest + x;
    FeedGoes(n, phase, b, s, rest);
    var o := Feed(n, s.phase, rest);
    assert rest[o.n..] == b[s.n + o.n..];
    MovedTwice(s.n, s.atoms, o.n, o.atoms, BodyOf(n, o.phase, rest[o.n..] + x));
    BodyGoes(n, phase, b + x, s, rest + x);
  }

  lemma BodyGoes(n: Machine, phase: Phase, b: string, s: Step, rest: string)
    requires Progresses(n) && !phase.Length? && n(phase, b) == s && s.Go? && s.n <= |b| && rest == b[s.n..]
    ensures BodyOf(n, phase, b) == Moved(s.n, s.atoms, BodyOf(n, s.phase, rest))
  {
  }

  lemma {:induction false} BodyComes(m: Machine, n: Machine, phase: Phase, b: string, x: string)
    requires Twins(m, n) && Before(phase) && BodyOf(n, phase, b) == NoBody
    ensures Comes(n, phase, b, x)
    decreases |b|, Rank(phase)
  {
    var s := n(phase, b);
    assert LeadsForward(n, phase, b) && Advances(s, phase, b) && StableAt(n, phase, b, x);
    assert AsksCleanly(s) && EndsLater(n, phase, b, x);
    if s == MORE {
      ComesAtOnce(n, phase, b, x);
    } else if s.Go? {
      if Behind(s.phase) { NeverComes(m, n, s.phase, b[s.n..], x); } else { BodyComes(m, n, s.phase, b[s.n..], x); }
      ComesAfter(n, phase, b, x, s, b[s.n..]);
    }
  }

  lemma MovedTwice(n: nat, atoms: seq<Atom>, k: nat, more: seq<Atom>, r: Body)
    ensures Moved(n, atoms, Moved(k, more, r)) == Moved(n + k, atoms + more, r)
  {
    if r.Body? { assert atoms + (more + r.atoms) == (atoms + more) + r.atoms; }
  }

  lemma MovedNowhere(r: Body)
    ensures Moved(0, [], r) == r
  {
    if r.Body? { assert [] + r.atoms == r.atoms; }
  }

  // ------------------------------------------------------------------- cuts in the body

  /** Some call ends strictly between the two positions; the first call has been given
      `at` bytes. */
  ghost predicate CutsInside(lo: nat, hi: nat, at: nat, pieces: seq<string>)
    decreases |pieces|
  {
    lo < at < hi || (pieces != [] && CutsInside(lo, hi, at + |pieces[0]|, pieces[1..]))
  }

  lemma {:induction false} CutsBehind(lo: nat, hi: nat, at: nat, pieces: seq<string>)
    requires hi <= at
    ensures !CutsInside(lo, hi, at, pieces)
    decreases |pieces|
  {
    if pieces != [] { CutsBehind(lo, hi, at + |pieces[0]|, pieces[1..]); }
  }

  lemma {:induction false} CutsMove(lo: nat, hi: nat, at: nat, pieces: seq<string>, shift: nat)
    ensures CutsInside(lo + shift, hi + shift, at + shift, pieces) == CutsInside(lo, hi, at, pieces)
    decreases |pieces|
  {
    if pieces != [] { CutsMove(lo, hi, at + |pieces[0]|, pieces[1..], shift); }
  }

  /** In terms of the input: some call has been given a prefix that ends there. */
  lemma {:induction false} CutsInsideAre(lo: nat, hi: nat, at: nat, pieces: seq<string>)
    ensures CutsInside(lo, hi, at, pieces) <==> exists i: nat :: i <= |pieces| && lo < at + |Concat(pieces[..i])| < hi
    decreases |pieces|
  {
    assert pieces[..0] == [];
    if pieces != [] {
      CutsInsideAre(lo, hi, at + |pieces[0]|, pieces[1..]);
      if lo < at < hi {
        assert lo < at + |Concat(pieces[..0])| < hi;
      }
      forall i: nat | i < |pieces| ensures |Concat(pieces[..i + 1])| == |pieces[0]| + |Concat(pieces[1..][..i])| {
        assert pieces[..i + 1][1..] == pieces[1..][..i];
      }
      if CutsInside(lo, hi, at + |pieces[0]|, pieces[1..]) {
        var i: nat :| i <= |pieces[1..]| && lo < at + |pieces[0]| + |Concat(pieces[1..][..i])| < hi;
        assert lo < at + |Concat(pieces[..i + 1])| < hi;
      }
      if i: nat :| i <= |pieces| && lo < at + |Concat(pieces[..i])| < hi {
        if i > 0 {
          assert lo < at + |pieces[0]| + |Concat(pieces[1..][..i - 1])| < hi;
        }
      }
    }
  }

  // ------------------------------------------------------------------------ the theorem

  function Unflagged(phase: Phase): Phase {
    if phase.Length? then Length(phase.left, true) else phase
  }

  /** Same verdict, length and phase; same reports, except that the mark behind a complete
      body is missing where it was lost. */
  ghost predicate SameButMark(om: Outcome, on: Outcome, lost: bool) {
    && om.n == on.n && om.verdict == on.verdict && Unflagged(om.phase) == Unflagged(on.phase)
    && (if lost && on.verdict == Ok then on.atoms == om.atoms + [End] else om.atoms == on.atoms)
  }

  lemma SameAfter(n: nat, atoms: seq<Atom>, om: Outcome, on: Outcome, lost: bool)
    requires SameButMark(om, on, lost)
    ensures SameButMark(After(n, atoms, om), After(n, atoms, on), lost)
  {
    if lost && on.verdict == Ok { assert atoms + (om.atoms + [End]) == (atoms + om.atoms) + [End]; }
  }

  /** One call in the body. */
  function BodyOutcome(left: nat, first: bool, whole: bool, b: string): Outcome {
    if left <= |b| then Outcome(Last, left, Octets(b[..left]) + (if first then [End] else []), Ok)
    else Outcome(Length(left - |b|, first && (whole || b == "")), |b|, Octets(b), NeedMore)
  }

  lemma {:induction false} BodyCall(m: Machine, n: Machine, left: nat, first: bool, b: string)
    requires Twins(m, n)
    ensures Feed(m, Length(left, first), b) == BodyOutcome(left, first, false, b)
    ensures Feed(n, Length(left, true), b) == BodyOutcome(left, true, true, b)
  {
    assert SameUnit(m, n, Length(left, first), b) && SameUnit(m, n, Length(left, true), b);
    if left <= |b| {
      assert SameUnit(m, n, Last, b[left..]);
    } else {
      assert SameUnit(m, n, Length(left - |b|, false), "") && SameUnit(m, n, Length(left - |b|, true), "");
    }
    BodyCallIs(m, left, first, false, b);
    BodyCallIs(n, left, true, true, b);
  }

  lemma {:induction false} BodyCallIs(m: Machine, left: nat, first: bool, whole: bool, b: string)
    requires Progresses(m) && m(Length(left, first), b) == BodyStep(left, first, whole, b)
    requires left <= |b| ==> m(Last, b[left..]) == Stop(Ok, 0, [])
    requires |b| < left ==> m(Length(left - |b|, first && whole), "") == MORE
    ensures Feed(m, Length(left, first), b) == BodyOutcome(left, first, whole, b)
  {
    if |b| < left { assert b[|b|..] == ""; }
  }

  // The calls in the body: `X` is what comes after the first buffer.

  lemma {:induction false} BodyFinal(m: Machine, n: Machine, left: nat, first: bool, kept: string, x: string, pieces: seq<string>)
    requires Twins(m, n) && left <= |kept|
    ensures SameButMark(Feed(m, Length(left, first), kept), Feed(n, Length(left, true), kept + x),
                        !first || CutsInside(0, left, |kept|, pieces))
  {
    BodyCall(m, n, left, first, kept);
    BodyCall(m, n, left, true, kept + x);
    assert (kept + x)[..left] == kept[..left];
    CutsBehind(0, left, |kept|, pieces);
    assert Octets(kept[..left]) + [] == Octets(kept[..left]);
  }

  lemma {:induction false} BodyGoesOn(m: Machine, n: Machine, left: nat, kept: string, x: string)
    requires Twins(m, n) && |kept| < left
    ensures Feed(n, Length(left, true), kept + x) == After(|kept|, Octets(kept), Feed(n, Length(left - |kept|, true), x))
  {
    if kept == "" {
      assert kept + x == x;
      AfterNothing(Feed(n, Length(left, true), x));
    } else {
      BodyCut(n, Tail(), Length(left, true), kept, x);
    }
  }

  ghost predicate Lost(n: Machine, phase: Phase, kept: string, pieces: seq<string>)
    requires Progresses(n)
  {
    if phase.Length? then !phase.first || CutsInside(0, phase.left, |kept|, pieces)
    else LostIn(BodyOf(n, phase, kept + Concat(pieces)), |kept|, pieces)
  }

  ghost predicate LostIn(r: Body, at: nat, pieces: seq<string>) {
    r.Body? && CutsInside(r.start, r.start + r.left, at, pieces)
  }

  ghost predicate Agree(m: Machine, n: Machine, phase: Phase, kept: string, pieces: seq<string>)
    requires Progresses(m) && Progresses(n)
  {
    SameButMark(FeedAll(m, phase, kept, pieces), Feed(n, Unflagged(phase), kept + Concat(pieces)), Lost(n, phase, kept, pieces))
  }

  lemma AllGoes(m: Machine, phase: Phase, kept: string, pieces: seq<string>, o: Outcome, rest: string)
    requires Progresses(m) && o == Feed(m, phase, kept) && o.verdict == NeedMore && pieces != [] && rest == kept[o.n..] + pieces[0]
    ensures FeedAll(m, phase, kept, pieces) == After(o.n, o.atoms, FeedAll(m, o.phase, rest, pieces[1..]))
  {
  }

  /** One call more in front. */
  lemma AgreeNext(m: Machine, n: Machine, phase: Phase, kept: string, pieces: seq<string>, o: Outcome, rest: string)
    requires Progresses(m) && Progresses(n) && o == Feed(m, phase, kept) && o.verdict == NeedMore && pieces != []
    requires rest == kept[o.n..] + pieces[0]
    requires Feed(n, Unflagged(phase), kept + Concat(pieces))
          == After(o.n, o.atoms, Feed(n, Unflagged(o.phase), rest + Concat(pieces[1..])))
    requires Lost(n, phase, kept, pieces) == Lost(n, o.phase, rest, pieces[1..]) && Agree(m, n, o.phase, rest, pieces[1..])
    ensures Agree(m, n, phase, kept, pieces)
  {
    AllGoes(m, phase, kept, pieces, o, rest);
    SameAfter(o.n, o.atoms, FeedAll(m, o.phase, rest, pieces[1..]), Feed(n, Unflagged(o.phase), rest + Concat(pieces[1..])),
              Lost(n, o.phase, rest, pieces[1..]));
  }

  lemma {:induction false} BodyCalls(m: Machine, n: Machine, left: nat, first: bool, kept: string, pieces: seq<string>)
    requires Twins(m, n)
    ensures Agree(m, n, Length(left, first), kept, pieces)
    decreases |pieces|
  {
    if left <= |kept| || pieces == [] {
      BodyDone(m, n, left, first, kept, pieces);
    } else {
      BodyCalls(m, n, left - |kept|, first && kept == "", pieces[0], pieces[1..]);
      BodyNext(m, n, left, first, kept, pieces);
    }
  }

  lemma BodyDone(m: Machine, n: Machine, left: nat, first: bool, kept: string, pieces: seq<string>)
    requires Twins(m, n) && (left <= |kept| || pieces == [])
    ensures Agree(m, n, Length(left, first), kept, pieces)
  {
    BodyCall(m, n, left, first, kept);
    if left <= |kept| {
      BodyFinal(m, n, left, first, kept, Concat(pieces), pieces);
    } else {
      assert kept + Concat(pieces) == kept;
    }
  }

  lemma BodyNext(m: Machine, n: Machine, left: nat, first: bool, kept: string, pieces: seq<string>)
    requires Twins(m, n) && |kept| < left && pieces != []
    requires Agree(m, n, Length(left - |kept|, first && kept == ""), pieces[0], pieces[1..])
    ensures Agree(m, n, Length(left, first), kept, pieces)
  {
    BodyCall(m, n, left, first, kept);
    BodyGoesOn(m, n, left, kept, Concat(pieces));
    LostInBody(n, left, first, kept, pieces);
    assert kept[|kept|..] + pieces[0] == pieces[0] && Concat(pieces) == pieces[0] + Concat(pieces[1..]);
    AgreeNext(m, n, Length(left, first), kept, pieces, BodyOutcome(left, first, false, kept), pieces[0]);
  }

  lemma LostInBody(n: Machine, left: nat, first: bool, kept: string, pieces: seq<string>)
    requires Progresses(n) && |kept| < left && pieces != []
    ensures Lost(n, Length(left, first), kept, pieces)
         == Lost(n, Length(left - |kept|, first && kept == ""), pieces[0], pieces[1..])
  {
  }

  /** The body starts in the first buffer: the calls are those of the body. */
  lemma {:induction false} FromBody(m: Machine, n: Machine, phase: Phase, kept: string, pieces: seq<string>, r: Body)
    requires Twins(m, n) && Before(phase) && BodyOf(n, phase, kept) == r && r.Body?
    ensures Agree(m, n, phase, kept, pieces)
  {
    var rest, body := kept[r.start..], Length(r.left, true);
    BodyCalls(m, n, r.left, true, rest, pieces);
    HeadCall(m, n, phase, kept);
    AllAfter(m, phase, kept, pieces, r.start, r.atoms, body, rest);
    WholeFromBody(m, n, phase, kept, Concat(pieces), r);
    LostFromBody(m, n, phase, kept, pieces, r);
    SameAfter(r.start, r.atoms, FeedAll(m, body, rest, pieces), Feed(n, body, rest + Concat(pieces)), Lost(n, body, rest, pieces));
  }

  lemma {:induction false} WholeFromBody(m: Machine, n: Machine, phase: Phase, kept: string, x: string, r: Body)
    requires Twins(m, n) && Before(phase) && BodyOf(n, phase, kept) == r && r.Body?
    ensures Feed(n, phase, kept + x) == After(r.start, r.atoms, Feed(n, Length(r.left, true), kept[r.start..] + x))
  {
    BodyStays(m, n, phase, kept, x);
    HeadCall(m, n, phase, kept + x);
    assert (kept + x)[r.start..] == kept[r.start..] + x;
  }

  lemma {:induction false} LostFromBody(m: Machine, n: Machine, phase: Phase, kept: string, pieces: seq<string>, r: Body)
    requires Twins(m, n) && Before(phase) && BodyOf(n, phase, kept) == r && r.Body?
    ensures Lost(n, phase, kept, pieces) == Lost(n, Length(r.left, true), kept[r.start..], pieces)
  {
    BodyStays(m, n, phase, kept, Concat(pieces));
    CutsMove(0, r.left, |kept| - r.start, pieces, r.start);
  }

  lemma {:induction false} AllAfter(m: Machine, phase: Phase, kept: string, pieces: seq<string>, k: nat, atoms: seq<Atom>,
                                    next: Phase, rest: string)
    requires Progresses(m) && k <= |kept| && rest == kept[k..]
    requires Feed(m, phase, kept) == After(k, atoms, Feed(m, next, rest))
    ensures FeedAll(m, phase, kept, pieces) == After(k, atoms, FeedAll(m, next, rest, pieces))
  {
    var o := Feed(m, next, rest);
    if pieces != [] && o.verdict == NeedMore {
      assert rest[o.n..] == kept[k + o.n..];
      AfterTwice(k, atoms, o.n, o.atoms, FeedAll(m, o.phase, rest[o.n..] + pieces[0], pieces[1..]));
    }
  }

  /** The mark is lost with the next calls or not at all. */
  lemma LostLater(m: Machine, n: Machine, phase: Phase, kept: string, pieces: seq<string>)
    requires Twins(m, n) && Before(phase) && BodyOf(n, phase, kept) == NoBody && pieces != []
    requires Feed(n, phase, kept).verdict == NeedMore && !Feed(n, phase, kept).phase.Length?
    ensures var o := Feed(n, phase, kept);
      Lost(n, phase, kept, pieces) == Lost(n, o.phase, kept[o.n..] + pieces[0], pieces[1..])
  {
    var o := Feed(n, phase, kept);
    var rest := kept[o.n..] + pieces[0];
    BodyComes(m, n, phase, kept, Concat(pieces));
    JoinFirst(kept[o.n..], pieces);
    var r := BodyOf(n, o.phase, rest + Concat(pieces[1..]));
    LostIs(n, phase, kept, pieces, Moved(o.n, o.atoms, r));
    LostIs(n, o.phase, rest, pieces[1..], r);
    LostMoves(r, o.n, o.atoms, |kept|, pieces);
  }

  lemma LostIs(n: Machine, phase: Phase, kept: string, pieces: seq<string>, r: Body)
    requires Progresses(n) && !phase.Length? && r == BodyOf(n, phase, kept + Concat(pieces))
    ensures Lost(n, phase, kept, pieces) == LostIn(r, |kept|, pieces)
  {
  }

  lemma LostMoves(r: Body, k: nat, atoms: seq<Atom>, at: nat, pieces: seq<string>)
    requires k <= at && pieces != [] && (r.Body? ==> at <= k + r.start)
    ensures LostIn(Moved(k, atoms, r), at, pieces) == LostIn(r, at - k + |pieces[0]|, pieces[1..])
  {
    if r.Body? { CutsMove(r.start, r.start + r.left, at - k + |pieces[0]|, pieces[1..], k); }
  }

  lemma {:induction false} ResponseCalls(m: Machine, n: Machine, phase: Phase, kept: string, pieces: seq<string>)
    requires Twins(m, n) && (Before(phase) || Behind(phase) || phase.Length?)
    ensures Agree(m, n, phase, kept, pieces)
    decreases |pieces|
  {
    if phase.Length? {
      BodyCalls(m, n, phase.left, phase.first, kept, pieces);
    } else if Before(phase) && BodyOf(n, phase, kept).Body? {
      FromBody(m, n, phase, kept, pieces, BodyOf(n, phase, kept));
    } else {
      if Behind(phase) { BehindHasNone(m, n, phase, kept); }
      NoBodyYet(m, n, phase, kept, pieces);
      var o := Feed(n, phase, kept);
      if o.verdict == NeedMore && pieces != [] {
        ResponseCalls(m, n, o.phase, kept[o.n..] + pieces[0], pieces[1..]);
        NoBodyNext(m, n, phase, kept, pieces, o);
      }
    }
  }

  /** A call that has not reached the body is as in the double. */
  lemma NoBodyYet(m: Machine, n: Machine, phase: Phase, kept: string, pieces: seq<string>)
    requires Twins(m, n) && (Before(phase) || Behind(phase)) && BodyOf(n, phase, kept) == NoBody
    ensures var o := Feed(n, phase, kept);
      && Feed(m, phase, kept) == o && (Before(o.phase) || Behind(o.phase))
      && (o.verdict != NeedMore || pieces == [] ==> Agree(m, n, phase, kept, pieces))
  {
    var o, x := Feed(n, phase, kept), Concat(pieces);
    if Behind(phase) {
      BehindHasNone(m, n, phase, kept);
      BehindHasNone(m, n, phase, kept + x);
    } else {
      HeadCall(m, n, phase, kept);
      BodyComes(m, n, phase, kept, x);
    }
    CutOnce(n, Tail(), phase, kept, x);
    if pieces == [] { assert kept + x == kept; }
  }

  lemma NoBodyNext(m: Machine, n: Machine, phase: Phase, kept: string, pieces: seq<string>, o: Outcome)
    requires Twins(m, n) && (Before(phase) || Behind(phase)) && BodyOf(n, phase, kept) == NoBody && pieces != []
    requires o == Feed(n, phase, kept) == Feed(m, phase, kept) && o.verdict == NeedMore && (Before(o.phase) || Behind(o.phase))
    requires Agree(m, n, o.phase, kept[o.n..] + pieces[0], pieces[1..])
    ensures Agree(m, n, phase, kept, pieces)
  {
    var rest := kept[o.n..] + pieces[0];
    NextWhole(n, phase, kept, pieces, o, rest);
    LostNext(m, n, phase, kept, pieces, o);
    AgreeNext(m, n, phase, kept, pieces, o, rest);
  }

  lemma NextWhole(n: Machine, phase: Phase, kept: string, pieces: seq<string>, o: Outcome, rest: string)
    requires Cuttable(n, Tail()) && pieces != [] && o == Feed(n, phase, kept) && o.verdict == NeedMore
    requires rest == kept[o.n..] + pieces[0]
    ensures Feed(n, phase, kept + Concat(pieces)) == After(o.n, o.atoms, Feed(n, o.phase, rest + Concat(pieces[1..])))
  {
    CutOnce(n, Tail(), phase, kept, Concat(pieces));
    JoinFirst(kept[o.n..], pieces);
  }

  lemma JoinFirst(left: string, pieces: seq<string>)
    requires pieces != []
    ensures left + Concat(pieces) == left + pieces[0] + Concat(pieces[1..])
  {
  }

  lemma LostNext(m: Machine, n: Machine, phase: Phase, kept: string, pieces: seq<string>, o: Outcome)
    requires Twins(m, n) && (Before(phase) || Behind(phase)) && BodyOf(n, phase, kept) == NoBody && pieces != []
    requires o == Feed(n, phase, kept) && o.verdict == NeedMore && (Before(o.phase) || Behind(o.phase))
    ensures Lost(n, phase, kept, pieces) == Lost(n, o.phase, kept[o.n..] + pieces[0], pieces[1..])
  {
    if Behind(phase) {
      BehindHasNone(m, n, phase, kept);
      BehindHasNone(m, n, phase, kept + Concat(pieces));
      BehindHasNone(m, n, o.phase, kept[o.n..] + pieces[0] + Concat(pieces[1..]));
    } else {
      LostLater(m, n, phase, kept, pieces);
    }
  }

  /** The response parser, and the body of known length it finds in an input. */
  ghost function KnownBody(names: Names, phase: Phase, b: string): (r: Body)
    ensures r.Body? ==> r.start <= |b|
  {
    MarkingCuttable(Response, names);
    BodyOf(MarkingOf(Response, names), phase, b)
  }

  /** Some call ends strictly inside the body, whose mark is still due. */
  ghost predicate EndsInBody(names: Names, phase: Phase, pieces: seq<string>) {
    Due(phase) && CutBody(KnownBody(names, phase, Concat(pieces)), pieces)
  }

  /** The mark is not lost already. */
  predicate Due(phase: Phase) { phase.Length? ==> phase.first }

  ghost predicate CutBody(r: Body, pieces: seq<string>) {
    r.Body? && exists i: nat :: i <= |pieces| && r.start < |Concat(pieces[..i])| < r.start + r.left
  }

  /** The phases of a response. */
  predicate OfResponse(phase: Phase) { Before(phase) || Behind(phase) || phase.Length? }

  lemma TwinsCut(m: Machine, n: Machine, phase: Phase, pieces: seq<string>, r: Body)
    requires Twins(m, n) && OfResponse(phase) && r == BodyOf(n, phase, Concat(pieces))
    ensures SameButMark(FeedAll(m, phase, "", pieces), Feed(m, phase, Concat(pieces)), Due(phase) && CutBody(r, pieces))
  {
    var all := Concat(pieces);
    ResponseCalls(m, n, phase, "", pieces);
    assert "" + all == all;
    LostIsCut(n, phase, pieces, all, r);
    OneBuffer(m, n, phase, all);
    SameAsWhole(FeedAll(m, phase, "", pieces), Feed(m, phase, all), Feed(n, Unflagged(phase), all), Lost(n, phase, "", pieces), !Due(phase));
  }

  lemma LostIsCut(n: Machine, phase: Phase, pieces: seq<string>, all: string, r: Body)
    requires Progresses(n) && "" + Concat(pieces) == all && r == BodyOf(n, phase, all)
    ensures Lost(n, phase, "", pieces) == (!Due(phase) || CutBody(r, pieces))
  {
    if r.Body? { CutBodyIs(r, pieces); }
  }

  lemma CutBodyIs(r: Body, pieces: seq<string>)
    requires r.Body?
    ensures CutBody(r, pieces) == CutsInside(r.start, r.start + r.left, 0, pieces)
  {
    CutsInsideAre(r.start, r.start + r.left, 0, pieces);
  }

  /** Two that lack the mark, or one of two, of the same whole. */
  lemma SameAsWhole(cut: Outcome, one: Outcome, whole: Outcome, lost: bool, already: bool)
    requires SameButMark(cut, whole, lost) && SameButMark(one, whole, already) && (already ==> lost)
    ensures SameButMark(cut, one, lost && !already)
  {
    if already && whole.verdict == Ok {
      Unmarked(cut.atoms, one.atoms);
    }
  }

  /** Any cuts of a response give the verdict, phase, consumed length and reports of one
      buffer, with the mark of the last report missing if and only if the message is
      complete and a call ended strictly inside its body of known length.  A chunked
      body is never such a one. */
  lemma ResponseCuts(names: Names, phase: Phase, pieces: seq<string>)
    requires OfResponse(phase)
    ensures Progresses(MachineOf(Response, names))
    ensures SameButMark(FeedAll(MachineOf(Response, names), phase, "", pieces),
                        Feed(MachineOf(Response, names), phase, Concat(pieces)), EndsInBody(names, phase, pieces))
  {
    ResponseTwins(names);
    TwinsCut(MachineOf(Response, names), MarkingOf(Response, names), phase, pieces, KnownBody(names, phase, Concat(pieces)));
  }

  /** In one buffer every complete body is marked, unless the mark was lost before. */
  lemma OneBuffer(m: Machine, n: Machine, phase: Phase, b: string)
    requires Twins(m, n) && OfResponse(phase)
    ensures SameButMark(Feed(m, phase, b), Feed(n, Unflagged(phase), b), !Due(phase))
  {
    if phase.Length? {
      BodyCall(m, n, phase.left, phase.first, b);
    } else if Behind(phase) {
      BehindHasNone(m, n, phase, b);
    } else {
      OneBufferBefore(m, n, phase, b);
    }
  }

  lemma OneBufferBefore(m: Machine, n: Machine, phase: Phase, b: string)
    requires Twins(m, n) && Before(phase)
    ensures SameButMark(Feed(m, phase, b), Feed(n, phase, b), false)
  {
    HeadCall(m, n, phase, b);
    var r := BodyOf(n, phase, b);
    if r.Body? {
      BodyCall(m, n, r.left, true, b[r.start..]);
      SameAfter(r.start, r.atoms, Feed(m, Length(r.left, true), b[r.start..]), Feed(n, Length(r.left, true), b[r.start..]), false);
    }
  }

  // ------------------------------------------------------------------------ an example

  const MESSAGE := "HTTP/1.1 200\r\nContent-Length:2\r\n\r\nab"

  const STATUS := Status(1, 1, 200, "")
  const FIELD := Field(CONTENT_LENGTH, "Content-Length", "2", 2)
  const FRAMED := Framing(false, 2, true, false)

  /** A status line without a reason. */
  lemma StatusUnit(b: string, start: string)
    requires 14 <= |b| && b[..14] == start == "HTTP/1.1 200\r\n"
    ensures StartLineStep(b) == Go(Header(UNFRAMED), 14, [STATUS])
  {
    assert b[..5] == start[..5] == "HTTP/";
    assert forall i :: 0 <= i < 14 ==> b[i] == start[i];
    assert b[5] == '1' && b[6] == '.' && b[7] == '1' && b[8] == ' ' && b[9] == '2' && b[10] == '0' && b[11] == '0';
    assert b[12] == '\r' && b[13] == '\n';
    assert SkipSpaces(b, 8) == SkipSpaces(b, 9) == 9;
    CodeUnit(b);
  }

  lemma CodeUnit(b: string)
    requires 14 <= |b| && b[9] == '2' && b[10] == '0' && b[11] == '0' && b[12] == '\r' && b[13] == '\n'
    ensures StatusStep(b, 9, 1, 1) == Go(Header(UNFRAMED), 14, [STATUS])
  {
    assert Line(b, 12) == Done(14) && b[12..12] == "";
    assert StatusStep(b, 9, 1, 1) == ReasonStep(b, 12, 1, 1, 200);
  }

  predicate IsName(t: string) { t != "" && forall i :: 0 <= i < |t| ==> IsTokenChar(t[i]) }

  /** A name is read up to its colon. */
  lemma {:induction false} NameRead(b: string, i: nat, n: nat)
    requires i <= n < |b| && 0 < n && IsName(b[..n]) && b[n] == ':'
    ensures Token(b, i, ':') == Done(n)
    decreases n - i
  {
    if i < n {
      assert IsTokenChar(b[..n][i]);
      NameRead(b, i + 1, n);
    }
  }

  /** The field that announces a body of two bytes, whatever its name is spelled like. */
  lemma FieldUnit(names: Names, name: string, rest: string, b: string)
    requires IsName(name) && names.field(name) == CONTENT_LENGTH && b == name + ":2\r\n" + rest
    ensures HeaderStep(Response, names, UNFRAMED, b) == Go(Header(FRAMED), |name| + 4, [Field(CONTENT_LENGTH, name, "2", 2)])
  {
    var k := |name|;
    assert b[..k] == name && b[k] == ':' && b[k + 1] == '2' && b[k + 2] == '\r' && b[k + 3] == '\n';
    assert IsTokenChar(name[0]) && b[0] == name[0];
    NameRead(b, 0, k);
    LengthTwo(b, k + 1);
  }

  lemma LengthTwo(b: string, q: nat)
    requires q + 3 <= |b| && b[q] == '2' && b[q + 1] == '\r' && b[q + 2] == '\n'
    ensures SkipOws(b, q) == q && Dec(b, q, 0, 0) == Value(q + 3, 2) && TrimOws(b[q..q + 1]) == "2"
  {
    assert Dec(b, q + 1, 2, 1) == Value(q + 3, 2);
    assert b[q..q + 1] == "2";
  }

  const AFTER_STATUS := "Content-Length:2\r\n\r\nab"
  const AFTER_FIELD := "\r\nab"

  lemma MessageParts()
    ensures |MESSAGE| == 36 && MESSAGE[14..] == AFTER_STATUS && AFTER_STATUS[18..] == AFTER_FIELD && AFTER_FIELD[2..] == "ab"
  {
  }

  /** Three units up to a body. */
  lemma ThreeUnits(n: Machine, p: Phase, q: Phase, r: Phase, a: string, b: string, c: string, s: Step, t: Step, u: Step)
    requires Progresses(n) && n(p, a) == s && n(q, b) == t && n(r, c) == u && s.Go? && t.Go? && u.Go?
    requires s.phase == q && t.phase == r && u.phase.Length? && !p.Length? && !q.Length? && !r.Length?
    requires s.n <= |a| && b == a[s.n..] && t.n <= |b| && c == b[t.n..] && u.n <= |c|
    ensures BodyOf(n, p, a) == Body(s.n + t.n + u.n, u.phase.left, s.atoms + (t.atoms + (u.atoms + [])))
  {
    BodyGoes(n, r, c, u, c[u.n..]);
    BodyGoes(n, q, b, t, c);
    BodyGoes(n, p, a, s, b);
  }

  lemma FirstUnit(names: Names)
    ensures MarkingOf(Response, names)(StartLine, MESSAGE) == Go(Header(UNFRAMED), 14, [STATUS])
  {
    StatusUnit(MESSAGE, MESSAGE[..14]);
    MarkingUnit(names, StartLine, MESSAGE);
  }

  lemma SecondUnit(names: Names)
    requires names.field("Content-Length") == CONTENT_LENGTH
    ensures MarkingOf(Response, names)(Header(UNFRAMED), AFTER_STATUS) == Go(Header(FRAMED), 18, [FIELD])
  {
    FieldUnit(names, "Content-Length", AFTER_FIELD, AFTER_STATUS);
    MarkingUnit(names, Header(UNFRAMED), AFTER_STATUS);
  }

  lemma ThirdUnit(names: Names)
    ensures MarkingOf(Response, names)(Header(FRAMED), AFTER_FIELD) == Go(Length(2, true), 2, [])
  {
    MarkingUnit(names, Header(FRAMED), AFTER_FIELD);
  }

  lemma MessageBody(n: Machine, w: string, b: string, c: string)
    requires Progresses(n) && n(StartLine, w) == Go(Header(UNFRAMED), 14, [STATUS])
    requires n(Header(UNFRAMED), b) == Go(Header(FRAMED), 18, [FIELD]) && n(Header(FRAMED), c) == Go(Length(2, true), 2, [])
    requires |w| == 36 && b == w[14..] && c == b[18..]
    ensures BodyOf(n, StartLine, w) == Body(34, 2, [STATUS, FIELD])
  {
    ThreeUnits(n, StartLine, Header(UNFRAMED), Header(FRAMED), w, b, c,
               Go(Header(UNFRAMED), 14, [STATUS]), Go(Header(FRAMED), 18, [FIELD]), Go(Length(2, true), 2, []));
    Joined(STATUS, FIELD);
  }

  lemma Joined(x: Atom, y: Atom)
    ensures [x] + ([y] + ([] + [])) == [x, y]
  {
  }

  lemma MarkingUnit(names: Names, phase: Phase, b: string)
    requires Before(phase)
    ensures MarkingOf(Response, names)(phase, b)
         == if phase.StartLine? then StartLineStep(b) else HeaderStep(Response, names, phase.f, b)
  {
  }

  lemma MessageWhole(m: Machine, n: Machine)
    requires Twins(m, n) && BodyOf(n, StartLine, MESSAGE) == Body(34, 2, [STATUS, FIELD])
    ensures Feed(m, StartLine, MESSAGE) == Outcome(Last, 36, [STATUS, FIELD, Octet('a'), Octet('b'), End], Ok)
  {
    MessageParts();
    assert MESSAGE[34..] == "ab";
    HeadCall(m, n, StartLine, MESSAGE);
    TwoBytes(m, n);
  }

  lemma TwoBytes(m: Machine, n: Machine)
    requires Twins(m, n)
    ensures Feed(m, Length(2, true), "ab") == Outcome(Last, 2, [Octet('a'), Octet('b'), End], Ok)
  {
    BodyCall(m, n, 2, true, "ab");
    assert "ab"[..2] == "ab" && Octets("ab") == [Octet('a'), Octet('b')];
  }

  /** The message in one piece has its last report marked; with a cut between the two
      bytes of its body the mark is missing, and nothing else. */
  lemma MarkLost(names: Names)
    requires names.field("Content-Length") == CONTENT_LENGTH
    ensures Progresses(MachineOf(Response, names))
    ensures Feed(MachineOf(Response, names), StartLine, MESSAGE)
         == Outcome(Last, 36, [STATUS, FIELD, Octet('a'), Octet('b'), End], Ok)
    ensures FeedAll(MachineOf(Response, names), StartLine, "", [MESSAGE[..35], "b"])
         == Outcome(Last, 36, [STATUS, FIELD, Octet('a'), Octet('b')], Ok)
  {
    var m, n := MachineOf(Response, names), MarkingOf(Response, names);
    ResponseTwins(names);
    FirstUnit(names);
    SecondUnit(names);
    ThirdUnit(names);
    MessageParts();
    MessageBody(n, MESSAGE, AFTER_STATUS, AFTER_FIELD);
    MessageWhole(m, n);
    TwoPieces(m, n);
  }

  /** Such names are those of every table that has the reserved field, whatever other
      fields it has. */
  lemma TablesLoseMark(names: Names, keys: seq<HeaderTable.Key>)
    requires HeaderTable.DistinctHashes(keys) && HeaderTable.Key("Content-Length", CONTENT_LENGTH) in keys
    requires forall name: string :: HeaderTable.Answers(keys, name, names.field(name))
    ensures Progresses(MachineOf(Response, names))
    ensures Feed(MachineOf(Response, names), StartLine, MESSAGE)
         == Outcome(Last, 36, [STATUS, FIELD, Octet('a'), Octet('b'), End], Ok)
    ensures FeedAll(MachineOf(Response, names), StartLine, "", [MESSAGE[..35], "b"])
         == Outcome(Last, 36, [STATUS, FIELD, Octet('a'), Octet('b')], Ok)
  {
    AnswersReserved(keys, HeaderTable.Key("Content-Length", CONTENT_LENGTH));
    HeaderTable.AnswerIsUnique(keys, "Content-Length", names.field("Content-Length"), CONTENT_LENGTH);
    MarkLost(names);
  }

  lemma AnswersReserved(keys: seq<HeaderTable.Key>, key: HeaderTable.Key)
    requires key in keys
    ensures HeaderTable.Answers(keys, key.name, key.value)
  {
    var k: nat :| k < |keys| && keys[k] == key;
    assert HeaderTable.Matches(keys, key.name, k);
  }

  lemma TwoPieces(m: Machine, n: Machine)
    requires Twins(m, n) && BodyOf(n, StartLine, MESSAGE) == Body(34, 2, [STATUS, FIELD])
    requires Feed(m, StartLine, MESSAGE) == Outcome(Last, 36, [STATUS, FIELD, Octet('a'), Octet('b'), End], Ok)
    ensures FeedAll(m, StartLine, "", [MESSAGE[..35], "b"]) == Outcome(Last, 36, [STATUS, FIELD, Octet('a'), Octet('b')], Ok)
  {
    var pieces := [MESSAGE[..35], "b"];
    assert pieces[1..] == ["b"] && Concat(["b"]) == "b" + Concat(["b"][1..]) == "b";
    assert Concat(pieces) == MESSAGE;
    assert pieces[..1] == [MESSAGE[..35]] && Concat(pieces[..1]) == MESSAGE[..35] + Concat(pieces[..1][1..]);
    assert 34 < |Concat(pieces[..1])| < 36;
    TwinsCut(m, n, StartLine, pieces, Body(34, 2, [STATUS, FIELD]));
    Unmarked(FeedAll(m, StartLine, "", pieces).atoms, [STATUS, FIELD, Octet('a'), Octet('b')]);
  }

  lemma Unmarked(a: seq<Atom>, b: seq<Atom>)
    requires a + [End] == b + [End]
    ensures a == b
  {
    assert a == (a + [End])[..|a|] && b == (b + [End])[..|b|];
  }
}
