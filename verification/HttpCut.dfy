/** Parsing does not depend on how the input is cut into buffers. */
module HttpCut {
  import opened HttpScan
  import opened HttpSpec

  lemma Slice(b: string, x: string, i: nat, j: nat)
    requires i <= j <= |b|
    ensures (b + x)[i..j] == b[i..j] && (b + x)[..j] == b[..j]
  {
  }

  // ------------------------------------------------------------- each unit is stable

  lemma MethodStable(names: Names, b: string, x: string)
    requires MethodStep(names, b) != MORE
    ensures MethodStep(names, b + x) == MethodStep(names, b)
  {
    TokenStable(b, x, 0, ' ');
    if Token(b, 0, ' ').Done? { Slice(b, x, 0, Token(b, 0, ' ').end); }
  }

  lemma PathStable(b: string, x: string)
    requires PathStep(b) != MORE
    ensures PathStep(b + x) == PathStep(b)
  {
    if b[0] != ' ' {
      var start := if b[0] == '/' then 1 else 0;
      TextEndStable(b, x, start, false);
      Slice(b, x, start, TextEnd(b, start, false).end);
    }
  }

  lemma QueryStable(b: string, x: string)
    requires QueryStep(b) != MORE
    ensures QueryStep(b + x) == QueryStep(b)
  {
    QueryEndStable(b, x, 0, Pair(0, 0, 0, false));
    var q := QueryEnd(b, 0, Pair(0, 0, 0, false));
    if q.pair.hasValue {
      Slice(b, x, q.pair.name, q.pair.name + q.pair.size);
      Slice(b, x, q.pair.value, q.end);
    }
  }

  lemma FragmentStable(b: string, x: string)
    requires FragmentStep(b) != MORE
    ensures FragmentStep(b + x) == FragmentStep(b)
  {
    if b[0] == '#' {
      TextEndStable(b, x, 1, true);
      Slice(b, x, 1, TextEnd(b, 1, true).end);
    }
  }

  lemma VersionStable(b: string, x: string)
    requires VersionStep(b) != MORE
    ensures VersionStep(b + x) == VersionStep(b)
  {
    if |b| >= 5 { Slice(b, x, 0, 5); }
  }

  lemma StatusStable(b: string, x: string, q: nat, major: nat, minor: nat)
    requires q <= |b| && StatusStep(b, q, major, minor) != MORE
    ensures StatusStep(b + x, q, major, minor) == StatusStep(b, q, major, minor)
  {
    if IsDigit(b[q]) && IsDigit(b[q + 1]) && IsDigit(b[q + 2]) && (b[q + 3] == ' ' || b[q + 3] == '\r') {
      var text := if b[q + 3] == ' ' then SkipOws(b, q + 3) else q + 3;
      LineStable(b, x, text);
      SkipOwsStable(b, x, q + 3);
      if Line(b, text).Done? { Slice(b, x, text, Line(b, text).end - 2); }
    }
  }

  lemma StartLineStable(b: string, x: string)
    requires StartLineStep(b) != MORE
    ensures StartLineStep(b + x) == StartLineStep(b)
  {
    Slice(b, x, 0, 5);
    if b[..5] == "HTTP/" && IsDigit(b[5]) && b[6] == '.' && IsDigit(b[7]) && b[8] == ' ' {
      SkipSpacesStable(b, x, 8);
      StatusStable(b, x, SkipSpaces(b, 8), DigitOf(b[5]), DigitOf(b[7]));
    }
  }

  lemma LengthFieldStable(f: Framing, id: int, name: string, b: string, x: string, q: nat)
    requires q <= |b| && LengthField(f, id, name, b, q) != MORE
    ensures q < |b| && LengthField(f, id, name, b + x, q) == LengthField(f, id, name, b, q)
  {
    DecStable(b, x, q, 0, 0);
    if Dec(b, q, 0, 0).Value? { Slice(b, x, q, Dec(b, q, 0, 0).end - 2); }
  }

  lemma TextFieldStable(f: Framing, id: int, name: string, b: string, x: string, q: nat)
    requires q <= |b| && TextField(f, id, name, b, q) != MORE
    ensures q < |b| && TextField(f, id, name, b + x, q) == TextField(f, id, name, b, q)
  {
    LineStable(b, x, q);
    if Line(b, q).Done? { Slice(b, x, q, Line(b, q).end - 2); }
  }

  lemma FieldStable(names: Names, f: Framing, b: string, x: string, k: nat, q: nat)
    requires k <= q <= |b| && FieldStep(names, f, b, k, q) != MORE
    ensures q < |b| && FieldStep(names, f, b + x, k, q) == FieldStep(names, f, b, k, q)
  {
    Slice(b, x, 0, k);
    var id := names.field(b[..k]);
    if id == CONTENT_LENGTH {
      LengthFieldStable(f, id, b[..k], b, x, q);
    } else {
      TextFieldStable(f, id, b[..k], b, x, q);
    }
  }

  lemma HeaderStable(kind: Kind, names: Names, f: Framing, b: string, x: string)
    requires HeaderStep(kind, names, f, b) != MORE
    ensures HeaderStep(kind, names, f, b + x) == HeaderStep(kind, names, f, b)
  {
    if !CrLfAt(b, 0) {
      TokenStable(b, x, 0, ':');
      if Token(b, 0, ':').Done? {
        var k := Token(b, 0, ':').end;
        FieldStable(names, f, b, x, k, SkipOws(b, k + 1));
        SkipOwsStable(b, x, k + 1);
      }
    }
  }

  lemma SizeStable(first: bool, b: string, x: string, i: nat)
    requires i <= |b| && SizeStep(first, b, i) != MORE
    ensures SizeStep(first, b + x, i) == SizeStep(first, b, i)
  {
    HexStable(b, x, i, 0, 0);
  }

  lemma TrailerStable(b: string, x: string)
    requires TrailerStep(b) != MORE
    ensures TrailerStep(b + x) == TrailerStep(b)
  {
    if !CrLfAt(b, 0) { LineStable(b, x, 0); }
  }

  /** The run of body bytes reaches the end of the buffer before the body's end: the
      one unit whose size depends on the buffer. */
  predicate Partial(phase: Phase, b: string) {
    b != "" && ((phase.Length? && |b| < phase.left) || (phase.Chunk? && |b| < phase.left))
  }

  /** A unit that is complete in the buffer is the same with more bytes behind it. */
  lemma MicroStable(kind: Kind, names: Names, phase: Phase, b: string, x: string)
    requires Micro(kind, names, phase, b) != MORE && !Partial(phase, b)
    ensures Micro(kind, names, phase, b + x) == Micro(kind, names, phase, b)
  {
    match phase
    case StartLine => StartLineStable(b, x);
    case Method => MethodStable(names, b, x);
    case Path => PathStable(b, x);
    case Query => QueryStable(b, x);
    case Fragment => FragmentStable(b, x);
    case Version => VersionStable(b, x);
    case Header(f) => HeaderStable(kind, names, f, b, x);
    case Length(left, first) => Slice(b, x, 0, left);
    case Chunk(left, first) =>
      if left > 0 { Slice(b, x, 0, left); }
      else if first { SizeStable(first, b, x, 0); }
      else if CrLfAt(b, 0) { SizeStable(first, b, x, 2); }
    case Trailer => TrailerStable(b, x);
    case Last =>
  }

  // ------------------------------------------------------------ machines that can be cut

  predicate InBody(phase: Phase) { (phase.Length? || phase.Chunk?) && phase.left > 0 }

  function Rest(phase: Phase, n: nat): Phase
    requires InBody(phase) && n <= phase.left
  {
    if phase.Length? then Length(phase.left - n, phase.first) else Chunk(phase.left - n, phase.first)
  }

  /** Inside the body: bytes are reported as they come, and the body's end does not
      depend on how many came before in other buffers. */
  ghost predicate RunsBody(m: Machine, phase: Phase, b: string)
    requires InBody(phase)
  {
    if b == "" then m(phase, b) == MORE
    else if |b| < phase.left then m(phase, b) == Go(Rest(phase, |b|), |b|, Octets(b))
    else
      && m(phase, b).Go? && m(phase, b).n == phase.left
      && m(phase, b).phase == (if phase.Length? then Last else Chunk(0, false))
  }

  /** The atoms behind the body's last byte depend on the phase only. */
  ghost predicate EndsBody(m: Machine, tail: Phase -> seq<Atom>, phase: Phase, b: string)
    requires InBody(phase)
  {
    phase.left <= |b| ==> m(phase, b).atoms == Octets(b[..phase.left]) + tail(Rest(phase, phase.left))
  }

  ghost predicate StableAt(m: Machine, phase: Phase, b: string, x: string) {
    m(phase, b) != MORE && !Partial(phase, b) ==> m(phase, b + x) == m(phase, b)
  }

  ghost predicate AsksCleanly(s: Step) { s.Stop? && s.verdict == NeedMore ==> s == MORE }

  /** A machine whose units do not depend on the cut. */
  ghost predicate Cuttable(m: Machine, tail: Phase -> seq<Atom>) {
    && Progresses(m)
    && (forall phase, b :: AsksCleanly(m(phase, b)))
    && (forall phase, b, x :: StableAt(m, phase, b, x))
    && (forall phase, b :: InBody(phase) ==> RunsBody(m, phase, b))
    && (forall phase, b :: InBody(phase) ==> EndsBody(m, tail, phase, b))
  }

  /** Behind the body of known length comes the end, behind a chunk nothing. */
  function Tail(): Phase -> seq<Atom> {
    (phase: Phase) => if phase.Length? then [End] else []
  }

  /** The machine that marks the end of every body: the request parser does, and so
      would a response parser that marks as requests do. */
  function MarkingOf(kind: Kind, names: Names): Machine {
    (phase: Phase, b: string) => Micro(if phase.Length? then Request else kind, names, phase, b)
  }

  lemma MarkingIs(kind: Kind, names: Names, phase: Phase, b: string)
    requires InBody(phase)
    ensures MarkingOf(kind, names)(phase, b)
         == if phase.Length? then LengthStep(Request, phase.left, phase.first, b) else ChunkStep(phase.left, phase.first, b)
  {
  }

  lemma MarkingInBody(kind: Kind, names: Names, phase: Phase, b: string)
    requires InBody(phase)
    ensures RunsBody(MarkingOf(kind, names), phase, b) && EndsBody(MarkingOf(kind, names), Tail(), phase, b)
  {
    MarkingIs(kind, names, phase, b);
    if phase.left <= |b| {
      assert Tail()(Rest(phase, phase.left)) == if phase.Length? then [End] else [];
      assert Octets(b[..phase.left]) + [] == Octets(b[..phase.left]);
    }
  }

  lemma MicroAsksCleanly(kind: Kind, names: Names, phase: Phase, b: string)
    ensures AsksCleanly(Micro(kind, names, phase, b))
  {
  }

  lemma MarkingCuttable(kind: Kind, names: Names)
    ensures Cuttable(MarkingOf(kind, names), Tail())
  {
    var m := MarkingOf(kind, names);
    forall phase, b ensures Advances(m(phase, b), phase, b) && AsksCleanly(m(phase, b)) {
      MicroAdvances(if phase.Length? then Request else kind, names, phase, b);
      MicroAsksCleanly(if phase.Length? then Request else kind, names, phase, b);
    }
    forall phase, b, x ensures StableAt(m, phase, b, x) {
      if m(phase, b) != MORE && !Partial(phase, b) {
        MicroStable(if phase.Length? then Request else kind, names, phase, b, x);
      }
    }
    forall phase, b | InBody(phase) ensures RunsBody(m, phase, b) && EndsBody(m, Tail(), phase, b) {
      MarkingInBody(kind, names, phase, b);
    }
  }

  lemma RequestCuttable(names: Names)
    ensures Cuttable(MachineOf(Request, names), Tail())
  {
    var m, n := MachineOf(Request, names), MarkingOf(Request, names);
    MarkingCuttable(Request, names);
    forall phase, b ensures m(phase, b) == n(phase, b) {}
    forall phase, b ensures Advances(m(phase, b), phase, b) && AsksCleanly(m(phase, b)) {
      assert Advances(n(phase, b), phase, b) && AsksCleanly(n(phase, b));
    }
    forall phase, b, x ensures StableAt(m, phase, b, x) { assert StableAt(n, phase, b, x); }
    forall phase, b | InBody(phase) ensures RunsBody(m, phase, b) && EndsBody(m, Tail(), phase, b) {
      assert RunsBody(n, phase, b) && EndsBody(n, Tail(), phase, b);
    }
  }

  // -------------------------------------------------------------------------------- a cut

  lemma OctetsSplit(b: string, x: string)
    ensures Octets(b + x) == Octets(b) + Octets(x)
  {
  }

  lemma AfterTwice(n: nat, atoms: seq<Atom>, k: nat, more: seq<Atom>, o: Outcome)
    ensures After(n, atoms, After(k, more, o)) == After(n + k, atoms + more, o)
  {
    assert atoms + (more + o.atoms) == (atoms + more) + o.atoms;
  }

  /** A buffer that ends inside the body. */
  lemma RunsOut(m: Machine, tail: Phase -> seq<Atom>, phase: Phase, b: string)
    requires Cuttable(m, tail) && InBody(phase) && |b| < phase.left
    ensures Feed(m, phase, b) == RunOutcome(phase, b)
  {
    assert RunsBody(m, phase, b) && RunsBody(m, Rest(phase, |b|), "");
    assert b[|b|..] == "";
  }

  lemma FeedGoes(m: Machine, phase: Phase, b: string, s: Step, rest: string)
    requires Progresses(m) && m(phase, b) == s && s.Go? && s.n <= |b| && rest == b[s.n..]
    ensures Feed(m, phase, b) == After(s.n, s.atoms, Feed(m, s.phase, rest))
  {
  }

  /** The unit that ends the body, in one buffer and in the second of two. */
  lemma LastRun(m: Machine, tail: Phase -> seq<Atom>, phase: Phase, b: string, x: string)
    requires Cuttable(m, tail) && Partial(phase, b) && phase.left <= |b + x|
    ensures var whole, part := m(phase, b + x), m(Rest(phase, |b|), x);
      && whole.Go? && part.Go? && whole.phase == part.phase && whole.n == |b| + part.n && part.n <= |x|
      && whole.atoms == Octets(b) + part.atoms
  {
    var left, rest := phase.left, Rest(phase, |b|);
    assert RunsBody(m, phase, b + x) && EndsBody(m, tail, phase, b + x) && RunsBody(m, rest, x) && EndsBody(m, tail, rest, x);
    assert (b + x)[..left] == b + x[..left - |b|];
    OctetsSplit(b, x[..left - |b|]);
  }

  lemma BodyEnds(m: Machine, tail: Phase -> seq<Atom>, phase: Phase, b: string, x: string)
    requires Cuttable(m, tail) && Partial(phase, b) && phase.left <= |b + x|
    ensures Feed(m, phase, b + x) == After(|b|, Octets(b), Feed(m, Rest(phase, |b|), x))
  {
    LastRun(m, tail, phase, b, x);
    var whole, part := m(phase, b + x), m(Rest(phase, |b|), x);
    assert (b + x)[whole.n..] == x[part.n..];
    FeedGoes(m, phase, b + x, whole, x[part.n..]);
    FeedGoes(m, Rest(phase, |b|), x, part, x[part.n..]);
    AfterTwice(|b|, Octets(b), part.n, part.atoms, Feed(m, part.phase, x[part.n..]));
  }

  /** Body bytes in two buffers report what they report in one. */
  lemma BodyCut(m: Machine, tail: Phase -> seq<Atom>, phase: Phase, b: string, x: string)
    requires Cuttable(m, tail) && Partial(phase, b)
    ensures Feed(m, phase, b + x) == After(|b|, Octets(b), Feed(m, Rest(phase, |b|), x))
  {
    if phase.left <= |b + x| {
      BodyEnds(m, tail, phase, b, x);
    } else {
      RunsJoin(phase, b, x);
      RunsOut(m, tail, phase, b + x);
      RunsOut(m, tail, Rest(phase, |b|), x);
    }
  }

  function RunOutcome(phase: Phase, b: string): Outcome
    requires InBody(phase) && |b| <= phase.left
  {
    Outcome(Rest(phase, |b|), |b|, Octets(b), NeedMore)
  }

  lemma RunsJoin(phase: Phase, b: string, x: string)
    requires InBody(phase) && |b + x| < phase.left
    ensures RunOutcome(phase, b + x) == After(|b|, Octets(b), RunOutcome(Rest(phase, |b|), x))
  {
    OctetsSplit(b, x);
  }

  function Resume(o: Outcome, later: Outcome): Outcome {
    if o.verdict == NeedMore then After(o.n, o.atoms, later) else o
  }

  lemma Resumes(n: nat, atoms: seq<Atom>, o: Outcome, later: Outcome)
    ensures After(n, atoms, Resume(o, later)) == Resume(After(n, atoms, o), later)
  {
    AfterTwice(n, atoms, o.n, o.atoms, later);
  }

  /** One cut: bytes that come later change nothing about a verdict already reached,
      and otherwise parsing goes on from what was kept. */
  ghost predicate Cuts(m: Machine, phase: Phase, b: string, x: string)
    requires Progresses(m)
  {
    var o := Feed(m, phase, b);
    Feed(m, phase, b + x) == Resume(o, Feed(m, o.phase, b[o.n..] + x))
  }

  lemma CutAtOnce(m: Machine, phase: Phase, b: string, x: string)
    requires Progresses(m) && m(phase, b) == MORE
    ensures Cuts(m, phase, b, x)
  {
    assert b[0..] == b;
    var o := Feed(m, phase, b + x);
    assert After(0, [], o) == o;
  }

  /** The claim carries over a unit that both buffers start with. */
  lemma CutBehind(m: Machine, phase: Phase, b: string, x: string, s: Step, rest: string)
    requires Progresses(m) && m(phase, b) == s == m(phase, b + x) && s.Go? && s.n <= |b| && rest == b[s.n..]
    requires Cuts(m, s.phase, rest, x)
    ensures Cuts(m, phase, b, x)
  {
    assert (b + x)[s.n..] == rest + x;
    FeedGoes(m, phase, b, s, rest);
    FeedGoes(m, phase, b + x, s, rest + x);
    var o := Feed(m, s.phase, rest);
    assert rest[o.n..] == b[s.n + o.n..];
    Resumes(s.n, s.atoms, o, Feed(m, o.phase, rest[o.n..] + x));
  }

  lemma {:induction false} CutOnce(m: Machine, tail: Phase -> seq<Atom>, phase: Phase, b: string, x: string)
    requires Cuttable(m, tail)
    ensures Cuts(m, phase, b, x)
    decreases |b|, Rank(phase)
  {
    var s := m(phase, b);
    assert Advances(s, phase, b) && AsksCleanly(s) && StableAt(m, phase, b, x);
    if s == MORE {
      CutAtOnce(m, phase, b, x);
    } else if Partial(phase, b) {
      RunsOut(m, tail, phase, b);
      BodyCut(m, tail, phase, b, x);
      assert b[|b|..] + x == x;
    } else if s.Go? {
      CutOnce(m, tail, s.phase, b[s.n..], x);
      CutBehind(m, phase, b, x, s, b[s.n..]);
    }
  }

  /** Trying again without new bytes changes nothing. */
  lemma {:induction false} Idles(m: Machine, tail: Phase -> seq<Atom>, phase: Phase, b: string)
    requires Cuttable(m, tail) && Feed(m, phase, b).verdict == NeedMore
    ensures var o := Feed(m, phase, b); Feed(m, o.phase, b[o.n..]) == Outcome(o.phase, 0, [], NeedMore)
    decreases |b|, Rank(phase)
  {
    var s := m(phase, b);
    assert Advances(s, phase, b) && AsksCleanly(s);
    if s.Go? {
      Idles(m, tail, s.phase, b[s.n..]);
      var o := Feed(m, s.phase, b[s.n..]);
      assert b[s.n..][o.n..] == b[s.n + o.n..];
    } else {
      assert b[0..] == b;
    }
  }

  lemma {:induction false} AnyCuts(m: Machine, tail: Phase -> seq<Atom>, phase: Phase, kept: string, pieces: seq<string>)
    requires Cuttable(m, tail)
    ensures FeedAll(m, phase, kept, pieces) == Feed(m, phase, kept + Concat(pieces))
    decreases |pieces|
  {
    if pieces == [] {
      assert kept + Concat(pieces) == kept;
    } else {
      var o := Feed(m, phase, kept);
      CutOnce(m, tail, phase, kept, Concat(pieces));
      if o.verdict == NeedMore {
        AnyCuts(m, tail, o.phase, kept[o.n..] + pieces[0], pieces[1..]);
        assert kept[o.n..] + pieces[0] + Concat(pieces[1..]) == kept[o.n..] + Concat(pieces);
      }
    }
  }

  /** Any way of cutting a request, with what a call leaves over put before the next
      piece, gives the same verdict, phase, consumed length and reports as one buffer,
      the mark of the last report included. */
  lemma CutIndependent(names: Names, phase: Phase, kept: string, pieces: seq<string>)
    ensures Progresses(MachineOf(Request, names))
    ensures FeedAll(MachineOf(Request, names), phase, kept, pieces) == Feed(MachineOf(Request, names), phase, kept + Concat(pieces))
  {
    RequestCuttable(names);
    AnyCuts(MachineOf(Request, names), Tail(), phase, kept, pieces);
  }

  /** Two ways of cutting the same request agree. */
  lemma CutsAgree(names: Names, phase: Phase, one: seq<string>, other: seq<string>)
    requires Concat(one) == Concat(other)
    ensures Progresses(MachineOf(Request, names))
    ensures FeedAll(MachineOf(Request, names), phase, "", one) == FeedAll(MachineOf(Request, names), phase, "", other)
  {
    CutIndependent(names, phase, "", one);
    CutIndependent(names, phase, "", other);
  }
}
