/** The incremental parser as an object: its state survives between buffers, and a
    call consumes what it can of one buffer and reports it.  Request and response
    parsers share the body and header code, so they are one class with a kind. */
module HttpParser {
  import opened HttpScan
  import opened HttpSpec
  import opened HttpReaders

  datatype Stage = AtStartLine | AtMethod | AtPath | AtQuery | AtFragment | AtVersion | AtHeader | AtBody | AtTrailer | AtLast

  /** What a callback gets.  Body data may come in pieces; the report that completes the
      body of a request is marked, and so is one that is the whole body of a response. */
  datatype Event = Head(atom: Atom) | Data(text: string) | DataLast(text: string)

  function AtomsOf(e: Event): seq<Atom> {
    match e
    case Head(a) => [a]
    case Data(t) => Octets(t)
    case DataLast(t) => Octets(t) + [End]
  }

  function Atoms(events: seq<Event>): seq<Atom> {
    if events == [] then [] else Atoms(events[..|events| - 1]) + AtomsOf(events[|events| - 1])
  }

  /** A unit reports at most one event. */
  datatype Report = Nothing | Event(e: Event)

  function AtomsIn(r: Report): seq<Atom> {
    match r
    case Nothing => []
    case Event(e) => AtomsOf(e)
  }

  function EventsIn(r: Report): seq<Event> {
    if r.Nothing? then [] else [r.e]
  }

  lemma AtomsPush(events: seq<Event>, r: Report)
    ensures Atoms(events + EventsIn(r)) == Atoms(events) + AtomsIn(r)
  {
    if r.Nothing? {
      assert events + [] == events;
    } else {
      assert (events + [r.e])[..|events|] == events;
    }
  }

  // ------------------------------------------------------- following the specification

  /** From a phase and a buffer the machine gets to a later phase, consuming `n` bytes. */
  ghost predicate Leads(m: Machine, phase: Phase, b: string, next: Phase, n: nat, atoms: seq<Atom>)
    requires Progresses(m)
  {
    n <= |b| && Feed(m, phase, b) == After(n, atoms, Feed(m, next, b[n..]))
  }

  lemma LeadsNowhere(m: Machine, phase: Phase, b: string)
    requires Progresses(m)
    ensures Leads(m, phase, b, phase, 0, [])
  {
    assert b[0..] == b;
    var o := Feed(m, phase, b);
    assert After(0, [], o) == o;
  }

  lemma LeadsOn(m: Machine, phase: Phase, b: string, next: Phase, n: nat, atoms: seq<Atom>, last: Phase, k: nat, more: seq<Atom>)
    requires Progresses(m) && Leads(m, phase, b, next, n, atoms) && Leads(m, next, b[n..], last, k, more)
    ensures Leads(m, phase, b, last, n + k, atoms + more)
  {
    assert b[n..][k..] == b[n + k..];
    var o := Feed(m, last, b[n + k..]);
    assert atoms + (more + o.atoms) == (atoms + more) + o.atoms;
  }

  /** One more unit. */
  lemma LeadsStep(m: Machine, phase: Phase, b: string, next: Phase, n: nat, atoms: seq<Atom>, s: Step)
    requires Progresses(m) && Leads(m, phase, b, next, n, atoms) && m(next, b[n..]) == s && s.Go?
    ensures Leads(m, phase, b, s.phase, n + s.n, atoms + s.atoms)
  {
    assert Advances(s, next, b[n..]);
    LeadsOn(m, phase, b, next, n, atoms, s.phase, s.n, s.atoms);
  }

  lemma LeadsStop(m: Machine, phase: Phase, b: string, next: Phase, n: nat, atoms: seq<Atom>, s: Step)
    requires Progresses(m) && Leads(m, phase, b, next, n, atoms) && m(next, b[n..]) == s && s.Stop?
    ensures Feed(m, phase, b) == Outcome(next, n + s.n, atoms + s.atoms, s.verdict)
  {
  }

  ghost predicate Named(phase: Phase, b: string) { true }

  class Parser {
    const kind: Kind
    const names: Names
    var stage: Stage
    var chunked: bool
    var dataRemaining: nat
    var firstFragment: bool
    var seenContentLength: bool
    var seenTransferEncoding: bool

    constructor (kind: Kind, names: Names)
      ensures this.kind == kind && this.names == names && Valid()
      ensures Phase() == if kind.Request? then Method else StartLine
    {
      this.kind := kind;
      this.names := names;
      stage := if kind.Request? then AtMethod else AtStartLine;
      chunked, dataRemaining, firstFragment, seenContentLength, seenTransferEncoding := false, 0, true, false, false;
    }

    ghost function Machine(): (m: Machine)
      ensures Progresses(m)
    {
      ParserProgresses(kind, names);
      MachineOf(kind, names)
    }

    function Framed(): Framing
      reads this
    {
      Framing(chunked, dataRemaining, seenContentLength, seenTransferEncoding)
    }

    /** Nothing is known about the body before the headers, and only a request has a
        request line. */
    predicate Valid()
      reads this
    {
      && (stage.AtStartLine? || stage.AtMethod? || stage.AtPath? || stage.AtQuery? || stage.AtFragment? || stage.AtVersion? ==>
            Framed() == UNFRAMED)
      && (stage.AtMethod? || stage.AtPath? || stage.AtQuery? || stage.AtFragment? || stage.AtVersion? ==> kind.Request?)
      && (!stage.AtBody? && !stage.AtTrailer? && !stage.AtLast? ==> firstFragment)
    }

    function Phase(): Phase
      reads this
    {
      match stage
      case AtStartLine => StartLine
      case AtMethod => Method
      case AtPath => Path
      case AtQuery => Query
      case AtFragment => Fragment
      case AtVersion => Version
      case AtHeader => Header(Framed())
      case AtBody => if chunked then Chunk(dataRemaining, firstFragment) else Length(dataRemaining, firstFragment)
      case AtTrailer => Trailer
      case AtLast => Last
    }

    /** A unit was read as the specification has it: the phase moved, or the parser
        stopped where it was. */
    twostate predicate Follows(s: Step, go: bool, verdict: Verdict, n: nat, report: Report)
      reads this
    {
      && Valid() && go == s.Go? && n == s.n && AtomsIn(report) == s.atoms
      && (if go then Phase() == s.phase else Phase() == old(Phase()) && verdict == s.verdict)
    }

    // --------------------------------------------------------------------------- body

    /** Chunk data as it arrives. */
    method ChunkData(b: string) returns (go: bool, verdict: Verdict, n: nat, report: Report)
      requires Valid() && stage.AtBody? && chunked && dataRemaining > 0
      modifies this`dataRemaining, this`firstFragment
      ensures Follows(ChunkStep(old(dataRemaining), old(firstFragment), b), go, verdict, n, report)
    {
      n := if dataRemaining <= |b| then dataRemaining else |b|;
      if n == 0 {
        return false, NeedMore, 0, Nothing;
      }
      report := Event(Data(b[..n]));
      if dataRemaining <= |b| {
        dataRemaining, firstFragment := 0, false;
      } else {
        assert b[..n] == b;
        dataRemaining := dataRemaining - n;
      }
      return true, Ok, n, report;
    }

    /** What stands between two chunks, up to where the next one's bytes start; after
        size zero come the trailers. */
    method ChunkSize(b: string) returns (go: bool, verdict: Verdict, n: nat)
      requires Valid() && stage.AtBody? && chunked && dataRemaining == 0
      modifies this`dataRemaining, this`stage
      ensures Follows(ChunkStep(0, firstFragment, b), go, verdict, n, Nothing)
    {
      var p: nat := 0;
      if !firstFragment {
        if |b| < 2 {
          return false, NeedMore, 0;
        }
        if b[0] != '\r' || b[1] != '\n' {
          return false, Error, 0;
        }
        p := 2;
      }
      var size := ReadHex(b, p);
      if !size.Value? {
        return false, if size.NoMore? then NeedMore else Error, 0;
      }
      if size.value == 0 {
        stage := AtTrailer;
      } else {
        dataRemaining := size.value;
      }
      return true, Ok, size.end;
    }

    /** A body of known length. */
    method LengthData(b: string) returns (go: bool, verdict: Verdict, n: nat, report: Report)
      requires Valid() && stage.AtBody? && !chunked
      modifies this`dataRemaining, this`firstFragment, this`stage
      ensures Follows(LengthStep(kind, old(dataRemaining), old(firstFragment), b), go, verdict, n, report)
    {
      if dataRemaining <= |b| {
        n := dataRemaining;
        report := Event(if kind.Request? || firstFragment then DataLast(b[..n]) else Data(b[..n]));
        assert Octets(b[..n]) + [] == Octets(b[..n]);
        stage := AtLast;
        return true, Ok, n, report;
      }
      if b == "" {
        return false, NeedMore, 0, Nothing;
      }
      n, report := |b|, Event(Data(b));
      if kind.Response? {
        firstFragment := false;
      }
      dataRemaining := dataRemaining - n;
      return true, Ok, n, report;
    }

    /** One trailer line, discarded, or the empty line that ends the message. */
    method TrailerLine(b: string) returns (go: bool, verdict: Verdict, n: nat, report: Report)
      requires Valid() && stage.AtTrailer?
      modifies this`stage
      ensures Follows(TrailerStep(b), go, verdict, n, report)
    {
      if 2 <= |b| && b[0] == '\r' && b[1] == '\n' {
        stage := AtLast;
        assert Octets("") + [End] == [End];
        return true, Ok, 2, Event(DataLast(""));
      }
      var line := ReadUntilCrLf(b, 0);
      if !line.Done? {
        return false, if line.More? then NeedMore else Error, 0, Nothing;
      }
      return true, Ok, line.end, Nothing;
    }

    // ------------------------------------------------------------------------ headers

    /** One header line, or the empty line behind them. */
    method HeaderLine(b: string) returns (go: bool, verdict: Verdict, n: nat, report: Report)
      requires Valid() && stage.AtHeader?
      modifies this
      ensures Follows(HeaderStep(kind, names, old(Framed()), b), go, verdict, n, report)
    {
      if |b| < 2 {
        return false, NeedMore, 0, Nothing;
      }
      if b[0] == '\r' && b[1] == '\n' {
        go, verdict, report := EndHeaders();
        return go, verdict, 2, report;
      }
      var token := ReadToken(b, ':');
      if !token.Done? {
        return false, if token.More? then NeedMore else Error, 0, Nothing;
      }
      var q := SkipOwsFrom(b, token.end + 1);
      var name := b[..token.end];
      var id := names.field(name);
      if id == CONTENT_LENGTH {
        go, verdict, n, report := LengthValue(b, q, id, name);
      } else {
        go, verdict, n, report := TextValue(b, q, id, name);
      }
    }

    method EndHeaders() returns (go: bool, verdict: Verdict, report: Report)
      requires Valid() && stage.AtHeader?
      modifies this`stage
      ensures Follows(HeadersEnd(kind, Framed()), go, verdict, 2, report)
    {
      if seenTransferEncoding && !chunked {
        return false, Error, Nothing;
      }
      if kind.Response? || chunked || dataRemaining != 0 {
        stage := AtBody;
        return true, Ok, Nothing;
      }
      stage := AtLast;
      report := Event(DataLast(""));
      assert Octets("") + [End] == [End];
      return true, Ok, report;
    }

    method LengthValue(b: string, q: nat, id: int, name: string)
      returns (go: bool, verdict: Verdict, n: nat, report: Report)
      requires Valid() && stage.AtHeader? && q <= |b|
      modifies this`dataRemaining, this`seenContentLength
      ensures Follows(LengthField(old(Framed()), id, name, b, q), go, verdict, n, report)
    {
      var size := ReadDec(b, q);
      if !size.Value? {
        return false, if size.NoMore? then NeedMore else Error, 0, Nothing;
      }
      var value := TrimTrailingOws(b[q..size.end - 2]);
      go, verdict, report := NoteLength(id, name, value, size.end, size.value);
      n := if go then size.end else 0;
    }

    method NoteLength(id: int, name: string, value: string, n: nat, size: nat)
      returns (go: bool, verdict: Verdict, report: Report)
      requires Valid() && stage.AtHeader?
      modifies this`dataRemaining, this`seenContentLength
      ensures Follows(LengthDone(old(Framed()), id, name, value, n, size), go, verdict, if go then n else 0, report)
    {
      if seenTransferEncoding || (seenContentLength && dataRemaining != size) {
        return false, Error, Nothing;
      }
      dataRemaining := size;
      seenContentLength := true;
      report := Event(Head(Field(id, name, value, size)));
      return true, Ok, report;
    }

    method TextValue(b: string, q: nat, id: int, name: string)
      returns (go: bool, verdict: Verdict, n: nat, report: Report)
      requires Valid() && stage.AtHeader? && q <= |b|
      modifies this`chunked, this`seenTransferEncoding
      ensures Follows(TextField(old(Framed()), id, name, b, q), go, verdict, n, report)
    {
      var line := ReadUntilCrLf(b, q);
      if !line.Done? {
        return false, if line.More? then NeedMore else Error, 0, Nothing;
      }
      var value := TrimTrailingOws(b[q..line.end - 2]);
      go, verdict, report := NoteField(id, name, value, line.end);
      n := if go then line.end else 0;
    }

    method NoteField(id: int, name: string, value: string, n: nat)
      returns (go: bool, verdict: Verdict, report: Report)
      requires Valid() && stage.AtHeader?
      modifies this`chunked, this`seenTransferEncoding
      ensures Follows(FieldDone(old(Framed()), id, name, value, n), go, verdict, if go then n else 0, report)
    {
      if id == TRANSFER_ENCODING {
        if seenContentLength || chunked {
          return false, Error, Nothing;
        }
        chunked := IsChunked(value);
        seenTransferEncoding := true;
      }
      report := Event(Head(Field(id, name, value, 0)));
      return true, Ok, report;
    }

    // ------------------------------------------------------------- start and request line

    method StatusLine(b: string) returns (go: bool, verdict: Verdict, n: nat, report: Report)
      requires Valid() && stage.AtStartLine?
      modifies this`stage
      ensures Follows(StartLineStep(b), go, verdict, n, report)
    {
      if |b| < 8 {
        return false, NeedMore, 0, Nothing;
      }
      if b[..5] != "HTTP/" || !(IsDigit(b[5]) && b[6] == '.' && IsDigit(b[7])) {
        return false, Error, 0, Nothing;
      }
      if |b| == 8 {
        return false, NeedMore, 0, Nothing;
      }
      if b[8] != ' ' {
        return false, Error, 0, Nothing;
      }
      var q := SkipSpacesFrom(b, 8);
      go, verdict, n, report := StatusCode(b, q, DigitOf(b[5]), DigitOf(b[7]));
    }

    method StatusCode(b: string, q: nat, major: nat, minor: nat)
      returns (go: bool, verdict: Verdict, n: nat, report: Report)
      requires Valid() && stage.AtStartLine? && q <= |b|
      modifies this`stage
      ensures Follows(StatusStep(b, q, major, minor), go, verdict, n, report)
    {
      if |b| < q + 3 {
        return false, NeedMore, 0, Nothing;
      }
      if !(IsDigit(b[q]) && IsDigit(b[q + 1]) && IsDigit(b[q + 2])) {
        return false, Error, 0, Nothing;
      }
      if |b| == q + 3 {
        return false, NeedMore, 0, Nothing;
      }
      var code := 100 * DigitOf(b[q]) + 10 * DigitOf(b[q + 1]) + DigitOf(b[q + 2]);
      var text := q + 3;
      if b[text] == ' ' {
        text := SkipOwsFrom(b, text);
      } else if b[text] != '\r' {
        return false, Error, 0, Nothing;
      }
      go, verdict, n, report := ReasonPhrase(b, text, major, minor, code);
    }

    method ReasonPhrase(b: string, text: nat, major: nat, minor: nat, code: nat)
      returns (go: bool, verdict: Verdict, n: nat, report: Report)
      requires Valid() && stage.AtStartLine? && text <= |b|
      modifies this`stage
      ensures Follows(ReasonStep(b, text, major, minor, code), go, verdict, n, report)
    {
      var line := ReadUntilCrLf(b, text);
      if !line.Done? {
        return false, if line.More? then NeedMore else Error, 0, Nothing;
      }
      report := Event(Head(Status(major, minor, code, b[text..line.end - 2])));
      stage := AtHeader;
      return true, Ok, line.end, report;
    }

    method MethodToken(b: string) returns (go: bool, verdict: Verdict, n: nat, report: Report)
      requires Valid() && stage.AtMethod?
      modifies this`stage
      ensures Follows(MethodStep(names, b), go, verdict, n, report)
    {
      var token := ReadToken(b, ' ');
      if !token.Done? {
        return false, if token.More? then NeedMore else Error, 0, Nothing;
      }
      report := Event(Head(MethodName(names.verb(b[..token.end]))));
      stage := AtPath;
      return true, Ok, token.end + 1, report;
    }

    method PathPart(b: string) returns (go: bool, verdict: Verdict, n: nat, report: Report)
      requires Valid() && stage.AtPath?
      modifies this`stage
      ensures Follows(PathStep(b), go, verdict, n, report)
    {
      if b == "" {
        return false, NeedMore, 0, Nothing;
      }
      if b[0] == ' ' {
        return true, Ok, 1, Nothing;
      }
      var lastElement: nat := if b[0] == '/' then 1 else 0;
      var end := ReadText(b, lastElement, false);
      if !end.Done? {
        return false, NeedMore, 0, Nothing;
      }
      var p := end.end;
      report := Nothing;
      if p != 0 {
        report := Event(Head(PathElement(b[lastElement..p])));
      }
      if b[p] == '/' {
        return true, Ok, p, report;
      }
      if b[p] == '?' {
        stage := AtQuery;
        return true, Ok, p + 1, report;
      }
      stage := AtFragment;
      return true, Ok, p, report;
    }

    method QueryPart(b: string) returns (go: bool, verdict: Verdict, n: nat, report: Report)
      requires Valid() && stage.AtQuery?
      modifies this`stage
      ensures Follows(QueryStep(b), go, verdict, n, report)
    {
      var end := ReadQuery(b);
      if end.QueryMore? {
        return false, NeedMore, 0, Nothing;
      }
      var pair := end.pair;
      report := Nothing;
      if pair.hasValue {
        report := Event(Head(QueryElement(b[pair.name..pair.name + pair.size], b[pair.value..end.end])));
      }
      if end.AtEnd? {
        stage := AtFragment;
      }
      return true, Ok, end.end, report;
    }

    method FragmentPart(b: string) returns (go: bool, verdict: Verdict, n: nat, report: Report)
      requires Valid() && stage.AtFragment?
      modifies this`stage
      ensures Follows(FragmentStep(b), go, verdict, n, report)
    {
      if b == "" {
        return false, NeedMore, 0, Nothing;
      }
      n, report := 0, Nothing;
      if b[0] == '#' {
        var end := ReadText(b, 1, true);
        if !end.Done? {
          return false, NeedMore, 0, Nothing;
        }
        n := end.end;
        if n > 1 {
          report := Event(Head(FragmentText(b[1..n])));
        }
      }
      if b[n] != ' ' {
        return false, Error, n, report;
      }
      stage := AtVersion;
      return true, Ok, n + 1, report;
    }

    method VersionPart(b: string) returns (go: bool, verdict: Verdict, n: nat, report: Report)
      requires Valid() && stage.AtVersion?
      modifies this`stage
      ensures Follows(VersionStep(b), go, verdict, n, report)
    {
      if b != "" && b[0] == ' ' {
        return true, Ok, 1, Nothing;
      }
      if |b| < 10 {
        return false, NeedMore, 0, Nothing;
      }
      if b[..5] != "HTTP/" {
        return false, Error, 0, Nothing;
      }
      if !(IsDigit(b[5]) && b[6] == '.' && IsDigit(b[7]) && b[8] == '\r' && b[9] == '\n') {
        return false, Error, 5, Nothing;
      }
      report := Event(Head(VersionNumber(DigitOf(b[5]), DigitOf(b[7]))));
      stage := AtHeader;
      return true, Ok, 10, report;
    }

    // -------------------------------------------------------------------------- a buffer

    /** `m` reads units as this parser's specification does; spelled out only where a
        unit is named. */
    ghost predicate Implements(m: Machine) {
      && Progresses(m)
      && forall phase, b {:trigger Named(phase, b)} :: Named(phase, b) ==> m(phase, b) == Micro(kind, names, phase, b)
    }

    method Unit(b: string, ghost m: Machine) returns (go: bool, verdict: Verdict, n: nat, report: Report)
      requires Valid() && !stage.AtLast? && Implements(m)
      modifies this
      ensures Follows(m(old(Phase()), b), go, verdict, n, report)
    {
      assert Named(Phase(), b);
      match stage
      case AtStartLine => go, verdict, n, report := StatusLine(b);
      case AtMethod => go, verdict, n, report := MethodToken(b);
      case AtPath => go, verdict, n, report := PathPart(b);
      case AtQuery => go, verdict, n, report := QueryPart(b);
      case AtFragment => go, verdict, n, report := FragmentPart(b);
      case AtVersion => go, verdict, n, report := VersionPart(b);
      case AtHeader => go, verdict, n, report := HeaderLine(b);
      case AtBody =>
        if !chunked {
          go, verdict, n, report := LengthData(b);
        } else if dataRemaining > 0 {
          go, verdict, n, report := ChunkData(b);
        } else {
          go, verdict, n := ChunkSize(b);
          report := Nothing;
        }
      case AtTrailer => go, verdict, n, report := TrailerLine(b);
    }

    /** One unit more behind those already read from this buffer. */
    method NextUnit(b: string, n: nat, events: seq<Event>, ghost m: Machine, ghost from: Phase)
      returns (go: bool, verdict: Verdict, end: nat, all: seq<Event>)
      requires Valid() && !stage.AtLast? && Implements(m) && Leads(m, from, b, Phase(), n, Atoms(events))
      modifies this
      ensures Valid()
      ensures go ==> n <= end <= |b| && (n < end || Rank(Phase()) < Rank(old(Phase())))
      ensures if go then Leads(m, from, b, Phase(), end, Atoms(all))
              else Feed(m, from, b) == Outcome(Phase(), end, Atoms(all), verdict)
    {
      ghost var phase := Phase();
      ghost var s := m(phase, b[n..]);
      assert Advances(s, phase, b[n..]);
      var k, report;
      go, verdict, k, report := Unit(b[n..], m);
      AtomsPush(events, report);
      end, all := n + k, events + EventsIn(report);
      if go {
        LeadsStep(m, from, b, phase, n, Atoms(events), s);
      } else {
        LeadsStop(m, from, b, phase, n, Atoms(events), s);
      }
    }

    /** Read units until the message is complete, the buffer runs out, or the input is
        wrong. */
    method ParseWith(b: string, ghost m: Machine) returns (verdict: Verdict, n: nat, events: seq<Event>)
      requires Valid() && Implements(m)
      modifies this
      ensures Valid()
      ensures Feed(m, old(Phase()), b) == Outcome(Phase(), n, Atoms(events), verdict)
    {
      n, events := 0, [];
      LeadsNowhere(m, Phase(), b);
      while !stage.AtLast?
        invariant Valid() && n <= |b|
        invariant Leads(m, old(Phase()), b, Phase(), n, Atoms(events))
        decreases |b| - n, Rank(Phase())
      {
        var go;
        go, verdict, n, events := NextUnit(b, n, events, m, old(Phase()));
        if !go {
          return;
        }
      }
      assert Named(Last, b[n..]);
      LeadsStop(m, old(Phase()), b, Last, n, Atoms(events), Stop(Ok, 0, []));
      verdict := Ok;
    }

    /** One call with one buffer does what the specification says. */
    method Parse(b: string) returns (verdict: Verdict, n: nat, events: seq<Event>)
      requires Valid()
      modifies this
      ensures Valid()
      ensures Feed(Machine(), old(Phase()), b) == Outcome(Phase(), n, Atoms(events), verdict)
    {
      verdict, n, events := ParseWith(b, Machine());
    }
  }
}
