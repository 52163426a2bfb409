/** The request and response parsers as a machine that reads one unit at a time: a
    start line, a header line, a path element, a chunk-size line, a trailer line, or
    a run of body bytes.  Each unit either is complete in the buffer, and then is
    reported and consumed, or asks for more bytes.

    Callbacks are assumed never to cancel.  What a parser reports is a sequence of
    atoms; a body fragment is one atom per byte, so that two fragments and their
    concatenation report the same, and a report that is marked as the last one has an
    end atom behind its bytes. */
module HttpSpec {
  import opened HttpScan

  datatype Kind = Request | Response

  /** Recognition of names: methods, and header fields by the caller's table. */
  datatype Names = Names(verb: string -> int, field: string -> int)

  const CONTENT_LENGTH: int := 0x4000_0001
  const TRANSFER_ENCODING: int := 0x4000_0002

  /** What the header lines so far say about the body. */
  datatype Framing = Framing(chunked: bool, length: nat, seenLength: bool, seenCoding: bool)

  const UNFRAMED := Framing(false, 0, false, false)

  datatype Phase =
    | StartLine
    | Method
    | Path
    | Query
    | Fragment
    | Version
    | Header(f: Framing)
    | Length(left: nat, first: bool)
    | Chunk(left: nat, first: bool)
    | Trailer
    | Last

  datatype Atom =
    | Status(major: nat, minor: nat, code: nat, description: string)
    | MethodName(id: int)
    | PathElement(text: string)
    | QueryElement(name: string, value: string)
    | FragmentText(text: string)
    | VersionNumber(major: nat, minor: nat)
    | Field(id: int, name: string, value: string, size: nat)
    | Octet(c: char)
    | End

  datatype Verdict = Ok | NeedMore | Error

  /** One unit: go on in a phase after consuming some bytes, or stop. */
  datatype Step = Go(phase: Phase, n: nat, atoms: seq<Atom>) | Stop(verdict: Verdict, n: nat, atoms: seq<Atom>)

  function Octets(t: string): (r: seq<Atom>)
    ensures |r| == |t| && forall i :: 0 <= i < |t| ==> r[i] == Octet(t[i])
  {
    seq(|t|, i requires 0 <= i < |t| => Octet(t[i]))
  }

  const MORE := Stop(NeedMore, 0, [])
  const FAIL := Stop(Error, 0, [])

  // ------------------------------------------------------------------ request line

  function MethodStep(names: Names, b: string): Step {
    match Token(b, 0, ' ')
    case More => MORE
    case Bad => FAIL
    case Done(k) => Go(Path, k + 1, [MethodName(names.verb(b[..k]))])
  }

  /** Path elements are reported one by one; the slash after one stays with the next. */
  function PathStep(b: string): Step {
    if b == "" then MORE
    else if b[0] == ' ' then Go(Path, 1, [])
    else
      var start: nat := if b[0] == '/' then 1 else 0;
      match TextEnd(b, start, false)
      case Done(j) =>
        var element := if j == 0 then [] else [PathElement(b[start..j])];
        if b[j] == '/' then Go(Path, j, element)
        else if b[j] == '?' then Go(Query, j + 1, element)
        else Go(Fragment, j, element)
      case _ => MORE
  }

  function ElementOf(b: string, end: nat, pair: Pair): seq<Atom>
    requires end <= |b| && PairOk(pair, end)
  {
    if pair.hasValue then [QueryElement(b[pair.name..pair.name + pair.size], b[pair.value..end])] else []
  }

  function QueryStep(b: string): Step {
    match QueryEnd(b, 0, Pair(0, 0, 0, false))
    case QueryMore => MORE
    case AtNext(i, pair) => Go(Query, i, ElementOf(b, i, pair))
    case AtEnd(i, pair) => Go(Fragment, i, ElementOf(b, i, pair))
  }

  function FragmentStep(b: string): Step {
    if b == "" then MORE
    else if b[0] != '#' then (if b[0] == ' ' then Go(Version, 1, []) else FAIL)
    else match TextEnd(b, 1, true)
         case Done(j) =>
           var text := if j == 1 then [] else [FragmentText(b[1..j])];
           if b[j] == ' ' then Go(Version, j + 1, text) else Stop(Error, j, text)
         case _ => MORE
  }

  function VersionStep(b: string): Step {
    if b != "" && b[0] == ' ' then Go(Version, 1, [])
    else if |b| < 10 then MORE
    else if b[..5] != "HTTP/" then FAIL
    else if !(IsDigit(b[5]) && b[6] == '.' && IsDigit(b[7]) && CrLfAt(b, 8)) then Stop(Error, 5, [])
    else Go(Header(UNFRAMED), 10, [VersionNumber(DigitOf(b[5]), DigitOf(b[7]))])
  }

  // --------------------------------------------------------------------- start line

  function StartLineStep(b: string): Step {
    if |b| < 8 then MORE
    else if b[..5] != "HTTP/" || !(IsDigit(b[5]) && b[6] == '.' && IsDigit(b[7])) then FAIL
    else if |b| == 8 then MORE
    else if b[8] != ' ' then FAIL
    else StatusStep(b, SkipSpaces(b, 8), DigitOf(b[5]), DigitOf(b[7]))
  }

  function StatusStep(b: string, q: nat, major: nat, minor: nat): Step
    requires q <= |b|
  {
    if |b| < q + 3 then MORE
    else if !(IsDigit(b[q]) && IsDigit(b[q + 1]) && IsDigit(b[q + 2])) then FAIL
    else if |b| == q + 3 then MORE
    else if b[q + 3] != ' ' && b[q + 3] != '\r' then FAIL
    else
      var code := 100 * DigitOf(b[q]) + 10 * DigitOf(b[q + 1]) + DigitOf(b[q + 2]);
      ReasonStep(b, if b[q + 3] == ' ' then SkipOws(b, q + 3) else q + 3, major, minor, code)
  }

  function ReasonStep(b: string, text: nat, major: nat, minor: nat, code: nat): Step
    requires text <= |b|
  {
    match Line(b, text)
    case More => MORE
    case Bad => FAIL
    case Done(n) => Go(Header(UNFRAMED), n, [Status(major, minor, code, b[text..n - 2])])
  }

  // ------------------------------------------------------------------------ headers

  /** The final transfer coding is chunked: section 6.1 of RFC 9112. */
  predicate IsChunked(value: string) {
    && 7 <= |value|
    && FoldAll(value[|value| - 7..]) == "chunked"
    && (|value| == 7 || EndsWithComma(value[..|value| - 7]))
  }

  predicate EndsWithComma(t: string) {
    if t == "" then false else if IsOws(t[|t| - 1]) then EndsWithComma(t[..|t| - 1]) else t[|t| - 1] == ','
  }

  function HeaderStep(kind: Kind, names: Names, f: Framing, b: string): Step {
    if |b| < 2 then MORE
    else if CrLfAt(b, 0) then HeadersEnd(kind, f)
    else match Token(b, 0, ':')
         case More => MORE
         case Bad => FAIL
         case Done(k) => FieldStep(names, f, b, k, SkipOws(b, k + 1))
  }

  /** The empty line.  A transfer coding that is not chunked leaves the length open. */
  function HeadersEnd(kind: Kind, f: Framing): Step {
    if f.seenCoding && !f.chunked then Stop(Error, 2, [])
    else if f.chunked then Go(Chunk(f.length, true), 2, [])
    else if kind.Response? || f.length != 0 then Go(Length(f.length, true), 2, [])
    else Go(Last, 2, [End])
  }

  /** One field: its name ends at `k` and its value starts at `q`. */
  function FieldStep(names: Names, f: Framing, b: string, k: nat, q: nat): Step
    requires k <= q <= |b|
  {
    var id := names.field(b[..k]);
    if id == CONTENT_LENGTH then LengthField(f, id, b[..k], b, q) else TextField(f, id, b[..k], b, q)
  }

  /** Contradictory lengths, and a length next to a transfer coding, are rejected. */
  function LengthField(f: Framing, id: int, name: string, b: string, q: nat): Step
    requires q <= |b|
  {
    match Dec(b, q, 0, 0)
    case NoMore => MORE
    case NoGood => FAIL
    case Value(n, size) => LengthDone(f, id, name, TrimOws(b[q..n - 2]), n, size)
  }

  function LengthDone(f: Framing, id: int, name: string, value: string, n: nat, size: nat): Step {
    if f.seenCoding || (f.seenLength && f.length != size) then FAIL
    else Go(Header(f.(length := size, seenLength := true)), n, [Field(id, name, value, size)])
  }

  function TextField(f: Framing, id: int, name: string, b: string, q: nat): Step
    requires q <= |b|
  {
    match Line(b, q)
    case More => MORE
    case Bad => FAIL
    case Done(n) => FieldDone(f, id, name, TrimOws(b[q..n - 2]), n)
  }

  function FieldDone(f: Framing, id: int, name: string, value: string, n: nat): Step {
    if id != TRANSFER_ENCODING then Go(Header(f), n, [Field(id, name, value, 0)])
    else if f.seenLength || f.chunked then FAIL
    else Go(Header(f.(chunked := IsChunked(value), seenCoding := true)), n, [Field(id, name, value, 0)])
  }

  // --------------------------------------------------------------------------- body

  /** A request marks the report that completes the body; a response marks it only when
      it is the whole body. */
  function LengthStep(kind: Kind, left: nat, first: bool, b: string): Step {
    if left <= |b| then Go(Last, left, Octets(b[..left]) + if kind.Request? || first then [End] else [])
    else if b == "" then MORE
    else Go(Length(left - |b|, kind.Request? && first), |b|, Octets(b))
  }

  /** Chunk data as it arrives, then the line end behind a chunk together with the next
      size line. */
  function ChunkStep(left: nat, first: bool, b: string): Step {
    if left > 0 then
      if b == "" then MORE
      else if left <= |b| then Go(Chunk(0, false), left, Octets(b[..left]))
      else Go(Chunk(left - |b|, first), |b|, Octets(b))
    else if first then SizeStep(first, b, 0)
    else if |b| < 2 then MORE
    else if !CrLfAt(b, 0) then FAIL
    else SizeStep(first, b, 2)
  }

  function SizeStep(first: bool, b: string, i: nat): Step
    requires i <= |b|
  {
    match Hex(b, i, 0, 0)
    case NoMore => MORE
    case NoGood => FAIL
    case Value(n, size) =>
      if size == 0 then Go(Trailer, n, []) else Go(Chunk(size, first), n, [])
  }

  function TrailerStep(b: string): Step {
    if CrLfAt(b, 0) then Go(Last, 2, [End])
    else match Line(b, 0)
         case More => MORE
         case Bad => FAIL
         case Done(n) => Go(Trailer, n, [])
  }

  // ------------------------------------------------------------------- the machine

  function Micro(kind: Kind, names: Names, phase: Phase, b: string): Step {
    match phase
    case StartLine => StartLineStep(b)
    case Method => MethodStep(names, b)
    case Path => PathStep(b)
    case Query => QueryStep(b)
    case Fragment => FragmentStep(b)
    case Version => VersionStep(b)
    case Header(f) => HeaderStep(kind, names, f, b)
    case Length(left, first) => LengthStep(kind, left, first, b)
    case Chunk(left, first) => ChunkStep(left, first, b)
    case Trailer => TrailerStep(b)
    case Last => Stop(Ok, 0, [])
  }

  function Rank(phase: Phase): nat {
    match phase
    case StartLine => 9
    case Method => 9
    case Path => 8
    case Query => 7
    case Fragment => 6
    case Version => 5
    case Header(_) => 4
    case Length(_, _) => 3
    case Chunk(_, _) => 3
    case Trailer => 2
    case Last => 1
  }

  /** A machine reads units. */
  type Machine = (Phase, string) -> Step

  function MachineOf(kind: Kind, names: Names): Machine {
    (phase: Phase, b: string) => Micro(kind, names, phase, b)
  }

  /** A unit lies within the buffer, and one that consumes nothing moves to a later
      phase. */
  ghost predicate Advances(s: Step, phase: Phase, b: string) {
    s.n <= |b| && (s.Go? ==> 0 < s.n || Rank(s.phase) < Rank(phase))
  }

  ghost predicate Progresses(m: Machine) {
    forall phase, b :: Advances(m(phase, b), phase, b)
  }

  lemma ParserProgresses(kind: Kind, names: Names)
    ensures Progresses(MachineOf(kind, names))
  {
    forall phase, b ensures Advances(MachineOf(kind, names)(phase, b), phase, b) {
      MicroAdvances(kind, names, phase, b);
    }
  }

  lemma MicroAdvances(kind: Kind, names: Names, phase: Phase, b: string)
    ensures Advances(Micro(kind, names, phase, b), phase, b)
  {
  }

  /** What one call of the parser does with a buffer. */
  datatype Outcome = Outcome(phase: Phase, n: nat, atoms: seq<Atom>, verdict: Verdict)

  function Feed(m: Machine, phase: Phase, b: string): (r: Outcome)
    requires Progresses(m)
    ensures r.n <= |b|
    decreases |b|, Rank(phase)
  {
    assert Advances(m(phase, b), phase, b);
    match m(phase, b)
    case Stop(verdict, n, atoms) => Outcome(phase, n, atoms, verdict)
    case Go(next, n, atoms) => After(n, atoms, Feed(m, next, b[n..]))
  }

  function After(n: nat, atoms: seq<Atom>, o: Outcome): Outcome {
    Outcome(o.phase, n + o.n, atoms + o.atoms, o.verdict)
  }

  /** Input that arrives in pieces: each call gets what the previous one left over and
      the next piece, until the parser has a verdict. */
  function FeedAll(m: Machine, phase: Phase, kept: string, pieces: seq<string>): (r: Outcome)
    requires Progresses(m)
    decreases |pieces|
  {
    var o := Feed(m, phase, kept);
    if pieces == [] || o.verdict != NeedMore then o
    else After(o.n, o.atoms, FeedAll(m, o.phase, kept[o.n..] + pieces[0], pieces[1..]))
  }

  function Concat(pieces: seq<string>): string {
    if pieces == [] then "" else pieces[0] + Concat(pieces[1..])
  }
}
