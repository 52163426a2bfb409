/** Written status and header lines: each is reported as what it was written from and
    consumed to its end, and a written block of header lines is accepted exactly when what
    it says about the body is consistent. */
module HttpHeaders {
  import opened HttpScan
  import opened Digits
  import opened HttpSpec
  import opened HttpCut
  import opened HttpChunks
  import opened HttpRequestLine
  import HttpResponse

  predicate Blank(t: string) { forall i :: 0 <= i < |t| ==> t[i] == ' ' || t[i] == '\t' }
  predicate Spaces(t: string) { forall i :: 0 <= i < |t| ==> t[i] == ' ' }

  // ------------------------------------------------------------------------ the scans

  /** `t` stands at `i`, character by character. */
  ghost predicate At(b: string, i: nat, t: string) { i + |t| <= |b| && forall k :: 0 <= k < |t| ==> b[i + k] == t[k] }

  /** `t` stands at `i` and nothing behind it. */
  ghost predicate Ending(b: string, i: nat, t: string) { i + |t| == |b| && At(b, i, t) }

  lemma Parts(b: string, i: nat, t: string, u: string)
    requires Ending(b, i, t + u)
    ensures At(b, i, t) && Ending(b, i + |t|, u)
  {
    assert forall k :: 0 <= k < |t| ==> (t + u)[k] == t[k];
    forall k | 0 <= k < |u| ensures b[i + |t| + k] == u[k] {
      assert (t + u)[|t| + k] == u[k];
    }
  }

  lemma First(b: string, t: string, u: string)
    requires b == t + u
    ensures At(b, 0, t) && Ending(b, |t|, u)
  {
  }

  lemma Slices(b: string, i: nat, t: string)
    requires At(b, i, t)
    ensures b[i..i + |t|] == t
  {
  }

  lemma Tail(b: string, i: nat, t: string)
    requires Ending(b, i, t)
    ensures b[i..] == t
  {
  }

  lemma {:induction false} BlanksRead(b: string, i: nat, j: nat)
    requires i <= j < |b| && (forall k :: i <= k < j ==> IsOws(b[k])) && !IsOws(b[j])
    ensures SkipOws(b, i) == j
    decreases j - i
  {
    if i < j { BlanksRead(b, i + 1, j); }
  }

  lemma {:induction false} SpacesRead(b: string, i: nat, j: nat)
    requires i <= j < |b| && (forall k :: i <= k < j ==> b[k] == ' ') && b[j] != ' '
    ensures SkipSpaces(b, i) == j
    decreases j - i
  {
    if i < j { SpacesRead(b, i + 1, j); }
  }

  lemma {:induction false} BlankAt(b: string, i: nat, t: string)
    requires At(b, i, t) && Blank(t) && i + |t| < |b| && !IsOws(b[i + |t|])
    ensures SkipOws(b, i) == i + |t|
  {
    forall k | i <= k < i + |t| ensures IsOws(b[k]) { assert b[k] == t[k - i]; }
    BlanksRead(b, i, i + |t|);
  }

  /** Text up to a line end. */
  lemma {:induction false} LineAt(b: string, i: nat, t: string)
    requires At(b, i, t) && NoLineEnd(t) && CrLfAt(b, i + |t|)
    ensures Line(b, i) == Done(i + |t| + 2)
  {
    Slices(b, i, t);
    LineReads(b, i, i + |t|);
  }

  /** A value without white space at its ends is what trimming leaves of it. */
  lemma Trimmed(value: string, behind: string)
    requires Blank(behind) && (value != "" ==> !IsOws(value[|value| - 1]))
    ensures TrimOws(value + behind) == value
  {
    var t := value + behind;
    var r := TrimOws(t);
    assert forall k :: |value| <= k < |t| ==> IsOws(t[k]);
    assert value != "" ==> t[|value| - 1] == value[|value| - 1];
    assert |r| == |value|;
    assert t[..|value|] == value;
  }

  // ------------------------------------------------------------------- the status line

  /** `gap` and `blanks` stand in front of the code and of the reason. */
  datatype StatusLine = StatusLine(major: char, minor: char, gap: string, code: string, blanks: string, reason: string)

  predicate GoodStatus(r: StatusLine) {
    && IsDigit(r.major) && IsDigit(r.minor)
    && r.gap != "" && Spaces(r.gap)
    && |r.code| == 3 && AllDigits(r.code)
    && Blank(r.blanks) && (r.blanks == "" ==> r.reason == "") && (r.blanks != "" ==> r.blanks[0] == ' ')
    && NoLineEnd(r.reason) && (r.reason != "" ==> !IsOws(r.reason[0]))
  }

  function Start(r: StatusLine): string { "HTTP/" + [r.major, '.', r.minor] }

  function Reason(r: StatusLine, after: string): string { r.blanks + (r.reason + ("\r\n" + after)) }

  /** The line with what follows it. */
  function StatusText(r: StatusLine, after: string): string { Start(r) + (r.gap + (r.code + Reason(r, after))) }

  function StatusSize(r: StatusLine): nat { 8 + |r.gap| + 3 + |r.blanks| + |r.reason| + 2 }

  function StatusAtom(r: StatusLine): Atom
    requires GoodStatus(r)
  {
    Status(DigitOf(r.major), DigitOf(r.minor), DecValue(r.code), r.reason)
  }

  lemma CodeValue(t: string)
    requires |t| == 3 && AllDigits(t)
    ensures DecValue(t) == 100 * DigitOf(t[0]) + 10 * DigitOf(t[1]) + DigitOf(t[2])
  {
    assert t[..2][..1] == [t[0]] && t[..1] == [t[0]] && [t[0]][..0] == "";
    assert DecValue([t[0]]) == DigitOf(t[0]);
    assert t[..2][1] == t[1];
  }

  /** The end of a status line, from behind its code. */
  ghost predicate EndsStatus(b: string, i: nat, r: StatusLine, after: string) {
    var text := i + |r.blanks|;
    && At(b, i, r.blanks) && At(b, text, r.reason) && CrLfAt(b, text + |r.reason|) && Ending(b, text + |r.reason| + 2, after)
  }

  lemma ReasonAt(b: string, i: nat, r: StatusLine, after: string)
    requires Ending(b, i, Reason(r, after))
    ensures EndsStatus(b, i, r, after)
  {
    Parts(b, i, r.blanks, r.reason + ("\r\n" + after));
    Parts(b, i + |r.blanks|, r.reason, "\r\n" + after);
    LineEndAt(b, i + |r.blanks| + |r.reason|, after);
  }

  lemma LineEndAt(b: string, e: nat, after: string)
    requires Ending(b, e, "\r\n" + after)
    ensures CrLfAt(b, e) && Ending(b, e + 2, after)
  {
    Parts(b, e, "\r\n", after);
    assert "\r\n"[0] == '\r' && "\r\n"[1] == '\n';
  }

  lemma {:induction false} ReasonRead(b: string, i: nat, r: StatusLine, after: string, major: nat, minor: nat, code: nat)
    requires GoodStatus(r) && EndsStatus(b, i, r, after)
    ensures i < |b| && (b[i] == ' ' || b[i] == '\r')
    ensures ReasonStep(b, if b[i] == ' ' then SkipOws(b, i) else i, major, minor, code)
         == Go(Header(UNFRAMED), i + |r.blanks| + |r.reason| + 2, [Status(major, minor, code, r.reason)])
  {
    var text := i + |r.blanks|;
    assert r.reason != "" ==> b[text] == r.reason[0];
    BlankAt(b, i, r.blanks);
    assert r.blanks != "" ==> b[i] == r.blanks[0];
    LineAt(b, text, r.reason);
    Slices(b, text, r.reason);
  }

  lemma {:induction false} CodeRead(b: string, q: nat, r: StatusLine, after: string, major: nat, minor: nat)
    requires GoodStatus(r) && At(b, q, r.code) && EndsStatus(b, q + 3, r, after)
    ensures StatusStep(b, q, major, minor)
         == Go(Header(UNFRAMED), q + 3 + |r.blanks| + |r.reason| + 2, [Status(major, minor, DecValue(r.code), r.reason)])
  {
    assert b[q + 0] == r.code[0] && b[q + 1] == r.code[1] && b[q + 2] == r.code[2];
    CodeValue(r.code);
    ReasonRead(b, q + 3, r, after, major, minor, DecValue(r.code));
  }

  lemma {:induction false} StartAt(r: StatusLine, after: string, b: string)
    requires GoodStatus(r) && b == StatusText(r, after)
    ensures At(b, 0, Start(r)) && At(b, 8, r.gap) && At(b, 8 + |r.gap|, r.code) && EndsStatus(b, 8 + |r.gap| + 3, r, after)
  {
    First(b, Start(r), r.gap + (r.code + Reason(r, after)));
    Parts(b, 8, r.gap, r.code + Reason(r, after));
    Parts(b, 8 + |r.gap|, r.code, Reason(r, after));
    ReasonAt(b, 8 + |r.gap| + 3, r, after);
  }

  lemma {:induction false} StartRead(r: StatusLine, b: string)
    requires GoodStatus(r) && At(b, 0, Start(r)) && At(b, 8, r.gap) && 8 + |r.gap| < |b| && IsDigit(b[8 + |r.gap|])
    ensures StartLineStep(b) == StatusStep(b, 8 + |r.gap|, DigitOf(r.major), DigitOf(r.minor))
  {
    Slices(b, 0, Start(r));
    assert b[..5] == b[0..8][..5] == "HTTP/" && b[5] == b[0..8][5] && b[6] == b[0..8][6] && b[7] == b[0..8][7];
    assert b[8 + 0] == r.gap[0];
    forall k | 8 <= k < 8 + |r.gap| ensures b[k] == ' ' { assert b[k] == r.gap[k - 8]; }
    SpacesRead(b, 8, 8 + |r.gap|);
  }

  lemma {:induction false} StatusUnitIs(r: StatusLine, after: string, b: string)
    requires GoodStatus(r) && b == StatusText(r, after)
    ensures StatusSize(r) <= |b| && b[StatusSize(r)..] == after
    ensures StartLineStep(b) == Go(Header(UNFRAMED), StatusSize(r), [StatusAtom(r)])
  {
    StartAt(r, after, b);
    assert b[8 + |r.gap| + 0] == r.code[0];
    StartRead(r, b);
    CodeRead(b, 8 + |r.gap|, r, after, DigitOf(r.major), DigitOf(r.minor));
    Tail(b, StatusSize(r), after);
  }

  /** A written status line is reported as it was written, whatever follows it. */
  lemma {:induction false} StatusLineReports(names: Names, r: StatusLine, after: string)
    requires GoodStatus(r)
    ensures Progresses(MachineOf(Response, names))
    ensures Feed(MachineOf(Response, names), StartLine, StatusText(r, after))
         == After(StatusSize(r), [StatusAtom(r)],
                  Feed(MachineOf(Response, names), Header(UNFRAMED), after))
  {
    var m, b := MachineOf(Response, names), StatusText(r, after);
    ParserProgresses(Response, names);
    StatusUnitIs(r, after, b);
    FeedGoes(m, StartLine, b, StartLineStep(b), after);
  }

  // ----------------------------------------------------------------- one header line

  /** White space stands before and behind the value; where there is no value it stands
      before it. */
  datatype HeaderLine = HeaderLine(name: string, before: string, value: string, behind: string)

  predicate GoodHeader(h: HeaderLine) {
    && HttpResponse.IsName(h.name) && Blank(h.before) && Blank(h.behind) && NoLineEnd(h.value)
    && (if h.value == "" then h.behind == "" else !IsOws(h.value[0]) && !IsOws(h.value[|h.value| - 1]))
  }

  function HeaderText(h: HeaderLine, after: string): string {
    h.name + (":" + (h.before + Value(h, after)))
  }

  function Value(h: HeaderLine, after: string): string { h.value + (h.behind + ("\r\n" + after)) }

  function HeaderSize(h: HeaderLine): nat { |h.name| + 1 + |h.before| + |h.value| + |h.behind| + 2 }

  predicate IsSize(t: string) { t != "" && AllDigits(t) && DecValue(t) <= SIZE_MAX }

  function SizeOf(id: int, value: string): nat {
    if id == CONTENT_LENGTH && IsSize(value) then DecValue(value) else 0
  }

  /** A length is a number that fits and does not contradict what was said before; a
      transfer coding does not follow a length or a final coding. */
  predicate Allowed(f: Framing, id: int, value: string) {
    if id == CONTENT_LENGTH then IsSize(value) && !f.seenCoding && (f.seenLength ==> f.length == DecValue(value))
    else if id == TRANSFER_ENCODING then !f.seenLength && !f.chunked
    else true
  }

  function Said(f: Framing, id: int, value: string): Framing
    requires Allowed(f, id, value)
  {
    if id == CONTENT_LENGTH then f.(length := DecValue(value), seenLength := true)
    else if id == TRANSFER_ENCODING then f.(chunked := IsChunked(value), seenCoding := true)
    else f
  }

  function FieldAtom(names: Names, h: HeaderLine): Atom {
    Field(names.field(h.name), h.name, h.value, SizeOf(names.field(h.name), h.value))
  }

  /** Where the parts of a header line stand: its value at `q`. */
  ghost predicate LaidOut(h: HeaderLine, after: string, b: string, q: nat) {
    var e := q + |h.value| + |h.behind|;
    && q == |h.name| + 1 + |h.before| && At(b, q, h.value) && At(b, q + |h.value|, h.behind) && CrLfAt(b, e) && Ending(b, e + 2, after)
  }

  lemma {:induction false} ValuesAt(h: HeaderLine, after: string, b: string, q: nat)
    requires q == |h.name| + 1 + |h.before| && Ending(b, q, Value(h, after))
    ensures LaidOut(h, after, b, q)
  {
    Parts(b, q, h.value, h.behind + ("\r\n" + after));
    Parts(b, q + |h.value|, h.behind, "\r\n" + after);
    LineEndAt(b, q + |h.value| + |h.behind|, after);
  }

  lemma {:induction false} ColonAt(h: HeaderLine, after: string, b: string, k: nat)
    requires k == |h.name| && Ending(b, k, ":" + (h.before + Value(h, after)))
    ensures At(b, k, ":") && At(b, k + 1, h.before) && LaidOut(h, after, b, k + 1 + |h.before|)
  {
    var u := Value(h, after);
    Parts(b, k, ":", h.before + u);
    Parts(b, k + 1, h.before, u);
    ValuesAt(h, after, b, k + 1 + |h.before|);
  }

  lemma {:induction false} HeaderAt(h: HeaderLine, after: string, b: string)
    requires b == HeaderText(h, after)
    ensures At(b, 0, h.name) && At(b, |h.name|, ":") && At(b, |h.name| + 1, h.before) && LaidOut(h, after, b, |h.name| + 1 + |h.before|)
  {
    First(b, h.name, ":" + (h.before + Value(h, after)));
    ColonAt(h, after, b, |h.name|);
  }

  lemma {:induction false} NameRead(kind: Kind, names: Names, f: Framing, h: HeaderLine, b: string)
    requires GoodHeader(h) && At(b, 0, h.name) && At(b, |h.name|, ":")
    ensures b[..|h.name|] == h.name && HeaderStep(kind, names, f, b) == FieldStep(names, f, b, |h.name|, SkipOws(b, |h.name| + 1))
  {
    Slices(b, 0, h.name);
    assert b[0..|h.name|] == b[..|h.name|];
    assert b[|h.name| + 0] == ":"[0];
    assert b[0 + 0] == h.name[0] && IsTokenChar(h.name[0]);
    HttpResponse.NameRead(b, 0, |h.name|);
  }

  lemma {:induction false} ValueFound(h: HeaderLine, after: string, b: string, p: nat)
    requires GoodHeader(h) && p == |h.name| + 1 && At(b, p, h.before) && LaidOut(h, after, b, p + |h.before|)
    ensures SkipOws(b, p) == p + |h.before|
  {
    var q := p + |h.before|;
    assert h.value != "" ==> b[q + 0] == h.value[0];
    BlankAt(b, p, h.before);
  }

  lemma ValueAt(h: HeaderLine, after: string, b: string, q: nat)
    requires LaidOut(h, after, b, q)
    ensures At(b, q, h.value + h.behind)
  {
    forall k | 0 <= k < |h.value + h.behind| ensures b[q + k] == (h.value + h.behind)[k] {
      if k >= |h.value| { assert b[q + |h.value| + (k - |h.value|)] == h.behind[k - |h.value|]; }
    }
  }

  lemma {:induction false} ValueSlice(h: HeaderLine, after: string, b: string, q: nat)
    requires LaidOut(h, after, b, q)
    ensures q + 2 <= HeaderSize(h) <= |b| && b[q..HeaderSize(h) - 2] == h.value + h.behind
  {
    ValueAt(h, after, b, q);
    Slices(b, q, h.value + h.behind);
  }

  lemma {:induction false} ValueTrimmed(h: HeaderLine, after: string, b: string, q: nat)
    requires GoodHeader(h) && LaidOut(h, after, b, q)
    ensures q + 2 <= HeaderSize(h) <= |b| && TrimOws(b[q..HeaderSize(h) - 2]) == h.value
  {
    ValueSlice(h, after, b, q);
    Trimmed(h.value, h.behind);
  }

  lemma {:induction false} ValueLine(h: HeaderLine, after: string, b: string, q: nat)
    requires GoodHeader(h) && LaidOut(h, after, b, q)
    ensures Line(b, q) == Done(HeaderSize(h))
  {
    ValueAt(h, after, b, q);
    LineAt(b, q, h.value + h.behind);
  }

  lemma {:induction false} TextValue(f: Framing, h: HeaderLine, after: string, b: string, q: nat, id: int)
    requires GoodHeader(h) && LaidOut(h, after, b, q)
    ensures TextField(f, id, h.name, b, q) == FieldDone(f, id, h.name, h.value, HeaderSize(h))
  {
    ValueLine(h, after, b, q);
    ValueTrimmed(h, after, b, q);
  }

  /** The digits at the front of a value. */
  function Front(t: string): (r: nat)
    ensures r <= |t| && AllDigits(t[..r]) && (r < |t| ==> !IsDigit(t[r]))
  {
    if t == "" || !IsDigit(t[0]) then 0 else
      var n := Front(t[1..]);
      assert forall i :: 0 <= i < n ==> t[1..][..n][i] == t[i + 1];
      1 + n
  }

  /** A number is read to its end. */
  lemma {:induction false} NumberRead(h: HeaderLine, after: string, b: string, q: nat)
    requires GoodHeader(h) && LaidOut(h, after, b, q) && AllDigits(h.value)
    ensures Dec(b, q, 0, 0) == if IsSize(h.value) then Number.Value(HeaderSize(h), DecValue(h.value)) else NoGood
  {
    var j := q + |h.value|;
    assert h.behind != "" ==> b[j + 0] == h.behind[0];
    BlankAt(b, j, h.behind);
    Slices(b, q, h.value);
    DecMeans(b, q, j);
  }

  /** Anything but digits in it is refused. */
  lemma {:induction false} NumberRefused(h: HeaderLine, after: string, b: string, q: nat)
    requires GoodHeader(h) && LaidOut(h, after, b, q) && !AllDigits(h.value)
    ensures Dec(b, q, 0, 0) == NoGood
  {
    var r := Front(h.value);
    assert h.value[..|h.value|] == h.value;
    assert r < |h.value|;
    assert At(b, q, h.value[..r]);
    Slices(b, q, h.value[..r]);
    DecMeans(b, q, q + r);
    StopsInside(h.value, b, q, r);
  }

  lemma {:induction false} StopsInside(value: string, b: string, q: nat, i: nat)
    requires i < |value| && At(b, q, value) && q + |value| < |b| && NoLineEnd(value) && !IsOws(value[|value| - 1])
    ensures SkipOws(b, q + i) < q + |value| && b[SkipOws(b, q + i)] != '\r'
    decreases |value| - i
  {
    assert b[q + i] == value[i];
    if IsOws(value[i]) { StopsInside(value, b, q, i + 1); }
  }

  lemma {:induction false} LengthValue(f: Framing, h: HeaderLine, after: string, b: string, q: nat, id: int)
    requires GoodHeader(h) && LaidOut(h, after, b, q)
    ensures LengthField(f, id, h.name, b, q)
         == if IsSize(h.value) then LengthDone(f, id, h.name, h.value, HeaderSize(h), DecValue(h.value)) else FAIL
  {
    if AllDigits(h.value) {
      ValueTrimmed(h, after, b, q);
      NumberRead(h, after, b, q);
    } else {
      NumberRefused(h, after, b, q);
    }
  }

  lemma {:induction false} ValueRead(names: Names, f: Framing, h: HeaderLine, after: string, b: string, q: nat)
    requires GoodHeader(h) && LaidOut(h, after, b, q) && |h.name| <= q && b[..|h.name|] == h.name
    ensures FieldStep(names, f, b, |h.name|, q) == Answer(names, f, h)
  {
    var id := names.field(h.name);
    if id == CONTENT_LENGTH { LengthValue(f, h, after, b, q, id); } else { TextValue(f, h, after, b, q, id); }
  }

  function Answer(names: Names, f: Framing, h: HeaderLine): Step {
    var id := names.field(h.name);
    if Allowed(f, id, h.value) then Go(Header(Said(f, id, h.value)), HeaderSize(h), [FieldAtom(names, h)]) else FAIL
  }

  lemma {:induction false} HeaderRead(kind: Kind, names: Names, f: Framing, h: HeaderLine, after: string, b: string, q: nat)
    requires GoodHeader(h) && At(b, 0, h.name) && At(b, |h.name|, ":") && LaidOut(h, after, b, q) && SkipOws(b, |h.name| + 1) == q
    ensures HeaderStep(kind, names, f, b) == Answer(names, f, h)
  {
    NameRead(kind, names, f, h, b);
    ValueRead(names, f, h, after, b, q);
  }

  lemma {:induction false} LineRead(kind: Kind, names: Names, f: Framing, h: HeaderLine, after: string, b: string)
    requires GoodHeader(h) && At(b, 0, h.name) && At(b, |h.name|, ":") && At(b, |h.name| + 1, h.before)
    requires LaidOut(h, after, b, |h.name| + 1 + |h.before|)
    ensures MachineOf(kind, names)(Header(f), b) == Answer(names, f, h)
  {
    ValueFound(h, after, b, |h.name| + 1);
    HeaderRead(kind, names, f, h, after, b, |h.name| + 1 + |h.before|);
  }

  lemma {:induction false} HeaderUnit(kind: Kind, names: Names, f: Framing, h: HeaderLine, after: string, b: string)
    requires GoodHeader(h) && b == HeaderText(h, after)
    ensures HeaderSize(h) <= |b| && b[HeaderSize(h)..] == after
    ensures MachineOf(kind, names)(Header(f), b) == Answer(names, f, h)
  {
    HeaderAt(h, after, b);
    LineRead(kind, names, f, h, after, b);
    Tail(b, HeaderSize(h), after);
  }

  ghost function HeaderOutcome(m: Machine, names: Names, f: Framing, h: HeaderLine, after: string): Outcome
    requires Progresses(m)
  {
    var id := names.field(h.name);
    if Allowed(f, id, h.value) then After(HeaderSize(h), [FieldAtom(names, h)], Feed(m, Header(Said(f, id, h.value)), after))
    else Outcome(Header(f), 0, [], Error)
  }

  lemma Answered(m: Machine, names: Names, f: Framing, h: HeaderLine, after: string, b: string)
    requires Progresses(m) && m(Header(f), b) == Answer(names, f, h) && HeaderSize(h) <= |b| && b[HeaderSize(h)..] == after
    ensures Feed(m, Header(f), b) == HeaderOutcome(m, names, f, h, after)
  {
    if Allowed(f, names.field(h.name), h.value) { FeedGoes(m, Header(f), b, Answer(names, f, h), after); }
  }

  /** A written header line is reported as its name and value, or refused for what it says
      about the body. */
  lemma {:induction false} HeaderLineReports(kind: Kind, names: Names, f: Framing, h: HeaderLine, after: string)
    requires GoodHeader(h)
    ensures Progresses(MachineOf(kind, names))
    ensures Feed(MachineOf(kind, names), Header(f), HeaderText(h, after)) == HeaderOutcome(MachineOf(kind, names), names, f, h, after)
  {
    var m, b := MachineOf(kind, names), HeaderText(h, after);
    ParserProgresses(kind, names);
    HeaderUnit(kind, names, f, h, after, b);
    Answered(m, names, f, h, after, b);
  }
}
