/** A written block of header lines: it is accepted exactly when what it says about the body
    is consistent, and then the body is framed as it says (section 6 of RFC 9112). */
module HttpFraming {
  import opened HttpScan
  import opened Digits
  import opened HttpSpec
  import opened HttpCut
  import opened HttpHeaders

  predicate SaysLength(names: Names, h: HeaderLine) { names.field(h.name) == CONTENT_LENGTH }
  predicate SaysCoding(names: Names, h: HeaderLine) { names.field(h.name) == TRANSFER_ENCODING }
  predicate SaysChunked(names: Names, h: HeaderLine) { SaysCoding(names, h) && IsChunked(h.value) }

  predicate HasLength(names: Names, hs: seq<HeaderLine>) { exists i :: 0 <= i < |hs| && SaysLength(names, hs[i]) }
  predicate HasCoding(names: Names, hs: seq<HeaderLine>) { exists i :: 0 <= i < |hs| && SaysCoding(names, hs[i]) }
  predicate HasChunked(names: Names, hs: seq<HeaderLine>) { exists i :: 0 <= i < |hs| && SaysChunked(names, hs[i]) }

  /** Every length that the lines give is this one; without any it is zero. */
  predicate Announces(names: Names, hs: seq<HeaderLine>, size: nat) {
    && (forall i :: 0 <= i < |hs| && SaysLength(names, hs[i]) ==> IsSize(hs[i].value) && DecValue(hs[i].value) == size)
    && (!HasLength(names, hs) ==> size == 0)
  }

  /** Chunked is the last coding that is named. */
  predicate ChunkedLast(names: Names, hs: seq<HeaderLine>) {
    forall i, j :: 0 <= i < j < |hs| && SaysCoding(names, hs[i]) && SaysCoding(names, hs[j]) ==> !SaysChunked(names, hs[i])
  }

  /** Either lengths, all numbers that fit and all the same, or codings with nothing behind
      chunked, or neither. */
  ghost predicate Consistent(names: Names, hs: seq<HeaderLine>) {
    && (exists size :: Announces(names, hs, size))
    && !(HasLength(names, hs) && HasCoding(names, hs))
    && ChunkedLast(names, hs)
  }

  /** A message whose codings do not end with chunked has no end that can be found. */
  predicate Closed(names: Names, hs: seq<HeaderLine>) { HasCoding(names, hs) ==> HasChunked(names, hs) }

  predicate AllGood(hs: seq<HeaderLine>) { forall i :: 0 <= i < |hs| ==> GoodHeader(hs[i]) }

  // -------------------------------------------------------------------------- chunked

  /** A comma, and only white space from it to the end. */
  predicate CommaThenBlank(t: string, j: nat) { j < |t| && t[j] == ',' && Blank(t[j + 1..]) }

  lemma {:induction false} CommaMeans(t: string)
    ensures EndsWithComma(t) <==> exists j: nat :: CommaThenBlank(t, j)
  {
    if t != "" {
      var n := |t| - 1;
      if IsOws(t[n]) {
        var u := t[..n];
        CommaMeans(u);
        forall j: nat ensures CommaThenBlank(t, j) <==> CommaThenBlank(u, j) { CommaEarlier(t, n, j); }
      } else {
        forall j: nat | j < n ensures !CommaThenBlank(t, j) {
          assert t[j + 1..][n - j - 1] == t[n];
        }
        if t[n] == ',' { assert CommaThenBlank(t, n); }
      }
    }
  }

  lemma CommaEarlier(t: string, n: nat, j: nat)
    requires |t| == n + 1 && IsOws(t[n])
    ensures CommaThenBlank(t, j) <==> CommaThenBlank(t[..n], j)
  {
    if j < n { assert t[j + 1..] == t[..n][j + 1..] + [t[n]]; }
  }

  /** The last element of the list of codings is the word chunked, in letters of any case. */
  ghost predicate EndsWithChunked(value: string, k: nat) {
    k <= |value| && |value| - k == 7 && (forall i :: 0 <= i < 7 ==> SameButCase(value[k..][i], "chunked"[i]))
    && (k == 0 || exists j: nat :: CommaThenBlank(value[..k], j))
  }

  lemma {:induction false} ChunkedMeans(value: string)
    ensures IsChunked(value) <==> exists k: nat :: EndsWithChunked(value, k)
  {
    if 7 <= |value| {
      var k := |value| - 7;
      LowerCase();
      NamesFoldAlike(value[k..], "chunked");
      CommaMeans(value[..k]);
      assert IsChunked(value) <==> EndsWithChunked(value, k);
    }
  }

  lemma LowerCase()
    ensures FoldAll("chunked") == "chunked"
  {
  }

  // ------------------------------------------------------------------- the text, the reports

  function BlockText(hs: seq<HeaderLine>, after: string): string {
    if hs == [] then "\r\n" + after else HeaderText(hs[0], BlockText(hs[1..], after))
  }

  function BlockSize(hs: seq<HeaderLine>): nat {
    if hs == [] then 0 else HeaderSize(hs[0]) + BlockSize(hs[1..])
  }

  function FieldAtoms(names: Names, hs: seq<HeaderLine>): seq<Atom> {
    if hs == [] then [] else [FieldAtom(names, hs[0])] + FieldAtoms(names, hs[1..])
  }

  function Framed(kind: Kind, coding: bool, size: nat): Phase {
    if coding then Chunk(0, true) else if kind.Response? || size != 0 then Length(size, true) else Last
  }

  function Closing(kind: Kind, coding: bool, size: nat): seq<Atom> {
    if Framed(kind, coding, size).Last? then [End] else []
  }

  // ------------------------------------------------------------------------ one line more

  /** What the parser keeps about the lines so far. */
  ghost predicate Sums(names: Names, hs: seq<HeaderLine>, f: Framing) {
    && Announces(names, hs, f.length)
    && f.seenLength == HasLength(names, hs) && f.seenCoding == HasCoding(names, hs) && f.chunked == HasChunked(names, hs)
    && !(f.seenLength && f.seenCoding) && ChunkedLast(names, hs)
  }

  lemma Exists(names: Names, hs: seq<HeaderLine>, h: HeaderLine)
    ensures HasLength(names, hs + [h]) == (HasLength(names, hs) || SaysLength(names, h))
    ensures HasCoding(names, hs + [h]) == (HasCoding(names, hs) || SaysCoding(names, h))
    ensures HasChunked(names, hs + [h]) == (HasChunked(names, hs) || SaysChunked(names, h))
  {
    var all := hs + [h];
    assert all[|hs|] == h;
    assert forall i :: 0 <= i < |hs| ==> all[i] == hs[i];
  }

  lemma AnnouncesMore(names: Names, hs: seq<HeaderLine>, h: HeaderLine, size: nat)
    ensures SaysLength(names, h) ==>
      (Announces(names, hs + [h], size) <==>
       IsSize(h.value) && DecValue(h.value) == size && (HasLength(names, hs) ==> Announces(names, hs, size)))
    ensures !SaysLength(names, h) ==> (Announces(names, hs + [h], size) <==> Announces(names, hs, size))
  {
    var all := hs + [h];
    assert all[|hs|] == h;
    assert forall i :: 0 <= i < |hs| ==> all[i] == hs[i];
    Exists(names, hs, h);
  }

  lemma CodingsMore(names: Names, hs: seq<HeaderLine>, h: HeaderLine)
    requires ChunkedLast(names, hs)
    ensures ChunkedLast(names, hs + [h]) == (SaysCoding(names, h) ==> !HasChunked(names, hs))
  {
    var all := hs + [h];
    assert all[|hs|] == h;
    assert forall i :: 0 <= i < |hs| ==> all[i] == hs[i];
  }

  /** Two sizes that the same lines announce are one. */
  lemma OneSize(names: Names, hs: seq<HeaderLine>, size: nat, other: nat)
    requires Announces(names, hs, size) && Announces(names, hs, other)
    ensures size == other
  {
  }

  lemma KeepsSums(names: Names, hs: seq<HeaderLine>, f: Framing, h: HeaderLine)
    requires Sums(names, hs, f) && Allowed(f, names.field(h.name), h.value)
    ensures Sums(names, hs + [h], Said(f, names.field(h.name), h.value))
  {
    var g := Said(f, names.field(h.name), h.value);
    Exists(names, hs, h);
    AnnouncesMore(names, hs, h, g.length);
    CodingsMore(names, hs, h);
  }

  /** A line that is refused makes the lines inconsistent. */
  lemma RefusedIsWrong(names: Names, hs: seq<HeaderLine>, f: Framing, h: HeaderLine)
    requires Sums(names, hs, f) && !Allowed(f, names.field(h.name), h.value)
    ensures !Consistent(names, hs + [h])
  {
    Exists(names, hs, h);
    CodingsMore(names, hs, h);
    forall size: nat ensures SaysLength(names, h) && Announces(names, hs + [h], size) ==> IsSize(h.value) && (f.seenLength ==> f.length == DecValue(h.value)) {
      AnnouncesMore(names, hs, h, size);
      if f.seenLength && Announces(names, hs, size) { OneSize(names, hs, size, f.length); }
    }
  }

  lemma SumsAreConsistent(names: Names, hs: seq<HeaderLine>, f: Framing)
    requires Sums(names, hs, f)
    ensures Consistent(names, hs)
  {
  }

  lemma FewerLines(names: Names, hs: seq<HeaderLine>, h: HeaderLine)
    requires Consistent(names, hs + [h])
    ensures Consistent(names, hs)
  {
    var size: nat :| Announces(names, hs + [h], size);
    AnnouncesMore(names, hs, h, size);
    Exists(names, hs, h);
    assert forall i :: 0 <= i < |hs| ==> (hs + [h])[i] == hs[i];
    var less: nat := if HasLength(names, hs) then size else 0;
    assert Announces(names, hs, less);
  }

  /** The lines before a consistent rest are consistent. */
  lemma {:induction false} StillConsistent(names: Names, hs: seq<HeaderLine>, more: seq<HeaderLine>)
    requires Consistent(names, hs + more)
    ensures Consistent(names, hs)
    decreases |more|
  {
    if more == [] {
      assert hs + more == hs;
    } else {
      assert hs + more == (hs + [more[0]]) + more[1..];
      StillConsistent(names, hs + [more[0]], more[1..]);
      FewerLines(names, hs, more[0]);
    }
  }

  // ---------------------------------------------------------------------------- the block

  ghost predicate BlockRead(m: Machine, names: Names, f: Framing, hs: seq<HeaderLine>, after: string, g: Framing)
    requires Progresses(m)
  {
    Feed(m, Header(f), BlockText(hs, after)) == After(BlockSize(hs), FieldAtoms(names, hs), Feed(m, Header(g), "\r\n" + after))
  }

  lemma NoneRead(m: Machine, names: Names, f: Framing, after: string)
    requires Progresses(m)
    ensures BlockRead(m, names, f, [], after, f)
  {
    var o := Feed(m, Header(f), "\r\n" + after);
    assert [] + o.atoms == o.atoms;
  }

  /** One line, and the rest of the block behind it. */
  lemma LineThen(m: Machine, names: Names, f: Framing, g: Framing, hs: seq<HeaderLine>, after: string, last: Framing)
    requires Progresses(m) && hs != [] && BlockRead(m, names, g, hs[1..], after, last)
    requires Feed(m, Header(f), BlockText(hs, after)) == After(HeaderSize(hs[0]), [FieldAtom(names, hs[0])], Feed(m, Header(g), BlockText(hs[1..], after)))
    ensures BlockRead(m, names, f, hs, after, last)
  {
    AfterTwice(HeaderSize(hs[0]), [FieldAtom(names, hs[0])], BlockSize(hs[1..]), FieldAtoms(names, hs[1..]), Feed(m, Header(last), "\r\n" + after));
  }

  ghost predicate BlockGives(m: Machine, names: Names, f: Framing, hs: seq<HeaderLine>, after: string, g: Framing, ok: bool)
    requires Progresses(m)
  {
    if ok then BlockRead(m, names, f, hs, after, g) else Feed(m, Header(f), BlockText(hs, after)).verdict == Error
  }

  lemma {:induction false} LineGives(kind: Kind, names: Names, m: Machine, f: Framing, hs: seq<HeaderLine>, after: string, g: Framing, ok: bool)
    requires m == MachineOf(kind, names) && Progresses(m) && AllGood(hs)
    requires hs != [] && Allowed(f, names.field(hs[0].name), hs[0].value)
    requires BlockGives(m, names, Said(f, names.field(hs[0].name), hs[0].value), hs[1..], after, g, ok)
    ensures BlockGives(m, names, f, hs, after, g, ok)
  {
    HeaderLineReports(kind, names, f, hs[0], BlockText(hs[1..], after));
    if ok { LineThen(m, names, f, Said(f, names.field(hs[0].name), hs[0].value), hs, after, g); }
  }

  lemma {:induction false} LinesRead(kind: Kind, names: Names, m: Machine, done: seq<HeaderLine>, f: Framing, hs: seq<HeaderLine>, after: string,
                                     all: seq<HeaderLine>)
    returns (g: Framing)
    requires m == MachineOf(kind, names) && Progresses(m) && Sums(names, done, f) && AllGood(hs) && all == done + hs
    ensures BlockGives(m, names, f, hs, after, g, Consistent(names, all))
    ensures Consistent(names, all) ==> Sums(names, all, g)
    decreases |hs|
  {
    g := f;
    if hs == [] {
      assert all == done;
      SumsAreConsistent(names, done, f);
      NoneRead(m, names, f, after);
    } else {
      var h, rest := hs[0], hs[1..];
      assert all == (done + [h]) + rest;
      if Allowed(f, names.field(h.name), h.value) {
        KeepsSums(names, done, f, h);
        g := LinesRead(kind, names, m, done + [h], Said(f, names.field(h.name), h.value), rest, after, all);
        LineGives(kind, names, m, f, hs, after, g, Consistent(names, all));
      } else {
        RefusedHere(kind, names, m, done, f, hs, after, all);
      }
    }
  }

  lemma {:induction false} RefusedHere(kind: Kind, names: Names, m: Machine, done: seq<HeaderLine>, f: Framing, hs: seq<HeaderLine>, after: string,
                                       all: seq<HeaderLine>)
    requires m == MachineOf(kind, names) && Progresses(m) && Sums(names, done, f) && AllGood(hs) && hs != []
    requires all == (done + [hs[0]]) + hs[1..] && !Allowed(f, names.field(hs[0].name), hs[0].value)
    ensures !Consistent(names, all) && Feed(m, Header(f), BlockText(hs, after)).verdict == Error
  {
    RefusedIsWrong(names, done, f, hs[0]);
    if Consistent(names, (done + [hs[0]]) + hs[1..]) { StillConsistent(names, done + [hs[0]], hs[1..]); }
    HeaderLineReports(kind, names, f, hs[0], BlockText(hs[1..], after));
  }

  lemma {:induction false} EndRead(kind: Kind, names: Names, m: Machine, hs: seq<HeaderLine>, f: Framing, after: string)
    requires m == MachineOf(kind, names) && Progresses(m) && Sums(names, hs, f)
    ensures Closed(names, hs)
      ==> Feed(m, Header(f), "\r\n" + after)
          == After(2, Closing(kind, HasCoding(names, hs), f.length), Feed(m, Framed(kind, HasCoding(names, hs), f.length), after))
    ensures !Closed(names, hs) ==> Feed(m, Header(f), "\r\n" + after).verdict == Error
  {
    var b := "\r\n" + after;
    assert |b| >= 2 && CrLfAt(b, 0) && b[2..] == after;
    assert m(Header(f), b) == HeadersEnd(kind, f);
    if Closed(names, hs) { FeedGoes(m, Header(f), b, HeadersEnd(kind, f), after); }
  }

  /** The block and its empty line are read to their end. */
  ghost predicate BlockEnds(m: Machine, kind: Kind, names: Names, hs: seq<HeaderLine>, size: nat, after: string)
    requires Progresses(m)
  {
    var coding := HasCoding(names, hs);
    Feed(m, Header(UNFRAMED), BlockText(hs, after))
    == After(BlockSize(hs) + 2, FieldAtoms(names, hs) + Closing(kind, coding, size), Feed(m, Framed(kind, coding, size), after))
  }

  lemma EndThen(m: Machine, kind: Kind, names: Names, hs: seq<HeaderLine>, g: Framing, after: string, coding: bool)
    requires Progresses(m) && BlockRead(m, names, UNFRAMED, hs, after, g) && coding == HasCoding(names, hs)
    requires Feed(m, Header(g), "\r\n" + after) == After(2, Closing(kind, coding, g.length), Feed(m, Framed(kind, coding, g.length), after))
    ensures BlockEnds(m, kind, names, hs, g.length, after)
  {
    AfterTwice(BlockSize(hs), FieldAtoms(names, hs), 2, Closing(kind, coding, g.length), Feed(m, Framed(kind, coding, g.length), after));
  }

  lemma {:induction false} WholeBlock(kind: Kind, names: Names, m: Machine, hs: seq<HeaderLine>, g: Framing, after: string)
    requires m == MachineOf(kind, names) && Progresses(m) && Sums(names, hs, g) && BlockRead(m, names, UNFRAMED, hs, after, g)
    ensures Closed(names, hs) ==> BlockEnds(m, kind, names, hs, g.length, after)
    ensures !Closed(names, hs) ==> Feed(m, Header(UNFRAMED), BlockText(hs, after)).verdict == Error
  {
    EndRead(kind, names, m, hs, g, after);
    if Closed(names, hs) { EndThen(m, kind, names, hs, g, after, HasCoding(names, hs)); }
  }

  /** A block is accepted exactly when it is consistent and its codings end with chunked;
      then every line is reported, and the body is framed as the lines say. */
  lemma {:induction false} HeaderBlockReports(kind: Kind, names: Names, hs: seq<HeaderLine>, size: nat, after: string)
    requires AllGood(hs)
    ensures Progresses(MachineOf(kind, names))
    ensures Consistent(names, hs) && Closed(names, hs) && Announces(names, hs, size)
      ==> BlockEnds(MachineOf(kind, names), kind, names, hs, size, after)
    ensures !(Consistent(names, hs) && Closed(names, hs))
      ==> Feed(MachineOf(kind, names), Header(UNFRAMED), BlockText(hs, after)).verdict == Error
  {
    var m := MachineOf(kind, names);
    ParserProgresses(kind, names);
    assert Sums(names, [], UNFRAMED);
    assert hs == [] + hs;
    var g := LinesRead(kind, names, m, [], UNFRAMED, hs, after, hs);
    if Consistent(names, hs) {
      WholeBlock(kind, names, m, hs, g, after);
      if Announces(names, hs, size) { OneSize(names, hs, size, g.length); }
    }
  }
}
