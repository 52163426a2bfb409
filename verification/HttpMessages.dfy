/** Written messages: a start line, header lines and a body, plain or in chunks, are reported
    as what they were written from and consumed exactly. */
module HttpMessages {
  import opened HttpScan
  import opened HttpSpec
  import opened HttpCut
  import opened HttpFraming
  import HttpChunks
  import HttpHeaders
  import HttpRequestLine

  /** A body with its length in a header line, or in chunks with trailers. */
  datatype Body =
    | Plain(data: string)
    | InChunks(chunks: seq<HttpChunks.Piece>, last: HttpChunks.Piece, trailers: seq<string>)

  predicate GoodBody(body: Body) {
    body.InChunks? ==>
      && HttpChunks.Good(body.last) && body.last.data == ""
      && (forall i :: 0 <= i < |body.chunks| ==> HttpChunks.Good(body.chunks[i]) && body.chunks[i].data != "")
      && (forall i :: 0 <= i < |body.trailers| ==> body.trailers[i] != "" && HttpChunks.NoLineEnd(body.trailers[i]))
  }

  /** The header lines announce the body. */
  ghost predicate Announced(names: Names, hs: seq<HttpHeaders.HeaderLine>, body: Body) {
    && AllGood(hs) && Consistent(names, hs) && Closed(names, hs) && body.InChunks? == HasCoding(names, hs)
    && (body.Plain? ==> Announces(names, hs, |body.data|))
  }

  function BodyText(body: Body): string {
    match body
    case Plain(data) => data
    case InChunks(chunks, last, trailers) => HttpChunks.Text(true, chunks, last, trailers)
  }

  function BodyData(body: Body): string {
    match body
    case Plain(data) => data
    case InChunks(chunks, _, _) => HttpChunks.Data(chunks)
  }

  // ------------------------------------------------------------------------------ the body

  /** The whole of a plain body, or none: its bytes and the end mark. */
  lemma {:induction false} PlainReports(kind: Kind, names: Names, m: Machine, data: string, after: string)
    requires m == MachineOf(kind, names) && Progresses(m)
    ensures var o := Feed(m, Framed(kind, false, |data|), data + after);
      o.phase == Last && o.n == |data| && Closing(kind, false, |data|) + o.atoms == Octets(data) + [End] && o.verdict == Ok
  {
    var b := data + after;
    var phase := Framed(kind, false, |data|);
    assert Feed(m, Last, after) == Outcome(Last, 0, [], Ok);
    if phase.Last? {
      assert b == after && [End] + [] == Octets(data) + [End];
    } else {
      assert b[..|data|] == data && b[|data|..] == after;
      FeedGoes(m, phase, b, Go(Last, |data|, Octets(data) + [End]), after);
      assert [] + ((Octets(data) + [End]) + []) == Octets(data) + [End];
    }
  }

  ghost predicate Reported(o: Outcome, n: nat, atoms: seq<Atom>) { o == Outcome(Last, n, atoms, Ok) }

  lemma {:induction false} HeadAndPlain(kind: Kind, names: Names, hs: seq<HttpHeaders.HeaderLine>, data: string, after: string)
    requires Announced(names, hs, Plain(data))
    ensures Progresses(MachineOf(kind, names))
    ensures Reported(Feed(MachineOf(kind, names), Header(UNFRAMED), BlockText(hs, data + after)),
                     BlockSize(hs) + 2 + |data|, FieldAtoms(names, hs) + (Octets(data) + [End]))
  {
    var m, size := MachineOf(kind, names), |data|;
    HeaderBlockReports(kind, names, hs, size, data + after);
    PlainReports(kind, names, m, data, after);
    Regroup(FieldAtoms(names, hs), Closing(kind, false, size), Feed(m, Framed(kind, false, size), data + after).atoms);
  }

  lemma Regroup(a: seq<Atom>, b: seq<Atom>, c: seq<Atom>)
    ensures (a + b) + c == a + (b + c)
  {
  }

  lemma {:induction false} HeadAndChunks(kind: Kind, names: Names, hs: seq<HttpHeaders.HeaderLine>, body: Body, after: string)
    requires Announced(names, hs, body) && body.InChunks? && GoodBody(body)
    ensures Progresses(MachineOf(kind, names))
    ensures Reported(Feed(MachineOf(kind, names), Header(UNFRAMED), BlockText(hs, BodyText(body) + after)),
                     BlockSize(hs) + 2 + |BodyText(body)|, FieldAtoms(names, hs) + (Octets(BodyData(body)) + [End]))
  {
    var size: nat :| Announces(names, hs, size);
    HeaderBlockReports(kind, names, hs, size, BodyText(body) + after);
    HttpChunks.ChunkedBodyReports(kind, names, body.chunks, body.last, body.trailers, after);
    assert FieldAtoms(names, hs) + [] == FieldAtoms(names, hs);
  }

  /** Header lines and the body that they announce. */
  lemma {:induction false} HeadAndBody(kind: Kind, names: Names, hs: seq<HttpHeaders.HeaderLine>, body: Body, after: string)
    requires Announced(names, hs, body) && GoodBody(body)
    ensures Progresses(MachineOf(kind, names))
    ensures Reported(Feed(MachineOf(kind, names), Header(UNFRAMED), BlockText(hs, BodyText(body) + after)),
                     BlockSize(hs) + 2 + |BodyText(body)|, FieldAtoms(names, hs) + (Octets(BodyData(body)) + [End]))
  {
    if body.Plain? {
      HeadAndPlain(kind, names, hs, body.data, after);
      assert BodyText(body) == body.data == BodyData(body);
    } else {
      HeadAndChunks(kind, names, hs, body, after);
    }
  }

  // -------------------------------------------------------------------------- the messages

  /** A written request is reported as it was written, and nothing behind it is touched. */
  lemma {:induction false} RequestReports(names: Names, r: HttpRequestLine.RequestLine, hs: seq<HttpHeaders.HeaderLine>, body: Body, after: string)
    requires HttpRequestLine.GoodLine(r) && Announced(names, hs, body) && GoodBody(body)
    ensures Progresses(MachineOf(Request, names))
    ensures Feed(MachineOf(Request, names), Method, HttpRequestLine.LineText(r) + BlockText(hs, BodyText(body) + after))
         == Outcome(Last, |HttpRequestLine.LineText(r)| + (BlockSize(hs) + 2 + |BodyText(body)|),
                    HttpRequestLine.LineAtoms(names, r) + (FieldAtoms(names, hs) + (Octets(BodyData(body)) + [End])), Ok)
  {
    HeadAndBody(Request, names, hs, body, after);
    HttpRequestLine.RequestLineReports(names, r, BlockText(hs, BodyText(body) + after));
  }

  /** And so is a written response. */
  lemma {:induction false} ResponseReports(names: Names, r: HttpHeaders.StatusLine, hs: seq<HttpHeaders.HeaderLine>, body: Body, after: string)
    requires HttpHeaders.GoodStatus(r) && Announced(names, hs, body) && GoodBody(body)
    ensures Progresses(MachineOf(Response, names))
    ensures Feed(MachineOf(Response, names), StartLine, HttpHeaders.StatusText(r, BlockText(hs, BodyText(body) + after)))
         == Outcome(Last, HttpHeaders.StatusSize(r) + (BlockSize(hs) + 2 + |BodyText(body)|),
                    [HttpHeaders.StatusAtom(r)] + (FieldAtoms(names, hs) + (Octets(BodyData(body)) + [End])), Ok)
  {
    HeadAndBody(Response, names, hs, body, after);
    HttpHeaders.StatusLineReports(names, r, BlockText(hs, BodyText(body) + after));
  }
}
