/** Chunked bodies (section 7.1 of RFC 9112): a body written in chunks, however their
    sizes are spelled, with extensions and trailers, is reported byte by byte and ends
    with the end mark where the text ends. */
module HttpChunks {
  import opened HttpScan
  import opened Digits
  import opened HttpSpec
  import opened HttpCut

  datatype Piece = Piece(size: string, extension: string, data: string)

  predicate NoLineEnd(t: string) { '\r' !in t && '\n' !in t }

  /** A size line says how much data follows; its extension starts with a semicolon. */
  predicate Good(c: Piece) {
    && c.size != "" && AllHex(c.size) && HexValue(c.size) == |c.data| <= SIZE_MAX
    && NoLineEnd(c.extension) && (c.extension != "" ==> c.extension[0] == ';')
  }

  function SizeLine(c: Piece): string { c.size + c.extension + "\r\n" }

  function TrailerText(lines: seq<string>): string {
    if lines == [] then "\r\n" else lines[0] + "\r\n" + TrailerText(lines[1..])
  }

  function Front(first: bool): string { if first then "" else "\r\n" }

  /** The text of a body from a size line on, or from the line end before it. */
  function Text(first: bool, chunks: seq<Piece>, last: Piece, trailers: seq<string>): string {
    Front(first) +
    if chunks == [] then SizeLine(last) + TrailerText(trailers)
    else SizeLine(chunks[0]) + (chunks[0].data + Text(false, chunks[1..], last, trailers))
  }

  function Data(chunks: seq<Piece>): string {
    if chunks == [] then "" else chunks[0].data + Data(chunks[1..])
  }

  // ------------------------------------------------------------------------- the lines

  lemma {:induction false} LineReads(b: string, i: nat, j: nat)
    requires i <= j && j + 2 <= |b| && NoLineEnd(b[i..j]) && CrLfAt(b, j)
    ensures Line(b, i) == Done(j + 2)
    decreases j - i
  {
    if i < j {
      assert b[i] == b[i..j][0];
      assert b[i + 1..j] == b[i..j][1..];
      LineReads(b, i + 1, j);
    }
  }

  lemma {:induction false} ExtensionReads(b: string, i: nat, j: nat)
    requires i <= j < |b| && NoLineEnd(b[i..j]) && b[j] == '\r'
    ensures SkipExtension(b, i) == j
    decreases j - i
  {
    if i < j {
      assert b[i] == b[i..j][0];
      assert b[i + 1..j] == b[i..j][1..];
      ExtensionReads(b, i + 1, j);
    }
  }

  lemma {:induction false} SizeReads(b: string, i: nat, c: Piece, rest: string)
    requires Good(c) && i <= |b| && b[i..] == SizeLine(c) + rest
    ensures Hex(b, i, 0, 0) == Value(i + |SizeLine(c)|, |c.data|)
  {
    var t := b[i..];
    var j, k := i + |c.size|, i + |c.size| + |c.extension|;
    assert forall n :: i <= n < |b| ==> b[n] == t[n - i];
    assert b[i..j] == c.size && b[j..k] == c.extension && b[k] == '\r' && b[k + 1] == '\n';
    if c.extension != "" { assert b[j] == c.extension[0]; }
    HexMeans(b, i, j);
    ExtensionReads(b, j, k);
  }

  // --------------------------------------------------------------------------- the units

  ghost predicate ReadsChunks(m: Machine) {
    && Progresses(m)
    && (forall left: nat, first: bool, b: string :: m(Chunk(left, first), b) == ChunkStep(left, first, b))
    && (forall b: string :: m(Trailer, b) == TrailerStep(b) && m(Last, b) == Stop(Ok, 0, []))
  }

  lemma ParserReadsChunks(kind: Kind, names: Names)
    ensures ReadsChunks(MachineOf(kind, names))
  {
    ParserProgresses(kind, names);
  }

  lemma {:induction false} TrailersRead(m: Machine, lines: seq<string>, after: string)
    requires ReadsChunks(m) && forall i :: 0 <= i < |lines| ==> lines[i] != "" && NoLineEnd(lines[i])
    ensures Feed(m, Trailer, TrailerText(lines) + after) == Outcome(Last, |TrailerText(lines)|, [End], Ok)
    decreases |lines|
  {
    var b := TrailerText(lines) + after;
    if lines == [] {
      FeedGoes(m, Trailer, b, Go(Last, 2, [End]), b[2..]);
    } else {
      var line, rest := lines[0], TrailerText(lines[1..]) + after;
      assert b == line + "\r\n" + rest;
      assert b[0..|line|] == line && b[|line| + 2..] == rest && b[0] == line[0];
      LineReads(b, 0, |line|);
      TrailersRead(m, lines[1..], after);
      FeedGoes(m, Trailer, b, Go(Trailer, |line| + 2, []), rest);
    }
  }

  /** The size line, with the line end of the chunk before it. */
  lemma {:induction false} SizeUnit(first: bool, c: Piece, rest: string, b: string)
    requires Good(c) && b == Front(first) + (SizeLine(c) + rest)
    ensures var n := (if first then 0 else 2) + |SizeLine(c)|;
      && n <= |b| && b[n..] == rest
      && ChunkStep(0, first, b) == Go(if c.data == "" then Trailer else Chunk(|c.data|, first), n, [])
  {
    var i := if first then 0 else 2;
    assert b[i..] == SizeLine(c) + rest;
    SizeReads(b, i, c, rest);
    assert b[i + |SizeLine(c)|..] == (SizeLine(c) + rest)[|SizeLine(c)|..] == rest;
  }

  lemma {:induction false} DataUnit(first: bool, data: string, rest: string)
    requires data != ""
    ensures ChunkStep(|data|, first, data + rest) == Go(Chunk(0, false), |data|, Octets(data))
    ensures (data + rest)[|data|..] == rest
  {
    assert (data + rest)[..|data|] == data;
  }

  lemma {:induction false} LastChunk(m: Machine, first: bool, last: Piece, trailers: seq<string>, after: string)
    requires ReadsChunks(m) && Good(last) && last.data == ""
    requires forall i :: 0 <= i < |trailers| ==> trailers[i] != "" && NoLineEnd(trailers[i])
    ensures Feed(m, Chunk(0, first), Front(first) + (SizeLine(last) + (TrailerText(trailers) + after)))
         == Outcome(Last, |Front(first)| + |SizeLine(last)| + |TrailerText(trailers)|, [End], Ok)
  {
    var rest := TrailerText(trailers) + after;
    var b := Front(first) + (SizeLine(last) + rest);
    SizeUnit(first, last, rest, b);
    TrailersRead(m, trailers, after);
    FeedGoes(m, Chunk(0, first), b, m(Chunk(0, first), b), rest);
  }

  lemma {:induction false} OneChunk(m: Machine, first: bool, c: Piece, rest: string)
    requires ReadsChunks(m) && Good(c) && c.data != ""
    ensures Feed(m, Chunk(0, first), Front(first) + (SizeLine(c) + (c.data + rest)))
         == After(|Front(first)| + |SizeLine(c)| + |c.data|, Octets(c.data), Feed(m, Chunk(0, false), rest))
  {
    var b := Front(first) + (SizeLine(c) + (c.data + rest));
    SizeUnit(first, c, c.data + rest, b);
    OneData(m, first, c.data, rest);
    FeedGoes(m, Chunk(0, first), b, ChunkStep(0, first, b), c.data + rest);
    AfterTwice(|Front(first)| + |SizeLine(c)|, [], |c.data|, Octets(c.data), Feed(m, Chunk(0, false), rest));
    assert [] + Octets(c.data) == Octets(c.data);
  }

  lemma {:induction false} OneData(m: Machine, first: bool, data: string, rest: string)
    requires ReadsChunks(m) && data != ""
    ensures Feed(m, Chunk(|data|, first), data + rest) == After(|data|, Octets(data), Feed(m, Chunk(0, false), rest))
  {
    DataUnit(first, data, rest);
    FeedGoes(m, Chunk(|data|, first), data + rest, ChunkStep(|data|, first, data + rest), rest);
  }

  /** A chunked body reports its bytes, whatever follows it in the buffer. */
  lemma {:induction false} ChunksRead(m: Machine, first: bool, chunks: seq<Piece>, last: Piece, trailers: seq<string>, after: string)
    requires ReadsChunks(m) && Good(last) && last.data == ""
    requires forall i :: 0 <= i < |chunks| ==> Good(chunks[i]) && chunks[i].data != ""
    requires forall i :: 0 <= i < |trailers| ==> trailers[i] != "" && NoLineEnd(trailers[i])
    ensures Feed(m, Chunk(0, first), Text(first, chunks, last, trailers) + after)
         == Outcome(Last, |Text(first, chunks, last, trailers)|, Octets(Data(chunks)) + [End], Ok)
    decreases |chunks|
  {
    if chunks == [] {
      LastChunkReads(m, first, last, trailers, after);
    } else {
      ChunksRead(m, false, chunks[1..], last, trailers, after);
      OneChunk(m, first, chunks[0], Text(false, chunks[1..], last, trailers) + after);
      Prefixed(m, first, chunks, last, trailers, after);
    }
  }

  lemma LastChunkReads(m: Machine, first: bool, last: Piece, trailers: seq<string>, after: string)
    requires ReadsChunks(m) && Good(last) && last.data == ""
    requires forall i :: 0 <= i < |trailers| ==> trailers[i] != "" && NoLineEnd(trailers[i])
    ensures Feed(m, Chunk(0, first), Text(first, [], last, trailers) + after)
         == Outcome(Last, |Text(first, [], last, trailers)|, Octets("") + [End], Ok)
  {
    LastChunk(m, first, last, trailers, after);
    Regroup(Front(first), SizeLine(last), TrailerText(trailers), after);
    assert Octets("") + [End] == [End];
  }

  /** One chunk more in front. */
  lemma Prefixed(m: Machine, first: bool, chunks: seq<Piece>, last: Piece, trailers: seq<string>, after: string)
    requires Progresses(m) && chunks != []
    requires var c, rest := chunks[0], Text(false, chunks[1..], last, trailers);
      && Feed(m, Chunk(0, false), rest + after) == Outcome(Last, |rest|, Octets(Data(chunks[1..])) + [End], Ok)
      && Feed(m, Chunk(0, first), Front(first) + (SizeLine(c) + (c.data + (rest + after))))
         == After(|Front(first)| + |SizeLine(c)| + |c.data|, Octets(c.data), Feed(m, Chunk(0, false), rest + after))
    ensures Feed(m, Chunk(0, first), Text(first, chunks, last, trailers) + after)
         == Outcome(Last, |Text(first, chunks, last, trailers)|, Octets(Data(chunks)) + [End], Ok)
  {
    var c, rest := chunks[0], Text(false, chunks[1..], last, trailers);
    Regroup(Front(first), SizeLine(c), c.data + rest, after);
    assert c.data + rest + after == c.data + (rest + after);
    ReportsJoin(c.data, Data(chunks[1..]));
  }

  lemma Regroup(a: string, b: string, c: string, d: string)
    ensures a + (b + c) + d == a + (b + (c + d))
  {
  }

  lemma ReportsJoin(x: string, y: string)
    ensures Octets(x + y) + [End] == Octets(x) + (Octets(y) + [End])
  {
    OctetsSplit(x, y);
  }

  /** For both parsers. */
  lemma ChunkedBodyReports(kind: Kind, names: Names, chunks: seq<Piece>, last: Piece, trailers: seq<string>, after: string)
    requires Good(last) && last.data == ""
    requires forall i :: 0 <= i < |chunks| ==> Good(chunks[i]) && chunks[i].data != ""
    requires forall i :: 0 <= i < |trailers| ==> trailers[i] != "" && NoLineEnd(trailers[i])
    ensures Progresses(MachineOf(kind, names))
    ensures Feed(MachineOf(kind, names), Chunk(0, true), Text(true, chunks, last, trailers) + after)
         == Outcome(Last, |Text(true, chunks, last, trailers)|, Octets(Data(chunks)) + [End], Ok)
  {
    ParserReadsChunks(kind, names);
    ChunksRead(MachineOf(kind, names), true, chunks, last, trailers, after);
  }

  /** The size line a sender writes: lower-case digits without leading zeros. */
  function Written(data: string): (c: Piece)
    requires |data| <= SIZE_MAX
    ensures Good(c) && c.data == data
  {
    SignificantValue(|data|);
    assert HexValue("0") == HexValue("0"[..0]) * 16 + 0;
    Piece(if data == "" then "0" else Significant(|data|), "", data)
  }
}
