/** The reader of IPv6 literals against the grammar of RFC 3986 (section 3.2.2), whose
    octets have no leading zeros: it reads what the grammar means, and in addition the
    literals whose dotted quad has an octet with a leading zero. */
module UriIpv6Strict {
  import opened HttpScan
  import opened Digits
  import opened UriIpv6
  import opened UriIpv6Steps
  import opened UriIpv6Text

  // --------------------------------------------------------------------- the grammar

  /** An octet without leading zeros. */
  predicate IsDecOctet(t: string) {
    IsOctet(t) && (|t| > 1 ==> t[0] != '0')
  }

  function StrictOctets(t: string, n: nat): (r: Groups)
    requires n >= 1
    ensures r.Groups? ==> |r.groups| == n
  {
    if n == 1 then if IsDecOctet(t) then Groups([DecValue(t)]) else NotGroups
    else
      var k := First(t, '.');
      if k == |t| || !IsDecOctet(t[..k]) then NotGroups
      else Prepend([DecValue(t[..k])], StrictOctets(t[k + 1..], n - 1))
  }

  function StrictQuad(t: string): Groups {
    Paired(StrictOctets(t, 4))
  }

  function StrictParts(t: string, ends: bool): Groups
    decreases |t|
  {
    var k := First(t, ':');
    if k == |t| then
      if IsHexGroup(t) then Groups([HexValue(t)]) else if ends then StrictQuad(t) else NotGroups
    else if !IsHexGroup(t[..k]) then NotGroups
    else Prepend([HexValue(t[..k])], StrictParts(t[k + 1..], ends))
  }

  function StrictSide(t: string, ends: bool): Groups {
    if t == "" then Groups([]) else StrictParts(t, ends)
  }

  /** The groups that the text means by the grammar. */
  function StrictMeaning(t: string): Groups {
    var d := FirstDouble(t);
    if d == |t| then WholeSide(StrictSide(t, true)) else FilledSides(StrictSide(t[..d], false), StrictSide(t[d + 2..], true))
  }

  // ---------------------------------------------------------------- the leading zeros

  /** A zero at the start of an octet with another digit behind it. */
  ghost predicate PadAt(t: string, i: nat) {
    i + 1 < |t| && t[i] == '0' && IsDigit(t[i + 1]) && (i == 0 || t[i - 1] == '.')
  }

  ghost predicate Padded(t: string) { exists i: nat :: PadAt(t, i) }

  /** What stands behind the last colon. */
  function LastPiece(t: string): string { t[PieceStart(t, |t|)..] }

  /** Where the piece that ends at `i` starts. */
  function PieceStart(t: string, i: nat): (r: nat)
    requires i <= |t|
    ensures r <= i
  {
    if i == 0 || t[i - 1] == ':' then i else PieceStart(t, i - 1)
  }

  /** The literal ends with a dotted quad that has an octet with a leading zero. */
  ghost predicate PadsQuad(t: string) {
    '.' in LastPiece(t) && Padded(LastPiece(t))
  }

  lemma PaddedOctet(t: string)
    requires IsOctet(t)
    ensures Padded(t) <==> !IsDecOctet(t)
  {
    if !IsDecOctet(t) { assert PadAt(t, 0); }
  }

  lemma {:induction false} PaddedSplits(t: string, k: nat)
    requires k < |t| && t[k] == '.' && IsOctet(t[..k])
    ensures Padded(t) <==> Padded(t[..k]) || Padded(t[k + 1..])
  {
    var u := t[k + 1..];
    if i: nat :| PadAt(t, i) {
      if i < k {
        assert PadAt(t[..k], i);
      } else {
        assert i > k;
        assert PadAt(u, i - k - 1);
      }
    }
    if i: nat :| PadAt(t[..k], i) { assert PadAt(t, i); }
    if i: nat :| PadAt(u, i) { assert PadAt(t, k + 1 + i); }
  }

  lemma {:induction false} OctetsStrict(t: string, n: nat)
    requires n >= 1
    ensures StrictOctets(t, n) == if Padded(t) then NotGroups else Octets(t, n)
    decreases n
  {
    if n == 1 {
      if IsOctet(t) { PaddedOctet(t); }
    } else {
      var k := First(t, '.');
      if k < |t| {
        if IsOctet(t[..k]) {
          PaddedOctet(t[..k]);
          PaddedSplits(t, k);
        }
        OctetsStrict(t[k + 1..], n - 1);
      }
    }
  }

  lemma {:induction false} PieceShifts(t: string, d: nat, i: nat)
    requires d + 1 + i <= |t| && t[d] == ':'
    ensures PieceStart(t, d + 1 + i) == d + 1 + PieceStart(t[d + 1..], i)
  {
    if i > 0 { PieceShifts(t, d, i - 1); }
  }

  lemma LastPieceBehind(t: string, d: nat)
    requires d < |t| && t[d] == ':'
    ensures LastPiece(t) == LastPiece(t[d + 1..])
  {
    PieceShifts(t, d, |t| - d - 1);
  }

  lemma {:induction false} OnePiece(t: string, i: nat)
    requires i <= |t| && ':' !in t[..i]
    ensures PieceStart(t, i) == 0
  {
    if i > 0 {
      assert t[i - 1] == t[..i][i - 1] && t[..i - 1] == t[..i][..i - 1];
      OnePiece(t, i - 1);
    }
  }

  lemma {:induction false} PartsStrict(t: string)
    ensures StrictParts(t, true) == if PadsQuad(t) then NotGroups else Parts(t, true)
    decreases |t|
  {
    var k := First(t, ':');
    if k == |t| {
      OnePiece(t, |t|);
      assert t[0..] == t;
      OctetsStrict(t, 4);
      if '.' !in t { assert First(t, '.') == |t|; }
    } else {
      LastPieceBehind(t, k);
      PartsStrict(t[k + 1..]);
    }
  }

  lemma {:induction false} PartsAlike(t: string)
    ensures StrictParts(t, false) == Parts(t, false)
    decreases |t|
  {
    var k := First(t, ':');
    if k < |t| { PartsAlike(t[k + 1..]); }
  }


  lemma SideStrict(t: string)
    ensures StrictSide(t, true) == if PadsQuad(t) then NotGroups else Side(t, true)
  {
    if t != "" { PartsStrict(t); }
  }

  lemma SideAlike(t: string)
    ensures StrictSide(t, false) == Side(t, false)
  {
    PartsAlike(t);
  }

  /** By the grammar a literal means what the reader makes of it if its quad has no
      octet with a leading zero, and nothing otherwise. */
  lemma StrictExact(t: string)
    ensures StrictMeaning(t) == if PadsQuad(t) then NotGroups else Meaning(t)
  {
    var d := FirstDouble(t);
    if d == |t| {
      SideStrict(t);
    } else {
      LastPieceBehind(t, d + 1);
      SideAlike(t[..d]);
      SideStrict(t[d + 2..]);
    }
  }

  /** What is accepted conforms if and only if no octet has a leading zero. */
  lemma AcceptedConforms(b: string, from: nat)
    requires from <= |b| && Literal(b, from).Accepted6?
    ensures var r := Literal(b, from);
      && from < r.next <= |b|
      && (StrictMeaning(b[from..r.next - 1]) == Groups(r.groups) <==> !PadsQuad(b[from..r.next - 1]))
      && (StrictMeaning(b[from..r.next - 1]) == NotGroups <==> PadsQuad(b[from..r.next - 1]))
  {
    StrictExact(b[from..Literal(b, from).next - 1]);
  }

  // ----------------------------------------------------------------------- an example

  lemma OneDigit(c: char)
    requires IsDigit(c)
    ensures IsOctet([c]) && DecValue([c]) == DigitOf(c)
  {
    assert [c][..0] == "";
    assert DecValue([c]) == DecValue("") * 10 + DigitOf(c);
  }

  lemma PaddedQuad()
    ensures Quad("1.02.3.4") == Groups([258, 772])
  {
    var t := "1.02.3.4";
    FirstIs(t, '.', 1);
    assert t[..1] == "1" && t[2..] == "02.3.4";
    OneDigit('1');
    PaddedTail();
  }

  lemma PaddedTail()
    ensures Octets("02.3.4", 3) == Groups([2, 3, 4])
  {
    var u, v := "02.3.4", "3.4";
    FirstIs(u, '.', 2);
    FirstIs(v, '.', 1);
    assert u[..2] == "02" && u[3..] == v && v[..1] == "3" && v[2..] == "4";
    OneDigit('0');
    OneDigit('3');
    OneDigit('4');
    assert "02"[..1] == "0" && DecValue("02") == DecValue("0") * 10 + 2;
    assert Octets("4", 1) == Groups([4]);
    assert Octets(v, 2) == Groups([3] + [4]);
    assert Octets(u, 3) == Groups([2] + [3, 4]);
  }

  lemma SideOfQuad(q: string, g: seq<nat>)
    requires Quad(q) == Groups(g) && |q| > 4 && ':' !in q
    ensures Side(q, true) == Groups(g) && LastPiece(q) == q
  {
    FirstIs(q, ':', |q|);
    OnePiece(q, |q|);
  }

  /** Behind a double colon every quad with a leading zero is such a literal. */
  lemma PadsAccepted(t: string, q: string, g: seq<nat>)
    requires t == "::" + q && Quad(q) == Groups(g) && |q| > 4 && ':' !in q && ']' !in q && '.' in q && Padded(q)
    ensures Literal("[" + t + "]", 1) == Accepted6(Zeros(6) + g, |t| + 2) && StrictMeaning(t) == NotGroups
  {
    SideOfQuad(q, g);
    MeansZeros(t, q, g);
    BracketsRead(t, Zeros(6) + g);
    assert t[2..] == q;
    LastPieceBehind(t, 1);
    StrictExact(t);
  }

  lemma MeansZeros(t: string, q: string, g: seq<nat>)
    requires t == "::" + q && Side(q, true) == Groups(g) && |g| == 2
    ensures Meaning(t) == Groups(Zeros(6) + g)
  {
    MeaningFilled("", q, [], g);
    assert "" + "::" + q == t;
    assert [] + Zeros(6) + g == Zeros(6) + g;
  }

  lemma PaddedText(q: string)
    requires q == "1.02.3.4"
    ensures |q| == 8 && ':' !in q && ']' !in q && '.' in q && Padded(q)
  {
    assert q[1] == '.' && PadAt(q, 2);
  }

  /** The reader accepts this literal, which the grammar does not have. */
  lemma PaddedIsAccepted(t: string, q: string)
    requires t == "::" + q && q == "1.02.3.4"
    ensures Literal("[" + t + "]", 1) == Accepted6(Zeros(6) + [258, 772], 12) && StrictMeaning(t) == NotGroups
  {
    PaddedQuad();
    PaddedText(q);
    PadsAccepted(t, q, [258, 772]);
  }
}
