/** What an IPv6 literal means (section 3.2.2 of RFC 3986), independent of how it is
    read: the text between the brackets is split at its first double colon, each side
    is a colon-separated list of groups, and the last group of all may be a dotted
    quad.  Also the text that URI::build prints (section 4 of RFC 5952), and that it
    means the groups it was printed from. */
module UriIpv6 {
  import opened Digits

  datatype Groups = Groups(groups: seq<nat>) | NotGroups

  ghost predicate Words(g: seq<nat>) { forall i :: 0 <= i < |g| ==> g[i] < 0x1_0000 }

  /** Position of the first `c`, or the length when there is none. */
  function First(t: string, c: char): (r: nat)
    ensures r <= |t| && (r < |t| ==> t[r] == c)
    ensures forall i :: 0 <= i < r ==> t[i] != c
  {
    if t == "" || t[0] == c then 0 else 1 + First(t[1..], c)
  }

  /** Position of the first double colon, or the length when there is none. */
  function FirstDouble(t: string): (r: nat)
    ensures r == |t| || (r + 2 <= |t| && t[r] == ':' && t[r + 1] == ':')
  {
    if |t| < 2 then |t| else if t[0] == ':' && t[1] == ':' then 0 else 1 + FirstDouble(t[1..])
  }

  predicate IsHexGroup(t: string) { 1 <= |t| <= 4 && AllHex(t) }
  predicate IsOctet(t: string) { 1 <= |t| <= 3 && AllDigits(t) && DecValue(t) <= 255 }

  /** `n` octets with dots between them. */
  function Octets(t: string, n: nat): (r: Groups)
    requires n >= 1
    ensures r.Groups? ==> |r.groups| == n && forall i :: 0 <= i < n ==> r.groups[i] <= 255
  {
    if n == 1 then if IsOctet(t) then Groups([DecValue(t)]) else NotGroups
    else
      var k := First(t, '.');
      if k == |t| || !IsOctet(t[..k]) then NotGroups
      else match Octets(t[k + 1..], n - 1)
        case Groups(rest) => Groups([DecValue(t[..k])] + rest)
        case NotGroups => NotGroups
  }

  /** A dotted quad is two groups. */
  function Quad(t: string): (r: Groups)
    ensures r.Groups? ==> |r.groups| == 2 && Words(r.groups)
  {
    Paired(Octets(t, 4))
  }

  function Paired(octets: Groups): (r: Groups)
    requires octets.Groups? ==> |octets.groups| == 4
  {
    match octets
    case Groups(o) => Groups([o[0] * 256 + o[1], o[2] * 256 + o[3]])
    case NotGroups => NotGroups
  }

  /** The high and the low byte of a group. */
  ghost predicate Bytes(group: nat, high: nat, low: nat) { group < 0x1_0000 && group / 256 == high && group % 256 == low }

  function Dotted(a: string, b: string, c: string, d: string): string { a + ("." + (b + ("." + (c + ("." + d))))) }

  lemma OctetFirst(x: string, rest: string, n: nat)
    requires IsOctet(x) && n >= 1
    ensures Octets(x + ("." + rest), n + 1)
         == if Octets(rest, n).Groups? then Groups([DecValue(x)] + Octets(rest, n).groups) else NotGroups
  {
    var t := x + ("." + rest);
    var k := First(t, '.');
    assert t[|x|] == '.' && forall i :: 0 <= i < |x| ==> t[i] == x[i] != '.';
    assert k == |x|;
    assert t[..k] == x && t[k + 1..] == rest;
  }

  lemma InBytes(o: seq<nat>)
    requires |o| == 4 && forall i :: 0 <= i < 4 ==> o[i] <= 255
    ensures Bytes(o[0] * 256 + o[1], o[0], o[1]) && Bytes(o[2] * 256 + o[3], o[2], o[3])
  {
  }

  /** Four octets with dots between them stand for the two groups of those bytes, */
  lemma QuadWritten(a: string, b: string, c: string, d: string)
    requires IsOctet(a) && IsOctet(b) && IsOctet(c) && IsOctet(d)
    ensures var r := Quad(Dotted(a, b, c, d));
      && r.Groups? && Bytes(r.groups[0], DecValue(a), DecValue(b)) && Bytes(r.groups[1], DecValue(c), DecValue(d))
  {
    OctetFirst(c, d, 1);
    OctetFirst(b, c + ("." + d), 2);
    OctetFirst(a, b + ("." + (c + ("." + d))), 3);
    InBytes(Octets(Dotted(a, b, c, d), 4).groups);
  }

  lemma SplitsAtDot(t: string, n: nat)
    requires n >= 1 && Octets(t, n + 1).Groups?
    ensures var k := First(t, '.');
      k < |t| && IsOctet(t[..k]) && t == t[..k] + ("." + t[k + 1..]) && Octets(t[k + 1..], n).Groups?
  {
  }

  lemma TwoOctets(t: string) returns (c: string, d: string)
    requires Octets(t, 2).Groups?
    ensures IsOctet(c) && IsOctet(d) && t == c + ("." + d)
  {
    SplitsAtDot(t, 1);
    var k := First(t, '.');
    c, d := t[..k], t[k + 1..];
  }

  lemma ThreeOctets(t: string) returns (b: string, c: string, d: string)
    requires Octets(t, 3).Groups?
    ensures IsOctet(b) && IsOctet(c) && IsOctet(d) && t == b + ("." + (c + ("." + d)))
  {
    SplitsAtDot(t, 2);
    var k := First(t, '.');
    b := t[..k];
    c, d := TwoOctets(t[k + 1..]);
  }

  /** and nothing else is a dotted quad. */
  lemma QuadRead(t: string) returns (a: string, b: string, c: string, d: string)
    requires Quad(t).Groups?
    ensures IsOctet(a) && IsOctet(b) && IsOctet(c) && IsOctet(d) && t == Dotted(a, b, c, d)
  {
    SplitsAtDot(t, 3);
    var k := First(t, '.');
    a := t[..k];
    b, c, d := ThreeOctets(t[k + 1..]);
  }

  /** One or more groups with colons between them; the last may be a dotted quad where
      these groups end the literal. */
  function Parts(t: string, ends: bool): (r: Groups)
    ensures r.Groups? ==> |r.groups| >= 1
    decreases |t|
  {
    var k := First(t, ':');
    if k == |t| then
      if IsHexGroup(t) then Groups([HexValue(t)]) else if ends then Quad(t) else NotGroups
    else if !IsHexGroup(t[..k]) then NotGroups
    else match Parts(t[k + 1..], ends)
      case Groups(rest) => Groups([HexValue(t[..k])] + rest)
      case NotGroups => NotGroups
  }

  function Side(t: string, ends: bool): (r: Groups) {
    if t == "" then Groups([]) else Parts(t, ends)
  }

  function Zeros(n: nat): (r: seq<nat>)
    ensures |r| == n && forall i :: 0 <= i < n ==> r[i] == 0
  {
    seq(n, i => 0)
  }

  /** The groups on the two sides of a double colon, which stands for at least one
      zero group. */
  function Filled(left: seq<nat>, right: seq<nat>): (r: Groups)
    ensures r.Groups? ==> |r.groups| == 8
  {
    if |left| + |right| <= 7 then Groups(left + Zeros(8 - |left| - |right|) + right) else NotGroups
  }

  function Whole(g: seq<nat>): (r: Groups)
    ensures r.Groups? ==> |r.groups| == 8
  {
    if |g| == 8 then Groups(g) else NotGroups
  }

  function WholeSide(side: Groups): (r: Groups)
    ensures r.Groups? ==> |r.groups| == 8
  {
    match side
    case Groups(g) => Whole(g)
    case NotGroups => NotGroups
  }

  function FilledSides(left: Groups, right: Groups): (r: Groups)
    ensures r.Groups? ==> |r.groups| == 8
  {
    match (left, right)
    case (Groups(l), Groups(r)) => Filled(l, r)
    case _ => NotGroups
  }

  /** The eight groups that the text between the brackets stands for. */
  function Meaning(t: string): (r: Groups)
    ensures r.Groups? ==> |r.groups| == 8
  {
    var d := FirstDouble(t);
    if d == |t| then WholeSide(Side(t, true)) else FilledSides(Side(t[..d], false), Side(t[d + 2..], true))
  }

  // -------------------------------------------------------------------- printing

  /** Lower case, no leading zeros. */
  function GroupText(v: nat): (r: string)
    ensures AllHex(r) && r != "" && (|r| > 1 ==> r[0] != '0')
  {
    if v == 0 then "0" else Significant(v)
  }

  function Listed(g: seq<nat>): (r: string)
    ensures g == [] <==> r == ""
  {
    if g == [] then "" else if |g| == 1 then GroupText(g[0]) else GroupText(g[0]) + ":" + Listed(g[1..])
  }

  ghost predicate ZeroRun(g: seq<nat>, start: nat, size: nat) {
    start + size <= |g| && forall k :: start <= k < start + size ==> g[k] == 0
  }

  /** The run to compress: the longest run of two or more zero groups, the leftmost
      among equals; a start of -1 when there is none. */
  ghost predicate BestRun(g: seq<nat>, start: int, size: nat) {
    if start < 0 then
      start == -1 && forall i: nat, n: nat | ZeroRun(g, i, n) :: n <= 1
    else
      size >= 2 && ZeroRun(g, start, size) && forall i: nat, n: nat | ZeroRun(g, i, n) :: n < size || (n == size && start <= i)
  }

  function Shown(g: seq<nat>, start: int, size: nat): (r: string)
    requires start >= 0 ==> start + size <= |g|
  {
    if start < 0 then Listed(g) else Listed(g[..start]) + "::" + Listed(g[start + size..])
  }

  // ------------------------------------------------------------------- round trip

  lemma {:induction false} SignificantSize(v: nat, n: nat, bound: nat)
    requires v < bound && (n == 0 ==> bound == 1) && (n == 1 ==> bound == 16) && (n == 2 ==> bound == 256)
    requires (n == 3 ==> bound == 4096) && (n == 4 ==> bound == 0x1_0000) && n <= 4
    ensures |Significant(v)| <= n
  {
    if v != 0 {
      SignificantSize(v / 16, n - 1, if n == 1 then 1 else if n == 2 then 16 else if n == 3 then 256 else 4096);
    }
  }

  lemma GroupTextReads(v: nat)
    requires v < 0x1_0000
    ensures IsHexGroup(GroupText(v)) && HexValue(GroupText(v)) == v
    ensures ':' !in GroupText(v)
  {
    SignificantValue(v);
    SignificantSize(v, 4, 0x1_0000);
    assert HexValue("0") == HexValue("0"[..0]) * 16 + 0;
  }

  lemma {:induction false} FirstIs(t: string, c: char, k: nat)
    requires k <= |t| && c !in t[..k] && (k < |t| ==> t[k] == c)
    ensures First(t, c) == k
  {
    assert forall i :: 0 <= i < k ==> t[i] == t[..k][i];
  }

  lemma {:induction false} LastGroup(t: string, ends: bool)
    requires IsHexGroup(t)
    ensures Parts(t, ends) == Groups([HexValue(t)])
  {
    FirstIs(t, ':', |t|);
  }

  lemma {:induction false} GroupThenMore(x: string, rest: string, ends: bool)
    requires IsHexGroup(x) && ':' !in x && Parts(rest, ends).Groups?
    ensures Parts(x + ":" + rest, ends) == Groups([HexValue(x)] + Parts(rest, ends).groups)
  {
    var t := x + ":" + rest;
    assert t[..|x|] == x && t[|x| + 1..] == rest;
    FirstIs(t, ':', |x|);
  }

  lemma {:induction false} ListedReads(g: seq<nat>, ends: bool)
    requires Words(g) && g != []
    ensures Parts(Listed(g), ends) == Groups(g)
  {
    GroupTextReads(g[0]);
    assert g == [g[0]] + g[1..];
    if |g| == 1 {
      LastGroup(GroupText(g[0]), ends);
    } else {
      ListedReads(g[1..], ends);
      GroupThenMore(GroupText(g[0]), Listed(g[1..]), ends);
    }
  }

  /** A text with no double colon, and no colon at its end. */
  ghost predicate Single(t: string) {
    (forall i :: 0 <= i < |t| - 1 ==> !(t[i] == ':' && t[i + 1] == ':')) && (t != "" ==> t[|t| - 1] != ':')
  }

  lemma {:induction false} SingleJoined(x: string, rest: string)
    requires x != "" && ':' !in x && Single(rest) && rest != "" && rest[0] != ':'
    ensures Single(x + ":" + rest)
  {
    var t := x + ":" + rest;
    assert forall i :: 0 <= i < |x| ==> t[i] == x[i] && x[i] != ':';
    assert forall i :: |x| < i < |t| ==> t[i] == rest[i - |x| - 1];
  }

  lemma {:induction false} ListedSingle(g: seq<nat>)
    requires Words(g)
    ensures Single(Listed(g)) && (g != [] ==> Listed(g)[0] != ':')
  {
    if g != [] {
      GroupTextReads(g[0]);
      assert GroupText(g[0])[0] != ':';
      if |g| > 1 {
        ListedSingle(g[1..]);
        SingleJoined(GroupText(g[0]), Listed(g[1..]));
      }
    }
  }

  lemma {:induction false} SingleHasNoDouble(t: string)
    requires Single(t)
    ensures FirstDouble(t) == |t|
  {
    if |t| >= 2 {
      var u := t[1..];
      assert forall i :: 0 <= i < |u| ==> u[i] == t[i + 1];
      SingleHasNoDouble(u);
    }
  }

  lemma {:induction false} DoubleAfterSingle(t: string, rest: string)
    requires Single(t)
    ensures FirstDouble(t + "::" + rest) == |t|
  {
    var w := t + "::" + rest;
    if t == "" {
      assert w[0] == ':' && w[1] == ':';
    } else {
      var u := t[1..];
      assert forall i :: 0 <= i < |u| ==> u[i] == t[i + 1];
      assert w[0] == t[0] && (|t| > 1 ==> w[1] == t[1]);
      assert w[1..] == u + "::" + rest;
      DoubleAfterSingle(u, rest);
    }
  }

  lemma {:induction false} ListedSide(g: seq<nat>, ends: bool)
    requires Words(g)
    ensures Side(Listed(g), ends) == Groups(g)
  {
    if g != [] {
      ListedReads(g, ends);
    }
  }

  lemma {:induction false} MeaningWhole(t: string, g: seq<nat>)
    requires Single(t) && Side(t, true) == Groups(g)
    ensures Meaning(t) == Whole(g)
  {
    SingleHasNoDouble(t);
  }

  lemma {:induction false} MeaningFilled(t: string, u: string, left: seq<nat>, right: seq<nat>)
    requires Single(t) && Side(t, false) == Groups(left) && Side(u, true) == Groups(right)
    ensures Meaning(t + "::" + u) == Filled(left, right)
  {
    DoubleAfterSingle(t, u);
    var w := t + "::" + u;
    assert w[..|t|] == t && w[|t| + 2..] == u;
  }

  lemma {:induction false} ShownWithout(g: seq<nat>)
    requires |g| == 8 && Words(g)
    ensures Meaning(Listed(g)) == Groups(g)
  {
    ListedSingle(g);
    ListedSide(g, true);
    MeaningWhole(Listed(g), g);
  }

  lemma {:induction false} ShownWith(left: seq<nat>, right: seq<nat>)
    requires Words(left) && Words(right)
    ensures Meaning(Listed(left) + "::" + Listed(right)) == Filled(left, right)
  {
    ListedSingle(left);
    ListedSide(left, false);
    ListedSide(right, true);
    MeaningFilled(Listed(left), Listed(right), left, right);
  }

  lemma {:induction false} FilledBack(g: seq<nat>, start: nat, size: nat)
    requires |g| == 8 && size >= 1 && ZeroRun(g, start, size)
    ensures Filled(g[..start], g[start + size..]) == Groups(g)
  {
    assert g == g[..start] + Zeros(size) + g[start + size..];
  }

  /** The text printed for eight 16-bit groups means those groups; this holds of every
      run of zero groups that is replaced by the double colon, the best one included. */
  lemma {:induction false} ShownMeans(g: seq<nat>, start: int, size: nat)
    requires |g| == 8 && Words(g)
    requires start >= 0 ==> size >= 1 && ZeroRun(g, start, size)
    ensures Meaning(Shown(g, start, size)) == Groups(g)
  {
    if start < 0 {
      ShownWithout(g);
    } else {
      var left, right := g[..start], g[start + size..];
      assert Words(left) && Words(right);
      ShownWith(left, right);
      FilledBack(g, start, size);
    }
  }

  /** There is only one best run, so the printed text is determined by the groups. */
  lemma BestRunIsUnique(g: seq<nat>, i: int, n: nat, j: int, m: nat)
    requires BestRun(g, i, n) && BestRun(g, j, m)
    ensures i == j && (i >= 0 ==> n == m)
  {
  }

  lemma NoBracketInside(g: seq<nat>, start: int, size: nat)
    requires Words(g) && (start >= 0 ==> start + size <= |g|)
    ensures ']' !in Shown(g, start, size)
  {
    if start < 0 {
      NoBracketListed(g);
    } else {
      NoBracketListed(g[..start]);
      NoBracketListed(g[start + size..]);
    }
  }

  lemma {:induction false} NoBracketListed(g: seq<nat>)
    ensures ']' !in Listed(g)
  {
    if g != [] {
      assert ']' !in GroupText(g[0]);
      if |g| > 1 { NoBracketListed(g[1..]); }
    }
  }
}
