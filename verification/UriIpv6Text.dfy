/** The reader of IPv6 literals and the printer of URI::build, proved against the
    meaning of the text.  A text is followed by its terminator: position |b| reads as
    NUL, and no later position is ever read. */
module UriIpv6Text {
  import opened HttpScan
  import opened Digits
  import opened UriIpv6
  import opened UriIpv6Steps

  datatype Parsed = Accepted6(groups: seq<nat>, next: nat) | Rejected

  function At(b: string, i: nat): char
    requires i <= |b|
  {
    if i < |b| then b[i] else '\0'
  }

  /** The literal that starts at `from`, just past the opening bracket: what stands
      before the first closing bracket, and the position behind it. */
  function Literal(b: string, from: nat): (r: Parsed)
    requires from <= |b|
  {
    var e := from + First(b[from..], ']');
    if e == |b| then Rejected else Closed(Meaning(b[from..e]), e)
  }

  /** The bracket at `e` closes a literal that means `m`. */
  function Closed(m: Groups, e: nat): Parsed {
    match m
    case Groups(g) => Accepted6(g, e + 1)
    case NotGroups => Rejected
  }

  ghost predicate Delimits(b: string, from: nat, e: nat) {
    from <= e <= |b| && (e < |b| ==> b[e] == ']') && forall i :: from <= i < e ==> b[i] != ']'
  }

  // --------------------------------------------------------------------- reading

  /** A group of one to four hexadecimal digits, as many as there are; a group is refused
      when there is none or a fifth. */
  method ReadHexGroup(b: string, p: nat, ghost e: nat) returns (ok: bool, value: nat, q: nat)
    requires Delimits(b, p, e)
    ensures p <= q <= e
    ensures ok ==> HexRun(b[p..e], q - p) && IsHexGroup(b[p..q]) && value == HexValue(b[p..q]) < 0x1_0000
    ensures !ok && p < e ==> BadGroup(b[p..e], q - p)
  {
    value, q := 0, p;
    while IsHexDigit(At(b, q))
      invariant p <= q <= e && q - p <= 4
      invariant HexSoFar(b[p..q], value)
      decreases e - q
    {
      HexSoFarGrows(b[p..q], value, b[q]);
      assert b[p..q + 1] == b[p..q] + [b[q]];
      value := value * 16 + HexOf(b[q]);
      q := q + 1;
      if q - p > 4 {
        RunTooLong(b, p, q, e, value);
        ok := false;
        return;
      }
    }
    RunEnds(b, p, q, e, value);
    ok := q != p;
  }

  lemma RunTooLong(b: string, p: nat, q: nat, e: nat, value: nat)
    requires p <= q <= e <= |b| && q - p > 4 && HexSoFar(b[p..q], value)
    ensures BadGroup(b[p..e], q - p)
  {
    assert b[p..e][..q - p] == b[p..q];
  }

  lemma RunEnds(b: string, p: nat, q: nat, e: nat, value: nat)
    requires p <= q <= e <= |b| && q - p <= 4 && HexSoFar(b[p..q], value) && !IsHexDigit(At(b, q))
    ensures HexRun(b[p..e], q - p) && (p < q ==> IsHexGroup(b[p..q])) && value < 0x1_0000
    ensures p == q < e ==> BadGroup(b[p..e], 0)
  {
    assert b[p..e][..q - p] == b[p..q];
    assert q < e ==> b[p..e][q - p] == b[q];
  }

  /** The digits read so far and their value; four digits are sixteen bits. */
  ghost predicate HexSoFar(t: string, value: nat) {
    AllHex(t) && value == HexValue(t)
    && (t == "" ==> value == 0) && (|t| <= 1 ==> value < 16) && (|t| <= 2 ==> value < 256)
    && (|t| <= 3 ==> value < 4096) && (|t| <= 4 ==> value < 0x1_0000)
  }

  lemma {:induction false} HexSoFarGrows(t: string, value: nat, c: char)
    requires HexSoFar(t, value) && IsHexDigit(c)
    ensures HexSoFar(t + [c], value * 16 + HexOf(c))
  {
    assert (t + [c])[..|t|] == t;
  }

  /** An octet of one to three digits. */
  method ReadOctet(b: string, p: nat, ghost e: nat) returns (ok: bool, octet: nat, q: nat)
    requires Delimits(b, p, e)
    ensures p <= q <= e
    ensures ok ==> DigitRun(b[p..e], q - p) && IsOctet(b[p..q]) && octet == DecValue(b[p..q])
    ensures !ok ==> forall n: nat :: n >= 1 ==> Octets(b[p..e], n) == NotGroups
  {
    octet, q := 0, p;
    while IsDigit(At(b, q))
      invariant p <= q <= e && q - p <= 3
      invariant DecSoFar(b[p..q], octet)
      decreases e - q
    {
      DecSoFarGrows(b[p..q], octet, b[q]);
      assert b[p..q + 1] == b[p..q] + [b[q]];
      octet := octet * 10 + DigitOf(b[q]);
      q := q + 1;
      if q - p > 3 {
        FourDigits(b[p..e], b[p..q]);
        ok := false;
        return;
      }
    }
    ok := q != p && octet <= 255;
    OctetText(b[p..e], b[p..q]);
  }

  ghost predicate DecSoFar(t: string, value: nat) { AllDigits(t) && value == DecValue(t) }

  lemma {:induction false} DecSoFarGrows(t: string, value: nat, c: char)
    requires DecSoFar(t, value) && IsDigit(c)
    ensures DecSoFar(t + [c], value * 10 + DigitOf(c))
  {
    assert (t + [c])[..|t|] == t;
  }

  lemma {:induction false} FourDigits(t: string, x: string)
    requires |x| == 4 && x <= t && AllDigits(x)
    ensures forall n: nat :: n >= 1 ==> Octets(t, n) == NotGroups
  {
    assert t[..4] == x;
    forall n: nat | n >= 1 ensures Octets(t, n) == NotGroups {
      LongOctet(t, n);
    }
  }

  lemma {:induction false} OctetText(t: string, x: string)
    requires x <= t && AllDigits(x) && (|x| < |t| ==> !IsDigit(t[|x|]))
    ensures DigitRun(t, |x|)
    ensures !IsOctet(x) ==> forall n: nat :: n >= 1 ==> Octets(t, n) == NotGroups
  {
    assert t[..|x|] == x;
    if !IsOctet(x) {
      forall n: nat | n >= 1 ensures Octets(t, n) == NotGroups {
        OctetsStep(t, n, |x|);
      }
    }
  }

  lemma PrependNothing(r: Groups)
    ensures Prepend([], r) == r
  {
    if r.Groups? { assert [] + r.groups == r.groups; }
  }

  lemma PrependTwice(x: seq<nat>, y: seq<nat>, r: Groups)
    ensures Prepend(x, Prepend(y, r)) == Prepend(x + y, r)
  {
    if r.Groups? { assert x + (y + r.groups) == (x + y) + r.groups; }
  }

  lemma {:induction false} OctetTaken(t: string, x: string, rest: string, due: nat, before: seq<nat>)
    requires due >= 1 && x <= t && DigitRun(t, |x|) && IsOctet(x) && rest == t[|x|..]
    ensures Prepend(before, Octets(t, due)) == Prepend(before + [DecValue(x)], AfterOctet(rest, due - 1))
  {
    assert t[..|x|] == x;
    OctetsStep(t, due, |x|);
    PrependTwice(before, [DecValue(x)], AfterOctet(rest, due - 1));
  }

  /** One octet of a quad, behind a dot unless it is the first; `all` is what the octets
      before it and the text from `p` on make together. */
  method NextOctet(b: string, p: nat, ghost e: nat, first: bool, ghost due: nat, ghost before: seq<nat>, ghost all: Groups)
    returns (ok: bool, octet: nat, q: nat)
    requires Delimits(b, p, e) && due >= 1
    requires all == Prepend(before, if first then Octets(b[p..e], due) else AfterOctet(b[p..e], due))
    ensures p <= q <= e
    ensures if ok then all == Prepend(before + [octet], AfterOctet(b[q..e], due - 1)) else all == NotGroups
  {
    var start := p;
    if !first {
      if At(b, p) != '.' {
        return false, 0, p;
      }
      start := p + 1;
      assert b[p..e][1..] == b[start..e];
    }
    assert all == Prepend(before, Octets(b[start..e], due));
    ok, octet, q := TakeOctet(b, start, e, due, before, all);
  }

  method TakeOctet(b: string, p: nat, ghost e: nat, ghost due: nat, ghost before: seq<nat>, ghost all: Groups)
    returns (ok: bool, octet: nat, q: nat)
    requires Delimits(b, p, e) && due >= 1 && all == Prepend(before, Octets(b[p..e], due))
    ensures p <= q <= e
    ensures if ok then all == Prepend(before + [octet], AfterOctet(b[q..e], due - 1)) else all == NotGroups
  {
    ok, octet, q := ReadOctet(b, p, e);
    if ok {
      OctetTaken(b[p..e], b[p..q], b[q..e], due, before);
    }
  }

  method ReadOctets(b: string, p: nat, ghost e: nat, ghost all: Groups) returns (ok: bool, octets: seq<nat>, q: nat)
    requires Delimits(b, p, e) && all == Prepend([], Octets(b[p..e], 4))
    ensures p <= q <= e
    ensures if ok then |octets| == 4 && all == Prepend(octets, AfterOctet(b[q..e], 0)) else all == NotGroups
  {
    octets, q, ok := [], p, true;
    var i := 0;
    while i < 4
      invariant 0 <= i <= 4 && |octets| == i && p <= q <= e && ok
      invariant all == Prepend(octets, if i == 0 then Octets(b[q..e], 4) else AfterOctet(b[q..e], 4 - i))
    {
      var octet;
      ok, octet, q := NextOctet(b, q, e, i == 0, 4 - i, octets, all);
      if !ok {
        return;
      }
      octets := octets + [octet];
      i := i + 1;
    }
  }

  method ReadQuad(b: string, p: nat, ghost e: nat) returns (ok: bool, quad: seq<nat>, q: nat)
    requires Delimits(b, p, e)
    ensures ok <==> e < |b| && Quad(b[p..e]).Groups?
    ensures ok ==> q == e && Quad(b[p..e]) == Groups(quad)
  {
    quad := [];
    PrependNothing(Octets(b[p..e], 4));
    var octets;
    ok, octets, q := ReadOctets(b, p, e, Octets(b[p..e], 4));
    if ok {
      ok := At(b, q) == ']';
      if ok {
        quad := [octets[0] * 256 + octets[1], octets[2] * 256 + octets[3]];
      }
    }
  }

  /** The groups read so far and whether the double colon was seen. */
  ghost predicate Reading(b: string, p: nat, e: nat, head: seq<nat>, tail: seq<nat>, compressed: bool) {
    Delimits(b, p, e) && |head| + |tail| <= 8 && (!compressed ==> tail == [] && (p < e ==> b[p] != ':'))
  }

  /** `part` joins the groups on the side that is being read. */
  ghost function Joined(t: string, head: seq<nat>, tail: seq<nat>, compressed: bool, part: seq<nat>, double: bool): Groups {
    if compressed then Rest(t, head, tail + part, true) else Rest(t, head + part, tail, double)
  }

  /** The separator behind a group: `q` moves past it, `double` when it is the double
      colon. */
  method ReadSeparator(b: string, p: nat, q: nat, ghost e: nat, compressed: bool, ghost head: seq<nat>, ghost tail: seq<nat>)
    returns (ok: bool, next: nat, double: bool)
    requires Reading(b, p, e, head, tail, compressed) && p < q <= e
    requires HexRun(b[p..e], q - p) && IsHexGroup(b[p..q]) && At(b, q) != '.'
    ensures ok ==> q <= next <= e && (double ==> !compressed)
    ensures ok && !compressed && !double && next < e ==> b[next] != ':'
    ensures ok && e < |b| ==>
            Rest(b[p..e], head, tail, compressed) == Joined(b[next..e], head, tail, compressed, [HexValue(b[p..q])], double)
    ensures !ok && e < |b| ==> Rest(b[p..e], head, tail, compressed) == NotGroups
  {
    ghost var t, r := b[p..e], q - p;
    assert t[..r] == b[p..q];
    assert q < e ==> t[r] == b[q];
    ok, next, double := false, q, false;
    if At(b, q) == ':' {
      assert q + 1 < e ==> t[r + 1] == b[q + 1];
      if At(b, q + 1) == ':' {
        if compressed {
          RestStray(t, r, head, tail, compressed);
        } else {
          RestDouble(t, r, head);
          ok, next, double := true, q + 2, true;
          assert t[r + 2..] == b[next..e];
        }
      } else if !IsHexDigit(At(b, q + 1)) {
        RestStray(t, r, head, tail, compressed);
      } else {
        RestNext(t, r, head, tail, compressed);
        ok, next := true, q + 1;
        assert t[r + 1..] == b[next..e];
      }
    } else if At(b, q) != ']' {
      if q < e { RestBad(t, r, head, tail, compressed); }
    } else {
      ok := true;
      assert q == e && t[..r] == t && b[next..e] == "";
      RestLast(t, head, tail, compressed);
    }
  }

  /** One turn of the reading loop: a group and its separator, or a closing quad. */
  method ReadPart(b: string, p: nat, ghost e: nat, count: nat, compressed: bool, ghost head: seq<nat>, ghost tail: seq<nat>)
    returns (ok: bool, part: seq<nat>, next: nat, double: bool)
    requires Reading(b, p, e, head, tail, compressed) && count == |head| + |tail| && At(b, p) != ']'
    ensures ok ==> p < next <= e && (double ==> !compressed) && Words(part) && count + |part| <= 8
    ensures ok && !compressed && !double && next < e ==> b[next] != ':'
    ensures ok && e < |b| ==> Rest(b[p..e], head, tail, compressed) == Joined(b[next..e], head, tail, compressed, part, double)
    ensures !ok && e < |b| ==> Rest(b[p..e], head, tail, compressed) == NotGroups
  {
    ghost var t := b[p..e];
    assert e < |b| ==> p < e && t[0] == b[p];
    part, next, double := [], p, false;
    if count == 8 {
      if e < |b| { RestFull(t, head, tail, compressed); }
      return false, part, next, double;
    }
    var value, q;
    ok, value, q := ReadHexGroup(b, p, e);
    if !ok {
      if e < |b| { RestBad(t, q - p, head, tail, compressed); }
      return;
    }
    if At(b, q) == '.' {
      assert t[q - p] == '.';
      RestDotted(t, q - p, head, tail, compressed);
      ok, part, next := ReadQuad(b, p, e);
      if ok {
        assert b[next..e] == "";
        if count > 6 {
          ok := false;
          QuadTooMany(head, tail, compressed, part);
        }
      }
    } else {
      part := [value];
      ok, next, double := ReadSeparator(b, p, q, e, compressed, head, tail);
    }
  }

  lemma QuadTooMany(head: seq<nat>, tail: seq<nat>, compressed: bool, quad: seq<nat>)
    requires |head| + |tail| > 6 && |quad| == 2 && (!compressed ==> tail == [])
    ensures Joined("", head, tail, compressed, quad, false) == NotGroups
  {
  }

  /** The tail groups move to the end of the eight, over the zeros of the buffer. */
  method PlaceTail(groups: array<nat>, headCount: nat, tail: array<nat>, tailCount: nat)
    requires groups.Length == tail.Length == 8 && groups != tail && headCount + tailCount <= 8
    requires groups[headCount..] == Zeros(8 - headCount)
    modifies groups
    ensures groups[..] == old(groups[..headCount]) + Zeros(8 - headCount - tailCount) + tail[..tailCount]
  {
    assert forall k :: headCount <= k < 8 ==> groups[k] == groups[headCount..][k - headCount];
    var i := 0;
    while i < tailCount
      invariant 0 <= i <= tailCount
      invariant forall k :: 0 <= k < 8 - tailCount ==> groups[k] == old(groups[k])
      invariant forall k :: 0 <= k < i ==> groups[8 - tailCount + k] == tail[k]
    {
      groups[8 - tailCount + i] := tail[i];
      i := i + 1;
    }
  }

  method Store(buffer: array<nat>, count: nat, part: seq<nat>)
    requires count + |part| <= buffer.Length
    modifies buffer
    ensures buffer[..count + |part|] == old(buffer[..count]) + part
    ensures buffer[count + |part|..] == old(buffer[count + |part|..])
  {
    var i := 0;
    while i < |part|
      invariant 0 <= i <= |part|
      invariant buffer[..count + i] == old(buffer[..count]) + part[..i]
      invariant forall k :: count + i <= k < buffer.Length ==> buffer[k] == old(buffer[k])
    {
      buffer[count + i] := part[i];
      i := i + 1;
      assert buffer[..count + i] == buffer[..count + i - 1] + [part[i - 1]];
    }
  }

  /** The groups just read go behind those of the side that is being read. */
  method Keep(groups: array<nat>, headCount: nat, tail: array<nat>, tailCount: nat, compressed: bool, part: seq<nat>)
    returns (heads: nat, tails: nat)
    requires groups.Length == tail.Length == 8 && groups != tail && headCount + tailCount + |part| <= 8
    requires groups[headCount..] == Zeros(8 - headCount)
    modifies groups, tail
    ensures heads + tails == headCount + tailCount + |part|
    ensures groups[heads..] == Zeros(8 - heads)
    ensures groups[..heads] == old(groups[..headCount]) + (if compressed then [] else part)
    ensures tail[..tails] == old(tail[..tailCount]) + (if compressed then part else [])
  {
    heads, tails := headCount, tailCount;
    if compressed {
      Store(tail, tailCount, part);
      tails := tailCount + |part|;
    } else {
      ghost var zeros := groups[headCount..];
      assert groups[headCount + |part|..] == zeros[|part|..] == Zeros(8 - headCount - |part|);
      Store(groups, headCount, part);
      heads := headCount + |part|;
    }
  }

  /** The reading loop: from `from` up to the closing bracket. */
  method CollectGroups(b: string, from: nat, ghost e: nat, groups: array<nat>, tail: array<nat>, started: bool)
    returns (ok: bool, headCount: nat, tailCount: nat, compressed: bool, p: nat)
    requires Reading(b, from, e, [], [], started)
    requires groups.Length == tail.Length == 8 && groups != tail && groups[..] == Zeros(8)
    modifies groups, tail
    ensures headCount + tailCount <= 8
    ensures ok ==> p == e < |b| && groups[headCount..] == Zeros(8 - headCount) && (!compressed ==> tailCount == 0)
    ensures ok ==> Rest(b[from..e], [], [], started) == Rest("", groups[..headCount], tail[..tailCount], compressed)
    ensures !ok && e < |b| ==> Rest(b[from..e], [], [], started) == NotGroups
  {
    headCount, tailCount, compressed, p := 0, 0, started, from;
    ghost var head, after: seq<nat> := [], [];
    ghost var all := Rest(b[from..e], [], [], started);
    while At(b, p) != ']'
      invariant from <= p <= e && headCount + tailCount <= 8
      invariant head == groups[..headCount] && after == tail[..tailCount]
      invariant Reading(b, p, e, head, after, compressed)
      invariant groups[headCount..] == Zeros(8 - headCount)
      invariant e < |b| ==> all == Rest(b[p..e], head, after, compressed)
      decreases e - p
    {
      var part, next, double;
      ok, part, next, double := ReadPart(b, p, e, headCount + tailCount, compressed, head, after);
      if !ok {
        return;
      }
      headCount, tailCount := Keep(groups, headCount, tail, tailCount, compressed, part);
      JoinedNow(b[next..e], head, after, compressed, part, double);
      head := if compressed then head else head + part;
      after := if compressed then after + part else after;
      compressed := compressed || double;
      p := next;
    }
    ok := true;
    assert b[p..e] == "";
  }

  lemma JoinedNow(t: string, head: seq<nat>, tail: seq<nat>, compressed: bool, part: seq<nat>, double: bool)
    requires double ==> !compressed
    ensures Joined(t, head, tail, compressed, part, double)
         == Rest(t, if compressed then head else head + part, if compressed then tail + part else tail, compressed || double)
    ensures head + [] == head && tail + [] == tail
  {
  }

  lemma RestEnds(head: seq<nat>, tail: seq<nat>, compressed: bool)
    requires !compressed ==> tail == []
    ensures Rest("", head, tail, compressed) ==
            if compressed then Filled(head, tail) else Whole(head)
  {
    assert head + [] == head && tail + [] == tail;
  }

  /** The last check and the placement of the tail. */
  method Finish(groups: array<nat>, headCount: nat, tail: array<nat>, tailCount: nat, compressed: bool) returns (r: Groups)
    requires groups.Length == tail.Length == 8 && groups != tail && headCount + tailCount <= 8
    requires groups[headCount..] == Zeros(8 - headCount) && (!compressed ==> tailCount == 0)
    modifies groups
    ensures r == old(Rest("", groups[..headCount], tail[..tailCount], compressed))
  {
    RestEnds(groups[..headCount], tail[..tailCount], compressed);
    if (if compressed then headCount + tailCount > 7 else headCount != 8) {
      return NotGroups;
    }
    PlaceTail(groups, headCount, tail, tailCount);
    r := Groups(groups[..]);
  }

  /** Everything after a leading double colon was looked for. */
  method ReadLiteral(b: string, from: nat, ghost e: nat, started: bool) returns (r: Groups, p: nat)
    requires Reading(b, from, e, [], [], started)
    ensures r.Groups? ==> p == e < |b|
    ensures r == if e < |b| then Rest(b[from..e], [], [], started) else NotGroups
  {
    var groups, tail := new nat[8](i => 0), new nat[8](i => 0);
    var ok, headCount, tailCount, compressed;
    ok, headCount, tailCount, compressed, p := CollectGroups(b, from, e, groups, tail, started);
    if !ok {
      return NotGroups, p;
    }
    r := Finish(groups, headCount, tail, tailCount, compressed);
  }

  lemma {:induction false} LiteralWithin(b: string, from: nat, e: nat, m: Groups)
    requires Delimits(b, from, e) && m == if e < |b| then Meaning(b[from..e]) else NotGroups
    ensures Literal(b, from) == Closed(m, e)
  {
    BracketAt(b, from, e);
  }

  lemma {:induction false} BracketAt(b: string, from: nat, e: nat)
    requires Delimits(b, from, e)
    ensures from + First(b[from..], ']') == e
  {
    var t := b[from..];
    assert forall i :: 0 <= i < |t| ==> t[i] == b[from + i];
    FirstIs(t, ']', e - from);
  }

  method ReadWithin(b: string, from: nat, ghost e: nat) returns (r: Groups, p: nat)
    requires Delimits(b, from, e)
    ensures r.Groups? ==> p == e < |b|
    ensures r == if e < |b| then Meaning(b[from..e]) else NotGroups
  {
    var compressed := false;
    p := from;
    ghost var t := b[from..e];
    RestStarts(t);
    if At(b, p) == ':' {
      assert from + 1 < e ==> t[1] == b[from + 1];
      if At(b, p + 1) != ':' {
        return NotGroups, p;
      }
      p, compressed := p + 2, true;
      assert b[p..e] == t[2..];
    }
    r, p := ReadLiteral(b, p, e, compressed);
  }

  /** Reads the literal that starts just past the opening bracket: accepts it exactly
      when the text up to the first closing bracket has a meaning, with those groups. */
  method ParseIpLiteral(b: string, from: nat) returns (r: Parsed)
    requires from <= |b|
    ensures r == Literal(b, from)
  {
    ghost var e := from + First(b[from..], ']');
    assert forall i :: from <= i < |b| ==> b[i] == b[from..][i - from];
    var groups, p := ReadWithin(b, from, e);
    LiteralWithin(b, from, e, groups);
    r := if groups.Groups? then Accepted6(groups.groups, p + 1) else Rejected;
  }

  // -------------------------------------------------------------------- printing

  /** The best among the runs that start before `i`. */
  ghost predicate BestBefore(g: seq<nat>, i: nat, start: int, size: nat) {
    && (if start < 0 then start == -1 && size == 1 else start < i && size >= 2 && ZeroRun(g, start, size))
    && forall s: nat, n: nat | ZeroRun(g, s, n) && s < i :: n < size || (n == size && start <= s)
  }

  method RunEnd(g: seq<nat>, i: nat) returns (j: nat)
    requires i < |g| && g[i] == 0
    ensures i < j <= |g| && ZeroRun(g, i, j - i) && (j < |g| ==> g[j] != 0)
  {
    j := i;
    while j < |g| && g[j] == 0
      invariant i <= j <= |g| && ZeroRun(g, i, j - i)
    {
      j := j + 1;
    }
  }

  lemma RunInside(g: seq<nat>, i: nat, j: nat, s: nat, n: nat)
    requires i <= s < j <= |g| && (j < |g| ==> g[j] != 0) && ZeroRun(g, s, n)
    ensures s + n <= j
  {
  }

  method LongestZeroRun(g: seq<nat>) returns (start: int, size: nat)
    ensures BestRun(g, start, size) && (start < 0 ==> size == 1)
  {
    start, size := -1, 1;
    var i := 0;
    while i < |g|
      invariant 0 <= i <= |g| && BestBefore(g, i, start, size)
    {
      if g[i] != 0 {
        assert forall n: nat | ZeroRun(g, i, n) :: n > 0 ==> g[i] == 0;
        i := i + 1;
      } else {
        var j := RunEnd(g, i);
        forall s: nat, n: nat | ZeroRun(g, s, n) && i <= s < j ensures s + n <= j {
          RunInside(g, i, j, s, n);
        }
        if j - i > size {
          start, size := i, j - i;
        }
        i := j;
      }
    }
    forall s: nat, n: nat | ZeroRun(g, s, n) ensures n < size || (n == size && start <= s) {
      if s == |g| { assert n == 0; }
    }
  }

  /** What is left of a group when its last `digits` hexadecimal digits are shifted out. */
  function Shifted(v: nat, digits: nat): (r: nat)
    ensures digits == 0 ==> r == v
  {
    if digits == 0 then v else Shifted(v, digits - 1) / 16
  }

  lemma SixteenBits(v: nat)
    requires v < 0x1_0000
    ensures Shifted(v, 4) == 0
  {
    assert Shifted(v, 1) == v / 16 && Shifted(v, 2) == v / 16 / 16;
    assert Shifted(v, 3) < 16;
  }

  method WriteDigits(v: nat, top: nat) returns (text: string)
    requires Shifted(v, top + 1) == 0 && (top > 0 ==> Shifted(v, top) != 0)
    ensures text == GroupText(v)
  {
    text := "";
    if v == 0 { ZeroShifts(v, top); }
    var k: int := top;
    while k >= 0
      invariant -1 <= k <= top
      invariant text == if v == 0 && k < 0 then "0" else Significant(Shifted(v, k + 1))
      invariant v == 0 ==> top == 0
      invariant k >= 0 && v != 0 ==> Shifted(v, k) != 0
    {
      text := text + [HexDigit(Shifted(v, k) % 16)];
      k := k - 1;
    }
  }

  lemma ZeroShifts(v: nat, digits: nat)
    requires v == 0
    ensures Shifted(v, digits) == 0
  {
  }

  method PrintGroup(v: nat) returns (text: string)
    requires v < 0x1_0000
    ensures text == GroupText(v)
  {
    SixteenBits(v);
    var k := 3;
    while k > 0 && Shifted(v, k) % 16 == 0
      invariant 0 <= k <= 3 && Shifted(v, k + 1) == 0
    {
      k := k - 1;
    }
    text := WriteDigits(v, k);
  }

  /** A list of groups with the colon that announces the next one. */
  ghost function Announced(g: seq<nat>, more: bool): string {
    Listed(g) + (if g != [] && more then ":" else "")
  }

  lemma {:induction false} ListedGrows(g: seq<nat>, v: nat)
    ensures Listed(g + [v]) == Listed(g) + (if g == [] then "" else ":") + GroupText(v)
  {
    var t := g + [v];
    if g == [] {
      assert t == [v];
    } else {
      ListedGrows(g[1..], v);
      assert t[0] == g[0] && t[1..] == g[1..] + [v];
      if |g| == 1 {
        assert g[1..] == [];
      } else {
        Reassociate(GroupText(g[0]) + ":", Listed(g[1..]), ":", GroupText(v));
      }
    }
  }

  lemma Reassociate(a: string, b: string, c: string, d: string)
    ensures a + (b + c + d) == (a + b) + c + d
  {
  }

  lemma {:induction false} AnnouncedGrows(g: seq<nat>, v: nat, more: bool)
    ensures Announced(g + [v], more) == Announced(g, true) + GroupText(v) + (if more then ":" else "")
  {
    ListedGrows(g, v);
  }

  /** The text once the groups before `i` are printed; no colon is written before the
      double colon. */
  ghost function Printed(g: seq<nat>, i: nat, start: int, size: nat): string
    requires i <= |g| && (start >= 0 ==> start + size <= |g| && size >= 1 && (i <= start || start + size <= i))
  {
    if start < 0 || i <= start then Announced(g[..i], i < |g| && i != start)
    else Listed(g[..start]) + "::" + Announced(g[start + size..i], i < |g|)
  }

  lemma {:induction false} PrintedGroup(g: seq<nat>, i: nat, start: int, size: nat)
    requires i < |g| && i != start && (start >= 0 ==> start + size <= |g| && size >= 1 && (i < start || start + size <= i))
    ensures Printed(g, i + 1, start, size)
         == Printed(g, i, start, size) + GroupText(g[i]) + (if i + 1 < |g| && i + 1 != start then ":" else "")
  {
    var more := i + 1 < |g| && i + 1 != start;
    if start < 0 || i < start {
      AnnouncedGrows(g[..i], g[i], more);
      assert g[..i] + [g[i]] == g[..i + 1];
    } else {
      AfterDoubleGrows(Listed(g[..start]) + "::", g[start + size..i], g[i], more, g[start + size..i + 1]);
    }
  }

  lemma {:induction false} AfterDoubleGrows(before: string, done: seq<nat>, v: nat, more: bool, now: seq<nat>)
    requires now == done + [v]
    ensures before + Announced(now, more) == before + Announced(done, true) + GroupText(v) + (if more then ":" else "")
  {
    AnnouncedGrows(done, v, more);
    Reassociate(before, Announced(done, true), GroupText(v), if more then ":" else "");
  }

  lemma {:induction false} PrintedDouble(g: seq<nat>, start: nat, size: nat)
    requires start + size <= |g| && size >= 1
    ensures Printed(g, start + size, start, size) == Printed(g, start, start, size) + ":" + ":"
  {
    assert g[start + size..start + size] == [];
    assert Listed(g[..start]) + "::" == Listed(g[..start]) + ":" + ":";
  }

  lemma {:induction false} PrintedAll(g: seq<nat>, start: int, size: nat)
    requires start >= 0 ==> start + size <= |g| && size >= 1
    ensures Printed(g, |g|, start, size) == Shown(g, start, size)
  {
    assert g[..|g|] == g;
    if start >= 0 { assert g[start + size..|g|] == g[start + size..]; }
  }

  method PrintGroups(g: seq<nat>, start: int, size: nat) returns (text: string)
    requires |g| == 8 && Words(g) && (start >= 0 ==> start + size <= 8 && size >= 1)
    ensures text == Shown(g, start, size)
  {
    text := "";
    var i := 0;
    while i < 8
      invariant 0 <= i <= 8 && (start >= 0 ==> i <= start || start + size <= i)
      invariant text == Printed(g, i, start, size)
    {
      if i == start {
        PrintedDouble(g, start, size);
        text := text + ":" + ":";
        i := i + size;
      } else {
        text := PrintNext(g, i, start, size, text);
        i := i + 1;
      }
    }
    PrintedAll(g, start, size);
  }

  /** One group and the colon that announces the next one. */
  method PrintNext(g: seq<nat>, i: nat, start: int, size: nat, before: string) returns (text: string)
    requires i < |g| == 8 && Words(g) && i != start
    requires start >= 0 ==> start + size <= |g| && size >= 1 && (i < start || start + size <= i)
    requires before == Printed(g, i, start, size)
    ensures text == Printed(g, i + 1, start, size)
  {
    var group := PrintGroup(g[i]);
    text := before + group;
    if i + 1 < 8 && i + 1 != start {
      text := text + ":";
    }
    PrintedGroup(g, i, start, size);
  }

  /** A text in brackets is read from behind the opening one to its end. */
  lemma {:induction false} BracketsRead(text: string, g: seq<nat>)
    requires ']' !in text && Meaning(text) == Groups(g)
    ensures Literal("[" + text + "]", 1) == Accepted6(g, |text| + 2)
  {
    var out := "[" + text + "]";
    assert out[1..] == text + "]";
    assert (text + "]")[..|text|] == text;
    FirstIs(text + "]", ']', |text|);
    assert out[1..1 + |text|] == text;
  }

  /** For all eight 16-bit groups, reading the printed literal returns the same groups
      and ends where the text ends. */
  lemma {:induction false} PrintedReadsBack(g: seq<nat>, start: int, size: nat)
    requires |g| == 8 && Words(g) && BestRun(g, start, size)
    ensures Literal("[" + Shown(g, start, size) + "]", 1) == Accepted6(g, |Shown(g, start, size)| + 2)
  {
    ShownMeans(g, start, size);
    NoBracketInside(g, start, size);
    BracketsRead(Shown(g, start, size), g);
  }

  ghost predicate IsPrinted(g: seq<nat>, out: string) {
    exists start, size: nat :: BestRun(g, start, size) && out == "[" + Shown(g, start, size) + "]"
  }

  /** Prints the host of a URI: the best run of zero groups becomes the double colon, and
      reading the text back from behind the bracket gives the groups again. */
  method BuildIpLiteral(g: seq<nat>) returns (out: string)
    requires |g| == 8 && Words(g)
    ensures IsPrinted(g, out)
    ensures |out| >= 1 && Literal(out, 1) == Accepted6(g, |out|)
  {
    var start, size := LongestZeroRun(g);
    var text := PrintGroups(g, start, size);
    out := "[" + text + "]";
    PrintedReadsBack(g, start, size);
  }
}
