/** What is left of an IPv6 literal's meaning while it is read from left to right: the
    text not yet read together with the groups collected so far.  Each lemma is one turn
    of the reader. */
module UriIpv6Steps {
  import opened HttpScan
  import opened Digits
  import opened UriIpv6

  // ---------------------------------------------------------------- dotted quads

  /** `t` starts with exactly `r` digits. */
  ghost predicate DigitRun(t: string, r: nat) {
    r <= |t| && AllDigits(t[..r]) && (r < |t| ==> !IsDigit(t[r]))
  }

  function Prepend(g: seq<nat>, r: Groups): Groups {
    match r
    case Groups(rest) => Groups(g + rest)
    case NotGroups => NotGroups
  }

  /** What follows an octet when `n` more are due. */
  function AfterOctet(t: string, n: nat): Groups {
    if n == 0 then if t == "" then Groups([]) else NotGroups
    else if t != "" && t[0] == '.' then Octets(t[1..], n)
    else NotGroups
  }

  lemma {:induction false} OctetsStep(t: string, n: nat, r: nat)
    requires n >= 1 && DigitRun(t, r)
    ensures Octets(t, n) == if IsOctet(t[..r]) then Prepend([DecValue(t[..r])], AfterOctet(t[r..], n - 1)) else NotGroups
  {
    var k := First(t, '.');
    assert forall i :: 0 <= i < r ==> IsDigit(t[..r][i]) && t[..r][i] == t[i];
    if n == 1 {
      if r == |t| { assert t[..r] == t; }
    } else if r < |t| && t[r] == '.' {
      FirstIs(t, '.', r);
      assert t[r..][1..] == t[r + 1..];
    } else {
      if k < |t| {
        assert k > r;
        assert t[..k][r] == t[r];
      }
    }
  }

  /** Four digits are no octet. */
  lemma {:induction false} LongOctet(t: string, n: nat)
    requires n >= 1 && |t| >= 4 && AllDigits(t[..4])
    ensures Octets(t, n) == NotGroups
  {
    assert forall i :: 0 <= i < 4 ==> IsDigit(t[..4][i]) && t[..4][i] == t[i];
    assert First(t, '.') >= 4;
  }

  lemma {:induction false} OctetsHoldNoColon(t: string, n: nat)
    requires n >= 1 && Octets(t, n).Groups?
    ensures ':' !in t
  {
    if n > 1 {
      var k := First(t, '.');
      OctetsHoldNoColon(t[k + 1..], n - 1);
      assert t == t[..k] + [t[k]] + t[k + 1..];
    }
  }

  // ---------------------------------------------------------- one group of a list

  /** `t` starts with exactly `r` hexadecimal digits. */
  ghost predicate HexRun(t: string, r: nat) {
    r <= |t| && AllHex(t[..r]) && (r < |t| ==> !IsHexDigit(t[r]))
  }

  /** One to four digits and the byte `c` behind them. */
  ghost predicate GroupThen(t: string, r: nat, c: char) {
    HexRun(t, r) && 1 <= r <= 4 && r < |t| && t[r] == c
  }

  /** No list of groups starts like this: no digit, more than four, or digits followed
      by a byte that is neither a colon nor a dot. */
  ghost predicate BadGroup(t: string, r: nat) {
    r <= |t| && AllHex(t[..r]) && (r > 4 || (HexRun(t, r) && (r == 0 || (r < |t| && t[r] != ':' && t[r] != '.'))))
  }

  lemma {:induction false} HexPrefix(t: string, r: nat)
    requires r <= |t| && AllHex(t[..r])
    ensures forall i :: 0 <= i < r ==> IsHexDigit(t[i])
    ensures First(t, ':') >= r && First(t, '.') >= r && ':' !in t[..r]
  {
    assert forall i :: 0 <= i < r ==> IsHexDigit(t[..r][i]) && t[..r][i] == t[i];
  }

  lemma {:induction false} BadGroupFails(t: string, r: nat, ends: bool)
    requires BadGroup(t, r)
    ensures Parts(t, ends) == NotGroups
  {
    HexPrefix(t, r);
    var k := First(t, ':');
    assert !IsHexGroup(t[..k]) by {
      if 0 < r <= 4 {
        assert r < k;
        assert t[..k][r] == t[r];
      }
    }
    if k == |t| {
      assert t[..k] == t;
      BadQuad(t, r);
    }
  }

  lemma {:induction false} BadQuad(t: string, r: nat)
    requires BadGroup(t, r)
    ensures Quad(t) == NotGroups
  {
    HexPrefix(t, r);
    var k := First(t, '.');
    if k < |t| && 0 < r <= 4 {
      assert r < k;
      assert t[..k][r] == t[r];
    }
  }

  lemma {:induction false} DottedGroup(t: string, r: nat)
    requires GroupThen(t, r, '.')
    ensures Parts(t, true) == Quad(t)
    ensures Parts(t, false) == NotGroups
    ensures ':' in t ==> Quad(t) == NotGroups
  {
    HexPrefix(t, r);
    var k := First(t, ':');
    assert t[..k][r] == '.';
    assert !IsHexGroup(t[..k]);
    if k == |t| {
      assert t[..k] == t;
    }
    if Octets(t, 4).Groups? {
      OctetsHoldNoColon(t, 4);
    }
  }

  lemma {:induction false} NextGroup(t: string, r: nat, ends: bool)
    requires GroupThen(t, r, ':')
    ensures Parts(t, ends) == Prepend([HexValue(t[..r])], Parts(t[r + 1..], ends))
  {
    HexPrefix(t, r);
    FirstIs(t, ':', r);
  }

  // ------------------------------------------------------------ what is left to do

  function Ended(head: seq<nat>, side: Groups): (r: Groups)
    ensures r.Groups? ==> |r.groups| == 8
  {
    match side
    case Groups(g) => Whole(head + g)
    case NotGroups => NotGroups
  }

  function Split(head: seq<nat>, left: Groups, tail: seq<nat>, right: Groups): (r: Groups)
    ensures r.Groups? ==> |r.groups| == 8
  {
    match (left, right)
    case (Groups(g), Groups(h)) => Filled(head + g, tail + h)
    case _ => NotGroups
  }

  /** The meaning of the literal when `t` is still to be read, `head` and `tail` were
      collected before and after the double colon, and `compressed` says that it was
      seen. */
  function Rest(t: string, head: seq<nat>, tail: seq<nat>, compressed: bool): (r: Groups)
    ensures r.Groups? ==> |r.groups| == 8
  {
    var d := FirstDouble(t);
    if compressed then Split(head, Groups([]), tail, Side(t, true))
    else if d == |t| then Ended(head, Side(t, true))
    else Split(head, Side(t[..d], false), [], Side(t[d + 2..], true))
  }

  lemma {:induction false} PushedHead(head: seq<nat>, v: nat, side: Groups)
    ensures Ended(head, Prepend([v], side)) == Ended(head + [v], side)
    ensures forall right :: Split(head, Prepend([v], side), [], right) == Split(head + [v], side, [], right)
  {
    if side.Groups? {
      assert head + ([v] + side.groups) == (head + [v]) + side.groups;
    }
  }

  lemma {:induction false} PushedTail(head: seq<nat>, tail: seq<nat>, v: nat, side: Groups)
    ensures Split(head, Groups([]), tail, Prepend([v], side)) == Split(head, Groups([]), tail + [v], side)
  {
    if side.Groups? {
      assert tail + ([v] + side.groups) == (tail + [v]) + side.groups;
    }
  }

  lemma {:induction false} RestStarts(t: string)
    ensures Meaning(t) == Rest(t, [], [], false)
    ensures |t| >= 2 && t[0] == ':' && t[1] == ':' ==> Meaning(t) == Rest(t[2..], [], [], true)
    ensures t != "" && t[0] == ':' && (|t| < 2 || t[1] != ':') ==> Meaning(t) == NotGroups
  {
    forall g: seq<nat> ensures [] + g == g {}
    if t != "" && t[0] == ':' {
      if |t| >= 2 && t[1] == ':' {
        assert t[..0] == "";
      } else {
        var d := FirstDouble(t);
        assert d > 0;
        BadGroupFails(t, 0, true);
        if d < |t| {
          assert t[..d][0] == t[0];
          BadGroupFails(t[..d], 0, false);
        }
      }
    }
  }

  lemma {:induction false} DoubleLater(t: string, r: nat)
    requires r <= |t| && ':' !in t[..r]
    ensures FirstDouble(t) == r + FirstDouble(t[r..])
  {
    if r == 0 {
      assert t[r..] == t;
    } else {
      assert t[0] == t[..r][0];
      assert t[1..][..r - 1] == t[..r][1..];
      DoubleLater(t[1..], r - 1);
      assert t[1..][r - 1..] == t[r..];
    }
  }

  /** The text before a double colon keeps the digits it starts with and the byte after
      them, unless the double colon follows at once. */
  lemma {:induction false} BeforeDouble(t: string, r: nat, d: nat)
    requires r <= |t| && AllHex(t[..r]) && d == FirstDouble(t) < |t|
    ensures r <= d && t[..d][..r] == t[..r]
    ensures r < |t| && t[r] != ':' ==> r < d && t[..d][r] == t[r]
  {
    HexPrefix(t, r);
    DoubleLater(t, r);
    if r < |t| && t[r] != ':' {
      assert t[r..][0] == t[r];
    }
  }

  lemma {:induction false} RestBad(t: string, r: nat, head: seq<nat>, tail: seq<nat>, compressed: bool)
    requires t != "" && BadGroup(t, r) && (compressed || t[0] != ':')
    ensures Rest(t, head, tail, compressed) == NotGroups
  {
    BadGroupFails(t, r, true);
    var d := FirstDouble(t);
    if !compressed && d < |t| {
      BeforeDouble(t, r, d);
      BadGroupFails(t[..d], r, false);
    }
  }

  lemma {:induction false} RestDotted(t: string, r: nat, head: seq<nat>, tail: seq<nat>, compressed: bool)
    requires GroupThen(t, r, '.')
    ensures Rest(t, head, tail, compressed) ==
            match Quad(t)
            case NotGroups => NotGroups
            case Groups(q) => if compressed then Rest("", head, tail + q, true) else Rest("", head + q, tail, false)
  {
    DottedGroup(t, r);
    var d := FirstDouble(t);
    forall g: seq<nat> ensures g + [] == g {}
    if !compressed && d < |t| {
      assert t[d] == ':' && ':' in t;
      BeforeDouble(t, r, d);
      DottedGroup(t[..d], r);
    }
  }

  lemma {:induction false} RestLast(t: string, head: seq<nat>, tail: seq<nat>, compressed: bool)
    requires IsHexGroup(t)
    ensures Rest(t, head, tail, compressed) ==
            if compressed then Rest("", head, tail + [HexValue(t)], true) else Rest("", head + [HexValue(t)], tail, false)
  {
    LastGroup(t, true);
    HexPrefix(t, |t|);
    assert t[..|t|] == t;
    DoubleLater(t, |t|);
    forall g: seq<nat> ensures g + [] == g {}
  }

  lemma {:induction false} DoubleAtRun(t: string, r: nat)
    requires GroupThen(t, r, ':')
    ensures r + 1 < |t| && t[r + 1] == ':' ==> FirstDouble(t) == r
    ensures r + 1 == |t| || t[r + 1] != ':' ==> FirstDouble(t) == r + 1 + FirstDouble(t[r + 1..])
  {
    HexPrefix(t, r);
    DoubleLater(t, r);
    var u := t[r..];
    assert u[0] == ':' && u[1..] == t[r + 1..];
    if |u| >= 2 {
      assert u[1] == t[r + 1];
    }
  }

  /** The part before a double colon that comes `e` bytes behind this group's colon. */
  lemma {:induction false} NextGroupBefore(t: string, r: nat, e: nat)
    requires GroupThen(t, r, ':') && r + 1 + e <= |t|
    ensures Parts(t[..r + 1 + e], false) == Prepend([HexValue(t[..r])], Parts(t[r + 1..][..e], false))
  {
    var w := t[..r + 1 + e];
    assert w[..r] == t[..r] && w[r] == ':';
    assert w[r + 1..] == t[r + 1..][..e];
    NextGroup(w, r, false);
  }

  lemma {:induction false} RestNext(t: string, r: nat, head: seq<nat>, tail: seq<nat>, compressed: bool)
    requires GroupThen(t, r, ':') && r + 1 < |t| && IsHexDigit(t[r + 1])
    ensures Rest(t, head, tail, compressed) ==
            if compressed then Rest(t[r + 1..], head, tail + [HexValue(t[..r])], true)
            else Rest(t[r + 1..], head + [HexValue(t[..r])], tail, false)
  {
    var u, v := t[r + 1..], HexValue(t[..r]);
    if compressed {
      NextGroup(t, r, true);
      PushedTail(head, tail, v, Parts(u, true));
    } else {
      DoubleAtRun(t, r);
      if FirstDouble(u) == |u| {
        NextGroup(t, r, true);
        PushedHead(head, v, Parts(u, true));
      } else {
        RestNextSplit(t, r, head);
      }
    }
  }

  lemma {:induction false} RestNextSplit(t: string, r: nat, head: seq<nat>)
    requires GroupThen(t, r, ':') && r + 1 < |t| && IsHexDigit(t[r + 1]) && FirstDouble(t[r + 1..]) < |t[r + 1..]|
    ensures Rest(t, head, [], false) == Rest(t[r + 1..], head + [HexValue(t[..r])], [], false)
  {
    var u := t[r + 1..];
    var e := FirstDouble(u);
    DoubleAtRun(t, r);
    SplitRest(t, r + 1 + e, head, t[..r + 1 + e], u[e + 2..]);
    SplitRest(u, e, head + [HexValue(t[..r])], u[..e], u[e + 2..]);
    NextSideBefore(t, r, e);
    PushedHead(head, HexValue(t[..r]), Side(u[..e], false));
  }

  lemma {:induction false} SplitRest(t: string, d: nat, head: seq<nat>, left: string, right: string)
    requires FirstDouble(t) == d < |t| && t[..d] == left && t[d + 2..] == right
    ensures Rest(t, head, [], false) == Split(head, Side(left, false), [], Side(right, true))
  {
  }

  lemma {:induction false} NextSideBefore(t: string, r: nat, e: nat)
    requires GroupThen(t, r, ':') && r + 1 < |t| && IsHexDigit(t[r + 1]) && FirstDouble(t[r + 1..]) == e < |t[r + 1..]|
    ensures Side(t[..r + 1 + e], false) == Prepend([HexValue(t[..r])], Side(t[r + 1..][..e], false))
  {
    assert t[r + 1..][0] == t[r + 1];
    assert e > 0;
    NextGroupBefore(t, r, e);
  }

  lemma {:induction false} RestDouble(t: string, r: nat, head: seq<nat>)
    requires GroupThen(t, r, ':') && r + 1 < |t| && t[r + 1] == ':'
    ensures Rest(t, head, [], false) == Rest(t[r + 2..], head + [HexValue(t[..r])], [], true)
  {
    DoubleAtRun(t, r);
    LastGroup(t[..r], false);
    SplitRest(t, r, head, t[..r], t[r + 2..]);
    MovedLeft(head, HexValue(t[..r]), Side(t[r + 2..], true));
  }

  lemma {:induction false} MovedLeft(head: seq<nat>, v: nat, right: Groups)
    ensures Split(head, Groups([v]), [], right) == Split(head + [v], Groups([]), [], right)
  {
    assert head + [v] + [] == head + [v];
  }

  /** A colon that no group follows: at the end, before another character, or a second
      double colon. */
  lemma {:induction false} RestStray(t: string, r: nat, head: seq<nat>, tail: seq<nat>, compressed: bool)
    requires GroupThen(t, r, ':')
    requires r + 1 < |t| ==> !IsHexDigit(t[r + 1]) && (compressed || t[r + 1] != ':')
    ensures Rest(t, head, tail, compressed) == NotGroups
  {
    var u := t[r + 1..];
    NextGroup(t, r, true);
    BadGroupFails(u, 0, true);
    if !compressed && FirstDouble(t) < |t| {
      RestStrayLeft(t, r);
    }
  }

  lemma {:induction false} RestStrayLeft(t: string, r: nat)
    requires GroupThen(t, r, ':') && FirstDouble(t) < |t|
    requires r + 1 < |t| ==> !IsHexDigit(t[r + 1]) && t[r + 1] != ':'
    ensures Side(t[..FirstDouble(t)], false) == NotGroups
  {
    var u := t[r + 1..];
    DoubleAtRun(t, r);
    var e := FirstDouble(u);
    assert e < |u| && u[0] == t[r + 1];
    NextGroupBefore(t, r, e);
    assert u[..e][0] == u[0];
    BadGroupFails(u[..e], 0, false);
  }

  /** Eight groups and more text. */
  lemma {:induction false} RestFull(t: string, head: seq<nat>, tail: seq<nat>, compressed: bool)
    requires t != "" && |head| + |tail| >= 8 && (compressed || (tail == [] && t[0] != ':'))
    ensures Rest(t, head, tail, compressed) == NotGroups
  {
  }
}
