/** The scanners as the parsers run them: loops over the buffer, each proved to answer
    as its specification function. */
module HttpReaders {
  import opened HttpScan

  /** First occurrence of a byte in a range, or its end. */
  method FindByte(b: string, from: nat, to: nat, c: char) returns (k: nat)
    requires from <= to <= |b|
    ensures from <= k <= to && (k < to ==> b[k] == c) && forall j :: from <= j < k ==> b[j] != c
  {
    k := from;
    while k < to && b[k] != c
      invariant from <= k <= to && forall j :: from <= j < k ==> b[j] != c
    {
      k := k + 1;
    }
  }

  /** No line end before `k`: the scan is the same from there. */
  lemma {:induction false} LineFrom(b: string, i: nat, k: nat)
    requires i <= k <= |b| && forall j :: i <= j < k ==> b[j] != '\r' && b[j] != '\n'
    ensures Line(b, i) == Line(b, k)
    decreases k - i
  {
    if i < k { LineFrom(b, i + 1, k); }
  }

  /** Two searches, first for the carriage return and then for a line feed before it. */
  method ReadUntilCrLf(b: string, i: nat) returns (r: Scan)
    requires i <= |b|
    ensures r == Line(b, i)
  {
    var cr := FindByte(b, i, |b|, '\r');
    var lf := FindByte(b, i, cr, '\n');
    LineFrom(b, i, lf);
    if cr == |b| {
      return if lf < cr then Bad else More;
    }
    if lf < cr {
      return Bad;
    }
    if cr + 1 == |b| {
      return More;
    }
    if b[cr + 1] != '\n' {
      return Bad;
    }
    r := Done(cr + 2);
  }

  method SkipOwsFrom(b: string, i: nat) returns (k: nat)
    requires i <= |b|
    ensures k == SkipOws(b, i)
  {
    k := i;
    while k < |b| && IsOws(b[k])
      invariant i <= k <= |b| && SkipOws(b, i) == SkipOws(b, k)
    {
      k := k + 1;
    }
  }

  method SkipSpacesFrom(b: string, i: nat) returns (k: nat)
    requires i <= |b|
    ensures k == SkipSpaces(b, i)
  {
    k := i;
    while k < |b| && b[k] == ' '
      invariant i <= k <= |b| && SkipSpaces(b, i) == SkipSpaces(b, k)
    {
      k := k + 1;
    }
  }

  method TrimTrailingOws(t: string) returns (r: string)
    ensures r == TrimOws(t)
    ensures r <= t && (r != "" ==> !IsOws(r[|r| - 1])) && forall i :: |r| <= i < |t| ==> IsOws(t[i])
  {
    r := t;
    while r != "" && IsOws(r[|r| - 1])
      invariant TrimOws(r) == TrimOws(t)
      decreases |r|
    {
      r := r[..|r| - 1];
    }
  }

  method ReadDec(b: string, i: nat) returns (r: Number)
    requires i <= |b|
    ensures r == Dec(b, i, 0, 0)
  {
    var p: nat, value: nat, digits: nat := i, 0, 0;
    while p < |b| && IsDigit(b[p])
      invariant i <= p <= |b| && Dec(b, i, 0, 0) == Dec(b, p, value, digits)
    {
      if value > (SIZE_MAX - DigitOf(b[p])) / 10 {
        return NoGood;
      }
      value := value * 10 + DigitOf(b[p]);
      digits := digits + 1;
      p := p + 1;
    }
    p := SkipOwsFrom(b, p);
    if |b| < p + 2 {
      return NoMore;
    }
    if digits == 0 || b[p] != '\r' || b[p + 1] != '\n' {
      return NoGood;
    }
    r := Value(p + 2, value);
  }

  method ReadHex(b: string, i: nat) returns (r: Number)
    requires i <= |b|
    ensures r == Hex(b, i, 0, 0)
  {
    var p: nat, value: nat, digits: nat := i, 0, 0;
    while p < |b| && IsHexDigit(b[p])
      invariant i <= p <= |b| && Hex(b, i, 0, 0) == Hex(b, p, value, digits)
    {
      if value > SIZE_MAX / 16 {
        return NoGood;
      }
      value := value * 16 + HexOf(b[p]);
      digits := digits + 1;
      p := p + 1;
    }
    if p < |b| && b[p] != '\r' {
      if b[p] != ';' {
        return NoGood;
      }
      ghost var start := p;
      while p < |b| && b[p] != '\r' && b[p] != '\n'
        invariant start <= p <= |b| && SkipExtension(b, start) == SkipExtension(b, p)
      {
        p := p + 1;
      }
    }
    if |b| < p + 2 {
      return NoMore;
    }
    if digits == 0 || b[p] != '\r' || b[p + 1] != '\n' {
      return NoGood;
    }
    r := Value(p + 2, value);
  }

  /** The name part of a token lookup. */
  method ReadToken(b: string, eos: char) returns (r: Scan)
    ensures r == Token(b, 0, eos)
  {
    var s: nat := 0;
    while s < |b| && b[s] != eos
      invariant s <= |b| && Token(b, 0, eos) == Token(b, s, eos)
    {
      if !IsTokenChar(b[s]) {
        return Bad;
      }
      s := s + 1;
    }
    if s == |b| {
      return More;
    }
    r := if s == 0 then Bad else Done(s);
  }

  /** The character loop shared by path elements and fragments. */
  method ReadText(b: string, i: nat, wide: bool) returns (r: Scan)
    requires i <= |b|
    ensures r == TextEnd(b, i, wide)
  {
    var p: nat := i;
    while p < |b|
      invariant i <= p <= |b| && TextEnd(b, i, wide) == TextEnd(b, p, wide)
    {
      if IsPChar(b[p]) || (wide && (b[p] == '/' || b[p] == '?')) {
        p := p + 1;
      } else {
        var escape := EscapeAt(b, p);
        if escape == Accepted {
          p := p + 3;
        } else {
          return if escape == CutOff then More else Done(p);
        }
      }
    }
    r := More;
  }

  method ReadQuery(b: string) returns (r: QueryScan)
    ensures r == QueryEnd(b, 0, Pair(0, 0, 0, false))
  {
    var p: nat := 0;
    var pair := Pair(0, 0, 0, false);
    while p < |b|
      invariant p <= |b| && PairOk(pair, p) && QueryEnd(b, 0, Pair(0, 0, 0, false)) == QueryEnd(b, p, pair)
    {
      if b[p] == '=' {
        pair := Pair(pair.name, p - pair.name, p + 1, true);
        p := p + 1;
      } else if b[p] == '&' {
        if pair.hasValue {
          return AtNext(p, pair);
        }
        p := p + 1;
        pair := Pair(p, 0, 0, false);
      } else if IsPChar(b[p]) || b[p] == '/' || b[p] == '?' {
        p := p + 1;
      } else {
        var escape := EscapeAt(b, p);
        if escape == Accepted {
          p := p + 3;
        } else {
          return if escape == CutOff then QueryMore else AtEnd(p, pair);
        }
      }
    }
    r := QueryMore;
  }
}
