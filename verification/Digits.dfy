/** Numbers as runs of digits: what a run means, and the run that is printed. */
module Digits {
  import opened HttpScan

  predicate AllHex(t: string) { forall i :: 0 <= i < |t| ==> IsHexDigit(t[i]) }
  predicate AllDigits(t: string) { forall i :: 0 <= i < |t| ==> IsDigit(t[i]) }

  function HexValue(t: string): (r: nat)
    requires AllHex(t)
  {
    if t == "" then 0 else HexValue(t[..|t| - 1]) * 16 + HexOf(t[|t| - 1])
  }

  function DecValue(t: string): (r: nat)
    requires AllDigits(t)
  {
    if t == "" then 0 else DecValue(t[..|t| - 1]) * 10 + DigitOf(t[|t| - 1])
  }

  function HexDigit(n: nat): (c: char)
    requires n < 16
    ensures IsHexDigit(c) && HexOf(c) == n && !('A' <= c <= 'F')
  {
    if n <= 9 then '0' + n as char else 'a' + (n - 10) as char
  }

  /** The significant hexadecimal digits of a number: none for zero. */
  function Significant(v: nat): (r: string)
    ensures AllHex(r)
    ensures v > 0 ==> r != "" && r[0] != '0'
  {
    if v == 0 then "" else Significant(v / 16) + [HexDigit(v % 16)]
  }

  lemma {:induction false} SignificantValue(v: nat)
    ensures HexValue(Significant(v)) == v
  {
    if v != 0 {
      SignificantValue(v / 16);
      var t := Significant(v);
      assert t[..|t| - 1] == Significant(v / 16);
    }
  }

  /** The usual decimal digits of a number. */
  function Decimal(v: nat): (r: string)
    ensures r != "" && AllDigits(r)
    decreases v
  {
    (if v < 10 then "" else Decimal(v / 10)) + ["0123456789"[v % 10]]
  }

  /** They are read back as that number. */
  lemma {:induction false} DecimalReads(v: nat)
    ensures DecValue(Decimal(v)) == v
  {
    var t := Decimal(v);
    assert DigitOf(t[|t| - 1]) == v % 10;
    if v < 10 {
      assert t[..|t| - 1] == "";
    } else {
      DecimalReads(v / 10);
      assert t[..|t| - 1] == Decimal(v / 10);
    }
  }

  lemma {:induction false} HexGrows(t: string, c: char)
    requires AllHex(t) && IsHexDigit(c)
    ensures AllHex(t + [c]) && HexValue(t + [c]) == HexValue(t) * 16 + HexOf(c)
  {
    assert (t + [c])[..|t|] == t;
  }

  lemma {:induction false} DecGrows(t: string, c: char)
    requires AllDigits(t) && IsDigit(c)
    ensures AllDigits(t + [c]) && DecValue(t + [c]) == DecValue(t) * 10 + DigitOf(c)
  {
    assert (t + [c])[..|t|] == t;
  }

  /** A longer run is not smaller. */
  lemma {:induction false} HexLonger(t: string, x: string)
    requires AllHex(t + x)
    ensures AllHex(t) && HexValue(t) <= HexValue(t + x)
    decreases |x|
  {
    assert forall i :: 0 <= i < |t| ==> t[i] == (t + x)[i];
    if x == "" {
      assert t + x == t;
    } else {
      var y := x[..|x| - 1];
      assert (t + x)[..|t + x| - 1] == t + y;
      assert forall i :: 0 <= i < |t + y| ==> (t + y)[i] == (t + x)[i];
      HexLonger(t, y);
    }
  }

  lemma {:induction false} DecLonger(t: string, x: string)
    requires AllDigits(t + x)
    ensures AllDigits(t) && DecValue(t) <= DecValue(t + x)
    decreases |x|
  {
    assert forall i :: 0 <= i < |t| ==> t[i] == (t + x)[i];
    if x == "" {
      assert t + x == t;
    } else {
      var y := x[..|x| - 1];
      assert (t + x)[..|t + x| - 1] == t + y;
      assert forall i :: 0 <= i < |t + y| ==> (t + y)[i] == (t + x)[i];
      DecLonger(t, y);
    }
  }

  // ---------------------------------------------------------------- the number readers

  /** `b` has digits from `i` to `j` and no further. */
  ghost predicate DigitsTo(b: string, i: nat, j: nat) {
    i <= j <= |b| && AllDigits(b[i..j]) && (j < |b| ==> !IsDigit(b[j]))
  }

  ghost predicate HexTo(b: string, i: nat, j: nat) {
    i <= j <= |b| && AllHex(b[i..j]) && (j < |b| ==> !IsHexDigit(b[j]))
  }

  lemma DecStep(b: string, p: nat, v: nat, digits: nat)
    requires p < |b| && IsDigit(b[p]) && v <= SIZE_MAX
    ensures Dec(b, p, v, digits)
         == if v * 10 + DigitOf(b[p]) > SIZE_MAX then NoGood else Dec(b, p + 1, v * 10 + DigitOf(b[p]), digits + 1)
  {
  }

  lemma DecStops(b: string, j: nat, v: nat, digits: nat)
    requires j <= |b| && (j < |b| ==> !IsDigit(b[j]))
    ensures Dec(b, j, v, digits) == DecEnd(b, SkipOws(b, j), v, digits)
  {
  }

  lemma {:induction false} DecTurn(b: string, i: nat, p: nat, j: nat)
    requires DigitsTo(b, i, j) && i <= p < j && AllDigits(b[i..p]) && DecValue(b[i..p]) <= SIZE_MAX
    ensures AllDigits(b[i..p + 1]) && DecValue(b[i..p + 1]) <= DecValue(b[i..j])
    ensures Dec(b, p, DecValue(b[i..p]), p - i)
         == if DecValue(b[i..p + 1]) > SIZE_MAX then NoGood else Dec(b, p + 1, DecValue(b[i..p + 1]), p + 1 - i)
  {
    DecUpTo(b, i, p, j);
    DecStep(b, p, DecValue(b[i..p]), p - i);
  }

  lemma {:induction false} DecUpTo(b: string, i: nat, p: nat, j: nat)
    requires i <= p < j <= |b| && AllDigits(b[i..j]) && AllDigits(b[i..p])
    ensures IsDigit(b[p]) && AllDigits(b[i..p + 1]) && DecValue(b[i..p + 1]) <= DecValue(b[i..j])
    ensures DecValue(b[i..p + 1]) == DecValue(b[i..p]) * 10 + DigitOf(b[p])
  {
    assert b[p] == b[i..j][p - i];
    assert b[i..p + 1] == b[i..p] + [b[p]];
    DecGrows(b[i..p], b[p]);
    assert b[i..j] == b[i..p + 1] + b[p + 1..j];
    DecLonger(b[i..p + 1], b[p + 1..j]);
  }

  lemma {:induction false} DecFrom(b: string, i: nat, p: nat, j: nat)
    requires DigitsTo(b, i, j) && p <= j && i <= p && AllDigits(b[i..p]) && DecValue(b[i..p]) <= SIZE_MAX
    ensures Dec(b, p, DecValue(b[i..p]), p - i)
         == if DecValue(b[i..j]) > SIZE_MAX then NoGood else DecEnd(b, SkipOws(b, j), DecValue(b[i..j]), j - i)
    decreases j - p
  {
    if p < j {
      DecTurn(b, i, p, j);
      if DecValue(b[i..p + 1]) <= SIZE_MAX { DecFrom(b, i, p + 1, j); }
    } else {
      DecStops(b, j, DecValue(b[i..j]), j - i);
    }
  }

  /** A decimal number has the value of its digits and is refused exactly above the
      largest size; white space may follow it, and a line end must. */
  lemma DecMeans(b: string, i: nat, j: nat)
    requires DigitsTo(b, i, j)
    ensures Dec(b, i, 0, 0)
         == if DecValue(b[i..j]) > SIZE_MAX then NoGood else DecEnd(b, SkipOws(b, j), DecValue(b[i..j]), j - i)
  {
    assert b[i..i] == "";
    DecFrom(b, i, i, j);
  }

  /** What stands behind a hexadecimal run: a line end, an extension and a line end, or
      neither. */
  function HexTail(b: string, j: nat, value: nat, digits: nat): Number
    requires j <= |b|
  {
    if j < |b| && b[j] != '\r' then if b[j] != ';' then NoGood else DecEnd(b, SkipExtension(b, j), value, digits)
    else DecEnd(b, j, value, digits)
  }

  lemma HexStep(b: string, p: nat, v: nat, digits: nat)
    requires p < |b| && IsHexDigit(b[p]) && v <= SIZE_MAX
    ensures Hex(b, p, v, digits)
         == if v * 16 + HexOf(b[p]) > SIZE_MAX then NoGood else Hex(b, p + 1, v * 16 + HexOf(b[p]), digits + 1)
  {
  }

  lemma HexStops(b: string, j: nat, v: nat, digits: nat)
    requires j <= |b| && (j < |b| ==> !IsHexDigit(b[j]))
    ensures Hex(b, j, v, digits) == HexTail(b, j, v, digits)
  {
  }

  lemma {:induction false} HexTurn(b: string, i: nat, p: nat, j: nat)
    requires HexTo(b, i, j) && i <= p < j && AllHex(b[i..p]) && HexValue(b[i..p]) <= SIZE_MAX
    ensures AllHex(b[i..p + 1]) && HexValue(b[i..p + 1]) <= HexValue(b[i..j])
    ensures Hex(b, p, HexValue(b[i..p]), p - i)
         == if HexValue(b[i..p + 1]) > SIZE_MAX then NoGood else Hex(b, p + 1, HexValue(b[i..p + 1]), p + 1 - i)
  {
    HexUpTo(b, i, p, j);
    HexStep(b, p, HexValue(b[i..p]), p - i);
  }

  lemma {:induction false} HexUpTo(b: string, i: nat, p: nat, j: nat)
    requires i <= p < j <= |b| && AllHex(b[i..j]) && AllHex(b[i..p])
    ensures IsHexDigit(b[p]) && AllHex(b[i..p + 1]) && HexValue(b[i..p + 1]) <= HexValue(b[i..j])
    ensures HexValue(b[i..p + 1]) == HexValue(b[i..p]) * 16 + HexOf(b[p])
  {
    assert b[p] == b[i..j][p - i];
    assert b[i..p + 1] == b[i..p] + [b[p]];
    HexGrows(b[i..p], b[p]);
    assert b[i..j] == b[i..p + 1] + b[p + 1..j];
    HexLonger(b[i..p + 1], b[p + 1..j]);
  }

  lemma {:induction false} HexFrom(b: string, i: nat, p: nat, j: nat)
    requires HexTo(b, i, j) && p <= j && i <= p && AllHex(b[i..p]) && HexValue(b[i..p]) <= SIZE_MAX
    ensures Hex(b, p, HexValue(b[i..p]), p - i)
         == if HexValue(b[i..j]) > SIZE_MAX then NoGood else HexTail(b, j, HexValue(b[i..j]), j - i)
    decreases j - p
  {
    if p < j {
      HexTurn(b, i, p, j);
      if HexValue(b[i..p + 1]) <= SIZE_MAX { HexFrom(b, i, p + 1, j); }
    } else {
      HexStops(b, j, HexValue(b[i..j]), j - i);
    }
  }

  /** The same for a chunk size. */
  lemma HexMeans(b: string, i: nat, j: nat)
    requires HexTo(b, i, j)
    ensures Hex(b, i, 0, 0)
         == if HexValue(b[i..j]) > SIZE_MAX then NoGood else HexTail(b, j, HexValue(b[i..j]), j - i)
  {
    assert b[i..i] == "";
    HexFrom(b, i, i, j);
  }
}
