/** The scanners of the HTTP parsers as functions of the bytes available.  A scanner
    that stops at the end of the bytes asks for more; any other answer must not
    depend on what follows, which is what each `...Stable` lemma states.

    Positions count from the start of the buffer.  Bytes are characters. */
module HttpScan {
  datatype Scan = Done(end: nat) | More | Bad

  const SIZE_MAX: nat := 0xFFFF_FFFF_FFFF_FFFF

  predicate IsDigit(c: char) { '0' <= c <= '9' }

  function DigitOf(c: char): (r: nat)
    requires IsDigit(c)
    ensures r < 10
  {
    c as int - '0' as int
  }

  predicate IsHexDigit(c: char) { IsDigit(c) || 'a' <= c <= 'f' || 'A' <= c <= 'F' }

  function HexOf(c: char): (r: nat)
    requires IsHexDigit(c)
    ensures r < 16
  {
    if IsDigit(c) then c as int - '0' as int
    else if 'a' <= c <= 'f' then c as int - 'a' as int + 10
    else c as int - 'A' as int + 10
  }

  predicate IsLetter(c: char) { 'A' <= c <= 'Z' || 'a' <= c <= 'z' }

  /** Token characters: section 5.6.2 of RFC 9110. */
  predicate IsTokenChar(c: char) {
    || IsLetter(c) || IsDigit(c)
    || c in {'!', '#', '$', '%', '&', '\'', '*', '+', '-', '.', '^', '_', '`', '|', '~'}
  }

  predicate IsSubDelim(c: char) { c in {'!', '$', '&', '\'', '(', ')', '*', '+', ',', ';', '='} }

  predicate IsUnreserved(c: char) { IsLetter(c) || IsDigit(c) || c in {'-', '.', '_', '~'} }

  /** Path characters other than percent escapes: section 3.3 of RFC 3986. */
  predicate IsPChar(c: char) { IsUnreserved(c) || IsSubDelim(c) || c == ':' || c == '@' }

  function Fold(c: char): char {
    if 'A' <= c <= 'Z' then (c as int + 32) as char else c
  }

  function FoldAll(name: string): (r: string)
    ensures |r| == |name|
  {
    seq(|name|, i requires 0 <= i < |name| => Fold(name[i]))
  }

  /** The same character, or the two cases of one letter. */
  predicate SameButCase(a: char, b: char) {
    a == b || (IsLetter(a) && IsLetter(b) && (a as int - b as int == 32 || b as int - a as int == 32))
  }

  lemma FoldsAlike(a: char, b: char)
    ensures Fold(a) == Fold(b) <==> SameButCase(a, b)
  {
    assert Fold(a) as int == if 'A' <= a <= 'Z' then a as int + 32 else a as int;
    assert Fold(b) as int == if 'A' <= b <= 'Z' then b as int + 32 else b as int;
  }

  /** Names fold alike exactly when they differ in the case of letters only. */
  lemma NamesFoldAlike(s: string, t: string)
    ensures FoldAll(s) == FoldAll(t) <==> |s| == |t| && forall i :: 0 <= i < |s| ==> SameButCase(s[i], t[i])
  {
    var f, g := FoldAll(s), FoldAll(t);
    if |s| == |t| {
      forall i | 0 <= i < |s| ensures f[i] == g[i] <==> SameButCase(s[i], t[i]) { FoldsAlike(s[i], t[i]); }
      if f == g { assert forall i :: 0 <= i < |s| ==> f[i] == g[i]; }
    }
  }

  predicate IsOws(c: char) { c == ' ' || c == '\t' }

  /** The buffer continues with a line end. */
  predicate CrLfAt(b: string, i: nat) { i + 2 <= |b| && b[i] == '\r' && b[i + 1] == '\n' }

  // ------------------------------------------------------------------- token, line

  /** A nonempty token up to its terminator. */
  function Token(b: string, i: nat, eos: char): (r: Scan)
    requires i <= |b|
    ensures r.Done? ==> i <= r.end < |b| && b[r.end] == eos
    decreases |b| - i
  {
    if i == |b| then More
    else if b[i] == eos then (if i == 0 then Bad else Done(i))
    else if !IsTokenChar(b[i]) then Bad
    else Token(b, i + 1, eos)
  }

  lemma {:induction false} TokenStable(b: string, x: string, i: nat, eos: char)
    requires i <= |b| && Token(b, i, eos) != More
    ensures Token(b + x, i, eos) == Token(b, i, eos)
    decreases |b| - i
  {
    if b[i] != eos && IsTokenChar(b[i]) { TokenStable(b, x, i + 1, eos); }
  }

  /** Position after the next line end.  A line feed before the first carriage return,
      or a carriage return without a line feed, is an error. */
  function Line(b: string, i: nat): (r: Scan)
    requires i <= |b|
    ensures r.Done? ==> i + 2 <= r.end <= |b| && CrLfAt(b, r.end - 2)
    decreases |b| - i
  {
    if i == |b| then More
    else if b[i] == '\n' then Bad
    else if b[i] == '\r' then (if i + 1 == |b| then More else if b[i + 1] == '\n' then Done(i + 2) else Bad)
    else Line(b, i + 1)
  }

  lemma {:induction false} LineStable(b: string, x: string, i: nat)
    requires i <= |b| && Line(b, i) != More
    ensures i < |b| && Line(b + x, i) == Line(b, i)
    decreases |b| - i
  {
    if b[i] != '\n' && b[i] != '\r' { LineStable(b, x, i + 1); }
  }

  function SkipOws(b: string, i: nat): (r: nat)
    requires i <= |b|
    ensures i <= r <= |b| && (r < |b| ==> !IsOws(b[r]))
    decreases |b| - i
  {
    if i < |b| && IsOws(b[i]) then SkipOws(b, i + 1) else i
  }

  lemma {:induction false} SkipOwsStable(b: string, x: string, i: nat)
    requires i <= |b| && SkipOws(b, i) < |b|
    ensures SkipOws(b + x, i) == SkipOws(b, i)
    decreases |b| - i
  {
    if IsOws(b[i]) { SkipOwsStable(b, x, i + 1); }
  }

  function SkipSpaces(b: string, i: nat): (r: nat)
    requires i <= |b|
    ensures i <= r <= |b| && (r < |b| ==> b[r] != ' ')
    decreases |b| - i
  {
    if i < |b| && b[i] == ' ' then SkipSpaces(b, i + 1) else i
  }

  lemma {:induction false} SkipSpacesStable(b: string, x: string, i: nat)
    requires i <= |b| && SkipSpaces(b, i) < |b|
    ensures SkipSpaces(b + x, i) == SkipSpaces(b, i)
    decreases |b| - i
  {
    if b[i] == ' ' { SkipSpacesStable(b, x, i + 1); }
  }

  /** A value without trailing white space. */
  function TrimOws(t: string): (r: string)
    ensures r <= t && (r != [] ==> !IsOws(r[|r| - 1])) && forall i :: |r| <= i < |t| ==> IsOws(t[i])
  {
    if t != [] && IsOws(t[|t| - 1]) then TrimOws(t[..|t| - 1]) else t
  }

  // ----------------------------------------------------------------------- numbers

  datatype Number = Value(end: nat, value: nat) | NoMore | NoGood

  /** Decimal digits so far, then optional white space and a line end. */
  function Dec(b: string, i: nat, value: nat, digits: nat): (r: Number)
    requires i <= |b|
    ensures r.Value? ==> i + 2 <= r.end <= |b|
    decreases |b| - i
  {
    if i < |b| && IsDigit(b[i]) then
      if value > (SIZE_MAX - DigitOf(b[i])) / 10 then NoGood
      else Dec(b, i + 1, value * 10 + DigitOf(b[i]), digits + 1)
    else DecEnd(b, SkipOws(b, i), value, digits)
  }

  function DecEnd(b: string, i: nat, value: nat, digits: nat): Number
    requires i <= |b|
  {
    if |b| < i + 2 then NoMore else if digits == 0 || !CrLfAt(b, i) then NoGood else Value(i + 2, value)
  }

  lemma {:induction false} DecStable(b: string, x: string, i: nat, value: nat, digits: nat)
    requires i <= |b| && Dec(b, i, value, digits) != NoMore
    ensures i < |b| && Dec(b + x, i, value, digits) == Dec(b, i, value, digits)
    decreases |b| - i
  {
    if i < |b| && IsDigit(b[i]) {
      if value <= (SIZE_MAX - DigitOf(b[i])) / 10 {
        DecStable(b, x, i + 1, value * 10 + DigitOf(b[i]), digits + 1);
      }
    } else {
      SkipOwsStable(b, x, i);
    }
  }

  /** Hexadecimal digits so far, then a line end, with anything in between that starts
      with a semicolon skipped. */
  function Hex(b: string, i: nat, value: nat, digits: nat): (r: Number)
    requires i <= |b|
    ensures r.Value? ==> i + 2 <= r.end <= |b|
    decreases |b| - i
  {
    if i < |b| && IsHexDigit(b[i]) then
      if value > SIZE_MAX / 16 then NoGood
      else Hex(b, i + 1, value * 16 + HexOf(b[i]), digits + 1)
    else if i < |b| && b[i] != '\r' then
      if b[i] != ';' then NoGood else DecEnd(b, SkipExtension(b, i), value, digits)
    else DecEnd(b, i, value, digits)
  }

  function SkipExtension(b: string, i: nat): (r: nat)
    requires i <= |b|
    ensures i <= r <= |b|
    decreases |b| - i
  {
    if i < |b| && b[i] != '\r' && b[i] != '\n' then SkipExtension(b, i + 1) else i
  }

  lemma {:induction false} SkipExtensionStable(b: string, x: string, i: nat)
    requires i <= |b| && SkipExtension(b, i) < |b|
    ensures SkipExtension(b + x, i) == SkipExtension(b, i)
    decreases |b| - i
  {
    if b[i] != '\r' && b[i] != '\n' { SkipExtensionStable(b, x, i + 1); }
  }

  lemma {:induction false} HexStable(b: string, x: string, i: nat, value: nat, digits: nat)
    requires i <= |b| && Hex(b, i, value, digits) != NoMore
    ensures i < |b| && Hex(b + x, i, value, digits) == Hex(b, i, value, digits)
    decreases |b| - i
  {
    if i < |b| && IsHexDigit(b[i]) {
      if value <= SIZE_MAX / 16 { HexStable(b, x, i + 1, value * 16 + HexOf(b[i]), digits + 1); }
    } else if i < |b| && b[i] == ';' {
      SkipExtensionStable(b, x, i);
    }
  }

  // --------------------------------------------------------------------------- URI

  /** One percent escape: complete, cut off, or not an escape. */
  datatype Escape = Accepted | CutOff | Invalid

  function EscapeAt(b: string, i: nat): Escape
    requires i < |b|
  {
    if b[i] != '%' then Invalid
    else if i + 1 == |b| then CutOff
    else if !IsHexDigit(b[i + 1]) then Invalid
    else if i + 2 == |b| then CutOff
    else if !IsHexDigit(b[i + 2]) then Invalid
    else Accepted
  }

  /** First position at or after `i` that is no path character or escape; slashes and
      question marks count as text where `wide`. */
  function TextEnd(b: string, i: nat, wide: bool): (r: Scan)
    requires i <= |b|
    ensures !r.Bad? && (r.Done? ==> i <= r.end < |b|)
    decreases |b| - i
  {
    if i == |b| then More
    else if IsPChar(b[i]) || (wide && (b[i] == '/' || b[i] == '?')) then TextEnd(b, i + 1, wide)
    else match EscapeAt(b, i)
         case Accepted => TextEnd(b, i + 3, wide)
         case CutOff => More
         case Invalid => Done(i)
  }

  lemma {:induction false} TextEndStable(b: string, x: string, i: nat, wide: bool)
    requires i <= |b| && TextEnd(b, i, wide) != More
    ensures TextEnd(b + x, i, wide) == TextEnd(b, i, wide)
    decreases |b| - i
  {
    if IsPChar(b[i]) || (wide && (b[i] == '/' || b[i] == '?')) {
      TextEndStable(b, x, i + 1, wide);
    } else if EscapeAt(b, i) == Accepted {
      TextEndStable(b, x, i + 3, wide);
    }
  }

  /** The query scan: where the current name starts, and its length and the start of
      its value once an equals sign was seen. */
  datatype Pair = Pair(name: nat, size: nat, value: nat, hasValue: bool)

  /** It stops at an ampersand that ends an element with a value, or at the end of the
      query. */
  datatype QueryScan = AtNext(end: nat, pair: Pair) | AtEnd(end: nat, pair: Pair) | QueryMore

  /** The pair's positions are in order and before `i`. */
  predicate PairOk(pair: Pair, i: nat) {
    pair.name <= i && (pair.hasValue ==> pair.name + pair.size < pair.value <= i)
  }

  function QueryEnd(b: string, i: nat, pair: Pair): (r: QueryScan)
    requires i <= |b| && PairOk(pair, i)
    ensures !r.QueryMore? ==> i <= r.end < |b| && PairOk(r.pair, r.end)
    ensures r.AtNext? ==> r.pair.hasValue && b[r.end] == '&'
    decreases |b| - i
  {
    if i == |b| then QueryMore
    else if b[i] == '=' then QueryEnd(b, i + 1, Pair(pair.name, i - pair.name, i + 1, true))
    else if b[i] == '&' then
      if pair.hasValue then AtNext(i, pair) else QueryEnd(b, i + 1, Pair(i + 1, 0, 0, false))
    else if IsPChar(b[i]) || b[i] == '/' || b[i] == '?' then QueryEnd(b, i + 1, pair)
    else match EscapeAt(b, i)
         case Accepted => QueryEnd(b, i + 3, pair)
         case CutOff => QueryMore
         case Invalid => AtEnd(i, pair)
  }

  lemma {:induction false} QueryEndStable(b: string, x: string, i: nat, pair: Pair)
    requires i <= |b| && PairOk(pair, i) && QueryEnd(b, i, pair) != QueryMore
    ensures QueryEnd(b + x, i, pair) == QueryEnd(b, i, pair)
    decreases |b| - i
  {
    if b[i] == '=' {
      QueryEndStable(b, x, i + 1, Pair(pair.name, i - pair.name, i + 1, true));
    } else if b[i] == '&' {
      if !pair.hasValue { QueryEndStable(b, x, i + 1, Pair(i + 1, 0, 0, false)); }
    } else if IsPChar(b[i]) || b[i] == '/' || b[i] == '?' {
      QueryEndStable(b, x, i + 1, pair);
    } else if EscapeAt(b, i) == Accepted {
      QueryEndStable(b, x, i + 3, pair);
    }
  }
}
