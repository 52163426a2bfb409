/** Percent-encoding of URI components (section 2.1 of RFC 3986): the encoder of
    URI::build, the decoder that works in place, and when the second undoes the first.
    A byte is a character below 256. */
module UriPercent {
  import opened HttpScan

  ghost predicate Bytes(s: string) { forall i :: 0 <= i < |s| ==> s[i] as int < 256 }

  function EncodeHex(n: nat): (c: char)
    requires n < 16
    ensures IsHexDigit(c) && HexOf(c) == n
  {
    if n <= 9 then '0' + n as char else 'A' + (n - 10) as char
  }

  /** The encoder leaves a byte as it is when it is unreserved, a sub-delimiter or one
      of `extra`; NUL never is, whatever terminates the extra string. */
  predicate Kept(c: char, extra: string) {
    c != '\0' && (IsUnreserved(c) || IsSubDelim(c) || c in extra)
  }

  function EncodeByte(c: char, extra: string): (r: string)
    requires c as int < 256
  {
    if Kept(c, extra) then [c] else ['%', EncodeHex(c as int / 16), EncodeHex(c as int % 16)]
  }

  function Encoded(s: string, extra: string): (r: string)
    requires Bytes(s)
  {
    if s == "" then "" else EncodeByte(s[0], extra) + Encoded(s[1..], extra)
  }

  lemma {:induction false} NeverShorter(s: string, extra: string)
    requires Bytes(s)
    ensures |s| <= |Encoded(s, extra)|
  {
    if s != "" { NeverShorter(s[1..], extra); }
  }

  /** Nothing is escaped without need: text is left as it is if and only if all of it is
      unreserved, a sub-delimiter or in the extra set. */
  lemma {:induction false} EscapesWhatItMust(s: string, extra: string)
    requires Bytes(s)
    ensures Encoded(s, extra) == s <==> forall i :: 0 <= i < |s| ==> s[i] != '\0' && (IsUnreserved(s[i]) || IsSubDelim(s[i]) || s[i] in extra)
  {
    if s != "" {
      var rest := s[1..];
      EscapesWhatItMust(rest, extra);
      NeverShorter(rest, extra);
      assert s == [s[0]] + rest;
      assert forall i :: 0 <= i < |rest| ==> rest[i] == s[i + 1];
      if Kept(s[0], extra) { assert Encoded(s, extra)[1..] == Encoded(rest, extra); }
    }
  }

  predicate EscapeHere(s: string) {
    |s| >= 3 && s[0] == '%' && IsHexDigit(s[1]) && IsHexDigit(s[2])
  }

  function Decoded(s: string): (r: string)
    ensures |r| <= |s|
  {
    if s == "" then ""
    else if EscapeHere(s) then [(HexOf(s[1]) * 16 + HexOf(s[2])) as char] + Decoded(s[3..])
    else [s[0]] + Decoded(s[1..])
  }

  lemma {:induction false} DecodedByte(c: char, extra: string, rest: string)
    requires c as int < 256 && '%' !in extra
    ensures Decoded(EncodeByte(c, extra) + rest) == [c] + Decoded(rest)
  {
    var t := EncodeByte(c, extra) + rest;
    if Kept(c, extra) {
      assert c != '%';
      assert t[1..] == rest;
    } else {
      assert t[1] == EncodeHex(c as int / 16) && t[2] == EncodeHex(c as int % 16);
      assert t[3..] == rest;
    }
  }

  /** Decoding undoes encoding, for every byte string and every extra set without '%'. */
  lemma {:induction false} DecodeUndoesEncode(s: string, extra: string)
    requires Bytes(s) && '%' !in extra
    ensures Decoded(Encoded(s, extra)) == s
  {
    if s != "" {
      DecodeUndoesEncode(s[1..], extra);
      DecodedByte(s[0], extra, Encoded(s[1..], extra));
    }
  }

  ghost predicate UndoneFor(s: string, extra: string)
    requires Bytes(s)
  {
    Decoded(Encoded(s, extra)) == s
  }

  lemma {:induction false} PercentInExtra(extra: string)
    requires '%' in extra
    ensures Bytes("%41") && !UndoneFor("%41", extra)
  {
    var s := "%41";
    assert s[1..] == "41" && s[1..][1..] == "1" && s[1..][1..][1..] == "";
    assert Encoded("1", extra) == "1";
    assert Encoded("41", extra) == "41";
    assert Encoded(s, extra) == s;
    assert |Decoded(s[3..])| == 0;
  }

  /** The round trip holds of every byte string exactly when '%' is not in the extra
      set; none of the four sets that URI::build passes holds it. */
  lemma RoundTripExact(extra: string)
    ensures (forall s :: Bytes(s) ==> UndoneFor(s, extra)) <==> '%' !in extra
    ensures forall used :: used in {":", "", "/:@", "/:@?"} ==> '%' !in used
  {
    if '%' in extra {
      PercentInExtra(extra);
    } else {
      forall s | Bytes(s) ensures UndoneFor(s, extra) {
        DecodeUndoesEncode(s, extra);
      }
    }
  }

  /** The set that URI::build encodes a fragment with. */
  const FRAGMENT_EXTRA := "/:@?"

  lemma {:induction false} ByteScans(a: string, c: char, x: string)
    requires c as int < 256
    ensures |a| <= |a + EncodeByte(c, FRAGMENT_EXTRA)| <= |a + EncodeByte(c, FRAGMENT_EXTRA) + x|
    ensures TextEnd(a + EncodeByte(c, FRAGMENT_EXTRA) + x, |a|, true)
         == TextEnd(a + EncodeByte(c, FRAGMENT_EXTRA) + x, |a + EncodeByte(c, FRAGMENT_EXTRA)|, true)
  {
    var e := EncodeByte(c, FRAGMENT_EXTRA);
    var b := a + e + x;
    assert forall k :: 0 <= k < |e| ==> b[|a| + k] == e[k];
    if Kept(c, FRAGMENT_EXTRA) {
      assert b[|a|] == c;
    } else {
      assert b[|a|] == '%' && b[|a| + 1] == e[1] && b[|a| + 2] == e[2];
      assert EscapeAt(b, |a|) == Accepted;
    }
  }

  /** The fragment scanner reads an encoded fragment to its end and no further: whatever
      stands before it, and whatever follows from a byte that ends a fragment. */
  lemma {:induction false} FragmentScansBack(a: string, s: string, x: string)
    requires Bytes(s)
    requires x != "" && !IsPChar(x[0]) && x[0] !in {'/', '?', '%'}
    ensures TextEnd(a + Encoded(s, FRAGMENT_EXTRA) + x, |a|, true) == Done(|a| + |Encoded(s, FRAGMENT_EXTRA)|)
    decreases |s|
  {
    var b := a + Encoded(s, FRAGMENT_EXTRA) + x;
    if s == "" {
      assert b[|a|] == x[0];
    } else {
      var e := EncodeByte(s[0], FRAGMENT_EXTRA);
      var rest := Encoded(s[1..], FRAGMENT_EXTRA) + x;
      assert b == a + e + rest == (a + e) + Encoded(s[1..], FRAGMENT_EXTRA) + x;
      ByteScans(a, s[0], rest);
      FragmentScansBack(a + e, s[1..], x);
    }
  }

  lemma {:induction false} EncodedGrows(s: string, c: char, extra: string)
    requires Bytes(s) && c as int < 256
    ensures Bytes(s + [c])
    ensures Encoded(s + [c], extra) == Encoded(s, extra) + EncodeByte(c, extra)
  {
    if s == "" {
      assert s + [c] == [c];
      assert [c][1..] == "";
    } else {
      EncodedGrows(s[1..], c, extra);
      var t := s + [c];
      assert t[0] == s[0] && t[1..] == s[1..] + [c];
      var x, y, z := EncodeByte(s[0], extra), Encoded(s[1..], extra), EncodeByte(c, extra);
      assert x + (y + z) == x + y + z;
    }
  }

  method Encode(s: string, extra: string) returns (out: string)
    requires Bytes(s)
    ensures out == Encoded(s, extra)
    ensures '%' !in extra ==> Decoded(out) == s
  {
    out := "";
    var p := 0;
    while p < |s|
      invariant 0 <= p <= |s|
      invariant Bytes(s[..p]) && out == Encoded(s[..p], extra)
    {
      EncodedGrows(s[..p], s[p], extra);
      assert s[..p + 1] == s[..p] + [s[p]];
      if Kept(s[p], extra) {
        out := out + [s[p]];
      } else {
        var c := s[p] as int;
        out := out + ['%'] + [EncodeHex(c / 16)] + [EncodeHex(c % 16)];
      }
      p := p + 1;
    }
    assert s[..p] == s;
    if '%' !in extra {
      DecodeUndoesEncode(s, extra);
    }
  }

  lemma {:induction false} PlainDecodes(s: string, k: nat)
    requires k <= |s| && '%' !in s[..k]
    ensures Decoded(s) == s[..k] + Decoded(s[k..])
  {
    if k == 0 {
      assert s[k..] == s;
    } else {
      assert s[0] in s[..k] && s[0] != '%';
      assert s[1..][..k - 1] == s[..k][1..];
      PlainDecodes(s[1..], k - 1);
      assert s[1..][k - 1..] == s[k..];
      assert s[..k] == [s[0]] + s[1..][..k - 1];
    }
  }

  method Find(text: array<char>, c: char) returns (k: nat)
    ensures k <= text.Length && c !in text[..k]
    ensures k < text.Length ==> text[k] == c
  {
    k := 0;
    while k < text.Length && text[k] != c
      invariant k <= text.Length && c !in text[..k]
    {
      k := k + 1;
    }
  }

  /** The byte that stands at `k`, escaped or not, and where the next one starts. */
  function ByteAt(s: string, k: nat): (r: (char, nat))
    requires k < |s|
    ensures k < r.1 <= |s|
  {
    if |s| - k >= 3 && s[k] == '%' && IsHexDigit(s[k + 1]) && IsHexDigit(s[k + 2])
    then ((HexOf(s[k + 1]) * 16 + HexOf(s[k + 2])) as char, k + 3)
    else (s[k], k + 1)
  }

  /** `done` is the decoding of what stands before `k`. */
  ghost predicate DecodedTo(s: string, done: string, k: nat) {
    k <= |s| && Decoded(s) == done + Decoded(s[k..])
  }

  lemma {:induction false} DecodedFurther(s: string, done: string, k: nat)
    requires k < |s| && DecodedTo(s, done, k)
    ensures DecodedTo(s, done + [ByteAt(s, k).0], ByteAt(s, k).1)
  {
    var t := s[k..];
    assert t[1..] == s[k + 1..];
    if |t| >= 3 {
      assert t[1] == s[k + 1] && t[2] == s[k + 2] && t[3..] == s[k + 3..];
    }
  }

  /** One turn of the decoding loop: the byte read at `read` goes to `write`. */
  method DecodeStep(text: array<char>, read: nat, write: nat) returns (next: nat)
    requires write <= read < text.Length
    modifies text
    ensures read < next <= text.Length
    ensures (text[write], next) == old(ByteAt(text[..], read))
    ensures forall k :: 0 <= k < text.Length && k != write ==> text[k] == old(text[k])
  {
    if text[read] == '%' && text.Length - read >= 3 && IsHexDigit(text[read + 1]) && IsHexDigit(text[read + 2]) {
      var s := HexOf(text[read + 1]) * 16 + HexOf(text[read + 2]);
      text[write] := s as char;
      next := read + 3;
    } else {
      text[write] := text[read];
      next := read + 1;
    }
  }

  /** The same with the loop's invariant: what is still to be read is unchanged. */
  method DecodeTurn(text: array<char>, read: nat, write: nat, ghost was: string) returns (next: nat)
    requires write <= read < text.Length == |was|
    requires text[read..] == was[read..]
    requires DecodedTo(was, text[..write], read)
    modifies text
    ensures read < next <= text.Length
    ensures text[next..] == was[next..]
    ensures DecodedTo(was, text[..write + 1], next)
  {
    ghost var done, now := text[..write], text[..];
    assert forall k :: read <= k < |was| ==> now[k] == text[read..][k - read] == was[k];
    DecodedFurther(was, done, read);
    assert ByteAt(now, read) == ByteAt(was, read);
    next := DecodeStep(text, read, write);
    assert text[..write + 1] == done + [text[write]];
  }

  /** One buffer for reading and writing: `write` never passes `read`, so the bytes
      still to be read are the original ones.  The result is what is left of the buffer
      when it is cut at `write`. */
  method DecodeInPlace(text: array<char>) returns (write: nat)
    modifies text
    ensures write <= text.Length
    ensures text[..write] == Decoded(old(text[..]))
  {
    ghost var was := text[..];
    var read := Find(text, '%');
    PlainDecodes(was, read);
    write := read;
    while read < text.Length
      invariant write <= read <= text.Length
      invariant text[read..] == was[read..]
      invariant DecodedTo(was, text[..write], read)
    {
      read := DecodeTurn(text, read, write, was);
      write := write + 1;
    }
    assert was[read..] == "";
  }
}
