/** The byte classes of the scanners: what they are in terms of the characters that the
    grammars leave out, and that the bit tricks the code uses for them are exact. */
module HttpBytes {
  import opened HttpScan

  /** Token characters are the visible characters other than delimiters. */
  lemma TokenCharsAre(c: char)
    ensures IsTokenChar(c) <==>
      '!' <= c <= '~' && c !in {'"', '(', ')', ',', '/', ':', ';', '<', '=', '>', '?', '@', '[', '\\', ']', '{', '}'}
  {
  }

  /** Path characters are the visible characters other than those that a URI reserves to
      separate its parts or does not allow at all. */
  lemma PathCharsAre(c: char)
    ensures IsPChar(c) <==>
      '!' <= c <= '~' && c !in {'"', '#', '%', '/', '<', '>', '?', '[', '\\', ']', '^', '`', '{', '|', '}'}
  {
  }

  /** The bitmap in which a byte is looked up, its low and its high word. */
  function PathMask(n: bv64): bv64 { if n < 64 then 0x2fff7fd200000000 else 0x47fffffe87ffffff }

  predicate InPathMask(n: bv64) { n < 128 && (PathMask(n) >> (n & 63)) & 1 == 1 }

  lemma PathMaskRanges(n: bv64)
    ensures InPathMask(n) <==>
      || n == 33 || n == 36 || (38 <= n && n <= 46) || (48 <= n && n <= 59) || n == 61
      || (64 <= n && n <= 90) || n == 95 || (97 <= n && n <= 122) || n == 126
  {
  }

  /** A byte has its bit there if and only if it is a path character. */
  lemma PathMaskIsExact(n: bv64)
    requires n < 0x100
    ensures InPathMask(n) <==> IsPChar(n as char)
  {
    PathMaskRanges(n);
    var code := n as int;
  }

  /** Setting the case bit compares a byte with a lower-case letter up to case. */
  lemma CaseBit(n: bv8, letter: bv8)
    requires 0x61 <= letter && letter <= 0x7a
    ensures n | 0x20 == letter <==> SameButCase(n as char, letter as char)
  {
    assert n | 0x20 == letter <==> n == letter || n == letter - 0x20;
    var code, other := n as int, letter as int;
  }
}
