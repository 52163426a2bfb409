/** Multiplication and division by a symbolic radix, by repeated addition and
    subtraction.  They are the built-in operations (`TimesIsProduct`,
    `QuotRemIsDivision`); the recursive form keeps nonlinear arithmetic out of
    the proofs that only need the facts below. */
module Radix {

  function Times(n: nat, w: nat): (r: nat) {
    if n == 0 then 0 else Times(n - 1, w) + w
  }

  function Quot(x: nat, w: nat): (r: nat)
    requires 1 <= w
  {
    if x < w then 0 else 1 + Quot(x - w, w)
  }

  function Rem(x: nat, w: nat): (r: nat)
    requires 1 <= w
    ensures r < w && r <= x
  {
    if x < w then x else Rem(x - w, w)
  }

  lemma {:induction false} TimesIsProduct(n: nat, w: nat)
    ensures Times(n, w) == n * w
  {
    if n > 0 {
      TimesIsProduct(n - 1, w);
      assert n * w == (n - 1) * w + w;
    }
  }

  lemma {:induction false} QuotRem(x: nat, w: nat)
    requires 1 <= w
    ensures x == Times(Quot(x, w), w) + Rem(x, w)
  {
    if x >= w {
      QuotRem(x - w, w);
    }
  }

  /** Quotient and remainder are determined by the equation they satisfy. */
  lemma {:induction false} QuotRemUnique(x: nat, w: nat, q: nat, r: nat)
    requires 1 <= w && r < w && x == Times(q, w) + r
    ensures Quot(x, w) == q && Rem(x, w) == r
  {
    if q > 0 {
      QuotRemUnique(x - w, w, q - 1, r);
    }
  }

  lemma QuotRemIsDivision(x: nat, w: nat)
    requires 1 <= w
    ensures Quot(x, w) == x / w && Rem(x, w) == x % w
  {
    var q, r := x / w, x % w;
    assert x == q * w + r;
    TimesIsProduct(q, w);
    QuotRemUnique(x, w, q, r);
  }

  lemma {:induction false} TimesAdd(m: nat, n: nat, w: nat)
    ensures Times(m + n, w) == Times(m, w) + Times(n, w)
  {
    if n > 0 {
      TimesAdd(m, n - 1, w);
    }
  }

  lemma TimesMono(m: nat, n: nat, w: nat)
    requires m <= n
    ensures Times(m, w) <= Times(n, w)
    ensures 1 <= w && m < n ==> Times(m, w) < Times(n, w)
  {
    TimesAdd(m, n - m, w);
    if m < n {
      TimesAdd(1, n - m - 1, w);
    }
  }

  lemma {:induction false} TimesDistributes(n: nat, a: nat, b: nat)
    ensures Times(n, a + b) == Times(n, a) + Times(n, b)
  {
    if n > 0 {
      TimesDistributes(n - 1, a, b);
    }
  }

  lemma {:induction false} TimesAssoc(a: nat, b: nat, w: nat)
    ensures Times(a, Times(b, w)) == Times(Times(a, b), w)
  {
    if a > 0 {
      TimesAssoc(a - 1, b, w);
      TimesAdd(Times(a - 1, b), b, w);
    }
  }

  lemma {:induction false} TimesOne(n: nat)
    ensures Times(n, 1) == n && Times(1, n) == n && Times(n, 0) == 0
  {
    if n > 0 {
      TimesOne(n - 1);
    }
  }

  lemma {:induction false} TimesComm(a: nat, b: nat)
    ensures Times(a, b) == Times(b, a)
  {
    if a == 0 {
      TimesOne(b);
    } else {
      TimesComm(a - 1, b);
      TimesDistributes(b, a - 1, 1);
      TimesOne(b);
    }
  }

  /** A remainder may be taken before or after adding. */
  lemma RemAdd(n: nat, j: nat, w: nat)
    requires 1 <= w
    ensures Rem(n + j, w) == Rem(Rem(n, w) + j, w)
  {
    var q, r := Quot(Rem(n, w) + j, w), Rem(Rem(n, w) + j, w);
    QuotRem(n, w);
    QuotRem(Rem(n, w) + j, w);
    TimesAdd(Quot(n, w), q, w);
    QuotRemUnique(n + j, w, Quot(n, w) + q, r);
  }

  /** Being a multiple. */
  lemma MultipleOf(x: nat, w: nat)
    requires 1 <= w && Rem(x, w) == 0
    ensures x == Times(Quot(x, w), w)
  {
    QuotRem(x, w);
  }

  lemma TimesIsMultiple(n: nat, w: nat)
    requires 1 <= w
    ensures Rem(Times(n, w), w) == 0 && Quot(Times(n, w), w) == n
  {
    QuotRemUnique(Times(n, w), w, n, 0);
  }

  /** Moving a multiple by `j` more. */
  lemma MultipleShift(x: nat, j: nat, w: nat)
    requires 1 <= w && Rem(x, w) == 0
    ensures Rem(x + Times(j, w), w) == 0
    ensures Quot(x + Times(j, w), w) == Quot(x, w) + j
  {
    MultipleOf(x, w);
    TimesAdd(Quot(x, w), j, w);
    TimesIsMultiple(Quot(x, w) + j, w);
  }

  /** Order of multiples is the order of their quotients. */
  lemma MultiplesOrder(m: nat, n: nat, w: nat)
    requires 1 <= w
    ensures m < n <==> Times(m, w) < Times(n, w)
    ensures m < n ==> Times(m, w) + w <= Times(n, w)
  {
    if m < n {
      TimesMono(m + 1, n, w);
    } else {
      TimesMono(n, m, w);
    }
  }

  function RoundDown(x: nat, w: nat): (r: nat)
    requires 1 <= w
    ensures r <= x < r + w
  {
    x - Rem(x, w)
  }

  function RoundUp(x: nat, w: nat): (r: nat)
    requires 1 <= w
    ensures x <= r < x + w
  {
    RoundDown(x + w - 1, w)
  }

  lemma RoundDownIsMultiple(x: nat, w: nat)
    requires 1 <= w
    ensures RoundDown(x, w) == Times(Quot(x, w), w)
    ensures Rem(RoundDown(x, w), w) == 0 && Quot(RoundDown(x, w), w) == Quot(x, w)
  {
    QuotRem(x, w);
    TimesIsMultiple(Quot(x, w), w);
  }

  /** Rounding up gives the least multiple not below. */
  lemma RoundUpLeast(x: nat, w: nat, m: nat)
    requires 1 <= w
    ensures Rem(RoundUp(x, w), w) == 0
    ensures Rem(m, w) == 0 && x <= m ==> RoundUp(x, w) <= m
  {
    RoundDownIsMultiple(x + w - 1, w);
    if Rem(m, w) == 0 && x <= m < RoundUp(x, w) {
      MultipleOf(m, w);
      MultiplesOrder(Quot(m, w), Quot(x + w - 1, w), w);
    }
  }

  // ------------------------------------------------------------------- powers of two

  function Pow2(n: nat): (r: nat)
    ensures 1 <= r
  {
    if n == 0 then 1 else 2 * Pow2(n - 1)
  }

  lemma {:induction false} Pow2Splits(m: nat, n: nat)
    ensures Pow2(m + n) == Times(Pow2(m), Pow2(n))
  {
    if n == 0 {
      TimesOne(Pow2(m));
    } else {
      Pow2Splits(m, n - 1);
      TimesDistributes(Pow2(m), Pow2(n - 1), Pow2(n - 1));
    }
  }

  lemma {:induction false} Pow2Grows(m: nat, n: nat)
    requires m <= n
    ensures Pow2(m) <= Pow2(n)
  {
    if m < n { Pow2Grows(m, n - 1); }
  }
}
