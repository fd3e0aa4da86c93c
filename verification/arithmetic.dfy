/** Division by a positive number. */
module Arithmetic {

  lemma DivModUnique(x: int, p: int, q: int, r: int)
    requires p > 0 && x == q * p + r && 0 <= r < p
    ensures x / p == q && x % p == r
  {
    var d := x / p - q;
    if d != 0 {
      NonZeroMultiple(d, p);
    }
    assert d * p == r - x % p;
  }

  lemma NonZeroMultiple(d: int, p: int)
    requires d != 0 && p > 0
    ensures d * p >= p || d * p <= -p
  {
    if d > 0 {
      assert (d - 1) * p >= 0;
    } else {
      assert (-d - 1) * p >= 0;
    }
  }

  lemma DivStep(n: nat, l: nat)
    requires l > 0
    ensures n < l ==> n / l == 0 && n % l == n
    ensures n >= l ==> n / l == (n - l) / l + 1 >= 1 && n % l == (n - l) % l
  {
    if n < l {
      DivModUnique(n, l, 0, n);
    } else {
      var q, r := (n - l) / l, (n - l) % l;
      assert n == (q + 1) * l + r by {
        assert n - l == q * l + r;
      }
      DivModUnique(n, l, q + 1, r);
    }
  }

  /** Integer quotient under a name that proofs can keep closed. */
  function Quotient(n: nat, l: nat): nat
    requires l > 0
  {
    n / l
  }

  lemma QuotientStep(n: nat, l: nat)
    requires l > 0
    ensures Quotient(n, l) == if n < l then 0 else Quotient(n - l, l) + 1
  {
    DivStep(n, l);
  }
}
