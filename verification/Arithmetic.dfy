/** Facts about products and remainders with a variable divisor. */
module Arithmetic {

  predicate Divides(c: nat, x: nat) { 0 < c && x % c == 0 }

  lemma {:induction false} MulAtLeast(c: nat, k: nat)
    requires 0 < k
    ensures c <= c * k
    decreases k
  {
    if 1 < k {
      MulAtLeast(c, k - 1);
      assert c * k == c * (k - 1) + c;
    }
  }

  /** A multiple of `c` smaller than `c` is zero. */
  lemma SmallMultiple(c: nat, k: int)
    requires 0 - c < c * k < c
    ensures k == 0
  {
    assert c * (0 - k) == 0 - c * k;
    if 0 < k { MulAtLeast(c, k); }
    if k < 0 { MulAtLeast(c, -k); }
  }

  /** Quotient and remainder are unique. */
  lemma DivMod(c: nat, q: nat, r: nat, x: nat)
    requires 0 < c && x == c * q + r && r < c
    ensures x / c == q && x % c == r
  {
    var m, s := x / c, x % c;
    assert x == c * m + s;
    assert c * (q - m) == c * q - c * m;
    SmallMultiple(c, q - m);
  }

  /** A number below `c` behind a digit below `k`. */
  lemma RestBelow(c: nat, k: nat, u: nat, r: nat)
    requires u < k && r < c
    ensures c * u + r < c * k
  {
    assert c * k == c * u + c * (k - u);
    MulAtLeast(c, k - u);
  }

  /** A multiple below a multiple leaves room for one more. */
  lemma DigitFits(c: nat, k: nat, u: nat)
    requires c * u < c * k
    ensures u < k && c * u + c <= c * k
  {
    if k <= u { MulMonotone(c, k, u); }
    assert c * (k - u) == c * k - c * u;
    MulAtLeast(c, k - u);
  }

  lemma MulMonotone(c: nat, k: nat, u: nat)
    requires k <= u
    ensures c * k <= c * u
  {
    assert c * u == c * k + c * (u - k);
  }

  lemma SplitProduct(c: nat, k: nat, t: nat, u: nat)
    ensures c * (k * t + u) == (c * k) * t + c * u
  {
    assert c * (k * t + u) == c * (k * t) + c * u;
    assert c * (k * t) == (c * k) * t;
  }

  /** Counting on in a ring. */
  lemma NextRemainder(n: nat, k: nat)
    requires 0 < n
    ensures (k % n + 1) % n == (k + 1) % n
  {
    var q, r := k / n, k % n;
    assert k == n * q + r;
    if r + 1 < n {
      DivMod(n, q, r + 1, k + 1);
      DivMod(n, 0, r + 1, r + 1);
    } else {
      assert n * (q + 1) == n * q + n;
      DivMod(n, q + 1, 0, k + 1);
      DivMod(n, 1, 0, n);
    }
  }

  lemma MultipleMod(c: nat, k: nat, x: nat)
    requires 0 < c && x == c * k
    ensures x % c == 0
  {
    DivMod(c, k, 0, x);
  }
}
