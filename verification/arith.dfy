/** Facts about products, quotients and remainders of naturals used by the index re-layouts. */
module Arith {

  lemma MulMono(a: nat, b: nat, c: nat)
    requires a <= b
    ensures a * c <= b * c
  {
    assert b * c == a * c + (b - a) * c;
  }

  /** `x / k == q` whenever `q * k <= x < q * k + k`. */
  lemma DivUnique(x: nat, k: nat, q: nat)
    requires k >= 1 && q * k <= x < q * k + k
    ensures x / k == q
  {
    var q' := x / k;
    assert q' * k <= x < q' * k + k;
    if q' < q { MulMono(q' + 1, q, k); }
    if q' > q { MulMono(q + 1, q', k); }
  }

  /** `q * k <= x` bounds `q` by the quotient. */
  lemma DivLower(x: nat, k: nat, q: nat)
    requires k >= 1 && q * k <= x
    ensures q <= x / k
  {
    if x / k < q {
      assert x < (x / k) * k + k;
      MulMono(x / k + 1, q, k);
    }
  }

  /** Row `h * k + r` of a tensor viewed as blocks of `k` rows is row `r` of block `h`. */
  lemma BlockIndex(h: nat, k: nat, r: nat)
    requires r < k
    ensures (h * k + r) / k == h && (h * k + r) % k == r
  {
    DivUnique(h * k + r, k, h);
  }

  /** An index below `a * b` lies in one of the `a` blocks of `b`. */
  lemma BlockBound(i: nat, a: nat, b: nat)
    requires i < a * b
    ensures b >= 1 && i / b < a && (i / b) * b + i % b == i
  {
    if i / b >= a { MulMono(a, i / b, b); }
  }

  /** Taking one block of `k` off a whole number of blocks leaves a whole number of blocks. */
  lemma ModStep(n: nat, k: nat)
    requires k >= 1 && n % k == 0 && n > 0
    ensures n >= k && (n - k) % k == 0 && (n - k) / k == n / k - 1
  {
    var q := n / k;
    assert n == q * k;
    assert q >= 1;
    assert n - k == (q - 1) * k;
    BlockIndex(q - 1, k, 0);
  }

  lemma ModAddStep(n: nat, k: nat)
    requires k >= 1 && n % k == 0
    ensures (n + k) % k == 0
  {
    var q := n / k;
    assert n == q * k;
    assert n + k == (q + 1) * k;
    BlockIndex(q + 1, k, 0);
  }

  lemma DivPositive(n: nat, k: nat)
    requires k >= 1 && n >= 1 && n % k == 0
    ensures n / k >= 1
  {
  }

  /** `n` split into `g` equal groups of `n / g`: there are `n / (n / g) == g` of them. */
  lemma GroupCount(n: nat, g: nat)
    requires g >= 1 && n % g == 0 && n / g >= 1
    ensures n % (n / g) == 0 && n / (n / g) == g
  {
    var s := n / g;
    assert n == g * s;
    BlockIndex(g, s, 0);
  }

  /** One more block of `k`. */
  lemma MulSucc(h: nat, k: nat)
    ensures (h + 1) * k == h * k + k
  {
  }

  /** An even number is twice its half. */
  lemma Halves(n: nat)
    ensures n % 2 == 0 ==> n == 2 * (n / 2)
  {
  }
}
