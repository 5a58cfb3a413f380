/** Division and remainder facts used by the rotation and budget proofs. */
module Modular {
  lemma {:induction false} MultipleIsLarge(k: nat, n: nat)
    requires k > 0
    ensures k * n >= n
  {
    if k > 1 {
      MultipleIsLarge(k - 1, n);
      assert k * n == (k - 1) * n + n;
    }
  }

  lemma MultiplesAreApart(p: nat, q: nat, n: nat)
    requires p < q
    ensures q * n >= p * n + n
  {
    var d := q - p;
    MultipleIsLarge(d, n);
    assert (p + d) * n == p * n + d * n;
  }

  /** Quotient and remainder are determined by the division equation. */
  lemma DivisionIsUnique(a: nat, q: nat, r: nat, n: nat)
    requires r < n && a == q * n + r
    ensures a / n == q && a % n == r
  {
    var q', r' := a / n, a % n;
    assert a == q' * n + r';
    if q > q' {
      MultiplesAreApart(q', q, n);
    } else if q < q' {
      MultiplesAreApart(q, q', n);
    }
  }

  lemma SmallModulo(a: nat, n: nat)
    requires a < n
    ensures a % n == a
  {
    DivisionIsUnique(a, 0, a, n);
  }

  lemma ModuloMultiple(a: nat, q: nat, n: nat)
    requires n > 0
    ensures (q * n + a) % n == a % n
  {
    assert a == a / n * n + a % n;
    assert (q + a / n) * n == q * n + a / n * n;
    DivisionIsUnique(q * n + a, q + a / n, a % n, n);
  }

  lemma ModuloAdd(a: nat, b: nat, n: nat)
    requires n > 0
    ensures (a + b) % n == (a % n + b) % n
  {
    assert a == a / n * n + a % n;
    ModuloMultiple(a % n + b, a / n, n);
  }

  /** Two numbers less than `n` apart with one remainder are equal. */
  lemma CloseAndCongruent(a: nat, b: nat, n: nat)
    requires n > 0 && a <= b < a + n && a % n == b % n
    ensures a == b
  {
    var p, q := a / n, b / n;
    assert a == p * n + a % n && b == q * n + b % n;
    if p < q {
      MultiplesAreApart(p, q, n);
    }
  }
}
