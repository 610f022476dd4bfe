/** The few facts about division that block addresses need. */
module Division {
  lemma MulMono(n: nat, a: int, b: int)
    requires a <= b
    ensures n * a <= n * b
  {
  }

  // Stepping past a multiple of n.
  lemma MulStep(n: nat, a: int, b: int)
    requires a < b
    ensures n * a + n <= n * b
  {
    MulMono(n, a + 1, b);
    assert n * (a + 1) == n * a + n;
  }

  lemma DivUnique(a: int, n: nat, q: int, r: int)
    requires n > 0 && a == n * q + r && 0 <= r < n
    ensures a / n == q && a % n == r
  {
    var q', r' := a / n, a % n;
    assert a == n * q' + r';
    if q < q' {
      MulStep(n, q, q');
    } else if q' < q {
      MulStep(n, q', q);
    }
  }

  lemma DivMod(a: nat, n: nat)
    requires n > 0
    ensures a == n * (a / n) + a % n && 0 <= a % n < n && 0 <= a / n
  {
    if a / n < 0 { MulMono(n, a / n, -1); }
  }

  /** Dividing by a product is dividing twice. */
  lemma DivDiv(a: nat, m: nat, n: nat)
    requires m > 0 && n > 0
    ensures m * n > 0
    ensures a / (m * n) == (a / m) / n
  {
    DivMod(a, m);
    var q, r := a / m, a % m;
    DivMod(q, n);
    var i, j := q / n, q % n;
    MulStep(m, j, n);
    assert m * (n * i + j) == m * (n * i) + m * j;
    assert m * (n * i) == (m * n) * i;
    MulMono(m, 1, n);
    MulMono(m, 0, j);
    DivUnique(a, m * n, i, m * j + r);
  }

  // Rounding up.
  function Ceil(a: nat, n: nat): (r: nat)
    requires n > 0
  {
    DivMod(a + n - 1, n);
    (a + n - 1) / n
  }

  // The groups of n that cover a: enough of them, and one fewer is too few.
  lemma CeilBound(a: nat, n: nat)
    requires n > 0
    ensures a <= n * Ceil(a, n) < a + n
  {
    DivMod(a + n - 1, n);
  }

  // The smallest number of groups of n that covers a.
  lemma CeilLeast(a: nat, n: nat, k: nat)
    requires n > 0 && a <= n * k
    ensures Ceil(a, n) <= k
  {
    CeilBound(a, n);
    if k < Ceil(a, n) { MulStep(n, k, Ceil(a, n)); }
  }

  // Whatever lies below a lies in one of its groups.
  lemma DivBelow(b: nat, a: nat, n: nat)
    requires n > 0 && b < a
    ensures 0 <= b / n < Ceil(a, n)
  {
    DivMod(b, n);
    CeilBound(a, n);
    if Ceil(a, n) <= b / n { MulMono(n, Ceil(a, n), b / n); }
  }

  lemma CeilMono(a: nat, b: nat, n: nat)
    requires n > 0 && a <= b
    ensures Ceil(a, n) <= Ceil(b, n)
  {
    CeilBound(b, n);
    CeilLeast(a, n, Ceil(b, n));
  }

  lemma CeilCeilUp(a: nat, m: nat, n: nat)
    requires m > 0 && n > 0 && m * n > 0
    ensures Ceil(a, m * n) <= Ceil(Ceil(a, m), n)
  {
    var once, twice := Ceil(a, m), Ceil(Ceil(a, m), n);
    CeilBound(a, m);
    CeilBound(once, n);
    MulMono(m, once, n * twice);
    assert m * (n * twice) == (m * n) * twice;
    CeilLeast(a, m * n, twice);
  }

  lemma CeilCeilDown(a: nat, m: nat, n: nat)
    requires m > 0 && n > 0 && m * n > 0
    ensures Ceil(Ceil(a, m), n) <= Ceil(a, m * n)
  {
    var both := Ceil(a, m * n);
    CeilBound(a, m * n);
    assert (m * n) * both == m * (n * both);
    CeilLeast(a, m, n * both);
    CeilLeast(Ceil(a, m), n, both);
  }

  /** Rounding up by a product is rounding up twice. */
  lemma CeilCeil(a: nat, m: nat, n: nat)
    requires m > 0 && n > 0
    ensures m * n > 0 && Ceil(a, m * n) == Ceil(Ceil(a, m), n)
  {
    DivDiv(0, m, n);
    CeilCeilUp(a, m, n);
    CeilCeilDown(a, m, n);
  }
}
