/** Products and quotients. */
module Arithmetic {
  lemma ProductGrows(a: nat, a': nat, b: nat, b': nat)
    requires a <= a' && b <= b'
    ensures a * b <= a' * b'
  {
    assert a * b <= a' * b <= a' * b';
  }

  /** Quotient and remainder are unique. */
  lemma DivMod(n: nat, b: nat, q: nat, r: nat)
    requires n == q * b + r && r < b
    ensures n / b == q && n % b == r
  {
    var q', r' := n / b, n % b;
    assert n == q' * b + r';
    if q < q' {
      ProductGrows(q + 1, q', b, b);
      assert false;
    }
    if q' < q {
      ProductGrows(q' + 1, q, b, b);
      assert false;
    }
  }
}
