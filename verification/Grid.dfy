/** compute_divisor and compute_grid (vec.h): a number of ranks is split into three axes by dealing
    its prime factors round. */
module Grid {
  import opened Arithmetic

  predicate Divides(d: nat, n: nat) requires d > 0 { n % d == 0 }

  /** No divisor strictly between 1 and the number. */
  predicate Prime(p: nat) { p >= 2 && forall d :: 2 <= d < p ==> !Divides(d, p) }

  /** std::sqrt, rounded down. */
  function ISqrt(n: nat): (r: nat)
    ensures r * r <= n < (r + 1) * (r + 1)
  {
    ISqrtFrom(n, 0)
  }

  function ISqrtFrom(n: nat, r: nat): (s: nat)
    requires r * r <= n
    ensures s * s <= n < (s + 1) * (s + 1)
    decreases n - r * r
  {
    if n < (r + 1) * (r + 1) then r else ISqrtFrom(n, r + 1)
  }

  lemma MultipleOf(a: nat, b: nat)
    requires b > 0
    ensures (a * b) % b == 0 && (a * b) / b == a
  {
    DivMod(a * b, b, a, 0);
  }

  lemma Cofactor(n: nat, d: nat)
    requires 2 <= d <= n && Divides(d, n)
    ensures 1 <= n / d < n && Divides(n / d, n) && n == d * (n / d) && (d < n ==> 2 <= n / d)
  {
    var e := n / d;
    assert n == d * e;
    assert e >= 1;
    assert e == 1 ==> n == d;
    ProductGrows(2, d, e, e);
    MultipleOf(d, e);
  }

  /** One of two cofactors is at most the square root. */
  lemma SmallCofactor(n: nat, d: nat)
    requires 2 <= d < n && Divides(d, n)
    ensures exists e :: 2 <= e <= ISqrt(n) && Divides(e, n)
  {
    Cofactor(n, d);
    var e, s := n / d, ISqrt(n);
    if d > s && e > s {
      assert d * e >= (s + 1) * (s + 1) by { ProductGrows(s + 1, d, s + 1, e); }
    }
    assert d <= s || e <= s;
  }

  /** Found exactly for composite numbers, and then the least divisor above 1. */
  method ComputeDivisor(x: nat) returns (found: bool, divisor: nat)
    ensures found <==> x >= 2 && !Prime(x)
    ensures found ==> 2 <= divisor < x && Divides(divisor, x) && forall d :: 2 <= d < divisor ==> !Divides(d, x)
    ensures found ==> divisor == Least(x)
  {
    hide ISqrt;
    var upperBound := ISqrt(x);
    divisor := 0;
    var i := 2;
    while i <= upperBound
      invariant 2 <= i && forall d :: 2 <= d < i ==> d <= upperBound ==> !Divides(d, x)
      decreases upperBound + 1 - i
    {
      if x % i == 0 {
        assert Divides(i, x) && i < i * i <= x by { ProductGrows(i, upperBound, i, upperBound); }
        return true, i;
      }
      assert !Divides(i, x);
      i := i + 1;
    }
    found := false;
    if x >= 2 && !Prime(x) {
      var d :| 2 <= d < x && Divides(d, x);
      SmallCofactor(x, d);
    }
  }

  // ----- The sorted prime factorisation -----------------------------------------------------------------

  function LeastFrom(n: nat, d: nat): (r: nat)
    requires 2 <= d <= n && forall e :: 2 <= e < d ==> !Divides(e, n)
    ensures 2 <= r <= n && Divides(r, n) && forall e :: 2 <= e < r ==> !Divides(e, n)
    decreases n - d
  {
    DivMod(n, n, 1, 0);
    if Divides(d, n) then d else LeastFrom(n, d + 1)
  }

  /** The least divisor above 1. */
  function Least(n: nat): (r: nat)
    requires n >= 2
    ensures 2 <= r <= n && Divides(r, n) && forall e :: 2 <= e < r ==> !Divides(e, n)
  {
    LeastFrom(n, 2)
  }

  function Factors(n: nat): seq<nat> {
    if n < 2 then [] else
      SplitsOff(n);
      [Least(n)] + Factors(n / Least(n))
  }

  lemma SplitsOff(n: nat)
    requires n >= 2
    ensures 1 <= n / Least(n) < n && n == Least(n) * (n / Least(n))
  {
    Cofactor(n, Least(n));
  }

  function Product(fs: seq<nat>): nat {
    if fs == [] then 1 else fs[0] * Product(fs[1..])
  }

  lemma DividesTrans(d: nat, l: nat, n: nat)
    requires d > 0 && l > 0 && Divides(d, l) && Divides(l, n)
    ensures Divides(d, n)
  {
    var a, b := l / d, n / l;
    assert l == a * d && n == b * l;
    assert n == (b * a) * d;
    MultipleOf(b * a, d);
  }

  lemma LeastIsPrime(n: nat)
    requires n >= 2
    ensures Prime(Least(n))
  {
    var l := Least(n);
    forall d | 2 <= d < l ensures !Divides(d, l) {
      if Divides(d, l) { DividesTrans(d, l, n); }
    }
  }

  /** A divisor of what is left divides the whole, so factors come out in ascending order. */
  lemma LeastAscends(n: nat)
    requires n >= 2 && n / Least(n) >= 2
    ensures Least(n) <= Least(n / Least(n))
  {
    SplitsOff(n);
    var m := n / Least(n);
    MultipleOf(Least(n), m);
    DividesTrans(Least(m), m, n);
  }

  /** Factors lists primes, in ascending order, whose product is the number. */
  lemma {:induction false} FactorsArePrimes(n: nat)
    requires n >= 1
    ensures Product(Factors(n)) == n
    ensures forall i :: 0 <= i < |Factors(n)| ==> Prime(Factors(n)[i])
    ensures forall i, j :: 0 <= i <= j < |Factors(n)| ==> Factors(n)[i] <= Factors(n)[j]
  {
    if n >= 2 {
      SplitsOff(n);
      var l, m := Least(n), n / Least(n);
      FactorsArePrimes(m);
      LeastIsPrime(n);
      if m >= 2 { LeastAscends(n); }
      var fs := Factors(n);
      assert fs[1..] == Factors(m);
      forall i, j | 0 <= i <= j < |fs| ensures fs[i] <= fs[j] {
        if i == 0 && j > 0 { assert Factors(m)[0] <= Factors(m)[j-1]; }
      }
    }
  }

  // ----- There is only one such factorisation -------------------------------------------------------------

  /** The least multiplier from x on that makes a multiple of p out of a. */
  function LeastMultiplier(a: nat, p: nat, x: nat): (m: nat)
    requires 1 <= x <= p && forall y :: 1 <= y < x ==> !Divides(p, a * y)
    ensures 1 <= m <= p && Divides(p, a * m) && forall y :: 1 <= y < m ==> !Divides(p, a * y)
    decreases p - x
  {
    MultipleOf(a, p);
    if Divides(p, a * x) then x else LeastMultiplier(a, p, x + 1)
  }

  lemma RemainderOfMultiples(p: nat, u: nat, v: nat, q: nat)
    requires p > 0 && Divides(p, u) && Divides(p, v) && q * v <= u
    ensures Divides(p, u - q * v)
  {
    var i, j := u / p, v / p;
    assert u == i * p && v == j * p;
    assert u - q * v == (i - q * j) * p;
    MultipleOf(i - q * j, p);
  }

  /** Any multiplier is a multiple of the least one. */
  lemma MultipliersAreMultiples(a: nat, p: nat, y: nat)
    requires p >= 1 && Divides(p, a * y)
    ensures var m := LeastMultiplier(a, p, 1); y % m == 0
  {
    var m := LeastMultiplier(a, p, 1);
    var q, r := y / m, y % m;
    assert y == q * m + r;
    assert a * y == q * (a * m) + a * r;
    RemainderOfMultiples(p, a * y, a * m, q);
    assert Divides(p, a * r);
  }

  /** A prime that divides a product divides a factor. */
  lemma Euclid(p: nat, a: nat, b: nat)
    requires Prime(p) && Divides(p, a * b)
    ensures Divides(p, a) || Divides(p, b)
  {
    var m := LeastMultiplier(a, p, 1);
    MultipliersAreMultiples(a, p, b);
    MultipleOf(a, p);
    MultipliersAreMultiples(a, p, p);
    assert Divides(m, p);
    assert m == 1 || m == p;
    assert m == 1 ==> Divides(p, a * 1);
  }

  lemma {:induction false} PrimeAmong(p: nat, fs: seq<nat>)
    requires Prime(p) && Divides(p, Product(fs)) && forall i :: 0 <= i < |fs| ==> Prime(fs[i])
    ensures p in fs
  {
    if fs != [] {
      Euclid(p, fs[0], Product(fs[1..]));
      if Divides(p, fs[0]) {
        DivisorIsSmaller(p, fs[0]);
      } else {
        PrimeAmong(p, fs[1..]);
      }
    }
  }

  lemma DivisorIsSmaller(d: nat, n: nat)
    requires d >= 1 && n >= 1 && Divides(d, n)
    ensures d <= n
  {
  }

  /** Primes in ascending order are the factors of their product: the order of dealing is determined. */
  lemma {:induction false} SortedPrimesAreFactors(fs: seq<nat>)
    requires forall i :: 0 <= i < |fs| ==> Prime(fs[i])
    requires forall i, j :: 0 <= i <= j < |fs| ==> fs[i] <= fs[j]
    ensures Product(fs) >= 1 && Factors(Product(fs)) == fs
  {
    if fs != [] {
      var rest := fs[1..];
      SortedPrimesAreFactors(rest);
      var n := Product(fs);
      assert n == fs[0] * Product(rest);
      ProductGrows(2, fs[0], 1, Product(rest));
      MultipleOf(Product(rest), fs[0]);
      assert Divides(fs[0], n);
      LeastIsPrime(n);
      PrimeAmong(Least(n), fs);
      assert Least(n) == fs[0];
    }
  }

  // ----- Dealing them over three axes -----------------------------------------------------------------------

  /** The product of the factors at positions j, j + 3, j + 6, ... */
  function Dealt(fs: seq<nat>, j: nat): nat {
    if fs == [] then 1
    else Dealt(fs[..|fs|-1], j) * (if (|fs| - 1) % 3 == j then fs[|fs|-1] else 1)
  }

  lemma DealtSnoc(fs: seq<nat>, f: nat, j: nat)
    ensures Dealt(fs + [f], j) == Dealt(fs, j) * (if |fs| % 3 == j then f else 1)
  {
    assert (fs + [f])[..|fs|] == fs;
  }

  lemma PrimeFactors(p: nat)
    requires Prime(p)
    ensures Factors(p) == [p]
  {
    assert Divides(Least(p), p);
    assert p / p == 1 && Factors(1) == [];
  }

  /** Dealing a factor changes one axis. */
  lemma Deal(fs: seq<nat>, f: nat, grid: seq<nat>, axis: nat)
    requires |grid| == 3 && axis == |fs| % 3 && forall j :: 0 <= j < 3 ==> grid[j] == Dealt(fs, j)
    ensures forall j :: 0 <= j < 3 ==> grid[axis := grid[axis] * f][j] == Dealt(fs + [f], j)
    ensures (axis + 1) % 3 == |fs + [f]| % 3
  {
    hide Dealt;
    DealtSnoc(fs, f, 0);
    DealtSnoc(fs, f, 1);
    DealtSnoc(fs, f, 2);
    NextAxis(|fs|);
  }

  lemma NextAxis(n: nat)
    ensures (n % 3 + 1) % 3 == (n + 1) % 3
  {
  }

  lemma MoreFactors(dealt: seq<nat>, n: nat)
    requires n >= 2
    ensures n / Least(n) >= 1 && dealt + Factors(n) == (dealt + [Least(n)]) + Factors(n / Least(n))
  {
    SplitsOff(n);
    var l, rest := Least(n), Factors(n / Least(n));
    assert Factors(n) == [l] + rest;
    hide Factors, Least, Divides;
    assert dealt + ([l] + rest) == (dealt + [l]) + rest;
  }

  lemma LastFactors(dealt: seq<nat>, n: nat)
    ensures Prime(n) ==> dealt + Factors(n) == dealt + [n]
    ensures n == 1 ==> dealt + Factors(n) == dealt
  {
    if Prime(n) { PrimeFactors(n); }
    assert Factors(1) == [];
    hide Factors;
  }

  /** The loop deals one least divisor at a time; what is left at the end is 1 or a prime. */
  method ComputeGrid(num: nat) returns (grid: seq<nat>)
    ensures |grid| == 3
    ensures num >= 1 ==> forall j :: 0 <= j < 3 ==> grid[j] == Dealt(Factors(num), j)
    ensures num == 0 ==> grid == [0, 1, 1]
  {
    hide Prime, Factors, Dealt, Divides, Least;
    grid := [1, 1, 1];
    var axis, n := 0, num;
    ghost var dealt: seq<nat> := [];
    NothingDealt();
    assert [] + Factors(num) == Factors(num);
    var more, divisor := ComputeDivisor(n);
    while more
      invariant |grid| == 3 && axis == |dealt| % 3
      invariant if num == 0 then n == 0 && dealt == [] && grid == [1, 1, 1] else n >= 1 && Factors(num) == dealt + Factors(n)
      invariant forall j :: 0 <= j < 3 ==> grid[j] == Dealt(dealt, j)
      invariant more <==> n >= 2 && !Prime(n)
      invariant more ==> divisor == Least(n)
      decreases n
    {
      SplitsOff(n);
      Deal(dealt, divisor, grid, axis);
      MoreFactors(dealt, n);
      grid := grid[axis := grid[axis] * divisor];
      dealt := dealt + [divisor];
      n := n / divisor;
      axis := (axis + 1) % 3;
      more, divisor := ComputeDivisor(n);
    }
    LastFactors(dealt, n);
    if n != 1 {
      Deal(dealt, n, grid, axis);
      grid := grid[axis := grid[axis] * n];
    }
  }

  lemma NothingDealt()
    ensures forall j :: 0 <= j < 3 ==> Dealt([], j) == 1
  {
  }

  // ----- What the grid is like -----------------------------------------------------------------------------------

  lemma {:induction false} ProductSnoc(fs: seq<nat>, f: nat)
    ensures Product(fs + [f]) == Product(fs) * f
  {
    if fs == [] {
      assert ([] + [f])[1..] == [];
    } else {
      assert (fs + [f])[1..] == fs[1..] + [f];
      ProductSnoc(fs[1..], f);
      assert fs[0] * (Product(fs[1..]) * f) == (fs[0] * Product(fs[1..])) * f;
    }
  }

  lemma {:induction false} DealtProduct(fs: seq<nat>)
    ensures Dealt(fs, 0) * Dealt(fs, 1) * Dealt(fs, 2) == Product(fs)
  {
    if fs != [] {
      var front, last := fs[..|fs|-1], fs[|fs|-1];
      assert fs == front + [last];
      DealtProduct(front);
      ProductSnoc(front, last);
      Insert(Dealt(front, 0), Dealt(front, 1), Dealt(front, 2), last);
    }
  }

  lemma Insert(a: nat, b: nat, c: nat, f: nat)
    ensures (a * f) * b * c == a * b * c * f && a * (b * f) * c == a * b * c * f && a * b * (c * f) == a * b * c * f
  {
  }

  /** The axes multiply to the number of ranks. */
  lemma GridMultiplies(num: nat)
    requires num >= 1
    ensures Dealt(Factors(num), 0) * Dealt(Factors(num), 1) * Dealt(Factors(num), 2) == num
  {
    DealtProduct(Factors(num));
    FactorsArePrimes(num);
  }

  /** Said from the front: the first three factors go to the three axes, and then it is the first axis' turn again. */
  lemma {:induction false} DealtRound(fs: seq<nat>, j: nat)
    requires j < 3
    ensures Dealt(fs, j) == (if j < |fs| then fs[j] else 1) * (if |fs| <= 3 then 1 else Dealt(fs[3..], j))
    decreases |fs|
  {
    if fs == [] {
      NothingDealt();
    } else {
      var k := |fs| - 1;
      var front, last := fs[..k], fs[k];
      assert fs == front + [last];
      DealtRound(front, j);
      DealtSnoc(front, last, j);
      if k >= 3 {
        assert fs[3..] == front[3..] + [last];
        DealtSnoc(front[3..], last, j);
        NothingDealt();
        hide Dealt;
        assert (k - 3) % 3 == k % 3;
        if k == 3 { assert front[3..] == []; }
        Regroup(front[j], Dealt(front[3..], j), if k % 3 == j then last else 1);
      }
    }
  }

  lemma Regroup(a: nat, b: nat, c: nat)
    ensures (a * b) * c == a * (b * c)
  {
  }

  predicate Ascending(fs: seq<nat>) {
    (forall i :: 0 <= i < |fs| ==> fs[i] >= 1) && forall i, j :: 0 <= i <= j < |fs| ==> fs[i] <= fs[j]
  }

  function Largest(fs: seq<nat>): nat { if fs == [] then 1 else fs[|fs|-1] }

  predicate Balanced(lo: nat, mid: nat, hi: nat, bound: nat) {
    1 <= lo <= mid <= hi <= lo * bound
  }

  /** Multiplying the smallest of three balanced numbers by something not below the old bound makes it the largest. */
  lemma StillBalanced(lo: nat, mid: nat, hi: nat, bound: nat, f: nat)
    requires Balanced(lo, mid, hi, bound) && bound <= f
    ensures Balanced(mid, hi, lo * f, f)
  {
    ProductGrows(lo, lo, bound, f);
    ProductGrows(lo, mid, f, f);
  }

  /** Dealing ascending factors: the next axis in turn is the smallest, the one dealt to last the largest,
      and the largest is at most the last factor times the smallest. */
  lemma {:induction false} DealtBalanced(fs: seq<nat>)
    requires Ascending(fs)
    ensures var k := |fs|;
            Balanced(Dealt(fs, k % 3), Dealt(fs, (k + 1) % 3), Dealt(fs, (k + 2) % 3), Largest(fs))
  {
    hide Dealt, Balanced;
    if fs == [] {
      NothingDealt();
      AllOnes();
    } else {
      var k := |fs|;
      var front, last := fs[..k-1], fs[k-1];
      assert fs == front + [last];
      AscendingFront(fs);
      hide Ascending, Largest;
      DealtBalanced(front);
      var a, b, c := k % 3, (k + 1) % 3, (k + 2) % 3;
      assert (k - 1) % 3 == c && a != c && b != c;
      DealtElsewhere(front, last, a);
      DealtElsewhere(front, last, b);
      DealtSnoc(front, last, c);
      StillBalanced(Dealt(front, c), Dealt(front, a), Dealt(front, b), Largest(front), last);
    }
  }

  lemma AscendingFront(fs: seq<nat>)
    requires Ascending(fs) && fs != []
    ensures Ascending(fs[..|fs|-1]) && Largest(fs[..|fs|-1]) <= fs[|fs|-1] == Largest(fs)
  {
    if |fs| > 1 { assert fs[|fs|-2] <= fs[|fs|-1]; }
  }

  lemma AllOnes()
    ensures Balanced(1, 1, 1, 1)
  {
  }

  lemma DealtElsewhere(fs: seq<nat>, f: nat, j: nat)
    requires |fs| % 3 != j
    ensures Dealt(fs + [f], j) == Dealt(fs, j)
  {
    DealtSnoc(fs, f, j);
  }

  /** compute_grid is balanced: the order of its axes is fixed by the number of prime factors, and the
      largest is at most the smallest times the largest prime factor. */
  lemma GridIsBalanced(num: nat)
    requires num >= 1
    ensures var fs := Factors(num);
            var k := |fs|;
            var x, y, z := Dealt(fs, 0), Dealt(fs, 1), Dealt(fs, 2);
            && (k % 3 == 0 ==> 1 <= x <= y <= z <= x * Largest(fs))
            && (k % 3 == 1 ==> 1 <= y <= z <= x <= y * Largest(fs))
            && (k % 3 == 2 ==> 1 <= z <= x <= y <= z * Largest(fs))
  {
    hide Dealt, Factors;
    FactorsArePrimes(num);
    DealtBalanced(Factors(num));
    var k := |Factors(num)|;
    assert k % 3 == 0 ==> (k + 1) % 3 == 1 && (k + 2) % 3 == 2;
    assert k % 3 == 1 ==> (k + 1) % 3 == 2 && (k + 2) % 3 == 0;
    assert k % 3 == 2 ==> (k + 1) % 3 == 0 && (k + 2) % 3 == 1;
  }

  /** A prime number of ranks stands in a row along the first axis. */
  lemma PrimeInARow(num: nat)
    requires Prime(num)
    ensures Dealt(Factors(num), 0) == num && Dealt(Factors(num), 1) == 1 && Dealt(Factors(num), 2) == 1
  {
    PrimeFactors(num);
    DealtRound([num], 0);
    DealtRound([num], 1);
    DealtRound([num], 2);
  }
}
