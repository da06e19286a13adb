/** Sums and counts over sequences and ranges, for the termination measures. */
module Sums {
  function Sum(xs: seq<nat>): nat { if xs == [] then 0 else xs[0] + Sum(xs[1..]) }

  lemma {:induction false} SumUpdate(xs: seq<nat>, i: nat, v: nat)
    requires i < |xs|
    ensures Sum(xs[i := v]) + xs[i] == Sum(xs) + v
  {
    if i == 0 {
      assert xs[0 := v][1..] == xs[1..];
    } else {
      SumUpdate(xs[1..], i - 1, v);
      assert xs[i := v][1..] == xs[1..][i-1 := v];
    }
  }

  lemma {:induction false} SumZero(xs: seq<nat>)
    ensures Sum(xs) == 0 <==> forall i :: 0 <= i < |xs| ==> xs[i] == 0
  {
    if xs != [] {
      SumZero(xs[1..]);
      if Sum(xs) == 0 {
        forall i | 0 <= i < |xs| ensures xs[i] == 0 { if i > 0 { assert xs[1..][i-1] == 0; } }
      }
    }
  }

  /** The numbers from lo up to, not including, hi. */
  function Interval(lo: nat, hi: nat): (r: set<nat>)
    ensures forall i: nat :: i in r <==> lo <= i < hi
    ensures |r| == if lo <= hi then hi - lo else 0
  {
    if hi <= lo then {} else Interval(lo, hi - 1) + {hi - 1}
  }

  lemma {:induction false} SubsetSize(a: set<nat>, b: set<nat>)
    requires a <= b
    ensures |a| <= |b| && (|a| == |b| ==> a == b)
  {
    if a != {} {
      var x: nat :| x in a;
      SubsetSize(a - {x}, b - {x});
      assert a == (a - {x}) + {x} && b == (b - {x}) + {x};
    } else if b != {} {
      var x: nat :| x in b;
      assert |b| > 0;
    }
  }
}
