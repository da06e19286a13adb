/** query()'s division of M simulation ranks among N client ranks (is_client.cpp:88-110). */
module Partition {
  import opened Arithmetic
  import opened Sums

  /** mySims of client rank c. */
  function Count(M: nat, N: nat, c: nat): nat
    requires N > 0
  {
    M / N + (if c < M % N then 1 else 0)
  }

  /** simsPerClient * rank + extraOffset: the first simulation rank client c reads from. */
  function Lo(M: nat, N: nat, c: nat): nat
    requires N > 0
  {
    c * (M / N) + (if c < M % N then c else M % N)
  }

  /** The arithmetic of query() itself. */
  method ClientRange(M: nat, size: nat, rank: nat) returns (simsPerClient: nat, mySims: nat, extraOffset: nat)
    requires size > 0 && rank < size
    ensures mySims == Count(M, size, rank)
    ensures simsPerClient * rank + extraOffset == Lo(M, size, rank)
  {
    simsPerClient := M / size;
    mySims := simsPerClient;
    extraOffset := 0;
    if M % size != 0 {
      extraOffset := if rank < M % size then rank else M % size;
      if M % size - rank > 0 {
        mySims := mySims + 1;
      }
    }
    assert simsPerClient * rank == rank * (M / size);
  }

  /** Each range starts where the previous one ends. */
  lemma RangesAbut(M: nat, N: nat, c: nat)
    requires N > 0
    ensures Lo(M, N, c + 1) == Lo(M, N, c) + Count(M, N, c)
  {
    assert (c + 1) * (M / N) == c * (M / N) + M / N;
  }

  /** The N ranges start at 0 and end at M: with RangesAbut, they partition 0..M-1 into
      consecutive blocks. Sizes differ by at most one, and client 0 always owns sim 0. */
  lemma RangesPartition(M: nat, N: nat)
    requires N > 0
    ensures Lo(M, N, 0) == 0 && Lo(M, N, N) == M
    ensures forall c: nat, d: nat :: c < N && d < N ==> Count(M, N, c) <= Count(M, N, d) + 1
    ensures M > 0 ==> Count(M, N, 0) > 0
  {
    assert N * (M / N) + M % N == M;
    if M > 0 && M % N == 0 && M / N == 0 {
      assert false;
    }
  }

  /** The clients with one simulation rank more are the first ones. */
  lemma MoreFirst(M: nat, N: nat, c: nat, d: nat)
    requires N > 0 && c <= d < N
    ensures Count(M, N, d) <= Count(M, N, c) <= Count(M, N, d) + 1
  {
  }

  /** The simulation ranks that client c would get if they were dealt to the clients one at a time. */
  function Turns(M: nat, N: nat, c: nat): set<nat> requires N > 0 {
    set s: nat | s < M && s % N == c
  }

  lemma NextTurn(M: nat, N: nat, c: nat)
    requires N > 0 && c < N
    ensures Count(M + 1, N, c) == Count(M, N, c) + (if M % N == c then 1 else 0)
  {
    var q, r := M / N, M % N;
    assert M == q * N + r;
    if r + 1 < N {
      DivMod(M + 1, N, q, r + 1);
    } else {
      assert (q + 1) * N == q * N + N;
      DivMod(M + 1, N, q + 1, 0);
    }
  }

  /** Every client gets as many as if they were dealt one at a time. */
  lemma {:induction false} CountIsRoundRobin(M: nat, N: nat, c: nat)
    requires N > 0 && c < N
    ensures |Turns(M, N, c)| == Count(M, N, c)
  {
    if M > 0 {
      CountIsRoundRobin(M - 1, N, c);
      NextTurn(M - 1, N, c);
      var before := Turns(M - 1, N, c);
      assert Turns(M, N, c) == if (M - 1) % N == c then before + {M - 1} else before;
    } else {
      DivMod(0, N, 0, 0);
      assert Turns(0, N, c) == {};
    }
  }

  /** And there is no other way to divide M ranks among N clients with sizes that differ by at most one and never
      grow from one client to the next. */
  lemma DivisionIsUnique(M: nat, N: nat, counts: seq<nat>)
    requires |counts| == N > 0 && Sum(counts) == M
    requires forall c, d :: 0 <= c <= d < N ==> counts[d] <= counts[c] <= counts[d] + 1
    ensures forall c :: 0 <= c < N ==> counts[c] == Count(M, N, c)
  {
    var q := counts[N-1];
    var k: nat := 0;
    while counts[k] != q
      invariant k < N && forall c :: 0 <= c < k ==> counts[c] == q + 1
      decreases N - k
    {
      assert counts[k] == q + 1;
      k := k + 1;
    }
    forall c | 0 <= c < N ensures counts[c] == q + (if c < k then 1 else 0) {
      if c >= k { assert counts[c] <= counts[k] && counts[N-1] <= counts[c]; }
    }
    SumOfSteps(counts, q, k);
    DivMod(M, N, q, k);
  }

  lemma {:induction false} SumOfSteps(counts: seq<nat>, q: nat, k: nat)
    requires k <= |counts| && forall c :: 0 <= c < |counts| ==> counts[c] == q + (if c < k then 1 else 0)
    ensures Sum(counts) == q * |counts| + k
  {
    if counts != [] {
      SumOfSteps(counts[1..], q, if k > 0 then k - 1 else 0);
      assert q * |counts| == q * |counts[1..]| + q;
    }
  }

  lemma LoMonotone(M: nat, N: nat, c: nat, d: nat)
    requires N > 0 && c <= d
    ensures Lo(M, N, c) <= Lo(M, N, d)
    decreases d
  {
    if c < d {
      LoMonotone(M, N, c, d - 1);
      RangesAbut(M, N, d - 1);
    }
  }
}
