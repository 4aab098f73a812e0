/** The Fisher–Yates shuffle `shuffleArray` (App.tsx:36-43).

    The random draw `Math.floor(Math.random() * (i + 1))` is modelled as an
    arbitrary choice of an index in [0, i]; the pure function ApplyDraws replays
    the loop for a given sequence of draws, so that a fixed random source
    determines the result. */
module Shuffle {

  /** Swaps positions i and j, as the destructuring assignment of line 40 does. */
  function SwapAt<T>(s: seq<T>, i: nat, j: nat): (r: seq<T>)
    requires i < |s| && j < |s|
    ensures |r| == |s| && r[i] == s[j] && r[j] == s[i]
    ensures forall k :: 0 <= k < |s| && k != i && k != j ==> r[k] == s[k]
    ensures multiset(r) == multiset(s)
  {
    s[i := s[j]][j := s[i]]
  }

  /** The number of swaps the loop makes on n elements: one for each i from n - 1 down to 1. */
  function StepCount(n: nat): nat { if n == 0 then 0 else n - 1 }

  /** A legal prefix of the draws of the loop on n elements: step k handles
      index i = n - 1 - k and draws an index in [0, i]. */
  predicate ValidDraws(n: nat, draws: seq<int>)
  {
    |draws| <= StepCount(n) &&
    forall k :: 0 <= k < |draws| ==> 0 <= draws[k] <= n - 1 - k
  }

  /** The sequence after the loop has made the steps recorded in `draws`. */
  function ApplyDraws<T>(s: seq<T>, draws: seq<int>): (r: seq<T>)
    requires ValidDraws(|s|, draws)
    ensures |r| == |s| && multiset(r) == multiset(s)
    decreases |draws|
  {
    if draws == [] then s
    else
      var last := |draws| - 1;
      SwapAt(ApplyDraws(s, draws[..last]), |s| - 1 - last, draws[last])
  }

  /** The result state of `shuffleArray`: some complete run of the loop. */
  ghost predicate IsShuffleOf<T>(s: seq<T>, r: seq<T>)
  {
    exists draws :: ValidDraws(|s|, draws) && |draws| == StepCount(|s|) && r == ApplyDraws(s, draws)
  }

  /** Whatever the draws, the loop only permutes the elements. */
  lemma ShuffleIsPermutation<T>(s: seq<T>, r: seq<T>)
    requires IsShuffleOf(s, r)
    ensures |r| == |s| && multiset(r) == multiset(s)
  {
    var draws :| ValidDraws(|s|, draws) && |draws| == StepCount(|s|) && r == ApplyDraws(s, draws);
  }

  /** The draws that always pick the upper boundary j == i. */
  function TopDraws(n: nat, m: nat): (d: seq<int>)
    requires m <= StepCount(n)
    ensures |d| == m && forall k :: 0 <= k < m ==> d[k] == n - 1 - k
  {
    seq(m, k requires 0 <= k < m => n - 1 - k)
  }

  /** A random source that always returns the upper boundary leaves the order unchanged. */
  lemma {:induction false} TopDrawsKeepOrder<T>(s: seq<T>, m: nat)
    requires m <= StepCount(|s|)
    ensures ValidDraws(|s|, TopDraws(|s|, m)) && ApplyDraws(s, TopDraws(|s|, m)) == s
  {
    if m > 0 {
      TopDrawsKeepOrder(s, m - 1);
      assert TopDraws(|s|, m)[..m - 1] == TopDraws(|s|, m - 1);
    }
  }

  /** A draw in range extends a legal prefix of draws. */
  lemma ValidDrawsExtend(n: nat, draws: seq<int>, j: int)
    requires ValidDraws(n, draws) && |draws| < StepCount(n)
    requires 0 <= j <= n - 1 - |draws|
    ensures ValidDraws(n, draws + [j])
  {
    var d := draws + [j];
    forall k | 0 <= k < |d| ensures 0 <= d[k] <= n - 1 - k {
      if k < |draws| { assert d[k] == draws[k]; }
    }
  }

  /** One more step of the loop: ApplyDraws on `draws + [j]` is one swap after ApplyDraws on `draws`. */
  lemma ApplyDrawsStep<T>(s: seq<T>, draws: seq<int>, j: int)
    requires ValidDraws(|s|, draws) && |draws| < StepCount(|s|)
    requires 0 <= j <= |s| - 1 - |draws|
    ensures ValidDraws(|s|, draws + [j])
    ensures ApplyDraws(s, draws + [j]) == SwapAt(ApplyDraws(s, draws), |s| - 1 - |draws|, j)
  {
    ValidDrawsExtend(|s|, draws, j);
    var d := draws + [j];
    assert d[..|d| - 1] == draws && d[|d| - 1] == j;
    assert ApplyDraws(s, d) == SwapAt(ApplyDraws(s, d[..|d| - 1]), |s| - 1 - (|d| - 1), d[|d| - 1]);
  }

  /** `shuffleArray`: copies the input into a fresh array and swaps from the last index down to 1. */
  method ShuffleArray<T>(s: seq<T>) returns (r: seq<T>)
    ensures |r| == |s| && multiset(r) == multiset(s)
    ensures IsShuffleOf(s, r)
  {
    var a := new T[|s|](k requires 0 <= k < |s| => s[k]);
    ghost var draws: seq<int> := [];
    var i := a.Length - 1;
    while i > 0
      invariant -1 <= i < a.Length == |s|
      invariant |draws| == |s| - 1 - i
      invariant ValidDraws(|s|, draws)
      invariant a[..] == ApplyDraws(s, draws)
    {
      var j :| 0 <= j <= i;
      ghost var prev := a[..];
      a[i], a[j] := a[j], a[i];
      assert a[..] == SwapAt(prev, i, j);
      ApplyDrawsStep(s, draws, j);
      draws := draws + [j];
      i := i - 1;
    }
    r := a[..];
  }
}
