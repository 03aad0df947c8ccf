/**
 * `shuffleArray` (src/App.js:6-13): Fisher-Yates on a copy of the input. The random
 * choice `Math.floor(Math.random() * (i + 1))` is injected as `picks[i]`, any index in
 * [0, i]; `picks[0]` is never read.
 */
module Shuffle {

  /** picks supplies, for every loop index i of a length-n input, an index in [0, i]. */
  predicate IsPickSource(picks: seq<nat>, n: nat)
  {
    |picks| == n && forall i :: 0 <= i < n ==> picks[i] <= i
  }

  /** `[s[i], s[j]] = [s[j], s[i]]`. */
  function Swap<T>(s: seq<T>, i: nat, j: nat): (r: seq<T>)
    requires i < |s| && j < |s|
    ensures |r| == |s| && r[i] == s[j] && r[j] == s[i]
  {
    s[i := s[j]][j := s[i]]
  }

  /** A swap touches only positions i and j. */
  lemma SwapKeepsOthers<T>(s: seq<T>, i: nat, j: nat)
    requires i < |s| && j < |s|
    ensures forall k :: 0 <= k < |s| && k != i && k != j ==> Swap(s, i, j)[k] == s[k]
  {
  }

  /** A swap permutes: nothing is lost or duplicated. */
  lemma SwapPermutes<T>(s: seq<T>, i: nat, j: nat)
    requires i < |s| && j < |s|
    ensures multiset(Swap(s, i, j)) == multiset(s)
  {
  }

  /** The sequence once the loop has run its iterations for indices i, i - 1, ..., 1 on s. */
  function ShuffleFrom<T>(s: seq<T>, picks: seq<nat>, i: int): (r: seq<T>)
    requires IsPickSource(picks, |s|) && i < |s|
    ensures |r| == |s|
    decreases i
  {
    if i <= 0 then s else ShuffleFrom(Swap(s, i, picks[i]), picks, i - 1)
  }

  /** Every iteration swaps, so the partly shuffled sequence is a permutation of the input. */
  lemma {:induction false} ShuffleFromPermutes<T>(s: seq<T>, picks: seq<nat>, i: int)
    requires IsPickSource(picks, |s|) && i < |s|
    ensures multiset(ShuffleFrom(s, picks, i)) == multiset(s)
    decreases i
  {
    if i > 0 {
      SwapPermutes(s, i, picks[i]);
      ShuffleFromPermutes(Swap(s, i, picks[i]), picks, i - 1);
    }
  }

  /** The value `shuffleArray` returns for input s when the random source yields picks. */
  function Shuffled<T>(s: seq<T>, picks: seq<nat>): (r: seq<T>)
    requires IsPickSource(picks, |s|)
    ensures |r| == |s| && multiset(r) == multiset(s)
  {
    ShuffleFromPermutes(s, picks, |s| - 1);
    ShuffleFrom(s, picks, |s| - 1)
  }

  /**
   * The source's loop: copy the input into a fresh array, then swap from the last index
   * down to 1. The result is a permutation of the input, and the input (a value) is untouched.
   */
  method ShuffleArray<T>(input: seq<T>, picks: seq<nat>) returns (r: seq<T>)
    requires IsPickSource(picks, |input|)
    ensures r == Shuffled(input, picks)
    ensures |r| == |input| && multiset(r) == multiset(input)
  {
    var a := new T[|input|](k requires 0 <= k < |input| => input[k]);
    assert a[..] == input;
    var i: int := a.Length - 1;
    while i > 0
      invariant -1 <= i < a.Length == |input|
      invariant ShuffleFrom(a[..], picks, i) == Shuffled(input, picks)
      decreases i
    {
      var j := picks[i];
      ghost var before := a[..];
      a[i], a[j] := a[j], a[i];
      ShuffleStep(before, picks, i, a[..]);
      i := i - 1;
    }
    r := a[..];
  }

  /** One iteration of the loop, as a step of the specification. */
  lemma ShuffleStep<T>(before: seq<T>, picks: seq<nat>, i: nat, after: seq<T>)
    requires IsPickSource(picks, |before|) && 0 < i < |before|
    requires |after| == |before| && after[i] == before[picks[i]] && after[picks[i]] == before[i]
    requires forall k :: 0 <= k < |before| && k != i && k != picks[i] ==> after[k] == before[k]
    ensures ShuffleFrom(before, picks, i) == ShuffleFrom(after, picks, i - 1)
  {
    assert after == Swap(before, i, picks[i]);
  }

  /** With the stub that always picks the current index, every swap is a no-op. */
  lemma {:induction false} IdentityPicksKeepOrder<T>(s: seq<T>, picks: seq<nat>, i: nat)
    requires IsPickSource(picks, |s|) && i < |s|
    requires forall k :: 0 <= k < |s| ==> picks[k] == k
    ensures ShuffleFrom(s, picks, i) == s
    decreases i
  {
    if i > 0 {
      assert Swap(s, i, picks[i]) == s;
      IdentityPicksKeepOrder(s, picks, i - 1);
    }
  }

  /** Each iteration fixes its own position: indices above i are never touched again. */
  lemma {:induction false} ShuffleFromKeepsTail<T>(s: seq<T>, picks: seq<nat>, i: nat, k: nat)
    requires IsPickSource(picks, |s|) && i < k < |s|
    ensures ShuffleFrom(s, picks, i)[k] == s[k]
    decreases i
  {
    if i > 0 {
      ShuffleFromKeepsTail(Swap(s, i, picks[i]), picks, i - 1, k);
    }
  }

  /** The last position receives the element at picks[n - 1], which is then fixed for good. */
  lemma LastPositionIsPicked<T>(s: seq<T>, picks: seq<nat>)
    requires IsPickSource(picks, |s|) && |s| > 1
    ensures Shuffled(s, picks)[|s| - 1] == s[picks[|s| - 1]]
  {
    var n := |s|;
    var t := Swap(s, n - 1, picks[n - 1]);
    assert Shuffled(s, picks) == ShuffleFrom(s, picks, n - 1);
    assert ShuffleFrom(s, picks, n - 1) == ShuffleFrom(t, picks, n - 2);
    assert t[n - 1] == s[picks[n - 1]];
    if n - 2 > 0 {
      ShuffleFromKeepsTail(t, picks, n - 2, n - 1);
    }
  }
}
