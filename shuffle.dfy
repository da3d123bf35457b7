/** `shuffleArray`, the same in both revisions: copy the list with
    `slice()`, then walk `i` down from the last position to 1 and swap
    positions `i` and `j`, where `j = Math.floor(Math.random() * (i + 1))`.
    The random draws are passed in. */
module Shuffle {
  import opened IndexLists

  /** What `Math.floor(Math.random() * n)` can yield: a position below `n`,
      or 0 when `n` is 0. */
  predicate IsRandomIndex(d: int, n: nat)
  {
    if n == 0 then d == 0 else 0 <= d < n
  }

  /** One draw per position of a list of length `n`: `js[i]` is the `j`
      drawn when the loop is at `i` (`js[0]` is never used). */
  predicate ValidDraws(js: seq<int>, n: nat)
  {
    |js| == n && forall i :: 0 <= i < n ==> IsRandomIndex(js[i], i + 1)
  }

  function Swap(s: seq<int>, i: int, j: int): (r: seq<int>)
    requires 0 <= i < |s| && 0 <= j < |s|
  {
    s[i := s[j]][j := s[i]]
  }

  /** The loop from position `i` down to 1, as a function of the list it
      starts on. */
  function SwapsFrom(s: seq<int>, js: seq<int>, i: int): (r: seq<int>)
    requires i < |s| && ValidDraws(js, |s|)
    decreases i
  {
    if i <= 0 then s else SwapsFrom(Swap(s, i, js[i]), js, i - 1)
  }

  /** The list `shuffleArray` returns. */
  function Shuffled(s: seq<int>, js: seq<int>): seq<int>
    requires ValidDraws(js, |s|)
  {
    SwapsFrom(s, js, |s| - 1)
  }

  lemma SwapPermutes(s: seq<int>, i: int, j: int)
    requires 0 <= i < |s| && 0 <= j < |s|
    ensures |Swap(s, i, j)| == |s|
    ensures multiset(Swap(s, i, j)) == multiset(s)
  {
    var t := s[i := s[j]];
    assert multiset(t) == multiset(s) - multiset{s[i]} + multiset{s[j]};
  }

  lemma {:induction false} SwapsFromPermutes(s: seq<int>, js: seq<int>, i: int)
    requires i < |s| && ValidDraws(js, |s|)
    ensures |SwapsFrom(s, js, i)| == |s|
    ensures multiset(SwapsFrom(s, js, i)) == multiset(s)
    decreases i
  {
    if i > 0 {
      SwapPermutes(s, i, js[i]);
      SwapsFromPermutes(Swap(s, i, js[i]), js, i - 1);
    }
  }

  /** Whatever the draws, the shuffled list is a permutation of its input. */
  lemma ShuffledIsPermutation(s: seq<int>, js: seq<int>)
    requires ValidDraws(js, |s|)
    ensures |Shuffled(s, js)| == |s|
    ensures multiset(Shuffled(s, js)) == multiset(s)
  {
    SwapsFromPermutes(s, js, |s| - 1);
  }

  /** A shuffle of a duplicate-free list of catalog positions is again one. */
  lemma ShuffledKeepsIndexList(s: seq<int>, js: seq<int>, n: int)
    requires ValidDraws(js, |s|)
    ensures AllBelow(s, n) ==> AllBelow(Shuffled(s, js), n)
    ensures Distinct(s) ==> Distinct(Shuffled(s, js))
  {
    ShuffledIsPermutation(s, js);
    PermutationKeepsIndexList(s, Shuffled(s, js), n);
  }

  /** Shuffling `[0, ..., n-1]` yields every song position exactly once. */
  lemma ShuffledRangeNamesEverySong(n: nat, js: seq<int>)
    requires ValidDraws(js, n)
    ensures |Shuffled(Range(n), js)| == n
    ensures Distinct(Shuffled(Range(n), js)) && AllBelow(Shuffled(Range(n), js), n)
    ensures forall x :: 0 <= x < n ==> x in Shuffled(Range(n), js)
  {
    var r := Shuffled(Range(n), js);
    ShuffledIsPermutation(Range(n), js);
    ShuffledKeepsIndexList(Range(n), js, n);
    forall x | 0 <= x < n ensures x in r {
      assert Range(n)[x] == x;
      assert x in multiset(Range(n));
    }
  }

  /** `shuffleArray`: the loop over a copy of the argument. The argument is a
      value, so the caller's list is left as it was. */
  method ShuffleArray(arrayToShuffle: seq<int>, js: seq<int>) returns (r: seq<int>)
    requires ValidDraws(js, |arrayToShuffle|)
    ensures r == Shuffled(arrayToShuffle, js)
    ensures |r| == |arrayToShuffle| && multiset(r) == multiset(arrayToShuffle)
  {
    var a := new int[|arrayToShuffle|](k requires 0 <= k < |arrayToShuffle| => arrayToShuffle[k]);
    assert a[..] == arrayToShuffle;
    var i := a.Length - 1;
    while i > 0
      invariant -1 <= i < a.Length
      invariant SwapsFrom(a[..], js, i) == Shuffled(arrayToShuffle, js)
    {
      var j := js[i];
      ghost var before := a[..];
      a[i], a[j] := a[j], a[i];
      assert a[..] == Swap(before, i, j);
      i := i - 1;
    }
    r := a[..];
    ShuffledIsPermutation(arrayToShuffle, js);
  }
}
