/** The index arithmetic both revisions of the player perform on plain
    JavaScript arrays of song indices: `indexOf`, reading a slot that may be
    out of range, the list `[0, 1, ..., n-1]`, and the facts about
    duplicate-free lists that the sequencing rules rely on. */
module IndexLists {
  import opened Wrappers

  /** `Array.prototype.indexOf`: the first position holding `x`, or -1. */
  function IndexOf<T(==)>(s: seq<T>, x: T): (r: int)
    ensures -1 <= r < |s|
    ensures r == -1 <==> x !in s
    ensures r >= 0 ==> s[r] == x && x !in s[..r]
  {
    if |s| == 0 then -1
    else if s[0] == x then 0
    else
      var r := IndexOf(s[1..], x);
      assert s[1..][..r + 1] == s[1..r + 2] by { }
      if r == -1 then -1 else r + 1
  }

  /** Reading `s[k]`: JavaScript yields `undefined` outside `[0, |s|)`. */
  function At(s: seq<int>, k: int): (r: Option<int>)
  {
    if 0 <= k < |s| then Some(s[k]) else None
  }

  /** The list `[0, 1, ..., n-1]`. */
  function Range(n: nat): (r: seq<int>)
    ensures |r| == n
    ensures forall i :: 0 <= i < n ==> r[i] == i
  {
    seq(n, i => i)
  }

  /** No index occurs twice. */
  predicate Distinct(s: seq<int>)
  {
    forall i, j :: 0 <= i < j < |s| ==> s[i] != s[j]
  }

  /** Every entry names a position of a catalog of `n` songs. */
  predicate AllBelow(s: seq<int>, n: int)
  {
    forall i :: 0 <= i < |s| ==> 0 <= s[i] < n
  }

  /** In a duplicate-free list, `indexOf` finds the one position of each entry. */
  lemma IndexOfDistinct(s: seq<int>, p: int)
    requires Distinct(s) && 0 <= p < |s|
    ensures IndexOf(s, s[p]) == p
  {
    assert s[p] in s;
  }

  /** `[0, ..., n-1]` holds each `i < n` at position `i`. */
  lemma IndexOfRange(n: nat, i: int)
    requires 0 <= i < n
    ensures IndexOf(Range(n), i) == i
  {
    IndexOfDistinct(Range(n), i);
  }

  lemma {:induction false} DistinctCard(s: seq<int>)
    requires Distinct(s)
    ensures |set x | x in s| == |s|
  {
    if |s| > 0 {
      var t := s[1..];
      assert Distinct(t) by {
        forall i, j | 0 <= i < j < |t| ensures t[i] != t[j] {
          assert t[i] == s[i + 1] && t[j] == s[j + 1];
        }
      }
      DistinctCard(t);
      assert (set x | x in s) == {s[0]} + (set x | x in t);
      assert s[0] !in t by {
        forall k | 0 <= k < |t| ensures t[k] != s[0] {
          assert t[k] == s[k + 1];
        }
      }
    }
  }

  lemma {:induction false} RangeCard(n: nat)
    ensures |set x | x in Range(n)| == n
  {
    if n > 0 {
      var m := n - 1;
      RangeCard(m);
      assert (set x | x in Range(n)) == (set x | x in Range(m)) + {m} by {
        assert Range(n) == Range(m) + [m];
      }
    }
  }

  lemma SubsetCard(a: set<int>, b: set<int>)
    requires a <= b
    ensures |a| <= |b|
  {
    assert b == a + (b - a);
    assert a * (b - a) == {};
  }

  /** A duplicate-free list of positions in a catalog of `n` songs has at most
      `n` entries (pigeonhole). */
  lemma DistinctBelowIsShort(s: seq<int>, n: nat)
    requires Distinct(s) && AllBelow(s, n)
    ensures |s| <= n
  {
    DistinctCard(s);
    RangeCard(n);
    forall x | x in s ensures x in Range(n) {
      assert Range(n)[x] == x;
    }
    SubsetCard(set x | x in s, set x | x in Range(n));
  }

  /** Reordering a list keeps its entries in range and free of duplicates. */
  lemma PermutationKeepsIndexList(a: seq<int>, b: seq<int>, n: int)
    requires multiset(a) == multiset(b)
    ensures AllBelow(a, n) ==> AllBelow(b, n)
    ensures Distinct(a) ==> Distinct(b)
  {
    forall i | 0 <= i < |b| ensures b[i] in a {
      assert b[i] in multiset(b);
    }
    if Distinct(a) {
      DistinctMultiplicity(a);
      forall i, j | 0 <= i < j < |b| ensures b[i] != b[j] {
        if b[i] == b[j] {
          TwoOccurrences(b, i, j);
        }
      }
    }
  }

  lemma {:induction false} TwoOccurrences(s: seq<int>, i: int, j: int)
    requires 0 <= i < j < |s| && s[i] == s[j]
    ensures multiset(s)[s[i]] >= 2
  {
    assert s == s[..j] + [s[j]] + s[j + 1..];
    assert s[i] in multiset(s[..j]) by { assert s[..j][i] == s[i]; }
  }

  lemma {:induction false} DistinctMultiplicity(s: seq<int>)
    requires Distinct(s)
    ensures forall x :: multiset(s)[x] <= 1
  {
    if |s| > 0 {
      var t := s[1..];
      assert s == [s[0]] + t;
      assert Distinct(t) by {
        forall i, j | 0 <= i < j < |t| ensures t[i] != t[j] {
          assert t[i] == s[i + 1] && t[j] == s[j + 1];
        }
      }
      DistinctMultiplicity(t);
      assert s[0] !in t by {
        forall k | 0 <= k < |t| ensures t[k] != s[0] {
          assert t[k] == s[k + 1];
        }
      }
      assert multiset(s) == multiset{s[0]} + multiset(t);
    }
  }
}
