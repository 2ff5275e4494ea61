/**
 * The in-place Fisher-Yates shuffle the engine applies to its tile, port and
 * development-card arrays. The random draws are a parameter: picks[i] is the
 * index, at most i, that position i is swapped with.
 */
module Shuffle {

  predicate ValidPicks(picks: seq<nat>, n: nat) {
    |picks| == n && forall i :: 0 <= i < n ==> picks[i] <= i
  }

  function Swap<T>(s: seq<T>, i: nat, j: nat): (r: seq<T>)
    requires i < |s| && j < |s|
    ensures |r| == |s| && r[i] == s[j] && r[j] == s[i]
    ensures forall k :: 0 <= k < |s| && k != i && k != j ==> r[k] == s[k]
  {
    s[i := s[j]][j := s[i]]
  }

  /** The sequence after the swaps at positions i, i-1, ..., 1. */
  function ShuffledFrom<T>(s: seq<T>, picks: seq<nat>, i: nat): (r: seq<T>)
    requires ValidPicks(picks, |s|) && i < |s|
    ensures |r| == |s|
    decreases i
  {
    if i == 0 then s else ShuffledFrom(Swap(s, i, picks[i]), picks, i - 1)
  }

  /** The sequence after the whole shuffle. */
  function Shuffled<T>(s: seq<T>, picks: seq<nat>): (r: seq<T>)
    requires ValidPicks(picks, |s|)
    ensures |r| == |s|
  {
    if |s| == 0 then s else ShuffledFrom(s, picks, |s| - 1)
  }

  function MapSeq<T, U>(f: T -> U, s: seq<T>): (r: seq<U>)
    ensures |r| == |s| && forall k :: 0 <= k < |s| ==> r[k] == f(s[k])
  {
    seq(|s|, k requires 0 <= k < |s| => f(s[k]))
  }

  /** n copies of x. */
  function Repeat<T>(x: T, n: nat): (r: seq<T>)
    ensures |r| == n && forall k :: 0 <= k < n ==> r[k] == x
  {
    seq(n, _ => x)
  }

  lemma {:induction false} RepeatMultiset<T>(x: T, n: nat)
    ensures multiset(Repeat(x, n)) == multiset{}[x := n]
  {
    if n > 0 {
      RepeatMultiset(x, n - 1);
      assert Repeat(x, n) == Repeat(x, n - 1) + [x];
    }
  }

  lemma SwapPermutes<T>(s: seq<T>, i: nat, j: nat)
    requires i < |s| && j < |s|
    ensures multiset(Swap(s, i, j)) == multiset(s)
  {
    var t := s[i := s[j]];
    assert multiset(t) == multiset(s) - multiset{s[i]} + multiset{s[j]};
    assert multiset(t[j := s[i]]) == multiset(t) - multiset{t[j]} + multiset{s[i]};
  }

  lemma {:induction false} ShuffledFromPermutes<T>(s: seq<T>, picks: seq<nat>, i: nat)
    requires ValidPicks(picks, |s|) && i < |s|
    ensures |ShuffledFrom(s, picks, i)| == |s|
    ensures multiset(ShuffledFrom(s, picks, i)) == multiset(s)
    decreases i
  {
    if i > 0 {
      SwapPermutes(s, i, picks[i]);
      ShuffledFromPermutes(Swap(s, i, picks[i]), picks, i - 1);
    }
  }

  /** A shuffle is a permutation of its input. */
  lemma ShuffledPermutes<T>(s: seq<T>, picks: seq<nat>)
    requires ValidPicks(picks, |s|)
    ensures |Shuffled(s, picks)| == |s|
    ensures multiset(Shuffled(s, picks)) == multiset(s)
  {
    if |s| > 0 {
      ShuffledFromPermutes(s, picks, |s| - 1);
    }
  }

  lemma {:induction false} ShuffledFromMap<T, U>(f: T -> U, s: seq<T>, picks: seq<nat>, i: nat)
    requires ValidPicks(picks, |s|) && i < |s|
    ensures MapSeq(f, ShuffledFrom(s, picks, i)) == ShuffledFrom(MapSeq(f, s), picks, i)
    decreases i
  {
    if i > 0 {
      assert MapSeq(f, Swap(s, i, picks[i])) == Swap(MapSeq(f, s), i, picks[i]);
      ShuffledFromMap(f, Swap(s, i, picks[i]), picks, i - 1);
    }
  }

  /** Shuffling commutes with projecting every element. */
  lemma ShuffledMap<T, U>(f: T -> U, s: seq<T>, picks: seq<nat>)
    requires ValidPicks(picks, |s|)
    ensures MapSeq(f, Shuffled(s, picks)) == Shuffled(MapSeq(f, s), picks)
  {
    if |s| > 0 {
      ShuffledFromMap(f, s, picks, |s| - 1);
    }
  }

  /** A value occurring once occurs at exactly one index. */
  lemma {:induction false} OccursOnce<T>(s: seq<T>, x: T)
    requires multiset(s)[x] == 1
    ensures exists i :: 0 <= i < |s| && s[i] == x && forall j :: 0 <= j < |s| && s[j] == x ==> j == i
  {
    assert s == [s[0]] + s[1..];
    if s[0] == x {
      assert multiset(s[1..])[x] == 0;
      forall j | 1 <= j < |s| ensures s[j] != x {
        assert s[j] == s[1..][j - 1];
      }
    } else {
      OccursOnce(s[1..], x);
      var i :| 0 <= i < |s[1..]| && s[1..][i] == x && forall j :: 0 <= j < |s[1..]| && s[1..][j] == x ==> j == i;
      forall j | 0 <= j < |s| && s[j] == x ensures j == i + 1 {
        assert j > 0;
        assert s[1..][j - 1] == x;
      }
    }
  }

  method ShuffleInPlace<T>(a: array<T>, picks: seq<nat>)
    requires ValidPicks(picks, a.Length)
    modifies a
    ensures a[..] == Shuffled(old(a[..]), picks)
    ensures multiset(a[..]) == multiset(old(a[..]))
  {
    ghost var start := a[..];
    if a.Length == 0 {
      return;
    }
    var i := a.Length - 1;
    while i > 0
      invariant 0 <= i < a.Length
      invariant ValidPicks(picks, |a[..]|)
      invariant ShuffledFrom(a[..], picks, i) == Shuffled(start, picks)
      decreases i
    {
      var j := picks[i];
      assert a[..][i := a[j]][j := a[i]] == Swap(a[..], i, j);
      a[i], a[j] := a[j], a[i];
      i := i - 1;
    }
    ShuffledPermutes(start, picks);
  }
}
