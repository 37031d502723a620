/**
 * The in-place Fisher-Yates shuffle of src/game.js.
 *
 * `Math.random` is replaced by a supplied sequence `picks`: `picks[i]` is the
 * index, between 0 and i, that position i is swapped with.  Any run of the
 * source corresponds to some such sequence.
 */
module Shuffling {
  import opened Prelude

  /** Every swap index lies in [0, i], as `Math.floor(Math.random() * (i + 1))` does. */
  predicate ValidPicks(picks: seq<nat>, n: nat)
  {
    |picks| == n && forall i :: 0 <= i < n ==> picks[i] <= i
  }

  function Swap<T>(s: seq<T>, i: nat, j: nat): (r: seq<T>)
    requires i < |s| && j < |s|
    ensures |r| == |s| && r[i] == s[j] && r[j] == s[i]
    ensures forall k :: 0 <= k < |s| && k != i && k != j ==> r[k] == s[k]
  {
    s[i := s[j]][j := s[i]]
  }

  /** The sequence after the loop iterations for positions i, i-1, ..., 1. */
  function FisherYates<T>(s: seq<T>, picks: seq<nat>, i: int): (r: seq<T>)
    requires ValidPicks(picks, |s|) && i < |s|
    ensures |r| == |s|
    decreases i
  {
    if i <= 0 then s else FisherYates(Swap(s, i, picks[i]), picks, i - 1)
  }

  /** What `shuffle` leaves in an array holding s. */
  function Shuffled<T>(s: seq<T>, picks: seq<nat>): (r: seq<T>)
    requires ValidPicks(picks, |s|)
    ensures |r| == |s|
  {
    FisherYates(s, picks, |s| - 1)
  }

  lemma SwapPermutes<T>(s: seq<T>, i: nat, j: nat)
    requires i < |s| && j < |s|
    ensures multiset(Swap(s, i, j)) == multiset(s)
    ensures Distinct(s) ==> Distinct(Swap(s, i, j))
  {
    var r := Swap(s, i, j);
    if Distinct(s) {
      forall a, b | 0 <= a < b < |r| ensures r[a] != r[b] {
        var a' := if a == i then j else if a == j then i else a;
        var b' := if b == i then j else if b == j then i else b;
        assert r[a] == s[a'] && r[b] == s[b'] && a' != b';
      }
    }
  }

  /** The shuffle is a permutation of its input and keeps distinct elements distinct. */
  lemma {:induction false} FisherYatesPermutes<T>(s: seq<T>, picks: seq<nat>, i: int)
    requires ValidPicks(picks, |s|) && i < |s|
    ensures multiset(FisherYates(s, picks, i)) == multiset(s)
    ensures Distinct(s) ==> Distinct(FisherYates(s, picks, i))
    decreases i
  {
    if i > 0 {
      SwapPermutes(s, i, picks[i]);
      FisherYatesPermutes(Swap(s, i, picks[i]), picks, i - 1);
    }
  }

  lemma ShuffledPermutes<T>(s: seq<T>, picks: seq<nat>)
    requires ValidPicks(picks, |s|)
    ensures multiset(Shuffled(s, picks)) == multiset(s)
    ensures Distinct(s) ==> Distinct(Shuffled(s, picks))
  {
    FisherYatesPermutes(s, picks, |s| - 1);
  }

  /** `shuffle(array)`: swaps position i with picks[i], for i from the last index down to 1. */
  method Shuffle<T>(a: array<T>, picks: seq<nat>)
    requires ValidPicks(picks, a.Length)
    modifies a
    ensures a[..] == Shuffled(old(a[..]), picks)
    ensures multiset(a[..]) == multiset(old(a[..]))
  {
    var i := a.Length - 1;
    while i > 0
      invariant -1 <= i < a.Length
      invariant FisherYates(a[..], picks, i) == Shuffled(old(a[..]), picks)
    {
      var j := picks[i];
      a[i], a[j] := a[j], a[i];
      i := i - 1;
    }
    ShuffledPermutes(old(a[..]), picks);
  }
}
