/**
 * `shuffleArray` of the client: copy the input, then swap down from the last cell.
 * `Math.random` is replaced by an oracle: `draws[i]` is the index
 * `Math.floor(Math.random() * (i + 1))` drawn at the loop step for `i`
 * (`draws[0]` is never used, as the loop stops at `i > 0`).
 */
module Shuffle {

  /** What `Math.floor(Math.random() * (i + 1))` can produce: one draw per step, in `[0, i]`. */
  predicate ValidDraws(draws: seq<nat>, n: nat) {
    |draws| == n && forall i :: 0 < i < n ==> draws[i] <= i
  }

  /** The destructuring swap `[a[i], a[j]] = [a[j], a[i]]`. */
  function Swap<T>(s: seq<T>, i: nat, j: nat): (r: seq<T>)
    requires i < |s| && j < |s|
    ensures |r| == |s| && r[i] == s[j] && r[j] == s[i]
    ensures forall k :: 0 <= k < |s| && k != i && k != j ==> r[k] == s[k]
  {
    s[i := s[j]][j := s[i]]
  }

  /** The array after the loop steps `i`, `i - 1`, ..., `1` have run on `s`. */
  function ShuffleFrom<T>(s: seq<T>, draws: seq<nat>, i: int): (r: seq<T>)
    requires ValidDraws(draws, |s|) && i < |s|
    ensures |r| == |s|
    decreases i
  {
    if i <= 0 then s else ShuffleFrom(Swap(s, i, draws[i]), draws, i - 1)
  }

  /** The permutation the whole loop produces from `s` with these draws. */
  function Shuffled<T>(s: seq<T>, draws: seq<nat>): (r: seq<T>)
    requires ValidDraws(draws, |s|)
    ensures |r| == |s|
  {
    ShuffleFrom(s, draws, |s| - 1)
  }

  lemma SwapMultiset<T>(s: seq<T>, i: nat, j: nat)
    requires i < |s| && j < |s|
    ensures multiset(Swap(s, i, j)) == multiset(s)
  {
  }

  /** Whatever the draws, the loop only permutes the elements. */
  lemma {:induction false} ShuffleFromPermutes<T>(s: seq<T>, draws: seq<nat>, i: int)
    requires ValidDraws(draws, |s|) && i < |s|
    ensures multiset(ShuffleFrom(s, draws, i)) == multiset(s)
    decreases i
  {
    if i > 0 {
      SwapMultiset(s, i, draws[i]);
      ShuffleFromPermutes(Swap(s, i, draws[i]), draws, i - 1);
    }
  }

  lemma ShuffledPermutes<T>(s: seq<T>, draws: seq<nat>)
    requires ValidDraws(draws, |s|)
    ensures |Shuffled(s, draws)| == |s|
    ensures multiset(Shuffled(s, draws)) == multiset(s)
  {
    ShuffleFromPermutes(s, draws, |s| - 1);
  }

  /** The steps up to `i` never touch a cell above `i`. */
  lemma {:induction false} ShuffleFromKeepsAbove<T>(s: seq<T>, draws: seq<nat>, i: int, k: nat)
    requires ValidDraws(draws, |s|) && i < k < |s|
    ensures ShuffleFrom(s, draws, i)[k] == s[k]
    decreases i
  {
    if i > 0 {
      ShuffleFromKeepsAbove(Swap(s, i, draws[i]), draws, i - 1, k);
    }
  }

  /**
   * Fisher–Yates fills the array from the top: the last cell receives the element
   * at the first draw and no later step moves it.
   */
  lemma ShuffledLast<T>(s: seq<T>, draws: seq<nat>)
    requires ValidDraws(draws, |s|) && |s| > 1
    ensures Shuffled(s, draws)[|s| - 1] == s[draws[|s| - 1]]
  {
    var n := |s|;
    ShuffleFromKeepsAbove(Swap(s, n - 1, draws[n - 1]), draws, n - 2, n - 1);
  }

  /** Drawing `j == i` at every step (always swapping a cell with itself) leaves the order as it was. */
  lemma {:induction false} ShuffleFromIdentity<T>(s: seq<T>, draws: seq<nat>, i: int)
    requires ValidDraws(draws, |s|) && i < |s|
    requires forall k :: 0 < k <= i ==> draws[k] == k
    ensures ShuffleFrom(s, draws, i) == s
    decreases i
  {
    if i > 0 {
      assert Swap(s, i, draws[i]) == s;
      ShuffleFromIdentity(s, draws, i - 1);
    }
  }

  /**
   * `shuffleArray`: copies the input into a fresh array (so the caller's array is
   * never modified) and runs the down-counting swap loop on the copy.
   */
  method ShuffleArray<T>(input: seq<T>, draws: seq<nat>) returns (shuffled: seq<T>)
    requires ValidDraws(draws, |input|)
    ensures shuffled == Shuffled(input, draws)
    ensures |shuffled| == |input| && multiset(shuffled) == multiset(input)
  {
    var a := new T[|input|](k requires 0 <= k < |input| => input[k]);
    assert a[..] == input;
    var i: int := |input| - 1;
    while i > 0
      invariant -1 <= i < |input|
      invariant a.Length == |input|
      invariant multiset(a[..]) == multiset(input)
      invariant ShuffleFrom(a[..], draws, i) == Shuffled(input, draws)
    {
      var j := draws[i];
      ghost var before := a[..];
      a[i], a[j] := a[j], a[i];
      assert a[..] == Swap(before, i, j);
      SwapMultiset(before, i, j);
      i := i - 1;
    }
    shuffled := a[..];
  }
}
