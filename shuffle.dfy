/** The shuffle used at session start and restart: a copy of the bank permuted
    in place by the Fisher–Yates walk of Python's `random.shuffle`. */
module Shuffle {

  /** Copies `bank` into an array and, for `i` from the last position down to 1,
      swaps position `i` with a position `j` drawn below `i + 1`. The random
      source is the parameter `randBelow`: the draw for bound `n` is
      `randBelow(n) % n`. Whatever the draws, the result is a permutation of
      the bank. */
  method ShuffledCopy<T>(bank: seq<T>, randBelow: nat -> nat) returns (shuffled: seq<T>)
    ensures |shuffled| == |bank|
    ensures multiset(shuffled) == multiset(bank)
  {
    var a := new T[|bank|](k requires 0 <= k < |bank| => bank[k]);
    assert a[..] == bank;
    var i := a.Length;
    while i > 1
      invariant 0 <= i <= a.Length
      invariant multiset(a[..]) == multiset(bank)
    {
      i := i - 1;
      var j := randBelow(i + 1) % (i + 1);
      a[i], a[j] := a[j], a[i];
    }
    shuffled := a[..];
  }
}
