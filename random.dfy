/**
 * Randomness as nondeterministic choice. lodash's `shuffle` is a
 * Fisher-Yates pass over a copy of its input; which index each step picks
 * is left open, so every property proved here holds whatever the random
 * generator returns.
 */
module Random {

  /** A copy of `s` in an order chosen by the random generator. */
  method Shuffle<T>(s: seq<T>) returns (r: seq<T>)
    ensures |r| == |s|
    ensures multiset(r) == multiset(s)
  {
    r := s;
    var index := 0;
    while index < |r|
      invariant |r| == |s|
      invariant 0 <= index <= |r|
      invariant multiset(r) == multiset(s)
    {
      var rand :| index <= rand < |r|;
      ghost var before := r;
      var value := r[rand];
      r := r[rand := r[index]][index := value];
      SwapPreservesMultiset(before, index, rand);
      index := index + 1;
    }
  }

  lemma SwapPreservesMultiset<T>(s: seq<T>, i: nat, j: nat)
    requires i < |s| && j < |s|
    ensures multiset(s[j := s[i]][i := s[j]]) == multiset(s)
  {
    var t := s[j := s[i]];
    assert multiset(t) == multiset(s) - multiset{s[j]} + multiset{s[i]};
    assert t[i] == s[i];
    assert multiset(t[i := s[j]]) == multiset(t) - multiset{t[i]} + multiset{s[j]};
  }
}
