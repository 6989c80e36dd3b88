/**
 * The entries of the game: plain JavaScript objects `{id, weight}` that the
 * code compares by identity (`===`), so they are modelled as objects whose
 * fields never change. `weight` is absent on the built-in demo entries and on
 * the slots drawn by weighted choice.
 */
module Entries {
  import opened Wrappers

  class Entry {
    const id: string
    const weight: Option<int>

    constructor (id: string, weight: Option<int>)
      ensures this.id == id && this.weight == weight
    {
      this.id := id;
      this.weight := weight;
    }
  }

  /** No object occurs twice. */
  predicate Distinct(s: seq<Entry>) {
    forall i, j :: 0 <= i < j < |s| ==> s[i] != s[j]
  }

  /** The ids occurring in `s`. */
  function IdSet(s: seq<Entry>): (ids: set<string>)
    ensures forall i :: 0 <= i < |s| ==> s[i].id in ids
    ensures forall id :: id in ids ==> exists i :: 0 <= i < |s| && s[i].id == id
  {
    set i | 0 <= i < |s| :: s[i].id
  }

  /** An entry that `random-weighted-choice` can pick. */
  predicate Pickable(e: Entry) {
    e.weight.Some? && e.weight.value > 0
  }

  /**
   * `rwc(table)`: the id of some entry with a positive weight. Which one is
   * left open (the library draws it with probability proportional to weight).
   */
  method WeightedChoice(table: seq<Entry>) returns (id: string)
    requires exists k :: 0 <= k < |table| && Pickable(table[k])
    ensures exists k :: 0 <= k < |table| && Pickable(table[k]) && table[k].id == id
  {
    var k :| 0 <= k < |table| && Pickable(table[k]);
    id := table[k].id;
  }

  lemma {:induction false} DistinctCountsAtMostOne(s: seq<Entry>, x: Entry)
    requires Distinct(s)
    ensures multiset(s)[x] <= 1
  {
    if |s| > 0 {
      var front := s[..|s| - 1];
      assert s == front + [s[|s| - 1]];
      assert Distinct(front);
      DistinctCountsAtMostOne(front, x);
      if x == s[|s| - 1] {
        assert x !in front;
      }
    }
  }

  /** A reordering of distinct objects is still distinct. */
  lemma DistinctPermutation(s: seq<Entry>, t: seq<Entry>)
    requires Distinct(s) && multiset(s) == multiset(t)
    ensures Distinct(t)
  {
    forall i, j | 0 <= i < j < |t| ensures t[i] != t[j] {
      if t[i] == t[j] {
        var x := t[i];
        assert t == t[..j] + t[j..];
        assert x in t[..j];
        assert x in t[j..];
        assert multiset(t)[x] == multiset(t[..j])[x] + multiset(t[j..])[x];
        DistinctCountsAtMostOne(s, x);
        assert false;
      }
    }
  }
}
