/** Facts about sequences shared by the modules that keep logs. */
module Seqs {
  /** Appending to a log in two steps is appending the two parts at once. */
  lemma AppendAssoc<T>(a: seq<T>, b: seq<T>, c: seq<T>)
    ensures (a + b) + c == a + (b + c)
  {
  }
}
