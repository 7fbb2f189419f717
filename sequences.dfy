/** Facts about Dafny sequences that the models share. */
module Sequences {
  /** Appending is associative: a log extended twice is the log followed by both extensions. */
  lemma AppendAssoc<T>(a: seq<T>, b: seq<T>, c: seq<T>)
    ensures a + b + c == a + (b + c)
  {
    assert forall i :: 0 <= i < |a| + |b| + |c| ==> (a + b + c)[i] == (a + (b + c))[i];
  }
}
