/** Sequences of sequences, and optional values. */
module Sequences {

  datatype Option<+T> = None | Some(value: T)

  /** All elements of the parts, in order. */
  function Flat<T>(parts: seq<seq<T>>): seq<T> {
    if parts == [] then [] else Flat(parts[..|parts| - 1]) + parts[|parts| - 1]
  }

  lemma {:induction false} FlatConcat<T>(a: seq<seq<T>>, b: seq<seq<T>>)
    ensures Flat(a + b) == Flat(a) + Flat(b)
  {
    if b == [] {
      assert a + b == a;
    } else {
      FlatConcat(a, b[..|b| - 1]);
      assert (a + b)[..|a + b| - 1] == a + b[..|b| - 1];
    }
  }
}
