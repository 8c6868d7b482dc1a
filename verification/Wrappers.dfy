// Small generic vocabulary shared by the models.

module Wrappers {
  datatype Option<+T> = None | Some(value: T)

  // The elements of a sequence, as a set.
  function Elems<T>(s: seq<T>): set<T> {
    set x | x in s
  }

  ghost predicate NoDup<T>(s: seq<T>) {
    forall i, j :: 0 <= i < j < |s| ==> s[i] != s[j]
  }
}
