module Wrappers {
  datatype Option<+T> = None | Some(value: T)

  lemma SplitLast<T>(s: seq<T>)
    requires s != []
    ensures s == s[..|s| - 1] + [s[|s| - 1]]
  {}
}
