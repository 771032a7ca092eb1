/** How often a value occurs in a sequence. */
module Counting {
  function CountOf<T(==)>(s: seq<T>, x: T): nat {
    if s == [] then 0 else CountOf(s[..|s| - 1], x) + (if s[|s| - 1] == x then 1 else 0)
  }

  lemma CountAppend<T>(s: seq<T>, y: T, x: T)
    ensures CountOf(s + [y], x) == CountOf(s, x) + (if y == x then 1 else 0)
  {
    assert (s + [y])[..|s|] == s;
  }
}
