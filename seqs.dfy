/** Views of a list as its prefix and its last element, the shape in which the
    source's loops consume their input one item at a time. */
module Seqs {

  function Init<T>(s: seq<T>): seq<T>
    requires |s| > 0
  {
    s[..|s| - 1]
  }

  function Last<T>(s: seq<T>): T
    requires |s| > 0
  {
    s[|s| - 1]
  }

  lemma Snoc<T>(s: seq<T>, x: T)
    ensures |s + [x]| > 0 && Init(s + [x]) == s && Last(s + [x]) == x
  {
    assert (s + [x])[..|s|] == s;
  }
}
