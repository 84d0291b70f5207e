/**
 * `Array.prototype.sort` with a comparator, modelled as insertion sort:
 * the result is ordered by the comparator and is a permutation of the input.
 */
module Sorting {

  /** The comparator orders every pair and is transitive. */
  ghost predicate TotalPreorder<T(!new)>(leq: (T, T) -> bool)
  {
    (forall a, b :: leq(a, b) || leq(b, a)) &&
    (forall a, b, c :: leq(a, b) && leq(b, c) ==> leq(a, c))
  }

  predicate SortedBy<T>(s: seq<T>, leq: (T, T) -> bool)
  {
    forall i, j :: 0 <= i < j < |s| ==> leq(s[i], s[j])
  }

  /** Puts `x` into the sorted `s`, after every element not above it. */
  function Insert<T(!new)>(x: T, s: seq<T>, leq: (T, T) -> bool): (r: seq<T>)
    requires TotalPreorder(leq) && SortedBy(s, leq)
    ensures multiset(r) == multiset(s) + multiset{x} && |r| == |s| + 1
    ensures SortedBy(r, leq)
  {
    if s == [] then [x]
    else
      var last := s[|s| - 1];
      var init := s[..|s| - 1];
      assert s == init + [last];
      if leq(last, x) then
        s + [x]
      else
        var r := Insert(x, init, leq) + [last];
        assert forall e :: e in multiset(Insert(x, init, leq)) ==> e == x || e in init;
        assert forall i :: 0 <= i < |r| - 1 ==> r[i] in multiset(Insert(x, init, leq));
        r
  }

  function InsertionSort<T(!new)>(s: seq<T>, leq: (T, T) -> bool): (r: seq<T>)
    requires TotalPreorder(leq)
    ensures multiset(r) == multiset(s) && |r| == |s|
    ensures SortedBy(r, leq)
  {
    if s == [] then []
    else
      assert s == s[..|s| - 1] + [s[|s| - 1]];
      Insert(s[|s| - 1], InsertionSort(s[..|s| - 1], leq), leq)
  }

  /** A permutation keeps exactly the elements it was given. */
  lemma SortedMembers<T(!new)>(s: seq<T>, leq: (T, T) -> bool, x: T)
    requires TotalPreorder(leq)
    ensures x in InsertionSort(s, leq) <==> x in s
  {
    var r := InsertionSort(s, leq);
    assert x in r <==> x in multiset(r);
    assert x in s <==> x in multiset(s);
  }
}
