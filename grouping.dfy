/**
 * Grouping rows by a key, as the aggregation loops do with a `Map` of
 * running records: `Group` is the rows of one key in order, `Fold` the
 * running record of some rows, and `Aggregated` the state of such a loop
 * after a prefix of its input. A key of `None` means the row is skipped.
 */
module Grouping {
  import opened Js

  /** The rows of `items` whose key is `k`, in order. */
  function Group<T, K(==)>(items: seq<T>, key: T -> Option<K>, k: K): seq<T>
  {
    if items == [] then []
    else
      var g := Group(items[..|items| - 1], key, k);
      if key(items[|items| - 1]) == Some(k) then g + [items[|items| - 1]] else g
  }

  /** The keys that occur in `items`. */
  function KeysOf<T, K(==)>(items: seq<T>, key: T -> Option<K>): set<K>
  {
    if items == [] then {}
    else
      var last := key(items[|items| - 1]);
      KeysOf(items[..|items| - 1], key) + (if last.Some? then {last.value} else {})
  }

  /** The running record of `items`, started from `zero`. */
  function Fold<T, A>(items: seq<T>, add: (A, T) -> A, zero: A): A
  {
    if items == [] then zero else add(Fold(items[..|items| - 1], add, zero), items[|items| - 1])
  }

  /** The state of an aggregation loop after `items`: one record per key,
      holding the fold of that key's rows. */
  ghost predicate Aggregated<T, K, A>(m: map<K, A>, items: seq<T>, key: T -> Option<K>,
                                          add: (A, T) -> A, zero: A)
  {
    m.Keys == KeysOf(items, key) &&
    forall k :: k in m ==> m[k] == Fold(Group(items, key, k), add, zero)
  }

  lemma FoldSnoc<T, A>(items: seq<T>, x: T, add: (A, T) -> A, zero: A)
    ensures Fold(items + [x], add, zero) == add(Fold(items, add, zero), x)
  {
    assert (items + [x])[..|items|] == items;
  }

  lemma GroupStep<T, K>(items: seq<T>, i: nat, key: T -> Option<K>, k: K)
    requires i < |items|
    ensures Group(items[..i + 1], key, k) ==
      if key(items[i]) == Some(k) then Group(items[..i], key, k) + [items[i]] else Group(items[..i], key, k)
    ensures KeysOf(items[..i + 1], key) ==
      KeysOf(items[..i], key) + (if key(items[i]).Some? then {key(items[i]).value} else {})
  {
    assert items[..i + 1][..i] == items[..i];
  }

  lemma {:induction false} GroupAbsent<T, K>(items: seq<T>, key: T -> Option<K>, k: K)
    requires k !in KeysOf(items, key)
    ensures Group(items, key, k) == []
  {
    if items != [] {
      GroupAbsent(items[..|items| - 1], key, k);
    }
  }

  lemma {:induction false} KeysOfMember<T, K>(items: seq<T>, key: T -> Option<K>, i: nat)
    requires i < |items| && key(items[i]).Some?
    ensures key(items[i]).value in KeysOf(items, key)
  {
    if i < |items| - 1 {
      KeysOfMember(items[..|items| - 1], key, i);
    }
  }

  /** A group holds exactly the rows of its key. */
  lemma {:induction false} GroupMembers<T, K>(items: seq<T>, key: T -> Option<K>, k: K, x: T)
    ensures x in Group(items, key, k) <==> x in items && key(x) == Some(k)
  {
    if items != [] {
      var init := items[..|items| - 1];
      GroupMembers(init, key, k, x);
      assert items == init + [items[|items| - 1]];
    }
  }

  /** Every key has at least one row, and a group is never longer than the input. */
  lemma {:induction false} GroupSize<T, K>(items: seq<T>, key: T -> Option<K>, k: K)
    ensures |Group(items, key, k)| <= |items|
    ensures k in KeysOf(items, key) <==> Group(items, key, k) != []
  {
    if items != [] {
      GroupSize(items[..|items| - 1], key, k);
    }
  }

  /** One step of an aggregation loop: a skipped row changes nothing; any
      other row creates its key's record if needed and adds itself to it. */
  lemma AggregateStep<T, K, A>(items: seq<T>, i: nat, key: T -> Option<K>, add: (A, T) -> A, zero: A,
                                    before: map<K, A>, after: map<K, A>)
    requires i < |items| && Aggregated(before, items[..i], key, add, zero)
    requires key(items[i]).None? ==> after == before
    requires key(items[i]).Some? ==>
      var k := key(items[i]).value;
      after == before[k := add(if k in before then before[k] else zero, items[i])]
    ensures Aggregated(after, items[..i + 1], key, add, zero)
  {
    forall k | k in after
      ensures after[k] == Fold(Group(items[..i + 1], key, k), add, zero)
    {
      GroupStep(items, i, key, k);
      if key(items[i]) == Some(k) {
        if k !in before {
          GroupAbsent(items[..i], key, k);
        }
        FoldSnoc(Group(items[..i], key, k), items[i], add, zero);
      }
    }
    if key(items[i]).Some? {
      GroupStep(items, i, key, key(items[i]).value);
    } else {
      assert items[..i + 1][..i] == items[..i];
    }
  }

  lemma AggregatedStart<T, K, A>(items: seq<T>, key: T -> Option<K>, add: (A, T) -> A, zero: A)
    ensures Aggregated(map[], items[..0], key, add, zero)
  {
    assert items[..0] == [];
  }

  /** The rows of `items` that satisfy `keep`, in order (a `WHERE` clause). */
  function Filter<T(!new)>(items: seq<T>, keep: T -> bool): (r: seq<T>)
    ensures |r| <= |items|
    ensures forall x :: x in r <==> x in items && keep(x)
    ensures (forall x :: x in items ==> keep(x)) ==> r == items
  {
    if items == [] then []
    else if keep(items[0]) then [items[0]] + Filter(items[1..], keep)
    else Filter(items[1..], keep)
  }

  /** A row is kept by exactly one of a condition and its negation. */
  lemma {:induction false} FilterSplit<T(!new)>(items: seq<T>, keep: T -> bool, drop: T -> bool)
    requires forall x :: drop(x) <==> !keep(x)
    ensures |Filter(items, keep)| + |Filter(items, drop)| == |items|
  {
    if items != [] {
      FilterSplit(items[1..], keep, drop);
    }
  }

  /** Filtering one more row keeps the order: the row is appended when kept. */
  lemma {:induction false} FilterSnoc<T(!new)>(items: seq<T>, x: T, keep: T -> bool)
    ensures Filter(items + [x], keep) == Filter(items, keep) + (if keep(x) then [x] else [])
  {
    if items == [] {
      assert [x][1..] == [];
    } else {
      assert (items + [x])[0] == items[0];
      assert (items + [x])[1..] == items[1..] + [x];
      FilterSnoc(items[1..], x, keep);
    }
  }

  /** A kept row occurs in the result as often as in the input, a dropped
      one not at all. */
  lemma {:induction false} FilterCount<T(!new)>(items: seq<T>, keep: T -> bool, x: T)
    ensures multiset(Filter(items, keep))[x] == if keep(x) then multiset(items)[x] else 0
  {
    if items != [] {
      FilterCount(items[1..], keep, x);
      assert items == [items[0]] + items[1..];
    }
  }

  /** No two rows share a key. */
  predicate DistinctKeys<T, K(==)>(items: seq<T>, key: T -> K)
  {
    forall i, j :: 0 <= i < j < |items| ==> key(items[i]) != key(items[j])
  }

  /** Rows with distinct keys stay distinct after filtering. */
  lemma {:induction false} FilterKeepsDistinct<T(!new), K>(items: seq<T>, keep: T -> bool, key: T -> K)
    requires DistinctKeys(items, key)
    ensures DistinctKeys(Filter(items, keep), key)
  {
    if items != [] {
      var tail := items[1..];
      assert DistinctKeys(tail, key) by {
        forall i, j | 0 <= i < j < |tail|
          ensures key(tail[i]) != key(tail[j])
        {
          assert tail[i] == items[i + 1] && tail[j] == items[j + 1];
        }
      }
      FilterKeepsDistinct(tail, keep, key);
      var rest := Filter(tail, keep);
      if keep(items[0]) {
        var r := [items[0]] + rest;
        forall i, j | 0 <= i < j < |r|
          ensures key(r[i]) != key(r[j])
        {
          if i == 0 {
            assert r[j] == rest[j - 1] && rest[j - 1] in tail;
            var k :| 0 <= k < |tail| && tail[k] == r[j];
            assert items[k + 1] == r[j];
            assert key(items[0]) != key(items[k + 1]);
          } else {
            assert r[i] == rest[i - 1] && r[j] == rest[j - 1];
            assert key(rest[i - 1]) != key(rest[j - 1]);
          }
        }
        assert Filter(items, keep) == r;
      } else {
        assert Filter(items, keep) == rest;
      }
    }
  }
}
