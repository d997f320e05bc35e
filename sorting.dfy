/**
 * A stable sort into descending order of a numeric key, as `OrderByDescending` and
 * `sort((a, b) => b - a)` order their rows; shared by the reports and the rate history.
 */
module Sorting {

  predicate DescendingBy<T>(s: seq<T>, key: T -> real)
  {
    forall i, j :: 0 <= i < j < |s| ==> key(s[i]) >= key(s[j])
  }

  /** Inserts `x` after every row whose key is at least its own, so rows with equal keys keep their order. */
  function InsertDescBy<T(==)>(sorted: seq<T>, x: T, key: T -> real): (r: seq<T>)
    ensures |r| == |sorted| + 1 && multiset(r) == multiset(sorted) + multiset{x}
  {
    if sorted == [] then [x]
    else if key(sorted[|sorted| - 1]) >= key(x) then sorted + [x]
    else
      assert sorted == sorted[..|sorted| - 1] + [sorted[|sorted| - 1]];
      InsertDescBy(sorted[..|sorted| - 1], x, key) + [sorted[|sorted| - 1]]
  }

  /** Inserting into a descending sequence leaves it descending. */
  lemma {:induction false} InsertKeepsDescending<T>(sorted: seq<T>, x: T, key: T -> real)
    requires DescendingBy(sorted, key)
    ensures DescendingBy(InsertDescBy(sorted, x, key), key)
  {
    if sorted != [] && key(sorted[|sorted| - 1]) < key(x) {
      var init := sorted[..|sorted| - 1];
      var last := sorted[|sorted| - 1];
      var head := InsertDescBy(init, x, key);
      var r := head + [last];
      assert DescendingBy(init, key);
      InsertKeepsDescending(init, x, key);
      forall y | y in multiset(head)
        ensures key(y) >= key(last)
      {
        if y != x {
          assert y in multiset(init);
          var k :| 0 <= k < |init| && init[k] == y;
        }
      }
      forall i, j | 0 <= i < j < |r|
        ensures key(r[i]) >= key(r[j])
      {
        assert r[i] == head[i];
        if j == |r| - 1 {
          assert r[i] in multiset(head);
        } else {
          assert r[j] == head[j];
        }
      }
    }
  }

  /** The rows in descending order of `key`, the same rows with the same multiplicities. */
  function SortDescBy<T(==)>(s: seq<T>, key: T -> real): (r: seq<T>)
    ensures |r| == |s| && multiset(r) == multiset(s)
    ensures DescendingBy(r, key)
  {
    if s == [] then []
    else
      assert s == s[..|s| - 1] + [s[|s| - 1]];
      InsertKeepsDescending(SortDescBy(s[..|s| - 1], key), s[|s| - 1], key);
      InsertDescBy(SortDescBy(s[..|s| - 1], key), s[|s| - 1], key)
  }

  /** Sorting neither adds nor drops a row. */
  lemma SortKeepsRows<T>(s: seq<T>, key: T -> real)
    ensures forall x :: x in SortDescBy(s, key) <==> x in s
  {
    var r := SortDescBy(s, key);
    assert forall x :: x in r <==> x in multiset(r);
    assert forall x :: x in s <==> x in multiset(s);
  }
}
