/** Small value types and sequence helpers shared by every component of the model. */
module Common {

  datatype Option<T> = None | Some(value: T)
  {
    /** The held value, or `default` when there is none. */
    function GetOr(default: T): T
    {
      if Some? then value else default
    }
  }

  /** A value that is either a result or an error description. */
  datatype Result<T, E> = Success(value: T) | Failure(error: E)

  function Abs(x: real): (r: real)
    ensures r >= 0.0
    ensures r == x || r == -x
  {
    if x < 0.0 then -x else x
  }

  /** max(0, x): the non-negative part of a real. */
  function Positive(x: real): (r: real)
    ensures r >= 0.0 && r >= x
    ensures r == 0.0 || r == x
  {
    if x > 0.0 then x else 0.0
  }

  function Min(a: int, b: int): int
  {
    if a <= b then a else b
  }

  function MaxInt(a: int, b: int): int
  {
    if a >= b then a else b
  }

  /** The position of the first element with the given id, as `GetByIdAsync` and `findIndex` find it. */
  function FindBy<T>(s: seq<T>, idOf: T -> int, id: int): (r: Option<nat>)
    ensures r.None? <==> forall i :: 0 <= i < |s| ==> idOf(s[i]) != id
    ensures r.Some? ==> r.value < |s| && idOf(s[r.value]) == id
    ensures r.Some? ==> forall i :: 0 <= i < r.value ==> idOf(s[i]) != id
  {
    if s == [] then None
    else if idOf(s[0]) == id then Some(0)
    else
      match FindBy(s[1..], idOf, id)
      case None => None
      case Some(i) => Some(i + 1)
  }

  /** The elements `keep` selects, in their order, as `filter` returns them. */
  function Filter<T>(s: seq<T>, keep: T -> bool): (r: seq<T>)
    ensures |r| <= |s|
    ensures forall i :: 0 <= i < |r| ==> r[i] in s && keep(r[i])
    ensures forall i :: 0 <= i < |s| && keep(s[i]) ==> s[i] in r
  {
    if s == [] then []
    else
      assert s == s[..|s| - 1] + [s[|s| - 1]];
      Filter(s[..|s| - 1], keep) + (if keep(s[|s| - 1]) then [s[|s| - 1]] else [])
  }

  /** Filtering keeps every selected element as often as it occurs, and adds none. */
  lemma {:induction false} FilterCounts<T>(s: seq<T>, keep: T -> bool)
    ensures multiset(Filter(s, keep)) <= multiset(s)
    ensures forall i :: 0 <= i < |s| && keep(s[i]) ==> multiset(Filter(s, keep))[s[i]] == multiset(s)[s[i]]
    decreases |s|
  {
    if s != [] {
      var init := s[..|s| - 1];
      var last := s[|s| - 1];
      assert s == init + [last];
      FilterCounts(init, keep);
      forall i | 0 <= i < |s| && keep(s[i])
        ensures multiset(Filter(s, keep))[s[i]] == multiset(s)[s[i]]
      {
        if s[i] !in init {
          assert multiset(Filter(init, keep))[s[i]] == 0;
        } else {
          var k :| 0 <= k < |init| && init[k] == s[i];
        }
      }
    }
  }

  /** Filtering two runs one after the other keeps the first run's elements first. */
  lemma {:induction false} FilterKeepsOrder<T>(a: seq<T>, b: seq<T>, keep: T -> bool)
    ensures Filter(a + b, keep) == Filter(a, keep) + Filter(b, keep)
    decreases |b|
  {
    if b == [] {
      assert a + b == a;
    } else {
      var n := |b| - 1;
      assert (a + b)[..|a + b| - 1] == a + b[..n];
      FilterKeepsOrder(a, b[..n], keep);
    }
  }
}
