/**
 * The lists the front-end slices keep (customers, users, sales): records with an id, the
 * replacement of the first record with a given id, and the removal of every record with an id.
 */
module Records {
  import opened Common

  /** A record of a slice's list: its id and the rest of its fields. */
  datatype Entity<D> = Entity(id: int, data: D)

  function IdOf<D>(e: Entity<D>): int { e.id }

  /** No two records share an id. */
  predicate DistinctIds<D>(s: seq<Entity<D>>)
  {
    forall i, j :: 0 <= i < j < |s| ==> s[i].id != s[j].id
  }

  /** Position `j` holds the first record with the id. */
  predicate FirstWithId<D>(s: seq<Entity<D>>, j: int, id: int)
  {
    0 <= j < |s| && s[j].id == id && forall k :: 0 <= k < j ==> s[k].id != id
  }

  /**
   * `findIndex` by id, then assignment at that index: the first record with the id of `x` is
   * replaced by `x`, every other position keeps its record, and without such a record nothing
   * changes.
   */
  function ReplaceFirst<D>(s: seq<Entity<D>>, x: Entity<D>): (r: seq<Entity<D>>)
    ensures |r| == |s|
    ensures forall j :: 0 <= j < |s| ==> r[j] == (if FirstWithId(s, j, x.id) then x else s[j])
    ensures (forall j :: 0 <= j < |s| ==> s[j].id != x.id) ==> r == s
  {
    match FindBy(s, IdOf, x.id)
    case None => s
    case Some(i) => s[i := x]
  }

  /** `filter` by id: the records with another id, in their order. */
  function WithoutId<D>(s: seq<Entity<D>>, id: int): (r: seq<Entity<D>>)
    ensures forall i :: 0 <= i < |r| ==> r[i] in s && r[i].id != id
    ensures forall i :: 0 <= i < |s| && s[i].id != id ==> s[i] in r
    ensures |r| <= |s|
  {
    Filter(s, (e: Entity<D>) => e.id != id)
  }

  /** Removing an id keeps every other record as often as it was there, and adds none. */
  lemma WithoutIdCounts<D>(s: seq<Entity<D>>, id: int)
    ensures multiset(WithoutId(s, id)) <= multiset(s)
    ensures forall i :: 0 <= i < |s| && s[i].id != id ==> multiset(WithoutId(s, id))[s[i]] == multiset(s)[s[i]]
  {
    FilterCounts(s, (e: Entity<D>) => e.id != id);
  }

  /** Removing an id from two runs of records keeps the first run's survivors first. */
  lemma WithoutIdKeepsOrder<D>(a: seq<Entity<D>>, b: seq<Entity<D>>, id: int)
    ensures WithoutId(a + b, id) == WithoutId(a, id) + WithoutId(b, id)
  {
    FilterKeepsOrder(a, b, (e: Entity<D>) => e.id != id);
  }

  /** Removing an id no record has changes nothing. */
  lemma {:induction false} WithoutAbsentId<D>(s: seq<Entity<D>>, id: int)
    requires forall j :: 0 <= j < |s| ==> s[j].id != id
    ensures WithoutId(s, id) == s
  {
    if s != [] {
      var init := s[..|s| - 1];
      WithoutAbsentId(init, id);
      assert s == init + [s[|s| - 1]];
    }
  }

  /** Replacing by id keeps the ids distinct. */
  lemma ReplaceKeepsDistinct<D>(s: seq<Entity<D>>, x: Entity<D>)
    requires DistinctIds(s)
    ensures DistinctIds(ReplaceFirst(s, x))
  {
    var r := ReplaceFirst(s, x);
    forall i, j | 0 <= i < j < |r|
      ensures r[i].id != r[j].id
    {
      assert r[i].id == s[i].id && r[j].id == s[j].id;
    }
  }

  /** After replacing a record that was there, looking the id up finds the new record where the old one was. */
  lemma ReplaceThenFind<D>(s: seq<Entity<D>>, x: Entity<D>, i: nat)
    requires FirstWithId(s, i, x.id)
    ensures FindBy(ReplaceFirst(s, x), IdOf, x.id) == Some(i)
    ensures ReplaceFirst(s, x)[i] == x
  {
    var r := ReplaceFirst(s, x);
    assert forall k :: 0 <= k < i ==> r[k] == s[k];
  }

  /** Removing by id keeps the ids distinct, since it only drops records. */
  lemma {:induction false} WithoutIdKeepsDistinct<D>(s: seq<Entity<D>>, id: int)
    requires DistinctIds(s)
    ensures DistinctIds(WithoutId(s, id))
  {
    if s != [] {
      var init := s[..|s| - 1];
      var last := s[|s| - 1];
      assert DistinctIds(init);
      WithoutIdKeepsDistinct(init, id);
      var head := WithoutId(init, id);
      var r := WithoutId(s, id);
      assert r == head + (if last.id != id then [last] else []) by {
        assert s[..|s| - 1] == init;
      }
      if last.id != id {
        forall i | 0 <= i < |head|
          ensures head[i].id != last.id
        {
          var x := head[i];
          assert x in init;
          var k :| 0 <= k < |init| && init[k] == x;
          assert s[k] == x;
        }
      }
    }
  }

  /** Putting a record with a new id in front keeps the ids distinct. */
  lemma PrependKeepsDistinct<D>(s: seq<Entity<D>>, x: Entity<D>)
    requires DistinctIds(s)
    requires forall j :: 0 <= j < |s| ==> s[j].id != x.id
    ensures DistinctIds([x] + s)
  {
    var r := [x] + s;
    forall i, j | 0 <= i < j < |r|
      ensures r[i].id != r[j].id
    {
      assert r[j] == s[j - 1];
      if i > 0 {
        assert r[i] == s[i - 1];
      }
    }
  }
}
