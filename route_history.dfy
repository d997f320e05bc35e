/**
 * The route history the layout keeps in local storage: newest visit first, at most twenty
 * visits, and no second entry when the same page is visited twice in a row.
 */
module RouteHistory {
  import opened Common

  /** One visit: the path, when it happened, and how the router got there. */
  datatype Entry = Entry(url: string, timestamp: string, navType: string)

  const MaxEntries := 20

  /**
   * The stored list after visiting `entry`: None (nothing is written) when the newest entry
   * already has its url; otherwise the entry put first and the list cut to twenty entries.
   */
  function Visit(previous: seq<Entry>, entry: Entry): (r: Option<seq<Entry>>)
    ensures r.None? <==> |previous| > 0 && previous[0].url == entry.url
    ensures r.Some? ==> |r.value| == Min(|previous| + 1, MaxEntries) && r.value[0] == entry
    ensures r.Some? ==> forall i :: 1 <= i < |r.value| ==> r.value[i] == previous[i - 1]
  {
    if |previous| > 0 && previous[0].url == entry.url then None
    else
      var updated := [entry] + previous;
      Some(if |updated| <= MaxEntries then updated else updated[..MaxEntries])
  }

  /** The list as stored after a visit: the new one, or the old one when nothing was written. */
  function Stored(previous: seq<Entry>, entry: Entry): (r: seq<Entry>)
    ensures r != [] && r[0].url == entry.url
    ensures |previous| <= MaxEntries ==> |r| <= MaxEntries
  {
    Visit(previous, entry).GetOr(previous)
  }

  /** The kept entries are the newest of the old list, in their order: the oldest are dropped first. */
  lemma KeepsNewest(previous: seq<Entry>, entry: Entry)
    requires Visit(previous, entry).Some?
    ensures Stored(previous, entry)[1..] == previous[..Min(|previous|, MaxEntries - 1)]
  {
    var r := Stored(previous, entry);
    assert forall i :: 0 <= i < |r| - 1 ==> r[1..][i] == previous[i];
  }

  /** Visiting a list of visits one after another, as the layout does on each navigation. */
  function VisitAll(history: seq<Entry>, visits: seq<Entry>): seq<Entry>
    decreases |visits|
  {
    if visits == [] then history else VisitAll(Stored(history, visits[0]), visits[1..])
  }

  /** However many pages are visited, the stored history stays within twenty entries. */
  lemma {:induction false} VisitAllBounded(history: seq<Entry>, visits: seq<Entry>)
    requires |history| <= MaxEntries
    ensures |VisitAll(history, visits)| <= MaxEntries
    decreases |visits|
  {
    if visits != [] {
      VisitAllBounded(Stored(history, visits[0]), visits[1..]);
    }
  }
}
