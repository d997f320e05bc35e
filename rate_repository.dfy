/**
 * The exchange-rate repository's two queries: the active rate of a currency and its rate
 * history.
 */
module RateRepository {
  import opened Common
  import opened Books
  import opened Sorting

  function RateStamp(r: RateRow): Stamp { Stamp(r.effectiveDate, r.id) }

  /** Selects the active rows of one currency. */
  function ActiveOf(currencyId: int): RateRow -> bool
  {
    (r: RateRow) => r.currencyId == currencyId && r.isActive
  }

  /**
   * The active row of the currency with the latest effective date, or None when the currency
   * has no active row. The `date` argument is accepted and not consulted.
   */
  function ActiveRate(rates: seq<RateRow>, currencyId: int, date: Option<int>): (r: Option<RateRow>)
    ensures r.None? <==> forall i :: 0 <= i < |rates| ==> !(rates[i].currencyId == currencyId && rates[i].isActive)
    ensures r.Some? ==> r.value in rates && r.value.currencyId == currencyId && r.value.isActive
    ensures r.Some? ==> forall i :: 0 <= i < |rates| && rates[i].currencyId == currencyId && rates[i].isActive ==>
      rates[i].effectiveDate <= r.value.effectiveDate
  {
    match NewestWhere(rates, ActiveOf(currencyId), RateStamp)
    case None => None
    case Some(i) =>
      assert forall k :: 0 <= k < |rates| && rates[k].currencyId == currencyId && rates[k].isActive ==> ActiveOf(currencyId)(rates[k]);
      Some(rates[i])
  }

  /** The same rows come back whatever date is asked about. */
  lemma ActiveRateIgnoresDate(rates: seq<RateRow>, currencyId: int, d1: Option<int>, d2: Option<int>)
    ensures ActiveRate(rates, currencyId, d1) == ActiveRate(rates, currencyId, d2)
  {
  }

  /** The rows of one currency, active or not, in table order. */
  function RowsOf(rates: seq<RateRow>, currencyId: int): (r: seq<RateRow>)
    ensures forall x :: x in r <==> x in rates && x.currencyId == currencyId
  {
    if rates == [] then []
    else RowsOf(rates[..|rates| - 1], currencyId) + (if rates[|rates| - 1].currencyId == currencyId then [rates[|rates| - 1]] else [])
  }

  function EffectiveDate(r: RateRow): real { r.effectiveDate as real }

  /**
   * The rate history: every row of the currency, the inactive ones included, and no row of any
   * other currency, latest effective date first.
   */
  function History(rates: seq<RateRow>, currencyId: int): (h: seq<RateRow>)
    ensures multiset(h) == multiset(RowsOf(rates, currencyId))
    ensures forall x :: x in h <==> x in rates && x.currencyId == currencyId
    ensures forall i, j :: 0 <= i < j < |h| ==> h[i].effectiveDate >= h[j].effectiveDate
  {
    var h := SortDescBy(RowsOf(rates, currencyId), EffectiveDate);
    SortKeepsRows(RowsOf(rates, currencyId), EffectiveDate);
    assert forall i, j :: 0 <= i < j < |h| ==> EffectiveDate(h[i]) >= EffectiveDate(h[j]);
    h
  }
}
