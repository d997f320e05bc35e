/**
 * Exchange-rate resolution and conversion to the base currency
 * (the helpers every Django view uses before writing a ledger row).
 */
module Rates {
  import opened Common

  /** The book-keeping currency: every `amount_base` is expressed in it. */
  const Base: string := "AFN"

  /** One row of the exchange-rate table: how many `to` units one `from` unit buys on `date`. */
  datatype ExchangeRate = ExchangeRate(from: string, to: string, rate: real, date: int, createdAt: nat)

  predicate Quotes(r: ExchangeRate, from: string, to: string)
  {
    r.from == from && r.to == to
  }

  /** `a` comes no later than `b` when rows are ordered newest date first, then newest creation first. */
  predicate AtLeastAsRecent(a: ExchangeRate, b: ExchangeRate)
  {
    a.date > b.date || (a.date == b.date && a.createdAt >= b.createdAt)
  }

  /** The first row of the (from, to) rows ordered by descending date, then descending creation time. */
  function Newest(rows: seq<ExchangeRate>, from: string, to: string): (r: Option<ExchangeRate>)
    ensures r.None? <==> (forall i :: 0 <= i < |rows| ==> !Quotes(rows[i], from, to))
    ensures r.Some? ==> r.value in rows && Quotes(r.value, from, to)
    ensures r.Some? ==> forall i :: 0 <= i < |rows| && Quotes(rows[i], from, to) ==> AtLeastAsRecent(r.value, rows[i])
  {
    if rows == [] then None
    else
      var rest := Newest(rows[1..], from, to);
      assert forall i :: 1 <= i < |rows| ==> rows[i] == rows[1..][i - 1];
      if Quotes(rows[0], from, to) && (rest.None? || AtLeastAsRecent(rows[0], rest.value)) then Some(rows[0])
      else rest
  }

  /**
   * The rate for converting `from` into `to`: 1 for the same currency, else the newest direct
   * quote, else the reciprocal of the newest reverse quote when that is non-zero, else 1.
   */
  function LatestRate(rows: seq<ExchangeRate>, from: string, to: string): real
  {
    if from == to then 1.0
    else
      match Newest(rows, from, to)
      case Some(direct) =>
        direct.rate
      case None =>
        match Newest(rows, to, from)
        case Some(reverse) => if reverse.rate != 0.0 then 1.0 / reverse.rate else 1.0
        case None => 1.0
  }

  /**
   * Which quote the resolved rate comes from: none for the same currency, the newest direct
   * quote when there is one, the reciprocal of the newest reverse quote otherwise, and 1 when
   * neither direction is quoted.
   */
  lemma LatestRateResolves(rows: seq<ExchangeRate>, from: string, to: string)
    ensures var r := LatestRate(rows, from, to);
      && (from == to ==> r == 1.0)
      && (from != to && (exists i :: 0 <= i < |rows| && Quotes(rows[i], from, to)) ==>
            exists i :: 0 <= i < |rows| && Quotes(rows[i], from, to) && r == rows[i].rate &&
              forall j :: 0 <= j < |rows| && Quotes(rows[j], from, to) ==> AtLeastAsRecent(rows[i], rows[j]))
      && ((from != to && Newest(rows, from, to).None? && Newest(rows, to, from).Some? &&
           Newest(rows, to, from).value.rate != 0.0) ==> r * Newest(rows, to, from).value.rate == 1.0)
      && (from != to && (forall i :: 0 <= i < |rows| ==> !Quotes(rows[i], from, to) && !Quotes(rows[i], to, from)) ==> r == 1.0)
  {
  }

  /** Converts `amount` from `from` into `to`, returning the converted amount and the rate used. */
  function Convert(rows: seq<ExchangeRate>, amount: real, from: string, to: string): (r: (real, real))
    ensures from == to ==> r == (amount, 1.0)
    ensures r.1 == LatestRate(rows, from, to)
  {
    if from == to then (amount, 1.0)
    else
      var rate := LatestRate(rows, from, to);
      (amount * rate, rate)
  }

  /** The converted amount is the amount times the rate the conversion reports. */
  lemma ConvertScales(rows: seq<ExchangeRate>, amount: real, from: string, to: string)
    ensures Convert(rows, amount, from, to).0 == amount * Convert(rows, amount, from, to).1
  {
  }

  /** A currency code is accepted when the currency table holds it. */
  predicate ValidCurrency(currencies: set<string>, code: string)
  {
    code in currencies
  }

  predicate AllRatesPositive(rows: seq<ExchangeRate>)
  {
    forall i :: 0 <= i < |rows| ==> rows[i].rate > 0.0
  }

  /** With only positive stored quotes the resolved rate is positive in every branch. */
  lemma LatestRatePositive(rows: seq<ExchangeRate>, from: string, to: string)
    requires AllRatesPositive(rows)
    ensures LatestRate(rows, from, to) > 0.0
  {
    if from != to && Newest(rows, from, to).None? {
      match Newest(rows, to, from)
      case Some(reverse) =>
        var k :| 0 <= k < |rows| && rows[k] == reverse;
        assert reverse.rate > 0.0;
        assert 1.0 / reverse.rate > 0.0;
      case None =>
    }
  }

  /** Conversion keeps the sign of the amount when every stored quote is positive. */
  lemma ConvertKeepsSign(rows: seq<ExchangeRate>, amount: real, from: string, to: string)
    requires AllRatesPositive(rows)
    ensures amount > 0.0 ==> Convert(rows, amount, from, to).0 > 0.0
    ensures amount < 0.0 ==> Convert(rows, amount, from, to).0 < 0.0
    ensures amount == 0.0 ==> Convert(rows, amount, from, to).0 == 0.0
  {
    LatestRatePositive(rows, from, to);
  }

  /**
   * When only the (a, b) direction is stored, resolving (b, a) yields the reciprocal of
   * resolving (a, b).
   */
  lemma ReverseIsReciprocal(rows: seq<ExchangeRate>, a: string, b: string)
    requires a != b
    requires forall i :: 0 <= i < |rows| ==> !Quotes(rows[i], b, a)
    requires Newest(rows, a, b).Some? && Newest(rows, a, b).value.rate != 0.0
    ensures LatestRate(rows, b, a) * LatestRate(rows, a, b) == 1.0
  {
    var direct := Newest(rows, a, b).value;
    assert LatestRate(rows, a, b) == direct.rate;
    LatestRateResolves(rows, b, a);
  }
}
