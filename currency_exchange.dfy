/**
 * The currency exchange service: the rate of a currency in afghanis, conversions to, from and
 * through the afghani, and setting rates (one at a time, or a batch keyed by currency code).
 */
module CurrencyExchange {
  import opened Common
  import opened Books
  import opened RateRepository

  /** The code of the afghani, the base currency. */
  const Afghani: string := "AFN"

  /** The exceptions the service throws. */
  datatype RateError =
    | NoActiveRate(currencyId: int)   // InvalidOperationException
    | InvalidCurrencyId               // ArgumentException "Invalid currency ID"
    | NonPositiveRate                 // ArgumentException "Exchange rate must be positive"
    | DivideByZero                    // a division by a zero decimal rate

  /** The currency with the given id, if any. */
  function CurrencyWithId(cs: seq<Currency>, id: int): Option<Currency>
  {
    match FindBy(cs, CurrencyId, id)
    case None => None
    case Some(i) => Some(cs[i])
  }

  /** Whether the given id names an afghani currency row. */
  predicate IsAfghani(cs: seq<Currency>, id: int)
  {
    var c := CurrencyWithId(cs, id);
    c.Some? && c.value.code == Afghani
  }

  /**
   * Afghanis per unit of the currency: exactly 1 for the afghani; otherwise the rate of the
   * currency's active row with the latest effective date; an error when there is none.
   */
  function RateToAfghani(t: Tables, currencyId: int): (r: Result<real, RateError>)
    ensures r.Failure? ==> r.error == NoActiveRate(currencyId)
  {
    if IsAfghani(t.currencies, currencyId) then Success(1.0)
    else
      match ActiveRate(t.rates, currencyId, None)
      case None => Failure(NoActiveRate(currencyId))
      case Some(row) => Success(row.rateToAfghani)
  }

  /**
   * The rate lookup answers 1 for the afghani; for any other currency it succeeds exactly when
   * the currency has an active row, with the rate of the newest one.
   */
  lemma RateToAfghaniMeans(t: Tables, currencyId: int)
    ensures IsAfghani(t.currencies, currencyId) ==> RateToAfghani(t, currencyId) == Success(1.0)
    ensures !IsAfghani(t.currencies, currencyId) ==>
      (RateToAfghani(t, currencyId).Success? <==>
        exists i :: 0 <= i < |t.rates| && t.rates[i].currencyId == currencyId && t.rates[i].isActive)
    ensures !IsAfghani(t.currencies, currencyId) && RateToAfghani(t, currencyId).Success? ==>
      RateToAfghani(t, currencyId).value == ActiveRate(t.rates, currencyId, None).value.rateToAfghani
  {
  }

  /** amount x rate, after rejecting a non-positive currency id. */
  function ConvertToAfghani(t: Tables, amount: real, fromCurrencyId: int): (r: Result<real, RateError>)
    ensures fromCurrencyId <= 0 ==> r.Failure? && r.error == InvalidCurrencyId
    ensures fromCurrencyId > 0 ==> (r.Success? <==> RateToAfghani(t, fromCurrencyId).Success?)
    ensures r.Success? ==> r.value == amount * RateToAfghani(t, fromCurrencyId).value
    ensures fromCurrencyId > 0 && IsAfghani(t.currencies, fromCurrencyId) ==> r.Success? && r.value == amount
  {
    if fromCurrencyId <= 0 then Failure(InvalidCurrencyId)
    else
      match RateToAfghani(t, fromCurrencyId)
      case Failure(e) => Failure(e)
      case Success(rate) => Success(amount * rate)
  }

  /** amount / rate, after rejecting a non-positive currency id; a zero rate cannot divide. */
  function ConvertFromAfghani(t: Tables, amount: real, toCurrencyId: int): (r: Result<real, RateError>)
    ensures toCurrencyId <= 0 ==> r.Failure? && r.error == InvalidCurrencyId
    ensures toCurrencyId > 0 ==>
      (r.Success? <==> RateToAfghani(t, toCurrencyId).Success? && RateToAfghani(t, toCurrencyId).value != 0.0)
    ensures r.Success? ==> r.value * RateToAfghani(t, toCurrencyId).value == amount
    ensures toCurrencyId > 0 && IsAfghani(t.currencies, toCurrencyId) ==> r.Success? && r.value == amount
  {
    if toCurrencyId <= 0 then Failure(InvalidCurrencyId)
    else
      match RateToAfghani(t, toCurrencyId)
      case Failure(e) => Failure(e)
      case Success(rate) => if rate == 0.0 then Failure(DivideByZero) else Success(amount / rate)
  }

  /** The identity between equal ids; otherwise through the afghani. */
  function Convert(t: Tables, amount: real, fromCurrencyId: int, toCurrencyId: int): (r: Result<real, RateError>)
    ensures fromCurrencyId == toCurrencyId ==> r.Success? && r.value == amount
    ensures r.Success? && fromCurrencyId != toCurrencyId ==>
      && RateToAfghani(t, fromCurrencyId).Success? && RateToAfghani(t, toCurrencyId).Success?
      && r.value * RateToAfghani(t, toCurrencyId).value == amount * RateToAfghani(t, fromCurrencyId).value
  {
    if fromCurrencyId == toCurrencyId then Success(amount)
    else
      match ConvertToAfghani(t, amount, fromCurrencyId)
      case Failure(e) => Failure(e)
      case Success(afghanis) => ConvertFromAfghani(t, afghanis, toCurrencyId)
  }

  /** Every stored rate is positive, as setting a rate guarantees. */
  predicate RatesPositive(t: Tables)
  {
    forall i :: 0 <= i < |t.rates| ==> t.rates[i].rateToAfghani > 0.0
  }

  /** With positive stored rates, every rate the lookup answers is positive. */
  lemma RateIsPositive(t: Tables, id: int)
    requires RatesPositive(t)
    ensures RateToAfghani(t, id).Success? ==> RateToAfghani(t, id).value > 0.0
  {
    if RateToAfghani(t, id).Success? && !IsAfghani(t.currencies, id) {
      var row := ActiveRate(t.rates, id, None).value;
      assert row in t.rates;
    }
  }

  /** With positive rates, converting into afghanis and back returns the amount. */
  lemma AfghaniRoundTrip(t: Tables, amount: real, id: int)
    requires RatesPositive(t)
    ensures ConvertToAfghani(t, amount, id).Success? ==>
      ConvertFromAfghani(t, ConvertToAfghani(t, amount, id).value, id) == Success(amount)
  {
    RateIsPositive(t, id);
    if ConvertToAfghani(t, amount, id).Success? {
      var rate := RateToAfghani(t, id).value;
      var x := amount * rate;
      assert ConvertToAfghani(t, amount, id).value == x;
      assert ConvertFromAfghani(t, x, id).value == x / rate;
      Unscale(amount, rate);
    }
  }

  /** A conversion between two different currencies succeeds exactly when both ids are positive and both rates resolve, the target's to a nonzero rate; it multiplies by the one and divides by the other. */
  lemma ConvertThroughAfghani(t: Tables, x: real, a: int, b: int)
    requires a != b
    ensures var ra := RateToAfghani(t, a);
      var rb := RateToAfghani(t, b);
      && (Convert(t, x, a, b).Success? <==> a > 0 && b > 0 && ra.Success? && rb.Success? && rb.value != 0.0)
      && (Convert(t, x, a, b).Success? ==> Convert(t, x, a, b).value == x * ra.value / rb.value)
  {
  }

  /** With positive rates, converting from one currency to another and back returns the amount. */
  lemma ConvertRoundTrip(t: Tables, amount: real, a: int, b: int)
    requires RatesPositive(t)
    ensures Convert(t, amount, a, b).Success? ==>
      Convert(t, Convert(t, amount, a, b).value, b, a).Success? && Convert(t, Convert(t, amount, a, b).value, b, a).value == amount
  {
    if a != b && Convert(t, amount, a, b).Success? {
      ConvertNeedsRates(t, amount, a, b);
      RateIsPositive(t, a);
      RateIsPositive(t, b);
      RoundTripByRates(t, amount, a, b, RateToAfghani(t, a).value, RateToAfghani(t, b).value);
    }
  }

  /** Between two currencies with positive known rates, there and back returns the amount. */
  lemma RoundTripByRates(t: Tables, amount: real, a: int, b: int, ra: real, rb: real)
    requires a != b && a > 0 && b > 0 && ra > 0.0 && rb > 0.0
    requires RateToAfghani(t, a).Success? && RateToAfghani(t, a).value == ra
    requires RateToAfghani(t, b).Success? && RateToAfghani(t, b).value == rb
    ensures Convert(t, amount, a, b).Success?
    ensures Convert(t, Convert(t, amount, a, b).value, b, a).Success?
    ensures Convert(t, Convert(t, amount, a, b).value, b, a).value == amount
  {
    var there := amount * ra / rb;
    ConvertByRates(t, amount, a, b, ra, rb);
    ConvertByRates(t, there, b, a, rb, ra);
    Rescale(amount, ra, rb);
  }

  /** A conversion between two different currencies succeeds only on positive ids whose rates resolve. */
  lemma ConvertNeedsRates(t: Tables, x: real, a: int, b: int)
    requires a != b && Convert(t, x, a, b).Success?
    ensures a > 0 && b > 0 && RateToAfghani(t, a).Success? && RateToAfghani(t, b).Success?
  {
  }

  /** Between two different currencies whose rates are known, a conversion scales by their ratio. */
  lemma ConvertByRates(t: Tables, x: real, a: int, b: int, ra: real, rb: real)
    requires a != b && a > 0 && b > 0 && rb != 0.0
    requires RateToAfghani(t, a).Success? && RateToAfghani(t, a).value == ra
    requires RateToAfghani(t, b).Success? && RateToAfghani(t, b).value == rb
    ensures Convert(t, x, a, b).Success? && Convert(t, x, a, b).value == x * ra / rb
  {
    assert ConvertToAfghani(t, x, a).value == x * ra;
  }

  /** Multiplying by a nonzero rate and dividing by it again is the identity. */
  lemma Unscale(x: real, rate: real)
    requires rate != 0.0
    ensures x * rate / rate == x
  {
  }

  /** Scaling by ra / rb and then by rb / ra is the identity. */
  lemma Rescale(x: real, ra: real, rb: real)
    requires ra > 0.0 && rb > 0.0
    ensures x * ra / rb * rb / ra == x
  {
    assert x * ra / rb * rb == x * ra;
  }

  /** The afghani converts to and from afghanis unchanged. */
  lemma AfghaniConvertsUnchanged(t: Tables, amount: real, id: int)
    requires id > 0 && IsAfghani(t.currencies, id)
    ensures ConvertToAfghani(t, amount, id) == Success(amount)
    ensures ConvertFromAfghani(t, amount, id) == Success(amount)
  {
  }

  /** The row with the currency's active flag cleared if it is an active row of that currency. */
  function Deactivated(row: RateRow, currencyId: int): RateRow
  {
    if row.currencyId == currencyId && row.isActive then row.(isActive := false) else row
  }

  function DeactivateAll(rates: seq<RateRow>, currencyId: int): (r: seq<RateRow>)
    ensures |r| == |rates| && forall i :: 0 <= i < |rates| ==> r[i] == Deactivated(rates[i], currencyId)
  {
    seq(|rates|, i requires 0 <= i < |rates| => Deactivated(rates[i], currencyId))
  }

  /**
   * Setting a rate: a non-positive rate is rejected; otherwise every active row of the currency
   * is deactivated, a new active row is appended, and the currency's current rate (when the
   * currency exists) is set.
   */
  function SetRate(t: Tables, currencyId: int, rate: real, date: int): (r: (Tables, Result<RateRow, RateError>))
    ensures r.1.Success? <==> rate > 0.0
    ensures r.1.Failure? ==> r.0 == t && r.1.error == NonPositiveRate
    ensures r.1.Success? ==>
      && r.0 == t.(rates := r.0.rates, currencies := r.0.currencies)
      && |r.0.rates| == |t.rates| + 1 && r.0.rates[|t.rates|] == r.1.value
      && r.1.value.currencyId == currencyId && r.1.value.rateToAfghani == rate && r.1.value.isActive
    ensures |r.0.currencies| == |t.currencies|
  {
    if rate <= 0.0 then (t, Failure(NonPositiveRate))
    else
      var row := RateRow(|t.rates| + 1, currencyId, rate, date, true);
      var currencies := match FindBy(t.currencies, CurrencyId, currencyId)
        case None => t.currencies
        case Some(i) => t.currencies[i := t.currencies[i].(currentExchangeRate := rate)];
      (t.(rates := DeactivateAll(t.rates, currencyId) + [row], currencies := currencies), Success(row))
  }

  /** Exactly one row of the currency is active. */
  predicate OnlyActive(rates: seq<RateRow>, currencyId: int, k: nat)
  {
    k < |rates| && rates[k].currencyId == currencyId && rates[k].isActive
    && forall i :: 0 <= i < |rates| && i != k && rates[i].currencyId == currencyId ==> !rates[i].isActive
  }

  /**
   * A rate is set exactly when it is positive; a rejected one changes nothing. Afterwards the
   * new row is the currency's only active row, every other row keeps its currency, rate and
   * date, rows of other currencies are untouched, the currency's current rate is the new rate,
   * and the rate lookup answers the new rate (1 for the afghani). Only the rate and currency
   * tables change; the tables stay well formed and every rate stays positive.
   */
  lemma SetRateOutcome(t: Tables, currencyId: int, rate: real, date: int)
    requires WellFormed(t)
    ensures var (t', r) := SetRate(t, currencyId, rate, date);
      && (r.Success? <==> rate > 0.0)
      && (r.Failure? ==> t' == t && r.error == NonPositiveRate)
      && (r.Success? ==>
            && t' == t.(rates := t'.rates, currencies := t'.currencies)
            && WellFormed(t') && (RatesPositive(t) ==> RatesPositive(t'))
            && |t'.rates| == |t.rates| + 1 && t'.rates[|t.rates|] == r.value
            && r.value.rateToAfghani == rate && r.value.currencyId == currencyId
            && OnlyActive(t'.rates, currencyId, |t.rates|)
            && (forall i :: 0 <= i < |t.rates| ==>
                  t'.rates[i] == t.rates[i].(isActive := t'.rates[i].isActive)
                  && (t.rates[i].currencyId != currencyId ==> t'.rates[i] == t.rates[i]))
            && ActiveRate(t'.rates, currencyId, None) == Some(r.value)
            && RateToAfghani(t', currencyId) == Success(if IsAfghani(t.currencies, currencyId) then 1.0 else rate))
  {
    if rate > 0.0 {
      var (t', r) := SetRate(t, currencyId, rate, date);
      assert t'.rates[..|t.rates|] == DeactivateAll(t.rates, currencyId);
      CurrenciesKeepIds(t, currencyId, rate, date);
      assert IsAfghani(t'.currencies, currencyId) == IsAfghani(t.currencies, currencyId);
    }
  }

  /** Setting a rate changes no currency's id or code, only the current rate of the one it sets. */
  lemma CurrenciesKeepIds(t: Tables, currencyId: int, rate: real, date: int)
    ensures var cs := SetRate(t, currencyId, rate, date).0.currencies;
      && |cs| == |t.currencies|
      && (forall i :: 0 <= i < |cs| ==> cs[i] == t.currencies[i].(currentExchangeRate := cs[i].currentExchangeRate))
      && (forall i :: 0 <= i < |cs| && cs[i].currentExchangeRate != t.currencies[i].currentExchangeRate ==> cs[i].id == currencyId)
      && CurrencyWithId(cs, currencyId).Some? == CurrencyWithId(t.currencies, currencyId).Some?
      && (rate > 0.0 && CurrencyWithId(cs, currencyId).Some? ==> CurrencyWithId(cs, currencyId).value.currentExchangeRate == rate)
      && (CurrencyWithId(cs, currencyId).Some? ==> CurrencyWithId(cs, currencyId).value.code == CurrencyWithId(t.currencies, currencyId).value.code)
  {
    var cs := SetRate(t, currencyId, rate, date).0.currencies;
    SameIdsFindSame(t.currencies, cs, currencyId);
  }

  /** Two currency tables with the same ids in the same places find a given id at the same place. */
  lemma SameIdsFindSame(cs: seq<Currency>, ds: seq<Currency>, id: int)
    requires |cs| == |ds| && forall i :: 0 <= i < |cs| ==> cs[i].id == ds[i].id
    ensures FindBy(cs, CurrencyId, id) == FindBy(ds, CurrencyId, id)
  {
  }

  /** Setting a rate keeps the tables well formed. */
  lemma SetRateKeepsWellFormed(t: Tables, currencyId: int, rate: real, date: int)
    requires WellFormed(t)
    ensures WellFormed(SetRate(t, currencyId, rate, date).0)
  {
    if rate > 0.0 {
      var t' := SetRate(t, currencyId, rate, date).0;
      CurrenciesKeepIds(t, currencyId, rate, date);
      assert forall i, j :: 0 <= i < j < |t'.currencies| ==> t'.currencies[i].id == t.currencies[i].id && t'.currencies[j].id == t.currencies[j].id;
    }
  }

  /** Clears the active flag of every active row of the currency, one row at a time. */
  method DeactivateRates(b: Books, currencyId: int)
    modifies b
    ensures b.State() == old(b.State()).(rates := DeactivateAll(old(b.rates), currencyId))
  {
    var i := 0;
    while i < |b.rates|
      invariant 0 <= i <= |b.rates| == |old(b.rates)|
      invariant forall k :: 0 <= k < i ==> b.rates[k] == Deactivated(old(b.rates)[k], currencyId)
      invariant forall k :: i <= k < |b.rates| ==> b.rates[k] == old(b.rates)[k]
      invariant b.State() == old(b.State()).(rates := b.rates)
    {
      if b.rates[i].currencyId == currencyId && b.rates[i].isActive {
        b.rates := b.rates[i := b.rates[i].(isActive := false)];
      }
      i := i + 1;
    }
  }

  /** SetExchangeRateAsync. */
  method SetExchangeRate(b: Books, currencyId: int, rate: real, date: int) returns (r: Result<RateRow, RateError>)
    requires b.Valid()
    modifies b
    ensures b.Valid()
    ensures (b.State(), r) == SetRate(old(b.State()), currencyId, rate, date)
  {
    SetRateKeepsWellFormed(b.State(), currencyId, rate, date);
    if rate <= 0.0 {
      return Failure(NonPositiveRate);
    }
    DeactivateRates(b, currencyId);
    var row := RateRow(|b.rates| + 1, currencyId, rate, date, true);
    b.rates := b.rates + [row];
    var found := FindBy(b.currencies, CurrencyId, currencyId);
    if found.Some? {
      b.currencies := b.currencies[found.value := b.currencies[found.value].(currentExchangeRate := rate)];
    }
    r := Success(row);
  }

  /** ASCII upper case, as the batch update compares codes. */
  function Upper(s: string): (r: string)
    ensures |r| == |s|
    ensures forall i :: 0 <= i < |s| ==> r[i] == if 'a' <= s[i] <= 'z' then (s[i] as int - 32) as char else s[i]
  {
    seq(|s|, i requires 0 <= i < |s| => if 'a' <= s[i] <= 'z' then (s[i] as int - 32) as char else s[i])
  }

  /** The first currency whose code matches the key in either case. */
  function CurrencyWithCode(cs: seq<Currency>, key: string): (r: Option<nat>)
    ensures r.None? <==> forall i :: 0 <= i < |cs| ==> Upper(cs[i].code) != Upper(key)
    ensures r.Some? ==> r.value < |cs| && Upper(cs[r.value].code) == Upper(key)
    ensures r.Some? ==> forall i :: 0 <= i < r.value ==> Upper(cs[i].code) != Upper(key)
  {
    if cs == [] then None
    else if Upper(cs[0].code) == Upper(key) then Some(0)
    else
      match CurrencyWithCode(cs[1..], key)
      case None => None
      case Some(i) => Some(i + 1)
  }

  /**
   * The batch update, in the dictionary's order: a key matching no currency, or matching the
   * afghani, is skipped; a matched currency gets its rate set. The first failure stops the
   * batch, and the rates set before it stay set.
   */
  function UpdateRates(t: Tables, batch: seq<(string, real)>, date: int): (r: (Tables, Result<(), RateError>))
    ensures r.1.Failure? ==> r.1.error == NonPositiveRate
    ensures |r.0.currencies| == |t.currencies|
    decreases |batch|
  {
    if batch == [] then (t, Success(()))
    else
      var (t1, r) := UpdateOne(t, batch[0].0, batch[0].1, date);
      if r.Failure? then (t1, r) else UpdateRates(t1, batch[1..], date)
  }

  /** One entry of the batch: skipped unless its key matches a currency other than the afghani. */
  function UpdateOne(t: Tables, key: string, rate: real, date: int): (r: (Tables, Result<(), RateError>))
    ensures r.1.Failure? <==> Settable(t.currencies, key) && rate <= 0.0
    ensures r.1.Failure? ==> r.0 == t && r.1.error == NonPositiveRate
    ensures !Settable(t.currencies, key) ==> r.0 == t
    ensures |r.0.currencies| == |t.currencies|
  {
    match CurrencyWithCode(t.currencies, key)
    case None => (t, Success(()))
    case Some(i) =>
      if t.currencies[i].code == Afghani then (t, Success(()))
      else
        var (t1, r) := SetRate(t, t.currencies[i].id, rate, date);
        (t1, if r.Failure? then Failure(r.error) else Success(()))
  }

  /** The key of a batch entry names a currency other than the afghani, in either case. */
  predicate Settable(cs: seq<Currency>, key: string)
  {
    var m := CurrencyWithCode(cs, key);
    m.Some? && cs[m.value].code != Afghani
  }

  /**
   * The batch keeps the tables well formed, changes only the rate and currency tables, and
   * never changes a currency's id or code.
   */
  lemma {:induction false} UpdateRatesKeepsCurrencies(t: Tables, batch: seq<(string, real)>, date: int)
    requires WellFormed(t)
    ensures var t' := UpdateRates(t, batch, date).0;
      && WellFormed(t')
      && t' == t.(rates := t'.rates, currencies := t'.currencies)
      && |t'.currencies| == |t.currencies|
      && forall i :: 0 <= i < |t.currencies| ==> t'.currencies[i].id == t.currencies[i].id && t'.currencies[i].code == t.currencies[i].code
    decreases |batch|
  {
    if batch != [] {
      var (key, rate) := batch[0];
      var m := CurrencyWithCode(t.currencies, key);
      if m.Some? && t.currencies[m.value].code != Afghani {
        var id := t.currencies[m.value].id;
        SetRateKeepsWellFormed(t, id, rate, date);
        CurrenciesKeepIds(t, id, rate, date);
        if rate > 0.0 {
          UpdateRatesKeepsCurrencies(SetRate(t, id, rate, date).0, batch[1..], date);
        }
      } else {
        UpdateRatesKeepsCurrencies(t, batch[1..], date);
      }
    }
  }

  /** The batch fails exactly when one of its settable entries carries a non-positive rate, and then with that error. */
  lemma {:induction false} UpdateRatesFailsOnBadRate(t: Tables, batch: seq<(string, real)>, date: int)
    ensures var r := UpdateRates(t, batch, date).1;
      && (r.Failure? <==> exists k :: 0 <= k < |batch| && Settable(t.currencies, batch[k].0) && batch[k].1 <= 0.0)
      && (r.Failure? ==> r.error == NonPositiveRate)
    decreases |batch|
  {
    if batch != [] {
      UpdateOneOutcome(t, batch[0].0, batch[0].1, date);
      var t1 := UpdateOne(t, batch[0].0, batch[0].1, date).0;
      if !(Settable(t.currencies, batch[0].0) && batch[0].1 <= 0.0) {
        UpdateRatesFailsOnBadRate(t1, batch[1..], date);
        assert forall k :: 1 <= k < |batch| ==> batch[1..][k - 1] == batch[k];
      }
    }
  }

  /** One entry fails exactly when it is settable with a non-positive rate, and leaves every key as settable as it was. */
  lemma UpdateOneOutcome(t: Tables, key: string, rate: real, date: int)
    ensures var (t1, r) := UpdateOne(t, key, rate, date);
      && (r.Failure? <==> Settable(t.currencies, key) && rate <= 0.0)
      && (r.Failure? ==> r.error == NonPositiveRate)
      && forall k :: Settable(t1.currencies, k) <==> Settable(t.currencies, k)
  {
    var m := CurrencyWithCode(t.currencies, key);
    if m.Some? && t.currencies[m.value].code != Afghani {
      var id := t.currencies[m.value].id;
      CurrenciesKeepIds(t, id, rate, date);
      SameCodesMatchSame(t.currencies, SetRate(t, id, rate, date).0.currencies);
    }
  }

  /** Currency tables with the same codes in the same places decide every key alike. */
  lemma SameCodesMatchSame(cs: seq<Currency>, ds: seq<Currency>)
    requires |cs| == |ds| && forall i :: 0 <= i < |cs| ==> cs[i].code == ds[i].code
    ensures forall key :: CurrencyWithCode(cs, key) == CurrencyWithCode(ds, key) && (Settable(cs, key) <==> Settable(ds, key))
  {
    forall key
      ensures CurrencyWithCode(cs, key) == CurrencyWithCode(ds, key)
    {
      SameCodesMatchKey(cs, ds, key);
    }
  }

  lemma {:induction false} SameCodesMatchKey(cs: seq<Currency>, ds: seq<Currency>, key: string)
    requires |cs| == |ds| && forall i :: 0 <= i < |cs| ==> cs[i].code == ds[i].code
    ensures CurrencyWithCode(cs, key) == CurrencyWithCode(ds, key)
  {
    if cs != [] {
      SameCodesMatchKey(cs[1..], ds[1..], key);
    }
  }

  /** One entry of UpdateExchangeRatesAsync's loop. */
  method UpdateOneRate(b: Books, key: string, rate: real, date: int) returns (r: Result<(), RateError>)
    requires b.Valid()
    modifies b
    ensures b.Valid()
    ensures (b.State(), r) == UpdateOne(old(b.State()), key, rate, date)
  {
    var m := CurrencyWithCode(b.currencies, key);
    r := Success(());
    if m.Some? && b.currencies[m.value].code != Afghani {
      var outcome := SetExchangeRate(b, b.currencies[m.value].id, rate, date);
      if outcome.Failure? {
        r := Failure(outcome.error);
      }
    }
  }

  /** UpdateExchangeRatesAsync. */
  method UpdateExchangeRates(b: Books, batch: seq<(string, real)>, date: int) returns (r: Result<(), RateError>)
    requires b.Valid()
    modifies b
    ensures b.Valid()
    ensures (b.State(), r) == UpdateRates(old(b.State()), batch, date)
  {
    var i := 0;
    while i < |batch|
      invariant 0 <= i <= |batch|
      invariant b.Valid()
      invariant UpdateRates(old(b.State()), batch, date) == UpdateRates(b.State(), batch[i..], date)
    {
      assert batch[i..][1..] == batch[i + 1..];
      r := UpdateOneRate(b, batch[i].0, batch[i].1, date);
      if r.Failure? {
        return;
      }
      i := i + 1;
    }
    r := Success(());
  }
}
