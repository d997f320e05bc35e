/**
 * The multi-currency service: amounts into and out of the base currency (the afghani), and the
 * rate of a currency, all by way of the currency exchange service.
 */
module MultiCurrency {
  import opened Common
  import opened Books
  import opened CurrencyExchange

  /** The amount in afghanis: unchanged for an afghani currency row, otherwise converted. */
  function ConvertToBase(t: Tables, amount: real, currencyId: int): (r: Result<real, RateError>)
    ensures IsAfghani(t.currencies, currencyId) ==> r.Success? && r.value == amount
    ensures r.Success? ==> RateToAfghani(t, currencyId).Success? && r.value == amount * RateToAfghani(t, currencyId).value
  {
    if IsAfghani(t.currencies, currencyId) then Success(amount)
    else ConvertToAfghani(t, amount, currencyId)
  }

  /**
   * The amount in the currency: unchanged for an afghani currency row, otherwise divided by the
   * rate. Unlike ConvertFromAfghani, no currency id is rejected before the rate is looked up.
   */
  function ConvertFromBase(t: Tables, amount: real, currencyId: int): (r: Result<real, RateError>)
    ensures IsAfghani(t.currencies, currencyId) ==> r.Success? && r.value == amount
    ensures r.Success? ==> RateToAfghani(t, currencyId).Success? && r.value * RateToAfghani(t, currencyId).value == amount
  {
    if IsAfghani(t.currencies, currencyId) then Success(amount)
    else
      match RateToAfghani(t, currencyId)
      case Failure(e) => Failure(e)
      case Success(rate) => if rate == 0.0 then Failure(DivideByZero) else Success(amount / rate)
  }

  /** The rate of a currency in afghanis: exactly 1 for the afghani, positive whenever stored rates are. */
  function ExchangeRate(t: Tables, currencyId: int): (r: Result<real, RateError>)
    ensures IsAfghani(t.currencies, currencyId) ==> r.Success? && r.value == 1.0
    ensures RatesPositive(t) && r.Success? ==> r.value > 0.0
    ensures r.Failure? ==> r.error == NoActiveRate(currencyId)
  {
    var r := RateToAfghani(t, currencyId);
    if RatesPositive(t) then RateIsPositive(t, currencyId); r else r
  }

  /**
   * Into the base currency agrees with ConvertToAfghani for every valid id; an invalid id is
   * rejected unless it names an afghani row.
   */
  lemma ToBaseAgrees(t: Tables, amount: real, currencyId: int)
    ensures currencyId > 0 ==> ConvertToBase(t, amount, currencyId) == ConvertToAfghani(t, amount, currencyId)
    ensures currencyId <= 0 && !IsAfghani(t.currencies, currencyId) ==>
      ConvertToBase(t, amount, currencyId).Failure? && ConvertToBase(t, amount, currencyId).error == InvalidCurrencyId
  {
    if currencyId > 0 && IsAfghani(t.currencies, currencyId) {
      assert RateToAfghani(t, currencyId).value == 1.0;
      assert ConvertToAfghani(t, amount, currencyId).value == amount;
    }
  }

  /**
   * Out of the base currency agrees with ConvertFromAfghani for every valid id; for an invalid
   * id that is no afghani row, the rate lookup decides rather than the id check.
   */
  lemma FromBaseAgrees(t: Tables, amount: real, currencyId: int)
    ensures currencyId > 0 ==> ConvertFromBase(t, amount, currencyId) == ConvertFromAfghani(t, amount, currencyId)
    ensures currencyId <= 0 && !IsAfghani(t.currencies, currencyId) ==>
      (ConvertFromBase(t, amount, currencyId).Failure? <==> RateToAfghani(t, currencyId).Failure? || RateToAfghani(t, currencyId).value == 0.0)
  {
    if currencyId > 0 && IsAfghani(t.currencies, currencyId) {
      assert RateToAfghani(t, currencyId).value == 1.0;
      assert ConvertFromAfghani(t, amount, currencyId).value == amount;
    }
  }

  /** With positive rates, into the base currency and back returns the amount. */
  lemma BaseRoundTrip(t: Tables, amount: real, currencyId: int)
    requires RatesPositive(t)
    ensures ConvertToBase(t, amount, currencyId).Success? ==>
      ConvertFromBase(t, ConvertToBase(t, amount, currencyId).value, currencyId).Success? &&
      ConvertFromBase(t, ConvertToBase(t, amount, currencyId).value, currencyId).value == amount
  {
    if !IsAfghani(t.currencies, currencyId) && ConvertToBase(t, amount, currencyId).Success? {
      RateIsPositive(t, currencyId);
      var rate := RateToAfghani(t, currencyId).value;
      assert rate > 0.0;
      var x := amount * rate;
      assert ConvertToBase(t, amount, currencyId).value == x;
      assert ConvertFromBase(t, x, currencyId).value == x / rate;
      Unscale(amount, rate);
    }
  }
}
