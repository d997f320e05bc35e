/**
 * The currencies controller's writes: creating, updating and deleting a currency. Only the
 * update keeps a single base currency, by clearing the base flag of every other currency when
 * the updated one becomes the base.
 */
module CurrenciesController {
  import opened Common
  import opened Books

  /** The fields of a currency an update copies from the request body. */
  datatype CurrencyFields = CurrencyFields(code: string, name: string, symbol: string, isActive: bool, isBaseCurrency: bool)

  /** How many currencies are flagged as the base currency. */
  function BaseCount(cs: seq<Currency>): nat
  {
    if cs == [] then 0 else BaseCount(cs[..|cs| - 1]) + (if cs[|cs| - 1].isBaseCurrency then 1 else 0)
  }

  /** A currency with its base flag cleared unless it is the one with the given id. */
  function ClearedUnless(c: Currency, id: int): Currency
  {
    if c.id != id && c.isBaseCurrency then c.(isBaseCurrency := false) else c
  }

  function ClearOtherBases(cs: seq<Currency>, id: int): (r: seq<Currency>)
    ensures |r| == |cs|
    ensures forall j :: 0 <= j < |cs| ==> r[j] == ClearedUnless(cs[j], id)
  {
    seq(|cs|, j requires 0 <= j < |cs| => ClearedUnless(cs[j], id))
  }

  /** The copied fields applied to a stored currency; its id and current rate are kept. */
  function Updated(c: Currency, f: CurrencyFields): Currency
  {
    c.(code := f.code, name := f.name, symbol := f.symbol, isActive := f.isActive, isBaseCurrency := f.isBaseCurrency)
  }

  /**
   * UpdateCurrency: None (404) when no currency has the id; otherwise the currencies with the
   * fields copied onto that one and, when it becomes the base, every other base flag cleared.
   */
  function UpdateCurrency(cs: seq<Currency>, id: int, f: CurrencyFields): (r: (seq<Currency>, Option<Currency>))
    ensures |r.0| == |cs|
    ensures r.1.None? <==> forall j :: 0 <= j < |cs| ==> cs[j].id != id
    ensures r.1.None? ==> r.0 == cs
    ensures r.1.Some? ==> r.1.value.id == id && r.1.value.code == f.code && r.1.value.isBaseCurrency == f.isBaseCurrency
  {
    match FindBy(cs, CurrencyId, id)
    case None => (cs, None)
    case Some(i) =>
      var cs1 := cs[i := Updated(cs[i], f)];
      (if f.isBaseCurrency then ClearOtherBases(cs1, id) else cs1, Some(Updated(cs[i], f)))
  }

  /**
   * A missing id changes nothing; otherwise the currency with the id carries the copied fields,
   * every other currency keeps everything but possibly its base flag, and no id changes.
   */
  lemma UpdateOutcome(cs: seq<Currency>, id: int, f: CurrencyFields)
    ensures var (cs', r) := UpdateCurrency(cs, id, f);
      && (r.None? <==> forall j :: 0 <= j < |cs| ==> cs[j].id != id)
      && (r.None? ==> cs' == cs)
      && |cs'| == |cs|
      && (forall j :: 0 <= j < |cs| ==> cs'[j].id == cs[j].id)
      && (forall j :: 0 <= j < |cs| && cs[j].id != id ==> cs'[j] == cs[j] || cs'[j] == cs[j].(isBaseCurrency := false))
      && (r.Some? ==>
            r.value.id == id && r.value.code == f.code && r.value.name == f.name && r.value.symbol == f.symbol
            && r.value.isActive == f.isActive && r.value.isBaseCurrency == f.isBaseCurrency && r.value in cs')
  {
    match FindBy(cs, CurrencyId, id)
    case None =>
      assert forall j :: 0 <= j < |cs| ==> CurrencyId(cs[j]) != id;
    case Some(i) =>
      var cs1 := cs[i := Updated(cs[i], f)];
      var cs' := UpdateCurrency(cs, id, f).0;
      assert cs'[i] == Updated(cs[i], f);
  }

  /** When the updated currency becomes the base, it is the only base currency afterwards. */
  lemma UpdateMakesSoleBase(cs: seq<Currency>, id: int, f: CurrencyFields)
    requires DistinctCurrencyIds(cs)
    requires f.isBaseCurrency && UpdateCurrency(cs, id, f).1.Some?
    ensures var cs' := UpdateCurrency(cs, id, f).0;
      && (forall j :: 0 <= j < |cs'| ==> (cs'[j].isBaseCurrency <==> cs'[j].id == id))
      && BaseCount(cs') == 1
  {
    var i := FindBy(cs, CurrencyId, id).value;
    var cs' := UpdateCurrency(cs, id, f).0;
    assert forall j :: 0 <= j < |cs'| && j != i ==> cs'[j].id != id;
    assert cs'[i].isBaseCurrency;
    SoleFlagCountsOne(cs', i);
  }

  /** A sequence in which exactly the row at `i` is flagged counts one base currency. */
  lemma {:induction false} SoleFlagCountsOne(cs: seq<Currency>, i: nat)
    requires i < |cs| && cs[i].isBaseCurrency
    requires forall j :: 0 <= j < |cs| && j != i ==> !cs[j].isBaseCurrency
    ensures BaseCount(cs) == 1
  {
    var last := |cs| - 1;
    if i == last {
      NoFlagCountsZero(cs[..last]);
    } else {
      SoleFlagCountsOne(cs[..last], i);
    }
  }

  lemma {:induction false} NoFlagCountsZero(cs: seq<Currency>)
    requires forall j :: 0 <= j < |cs| ==> !cs[j].isBaseCurrency
    ensures BaseCount(cs) == 0
  {
    if cs != [] {
      NoFlagCountsZero(cs[..|cs| - 1]);
    }
  }

  /** An update that does not make the currency the base touches no other currency. */
  lemma UpdateWithoutBaseKeepsOthers(cs: seq<Currency>, id: int, f: CurrencyFields)
    requires !f.isBaseCurrency
    ensures var cs' := UpdateCurrency(cs, id, f).0;
      forall j :: 0 <= j < |cs| && cs[j].id != id ==> cs'[j] == cs[j]
  {
  }

  /** So clearing the base flag of the only base currency leaves no base currency at all. */
  lemma ClearingTheBaseLeavesNone()
    ensures var cs := [Currency(1, "AFN", "Afghani", "AFN", true, true, 1.0)];
      && BaseCount(cs) == 1
      && UpdateCurrency(cs, 1, CurrencyFields("AFN", "Afghani", "AFN", true, false)).1.Some?
      && BaseCount(UpdateCurrency(cs, 1, CurrencyFields("AFN", "Afghani", "AFN", true, false)).0) == 0
  {
    var cs := [Currency(1, "AFN", "Afghani", "AFN", true, true, 1.0)];
    var cs' := UpdateCurrency(cs, 1, CurrencyFields("AFN", "Afghani", "AFN", true, false)).0;
    assert cs'[0].isBaseCurrency == false;
    assert cs'[..0] == [];
  }

  /**
   * A fresh identity for a new currency. The database's identity column picks some id it has not
   * used before; the model picks one such id, one more than the largest in use.
   */
  function NextId(cs: seq<Currency>): (r: int)
    ensures r >= 1
    ensures forall j :: 0 <= j < |cs| ==> cs[j].id < r
  {
    if cs == [] then 1 else MaxInt(NextId(cs[..|cs| - 1]), cs[|cs| - 1].id + 1)
  }

  /** CreateCurrency: the posted currency is stored as given, under a fresh identity. */
  function CreateCurrency(cs: seq<Currency>, c: Currency): (r: (seq<Currency>, Currency))
    ensures r.0 == cs + [r.1] && r.1 == c.(id := r.1.id)
    ensures DistinctCurrencyIds(cs) ==> DistinctCurrencyIds(r.0)
  {
    (cs + [c.(id := NextId(cs))], c.(id := NextId(cs)))
  }

  /** DeleteCurrency: None (404) when no currency has the id; otherwise the currencies without it. */
  function DeleteCurrency(cs: seq<Currency>, id: int): (r: Option<seq<Currency>>)
    ensures r.None? <==> forall j :: 0 <= j < |cs| ==> cs[j].id != id
    ensures r.Some? ==> |r.value| == |cs| - 1 && forall c :: c in r.value ==> c in cs
    ensures DistinctCurrencyIds(cs) && r.Some? ==> DistinctCurrencyIds(r.value) && forall c :: c in r.value ==> c.id != id
  {
    match FindBy(cs, CurrencyId, id)
    case None => None
    case Some(i) =>
      var rest := cs[..i] + cs[i + 1..];
      assert forall k :: 0 <= k < i ==> rest[k] == cs[k];
      assert forall k :: i <= k < |rest| ==> rest[k] == cs[k + 1];
      Some(rest)
  }

  /**
   * Creating and deleting do not keep a single base currency: creating a second base currency
   * leaves two, and deleting the only one leaves none.
   */
  lemma CreateAndDeleteIgnoreBase()
    ensures var cs := [Currency(1, "AFN", "Afghani", "AFN", true, true, 1.0)];
      var usd := Currency(0, "USD", "US Dollar", "$", true, true, 70.0);
      && BaseCount(cs) == 1
      && BaseCount(CreateCurrency(cs, usd).0) == 2
      && DeleteCurrency(cs, 1).Some? && BaseCount(DeleteCurrency(cs, 1).value) == 0
  {
    var cs := [Currency(1, "AFN", "Afghani", "AFN", true, true, 1.0)];
    var usd := Currency(0, "USD", "US Dollar", "$", true, true, 70.0);
    var created := CreateCurrency(cs, usd).0;
    assert created[..1] == cs;
    assert cs[..0] == [];
    assert DeleteCurrency(cs, 1).value == [];
  }

  /** UpdateCurrency, with its loop over the other currencies. */
  method UpdateCurrencyView(b: Books, id: int, f: CurrencyFields) returns (r: Option<Currency>)
    requires b.Valid()
    modifies b
    ensures b.Valid()
    ensures b.State() == old(b.State()).(currencies := UpdateCurrency(old(b.currencies), id, f).0)
    ensures r == UpdateCurrency(old(b.currencies), id, f).1
  {
    var found := FindBy(b.currencies, CurrencyId, id);
    if found.None? {
      return None;
    }
    var existing := Updated(b.currencies[found.value], f);
    b.currencies := b.currencies[found.value := existing];
    ghost var cs1 := b.currencies;
    if f.isBaseCurrency {
      var i := 0;
      while i < |b.currencies|
        invariant 0 <= i <= |b.currencies| == |cs1|
        invariant forall j :: 0 <= j < i ==> b.currencies[j] == ClearedUnless(cs1[j], id)
        invariant forall j :: i <= j < |cs1| ==> b.currencies[j] == cs1[j]
        invariant b.State() == old(b.State()).(currencies := b.currencies)
      {
        if b.currencies[i].id != id && b.currencies[i].isBaseCurrency {
          b.currencies := b.currencies[i := b.currencies[i].(isBaseCurrency := false)];
        }
        i := i + 1;
      }
      assert b.currencies == ClearOtherBases(cs1, id);
    }
    UpdateOutcome(old(b.currencies), id, f);
    r := Some(existing);
  }

  /** CreateCurrency. */
  method CreateCurrencyView(b: Books, c: Currency) returns (created: Currency)
    requires b.Valid()
    modifies b
    ensures b.Valid()
    ensures b.State() == old(b.State()).(currencies := CreateCurrency(old(b.currencies), c).0)
    ensures created == CreateCurrency(old(b.currencies), c).1
  {
    created := c.(id := NextId(b.currencies));
    b.currencies := b.currencies + [created];
  }

  /** DeleteCurrency: false (404) when no currency has the id. */
  method DeleteCurrencyView(b: Books, id: int) returns (deleted: bool)
    requires b.Valid()
    modifies b
    ensures b.Valid()
    ensures deleted == DeleteCurrency(old(b.currencies), id).Some?
    ensures b.State() == old(b.State()).(currencies := DeleteCurrency(old(b.currencies), id).GetOr(old(b.currencies)))
  {
    var found := FindBy(b.currencies, CurrencyId, id);
    if found.None? {
      return false;
    }
    b.currencies := b.currencies[..found.value] + b.currencies[found.value + 1..];
    deleted := true;
  }
}
