/**
 * The tables of the .NET back end that its bookkeeping services read and write: currencies and
 * their rate history, customers and suppliers with their opening balances, the cash book, the
 * customer and supplier ledgers, payments, and sale, purchase and sales-return documents.
 * Every appended row takes the next identity (1, 2, 3, ...); dates are day-and-time stamps
 * written as integers.
 */
module Books {
  import opened Common

  /** When a ledger entry was booked: its date, then its identity among entries of one date. */
  datatype Stamp = Stamp(date: int, id: nat)

  /** `a` is not later than `b` in the (Date, Id) order the balance queries sort by. */
  predicate NotAfter(a: Stamp, b: Stamp)
  {
    a.date < b.date || (a.date == b.date && a.id <= b.id)
  }

  /**
   * The position of the newest row among those `keep` selects, by (Date, Id) descending, as
   * `OrderByDescending(Date).ThenByDescending(Id).FirstOrDefault()` finds it; None when no
   * row is selected.
   */
  function NewestWhere<T>(s: seq<T>, keep: T -> bool, stampOf: T -> Stamp): (r: Option<nat>)
    ensures r.None? <==> forall i :: 0 <= i < |s| ==> !keep(s[i])
    ensures r.Some? ==> r.value < |s| && keep(s[r.value])
    ensures r.Some? ==> forall i :: 0 <= i < |s| && keep(s[i]) ==> NotAfter(stampOf(s[i]), stampOf(s[r.value]))
  {
    if s == [] then None
    else
      var last := s[|s| - 1];
      var r := NewestWhere(s[..|s| - 1], keep, stampOf);
      if !keep(last) then r
      else if r.None? || NotAfter(stampOf(s[r.value]), stampOf(last)) then Some(|s| - 1)
      else r
  }

  /** Every row's identity is its position plus one. */
  predicate IdsArePositions<T>(s: seq<T>, idOf: T -> nat)
  {
    forall i :: 0 <= i < |s| ==> idOf(s[i]) == i + 1
  }

  /** The source module a cash-book entry comes from. */
  datatype ModuleType = SaleModule | SaleReturnModule | PurchaseModule | PurchaseReturnModule | CustomerPaymentModule | SupplierPaymentModule

  /** A cash-book entry; `balanceAfter` is the cash balance once it is booked. */
  datatype CashEntry = CashEntry(
    stamp: Stamp,
    moduleType: ModuleType,
    moduleId: Option<nat>,
    currencyId: int,
    originalAmount: real,
    exchangeRate: real,
    cashIn: real,
    cashOut: real,
    balanceAfter: real)

  /** A customer or supplier ledger entry; `balanceAfter` is the party's balance once it is booked. */
  datatype PartyEntry = PartyEntry(
    stamp: Stamp,
    party: int,
    documentId: Option<nat>,
    paymentId: Option<nat>,
    creditAmount: real,
    paymentAmount: real,
    balanceAfter: real)

  /** A customer or a supplier. */
  datatype Party = Party(id: int, openingBalance: real)

  datatype Currency = Currency(
    id: int,
    code: string,
    name: string,
    symbol: string,
    isActive: bool,
    isBaseCurrency: bool,
    currentExchangeRate: real)

  /** One row of a currency's rate history: afghanis per unit of the currency. */
  datatype RateRow = RateRow(id: nat, currencyId: int, rateToAfghani: real, effectiveDate: int, isActive: bool)

  datatype PartyKind = CustomerKind | SupplierKind

  datatype PaymentRow = PaymentRow(id: nat, currencyId: int, partyKind: PartyKind, partyId: int, amount: real, date: int)

  /** A document line; `price` is the cost on a purchase line. */
  datatype LineRow = LineRow(itemId: int, qty: real, price: real, total: real)

  datatype SaleRow = SaleRow(
    id: nat,
    customerId: Option<int>,
    date: int,
    totalAmount: real,
    cashReceived: real,
    creditAmount: real,
    currencyId: int,
    isReturn: bool,
    items: seq<LineRow>)

  datatype PurchaseRow = PurchaseRow(
    id: nat,
    supplierId: int,
    date: int,
    totalAmount: real,
    cashPaid: real,
    creditAmount: real,
    currencyId: int,
    isReturn: bool,
    items: seq<LineRow>)

  datatype SalesReturnRow = SalesReturnRow(
    id: nat,
    customerId: int,
    date: int,
    totalReturnAmount: real,
    cashRefund: real,
    creditRefund: real,
    currencyId: int,
    items: seq<LineRow>)

  /** A snapshot of every table. */
  datatype Tables = Tables(
    currencies: seq<Currency>,
    rates: seq<RateRow>,
    customers: seq<Party>,
    suppliers: seq<Party>,
    items: set<int>,
    cash: seq<CashEntry>,
    customerTx: seq<PartyEntry>,
    supplierTx: seq<PartyEntry>,
    payments: seq<PaymentRow>,
    sales: seq<SaleRow>,
    purchases: seq<PurchaseRow>,
    salesReturns: seq<SalesReturnRow>)

  function CurrencyId(c: Currency): int { c.id }
  function PartyId(p: Party): int { p.id }
  function RateId(r: RateRow): nat { r.id }
  function CashId(e: CashEntry): nat { e.stamp.id }
  function EntryId(e: PartyEntry): nat { e.stamp.id }
  function PaymentId(p: PaymentRow): nat { p.id }
  function SaleId(s: SaleRow): nat { s.id }
  function PurchaseId(p: PurchaseRow): nat { p.id }
  function ReturnId(r: SalesReturnRow): nat { r.id }

  /** No two currencies share an id. */
  predicate DistinctCurrencyIds(cs: seq<Currency>)
  {
    forall i, j :: 0 <= i < j < |cs| ==> cs[i].id != cs[j].id
  }

  /** Appended rows carry the identities the database gave them, and currency ids are unique. */
  predicate WellFormed(t: Tables)
  {
    && DistinctCurrencyIds(t.currencies)
    && IdsArePositions(t.rates, RateId)
    && IdsArePositions(t.cash, CashId)
    && IdsArePositions(t.customerTx, EntryId)
    && IdsArePositions(t.supplierTx, EntryId)
    && IdsArePositions(t.payments, PaymentId)
    && IdsArePositions(t.sales, SaleId)
    && IdsArePositions(t.purchases, PurchaseId)
    && IdsArePositions(t.salesReturns, ReturnId)
  }

  /** The unit of work: the tables the services and handlers update in place. */
  class Books {
    var currencies: seq<Currency>
    var rates: seq<RateRow>
    var customers: seq<Party>
    var suppliers: seq<Party>
    var items: set<int>
    var cash: seq<CashEntry>
    var customerTx: seq<PartyEntry>
    var supplierTx: seq<PartyEntry>
    var payments: seq<PaymentRow>
    var sales: seq<SaleRow>
    var purchases: seq<PurchaseRow>
    var salesReturns: seq<SalesReturnRow>

    function State(): Tables
      reads this
    {
      Tables(currencies, rates, customers, suppliers, items, cash, customerTx, supplierTx, payments, sales, purchases, salesReturns)
    }

    ghost predicate Valid()
      reads this
    {
      WellFormed(State())
    }

    /** Books over the given master data, with every ledger and document table empty. */
    constructor (currencies: seq<Currency>, rates: seq<RateRow>, customers: seq<Party>, suppliers: seq<Party>, items: set<int>)
      requires DistinctCurrencyIds(currencies) && IdsArePositions(rates, RateId)
      ensures Valid()
      ensures State() == Tables(currencies, rates, customers, suppliers, items, [], [], [], [], [], [], [])
    {
      this.currencies := currencies;
      this.rates := rates;
      this.customers := customers;
      this.suppliers := suppliers;
      this.items := items;
      cash := [];
      customerTx := [];
      supplierTx := [];
      payments := [];
      sales := [];
      purchases := [];
      salesReturns := [];
    }
  }
}
