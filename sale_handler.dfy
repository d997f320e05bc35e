/**
 * Creating a sale or a sale return: validating the request, storing the document with its lines,
 * then booking the cash received (or refunded) and the customer's credit, all in one unit of
 * work that is rolled back when any step throws.
 */
module SaleHandler {
  import opened Common
  import opened Books
  import opened CurrencyExchange
  import opened Financial
  import opened HandlerLines

  datatype SaleRequest = SaleRequest(customerId: Option<int>, date: int, cashReceived: real, currencyId: int, items: seq<LineRequest>)

  /** The first check a line fails, in the order the validation makes them. */
  function LineError(items: set<int>, l: LineRequest): Option<HandlerError>
  {
    if l.itemId <= 0 then Some(InvalidItemId(l.itemId))
    else if l.itemId !in items then Some(ItemNotFound(l.itemId))
    else if l.qty <= 0.0 then Some(BadQuantity(l.itemId))
    else if l.price <= 0.0 then Some(BadPrice(l.itemId))
    else None
  }

  /** The first error of the first line that has one. */
  function FirstLineError(items: set<int>, lines: seq<LineRequest>): (r: Option<HandlerError>)
  {
    if lines == [] then None
    else if LineError(items, lines[0]).Some? then LineError(items, lines[0])
    else FirstLineError(items, lines[1..])
  }

  /** A line passes exactly when its item id is positive and known and its quantity and price are positive. */
  predicate LineValid(items: set<int>, l: LineRequest)
  {
    l.itemId > 0 && l.itemId in items && l.qty > 0.0 && l.price > 0.0
  }

  /** The lines pass exactly when every line is valid; otherwise the error is that of the first invalid line. */
  lemma {:induction false} FirstLineErrorIsFirst(items: set<int>, lines: seq<LineRequest>)
    ensures FirstLineError(items, lines).None? <==> forall i :: 0 <= i < |lines| ==> LineValid(items, lines[i])
    ensures FirstLineError(items, lines).Some? ==>
      (exists k :: 0 <= k < |lines| && !LineValid(items, lines[k]) && (forall i :: 0 <= i < k ==> LineValid(items, lines[i]))
        && FirstLineError(items, lines) == LineError(items, lines[k]))
  {
    if lines != [] {
      FirstLineErrorIsFirst(items, lines[1..]);
      if LineError(items, lines[0]).None? && FirstLineError(items, lines[1..]).Some? {
        var k :| 0 <= k < |lines[1..]| && !LineValid(items, lines[1..][k])
          && (forall i :: 0 <= i < k ==> LineValid(items, lines[1..][i]))
          && FirstLineError(items, lines[1..]) == LineError(items, lines[1..][k]);
        assert lines[k + 1] == lines[1..][k];
        assert forall i :: 1 <= i < k + 1 ==> lines[i] == lines[1..][i - 1];
      }
      if LineError(items, lines[0]).None? {
        assert forall i :: 1 <= i < |lines| ==> lines[i] == lines[1..][i - 1];
      }
    }
  }

  /** ValidateForeignKeysAsync: the currency, then the lines, then a positive customer id. */
  function ValidateSale(t: Tables, req: SaleRequest): (r: Option<HandlerError>)
    ensures r.None? <==>
      && req.currencyId > 0 && CurrencyWithId(t.currencies, req.currencyId).Some? && req.items != []
      && (forall i :: 0 <= i < |req.items| ==> LineValid(t.items, req.items[i]))
      && (req.customerId.Some? && req.customerId.value > 0 ==> HasParty(t.customers, req.customerId.value))
  {
    FirstLineErrorIsFirst(t.items, req.items);
    if req.currencyId <= 0 then Some(CurrencyIdNotPositive)
    else if CurrencyWithId(t.currencies, req.currencyId).None? then Some(CurrencyNotFound(req.currencyId))
    else if req.items == [] then Some(NoItems)
    else if FirstLineError(t.items, req.items).Some? then FirstLineError(t.items, req.items)
    else if req.customerId.Some? && req.customerId.value > 0 && !HasParty(t.customers, req.customerId.value) then
      Some(CustomerNotFound(req.customerId.value))
    else None
  }

  /** Whether the whole request is acceptable: what validation and the customer lookup demand together. */
  predicate SaleAccepted(t: Tables, req: SaleRequest)
  {
    && req.currencyId > 0
    && CurrencyWithId(t.currencies, req.currencyId).Some?
    && req.items != []
    && (forall i :: 0 <= i < |req.items| ==> LineValid(t.items, req.items[i]))
    && (req.customerId.Some? ==> HasParty(t.customers, req.customerId.value))
  }

  /** The stored sale: amounts negated on a return, credit being what the cash leaves of the total. */
  function SaleDocument(t: Tables, req: SaleRequest, isReturn: bool): SaleRow
  {
    var total := TotalOf(req.items);
    var credit := total - req.cashReceived;
    SaleRow(|t.sales| + 1, req.customerId, req.date, Signed(isReturn, total), Signed(isReturn, req.cashReceived),
            Signed(isReturn, credit), req.currencyId, isReturn, StoredLines(req.items, isReturn))
  }

  /** The cash entry of a sale (cash in) or a return (cash out), at the currency's current rate. */
  function SaleCash(cs: seq<Currency>, req: SaleRequest, id: nat, isReturn: bool): CashMove
  {
    var rate := BookingRate(cs, req.currencyId);
    var base := req.cashReceived * rate;
    CashMove(req.date, if isReturn then SaleReturnModule else SaleModule, Some(id), req.currencyId, req.cashReceived, rate,
             if isReturn then 0.0 else base, if isReturn then base else 0.0)
  }

  /** The customer entry: a sale's credit raises the balance, a return's records its magnitude as a payment. */
  function SaleCredit(customer: int, req: SaleRequest, id: nat, isReturn: bool): PartyMove
  {
    var credit := TotalOf(req.items) - req.cashReceived;
    if isReturn then PartyMove(customer, req.date, None, Some(id), 0.0, Abs(credit))
    else PartyMove(customer, req.date, Some(id), None, credit, 0.0)
  }

  /** The writes of an accepted request: the sale, then its cash entry, then its customer entry. */
  function BookSale(t: Tables, req: SaleRequest, isReturn: bool): Tables
  {
    var sale := SaleDocument(t, req, isReturn);
    var t1 := t.(sales := t.sales + [sale]);
    var t2 := if req.cashReceived > 0.0 then RecordCash(t1, SaleCash(t.currencies, req, sale.id, isReturn)) else t1;
    var credit := TotalOf(req.items) - req.cashReceived;
    if req.customerId.Some? && credit != 0.0 then RecordCustomer(t2, SaleCredit(req.customerId.value, req, sale.id, isReturn)) else t2
  }

  /** CreateSaleHandler.Handle: the new tables and the stored sale, or the tables unchanged and the error. */
  function CreateSale(t: Tables, req: SaleRequest, isReturn: bool): (r: (Tables, Result<SaleRow, HandlerError>))
    ensures r.1.Failure? ==> r.0 == t
    ensures r.1.Success? ==> r.1.value.id == |t.sales| + 1 && r.0.sales == t.sales + [r.1.value]
  {
    match ValidateSale(t, req)
    case Some(e) => (t, Failure(e))
    case None =>
      if req.customerId.Some? && !HasParty(t.customers, req.customerId.value) then
        (t, Failure(CustomerNotFound(req.customerId.value)))
      else
        (BookSale(t, req, isReturn), Success(SaleDocument(t, req, isReturn)))
  }

  /**
   * The sale is created exactly when the request is acceptable; otherwise nothing is written.
   * The error is that of the first failing check: the currency id, the currency, the lines, then
   * the customer.
   */
  lemma SaleOutcome(t: Tables, req: SaleRequest, isReturn: bool)
    ensures CreateSale(t, req, isReturn).1.Success? <==> SaleAccepted(t, req)
    ensures CreateSale(t, req, isReturn).1.Failure? ==> CreateSale(t, req, isReturn).0 == t
    ensures CreateSale(t, req, isReturn).1.Success? ==>
      CreateSale(t, req, isReturn).0 == BookSale(t, req, isReturn) && CreateSale(t, req, isReturn).1.value == SaleDocument(t, req, isReturn)
    ensures req.currencyId <= 0 ==> CreateSale(t, req, isReturn).1.Failure? && CreateSale(t, req, isReturn).1.error == CurrencyIdNotPositive
    ensures req.currencyId > 0 && CurrencyWithId(t.currencies, req.currencyId).None? ==>
      CreateSale(t, req, isReturn).1.Failure? && CreateSale(t, req, isReturn).1.error == CurrencyNotFound(req.currencyId)
    ensures req.currencyId > 0 && CurrencyWithId(t.currencies, req.currencyId).Some? && req.items == [] ==>
      CreateSale(t, req, isReturn).1.Failure? && CreateSale(t, req, isReturn).1.error == NoItems
    ensures req.currencyId > 0 && CurrencyWithId(t.currencies, req.currencyId).Some? && req.items != [] &&
            FirstLineError(t.items, req.items).Some? ==>
      CreateSale(t, req, isReturn).1.Failure? && CreateSale(t, req, isReturn).1.error == FirstLineError(t.items, req.items).value
    ensures req.currencyId > 0 && CurrencyWithId(t.currencies, req.currencyId).Some? && req.items != [] &&
            FirstLineError(t.items, req.items).None? && req.customerId.Some? && !HasParty(t.customers, req.customerId.value) ==>
      CreateSale(t, req, isReturn).1.Failure? && CreateSale(t, req, isReturn).1.error == CustomerNotFound(req.customerId.value)
  {
    FirstLineErrorIsFirst(t.items, req.items);
  }

  /**
   * The stored document: total, cash and credit negated on a return, cash plus credit equal to
   * the total, and lines whose totals add up to the document total, with negated quantities on
   * a return and prices as given.
   */
  lemma SaleDocumentSigns(t: Tables, req: SaleRequest, isReturn: bool)
    ensures var sale := SaleDocument(t, req, isReturn);
      && sale.id == |t.sales| + 1
      && sale.totalAmount == (if isReturn then -TotalOf(req.items) else TotalOf(req.items))
      && sale.cashReceived == (if isReturn then -req.cashReceived else req.cashReceived)
      && sale.totalAmount == sale.cashReceived + sale.creditAmount
      && RowsTotal(sale.items) == sale.totalAmount
      && |sale.items| == |req.items|
      && (forall i :: 0 <= i < |req.items| ==>
            sale.items[i].itemId == req.items[i].itemId && sale.items[i].price == req.items[i].price
            && sale.items[i].qty == (if isReturn then -req.items[i].qty else req.items[i].qty))
  {
    StoredLinesTotal(req.items, isReturn);
  }

  /**
   * What an accepted sale writes: the sale, a cash entry exactly when cash was received, a
   * customer entry exactly when a customer is given and some credit remains, and nothing else;
   * every appended row takes the next identity.
   */
  lemma SaleBooks(t: Tables, req: SaleRequest, isReturn: bool)
    requires WellFormed(t)
    ensures var t' := BookSale(t, req, isReturn);
      var credit := TotalOf(req.items) - req.cashReceived;
      && WellFormed(t')
      && t' == t.(sales := t'.sales, cash := t'.cash, customerTx := t'.customerTx)
      && t'.sales == t.sales + [SaleDocument(t, req, isReturn)]
      && |t'.cash| == |t.cash| + (if req.cashReceived > 0.0 then 1 else 0) && t'.cash[..|t.cash|] == t.cash
      && |t'.customerTx| == |t.customerTx| + (if req.customerId.Some? && credit != 0.0 then 1 else 0)
      && t'.customerTx[..|t.customerTx|] == t.customerTx
  {
    var t1 := t.(sales := t.sales + [SaleDocument(t, req, isReturn)]);
    assert IdsArePositions(t1.sales, SaleId);
    assert WellFormed(t1);
  }

  /**
   * The cash entry of an accepted sale: cash in of the cash received at the booking rate for a
   * sale, cash out for a return; dated no earlier than the book, it moves the cash balance by
   * that much.
   */
  lemma SaleCashEntry(t: Tables, req: SaleRequest, isReturn: bool)
    requires WellFormed(t) && req.cashReceived > 0.0
    ensures var t' := BookSale(t, req, isReturn);
      var base := req.cashReceived * BookingRate(t.currencies, req.currencyId);
      && t'.cash[|t.cash|].moduleId == Some(|t.sales| + 1)
      && t'.cash[|t.cash|].originalAmount == req.cashReceived
      && t'.cash[|t.cash|].cashIn == (if isReturn then 0.0 else base)
      && t'.cash[|t.cash|].cashOut == (if isReturn then base else 0.0)
      && (NoneLaterThan(t.cash, req.date) ==>
            CashBalance(t'.cash) == CashBalance(t.cash) + (if isReturn then -base else base))
  {
    var sale := SaleDocument(t, req, isReturn);
    var t1 := t.(sales := t.sales + [sale]);
    var m := SaleCash(t.currencies, req, sale.id, isReturn);
    var base := req.cashReceived * BookingRate(t.currencies, req.currencyId);
    assert m.cashIn == (if isReturn then 0.0 else base) && m.cashOut == (if isReturn then base else 0.0);
    assert BookSale(t, req, isReturn).cash == t.cash + [NewCashEntry(t.cash, m)];
    CashBalanceAfterRecord(t1, m);
  }

  /**
   * The customer entry of an accepted sale with credit: a sale raises the customer's balance by
   * the credit (a negative credit, for cash beyond the total, lowers it); a return lowers it by
   * the magnitude of the credit, so a refund beyond the returned total lowers it too. Other
   * customers' balances do not move.
   */
  lemma SaleCustomerEntry(t: Tables, req: SaleRequest, isReturn: bool, other: int)
    requires WellFormed(t) && req.customerId.Some?
    requires TotalOf(req.items) - req.cashReceived != 0.0
    ensures var t' := BookSale(t, req, isReturn);
      var c := req.customerId.value;
      var credit := TotalOf(req.items) - req.cashReceived;
      && t'.customerTx[|t.customerTx|].party == c
      && t'.customerTx[|t.customerTx|].documentId == (if isReturn then None else Some(|t.sales| + 1))
      && t'.customerTx[|t.customerTx|].paymentId == (if isReturn then Some(|t.sales| + 1) else None)
      && (NoneLaterFor(t.customerTx, c, req.date) ==>
            PartyBalance(t'.customerTx, t.customers, c)
              == PartyBalance(t.customerTx, t.customers, c) + (if isReturn then -Abs(credit) else credit))
      && (other != c ==> PartyBalance(t'.customerTx, t.customers, other) == PartyBalance(t.customerTx, t.customers, other))
  {
    var c := req.customerId.value;
    var sale := SaleDocument(t, req, isReturn);
    PartyBalanceAfterRecord(t.customerTx, t.customers, SaleCredit(c, req, sale.id, isReturn), other);
  }

  /** ValidateForeignKeysAsync, with its loop over the lines. */
  method ValidateForeignKeys(b: Books, req: SaleRequest) returns (e: Option<HandlerError>)
    ensures e == ValidateSale(b.State(), req)
  {
    if req.currencyId <= 0 {
      return Some(CurrencyIdNotPositive);
    }
    if CurrencyWithId(b.currencies, req.currencyId).None? {
      return Some(CurrencyNotFound(req.currencyId));
    }
    if req.items == [] {
      return Some(NoItems);
    }
    var i := 0;
    while i < |req.items|
      invariant 0 <= i <= |req.items|
      invariant FirstLineError(b.items, req.items) == FirstLineError(b.items, req.items[i..])
    {
      assert req.items[i..][1..] == req.items[i + 1..];
      var lineError := LineError(b.items, req.items[i]);
      if lineError.Some? {
        return lineError;
      }
      i := i + 1;
    }
    if req.customerId.Some? && req.customerId.value > 0 && !HasParty(b.customers, req.customerId.value) {
      return Some(CustomerNotFound(req.customerId.value));
    }
    e := None;
  }

  /** The writes of Handle once the request is accepted. */
  method BookSaleView(b: Books, req: SaleRequest, isReturn: bool) returns (sale: SaleRow)
    requires b.Valid()
    modifies b
    ensures b.Valid()
    ensures b.State() == BookSale(old(b.State()), req, isReturn)
    ensures sale == SaleDocument(old(b.State()), req, isReturn)
  {
    var total := TotalOf(req.items);
    var credit := total - req.cashReceived;
    var lines := BuildLines(req.items, isReturn);
    sale := SaleRow(|b.sales| + 1, req.customerId, req.date, Signed(isReturn, total), Signed(isReturn, req.cashReceived),
                    Signed(isReturn, credit), req.currencyId, isReturn, lines);
    ghost var t := b.State();
    assert sale == SaleDocument(t, req, isReturn);
    b.sales := b.sales + [sale];
    ghost var t1 := b.State();
    assert t1 == t.(sales := t.sales + [sale]);
    if req.cashReceived > 0.0 {
      RecordCashTransaction(b, SaleCash(b.currencies, req, sale.id, isReturn));
    }
    ghost var t2 := b.State();
    assert t2 == if req.cashReceived > 0.0 then RecordCash(t1, SaleCash(t.currencies, req, sale.id, isReturn)) else t1;
    if req.customerId.Some? && credit != 0.0 {
      RecordCustomerTransaction(b, SaleCredit(req.customerId.value, req, sale.id, isReturn));
    }
  }

  /** CreateSaleHandler.Handle. */
  method CreateSaleView(b: Books, req: SaleRequest, isReturn: bool) returns (r: Result<SaleRow, HandlerError>)
    requires b.Valid()
    modifies b
    ensures b.Valid()
    ensures (b.State(), r) == CreateSale(old(b.State()), req, isReturn)
  {
    var invalid := ValidateForeignKeys(b, req);
    if invalid.Some? {
      return Failure(invalid.value);
    }
    if req.customerId.Some? && !HasParty(b.customers, req.customerId.value) {
      return Failure(CustomerNotFound(req.customerId.value));
    }
    var sale := BookSaleView(b, req, isReturn);
    r := Success(sale);
  }
}
