/**
 * Creating a sales return document: the customer must exist; the return is stored with positive
 * amounts and its lines as given, then the cash refunded and the credit refunded are booked,
 * all in one unit of work that is rolled back when any step throws.
 */
module SalesReturnHandler {
  import opened Common
  import opened Books
  import opened Financial
  import opened HandlerLines

  datatype ReturnRequest = ReturnRequest(customerId: int, date: int, cashRefund: real, currencyId: int, items: seq<LineRequest>)

  /** The stored return: the request total, the cash refund, and the rest as credit refund. */
  function ReturnDocument(t: Tables, req: ReturnRequest): SalesReturnRow
  {
    var total := TotalOf(req.items);
    SalesReturnRow(|t.salesReturns| + 1, req.customerId, req.date, total, req.cashRefund, total - req.cashRefund,
                   req.currencyId, StoredLines(req.items, false))
  }

  /** The cash-out of the refund at the currency's current rate. */
  function RefundCash(cs: seq<Currency>, req: ReturnRequest, id: nat): CashMove
  {
    var rate := BookingRate(cs, req.currencyId);
    CashMove(req.date, SaleReturnModule, Some(id), req.currencyId, req.cashRefund, rate, 0.0, req.cashRefund * rate)
  }

  /** The writes of an accepted return: the document, then the cash refund, then the credit refund. */
  function BookReturn(t: Tables, req: ReturnRequest): Tables
  {
    var doc := ReturnDocument(t, req);
    var t1 := t.(salesReturns := t.salesReturns + [doc]);
    var t2 := if req.cashRefund > 0.0 then RecordCash(t1, RefundCash(t.currencies, req, doc.id)) else t1;
    if doc.creditRefund > 0.0 then RecordCustomer(t2, PartyMove(req.customerId, req.date, None, None, 0.0, doc.creditRefund)) else t2
  }

  /** CreateSalesReturnHandler.Handle: the new tables and the stored return, or the tables unchanged and the error. */
  function CreateSalesReturn(t: Tables, req: ReturnRequest): (r: (Tables, Result<SalesReturnRow, HandlerError>))
    ensures r.1.Failure? ==> r.0 == t
    ensures r.1.Success? ==> r.1.value.id == |t.salesReturns| + 1 && r.0.salesReturns == t.salesReturns + [r.1.value]
  {
    if !HasParty(t.customers, req.customerId) then (t, Failure(CustomerNotFound(req.customerId)))
    else (BookReturn(t, req), Success(ReturnDocument(t, req)))
  }

  /** The return is created exactly when the customer exists; otherwise nothing is written. */
  lemma ReturnOutcome(t: Tables, req: ReturnRequest)
    ensures CreateSalesReturn(t, req).1.Success? <==> exists i :: 0 <= i < |t.customers| && t.customers[i].id == req.customerId
    ensures CreateSalesReturn(t, req).1.Failure? ==>
      CreateSalesReturn(t, req).0 == t && CreateSalesReturn(t, req).1.error == CustomerNotFound(req.customerId)
    ensures CreateSalesReturn(t, req).1.Success? ==>
      CreateSalesReturn(t, req).0 == BookReturn(t, req) && CreateSalesReturn(t, req).1.value == ReturnDocument(t, req)
  {
    if !HasParty(t.customers, req.customerId) {
      assert forall i :: 0 <= i < |t.customers| ==> PartyId(t.customers[i]) != req.customerId;
    }
  }

  /**
   * The stored return keeps the request's signs: its total is the request total, cash plus credit
   * refund make the total, and its lines are the request lines unchanged, adding up to the total.
   */
  lemma ReturnDocumentAmounts(t: Tables, req: ReturnRequest)
    ensures var doc := ReturnDocument(t, req);
      && doc.id == |t.salesReturns| + 1
      && doc.totalReturnAmount == TotalOf(req.items)
      && doc.cashRefund + doc.creditRefund == doc.totalReturnAmount
      && RowsTotal(doc.items) == doc.totalReturnAmount
      && |doc.items| == |req.items|
      && (forall i :: 0 <= i < |req.items| ==>
            doc.items[i] == LineRow(req.items[i].itemId, req.items[i].qty, req.items[i].price, req.items[i].total))
  {
    StoredLinesTotal(req.items, false);
  }

  /**
   * What an accepted return writes: the document, a cash entry exactly when cash was refunded, a
   * customer entry exactly when the credit refund is positive, and nothing else.
   */
  lemma ReturnBooks(t: Tables, req: ReturnRequest)
    requires WellFormed(t)
    ensures var t' := BookReturn(t, req);
      var creditRefund := TotalOf(req.items) - req.cashRefund;
      && WellFormed(t')
      && t' == t.(salesReturns := t'.salesReturns, cash := t'.cash, customerTx := t'.customerTx)
      && t'.salesReturns == t.salesReturns + [ReturnDocument(t, req)]
      && |t'.cash| == |t.cash| + (if req.cashRefund > 0.0 then 1 else 0) && t'.cash[..|t.cash|] == t.cash
      && |t'.customerTx| == |t.customerTx| + (if creditRefund > 0.0 then 1 else 0)
      && t'.customerTx[..|t.customerTx|] == t.customerTx
  {
  }

  /**
   * The cash refund: a cash out of the refund at the booking rate, which lowers the cash balance
   * by that much when dated no earlier than the book.
   */
  lemma ReturnCashRefund(t: Tables, req: ReturnRequest)
    requires WellFormed(t) && req.cashRefund > 0.0
    ensures var t' := BookReturn(t, req);
      var base := req.cashRefund * BookingRate(t.currencies, req.currencyId);
      && t'.cash[|t.cash|].moduleId == Some(|t.salesReturns| + 1)
      && t'.cash[|t.cash|].cashIn == 0.0 && t'.cash[|t.cash|].cashOut == base
      && (NoneLaterThan(t.cash, req.date) ==> CashBalance(t'.cash) == CashBalance(t.cash) - base)
  {
    var doc := ReturnDocument(t, req);
    var t1 := t.(salesReturns := t.salesReturns + [doc]);
    var m := RefundCash(t.currencies, req, doc.id);
    assert m.cashIn == 0.0 && m.cashOut == req.cashRefund * BookingRate(t.currencies, req.currencyId);
    assert BookReturn(t, req).cash == t.cash + [NewCashEntry(t.cash, m)];
    CashBalanceAfterRecord(t1, m);
  }

  /**
   * The credit refund: a payment of the credit refund, referring to no document and no payment,
   * which lowers the customer's balance by it when dated no earlier than the customer's entries.
   */
  lemma ReturnCreditRefund(t: Tables, req: ReturnRequest)
    requires WellFormed(t) && TotalOf(req.items) - req.cashRefund > 0.0
    ensures var t' := BookReturn(t, req);
      var creditRefund := TotalOf(req.items) - req.cashRefund;
      && t'.customerTx[|t.customerTx|].documentId == None && t'.customerTx[|t.customerTx|].paymentId == None
      && t'.customerTx[|t.customerTx|].paymentAmount == creditRefund
      && (NoneLaterFor(t.customerTx, req.customerId, req.date) ==>
            PartyBalance(t'.customerTx, t.customers, req.customerId)
              == PartyBalance(t.customerTx, t.customers, req.customerId) - creditRefund)
  {
    var doc := ReturnDocument(t, req);
    PartyBalanceAfterRecord(t.customerTx, t.customers, PartyMove(req.customerId, req.date, None, None, 0.0, doc.creditRefund), req.customerId);
  }

  /** The writes of Handle once the customer is found. */
  method BookReturnView(b: Books, req: ReturnRequest) returns (doc: SalesReturnRow)
    requires b.Valid()
    modifies b
    ensures b.Valid()
    ensures b.State() == BookReturn(old(b.State()), req)
    ensures doc == ReturnDocument(old(b.State()), req)
  {
    var total := TotalOf(req.items);
    var creditRefund := total - req.cashRefund;
    var lines := BuildLines(req.items, false);
    doc := SalesReturnRow(|b.salesReturns| + 1, req.customerId, req.date, total, req.cashRefund, creditRefund, req.currencyId, lines);
    ghost var t := b.State();
    assert doc == ReturnDocument(t, req);
    b.salesReturns := b.salesReturns + [doc];
    ghost var t1 := b.State();
    assert t1 == t.(salesReturns := t.salesReturns + [doc]);
    if req.cashRefund > 0.0 {
      RecordCashTransaction(b, RefundCash(b.currencies, req, doc.id));
    }
    ghost var t2 := b.State();
    assert t2 == if req.cashRefund > 0.0 then RecordCash(t1, RefundCash(t.currencies, req, doc.id)) else t1;
    if creditRefund > 0.0 {
      RecordCustomerTransaction(b, PartyMove(req.customerId, req.date, None, None, 0.0, creditRefund));
    }
  }

  /** CreateSalesReturnHandler.Handle. */
  method CreateSalesReturnView(b: Books, req: ReturnRequest) returns (r: Result<SalesReturnRow, HandlerError>)
    requires b.Valid()
    modifies b
    ensures b.Valid()
    ensures (b.State(), r) == CreateSalesReturn(old(b.State()), req)
  {
    if !HasParty(b.customers, req.customerId) {
      return Failure(CustomerNotFound(req.customerId));
    }
    var doc := BookReturnView(b, req);
    r := Success(doc);
  }
}
