/**
 * Creating a purchase or a purchase return: the supplier must exist; the document is stored
 * with its lines, then the cash paid (or received back) and the supplier's credit are booked,
 * all in one unit of work that is rolled back when any step throws.
 */
module PurchaseHandler {
  import opened Common
  import opened Books
  import opened Financial
  import opened HandlerLines

  datatype PurchaseRequest = PurchaseRequest(supplierId: int, date: int, cashPaid: real, currencyId: int, items: seq<LineRequest>)

  /** The stored purchase: amounts negated on a return, credit being what the cash leaves of the total. */
  function PurchaseDocument(t: Tables, req: PurchaseRequest, isReturn: bool): PurchaseRow
  {
    var total := TotalOf(req.items);
    var credit := total - req.cashPaid;
    PurchaseRow(|t.purchases| + 1, req.supplierId, req.date, Signed(isReturn, total), Signed(isReturn, req.cashPaid),
                Signed(isReturn, credit), req.currencyId, isReturn, StoredLines(req.items, isReturn))
  }

  /** The cash entry of a purchase (cash out) or a return (cash in), at the currency's current rate. */
  function PurchaseCash(cs: seq<Currency>, req: PurchaseRequest, id: nat, isReturn: bool): CashMove
  {
    var rate := BookingRate(cs, req.currencyId);
    var base := req.cashPaid * rate;
    CashMove(req.date, if isReturn then PurchaseReturnModule else PurchaseModule, Some(id), req.currencyId, req.cashPaid, rate,
             if isReturn then base else 0.0, if isReturn then 0.0 else base)
  }

  /** The supplier entry: a purchase's credit raises the balance, a return's records its magnitude as a payment. */
  function PurchaseCredit(req: PurchaseRequest, id: nat, isReturn: bool): PartyMove
  {
    var credit := TotalOf(req.items) - req.cashPaid;
    if isReturn then PartyMove(req.supplierId, req.date, None, Some(id), 0.0, Abs(credit))
    else PartyMove(req.supplierId, req.date, Some(id), None, credit, 0.0)
  }

  /** The writes of an accepted request: the purchase, then its cash entry, then its supplier entry. */
  function BookPurchase(t: Tables, req: PurchaseRequest, isReturn: bool): Tables
  {
    var purchase := PurchaseDocument(t, req, isReturn);
    var t1 := t.(purchases := t.purchases + [purchase]);
    var t2 := if req.cashPaid > 0.0 then RecordCash(t1, PurchaseCash(t.currencies, req, purchase.id, isReturn)) else t1;
    var credit := TotalOf(req.items) - req.cashPaid;
    if credit != 0.0 then RecordSupplier(t2, PurchaseCredit(req, purchase.id, isReturn)) else t2
  }

  /** CreatePurchaseHandler.Handle: the new tables and the stored purchase, or the tables unchanged and the error. */
  function CreatePurchase(t: Tables, req: PurchaseRequest, isReturn: bool): (r: (Tables, Result<PurchaseRow, HandlerError>))
    ensures r.1.Failure? ==> r.0 == t
    ensures r.1.Success? ==> r.1.value.id == |t.purchases| + 1 && r.0.purchases == t.purchases + [r.1.value]
  {
    if !HasParty(t.suppliers, req.supplierId) then (t, Failure(SupplierNotFound(req.supplierId)))
    else (BookPurchase(t, req, isReturn), Success(PurchaseDocument(t, req, isReturn)))
  }

  /**
   * The purchase is created exactly when the supplier exists, whatever its lines, its currency
   * and its amounts; otherwise nothing is written.
   */
  lemma PurchaseOutcome(t: Tables, req: PurchaseRequest, isReturn: bool)
    ensures CreatePurchase(t, req, isReturn).1.Success? <==> exists i :: 0 <= i < |t.suppliers| && t.suppliers[i].id == req.supplierId
    ensures CreatePurchase(t, req, isReturn).1.Failure? ==>
      CreatePurchase(t, req, isReturn).0 == t && CreatePurchase(t, req, isReturn).1.error == SupplierNotFound(req.supplierId)
    ensures CreatePurchase(t, req, isReturn).1.Success? ==>
      CreatePurchase(t, req, isReturn).0 == BookPurchase(t, req, isReturn)
      && CreatePurchase(t, req, isReturn).1.value == PurchaseDocument(t, req, isReturn)
  {
    if !HasParty(t.suppliers, req.supplierId) {
      assert forall i :: 0 <= i < |t.suppliers| ==> PartyId(t.suppliers[i]) != req.supplierId;
    }
  }

  /**
   * The stored document: total, cash and credit negated on a return, cash plus credit equal to
   * the total, and lines whose totals add up to the document total, with negated quantities on
   * a return and costs as given.
   */
  lemma PurchaseDocumentSigns(t: Tables, req: PurchaseRequest, isReturn: bool)
    ensures var p := PurchaseDocument(t, req, isReturn);
      && p.id == |t.purchases| + 1
      && p.totalAmount == (if isReturn then -TotalOf(req.items) else TotalOf(req.items))
      && p.cashPaid == (if isReturn then -req.cashPaid else req.cashPaid)
      && p.totalAmount == p.cashPaid + p.creditAmount
      && RowsTotal(p.items) == p.totalAmount
      && |p.items| == |req.items|
      && (forall i :: 0 <= i < |req.items| ==>
            p.items[i].itemId == req.items[i].itemId && p.items[i].price == req.items[i].price
            && p.items[i].qty == (if isReturn then -req.items[i].qty else req.items[i].qty))
  {
    StoredLinesTotal(req.items, isReturn);
  }

  /**
   * What an accepted purchase writes: the purchase, a cash entry exactly when cash was paid, a
   * supplier entry exactly when some credit remains, and nothing else; every appended row takes
   * the next identity.
   */
  lemma PurchaseBooks(t: Tables, req: PurchaseRequest, isReturn: bool)
    requires WellFormed(t)
    ensures var t' := BookPurchase(t, req, isReturn);
      var credit := TotalOf(req.items) - req.cashPaid;
      && WellFormed(t')
      && t' == t.(purchases := t'.purchases, cash := t'.cash, supplierTx := t'.supplierTx)
      && t'.purchases == t.purchases + [PurchaseDocument(t, req, isReturn)]
      && |t'.cash| == |t.cash| + (if req.cashPaid > 0.0 then 1 else 0) && t'.cash[..|t.cash|] == t.cash
      && |t'.supplierTx| == |t.supplierTx| + (if credit != 0.0 then 1 else 0)
      && t'.supplierTx[..|t.supplierTx|] == t.supplierTx
  {
    var t1 := t.(purchases := t.purchases + [PurchaseDocument(t, req, isReturn)]);
    assert IdsArePositions(t1.purchases, PurchaseId);
    assert WellFormed(t1);
  }

  /**
   * The cash entry of an accepted purchase: cash out of the cash paid at the booking rate for a
   * purchase, cash in for a return; dated no earlier than the book, it moves the cash balance by
   * that much.
   */
  lemma PurchaseCashEntry(t: Tables, req: PurchaseRequest, isReturn: bool)
    requires WellFormed(t) && req.cashPaid > 0.0
    ensures var t' := BookPurchase(t, req, isReturn);
      var base := req.cashPaid * BookingRate(t.currencies, req.currencyId);
      && t'.cash[|t.cash|].moduleId == Some(|t.purchases| + 1)
      && t'.cash[|t.cash|].originalAmount == req.cashPaid
      && t'.cash[|t.cash|].cashIn == (if isReturn then base else 0.0)
      && t'.cash[|t.cash|].cashOut == (if isReturn then 0.0 else base)
      && (NoneLaterThan(t.cash, req.date) ==>
            CashBalance(t'.cash) == CashBalance(t.cash) + (if isReturn then base else -base))
  {
    var purchase := PurchaseDocument(t, req, isReturn);
    var t1 := t.(purchases := t.purchases + [purchase]);
    var m := PurchaseCash(t.currencies, req, purchase.id, isReturn);
    var base := req.cashPaid * BookingRate(t.currencies, req.currencyId);
    assert m.cashIn == (if isReturn then base else 0.0) && m.cashOut == (if isReturn then 0.0 else base);
    assert BookPurchase(t, req, isReturn).cash == t.cash + [NewCashEntry(t.cash, m)];
    CashBalanceAfterRecord(t1, m);
  }

  /**
   * The supplier entry of an accepted purchase with credit: a purchase raises the supplier's
   * balance by the credit; a return lowers it by the magnitude of the credit. Other suppliers'
   * balances do not move.
   */
  lemma PurchaseSupplierEntry(t: Tables, req: PurchaseRequest, isReturn: bool, other: int)
    requires WellFormed(t)
    requires TotalOf(req.items) - req.cashPaid != 0.0
    ensures var t' := BookPurchase(t, req, isReturn);
      var s := req.supplierId;
      var credit := TotalOf(req.items) - req.cashPaid;
      && t'.supplierTx[|t.supplierTx|].party == s
      && t'.supplierTx[|t.supplierTx|].documentId == (if isReturn then None else Some(|t.purchases| + 1))
      && t'.supplierTx[|t.supplierTx|].paymentId == (if isReturn then Some(|t.purchases| + 1) else None)
      && (NoneLaterFor(t.supplierTx, s, req.date) ==>
            PartyBalance(t'.supplierTx, t.suppliers, s)
              == PartyBalance(t.supplierTx, t.suppliers, s) + (if isReturn then -Abs(credit) else credit))
      && (other != s ==> PartyBalance(t'.supplierTx, t.suppliers, other) == PartyBalance(t.supplierTx, t.suppliers, other))
  {
    var purchase := PurchaseDocument(t, req, isReturn);
    PartyBalanceAfterRecord(t.supplierTx, t.suppliers, PurchaseCredit(req, purchase.id, isReturn), other);
  }

  /** The writes of Handle once the supplier is found. */
  method BookPurchaseView(b: Books, req: PurchaseRequest, isReturn: bool) returns (purchase: PurchaseRow)
    requires b.Valid()
    modifies b
    ensures b.Valid()
    ensures b.State() == BookPurchase(old(b.State()), req, isReturn)
    ensures purchase == PurchaseDocument(old(b.State()), req, isReturn)
  {
    var total := TotalOf(req.items);
    var credit := total - req.cashPaid;
    var lines := BuildLines(req.items, isReturn);
    purchase := PurchaseRow(|b.purchases| + 1, req.supplierId, req.date, Signed(isReturn, total), Signed(isReturn, req.cashPaid),
                            Signed(isReturn, credit), req.currencyId, isReturn, lines);
    ghost var t := b.State();
    assert purchase == PurchaseDocument(t, req, isReturn);
    b.purchases := b.purchases + [purchase];
    ghost var t1 := b.State();
    assert t1 == t.(purchases := t.purchases + [purchase]);
    if req.cashPaid > 0.0 {
      RecordCashTransaction(b, PurchaseCash(b.currencies, req, purchase.id, isReturn));
    }
    ghost var t2 := b.State();
    assert t2 == if req.cashPaid > 0.0 then RecordCash(t1, PurchaseCash(t.currencies, req, purchase.id, isReturn)) else t1;
    if credit != 0.0 {
      RecordSupplierTransaction(b, PurchaseCredit(req, purchase.id, isReturn));
    }
  }

  /** CreatePurchaseHandler.Handle. */
  method CreatePurchaseView(b: Books, req: PurchaseRequest, isReturn: bool) returns (r: Result<PurchaseRow, HandlerError>)
    requires b.Valid()
    modifies b
    ensures b.Valid()
    ensures (b.State(), r) == CreatePurchase(old(b.State()), req, isReturn)
  {
    if !HasParty(b.suppliers, req.supplierId) {
      return Failure(SupplierNotFound(req.supplierId));
    }
    var purchase := BookPurchaseView(b, req, isReturn);
    r := Success(purchase);
  }
}
