/**
 * The adjustment views of the sales and purchases modules: correcting the total of an existing
 * sale or purchase, and of an existing sale or purchase return. Each appends one journal entry
 * carrying the signed change and overwrites the document's totals in place.
 */
module Adjustments {
  import opened Common
  import opened Rates
  import opened LedgerTypes
  import opened LedgerStore
  import opened BulkViews

  /**
   * An adjustment request: the document, an optional currency (the document's own when absent)
   * and the new amount. For a return adjustment the amount is the new returned amount, positive.
   */
  datatype AdjustRequest = AdjustRequest(docId: nat, currency: Option<string>, amount: real)

  function AdjustmentKind(side: Side): Kind
  {
    if side == Selling then SaleAdjustment else PurchaseAdjustment
  }

  function MissingDocument(side: Side): string
  {
    if side == Selling then "Sale not found" else "Purchase not found"
  }

  function MissingReturn(side: Side): string
  {
    if side == Selling then "Sale return not found" else "Purchase return not found"
  }

  /** Row `i` of the side's table exists and its journal entry is a return of that side. */
  predicate ReturnAt(l: Ledger, side: Side, i: nat)
  {
    && i < |DocsOf(l, side)|
    && DocsOf(l, side)[i].tx < |l.journal|
    && l.journal[DocsOf(l, side)[i].tx].kind == ReturnKind(side)
  }

  /** The journal entry recording a change of `deltaEntered` (`deltaBase` in the base currency) for `party`. */
  function AdjustmentEntry(side: Side, party: nat, currency: string, deltaEntered: real, rate: real, deltaBase: real, stamp: nat): Entry
  {
    Entry(AdjustmentKind(side), PartyOf(side), Some(party), deltaEntered, currency, rate, deltaBase, stamp)
  }

  /** The ledger with one document's two totals overwritten and every other column and row as it was. */
  function Retotal(l: Ledger, side: Side, i: nat, entered: real, base: real): Ledger
    requires i < |DocsOf(l, side)|
  {
    var docs := DocsOf(l, side);
    WithDocs(l, side, docs[i := docs[i].(totalEntered := entered, totalBase := base)], ItemsOf(l, side))
  }

  /** An accepted adjustment: its entry appended, then the document's totals overwritten. */
  function Revise(l: Ledger, side: Side, i: nat, entry: Entry, entered: real, base: real): Ledger
    requires i < |DocsOf(l, side)|
  {
    Retotal(l.(journal := l.journal + [entry], clock := l.clock + 1), side, i, entered, base)
  }

  /**
   * The outcome of adjusting a sale (Selling) or a purchase (Buying): an unknown document is a
   * 404; the new total is converted at the latest rate of the request's (or the document's)
   * currency; an unchanged entered total is a 400, whatever the rate did; otherwise the signed
   * changes of the entered and the base totals are journalled and the totals overwritten (200).
   */
  function AdjustDocument(dir: Directory, l: Ledger, side: Side, req: AdjustRequest): (Ledger, Response)
  {
    if req.docId >= |DocsOf(l, side)| then (l, NotFound(MissingDocument(side)))
    else
      var doc := DocsOf(l, side)[req.docId];
      var currency := req.currency.GetOr(doc.currency);
      var conv := Convert(dir.rates, req.amount, currency, Base);
      var deltaEntered := req.amount - doc.totalEntered;
      if deltaEntered == 0.0 then (l, BadRequest("No adjustment needed"))
      else
        var entry := AdjustmentEntry(side, doc.party, currency, deltaEntered, conv.1, conv.0 - doc.totalBase, l.clock);
        (Revise(l, side, req.docId, entry, req.amount, conv.0), Ok(Adjusted(|l.journal|, deltaEntered, req.amount)))
  }

  /**
   * The outcome of adjusting a sale or purchase return: only a document whose entry is a return
   * of that side qualifies (404 otherwise); the positive new amount is converted and stored
   * negated; an unchanged entered total is a 400; otherwise the signed change is journalled under
   * the side's ordinary adjustment kind and the totals overwritten (200).
   */
  function AdjustReturn(dir: Directory, l: Ledger, side: Side, req: AdjustRequest): (Ledger, Response)
  {
    if !ReturnAt(l, side, req.docId) then (l, NotFound(MissingReturn(side)))
    else
      var doc := DocsOf(l, side)[req.docId];
      var currency := req.currency.GetOr(doc.currency);
      var conv := Convert(dir.rates, req.amount, currency, Base);
      var deltaEntered := -req.amount - doc.totalEntered;
      if deltaEntered == 0.0 then (l, BadRequest("No adjustment needed"))
      else
        var entry := AdjustmentEntry(side, doc.party, currency, deltaEntered, conv.1, -conv.0 - doc.totalBase, l.clock);
        (Revise(l, side, req.docId, entry, -req.amount, -conv.0),
         Ok(ReturnAdjusted(|l.journal|, deltaEntered, req.amount, deltaEntered < 0.0)))
  }

  /**
   * What an accepted adjustment may change: one journal entry appended, and of document `i` only
   * its two totals; every other row of every table, and the lines, untouched.
   */
  ghost predicate RevisedShape(l: Ledger, l': Ledger, side: Side, i: nat)
  {
    && i < |DocsOf(l, side)|
    && |l'.journal| == |l.journal| + 1 && l'.journal[..|l.journal|] == l.journal && l'.clock == l.clock + 1
    && l'.payments == l.payments && l'.loans == l.loans && l'.expenses == l.expenses
    && ItemsOf(l', side) == ItemsOf(l, side)
    && (side == Selling ==> l'.purchases == l.purchases && l'.purchaseItems == l.purchaseItems)
    && (side == Buying ==> l'.sales == l.sales && l'.saleItems == l.saleItems)
    && |DocsOf(l', side)| == |DocsOf(l, side)|
    && (forall j :: 0 <= j < |DocsOf(l, side)| && j != i ==> DocsOf(l', side)[j] == DocsOf(l, side)[j])
    && DocsOf(l', side)[i] ==
         DocsOf(l, side)[i].(totalEntered := DocsOf(l', side)[i].totalEntered, totalBase := DocsOf(l', side)[i].totalBase)
  }

  lemma ReviseShape(l: Ledger, side: Side, i: nat, entry: Entry, entered: real, base: real)
    requires i < |DocsOf(l, side)|
    ensures var l' := Revise(l, side, i, entry, entered, base);
      && RevisedShape(l, l', side, i)
      && l'.journal[|l.journal|] == entry
      && DocsOf(l', side)[i].totalEntered == entered && DocsOf(l', side)[i].totalBase == base
  {
    assert (l.journal + [entry])[..|l.journal|] == l.journal;
  }

  /** An adjustment keeps the ledger linked: it touches no link column. */
  lemma ReviseKeepsLinks(l: Ledger, side: Side, i: nat, entry: Entry, entered: real, base: real)
    requires Linked(l) && i < |DocsOf(l, side)|
    ensures Linked(Revise(l, side, i, entry, entered, base))
  {
    var l' := Revise(l, side, i, entry, entered, base);
    assert forall j :: 0 <= j < |DocsOf(l, side)| ==>
      DocsOf(l', side)[j].tx == DocsOf(l, side)[j].tx && DocsOf(l', side)[j].createdAt == DocsOf(l, side)[j].createdAt;
  }

  /**
   * Which answer an adjustment gets: 404 exactly for an unknown document, 400 exactly when the
   * entered total would not change (the currency is not checked and the rate does not matter),
   * nothing written unless it is accepted, and an accepted one changes only the document's totals.
   */
  lemma AdjustDocumentOutcome(dir: Directory, l: Ledger, side: Side, req: AdjustRequest)
    ensures var (l', resp) := AdjustDocument(dir, l, side, req);
      && (resp.NotFound? <==> req.docId >= |DocsOf(l, side)|)
      && (resp.BadRequest? <==> req.docId < |DocsOf(l, side)| && req.amount == DocsOf(l, side)[req.docId].totalEntered)
      && (resp.Ok? <==> req.docId < |DocsOf(l, side)| && req.amount != DocsOf(l, side)[req.docId].totalEntered)
      && (Rejected(resp) ==> l' == l)
      && (resp.Ok? ==> RevisedShape(l, l', side, req.docId))
  {
    if req.docId < |DocsOf(l, side)| {
      var doc := DocsOf(l, side)[req.docId];
      var currency := req.currency.GetOr(doc.currency);
      var conv := Convert(dir.rates, req.amount, currency, Base);
      var entry := AdjustmentEntry(side, doc.party, currency, req.amount - doc.totalEntered, conv.1, conv.0 - doc.totalBase, l.clock);
      ReviseShape(l, side, req.docId, entry, req.amount, conv.0);
    }
  }

  /**
   * An accepted adjustment journals the signed changes: old total plus change is the new total,
   * in the entered and in the base currency; the entry is the side's adjustment kind, for the
   * document's party, at the latest rate of the currency used, and the new base total is the new
   * entered total converted at that rate. The document keeps its status, rate and currency.
   */
  lemma AdjustmentIsDelta(dir: Directory, l: Ledger, side: Side, req: AdjustRequest)
    requires AdjustDocument(dir, l, side, req).1.Ok?
    ensures req.docId < |DocsOf(l, side)|
    ensures var l' := AdjustDocument(dir, l, side, req).0;
      var old_ := DocsOf(l, side)[req.docId];
      var new_ := DocsOf(l', side)[req.docId];
      var entry := l'.journal[|l.journal|];
      var currency := req.currency.GetOr(old_.currency);
      && entry.kind == AdjustmentKind(side) && entry.partyType == PartyOf(side) && entry.partyId == Some(old_.party)
      && entry.enteredCurrency == currency && entry.rateToBase == LatestRate(dir.rates, currency, Base)
      && entry.enteredAmount != 0.0
      && old_.totalEntered + entry.enteredAmount == new_.totalEntered == req.amount
      && old_.totalBase + entry.amountBase == new_.totalBase
      && new_.totalBase == Convert(dir.rates, req.amount, currency, Base).0
      && new_.status == old_.status && new_.rateToBase == old_.rateToBase && new_.currency == old_.currency
  {
    var doc := DocsOf(l, side)[req.docId];
    var currency := req.currency.GetOr(doc.currency);
    var conv := Convert(dir.rates, req.amount, currency, Base);
    var entry := AdjustmentEntry(side, doc.party, currency, req.amount - doc.totalEntered, conv.1, conv.0 - doc.totalBase, l.clock);
    ReviseShape(l, side, req.docId, entry, req.amount, conv.0);
  }

  /** Which answer a return adjustment gets, and what an accepted one may change. */
  lemma AdjustReturnOutcome(dir: Directory, l: Ledger, side: Side, req: AdjustRequest)
    ensures var (l', resp) := AdjustReturn(dir, l, side, req);
      && (resp.NotFound? <==> !ReturnAt(l, side, req.docId))
      && (resp.BadRequest? <==> ReturnAt(l, side, req.docId) && -req.amount == DocsOf(l, side)[req.docId].totalEntered)
      && (resp.Ok? <==> ReturnAt(l, side, req.docId) && -req.amount != DocsOf(l, side)[req.docId].totalEntered)
      && (Rejected(resp) ==> l' == l)
      && (resp.Ok? ==> RevisedShape(l, l', side, req.docId))
  {
    if ReturnAt(l, side, req.docId) {
      var doc := DocsOf(l, side)[req.docId];
      var currency := req.currency.GetOr(doc.currency);
      var conv := Convert(dir.rates, req.amount, currency, Base);
      var entry := AdjustmentEntry(side, doc.party, currency, -req.amount - doc.totalEntered, conv.1, -conv.0 - doc.totalBase, l.clock);
      ReviseShape(l, side, req.docId, entry, -req.amount, -conv.0);
    }
  }

  /**
   * An accepted return adjustment stores the new amount and its conversion negated, journals the signed change under the side's ordinary adjustment kind, and reports
   * the return as grown exactly when the change is negative, that is when the new amount exceeds
   * the old stored one's magnitude.
   */
  lemma ReturnAdjustmentIsNegated(dir: Directory, l: Ledger, side: Side, req: AdjustRequest)
    requires AdjustReturn(dir, l, side, req).1.Ok?
    ensures ReturnAt(l, side, req.docId)
    ensures var (l', resp) := AdjustReturn(dir, l, side, req);
      var old_ := DocsOf(l, side)[req.docId];
      var new_ := DocsOf(l', side)[req.docId];
      var entry := l'.journal[|l.journal|];
      var currency := req.currency.GetOr(old_.currency);
      && entry.kind == AdjustmentKind(side) && entry.partyType == PartyOf(side) && entry.partyId == Some(old_.party)
      && entry.rateToBase == LatestRate(dir.rates, currency, Base)
      && new_.totalEntered == -req.amount && new_.totalBase == -Convert(dir.rates, req.amount, currency, Base).0
      && old_.totalEntered + entry.enteredAmount == new_.totalEntered
      && old_.totalBase + entry.amountBase == new_.totalBase
      && resp.body.newReturnAmount == req.amount && resp.body.adjustment == entry.enteredAmount
      && (resp.body.returnIncreased <==> req.amount > -old_.totalEntered)
  {
    var doc := DocsOf(l, side)[req.docId];
    var currency := req.currency.GetOr(doc.currency);
    var conv := Convert(dir.rates, req.amount, currency, Base);
    var entry := AdjustmentEntry(side, doc.party, currency, -req.amount - doc.totalEntered, conv.1, -conv.0 - doc.totalBase, l.clock);
    ReviseShape(l, side, req.docId, entry, -req.amount, -conv.0);
  }

  /** The accepted outcome of an adjustment, spelled out for the view. */
  lemma AdjustDocumentAccepted(dir: Directory, l: Ledger, side: Side, req: AdjustRequest)
    ensures req.docId < |DocsOf(l, side)| && req.amount != DocsOf(l, side)[req.docId].totalEntered ==>
      var doc := DocsOf(l, side)[req.docId];
      var currency := req.currency.GetOr(doc.currency);
      var conv := Convert(dir.rates, req.amount, currency, Base);
      var delta := req.amount - doc.totalEntered;
      AdjustDocument(dir, l, side, req) ==
        (Revise(l, side, req.docId, AdjustmentEntry(side, doc.party, currency, delta, conv.1, conv.0 - doc.totalBase, l.clock),
                req.amount, conv.0),
         Ok(Adjusted(|l.journal|, delta, req.amount)))
  {
  }

  /** The accepted outcome of a return adjustment, spelled out for the view. */
  lemma AdjustReturnAccepted(dir: Directory, l: Ledger, side: Side, req: AdjustRequest)
    ensures ReturnAt(l, side, req.docId) && -req.amount != DocsOf(l, side)[req.docId].totalEntered ==>
      var doc := DocsOf(l, side)[req.docId];
      var currency := req.currency.GetOr(doc.currency);
      var conv := Convert(dir.rates, req.amount, currency, Base);
      var delta := -req.amount - doc.totalEntered;
      AdjustReturn(dir, l, side, req) ==
        (Revise(l, side, req.docId, AdjustmentEntry(side, doc.party, currency, delta, conv.1, -conv.0 - doc.totalBase, l.clock),
                -req.amount, -conv.0),
         Ok(ReturnAdjusted(|l.journal|, delta, req.amount, delta < 0.0)))
  {
  }

  /** Appends one journal entry, stamped with the request's clock. */
  method AppendEntry(s: Store, entry: Entry)
    modifies s
    ensures s.State() == old(s.State()).(journal := old(s.State()).journal + [entry], clock := old(s.State()).clock + 1)
  {
    s.journal := s.journal + [entry];
    s.clock := s.clock + 1;
  }

  /** Overwrites the two totals of document `i` in place and saves it. */
  method OverwriteTotals(s: Store, side: Side, i: nat, entered: real, base: real)
    requires i < |DocsOf(s.State(), side)|
    modifies s
    ensures s.State() == Retotal(old(s.State()), side, i, entered, base)
  {
    if side == Selling {
      s.sales := s.sales[i := s.sales[i].(totalEntered := entered, totalBase := base)];
    } else {
      s.purchases := s.purchases[i := s.purchases[i].(totalEntered := entered, totalBase := base)];
    }
  }

  /** An accepted adjustment in place: the entry appended, then the document's totals overwritten. */
  method ApplyRevision(s: Store, side: Side, i: nat, entry: Entry, entered: real, base: real)
    requires s.Valid() && i < |DocsOf(s.State(), side)|
    modifies s
    ensures s.Valid()
    ensures s.State() == Revise(old(s.State()), side, i, entry, entered, base)
  {
    ReviseKeepsLinks(s.State(), side, i, entry, entered, base);
    AppendEntry(s, entry);
    OverwriteTotals(s, side, i, entered, base);
  }

  /** The adjust-sale (Selling) and adjust-purchase (Buying) view. */
  method AdjustDocumentView(s: Store, side: Side, req: AdjustRequest) returns (resp: Response)
    requires s.Valid()
    modifies s
    ensures s.Valid()
    ensures (s.State(), resp) == AdjustDocument(s.dir, old(s.State()), side, req)
  {
    AdjustDocumentAccepted(s.dir, s.State(), side, req);
    if req.docId >= |DocsOf(s.State(), side)| {
      return NotFound(MissingDocument(side));
    }
    var doc := DocsOf(s.State(), side)[req.docId];
    var currency := req.currency.GetOr(doc.currency);
    var conv := Convert(s.dir.rates, req.amount, currency, Base);
    var deltaEntered := req.amount - doc.totalEntered;
    var deltaBase := conv.0 - doc.totalBase;
    if deltaEntered == 0.0 {
      return BadRequest("No adjustment needed");
    }
    var txId := |s.journal|;
    var entry := AdjustmentEntry(side, doc.party, currency, deltaEntered, conv.1, deltaBase, s.clock);
    ApplyRevision(s, side, req.docId, entry, req.amount, conv.0);
    resp := Ok(Adjusted(txId, deltaEntered, req.amount));
  }

  /** The adjust-sale-return (Selling) and adjust-purchase-return (Buying) view. */
  method AdjustReturnView(s: Store, side: Side, req: AdjustRequest) returns (resp: Response)
    requires s.Valid()
    modifies s
    ensures s.Valid()
    ensures (s.State(), resp) == AdjustReturn(s.dir, old(s.State()), side, req)
  {
    ghost var l := s.State();
    AdjustReturnAccepted(s.dir, l, side, req);
    if !ReturnAt(s.State(), side, req.docId) {
      return NotFound(MissingReturn(side));
    }
    var doc := DocsOf(s.State(), side)[req.docId];
    var currency := req.currency.GetOr(doc.currency);
    var conv := Convert(s.dir.rates, req.amount, currency, Base);
    var newEntered := -req.amount;
    var newBase := -conv.0;
    var deltaEntered := newEntered - doc.totalEntered;
    var deltaBase := newBase - doc.totalBase;
    if deltaEntered == 0.0 {
      return BadRequest("No adjustment needed");
    }
    var increased := deltaEntered < 0.0;
    var txId := |s.journal|;
    var entry := AdjustmentEntry(side, doc.party, currency, deltaEntered, conv.1, deltaBase, s.clock);
    ApplyRevision(s, side, req.docId, entry, newEntered, newBase);
    resp := Ok(ReturnAdjusted(txId, deltaEntered, req.amount, increased));
    assert AdjustReturn(s.dir, l, side, req) == (Revise(l, side, req.docId, entry, newEntered, newBase), resp);
  }
}
