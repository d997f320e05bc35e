/**
 * The combined create-or-update sale view: a request without a sale id records a new sale with
 * its lines; a request naming a sale adjusts that sale's total (and, when it carries lines,
 * replaces the sale's lines).
 */
module EnhancedSales {
  import opened Common
  import opened Rates
  import opened LedgerTypes
  import opened LedgerStore
  import opened ItemLines
  import opened BulkViews
  import opened Adjustments

  /**
   * A create-or-update request. `saleId` is `None` when the request names no sale (or a falsy
   * one); `currency` and `items` are optional fields of the request body.
   */
  datatype SaleInput = SaleInput(
    saleId: Option<nat>,
    customer: nat,
    currency: Option<string>,
    total: real,
    status: Option<DocStatus>,
    items: Option<seq<ItemInput>>)

  /** The messages of the lookups that fail inside the view, all answered with a 400. */
  const NoCustomer: string := "Customer matching query does not exist."
  const NoSale: string := "Sale matching query does not exist."
  const NoProduct: string := "Product matching query does not exist."

  /** Every requested line names a known product (the view checks nothing else about a line). */
  predicate ProductsKnown(products: set<nat>, items: seq<ItemInput>)
  {
    forall i :: 0 <= i < |items| ==> items[i].product in products
  }

  /** The stored lines with every line of sale `doc` removed and the others kept in order. */
  function LinesWithout(lines: seq<LineItem>, doc: nat): (r: seq<LineItem>)
    ensures |r| <= |lines|
    ensures forall x :: x in r <==> x in lines && x.doc != doc
    ensures forall x :: multiset(r)[x] == if x.doc != doc then multiset(lines)[x] else 0
  {
    var r := Filter(lines, (x: LineItem) => x.doc != doc);
    FilterCounts(lines, (x: LineItem) => x.doc != doc);
    assert forall x :: x in r <==> multiset(r)[x] > 0;
    assert forall x :: x in lines <==> multiset(lines)[x] > 0;
    r
  }

  /** Removing the lines of a sale from two runs of lines keeps the first run's lines first. */
  lemma LinesWithoutKeepsOrder(a: seq<LineItem>, b: seq<LineItem>, doc: nat)
    ensures LinesWithout(a + b, doc) == LinesWithout(a, doc) + LinesWithout(b, doc)
  {
    FilterKeepsOrder(a, b, (x: LineItem) => x.doc != doc);
  }

  /** The ledger with sale `doc`'s lines replaced by `lines`. */
  function ReplaceLines(l: Ledger, doc: nat, lines: seq<LineItem>): Ledger
  {
    l.(saleItems := LinesWithout(l.saleItems, doc) + lines)
  }

  /**
   * The outcome of the create branch: the customer is looked up, the currency and the lines must
   * be present, each line's product is looked up; any failure is a 400 and writes nothing. The
   * header's totals are the converted request total, not checked against the lines.
   */
  function CreateSale(dir: Directory, l: Ledger, req: SaleInput): (Ledger, Response)
  {
    if req.customer !in dir.customers then (l, BadRequest(NoCustomer))
    else if req.currency.None? then (l, BadRequest("'currency'"))
    else if req.items.None? then (l, BadRequest("'items'"))
    else if !ProductsKnown(dir.products, req.items.value) then (l, BadRequest(NoProduct))
    else
      var currency := req.currency.value;
      var conv := Convert(dir.rates, req.total, currency, Base);
      var entry := Entry(Sale, CustomerParty, Some(req.customer), req.total, currency, conv.1, conv.0, l.clock);
      var doc := Document(|l.journal|, req.customer, req.total, currency, conv.1, conv.0, req.status.GetOr(DefaultStatus), l.clock);
      var lines := Lines(|l.sales|, req.items.value, currency, conv.1, false);
      (AppendDocument(l, Selling, entry, doc, lines), Created(SaleRecorded(|l.sales|, |l.journal|, req.total)))
  }

  /**
   * The outcome of the update branch: an unknown sale is a 400; an unchanged entered total is a
   * 200 "no change" that writes nothing; otherwise the signed changes are journalled, the totals
   * overwritten and, when lines are given, the sale's lines replaced by them at the new rate.
   */
  function UpdateSale(dir: Directory, l: Ledger, req: SaleInput, id: nat): (Ledger, Response)
  {
    if id >= |l.sales| then (l, BadRequest(NoSale))
    else
      var doc := l.sales[id];
      var currency := req.currency.GetOr(doc.currency);
      var conv := Convert(dir.rates, req.total, currency, Base);
      var delta := req.total - doc.totalEntered;
      if delta == 0.0 then (l, Ok(NoChange))
      else if req.items.Some? && !ProductsKnown(dir.products, req.items.value) then (l, BadRequest(NoProduct))
      else
        var entry := AdjustmentEntry(Selling, doc.party, currency, delta, conv.1, conv.0 - doc.totalBase, l.clock);
        var l1 := Revise(l, Selling, id, entry, req.total, conv.0);
        var l2 := if req.items.Some? then ReplaceLines(l1, id, Lines(id, req.items.value, currency, conv.1, false)) else l1;
        (l2, Ok(SaleRevised(id, |l.journal|, delta, req.total)))
  }

  /** A request naming a sale updates it; any other request creates one. */
  function CreateOrUpdateSale(dir: Directory, l: Ledger, req: SaleInput): (Ledger, Response)
  {
    match req.saleId
    case None => CreateSale(dir, l, req)
    case Some(id) => UpdateSale(dir, l, req, id)
  }

  /**
   * Every failure of this view is a 400, never a 404; a rejection or a "no change" writes
   * nothing; a 201 comes only from the create branch and a 200 only from the update branch.
   */
  lemma CreateOrUpdateOutcome(dir: Directory, l: Ledger, req: SaleInput)
    ensures var (l', resp) := CreateOrUpdateSale(dir, l, req);
      && !resp.NotFound?
      && (resp.Created? <==> req.saleId.None? && req.customer in dir.customers && req.currency.Some? &&
                             req.items.Some? && ProductsKnown(dir.products, req.items.value))
      && (resp.Ok? ==> req.saleId.Some?)
      && (resp.Ok? && resp.body.NoChange? <==>
            req.saleId.Some? && req.saleId.value < |l.sales| && req.total == l.sales[req.saleId.value].totalEntered)
      && (Rejected(resp) || (resp.Ok? && resp.body.NoChange?) ==> l' == l)
  {
  }

  /**
   * A created sale's header and entry carry the converted request total (the lines are not
   * summed), the status defaults to unpaid, and each stored line copies its requested product,
   * quantity and price (unchecked) and prices it at the header's rate.
   */
  lemma CreatedSaleTakesRequestTotal(dir: Directory, l: Ledger, req: SaleInput)
    requires CreateSale(dir, l, req).1.Created?
    ensures req.currency.Some? && req.items.Some?
    ensures var l' := CreateSale(dir, l, req).0;
      var conv := Convert(dir.rates, req.total, req.currency.value, Base);
      var header := l'.sales[|l.sales|];
      var entry := l'.journal[|l.journal|];
      var items := req.items.value;
      && |l'.sales| == |l.sales| + 1 && |l'.journal| == |l.journal| + 1
      && |l'.saleItems| == |l.saleItems| + |items|
      && entry.kind == Sale && entry.partyId == Some(req.customer) && header.tx == |l.journal|
      && header.totalEntered == entry.enteredAmount == req.total
      && header.totalBase == entry.amountBase == conv.0
      && header.rateToBase == entry.rateToBase == conv.1
      && header.status == req.status.GetOr(Unpaid)
      && (forall i :: 0 <= i < |items| ==>
            var line := l'.saleItems[|l.saleItems| + i];
            && line.doc == |l.sales| && line.product == items[i].product && line.quantity == items[i].quantity
            && line.unitPriceEntered == items[i].unitPrice && line.unitPriceBase == items[i].unitPrice * conv.1)
  {
    var currency := req.currency.value;
    var conv := Convert(dir.rates, req.total, currency, Base);
    var entry := Entry(Sale, CustomerParty, Some(req.customer), req.total, currency, conv.1, conv.0, l.clock);
    var doc := Document(|l.journal|, req.customer, req.total, currency, conv.1, conv.0, req.status.GetOr(DefaultStatus), l.clock);
    var lines := Lines(|l.sales|, req.items.value, currency, conv.1, false);
    AppendedParts(l, Selling, entry, doc, lines);
  }

  /**
   * An accepted update journals the signed changes and overwrites the totals exactly as the
   * adjust-sale view does; without lines, the lines are untouched (UpdatedSaleLines says what
   * happens with lines).
   */
  lemma UpdatedSaleIsDelta(dir: Directory, l: Ledger, req: SaleInput, id: nat)
    requires UpdateSale(dir, l, req, id).1.Ok? && UpdateSale(dir, l, req, id).1.body.SaleRevised?
    ensures id < |l.sales|
    ensures var l' := UpdateSale(dir, l, req, id).0;
      var currency := req.currency.GetOr(l.sales[id].currency);
      var conv := Convert(dir.rates, req.total, currency, Base);
      var entry := l'.journal[|l.journal|];
      && |l'.journal| == |l.journal| + 1 && l'.journal[..|l.journal|] == l.journal
      && |l'.sales| == |l.sales|
      && (forall j :: 0 <= j < |l.sales| && j != id ==> l'.sales[j] == l.sales[j])
      && l'.sales[id] == l.sales[id].(totalEntered := req.total, totalBase := conv.0)
      && entry == AdjustmentEntry(Selling, l.sales[id].party, currency, req.total - l.sales[id].totalEntered,
                                  conv.1, conv.0 - l.sales[id].totalBase, l.clock)
      && l'.purchases == l.purchases && l'.payments == l.payments
      && (req.items.None? ==> l'.saleItems == l.saleItems)
  {
    var doc := l.sales[id];
    var currency := req.currency.GetOr(doc.currency);
    var conv := Convert(dir.rates, req.total, currency, Base);
    var entry := AdjustmentEntry(Selling, doc.party, currency, req.total - doc.totalEntered, conv.1, conv.0 - doc.totalBase, l.clock);
    ReviseShape(l, Selling, id, entry, req.total, conv.0);
  }

  /**
   * With lines, an accepted update removes every stored line of the sale, keeps every other line
   * in its order, and appends the new lines in request order, so the sale's lines become exactly
   * the new ones.
   */
  lemma UpdatedSaleLines(dir: Directory, l: Ledger, req: SaleInput, id: nat)
    requires UpdateSale(dir, l, req, id).1.Ok? && UpdateSale(dir, l, req, id).1.body.SaleRevised?
    requires req.items.Some?
    ensures id < |l.sales|
    ensures var l' := UpdateSale(dir, l, req, id).0;
      var currency := req.currency.GetOr(l.sales[id].currency);
      var newLines := Lines(id, req.items.value, currency, Convert(dir.rates, req.total, currency, Base).1, false);
      && l'.saleItems == LinesWithout(l.saleItems, id) + newLines
      && (forall x :: x in l'.saleItems && x.doc == id <==> x in newLines)
      && (forall x: LineItem :: x.doc != id ==> (x in l'.saleItems <==> x in l.saleItems))
  {
    var doc := l.sales[id];
    var currency := req.currency.GetOr(doc.currency);
    var conv := Convert(dir.rates, req.total, currency, Base);
    var entry := AdjustmentEntry(Selling, doc.party, currency, req.total - doc.totalEntered, conv.1, conv.0 - doc.totalBase, l.clock);
    var newLines := Lines(id, req.items.value, currency, conv.1, false);
    UpdatedSaleItems(dir, l, req, id, newLines);
    ReplacedLines(l.saleItems, id, newLines);
  }

  /** The update with lines leaves the other columns' work to Revise and splices the lines. */
  lemma UpdatedSaleItems(dir: Directory, l: Ledger, req: SaleInput, id: nat, newLines: seq<LineItem>)
    requires UpdateSale(dir, l, req, id).1.Ok? && UpdateSale(dir, l, req, id).1.body.SaleRevised?
    requires req.items.Some? && id < |l.sales|
    requires var currency := req.currency.GetOr(l.sales[id].currency);
      newLines == Lines(id, req.items.value, currency, Convert(dir.rates, req.total, currency, Base).1, false)
    ensures UpdateSale(dir, l, req, id).0.saleItems == LinesWithout(l.saleItems, id) + newLines
    ensures forall x :: x in newLines ==> x.doc == id
  {
  }

  /** Replacing the lines of sale `doc` leaves exactly the new lines under it and every other line as it was. */
  lemma ReplacedLines(items: seq<LineItem>, doc: nat, newLines: seq<LineItem>)
    requires forall x :: x in newLines ==> x.doc == doc
    ensures forall x :: x in LinesWithout(items, doc) + newLines && x.doc == doc <==> x in newLines
    ensures forall x: LineItem :: x.doc != doc ==> (x in LinesWithout(items, doc) + newLines <==> x in items)
  {
  }

  /**
   * The two ways of asking for an unchanged total differ: this view answers 200 "no change"
   * where the adjust-sale view answers 400; neither writes anything.
   */
  lemma UnchangedTotalAnswers(dir: Directory, l: Ledger, id: nat, currency: Option<string>, items: Option<seq<ItemInput>>, customer: nat)
    requires id < |l.sales|
    ensures var total := l.sales[id].totalEntered;
      var viaUpdate := CreateOrUpdateSale(dir, l, SaleInput(Some(id), customer, currency, total, None, items));
      var viaAdjust := AdjustDocument(dir, l, Selling, AdjustRequest(id, currency, total));
      && viaUpdate == (l, Ok(NoChange))
      && viaAdjust == (l, BadRequest("No adjustment needed"))
  {
  }

  /** Replacing a sale's lines by lines of that sale keeps the ledger linked. */
  lemma ReplaceLinesKeepsLinks(l: Ledger, doc: nat, lines: seq<LineItem>)
    requires Linked(l) && doc < |l.sales|
    requires forall i :: 0 <= i < |lines| ==> lines[i].doc == doc
    ensures Linked(ReplaceLines(l, doc, lines))
  {
    var kept := LinesWithout(l.saleItems, doc);
    forall i | 0 <= i < |kept + lines|
      ensures (kept + lines)[i].doc < |l.sales|
    {
      if i < |kept| {
        assert kept[i] in kept;
        var k :| 0 <= k < |l.saleItems| && l.saleItems[k] == kept[i];
      }
    }
  }

  /** Looks every requested product up in turn; false at the first unknown one. */
  method CheckProducts(products: set<nat>, items: seq<ItemInput>) returns (ok: bool)
    ensures ok == ProductsKnown(products, items)
  {
    var i := 0;
    while i < |items|
      invariant 0 <= i <= |items|
      invariant ProductsKnown(products, items[..i])
    {
      if items[i].product !in products {
        return false;
      }
      assert forall j :: 0 <= j < i ==> items[..i + 1][j] == items[..i][j];
      i := i + 1;
    }
    assert items[..i] == items;
    return true;
  }

  /** The create-or-update sale view. */
  method CreateOrUpdateSaleView(s: Store, req: SaleInput) returns (resp: Response)
    requires s.Valid()
    modifies s
    ensures s.Valid()
    ensures (s.State(), resp) == CreateOrUpdateSale(s.dir, old(s.State()), req)
  {
    if req.saleId.None? {
      resp := CreateSaleBranch(s, req);
    } else {
      resp := UpdateSaleBranch(s, req, req.saleId.value);
    }
  }

  method CreateSaleBranch(s: Store, req: SaleInput) returns (resp: Response)
    requires s.Valid()
    modifies s
    ensures s.Valid()
    ensures (s.State(), resp) == CreateSale(s.dir, old(s.State()), req)
  {
    if req.customer !in s.dir.customers {
      return BadRequest(NoCustomer);
    }
    if req.currency.None? {
      return BadRequest("'currency'");
    }
    if req.items.None? {
      return BadRequest("'items'");
    }
    var known := CheckProducts(s.dir.products, req.items.value);
    if !known {
      return BadRequest(NoProduct);
    }
    var currency := req.currency.value;
    var conv := Convert(s.dir.rates, req.total, currency, Base);
    var saleId := |s.sales|;
    var txId := |s.journal|;
    var entry := Entry(Sale, CustomerParty, Some(req.customer), req.total, currency, conv.1, conv.0, s.clock);
    var doc := Document(txId, req.customer, req.total, currency, conv.1, conv.0, req.status.GetOr(DefaultStatus), s.clock);
    var lines := Lines(saleId, req.items.value, currency, conv.1, false);
    AppendDocumentKeepsLinks(s.State(), Selling, entry, doc, lines);
    AppendRows(s, Selling, entry, doc, lines);
    resp := Created(SaleRecorded(saleId, txId, req.total));
  }

  method UpdateSaleBranch(s: Store, req: SaleInput, id: nat) returns (resp: Response)
    requires s.Valid()
    modifies s
    ensures s.Valid()
    ensures (s.State(), resp) == UpdateSale(s.dir, old(s.State()), req, id)
  {
    if id >= |s.sales| {
      return BadRequest(NoSale);
    }
    var doc := s.sales[id];
    var currency := req.currency.GetOr(doc.currency);
    var conv := Convert(s.dir.rates, req.total, currency, Base);
    var delta := req.total - doc.totalEntered;
    if delta == 0.0 {
      return Ok(NoChange);
    }
    if req.items.Some? {
      var known := CheckProducts(s.dir.products, req.items.value);
      if !known {
        return BadRequest(NoProduct);
      }
    }
    var txId := |s.journal|;
    var entry := AdjustmentEntry(Selling, doc.party, currency, delta, conv.1, conv.0 - doc.totalBase, s.clock);
    ApplyRevision(s, Selling, id, entry, req.total, conv.0);
    if req.items.Some? {
      ReplaceSaleLines(s, id, Lines(id, req.items.value, currency, conv.1, false));
    }
    resp := Ok(SaleRevised(id, txId, delta, req.total));
  }

  /** Drops the sale's stored lines and appends the new ones. */
  method ReplaceSaleLines(s: Store, id: nat, lines: seq<LineItem>)
    requires s.Valid() && id < |s.sales|
    requires forall i :: 0 <= i < |lines| ==> lines[i].doc == id
    modifies s
    ensures s.Valid()
    ensures s.State() == ReplaceLines(old(s.State()), id, lines)
  {
    ReplaceLinesKeepsLinks(s.State(), id, lines);
    s.saleItems := LinesWithout(s.saleItems, id) + lines;
  }
}
