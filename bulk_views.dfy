/**
 * The bulk document views of the sales and purchases modules: creating a sale or a purchase with
 * all its lines in one request, and recording a sale or purchase return the same way.
 */
module BulkViews {
  import opened Common
  import opened Rates
  import opened LedgerTypes
  import opened LedgerStore
  import opened ItemLines

  function DocKind(side: Side): Kind
  {
    if side == Selling then Sale else Purchase
  }

  function ReturnKind(side: Side): Kind
  {
    if side == Selling then ReturnSale else ReturnPurchase
  }

  /** The ledger after one bulk request: its journal entry, its header and its lines appended. */
  function AppendDocument(l: Ledger, side: Side, entry: Entry, doc: Document, lines: seq<LineItem>): Ledger
  {
    WithDocs(l.(journal := l.journal + [entry], clock := l.clock + 1), side,
             DocsOf(l, side) + [doc], ItemsOf(l, side) + lines)
  }

  /**
   * A bulk request. `discount`, `tax` and `date` are read by the sale view only; `declaredTotal`,
   * `discount`, `tax`, `status` and `date` are not read by the return views.
   */
  datatype DocumentRequest = DocumentRequest(
    party: nat,
    currency: string,
    items: seq<ItemInput>,
    declaredTotal: Option<real>,
    discount: Option<real>,
    tax: Option<real>,
    status: Option<DocStatus>,
    date: Option<nat>)

  /** The rate a request is priced at: the conversion of one unit of its currency into the base currency. */
  function UnitRate(dir: Directory, currency: string): real
  {
    Convert(dir.rates, 1.0, currency, Base).1
  }

  /**
   * The header total: the declared total when one is given (a zero counts as none) and lies
   * within 0.01 of the lines' total, the lines' total when none is given, and no total (a
   * mismatch) otherwise.
   */
  function HeaderTotal(declared: Option<real>, itemsTotal: real): (t: Option<real>)
    ensures declared.None? || declared == Some(0.0) ==> t == Some(itemsTotal)
    ensures t.Some? ==> Abs(t.value - itemsTotal) <= 0.01
    ensures t.None? <==> declared.Some? && declared.value != 0.0 && Abs(declared.value - itemsTotal) > 0.01
    ensures t.Some? && declared.Some? && declared.value != 0.0 ==> t.value == declared.value
  {
    match declared
    case None => Some(itemsTotal)
    case Some(d) =>
      if d == 0.0 then Some(itemsTotal)
      else if Abs(d - itemsTotal) > 0.01 then None
      else Some(d)
  }

  /** A return's entered total: the lines' total, negated. */
  function ReturnTotal(items: seq<ItemInput>): real
  {
    -ItemsTotal(items)
  }

  /** The header total after the sale view's discount and tax; purchases have neither. */
  function FinalTotal(side: Side, total: real, req: DocumentRequest): real
  {
    if side == Selling then total - req.discount.GetOr(0.0) + req.tax.GetOr(0.0) else total
  }

  /** The journal entry's date: the sale view honours a given sale date, every other view stamps now. */
  function EntryDate(side: Side, req: DocumentRequest, clock: nat): nat
  {
    if side == Selling then req.date.GetOr(clock) else clock
  }

  /** The journal entry of a bulk request: `amount` in the request's currency, priced at `rate`. */
  function NewEntry(kind: Kind, side: Side, req: DocumentRequest, amount: real, rate: real, stamp: nat): Entry
  {
    Entry(kind, PartyOf(side), Some(req.party), amount, req.currency, rate, amount * rate, stamp)
  }

  /** The header of a bulk request, belonging to journal entry `txId`. */
  function NewHeader(txId: nat, req: DocumentRequest, amount: real, rate: real, status: DocStatus, stamp: nat): Document
  {
    Document(txId, req.party, amount, req.currency, rate, amount * rate, status, stamp)
  }

  /** The body of a 201 answer to a bulk sale or purchase. */
  function CreatedBody(side: Side, docId: nat, txId: nat, req: DocumentRequest, final: real, rate: real, status: DocStatus): Body
  {
    if side == Selling then SaleCreated(docId, txId, final, final * rate, rate, req.currency, status, |req.items|)
    else PurchaseCreated(docId, txId, final, final * rate, rate)
  }

  /**
   * The outcome of a bulk sale or purchase request: the party is looked up (404), the currency
   * checked (400), the lines validated in order (404 for an unknown product, 400 for a bad
   * quantity or price), the declared total compared with the lines (400); then one journal entry,
   * one header and one stored line per requested line are appended (201).
   */
  function CreateDocument(dir: Directory, l: Ledger, side: Side, req: DocumentRequest): (Ledger, Response)
  {
    if req.party !in Parties(dir, side) then (l, NotFound(MissingParty(side)))
    else if !ValidCurrency(dir.currencies, req.currency) then (l, BadRequest(InvalidCurrency(req.currency)))
    else
      var rate := UnitRate(dir, req.currency);
      match CheckLines(dir.products, req.items)
      case UnknownProduct => (l, NotFound("Product not found"))
      case BadLine => (l, BadRequest("Invalid quantity or price"))
      case LinesOk =>
        match HeaderTotal(req.declaredTotal, ItemsTotal(req.items))
        case None => (l, BadRequest("Total amount mismatch with items"))
        case Some(total) =>
          var final := FinalTotal(side, total, req);
          var txId := |l.journal|;
          var docId := |DocsOf(l, side)|;
          var status := req.status.GetOr(DefaultStatus);
          var entry := NewEntry(DocKind(side), side, req, final, rate, EntryDate(side, req, l.clock));
          var doc := NewHeader(txId, req, final, rate, status, l.clock);
          (AppendDocument(l, side, entry, doc, Lines(docId, req.items, req.currency, rate, false)),
           Created(CreatedBody(side, docId, txId, req, final, rate, status)))
  }

  /**
   * The outcome of a bulk return: the same lookups and line checks, then a journal entry and a
   * header carrying the negated lines' total, status paid, and lines with negated quantities.
   * The response shows the returned amounts as positive numbers.
   */
  function ReturnDocument(dir: Directory, l: Ledger, side: Side, req: DocumentRequest): (Ledger, Response)
  {
    if req.party !in Parties(dir, side) then (l, NotFound(MissingParty(side)))
    else if !ValidCurrency(dir.currencies, req.currency) then (l, BadRequest(InvalidCurrency(req.currency)))
    else
      var rate := UnitRate(dir, req.currency);
      match CheckLines(dir.products, req.items)
      case UnknownProduct => (l, NotFound("Product not found"))
      case BadLine => (l, BadRequest("Invalid return quantity or price"))
      case LinesOk =>
        var total := ReturnTotal(req.items);
        var txId := |l.journal|;
        var docId := |DocsOf(l, side)|;
        var entry := NewEntry(ReturnKind(side), side, req, total, rate, l.clock);
        var doc := NewHeader(txId, req, total, rate, Paid, l.clock);
        (AppendDocument(l, side, entry, doc, Lines(docId, req.items, req.currency, rate, true)),
         Created(ReturnCreated(docId, txId, -total, -doc.totalBase, rate)))
  }

  /** Appending one header (with a fresh entry) and its lines keeps the ledger linked. */
  lemma AppendDocumentKeepsLinks(l: Ledger, side: Side, entry: Entry, doc: Document, lines: seq<LineItem>)
    requires Linked(l)
    requires doc.tx == |l.journal| && doc.createdAt == l.clock
    requires forall i :: 0 <= i < |lines| ==> lines[i].doc == |DocsOf(l, side)|
    ensures Linked(AppendDocument(l, side, entry, doc, lines))
  {
  }

  /** Where the appended entry, header and lines sit in the new ledger. */
  lemma AppendedParts(l: Ledger, side: Side, entry: Entry, doc: Document, lines: seq<LineItem>)
    ensures var l' := AppendDocument(l, side, entry, doc, lines);
      && l'.journal[|l.journal|] == entry
      && DocsOf(l', side)[|DocsOf(l, side)|] == doc
      && ItemsOf(l', side)[|ItemsOf(l, side)|..] == lines
  {
    var l' := AppendDocument(l, side, entry, doc, lines);
    assert ItemsOf(l', side) == ItemsOf(l, side) + lines;
  }

  /** A bulk create is accepted exactly when the party, the currency, every line and the declared total pass. */
  lemma CreateAccepted(dir: Directory, l: Ledger, side: Side, req: DocumentRequest)
    ensures CreateDocument(dir, l, side, req).1.Created? <==>
      req.party in Parties(dir, side) && ValidCurrency(dir.currencies, req.currency) &&
      CheckLines(dir.products, req.items) == LinesOk && HeaderTotal(req.declaredTotal, ItemsTotal(req.items)).Some?
    ensures CreateDocument(dir, l, side, req).1.Created? ==>
      var rate := UnitRate(dir, req.currency);
      var final := FinalTotal(side, HeaderTotal(req.declaredTotal, ItemsTotal(req.items)).value, req);
      var status := req.status.GetOr(DefaultStatus);
      CreateDocument(dir, l, side, req) ==
        (AppendDocument(l, side, NewEntry(DocKind(side), side, req, final, rate, EntryDate(side, req, l.clock)),
                        NewHeader(|l.journal|, req, final, rate, status, l.clock),
                        Lines(|DocsOf(l, side)|, req.items, req.currency, rate, false)),
         Created(CreatedBody(side, |DocsOf(l, side)|, |l.journal|, req, final, rate, status)))
  {
  }

  /** A bulk return is accepted exactly when the party, the currency and every line pass. */
  lemma ReturnAccepted(dir: Directory, l: Ledger, side: Side, req: DocumentRequest)
    ensures ReturnDocument(dir, l, side, req).1.Created? <==>
      req.party in Parties(dir, side) && ValidCurrency(dir.currencies, req.currency) &&
      CheckLines(dir.products, req.items) == LinesOk
    ensures ReturnDocument(dir, l, side, req).1.Created? ==>
      var rate := UnitRate(dir, req.currency);
      var doc := NewHeader(|l.journal|, req, ReturnTotal(req.items), rate, Paid, l.clock);
      ReturnDocument(dir, l, side, req) ==
        (AppendDocument(l, side, NewEntry(ReturnKind(side), side, req, ReturnTotal(req.items), rate, l.clock), doc,
                        Lines(|DocsOf(l, side)|, req.items, req.currency, rate, true)),
         Created(ReturnCreated(|DocsOf(l, side)|, |l.journal|, ItemsTotal(req.items), -doc.totalBase, rate)))
  {
  }

  /** A bulk create keeps the ledger linked. */
  lemma CreateDocumentKeepsLinks(dir: Directory, l: Ledger, side: Side, req: DocumentRequest)
    requires Linked(l)
    ensures Linked(CreateDocument(dir, l, side, req).0)
  {
    CreateAccepted(dir, l, side, req);
    if CreateDocument(dir, l, side, req).1.Created? {
      var rate := UnitRate(dir, req.currency);
      var total := HeaderTotal(req.declaredTotal, ItemsTotal(req.items)).value;
      var final := FinalTotal(side, total, req);
      AppendDocumentKeepsLinks(l, side,
        NewEntry(DocKind(side), side, req, final, rate, EntryDate(side, req, l.clock)),
        NewHeader(|l.journal|, req, final, rate, req.status.GetOr(DefaultStatus), l.clock),
        Lines(|DocsOf(l, side)|, req.items, req.currency, rate, false));
    }
  }

  /** A bulk return keeps the ledger linked. */
  lemma ReturnDocumentKeepsLinks(dir: Directory, l: Ledger, side: Side, req: DocumentRequest)
    requires Linked(l)
    ensures Linked(ReturnDocument(dir, l, side, req).0)
  {
    ReturnAccepted(dir, l, side, req);
    if ReturnDocument(dir, l, side, req).1.Created? {
      var rate := UnitRate(dir, req.currency);
      var total := ReturnTotal(req.items);
      AppendDocumentKeepsLinks(l, side,
        NewEntry(ReturnKind(side), side, req, total, rate, l.clock),
        NewHeader(|l.journal|, req, total, rate, Paid, l.clock),
        Lines(|DocsOf(l, side)|, req.items, req.currency, rate, true));
    }
  }

  /**
   * What appending one request's rows does to the ledger: one more journal entry, one more
   * header and the given lines at the end of their tables, the clock advanced, and every other
   * table (including the other side's) unchanged.
   */
  lemma AppendDocumentShape(l: Ledger, side: Side, entry: Entry, doc: Document, lines: seq<LineItem>)
    ensures var l' := AppendDocument(l, side, entry, doc, lines);
      && l'.journal == l.journal + [entry] && l'.clock == l.clock + 1
      && DocsOf(l', side) == DocsOf(l, side) + [doc]
      && ItemsOf(l', side) == ItemsOf(l, side) + lines
      && l'.payments == l.payments && l'.loans == l.loans && l'.expenses == l.expenses
      && (side == Selling ==> l'.purchases == l.purchases && l'.purchaseItems == l.purchaseItems)
      && (side == Buying ==> l'.sales == l.sales && l'.saleItems == l.saleItems)
  {
  }

  /**
   * Which answer a bulk create gives: 404 exactly for an unknown party or (past the currency
   * check) an unknown product on the first offending line. A rejected request writes nothing;
   * an accepted one appends one entry, one header and one line per requested line and leaves
   * every other table alone.
   */
  lemma CreateDocumentOutcome(dir: Directory, l: Ledger, side: Side, req: DocumentRequest)
    ensures var (l', resp) := CreateDocument(dir, l, side, req);
      && (resp.NotFound? <==>
            (req.party !in Parties(dir, side) ||
             (ValidCurrency(dir.currencies, req.currency) && CheckLines(dir.products, req.items) == UnknownProduct)))
      && (Rejected(resp) ==> l' == l)
      && (resp.Created? ==>
            && l'.journal[..|l.journal|] == l.journal && |l'.journal| == |l.journal| + 1
            && DocsOf(l', side)[..|DocsOf(l, side)|] == DocsOf(l, side) && |DocsOf(l', side)| == |DocsOf(l, side)| + 1
            && |ItemsOf(l', side)| == |ItemsOf(l, side)| + |req.items|
            && l'.payments == l.payments && l'.loans == l.loans && l'.expenses == l.expenses
            && (side == Selling ==> l'.purchases == l.purchases && l'.purchaseItems == l.purchaseItems)
            && (side == Buying ==> l'.sales == l.sales && l'.saleItems == l.saleItems))
  {
    CreateAccepted(dir, l, side, req);
    if CreateDocument(dir, l, side, req).1.Created? {
      var rate := UnitRate(dir, req.currency);
      var final := FinalTotal(side, HeaderTotal(req.declaredTotal, ItemsTotal(req.items)).value, req);
      var entry := NewEntry(DocKind(side), side, req, final, rate, EntryDate(side, req, l.clock));
      var doc := NewHeader(|l.journal|, req, final, rate, req.status.GetOr(DefaultStatus), l.clock);
      AppendDocumentShape(l, side, entry, doc, Lines(|DocsOf(l, side)|, req.items, req.currency, rate, false));
      assert (l.journal + [entry])[..|l.journal|] == l.journal;
      assert (DocsOf(l, side) + [doc])[..|DocsOf(l, side)|] == DocsOf(l, side);
    }
  }

  /**
   * Which answer a bulk return gives: 404 exactly for an unknown party or an unknown product on
   * the first offending line; nothing is written unless it answers 201, and then one entry, one
   * header and one line per requested line are appended and every other table is left alone.
   */
  lemma ReturnDocumentOutcome(dir: Directory, l: Ledger, side: Side, req: DocumentRequest)
    ensures var (l', resp) := ReturnDocument(dir, l, side, req);
      && (resp.NotFound? <==>
            (req.party !in Parties(dir, side) ||
             (ValidCurrency(dir.currencies, req.currency) && CheckLines(dir.products, req.items) == UnknownProduct)))
      && (Rejected(resp) ==> l' == l)
      && (resp.Created? ==>
            && l'.journal[..|l.journal|] == l.journal && |l'.journal| == |l.journal| + 1
            && DocsOf(l', side)[..|DocsOf(l, side)|] == DocsOf(l, side) && |DocsOf(l', side)| == |DocsOf(l, side)| + 1
            && |ItemsOf(l', side)| == |ItemsOf(l, side)| + |req.items|
            && l'.payments == l.payments && l'.loans == l.loans && l'.expenses == l.expenses
            && (side == Selling ==> l'.purchases == l.purchases && l'.purchaseItems == l.purchaseItems)
            && (side == Buying ==> l'.sales == l.sales && l'.saleItems == l.saleItems))
  {
    ReturnAccepted(dir, l, side, req);
    if ReturnDocument(dir, l, side, req).1.Created? {
      var rate := UnitRate(dir, req.currency);
      var total := ReturnTotal(req.items);
      var entry := NewEntry(ReturnKind(side), side, req, total, rate, l.clock);
      var doc := NewHeader(|l.journal|, req, total, rate, Paid, l.clock);
      AppendDocumentShape(l, side, entry, doc, Lines(|DocsOf(l, side)|, req.items, req.currency, rate, true));
      assert (l.journal + [entry])[..|l.journal|] == l.journal;
      assert (DocsOf(l, side) + [doc])[..|DocsOf(l, side)|] == DocsOf(l, side);
    }
  }

  /**
   * The header written by a bulk create mirrors its journal entry (same amounts, rate, party and
   * currency) and is priced at the currency's rate.
   */
  lemma CreatedDocumentMirrorsEntry(dir: Directory, l: Ledger, side: Side, req: DocumentRequest)
    requires CreateDocument(dir, l, side, req).1.Created?
    ensures var l' := CreateDocument(dir, l, side, req).0;
      var entry := l'.journal[|l.journal|];
      var doc := DocsOf(l', side)[|DocsOf(l, side)|];
      && doc.tx == |l.journal| && doc.party == req.party
      && entry.kind == DocKind(side) && entry.partyType == PartyOf(side) && entry.partyId == Some(req.party)
      && doc.totalEntered == entry.enteredAmount && doc.totalBase == entry.amountBase
      && doc.rateToBase == entry.rateToBase == UnitRate(dir, req.currency)
      && doc.totalBase == doc.totalEntered * doc.rateToBase
      && doc.status == req.status.GetOr(Unpaid)
  {
    CreateAccepted(dir, l, side, req);
    var rate := UnitRate(dir, req.currency);
    var final := FinalTotal(side, HeaderTotal(req.declaredTotal, ItemsTotal(req.items)).value, req);
    AppendedParts(l, side, NewEntry(DocKind(side), side, req, final, rate, EntryDate(side, req, l.clock)),
                  NewHeader(|l.journal|, req, final, rate, req.status.GetOr(DefaultStatus), l.clock),
                  Lines(|DocsOf(l, side)|, req.items, req.currency, rate, false));
  }

  /**
   * The entered total of a created header differs from the lines' total by at most 0.01, once
   * a sale's discount is added back and its tax taken off.
   */
  lemma CreatedTotalWithinTolerance(dir: Directory, l: Ledger, side: Side, req: DocumentRequest)
    requires CreateDocument(dir, l, side, req).1.Created?
    ensures var doc := DocsOf(CreateDocument(dir, l, side, req).0, side)[|DocsOf(l, side)|];
      && (side == Buying ==> Abs(doc.totalEntered - ItemsTotal(req.items)) <= 0.01)
      && (side == Selling ==>
            Abs(doc.totalEntered + req.discount.GetOr(0.0) - req.tax.GetOr(0.0) - ItemsTotal(req.items)) <= 0.01)
  {
    var total := HeaderTotal(req.declaredTotal, ItemsTotal(req.items)).value;
    assert DocsOf(CreateDocument(dir, l, side, req).0, side)[|DocsOf(l, side)|].totalEntered == FinalTotal(side, total, req);
  }

  /**
   * With no declared total (and, for a sale, no discount and no tax) the header's base total is
   * exactly the sum of quantity times base unit price over the lines it wrote.
   */
  lemma CreatedHeaderMatchesLines(dir: Directory, l: Ledger, side: Side, req: DocumentRequest)
    requires CreateDocument(dir, l, side, req).1.Created?
    requires req.declaredTotal.None?
    requires side == Selling ==> req.discount.GetOr(0.0) == 0.0 && req.tax.GetOr(0.0) == 0.0
    ensures var l' := CreateDocument(dir, l, side, req).0;
      DocsOf(l', side)[|DocsOf(l, side)|].totalBase == LinesBaseTotal(ItemsOf(l', side)[|ItemsOf(l, side)|..])
  {
    var l' := CreateDocument(dir, l, side, req).0;
    var rate := UnitRate(dir, req.currency);
    var lines := Lines(|DocsOf(l, side)|, req.items, req.currency, rate, false);
    assert ItemsOf(l', side)[|ItemsOf(l, side)|..] == lines;
    LinesBaseTotalIsRated(|DocsOf(l, side)|, req.items, req.currency, rate, false);
  }

  /**
   * A bulk return writes a return entry and a paid header whose entered total is the negated,
   * hence non-positive, lines' total, and answers with the returned amounts as positive numbers.
   */
  lemma ReturnIsNegated(dir: Directory, l: Ledger, side: Side, req: DocumentRequest)
    requires ReturnDocument(dir, l, side, req).1.Created?
    ensures var (l', resp) := ReturnDocument(dir, l, side, req);
      var doc := DocsOf(l', side)[|DocsOf(l, side)|];
      && l'.journal[|l.journal|].kind == ReturnKind(side)
      && doc.status == Paid
      && doc.totalEntered == -ItemsTotal(req.items) <= 0.0
      && resp.body.totalReturned == ItemsTotal(req.items) && resp.body.returnedBase == -doc.totalBase
  {
    ItemsTotalNonNegative(dir.products, req.items);
  }

  /** The lines a bulk return writes carry the requested quantities negated, so each is negative. */
  lemma ReturnLinesNegated(dir: Directory, l: Ledger, side: Side, req: DocumentRequest)
    requires ReturnDocument(dir, l, side, req).1.Created?
    ensures var lines := ItemsOf(ReturnDocument(dir, l, side, req).0, side)[|ItemsOf(l, side)|..];
      && |lines| == |req.items|
      && (forall i :: 0 <= i < |lines| ==> lines[i].quantity == -req.items[i].quantity < 0.0)
  {
    ReturnAccepted(dir, l, side, req);
    var rate := UnitRate(dir, req.currency);
    var total := ReturnTotal(req.items);
    AppendedParts(l, side, NewEntry(ReturnKind(side), side, req, total, rate, l.clock),
                  NewHeader(|l.journal|, req, total, rate, Paid, l.clock),
                  Lines(|DocsOf(l, side)|, req.items, req.currency, rate, true));
    StoredLinesFollowRequest(dir.products, |DocsOf(l, side)|, req.items, req.currency, rate, true);
  }

  /** The base total of the lines a bulk return writes is the header's base total. */
  lemma ReturnLinesMatchHeader(dir: Directory, l: Ledger, side: Side, req: DocumentRequest)
    requires ReturnDocument(dir, l, side, req).1.Created?
    ensures var l' := ReturnDocument(dir, l, side, req).0;
      DocsOf(l', side)[|DocsOf(l, side)|].totalBase == LinesBaseTotal(ItemsOf(l', side)[|ItemsOf(l, side)|..])
  {
    ReturnAccepted(dir, l, side, req);
    ReturnAppendBase(l, side, req, UnitRate(dir, req.currency));
  }

  lemma ReturnAppendBase(l: Ledger, side: Side, req: DocumentRequest, rate: real)
    ensures var total := ReturnTotal(req.items);
      var l' := AppendDocument(l, side, NewEntry(ReturnKind(side), side, req, total, rate, l.clock),
                               NewHeader(|l.journal|, req, total, rate, Paid, l.clock),
                               Lines(|DocsOf(l, side)|, req.items, req.currency, rate, true));
      DocsOf(l', side)[|DocsOf(l, side)|].totalBase == LinesBaseTotal(ItemsOf(l', side)[|ItemsOf(l, side)|..])
  {
    var total := ReturnTotal(req.items);
    AppendedParts(l, side, NewEntry(ReturnKind(side), side, req, total, rate, l.clock),
                  NewHeader(|l.journal|, req, total, rate, Paid, l.clock),
                  Lines(|DocsOf(l, side)|, req.items, req.currency, rate, true));
    ReturnLinesBase(|DocsOf(l, side)|, req.items, req.currency, rate);
  }

  /**
   * Writes one request's rows inside its database transaction: the journal entry, the header
   * (pointing at the entry) and the lines (pointing at the header), then advances the clock.
   */
  method AppendRows(s: Store, side: Side, entry: Entry, doc: Document, lines: seq<LineItem>)
    modifies s
    ensures s.State() == AppendDocument(old(s.State()), side, entry, doc, lines)
  {
    s.journal := s.journal + [entry];
    if side == Selling {
      s.sales := s.sales + [doc];
      s.saleItems := s.saleItems + lines;
    } else {
      s.purchases := s.purchases + [doc];
      s.purchaseItems := s.purchaseItems + lines;
    }
    s.clock := s.clock + 1;
  }

  /** The bulk sale (Selling) and bulk purchase (Buying) view. */
  method CreateDocumentView(s: Store, side: Side, req: DocumentRequest) returns (resp: Response)
    requires s.Valid()
    modifies s
    ensures s.Valid()
    ensures (s.State(), resp) == CreateDocument(s.dir, old(s.State()), side, req)
  {
    ghost var l := s.State();
    CreateAccepted(s.dir, l, side, req);
    if req.party !in Parties(s.dir, side) {
      return NotFound(MissingParty(side));
    }
    if req.currency !in s.dir.currencies {
      return BadRequest(InvalidCurrency(req.currency));
    }
    var rate := Convert(s.dir.rates, 1.0, req.currency, Base).1;
    var check, itemsTotal := ValidateLines(s.dir.products, req.items);
    if check == UnknownProduct {
      return NotFound("Product not found");
    } else if check == BadLine {
      return BadRequest("Invalid quantity or price");
    }
    var header := HeaderTotal(req.declaredTotal, itemsTotal);
    if header.None? {
      return BadRequest("Total amount mismatch with items");
    }
    var final := FinalTotal(side, header.value, req);
    var status := req.status.GetOr(DefaultStatus);
    var docId := if side == Selling then |s.sales| else |s.purchases|;
    var txId := |s.journal|;
    var entry := NewEntry(DocKind(side), side, req, final, rate, EntryDate(side, req, s.clock));
    var doc := NewHeader(txId, req, final, rate, status, s.clock);
    AppendDocumentKeepsLinks(l, side, entry, doc, Lines(docId, req.items, req.currency, rate, false));
    AppendRows(s, side, entry, doc, Lines(docId, req.items, req.currency, rate, false));
    resp := Created(CreatedBody(side, docId, txId, req, final, rate, status));
  }

  /** The bulk sale return (Selling) and bulk purchase return (Buying) view. */
  method ReturnDocumentView(s: Store, side: Side, req: DocumentRequest) returns (resp: Response)
    requires s.Valid()
    modifies s
    ensures s.Valid()
    ensures (s.State(), resp) == ReturnDocument(s.dir, old(s.State()), side, req)
  {
    ghost var l := s.State();
    ReturnAccepted(s.dir, l, side, req);
    if req.party !in Parties(s.dir, side) {
      return NotFound(MissingParty(side));
    }
    if req.currency !in s.dir.currencies {
      return BadRequest(InvalidCurrency(req.currency));
    }
    var rate := Convert(s.dir.rates, 1.0, req.currency, Base).1;
    var check, itemsTotal := ValidateLines(s.dir.products, req.items);
    if check == UnknownProduct {
      return NotFound("Product not found");
    } else if check == BadLine {
      return BadRequest("Invalid return quantity or price");
    }
    var total := -itemsTotal;
    var docId := if side == Selling then |s.sales| else |s.purchases|;
    var txId := |s.journal|;
    var entry := NewEntry(ReturnKind(side), side, req, total, rate, s.clock);
    var doc := NewHeader(txId, req, total, rate, Paid, s.clock);
    AppendDocumentKeepsLinks(l, side, entry, doc, Lines(docId, req.items, req.currency, rate, true));
    AppendRows(s, side, entry, doc, Lines(docId, req.items, req.currency, rate, true));
    resp := Created(ReturnCreated(docId, txId, itemsTotal, -doc.totalBase, rate));
  }
}
