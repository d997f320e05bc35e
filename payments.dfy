/**
 * The payment views: a payment received from a customer or made to a supplier is recorded, the
 * party's balance is recomputed, and the party's open documents are re-stamped oldest first.
 */
module PaymentViews {
  import opened Common
  import opened Rates
  import opened LedgerTypes
  import opened LedgerStore
  import opened Settlement

  /** A payment request: party, currency, entered amount and payment method. */
  datatype PaymentRequest = PaymentRequest(party: nat, currency: string, amount: real, payMethod: string)

  function PaymentKind(side: Side): Kind
  {
    if side == Selling then PaymentReceived else PaymentMade
  }

  /** The sum of the base amounts of the payments recorded for one party. */
  function PartyPaymentsTotal(payments: seq<PaymentRecord>, partyType: PartyType, party: nat): real
    decreases |payments|
  {
    if payments == [] then 0.0
    else
      (if payments[0].partyType == partyType && payments[0].partyId == party then payments[0].amountBase else 0.0)
      + PartyPaymentsTotal(payments[1..], partyType, party)
  }

  /**
   * What the party owes (positive) or has paid in advance (negative): the base totals of all
   * their documents, returns included, less the base amounts of all their payments.
   */
  function PartyBalance(l: Ledger, side: Side, party: nat): real
  {
    PartyDocsTotal(DocsOf(l, side), party) - PartyPaymentsTotal(l.payments, PartyOf(side), party)
  }

  /** The journal entry of a payment; `conv` is the converted amount and the rate used. */
  function PaymentEntry(side: Side, req: PaymentRequest, conv: (real, real), stamp: nat): Entry
  {
    Entry(PaymentKind(side), PartyOf(side), Some(req.party), req.amount, req.currency, conv.1, conv.0, stamp)
  }

  /** The payment row, belonging to journal entry `txId`. */
  function NewPayment(side: Side, req: PaymentRequest, conv: (real, real), txId: nat, stamp: nat): PaymentRecord
  {
    PaymentRecord(txId, PartyOf(side), req.party, req.amount, req.currency, conv.1, conv.0, req.payMethod, stamp)
  }

  /** The ledger with one payment's entry and row appended. */
  function WithPayment(l: Ledger, entry: Entry, pay: PaymentRecord): Ledger
  {
    l.(journal := l.journal + [entry], payments := l.payments + [pay], clock := l.clock + 1)
  }

  /** The ledger after the oldest-first walk over one side's documents for `party`. */
  function Settled(l: Ledger, side: Side, party: nat, credit: real): Ledger
  {
    WithDocs(l, side, Walk(DocsOf(l, side), party, credit), ItemsOf(l, side))
  }

  /**
   * The outcome of a payment request (Selling: received from a customer; Buying: made to a
   * supplier): the party is looked up (404), the currency checked and the amount required to be
   * positive (400); then the entry and the payment are appended, the balance is recomputed with
   * the new payment, and the credit `max(0, -balance)` is walked over the party's open documents.
   */
  function RecordPayment(dir: Directory, l: Ledger, side: Side, req: PaymentRequest): (Ledger, Response)
  {
    if req.party !in Parties(dir, side) then (l, NotFound(MissingParty(side)))
    else if !ValidCurrency(dir.currencies, req.currency) then (l, BadRequest(InvalidCurrency(req.currency)))
    else if req.amount <= 0.0 then (l, BadRequest("Payment amount must be positive"))
    else
      var conv := Convert(dir.rates, req.amount, req.currency, Base);
      var l1 := WithPayment(l, PaymentEntry(side, req, conv, l.clock), NewPayment(side, req, conv, |l.journal|, l.clock));
      var balance := PartyBalance(l1, side, req.party);
      (Settled(l1, side, req.party, Positive(-balance)),
       Created(PaymentRecorded(|l.payments|, |l.journal|, req.amount, conv.0, conv.1, balance)))
  }

  /** A payment is accepted exactly when the party, the currency and the amount pass; the accepted outcome spelled out. */
  lemma PaymentAccepted(dir: Directory, l: Ledger, side: Side, req: PaymentRequest)
    ensures RecordPayment(dir, l, side, req).1.Created? <==>
      req.party in Parties(dir, side) && ValidCurrency(dir.currencies, req.currency) && req.amount > 0.0
    ensures RecordPayment(dir, l, side, req).1.Created? ==>
      var conv := Convert(dir.rates, req.amount, req.currency, Base);
      var l1 := WithPayment(l, PaymentEntry(side, req, conv, l.clock), NewPayment(side, req, conv, |l.journal|, l.clock));
      var balance := PartyBalance(l1, side, req.party);
      RecordPayment(dir, l, side, req) ==
        (Settled(l1, side, req.party, Positive(-balance)),
         Created(PaymentRecorded(|l.payments|, |l.journal|, req.amount, conv.0, conv.1, balance)))
  {
  }

  /** Appending a payment and its entry adds its base amount to the party's payments and leaves the documents alone. */
  lemma WithPaymentBalance(l: Ledger, side: Side, entry: Entry, pay: PaymentRecord)
    requires pay.partyType == PartyOf(side)
    ensures PartyBalance(WithPayment(l, entry, pay), side, pay.partyId) == PartyBalance(l, side, pay.partyId) - pay.amountBase
  {
    PaymentsTotalAppend(l.payments, pay, PartyOf(side), pay.partyId);
  }

  lemma {:induction false} PaymentsTotalAppend(payments: seq<PaymentRecord>, pay: PaymentRecord, partyType: PartyType, party: nat)
    ensures PartyPaymentsTotal(payments + [pay], partyType, party) ==
      PartyPaymentsTotal(payments, partyType, party) + (if pay.partyType == partyType && pay.partyId == party then pay.amountBase else 0.0)
    decreases |payments|
  {
    if payments != [] {
      assert (payments + [pay])[1..] == payments[1..] + [pay];
      PaymentsTotalAppend(payments[1..], pay, partyType, party);
    }
  }

  /** The settlement walk leaves every party's balance as it was: it only rewrites statuses. */
  lemma SettledKeepsBalance(l: Ledger, side: Side, party: nat, credit: real, who: nat)
    ensures PartyBalance(Settled(l, side, party, credit), side, who) == PartyBalance(l, side, who)
  {
    WalkKeepsDocsTotal(DocsOf(l, side), party, credit, who);
  }

  /**
   * The balance a payment reports is the party's balance before it less the payment's base
   * amount, and it is still the party's balance once the walk has run.
   */
  lemma PaymentReportsNewBalance(dir: Directory, l: Ledger, side: Side, req: PaymentRequest)
    requires RecordPayment(dir, l, side, req).1.Created?
    ensures var (l', resp) := RecordPayment(dir, l, side, req);
      && resp.body.partyBalance == PartyBalance(l, side, req.party) - resp.body.amountBase
      && PartyBalance(l', side, req.party) == resp.body.partyBalance
  {
    PaymentAccepted(dir, l, side, req);
    var conv := Convert(dir.rates, req.amount, req.currency, Base);
    var entry := PaymentEntry(side, req, conv, l.clock);
    var pay := NewPayment(side, req, conv, |l.journal|, l.clock);
    var l1 := WithPayment(l, entry, pay);
    WithPaymentBalance(l, side, entry, pay);
    var balance := PartyBalance(l1, side, req.party);
    SettledKeepsBalance(l1, side, req.party, Positive(-balance), req.party);
  }

  /**
   * The entry and the payment row of an accepted payment carry the same entered amount,
   * currency, rate and base amount, the base amount is the entered amount at the resolved rate,
   * and the payment points at the entry.
   */
  lemma PaymentMirrorsEntry(dir: Directory, l: Ledger, side: Side, req: PaymentRequest)
    requires RecordPayment(dir, l, side, req).1.Created?
    ensures var l' := RecordPayment(dir, l, side, req).0;
      var entry := l'.journal[|l.journal|];
      var pay := l'.payments[|l.payments|];
      && entry.kind == PaymentKind(side) && entry.partyType == PartyOf(side) && entry.partyId == Some(req.party)
      && pay.tx == |l.journal| && pay.partyType == PartyOf(side) && pay.partyId == req.party
      && pay.enteredAmount == entry.enteredAmount == req.amount
      && pay.enteredCurrency == entry.enteredCurrency == req.currency
      && pay.rateToBase == entry.rateToBase == LatestRate(dir.rates, req.currency, Base)
      && pay.amountBase == entry.amountBase == req.amount * pay.rateToBase
  {
    PaymentAccepted(dir, l, side, req);
    ConvertScales(dir.rates, req.amount, req.currency, Base);
  }

  /**
   * Which answer a payment gets: 404 exactly for an unknown party, 400 for an unknown currency
   * or a non-positive amount, and nothing is written unless it is accepted.
   */
  lemma RecordPaymentOutcome(dir: Directory, l: Ledger, side: Side, req: PaymentRequest)
    ensures var (l', resp) := RecordPayment(dir, l, side, req);
      && (resp.NotFound? <==> req.party !in Parties(dir, side))
      && (resp.BadRequest? <==>
            req.party in Parties(dir, side) && (!ValidCurrency(dir.currencies, req.currency) || req.amount <= 0.0))
      && (Rejected(resp) ==> l' == l)
  {
    PaymentAccepted(dir, l, side, req);
  }

  /** An accepted payment changes the ledger only as `PaymentShape` allows. */
  lemma AcceptedPaymentShape(dir: Directory, l: Ledger, side: Side, req: PaymentRequest)
    requires RecordPayment(dir, l, side, req).1.Created?
    ensures PaymentShape(l, RecordPayment(dir, l, side, req).0, side, req.party)
  {
    PaymentAccepted(dir, l, side, req);
    var conv := Convert(dir.rates, req.amount, req.currency, Base);
    var entry := PaymentEntry(side, req, conv, l.clock);
    var pay := NewPayment(side, req, conv, |l.journal|, l.clock);
    var l1 := WithPayment(l, entry, pay);
    SettledPaymentShape(l, side, entry, pay, req.party, Positive(-PartyBalance(l1, side, req.party)));
  }

  /**
   * What an accepted payment may change: exactly one entry and one payment row appended, the
   * lines, loans, expenses and the other side's tables untouched, and of the documents only the statuses of the party's
   * open ones.
   */
  ghost predicate PaymentShape(l: Ledger, l': Ledger, side: Side, party: nat)
  {
    && |l'.journal| == |l.journal| + 1 && l'.journal[..|l.journal|] == l.journal
    && |l'.payments| == |l.payments| + 1 && l'.payments[..|l.payments|] == l.payments
    && ItemsOf(l', side) == ItemsOf(l, side) && l'.loans == l.loans && l'.expenses == l.expenses
    && (side == Selling ==> l'.purchases == l.purchases && l'.purchaseItems == l.purchaseItems)
    && (side == Buying ==> l'.sales == l.sales && l'.saleItems == l.saleItems)
    && |DocsOf(l', side)| == |DocsOf(l, side)|
    && (forall i :: 0 <= i < |DocsOf(l, side)| ==>
          DocsOf(l', side)[i] == DocsOf(l, side)[i].(status := DocsOf(l', side)[i].status))
    && (forall i :: 0 <= i < |DocsOf(l, side)| && !OpenFor(DocsOf(l, side)[i], party) ==>
          DocsOf(l', side)[i] == DocsOf(l, side)[i])
  }

  lemma SettledPaymentShape(l: Ledger, side: Side, entry: Entry, pay: PaymentRecord, party: nat, credit: real)
    ensures PaymentShape(l, Settled(WithPayment(l, entry, pay), side, party, credit), side, party)
  {
    WalkOnlySetsStatus(DocsOf(l, side), party, credit);
    assert (l.journal + [entry])[..|l.journal|] == l.journal;
    assert (l.payments + [pay])[..|l.payments|] == l.payments;
  }

  /**
   * How an accepted payment re-stamps the party's open documents: the credit walked is
   * `max(0, -balance)`; what the walk marks paid never exceeds it; once one open document is left
   * partial or unpaid every later one is unpaid; and while the party still owes anything (or
   * exactly nothing) every open document with a positive total is unpaid.
   */
  lemma PaymentSettlesOldestFirst(dir: Directory, l: Ledger, side: Side, req: PaymentRequest)
    requires RecordPayment(dir, l, side, req).1.Created?
    requires forall k :: 0 <= k < |DocsOf(l, side)| && OpenFor(DocsOf(l, side)[k], req.party) ==>
      DocsOf(l, side)[k].totalBase > 0.0
    ensures var (l', resp) := RecordPayment(dir, l, side, req);
      var before := DocsOf(l, side);
      var after := DocsOf(l', side);
      var credit := Positive(-resp.body.partyBalance);
      && after == Walk(before, req.party, credit)
      && NewlyPaid(before, req.party, credit) <= credit
      && (forall i, j :: (0 <= i < j < |before| && OpenFor(before[i], req.party) && OpenFor(before[j], req.party) &&
                          after[i].status != Paid) ==> after[j].status == Unpaid)
      && (resp.body.partyBalance >= 0.0 ==>
            forall i :: 0 <= i < |before| && OpenFor(before[i], req.party) ==> after[i].status == Unpaid)
  {
    PaymentAccepted(dir, l, side, req);
    var conv := Convert(dir.rates, req.amount, req.currency, Base);
    var l1 := WithPayment(l, PaymentEntry(side, req, conv, l.clock), NewPayment(side, req, conv, |l.journal|, l.clock));
    var before := DocsOf(l, side);
    assert DocsOf(l1, side) == before;
    var credit := Positive(-PartyBalance(l1, side, req.party));
    WalkSpendsAtMostCredit(before, req.party, credit);
    var after := Walk(before, req.party, credit);
    forall i, j | 0 <= i < j < |before| && OpenFor(before[i], req.party) && OpenFor(before[j], req.party) &&
                  after[i].status != Paid
      ensures after[j].status == Unpaid
    {
      WalkIsOldestFirst(before, req.party, credit, i, j);
    }
    if PartyBalance(l1, side, req.party) >= 0.0 {
      NoCreditLeavesAllUnpaid(before, req.party, credit);
    }
  }

  /**
   * A customer with one unpaid sale of 500 who pays 500 in the base currency keeps that sale
   * unpaid: the credit walked is the excess of payments over all sales, here 0.
   */
  lemma FullPaymentLeavesSaleUnpaid(dir: Directory, customer: nat)
    requires customer in dir.customers && Base in dir.currencies
    ensures var sale := Document(0, customer, 500.0, Base, 1.0, 500.0, Unpaid, 0);
      var l := EmptyLedger.(journal := [Entry(Sale, CustomerParty, Some(customer), 500.0, Base, 1.0, 500.0, 0)],
                            sales := [sale], clock := 1);
      var (l', resp) := RecordPayment(dir, l, Selling, PaymentRequest(customer, Base, 500.0, "cash"));
      resp.Created? && resp.body.partyBalance == 0.0 && l'.sales == [sale]
  {
    var sale := Document(0, customer, 500.0, Base, 1.0, 500.0, Unpaid, 0);
    var l := EmptyLedger.(journal := [Entry(Sale, CustomerParty, Some(customer), 500.0, Base, 1.0, 500.0, 0)],
                          sales := [sale], clock := 1);
    var req := PaymentRequest(customer, Base, 500.0, "cash");
    PaymentAccepted(dir, l, Selling, req);
    var conv := Convert(dir.rates, 500.0, Base, Base);
    assert conv == (500.0, 1.0);
    var entry := PaymentEntry(Selling, req, conv, 1);
    var pay := NewPayment(Selling, req, conv, 1, 1);
    var l1 := WithPayment(l, entry, pay);
    WithPaymentBalance(l, Selling, entry, pay);
    assert PartyDocsTotal([sale], customer) == 500.0;
    assert PartyBalance(l, Selling, customer) == 500.0;
    assert PartyBalance(l1, Selling, customer) == 0.0;
    assert Walk([sale], customer, 0.0) == [sale];
  }

  /** Records the payment's entry and row in one step of the request's database transaction. */
  method AppendPayment(s: Store, entry: Entry, pay: PaymentRecord)
    modifies s
    ensures s.State() == WithPayment(old(s.State()), entry, pay)
  {
    s.journal := s.journal + [entry];
    s.payments := s.payments + [pay];
    s.clock := s.clock + 1;
  }

  /**
   * The oldest-first walk as the view runs it: one pass over the side's documents in table
   * (creation) order, re-stamping each open document of the party in place.
   */
  method SettleOpen(s: Store, side: Side, party: nat, credit: real)
    modifies s
    ensures s.State() == Settled(old(s.State()), side, party, credit)
  {
    ghost var L := s.State();
    ghost var D := DocsOf(L, side);
    var docs := if side == Selling then s.sales else s.purchases;
    var i := 0;
    var remaining := credit;
    while i < |docs|
      invariant |docs| == |D| && 0 <= i <= |docs|
      invariant docs[i..] == D[i..]
      invariant s.State() == WithDocs(L, side, docs, ItemsOf(L, side))
      invariant Walk(D, party, credit) == docs[..i] + Walk(D[i..], party, remaining)
    {
      AdvanceKeepsWalk(D, docs, i, party, credit, remaining);
      ghost var next := Advance(docs, i, party, remaining);
      if OpenFor(docs[i], party) {
        var (status, rest) := Allocate(docs[i].totalBase, remaining);
        SaveStatus(s, side, i, status, L, docs);
        docs := docs[i := docs[i].(status := status)];
        remaining := rest;
      }
      assert (docs, remaining) == next;
      i := i + 1;
    }
    assert docs == docs[..i];
  }

  /** One step of the walk at position `i`: the table with that document re-stamped, and the credit left. */
  function Advance(docs: seq<Document>, i: nat, party: nat, credit: real): (r: (seq<Document>, real))
    requires i < |docs|
    ensures |r.0| == |docs| && r.0[i] == docs[i].(status := r.0[i].status)
    ensures forall j :: 0 <= j < |docs| && j != i ==> r.0[j] == docs[j]
    ensures !OpenFor(docs[i], party) ==> r.0 == docs && r.1 == credit
  {
    if OpenFor(docs[i], party) then
      var (status, rest) := Allocate(docs[i].totalBase, credit);
      (docs[i := docs[i].(status := status)], rest)
    else (docs, credit)
  }

  /** A step keeps the walk's loop invariant: what is behind `i` is the walk so far, what is ahead is untouched. */
  lemma AdvanceKeepsWalk(D: seq<Document>, docs: seq<Document>, i: nat, party: nat, credit: real, c: real)
    requires i < |D| == |docs| && docs[i..] == D[i..]
    requires Walk(D, party, credit) == docs[..i] + Walk(D[i..], party, c)
    ensures var (next, c') := Advance(docs, i, party, c);
      && |next| == |D| && next[i + 1..] == D[i + 1..]
      && Walk(D, party, credit) == next[..i + 1] + Walk(D[i + 1..], party, c')
  {
    assert D[i..][0] == D[i] == docs[i] && D[i..][1..] == D[i + 1..];
    var (next, c') := Advance(docs, i, party, c);
    assert Walk(D[i..], party, c) == [next[i]] + Walk(D[i + 1..], party, c');
    assert next[..i + 1] == docs[..i] + [next[i]];
    assert next[i + 1..] == docs[i + 1..];
  }

  /** Saves one document's new status; `docs` is the side's table as it stands. */
  method SaveStatus(s: Store, side: Side, i: nat, status: DocStatus, ghost L: Ledger, ghost docs: seq<Document>)
    requires i < |docs|
    requires s.State() == WithDocs(L, side, docs, ItemsOf(L, side))
    modifies s
    ensures s.State() == WithDocs(L, side, docs[i := docs[i].(status := status)], ItemsOf(L, side))
  {
    if side == Selling {
      s.sales := s.sales[i := s.sales[i].(status := status)];
    } else {
      s.purchases := s.purchases[i := s.purchases[i].(status := status)];
    }
  }

  /** The receive-payment (Selling) and make-payment (Buying) view. */
  method RecordPaymentView(s: Store, side: Side, req: PaymentRequest) returns (resp: Response)
    requires s.Valid()
    modifies s
    ensures s.Valid()
    ensures (s.State(), resp) == RecordPayment(s.dir, old(s.State()), side, req)
  {
    if req.party !in Parties(s.dir, side) {
      return NotFound(MissingParty(side));
    }
    if req.currency !in s.dir.currencies {
      return BadRequest(InvalidCurrency(req.currency));
    }
    if req.amount <= 0.0 {
      return BadRequest("Payment amount must be positive");
    }
    resp := AcceptPayment(s, side, req);
  }

  /** The writes of an accepted payment: the payment and its entry, then the walk over the open documents. */
  method AcceptPayment(s: Store, side: Side, req: PaymentRequest) returns (resp: Response)
    requires s.Valid()
    requires req.party in Parties(s.dir, side) && ValidCurrency(s.dir.currencies, req.currency) && req.amount > 0.0
    modifies s
    ensures s.Valid()
    ensures (s.State(), resp) == RecordPayment(s.dir, old(s.State()), side, req)
  {
    ghost var l := s.State();
    PaymentAccepted(s.dir, l, side, req);
    var conv := Convert(s.dir.rates, req.amount, req.currency, Base);
    var txId := |s.journal|;
    var payId := |s.payments|;
    var entry := PaymentEntry(side, req, conv, s.clock);
    var pay := NewPayment(side, req, conv, txId, s.clock);
    assert conv == Convert(s.dir.rates, req.amount, req.currency, Base);
    WithPaymentKeepsLinks(l, entry, pay);
    AppendPayment(s, entry, pay);
    ghost var l1 := s.State();
    assert l1 == WithPayment(l, PaymentEntry(side, req, conv, l.clock), NewPayment(side, req, conv, |l.journal|, l.clock));
    var balance := PartyBalance(s.State(), side, req.party);
    SettleOpen(s, side, req.party, Positive(-balance));
    SettledKeepsLinks(l1, side, req.party, Positive(-balance));
    resp := Created(PaymentRecorded(payId, txId, req.amount, conv.0, conv.1, balance));
    assert RecordPayment(s.dir, l, side, req) == (Settled(l1, side, req.party, Positive(-balance)), resp);
  }

  /** Appending a payment keeps the ledger linked. */
  lemma WithPaymentKeepsLinks(l: Ledger, entry: Entry, pay: PaymentRecord)
    requires Linked(l)
    requires pay.tx == |l.journal| && pay.createdAt == l.clock
    ensures Linked(WithPayment(l, entry, pay))
  {
  }

  /** The walk keeps the ledger linked: it only rewrites statuses. */
  lemma SettledKeepsLinks(l: Ledger, side: Side, party: nat, credit: real)
    requires Linked(l)
    ensures Linked(Settled(l, side, party, credit))
  {
    WalkOnlySetsStatus(DocsOf(l, side), party, credit);
  }
}
