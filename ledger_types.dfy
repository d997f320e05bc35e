/**
 * The rows of the Django ledger: the universal transaction journal and the
 * documents (sales, purchases, payments, loans, expenses) that point at one journal entry each.
 */
module LedgerTypes {
  import opened Common

  /** The seventeen kinds of journal entry. */
  datatype Kind =
    | Sale | Purchase | PaymentReceived | PaymentMade | LoanGiven | LoanReceived
    | LoanRepaymentMade | LoanRepaymentReceived | Expense | Withdrawal | OwnerDeposit
    | ReturnSale | ReturnPurchase | Refund | SaleAdjustment | PurchaseAdjustment | Misc

  /** The stored code of each kind. */
  function KindCode(k: Kind): string
  {
    match k
    case Sale => "sale"
    case Purchase => "purchase"
    case PaymentReceived => "payment_received"
    case PaymentMade => "payment_made"
    case LoanGiven => "loan_given"
    case LoanReceived => "loan_received"
    case LoanRepaymentMade => "loan_repayment_made"
    case LoanRepaymentReceived => "loan_repayment_received"
    case Expense => "expense"
    case Withdrawal => "withdrawal"
    case OwnerDeposit => "owner_deposit"
    case ReturnSale => "return_sale"
    case ReturnPurchase => "return_purchase"
    case Refund => "refund"
    case SaleAdjustment => "sale_adjustment"
    case PurchaseAdjustment => "purchase_adjustment"
    case Misc => "misc"
  }

  /** Reads a stored code back; only the seventeen declared codes are accepted. */
  function ParseKind(code: string): (k: Option<Kind>)
    ensures k.Some? ==> KindCode(k.value) == code
  {
    if code == "sale" then Some(Sale)
    else if code == "purchase" then Some(Purchase)
    else if code == "payment_received" then Some(PaymentReceived)
    else if code == "payment_made" then Some(PaymentMade)
    else if code == "loan_given" then Some(LoanGiven)
    else if code == "loan_received" then Some(LoanReceived)
    else if code == "loan_repayment_made" then Some(LoanRepaymentMade)
    else if code == "loan_repayment_received" then Some(LoanRepaymentReceived)
    else if code == "expense" then Some(Expense)
    else if code == "withdrawal" then Some(Withdrawal)
    else if code == "owner_deposit" then Some(OwnerDeposit)
    else if code == "return_sale" then Some(ReturnSale)
    else if code == "return_purchase" then Some(ReturnPurchase)
    else if code == "refund" then Some(Refund)
    else if code == "sale_adjustment" then Some(SaleAdjustment)
    else if code == "purchase_adjustment" then Some(PurchaseAdjustment)
    else if code == "misc" then Some(Misc)
    else None
  }

  /** Every kind's code reads back as that kind, so the seventeen codes are pairwise distinct. */
  lemma KindCodeRoundTrip(k: Kind)
    ensures ParseKind(KindCode(k)) == Some(k)
  {
  }

  /** A code is rejected exactly when no kind has it. */
  lemma ParseKindRejects(code: string)
    ensures ParseKind(code).None? <==> forall k: Kind :: KindCode(k) != code
  {
    if ParseKind(code).None? {
      forall k: Kind ensures KindCode(k) != code {
        KindCodeRoundTrip(k);
      }
    }
  }

  /** Who a journal entry concerns. */
  datatype PartyType = CustomerParty | SupplierParty | OwnerParty | NoParty

  function PartyCode(p: PartyType): string
  {
    match p
    case CustomerParty => "customer"
    case SupplierParty => "supplier"
    case OwnerParty => "owner"
    case NoParty => "none"
  }

  function ParsePartyType(code: string): (p: Option<PartyType>)
    ensures p.Some? ==> PartyCode(p.value) == code
  {
    if code == "customer" then Some(CustomerParty)
    else if code == "supplier" then Some(SupplierParty)
    else if code == "owner" then Some(OwnerParty)
    else if code == "none" then Some(NoParty)
    else None
  }

  lemma PartyCodeRoundTrip(p: PartyType)
    ensures ParsePartyType(PartyCode(p)) == Some(p)
  {
  }

  /** An entry created without a party says "none". */
  const DefaultPartyType: PartyType := NoParty

  /** The default rate stored when none is given: one base unit per entered unit. */
  const DefaultRate: real := 1.0

  /**
   * One journal entry. `createdAt` is the request stamp (or the caller's sale date);
   * the journal's default order is newest first.
   */
  datatype Entry = Entry(
    kind: Kind,
    partyType: PartyType,
    partyId: Option<nat>,
    enteredAmount: real,
    enteredCurrency: string,
    rateToBase: real,
    amountBase: real,
    createdAt: nat)

  /** An entry's creation stamp, the key of the newest-first listings. */
  function Stamp(e: Entry): real
  {
    e.createdAt as real
  }

  /** Stamps never increase along a sequence of entries. */
  predicate StampsDescend(entries: seq<Entry>)
  {
    forall i, j :: 0 <= i < j < |entries| ==> entries[i].createdAt >= entries[j].createdAt
  }

  datatype DocStatus = Unpaid | Partial | Paid

  function StatusCode(s: DocStatus): string
  {
    match s
    case Unpaid => "unpaid"
    case Partial => "partial"
    case Paid => "paid"
  }

  /** The status a document gets when the request names none. */
  const DefaultStatus: DocStatus := Unpaid

  /**
   * A sale (party = customer) or a purchase (party = supplier) header; the two tables have the
   * same columns. `tx` is the index of the one journal entry it belongs to.
   */
  datatype Document = Document(
    tx: nat,
    party: nat,
    totalEntered: real,
    currency: string,
    rateToBase: real,
    totalBase: real,
    status: DocStatus,
    createdAt: nat)

  /** One line of a sale or a purchase; `doc` is the index of its header. */
  datatype LineItem = LineItem(
    doc: nat,
    product: nat,
    quantity: real,
    unitPriceEntered: real,
    currency: string,
    unitPriceBase: real)

  /** A payment received from a customer or made to a supplier. */
  datatype PaymentRecord = PaymentRecord(
    tx: nat,
    partyType: PartyType,
    partyId: nat,
    enteredAmount: real,
    enteredCurrency: string,
    rateToBase: real,
    amountBase: real,
    payMethod: string,
    createdAt: nat)

  datatype LoanStatus = Active | Closed

  /** A loan given to a customer or a supplier. */
  datatype LoanRecord = LoanRecord(
    tx: nat,
    partyType: PartyType,
    partyId: nat,
    enteredAmount: real,
    enteredCurrency: string,
    rateToBase: real,
    amountBase: real,
    status: LoanStatus)

  /** A business expense. */
  datatype ExpenseRecord = ExpenseRecord(
    tx: nat,
    category: string,
    enteredAmount: real,
    enteredCurrency: string,
    rateToBase: real,
    amountBase: real,
    createdAt: nat)

  /** A sale is a return when its journal entry is a sale return. */
  predicate IsReturn(entryKind: Kind)
  {
    entryKind == ReturnSale
  }

  /** The sale's type as shown to users: "return", "sale" or, for anything else, "adjustment". */
  function SaleType(entryKind: Kind): (t: string)
    ensures t == "return" <==> IsReturn(entryKind)
    ensures t == "sale" <==> entryKind == Sale
    ensures t == "adjustment" <==> entryKind != Sale && entryKind != ReturnSale
  {
    if entryKind == ReturnSale then "return"
    else if entryKind == Sale then "sale"
    else "adjustment"
  }

  /**
   * The label and the amount a sale is displayed with: "Return" or "Sale", and the magnitude of
   * its base total, so a return (stored negative) shows a positive amount.
   */
  function SaleCaption(doc: Document, entryKind: Kind): (c: (string, real))
    ensures c.1 >= 0.0 && (c.1 == doc.totalBase || c.1 == -doc.totalBase)
    ensures c.0 == "Return" <==> IsReturn(entryKind)
    ensures c.0 == "Sale" <==> !IsReturn(entryKind)
    ensures IsReturn(entryKind) && doc.totalBase <= 0.0 ==> c.1 == -doc.totalBase
  {
    (if IsReturn(entryKind) then "Return" else "Sale", Abs(doc.totalBase))
  }
}
