/**
 * The Django ledger's database: the directory tables the core only reads (currencies, parties,
 * products, exchange rates) and the tables its views append to or update.
 */
module LedgerStore {
  import opened Common
  import opened Rates
  import opened LedgerTypes

  /** The tables the core reads but never writes. */
  datatype Directory = Directory(
    currencies: set<string>,
    customers: seq<nat>,
    suppliers: seq<nat>,
    products: set<nat>,
    rates: seq<ExchangeRate>)

  /**
   * The tables the core writes, as one value. Row ids are positions in their table; `clock` is
   * the stamp the next request gives the rows it creates, so `created_at` order is table order.
   */
  datatype Ledger = Ledger(
    journal: seq<Entry>,
    sales: seq<Document>,
    saleItems: seq<LineItem>,
    purchases: seq<Document>,
    purchaseItems: seq<LineItem>,
    payments: seq<PaymentRecord>,
    loans: seq<LoanRecord>,
    expenses: seq<ExpenseRecord>,
    clock: nat)

  /** The body of a successful response. */
  datatype Body =
    | SaleCreated(saleId: nat, txId: nat, totalEntered: real, totalBase: real, rate: real,
                  currency: string, status: DocStatus, itemsCount: nat)
    | PurchaseCreated(purchaseId: nat, txId: nat, totalEntered: real, totalBase: real, rate: real)
    | ReturnCreated(returnId: nat, txId: nat, totalReturned: real, returnedBase: real, rate: real)
    | PaymentRecorded(paymentId: nat, txId: nat, amountEntered: real, amountBase: real, rate: real,
                      partyBalance: real)
    | Adjusted(adjustmentTx: nat, adjustment: real, newTotal: real)
    | ReturnAdjusted(adjustmentTx: nat, adjustment: real, newReturnAmount: real, returnIncreased: bool)
    | SaleRecorded(saleId: nat, txId: nat, total: real)
    | SaleRevised(saleId: nat, adjustmentTx: nat, adjustment: real, newTotal: real)
    | NoChange
    | LoanRecorded(loanId: nat, txId: nat, amountEntered: real, amountBase: real, rate: real)
    | RepaymentRecorded(txId: nat, loanStatus: LoanStatus, amountEntered: real, amountBase: real, rate: real)
    | ExpenseRecorded(expenseId: nat, txId: nat, category: string, amountEntered: real, amountBase: real, rate: real)
    | OwnerEntryRecorded(txId: nat, amountEntered: real, amountBase: real, rate: real)

  /** The HTTP answer of a view: 201, 200, 400 or 404. */
  datatype Response =
    | Created(body: Body)
    | Ok(body: Body)
    | BadRequest(error: string)
    | NotFound(error: string)

  predicate Rejected(r: Response)
  {
    r.BadRequest? || r.NotFound?
  }

  /** The sales module (documents against customers) or the purchases module (against suppliers). */
  datatype Side = Selling | Buying

  function Parties(dir: Directory, side: Side): seq<nat>
  {
    if side == Selling then dir.customers else dir.suppliers
  }

  function MissingParty(side: Side): string
  {
    if side == Selling then "Customer not found" else "Supplier not found"
  }

  function PartyOf(side: Side): PartyType
  {
    if side == Selling then CustomerParty else SupplierParty
  }

  function DocsOf(l: Ledger, side: Side): seq<Document>
  {
    if side == Selling then l.sales else l.purchases
  }

  function ItemsOf(l: Ledger, side: Side): seq<LineItem>
  {
    if side == Selling then l.saleItems else l.purchaseItems
  }

  /** The ledger with one side's headers and lines replaced. */
  function WithDocs(l: Ledger, side: Side, docs: seq<Document>, items: seq<LineItem>): Ledger
  {
    if side == Selling then l.(sales := docs, saleItems := items)
    else l.(purchases := docs, purchaseItems := items)
  }

  function InvalidCurrency(code: string): string
  {
    "Invalid currency: " + code
  }

  /** Every header points at an existing journal entry of its own, and headers are in creation order. */
  predicate DocsLinked(docs: seq<Document>, entries: nat, clock: nat)
  {
    && (forall i :: 0 <= i < |docs| ==> docs[i].tx < entries && docs[i].createdAt < clock)
    && (forall i, j :: 0 <= i < j < |docs| ==> docs[i].tx != docs[j].tx && docs[i].createdAt <= docs[j].createdAt)
  }

  predicate ItemsLinked(items: seq<LineItem>, docs: nat)
  {
    forall i :: 0 <= i < |items| ==> items[i].doc < docs
  }

  predicate PaymentsLinked(payments: seq<PaymentRecord>, entries: nat, clock: nat)
  {
    && (forall i :: 0 <= i < |payments| ==> payments[i].tx < entries && payments[i].createdAt < clock)
    && (forall i, j :: 0 <= i < j < |payments| ==> payments[i].tx != payments[j].tx)
  }

  predicate LoansLinked(loans: seq<LoanRecord>, entries: nat)
  {
    && (forall i :: 0 <= i < |loans| ==> loans[i].tx < entries)
    && (forall i, j :: 0 <= i < j < |loans| ==> loans[i].tx != loans[j].tx)
  }

  predicate ExpensesLinked(expenses: seq<ExpenseRecord>, entries: nat)
  {
    && (forall i :: 0 <= i < |expenses| ==> expenses[i].tx < entries)
    && (forall i, j :: 0 <= i < j < |expenses| ==> expenses[i].tx != expenses[j].tx)
  }

  /**
   * The referential integrity of the ledger: one-to-one links from documents to journal
   * entries, item-to-header links, and creation stamps below the clock.
   */
  predicate Linked(l: Ledger)
  {
    && DocsLinked(l.sales, |l.journal|, l.clock)
    && DocsLinked(l.purchases, |l.journal|, l.clock)
    && ItemsLinked(l.saleItems, |l.sales|)
    && ItemsLinked(l.purchaseItems, |l.purchases|)
    && PaymentsLinked(l.payments, |l.journal|, l.clock)
    && LoansLinked(l.loans, |l.journal|)
    && ExpensesLinked(l.expenses, |l.journal|)
  }

  const EmptyLedger: Ledger := Ledger([], [], [], [], [], [], [], [], 0)

  /** The database the views run against. */
  class Store {
    const dir: Directory
    var journal: seq<Entry>
    var sales: seq<Document>
    var saleItems: seq<LineItem>
    var purchases: seq<Document>
    var purchaseItems: seq<LineItem>
    var payments: seq<PaymentRecord>
    var loans: seq<LoanRecord>
    var expenses: seq<ExpenseRecord>
    var clock: nat

    /** The written tables as one value. */
    function State(): Ledger
      reads this
    {
      Ledger(journal, sales, saleItems, purchases, purchaseItems, payments, loans, expenses, clock)
    }

    ghost predicate Valid()
      reads this
    {
      Linked(State())
    }

    constructor(dir: Directory)
      ensures this.dir == dir
      ensures State() == EmptyLedger
      ensures Valid()
    {
      this.dir := dir;
      journal := [];
      sales := [];
      saleItems := [];
      purchases := [];
      purchaseItems := [];
      payments := [];
      loans := [];
      expenses := [];
      clock := 0;
    }
  }
}
