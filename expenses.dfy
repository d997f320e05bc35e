/**
 * The expense views: a business expense (a journal entry plus an expense row), and the owner's
 * withdrawals and deposits (a journal entry only).
 */
module Expenses {
  import opened Common
  import opened Rates
  import opened LedgerTypes
  import opened LedgerStore

  /** The expense categories an expense may be booked under. */
  const ExpenseCategories: set<string> := {"transport", "commission", "rent", "salary", "misc"}

  datatype ExpenseRequest = ExpenseRequest(category: string, currency: string, amount: real)

  /** A withdrawal or deposit request. */
  datatype OwnerRequest = OwnerRequest(currency: string, amount: real)

  /** The owner's two movements of money. */
  datatype OwnerMove = Withdraw | Deposit

  function OwnerKind(move: OwnerMove): Kind
  {
    if move == Withdraw then Withdrawal else OwnerDeposit
  }

  function NonPositiveAmount(move: OwnerMove): string
  {
    if move == Withdraw then "Withdrawal amount must be positive" else "Deposit amount must be positive"
  }

  /**
   * The outcome of an expense: the currency, then the category, then the amount are checked
   * (400 each); an accepted expense appends a partyless expense entry and an expense row with
   * the same amounts.
   */
  function CreateExpense(dir: Directory, l: Ledger, req: ExpenseRequest): (Ledger, Response)
  {
    if !ValidCurrency(dir.currencies, req.currency) then (l, BadRequest(InvalidCurrency(req.currency)))
    else if req.category !in ExpenseCategories then (l, BadRequest("Invalid expense category: " + req.category))
    else if req.amount <= 0.0 then (l, BadRequest("Expense amount must be positive"))
    else
      var conv := Convert(dir.rates, req.amount, req.currency, Base);
      var entry := Entry(Expense, NoParty, None, req.amount, req.currency, conv.1, conv.0, l.clock);
      var expense := ExpenseRecord(|l.journal|, req.category, req.amount, req.currency, conv.1, conv.0, l.clock);
      (l.(journal := l.journal + [entry], expenses := l.expenses + [expense], clock := l.clock + 1),
       Created(ExpenseRecorded(|l.expenses|, |l.journal|, req.category, req.amount, conv.0, conv.1)))
  }

  /**
   * The outcome of a withdrawal or a deposit: the currency and the amount are checked (400);
   * an accepted one appends a single owner entry and nothing else.
   */
  function RecordOwnerMove(dir: Directory, l: Ledger, move: OwnerMove, req: OwnerRequest): (Ledger, Response)
  {
    if !ValidCurrency(dir.currencies, req.currency) then (l, BadRequest(InvalidCurrency(req.currency)))
    else if req.amount <= 0.0 then (l, BadRequest(NonPositiveAmount(move)))
    else
      var conv := Convert(dir.rates, req.amount, req.currency, Base);
      var entry := Entry(OwnerKind(move), OwnerParty, None, req.amount, req.currency, conv.1, conv.0, l.clock);
      (l.(journal := l.journal + [entry], clock := l.clock + 1),
       Created(OwnerEntryRecorded(|l.journal|, req.amount, conv.0, conv.1)))
  }

  /**
   * An expense is accepted exactly when the currency is known, the category is one of the five
   * and the amount is positive; a rejected one writes nothing. An accepted one appends one entry
   * and one expense row mirroring it, at the latest rate, and touches no other table.
   */
  lemma ExpenseMirrorsEntry(dir: Directory, l: Ledger, req: ExpenseRequest)
    ensures var (l', resp) := CreateExpense(dir, l, req);
      && (resp.Created? <==> ValidCurrency(dir.currencies, req.currency) && req.category in ExpenseCategories && req.amount > 0.0)
      && (!resp.Created? ==> resp.BadRequest? && l' == l)
    ensures var (l', resp) := CreateExpense(dir, l, req);
      resp.Created? ==>
        var conv := Convert(dir.rates, req.amount, req.currency, Base);
        var entry := l'.journal[|l.journal|];
        var expense := l'.expenses[|l.expenses|];
        && |l'.journal| == |l.journal| + 1 && |l'.expenses| == |l.expenses| + 1
        && l'.journal[..|l.journal|] == l.journal && l'.expenses[..|l.expenses|] == l.expenses
        && entry.kind == Expense && entry.partyType == NoParty && entry.partyId.None?
        && expense.tx == |l.journal| && expense.category == req.category && expense.createdAt == entry.createdAt == l.clock
        && expense.enteredAmount == entry.enteredAmount == req.amount
        && expense.enteredCurrency == entry.enteredCurrency == req.currency
        && expense.rateToBase == entry.rateToBase == LatestRate(dir.rates, req.currency, Base)
        && expense.amountBase == entry.amountBase == conv.0
        && l'.sales == l.sales && l'.purchases == l.purchases && l'.payments == l.payments && l'.loans == l.loans
  {
    if CreateExpense(dir, l, req).1.Created? {
      var l' := CreateExpense(dir, l, req).0;
      assert l'.journal[..|l.journal|] == l.journal;
      assert l'.expenses[..|l.expenses|] == l.expenses;
    }
  }

  /**
   * A withdrawal or a deposit is accepted exactly when the currency is known and the amount is
   * positive; it writes exactly one entry of its own kind for the owner, and no document.
   */
  lemma OwnerMoveIsOneEntry(dir: Directory, l: Ledger, move: OwnerMove, req: OwnerRequest)
    ensures var (l', resp) := RecordOwnerMove(dir, l, move, req);
      && (resp.Created? <==> ValidCurrency(dir.currencies, req.currency) && req.amount > 0.0)
      && (!resp.Created? ==> resp.BadRequest? && l' == l)
    ensures var (l', resp) := RecordOwnerMove(dir, l, move, req);
      resp.Created? ==>
        var entry := l'.journal[|l.journal|];
        && l' == l.(journal := l.journal + [entry], clock := l.clock + 1)
        && entry.kind == (if move == Withdraw then Withdrawal else OwnerDeposit)
        && entry.partyType == OwnerParty
        && entry.enteredAmount == req.amount > 0.0
        && entry.amountBase == Convert(dir.rates, req.amount, req.currency, Base).0
  {
  }

  /** Every base amount these views store is the entered amount times the rate stored beside it. */
  lemma StoredBaseIsRated(dir: Directory, l: Ledger, req: ExpenseRequest, move: OwnerMove, owner: OwnerRequest)
    ensures var (l', resp) := CreateExpense(dir, l, req);
      resp.Created? ==> l'.journal[|l.journal|].amountBase == req.amount * l'.journal[|l.journal|].rateToBase
    ensures var (l', resp) := RecordOwnerMove(dir, l, move, owner);
      resp.Created? ==> l'.journal[|l.journal|].amountBase == owner.amount * l'.journal[|l.journal|].rateToBase
  {
    ConvertScales(dir.rates, req.amount, req.currency, Base);
    ConvertScales(dir.rates, owner.amount, owner.currency, Base);
  }

  /** An expense keeps the ledger linked. */
  lemma ExpenseKeepsLinks(dir: Directory, l: Ledger, req: ExpenseRequest)
    requires Linked(l)
    ensures Linked(CreateExpense(dir, l, req).0)
  {
    var l' := CreateExpense(dir, l, req).0;
    assert forall j :: 0 <= j < |l.expenses| ==> l'.expenses[j] == l.expenses[j];
    assert DocsLinked(l'.sales, |l'.journal|, l'.clock);
    assert DocsLinked(l'.purchases, |l'.journal|, l'.clock);
  }

  /** A withdrawal or a deposit keeps the ledger linked. */
  lemma OwnerMoveKeepsLinks(dir: Directory, l: Ledger, move: OwnerMove, req: OwnerRequest)
    requires Linked(l)
    ensures Linked(RecordOwnerMove(dir, l, move, req).0)
  {
    var l' := RecordOwnerMove(dir, l, move, req).0;
    assert DocsLinked(l'.sales, |l'.journal|, l'.clock);
    assert DocsLinked(l'.purchases, |l'.journal|, l'.clock);
  }

  /** The create-expense view. */
  method CreateExpenseView(s: Store, req: ExpenseRequest) returns (resp: Response)
    requires s.Valid()
    modifies s
    ensures s.Valid()
    ensures (s.State(), resp) == CreateExpense(s.dir, old(s.State()), req)
  {
    ExpenseKeepsLinks(s.dir, s.State(), req);
    if req.currency !in s.dir.currencies {
      return BadRequest(InvalidCurrency(req.currency));
    }
    if req.category !in ExpenseCategories {
      return BadRequest("Invalid expense category: " + req.category);
    }
    if req.amount <= 0.0 {
      return BadRequest("Expense amount must be positive");
    }
    var conv := Convert(s.dir.rates, req.amount, req.currency, Base);
    var txId := |s.journal|;
    var expenseId := |s.expenses|;
    s.journal := s.journal + [Entry(Expense, NoParty, None, req.amount, req.currency, conv.1, conv.0, s.clock)];
    s.expenses := s.expenses + [ExpenseRecord(txId, req.category, req.amount, req.currency, conv.1, conv.0, s.clock)];
    s.clock := s.clock + 1;
    resp := Created(ExpenseRecorded(expenseId, txId, req.category, req.amount, conv.0, conv.1));
  }

  /** The withdrawal view (`Withdraw`) and the deposit view (`Deposit`). */
  method RecordOwnerMoveView(s: Store, move: OwnerMove, req: OwnerRequest) returns (resp: Response)
    requires s.Valid()
    modifies s
    ensures s.Valid()
    ensures (s.State(), resp) == RecordOwnerMove(s.dir, old(s.State()), move, req)
  {
    OwnerMoveKeepsLinks(s.dir, s.State(), move, req);
    if req.currency !in s.dir.currencies {
      return BadRequest(InvalidCurrency(req.currency));
    }
    if req.amount <= 0.0 {
      return BadRequest(NonPositiveAmount(move));
    }
    var conv := Convert(s.dir.rates, req.amount, req.currency, Base);
    var txId := |s.journal|;
    s.journal := s.journal + [Entry(OwnerKind(move), OwnerParty, None, req.amount, req.currency, conv.1, conv.0, s.clock)];
    s.clock := s.clock + 1;
    resp := Created(OwnerEntryRecorded(txId, req.amount, conv.0, conv.1));
  }
}
