/**
 * The loan views: giving a loan to a customer or a supplier, and recording a repayment against
 * it. A loan is active until a single repayment covers its base amount, then closed for good.
 */
module Loans {
  import opened Common
  import opened Rates
  import opened LedgerTypes
  import opened LedgerStore

  /** A request to give a loan; `partyType` is the request's party code. */
  datatype LoanRequest = LoanRequest(partyType: string, party: nat, currency: string, amount: real)

  /** A request to repay loan `loanId`. */
  datatype RepayRequest = RepayRequest(loanId: nat, currency: string, amount: real)

  /** The side whose party table a party code names: only customers and suppliers take loans. */
  function LoanSide(code: string): (side: Option<Side>)
    ensures side == Some(Selling) <==> code == PartyCode(CustomerParty)
    ensures side == Some(Buying) <==> code == PartyCode(SupplierParty)
  {
    if code == "customer" then Some(Selling)
    else if code == "supplier" then Some(Buying)
    else None
  }

  /** The ledger with one entry and one loan appended. */
  function WithLoan(l: Ledger, entry: Entry, loan: LoanRecord): Ledger
  {
    l.(journal := l.journal + [entry], loans := l.loans + [loan], clock := l.clock + 1)
  }

  /**
   * The outcome of giving a loan: the currency is checked first (400), then the party code (400
   * unless customer or supplier) and the party (404), then the amount (400 unless positive);
   * an accepted loan appends a loan-given entry and an active loan with the same amounts.
   */
  function GiveLoan(dir: Directory, l: Ledger, req: LoanRequest): (Ledger, Response)
  {
    if !ValidCurrency(dir.currencies, req.currency) then (l, BadRequest(InvalidCurrency(req.currency)))
    else if LoanSide(req.partyType).None? then (l, BadRequest("Invalid party type"))
    else if req.party !in Parties(dir, LoanSide(req.partyType).value) then (l, NotFound("Party not found"))
    else if req.amount <= 0.0 then (l, BadRequest("Loan amount must be positive"))
    else
      var partyType := PartyOf(LoanSide(req.partyType).value);
      var conv := Convert(dir.rates, req.amount, req.currency, Base);
      var entry := Entry(LoanGiven, partyType, Some(req.party), req.amount, req.currency, conv.1, conv.0, l.clock);
      var loan := LoanRecord(|l.journal|, partyType, req.party, req.amount, req.currency, conv.1, conv.0, Active);
      (WithLoan(l, entry, loan), Created(LoanRecorded(|l.loans|, |l.journal|, req.amount, conv.0, conv.1)))
  }

  /** A repayment of a loan that was given is received; of any other loan, made. */
  function RepaymentKind(l: Ledger, loan: LoanRecord): (k: Kind)
    ensures k == LoanRepaymentReceived || k == LoanRepaymentMade
    ensures k == LoanRepaymentReceived <==> loan.tx < |l.journal| && l.journal[loan.tx].kind == LoanGiven
  {
    if loan.tx < |l.journal| && l.journal[loan.tx].kind == LoanGiven then LoanRepaymentReceived
    else LoanRepaymentMade
  }

  /** The loan's status after a repayment of `paidBase`: closed when that one repayment covers the loan. */
  function AfterRepayment(loan: LoanRecord, paidBase: real): LoanStatus
  {
    if paidBase >= loan.amountBase then Closed else loan.status
  }

  /** The ledger with a repayment's entry appended and loan `i`'s status set. */
  function WithRepayment(l: Ledger, i: nat, entry: Entry, status: LoanStatus): Ledger
    requires i < |l.loans|
  {
    l.(journal := l.journal + [entry], loans := l.loans[i := l.loans[i].(status := status)], clock := l.clock + 1)
  }

  /**
   * The outcome of a repayment: an unknown loan is a 404; a closed loan is a 400 before anything
   * else is looked at; then the currency and the amount are checked (400). An accepted repayment
   * appends an entry for the loan's party and closes the loan when its base covers the loan's.
   */
  function RepayLoan(dir: Directory, l: Ledger, req: RepayRequest): (Ledger, Response)
  {
    if req.loanId >= |l.loans| then (l, NotFound("Loan not found"))
    else
      var loan := l.loans[req.loanId];
      if loan.status == Closed then (l, BadRequest("Loan is already closed"))
      else if !ValidCurrency(dir.currencies, req.currency) then (l, BadRequest(InvalidCurrency(req.currency)))
      else if req.amount <= 0.0 then (l, BadRequest("Repayment amount must be positive"))
      else
        var conv := Convert(dir.rates, req.amount, req.currency, Base);
        var entry := Entry(RepaymentKind(l, loan), loan.partyType, Some(loan.partyId), req.amount, req.currency, conv.1, conv.0, l.clock);
        var status := AfterRepayment(loan, conv.0);
        (WithRepayment(l, req.loanId, entry, status), Created(RepaymentRecorded(|l.journal|, status, req.amount, conv.0, conv.1)))
  }

  /**
   * Which checks decide a loan request: a 404 only for an unknown party of a valid type, a 201
   * exactly when every check passes; a rejected request writes nothing.
   */
  lemma GiveLoanOutcome(dir: Directory, l: Ledger, req: LoanRequest)
    ensures var (l', resp) := GiveLoan(dir, l, req);
      var known := LoanSide(req.partyType).Some? && req.party in Parties(dir, LoanSide(req.partyType).value);
      && (resp.NotFound? <==> ValidCurrency(dir.currencies, req.currency) && LoanSide(req.partyType).Some? && !known)
      && (resp.Created? <==> ValidCurrency(dir.currencies, req.currency) && known && req.amount > 0.0)
      && (req.partyType != "customer" && req.partyType != "supplier" ==> resp.BadRequest?)
      && (req.amount <= 0.0 ==> Rejected(resp))
      && (Rejected(resp) ==> l' == l)
  {
  }

  /**
   * A new loan is active and mirrors its loan-given entry: same party, amounts, currency and
   * rate, the base being the entered amount converted at the latest rate; nothing else changes.
   */
  lemma NewLoanMirrorsEntry(dir: Directory, l: Ledger, req: LoanRequest)
    requires GiveLoan(dir, l, req).1.Created?
    ensures var l' := GiveLoan(dir, l, req).0;
      var loan := l'.loans[|l.loans|];
      var entry := l'.journal[|l.journal|];
      var conv := Convert(dir.rates, req.amount, req.currency, Base);
      && |l'.loans| == |l.loans| + 1 && l'.loans[..|l.loans|] == l.loans
      && |l'.journal| == |l.journal| + 1 && l'.journal[..|l.journal|] == l.journal
      && loan.status == Active && loan.tx == |l.journal| && entry.kind == LoanGiven
      && (loan.partyType == CustomerParty || loan.partyType == SupplierParty)
      && entry.partyType == loan.partyType && entry.partyId == Some(loan.partyId) && loan.partyId == req.party
      && entry.enteredAmount == loan.enteredAmount == req.amount > 0.0
      && entry.enteredCurrency == loan.enteredCurrency == req.currency
      && entry.rateToBase == loan.rateToBase == conv.1
      && entry.amountBase == loan.amountBase == conv.0
      && l'.sales == l.sales && l'.purchases == l.purchases && l'.payments == l.payments && l'.expenses == l.expenses
  {
  }

  /**
   * Which checks decide a repayment: a 404 exactly for an unknown loan, a 400 for a closed loan
   * whatever the currency and amount, a 201 exactly when the loan is active and the currency and
   * amount pass; a rejected request writes nothing.
   */
  lemma RepayLoanOutcome(dir: Directory, l: Ledger, req: RepayRequest)
    ensures var (l', resp) := RepayLoan(dir, l, req);
      && (resp.NotFound? <==> req.loanId >= |l.loans|)
      && (req.loanId < |l.loans| && l.loans[req.loanId].status == Closed ==> resp == BadRequest("Loan is already closed"))
      && (resp.Created? <==> req.loanId < |l.loans| && l.loans[req.loanId].status == Active &&
                             ValidCurrency(dir.currencies, req.currency) && req.amount > 0.0)
      && (Rejected(resp) ==> l' == l)
  {
  }

  /**
   * An accepted repayment journals the repaid amount for the loan's own party, with a kind that
   * follows the loan's original entry, and closes the loan exactly when this one repayment's
   * base amount reaches the loan's; the loan's amounts never change, nor does any other loan.
   */
  lemma RepaymentFollowsLoan(dir: Directory, l: Ledger, req: RepayRequest)
    requires RepayLoan(dir, l, req).1.Created?
    ensures req.loanId < |l.loans|
    ensures var (l', resp) := RepayLoan(dir, l, req);
      var loan := l.loans[req.loanId];
      var entry := l'.journal[|l.journal|];
      var conv := Convert(dir.rates, req.amount, req.currency, Base);
      && |l'.journal| == |l.journal| + 1 && l'.journal[..|l.journal|] == l.journal
      && (loan.tx < |l.journal| && l.journal[loan.tx].kind == LoanGiven ==> entry.kind == LoanRepaymentReceived)
      && (loan.tx < |l.journal| && l.journal[loan.tx].kind != LoanGiven ==> entry.kind == LoanRepaymentMade)
      && entry.partyType == loan.partyType && entry.partyId == Some(loan.partyId)
      && entry.enteredAmount == req.amount && entry.amountBase == conv.0 && entry.rateToBase == conv.1
      && |l'.loans| == |l.loans|
      && l'.loans[req.loanId] == loan.(status := l'.loans[req.loanId].status)
      && (l'.loans[req.loanId].status == Closed <==> conv.0 >= loan.amountBase)
      && resp.body.loanStatus == l'.loans[req.loanId].status
      && (forall j :: 0 <= j < |l.loans| && j != req.loanId ==> l'.loans[j] == l.loans[j])
      && l'.sales == l.sales && l'.purchases == l.purchases && l'.payments == l.payments && l'.expenses == l.expenses
  {
  }

  /**
   * Loan status moves one way: after either loan view, every loan keeps its amounts and party,
   * a closed loan is still closed, and no loan disappears.
   */
  lemma LoansOnlyClose(dir: Directory, l: Ledger, give: LoanRequest, repay: RepayRequest)
    ensures var l' := GiveLoan(dir, l, give).0;
      && |l'.loans| >= |l.loans|
      && forall j :: 0 <= j < |l.loans| ==> l'.loans[j] == l.loans[j]
    ensures var l' := RepayLoan(dir, l, repay).0;
      && |l'.loans| == |l.loans|
      && (forall j :: 0 <= j < |l.loans| ==> l'.loans[j] == l.loans[j].(status := l'.loans[j].status))
      && (forall j :: 0 <= j < |l.loans| && l.loans[j].status == Closed ==> l'.loans[j].status == Closed)
  {
  }

  /**
   * Repayments do not accumulate: a 100 AFN loan repaid twice with 60 AFN is still active,
   * although 120 AFN has been repaid.
   */
  lemma PartialRepaymentsNeverClose(dir: Directory)
    requires Base in dir.currencies
    ensures var entry := Entry(LoanGiven, CustomerParty, Some(1), 100.0, Base, 1.0, 100.0, 0);
      var loan := LoanRecord(0, CustomerParty, 1, 100.0, Base, 1.0, 100.0, Active);
      var l0 := EmptyLedger.(journal := [entry], loans := [loan], clock := 1);
      var (l1, r1) := RepayLoan(dir, l0, RepayRequest(0, Base, 60.0));
      var (l2, r2) := RepayLoan(dir, l1, RepayRequest(0, Base, 60.0));
      && r1.Created? && r2.Created?
      && r1.body.amountBase + r2.body.amountBase == 120.0
      && l2.loans[0].status == Active
  {
    var entry := Entry(LoanGiven, CustomerParty, Some(1), 100.0, Base, 1.0, 100.0, 0);
    var loan := LoanRecord(0, CustomerParty, 1, 100.0, Base, 1.0, 100.0, Active);
    var l0 := EmptyLedger.(journal := [entry], loans := [loan], clock := 1);
    assert Convert(dir.rates, 60.0, Base, Base) == (60.0, 1.0);
    var l1 := RepayLoan(dir, l0, RepayRequest(0, Base, 60.0)).0;
    assert l1.loans[0] == loan;
  }

  /** Appending a loan for a fresh journal entry keeps the ledger linked. */
  lemma WithLoanKeepsLinks(l: Ledger, entry: Entry, loan: LoanRecord)
    requires Linked(l) && loan.tx == |l.journal|
    ensures Linked(WithLoan(l, entry, loan))
  {
    var l' := WithLoan(l, entry, loan);
    assert forall j :: 0 <= j < |l.loans| ==> l'.loans[j] == l.loans[j];
  }

  /** Recording a repayment keeps the ledger linked: it only appends an entry and sets a status. */
  lemma WithRepaymentKeepsLinks(l: Ledger, i: nat, entry: Entry, status: LoanStatus)
    requires Linked(l) && i < |l.loans|
    ensures Linked(WithRepayment(l, i, entry, status))
  {
    var l' := WithRepayment(l, i, entry, status);
    assert forall j :: 0 <= j < |l.loans| ==> l'.loans[j].tx == l.loans[j].tx;
    assert DocsLinked(l'.sales, |l'.journal|, l'.clock);
    assert DocsLinked(l'.purchases, |l'.journal|, l'.clock);
  }

  method AppendLoan(s: Store, entry: Entry, loan: LoanRecord)
    modifies s
    ensures s.State() == WithLoan(old(s.State()), entry, loan)
  {
    s.journal := s.journal + [entry];
    s.loans := s.loans + [loan];
    s.clock := s.clock + 1;
  }

  /** The give-loan view. */
  method GiveLoanView(s: Store, req: LoanRequest) returns (resp: Response)
    requires s.Valid()
    modifies s
    ensures s.Valid()
    ensures (s.State(), resp) == GiveLoan(s.dir, old(s.State()), req)
  {
    if req.currency !in s.dir.currencies {
      return BadRequest(InvalidCurrency(req.currency));
    }
    var side: Side;
    if req.partyType == "customer" {
      side := Selling;
    } else if req.partyType == "supplier" {
      side := Buying;
    } else {
      return BadRequest("Invalid party type");
    }
    if req.party !in Parties(s.dir, side) {
      return NotFound("Party not found");
    }
    if req.amount <= 0.0 {
      return BadRequest("Loan amount must be positive");
    }
    var conv := Convert(s.dir.rates, req.amount, req.currency, Base);
    var txId := |s.journal|;
    var loanId := |s.loans|;
    var entry := Entry(LoanGiven, PartyOf(side), Some(req.party), req.amount, req.currency, conv.1, conv.0, s.clock);
    var loan := LoanRecord(txId, PartyOf(side), req.party, req.amount, req.currency, conv.1, conv.0, Active);
    WithLoanKeepsLinks(s.State(), entry, loan);
    AppendLoan(s, entry, loan);
    resp := Created(LoanRecorded(loanId, txId, req.amount, conv.0, conv.1));
  }

  /** The repay-loan view. */
  method RepayLoanView(s: Store, req: RepayRequest) returns (resp: Response)
    requires s.Valid()
    modifies s
    ensures s.Valid()
    ensures (s.State(), resp) == RepayLoan(s.dir, old(s.State()), req)
  {
    if req.loanId >= |s.loans| {
      return NotFound("Loan not found");
    }
    var loan := s.loans[req.loanId];
    if loan.status == Closed {
      return BadRequest("Loan is already closed");
    }
    if req.currency !in s.dir.currencies {
      return BadRequest(InvalidCurrency(req.currency));
    }
    if req.amount <= 0.0 {
      return BadRequest("Repayment amount must be positive");
    }
    var conv := Convert(s.dir.rates, req.amount, req.currency, Base);
    var kind := if loan.tx < |s.journal| && s.journal[loan.tx].kind == LoanGiven then LoanRepaymentReceived else LoanRepaymentMade;
    var txId := |s.journal|;
    var entry := Entry(kind, loan.partyType, Some(loan.partyId), req.amount, req.currency, conv.1, conv.0, s.clock);
    var status := if conv.0 >= loan.amountBase then Closed else loan.status;
    WithRepaymentKeepsLinks(s.State(), req.loanId, entry, status);
    ApplyRepayment(s, req.loanId, entry, status);
    resp := Created(RepaymentRecorded(txId, status, req.amount, conv.0, conv.1));
  }

  /** Appends the repayment's entry, then saves the loan's (possibly closed) status in place. */
  method ApplyRepayment(s: Store, i: nat, entry: Entry, status: LoanStatus)
    requires i < |s.loans|
    modifies s
    ensures s.State() == WithRepayment(old(s.State()), i, entry, status)
  {
    s.journal := s.journal + [entry];
    s.clock := s.clock + 1;
    s.loans := s.loans[i := s.loans[i].(status := status)];
  }
}
