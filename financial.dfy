/**
 * The financial service: the running-balance cash book and customer and supplier ledgers. A new
 * entry's balance-after is the current balance plus what comes in less what goes out, and the
 * current balance is the balance-after of the newest entry by (Date, Id).
 */
module Financial {
  import opened Common
  import opened Books

  function CashStamp(e: CashEntry): Stamp { e.stamp }
  function EntryStamp(e: PartyEntry): Stamp { e.stamp }
  function EveryCashEntry(e: CashEntry): bool { true }

  /** Selects the entries of one party. */
  function OfParty(party: int): PartyEntry -> bool
  {
    (e: PartyEntry) => e.party == party
  }

  /** The cash balance: the balance-after of the newest entry, or 0 when the book is empty. */
  function CashBalance(cash: seq<CashEntry>): (b: real)
    ensures cash == [] ==> b == 0.0
    ensures cash != [] ==>
      exists i :: 0 <= i < |cash| && b == cash[i].balanceAfter && forall j :: 0 <= j < |cash| ==> NotAfter(cash[j].stamp, cash[i].stamp)
  {
    match NewestWhere(cash, EveryCashEntry, CashStamp)
    case None => 0.0
    case Some(i) => cash[i].balanceAfter
  }

  /**
   * A party's balance: the balance-after of its newest entry; with no entry, its opening
   * balance; for an unknown party, 0.
   */
  function PartyBalance(entries: seq<PartyEntry>, parties: seq<Party>, party: int): (b: real)
    ensures (exists i :: 0 <= i < |entries| && entries[i].party == party) ==>
      exists i :: 0 <= i < |entries| && entries[i].party == party && b == entries[i].balanceAfter
        && forall j :: 0 <= j < |entries| && entries[j].party == party ==> NotAfter(entries[j].stamp, entries[i].stamp)
    ensures (forall i :: 0 <= i < |entries| ==> entries[i].party != party) ==>
      (forall j :: 0 <= j < |parties| && parties[j].id == party && (forall k :: 0 <= k < j ==> parties[k].id != party) ==>
         b == parties[j].openingBalance)
    ensures (forall i :: 0 <= i < |entries| ==> entries[i].party != party) && (forall j :: 0 <= j < |parties| ==> parties[j].id != party) ==>
      b == 0.0
  {
    match NewestWhere(entries, OfParty(party), EntryStamp)
    case Some(i) => entries[i].balanceAfter
    case None =>
      match FindBy(parties, PartyId, party)
      case None => 0.0
      case Some(j) => parties[j].openingBalance
  }

  /** The arguments of a cash-book entry. */
  datatype CashMove = CashMove(
    date: int,
    moduleType: ModuleType,
    moduleId: Option<nat>,
    currencyId: int,
    originalAmount: real,
    exchangeRate: real,
    cashIn: real,
    cashOut: real)

  /** The arguments of a customer or supplier ledger entry. */
  datatype PartyMove = PartyMove(
    party: int,
    date: int,
    documentId: Option<nat>,
    paymentId: Option<nat>,
    creditAmount: real,
    paymentAmount: real)

  /** The cash entry `m` books: the next id, and the current balance plus cash in less cash out. */
  function NewCashEntry(cash: seq<CashEntry>, m: CashMove): CashEntry
  {
    CashEntry(Stamp(m.date, |cash| + 1), m.moduleType, m.moduleId, m.currencyId, m.originalAmount, m.exchangeRate,
              m.cashIn, m.cashOut, CashBalance(cash) + m.cashIn - m.cashOut)
  }

  /** The ledger entry `m` books: the next id, and the party's balance plus credit less payment. */
  function NewPartyEntry(entries: seq<PartyEntry>, parties: seq<Party>, m: PartyMove): PartyEntry
  {
    PartyEntry(Stamp(m.date, |entries| + 1), m.party, m.documentId, m.paymentId, m.creditAmount, m.paymentAmount,
               PartyBalance(entries, parties, m.party) + m.creditAmount - m.paymentAmount)
  }

  /** Booking a cash move appends exactly one entry to the cash book and changes nothing else. */
  function RecordCash(t: Tables, m: CashMove): (r: Tables)
    ensures |r.cash| == |t.cash| + 1 && r.cash[..|t.cash|] == t.cash && r == t.(cash := r.cash)
    ensures r.cash[|t.cash|].balanceAfter == CashBalance(t.cash) + m.cashIn - m.cashOut
    ensures IdsArePositions(t.cash, CashId) ==> IdsArePositions(r.cash, CashId)
  {
    var r := t.(cash := t.cash + [NewCashEntry(t.cash, m)]);
    assert r.cash[..|t.cash|] == t.cash;
    r
  }

  /** Booking a customer move appends exactly one entry to the customer ledger and changes nothing else. */
  function RecordCustomer(t: Tables, m: PartyMove): (r: Tables)
    ensures |r.customerTx| == |t.customerTx| + 1 && r.customerTx[..|t.customerTx|] == t.customerTx
    ensures r == t.(customerTx := r.customerTx)
    ensures r.customerTx[|t.customerTx|].balanceAfter
      == PartyBalance(t.customerTx, t.customers, m.party) + m.creditAmount - m.paymentAmount
    ensures IdsArePositions(t.customerTx, EntryId) ==> IdsArePositions(r.customerTx, EntryId)
  {
    var r := t.(customerTx := t.customerTx + [NewPartyEntry(t.customerTx, t.customers, m)]);
    assert r.customerTx[..|t.customerTx|] == t.customerTx;
    r
  }

  /** Booking a supplier move appends exactly one entry to the supplier ledger and changes nothing else. */
  function RecordSupplier(t: Tables, m: PartyMove): (r: Tables)
    ensures |r.supplierTx| == |t.supplierTx| + 1 && r.supplierTx[..|t.supplierTx|] == t.supplierTx
    ensures r == t.(supplierTx := r.supplierTx)
    ensures r.supplierTx[|t.supplierTx|].balanceAfter
      == PartyBalance(t.supplierTx, t.suppliers, m.party) + m.creditAmount - m.paymentAmount
    ensures IdsArePositions(t.supplierTx, EntryId) ==> IdsArePositions(r.supplierTx, EntryId)
  {
    var r := t.(supplierTx := t.supplierTx + [NewPartyEntry(t.supplierTx, t.suppliers, m)]);
    assert r.supplierTx[..|t.supplierTx|] == t.supplierTx;
    r
  }

  /** No entry of the book is dated after `date`. */
  predicate NoneLaterThan(cash: seq<CashEntry>, date: int)
  {
    forall i :: 0 <= i < |cash| ==> cash[i].stamp.date <= date
  }

  /** No entry of the party is dated after `date`. */
  predicate NoneLaterFor(entries: seq<PartyEntry>, party: int, date: int)
  {
    forall i :: 0 <= i < |entries| && entries[i].party == party ==> entries[i].stamp.date <= date
  }

  /**
   * The new entry decides the cash balance exactly when no earlier entry is dated after it: then
   * the balance moves by cash in less cash out; a back-dated entry leaves the balance where the
   * newest entry put it.
   */
  lemma CashBalanceAfterRecord(t: Tables, m: CashMove)
    requires IdsArePositions(t.cash, CashId)
    ensures CashBalance(RecordCash(t, m).cash)
      == if NoneLaterThan(t.cash, m.date) then CashBalance(t.cash) + m.cashIn - m.cashOut else CashBalance(t.cash)
  {
    var cash := RecordCash(t, m).cash;
    assert cash[..|cash| - 1] == t.cash;
    var r := NewestWhere(t.cash, EveryCashEntry, CashStamp);
    if r.Some? {
      assert t.cash[r.value].stamp.id == r.value + 1;
      if !NoneLaterThan(t.cash, m.date) {
        var i :| 0 <= i < |t.cash| && t.cash[i].stamp.date > m.date;
        assert NotAfter(CashStamp(t.cash[i]), CashStamp(t.cash[r.value]));
      }
    }
  }

  /**
   * The same for a party's ledger: the new entry decides the party's balance exactly when none
   * of the party's entries is dated after it; the balance of every other party is unchanged.
   */
  lemma PartyBalanceAfterRecord(entries: seq<PartyEntry>, parties: seq<Party>, m: PartyMove, other: int)
    requires IdsArePositions(entries, EntryId)
    ensures var entries' := entries + [NewPartyEntry(entries, parties, m)];
      && PartyBalance(entries', parties, m.party)
         == (if NoneLaterFor(entries, m.party, m.date) then PartyBalance(entries, parties, m.party) + m.creditAmount - m.paymentAmount
             else PartyBalance(entries, parties, m.party))
      && (other != m.party ==> PartyBalance(entries', parties, other) == PartyBalance(entries, parties, other))
  {
    var entries' := entries + [NewPartyEntry(entries, parties, m)];
    assert entries'[..|entries'| - 1] == entries;
    var r := NewestWhere(entries, OfParty(m.party), EntryStamp);
    if r.Some? {
      assert entries[r.value].stamp.id == r.value + 1;
      if !NoneLaterFor(entries, m.party, m.date) {
        var i :| 0 <= i < |entries| && entries[i].party == m.party && entries[i].stamp.date > m.date;
        assert OfParty(m.party)(entries[i]);
        assert NotAfter(EntryStamp(entries[i]), EntryStamp(entries[r.value]));
      }
    }
    assert !OfParty(other)(entries'[|entries'| - 1]) || other == m.party;
  }

  /**
   * A customer payment: a cash payment row, then a cash-in of the amount converted at the given
   * rate, then a customer entry that reduces the ledger by the amount as entered.
   */
  function RecordCustomerPayment(t: Tables, customer: int, date: int, amount: real, currencyId: int, rate: real): (r: Tables)
    ensures r == t.(payments := r.payments, cash := r.cash, customerTx := r.customerTx)
    ensures |r.payments| == |t.payments| + 1 && |r.cash| == |t.cash| + 1 && |r.customerTx| == |t.customerTx| + 1
    ensures r.cash[|t.cash|].balanceAfter == CashBalance(t.cash) + amount * rate
    ensures r.customerTx[|t.customerTx|].balanceAfter == PartyBalance(t.customerTx, t.customers, customer) - amount
  {
    var payment := PaymentRow(|t.payments| + 1, currencyId, CustomerKind, customer, amount, date);
    var t1 := t.(payments := t.payments + [payment]);
    var t2 := RecordCash(t1, CashMove(date, CustomerPaymentModule, Some(payment.id), currencyId, amount, rate, amount * rate, 0.0));
    RecordCustomer(t2, PartyMove(customer, date, None, Some(payment.id), 0.0, amount))
  }

  /**
   * A supplier payment: a cash payment row, then a cash-out of the amount converted at the given
   * rate, then a supplier entry that reduces the ledger by the amount as entered.
   */
  function RecordSupplierPayment(t: Tables, supplier: int, date: int, amount: real, currencyId: int, rate: real): (r: Tables)
    ensures r == t.(payments := r.payments, cash := r.cash, supplierTx := r.supplierTx)
    ensures |r.payments| == |t.payments| + 1 && |r.cash| == |t.cash| + 1 && |r.supplierTx| == |t.supplierTx| + 1
    ensures r.cash[|t.cash|].balanceAfter == CashBalance(t.cash) - amount * rate
    ensures r.supplierTx[|t.supplierTx|].balanceAfter == PartyBalance(t.supplierTx, t.suppliers, supplier) - amount
  {
    var payment := PaymentRow(|t.payments| + 1, currencyId, SupplierKind, supplier, amount, date);
    var t1 := t.(payments := t.payments + [payment]);
    var t2 := RecordCash(t1, CashMove(date, SupplierPaymentModule, Some(payment.id), currencyId, amount, rate, 0.0, amount * rate));
    RecordSupplier(t2, PartyMove(supplier, date, None, Some(payment.id), 0.0, amount))
  }

  /**
   * A customer payment appends one payment row, one cash entry and one customer entry that both
   * refer to it, and nothing else. The cash book takes in the converted amount; the customer
   * ledger is reduced by the unconverted amount. When the payment is dated no earlier than any
   * entry, the cash balance rises by amount x rate and the customer's balance falls by amount.
   */
  lemma CustomerPaymentBooks(t: Tables, customer: int, date: int, amount: real, currencyId: int, rate: real)
    requires WellFormed(t)
    ensures var t' := RecordCustomerPayment(t, customer, date, amount, currencyId, rate);
      var id := |t.payments| + 1;
      && WellFormed(t')
      && t' == t.(payments := t'.payments, cash := t'.cash, customerTx := t'.customerTx)
      && t'.payments == t.payments + [PaymentRow(id, currencyId, CustomerKind, customer, amount, date)]
      && |t'.cash| == |t.cash| + 1 && t'.cash[..|t.cash|] == t.cash
      && |t'.customerTx| == |t.customerTx| + 1 && t'.customerTx[..|t.customerTx|] == t.customerTx
      && t'.cash[|t.cash|].moduleId == Some(id) && t'.cash[|t.cash|].cashIn == amount * rate && t'.cash[|t.cash|].cashOut == 0.0
      && t'.customerTx[|t.customerTx|].paymentId == Some(id)
      && t'.customerTx[|t.customerTx|].paymentAmount == amount && t'.customerTx[|t.customerTx|].creditAmount == 0.0
      && (NoneLaterThan(t.cash, date) ==> CashBalance(t'.cash) == CashBalance(t.cash) + amount * rate)
      && (NoneLaterFor(t.customerTx, customer, date) ==>
            PartyBalance(t'.customerTx, t.customers, customer) == PartyBalance(t.customerTx, t.customers, customer) - amount)
  {
    var payment := PaymentRow(|t.payments| + 1, currencyId, CustomerKind, customer, amount, date);
    var t1 := t.(payments := t.payments + [payment]);
    var m := CashMove(date, CustomerPaymentModule, Some(payment.id), currencyId, amount, rate, amount * rate, 0.0);
    CashBalanceAfterRecord(t1, m);
    PartyBalanceAfterRecord(t.customerTx, t.customers, PartyMove(customer, date, None, Some(payment.id), 0.0, amount), customer);
  }

  /**
   * A supplier payment appends one payment row, one cash entry and one supplier entry and nothing
   * else; when it is dated no earlier than any entry, the cash balance falls by amount x rate and
   * the supplier's balance by amount.
   */
  lemma SupplierPaymentBooks(t: Tables, supplier: int, date: int, amount: real, currencyId: int, rate: real)
    requires WellFormed(t)
    ensures var t' := RecordSupplierPayment(t, supplier, date, amount, currencyId, rate);
      var id := |t.payments| + 1;
      && WellFormed(t')
      && t' == t.(payments := t'.payments, cash := t'.cash, supplierTx := t'.supplierTx)
      && t'.payments == t.payments + [PaymentRow(id, currencyId, SupplierKind, supplier, amount, date)]
      && t'.cash[|t.cash|].moduleId == Some(id) && t'.cash[|t.cash|].cashOut == amount * rate && t'.cash[|t.cash|].cashIn == 0.0
      && t'.supplierTx[|t.supplierTx|].paymentAmount == amount && t'.supplierTx[|t.supplierTx|].creditAmount == 0.0
      && (NoneLaterThan(t.cash, date) ==> CashBalance(t'.cash) == CashBalance(t.cash) - amount * rate)
      && (NoneLaterFor(t.supplierTx, supplier, date) ==>
            PartyBalance(t'.supplierTx, t.suppliers, supplier) == PartyBalance(t.supplierTx, t.suppliers, supplier) - amount)
  {
    var payment := PaymentRow(|t.payments| + 1, currencyId, SupplierKind, supplier, amount, date);
    var t1 := t.(payments := t.payments + [payment]);
    var m := CashMove(date, SupplierPaymentModule, Some(payment.id), currencyId, amount, rate, 0.0, amount * rate);
    CashBalanceAfterRecord(t1, m);
    PartyBalanceAfterRecord(t.supplierTx, t.suppliers, PartyMove(supplier, date, None, Some(payment.id), 0.0, amount), supplier);
  }

  /** RecordCashTransactionAsync. */
  method RecordCashTransaction(b: Books, m: CashMove)
    requires b.Valid()
    modifies b
    ensures b.Valid()
    ensures b.State() == RecordCash(old(b.State()), m)
  {
    var balance := CashBalance(b.cash);
    b.cash := b.cash + [CashEntry(Stamp(m.date, |b.cash| + 1), m.moduleType, m.moduleId, m.currencyId, m.originalAmount,
                                  m.exchangeRate, m.cashIn, m.cashOut, balance + m.cashIn - m.cashOut)];
  }

  /** RecordCustomerTransactionAsync. */
  method RecordCustomerTransaction(b: Books, m: PartyMove)
    requires b.Valid()
    modifies b
    ensures b.Valid()
    ensures b.State() == RecordCustomer(old(b.State()), m)
  {
    var balance := PartyBalance(b.customerTx, b.customers, m.party);
    b.customerTx := b.customerTx + [PartyEntry(Stamp(m.date, |b.customerTx| + 1), m.party, m.documentId, m.paymentId,
                                               m.creditAmount, m.paymentAmount, balance + m.creditAmount - m.paymentAmount)];
  }

  /** RecordSupplierTransactionAsync. */
  method RecordSupplierTransaction(b: Books, m: PartyMove)
    requires b.Valid()
    modifies b
    ensures b.Valid()
    ensures b.State() == RecordSupplier(old(b.State()), m)
  {
    var balance := PartyBalance(b.supplierTx, b.suppliers, m.party);
    b.supplierTx := b.supplierTx + [PartyEntry(Stamp(m.date, |b.supplierTx| + 1), m.party, m.documentId, m.paymentId,
                                               m.creditAmount, m.paymentAmount, balance + m.creditAmount - m.paymentAmount)];
  }

  /** RecordCustomerPaymentAsync. */
  method RecordCustomerPaymentView(b: Books, customer: int, date: int, amount: real, currencyId: int, rate: real)
    requires b.Valid()
    modifies b
    ensures b.Valid()
    ensures b.State() == RecordCustomerPayment(old(b.State()), customer, date, amount, currencyId, rate)
  {
    var id := |b.payments| + 1;
    b.payments := b.payments + [PaymentRow(id, currencyId, CustomerKind, customer, amount, date)];
    RecordCashTransaction(b, CashMove(date, CustomerPaymentModule, Some(id), currencyId, amount, rate, amount * rate, 0.0));
    RecordCustomerTransaction(b, PartyMove(customer, date, None, Some(id), 0.0, amount));
  }

  /** RecordSupplierPaymentAsync. */
  method RecordSupplierPaymentView(b: Books, supplier: int, date: int, amount: real, currencyId: int, rate: real)
    requires b.Valid()
    modifies b
    ensures b.Valid()
    ensures b.State() == RecordSupplierPayment(old(b.State()), supplier, date, amount, currencyId, rate)
  {
    var id := |b.payments| + 1;
    b.payments := b.payments + [PaymentRow(id, currencyId, SupplierKind, supplier, amount, date)];
    RecordCashTransaction(b, CashMove(date, SupplierPaymentModule, Some(id), currencyId, amount, rate, 0.0, amount * rate));
    RecordSupplierTransaction(b, PartyMove(supplier, date, None, Some(id), 0.0, amount));
  }
}
