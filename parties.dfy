/**
 * The party read views: a customer's or supplier's balance, a customer's running statement, and
 * a customer's outstanding invoices.
 */
module PartyViews {
  import opened Common
  import opened LedgerTypes
  import opened LedgerStore
  import opened Settlement
  import opened PaymentViews
  import opened Sorting

  /** What the balance view reports: document totals, payment totals and their difference. */
  datatype BalanceReport = BalanceReport(party: nat, currentBalance: real, totalDocs: real, totalPayments: real)

  /**
   * The balance view of a customer (Selling) or a supplier (Buying): `None` (a 404) for an
   * unknown party; otherwise the base totals of their documents and payments, an empty sum
   * counting as zero.
   */
  function BalanceView(dir: Directory, l: Ledger, side: Side, party: nat): (r: Option<BalanceReport>)
    ensures r.None? <==> party !in Parties(dir, side)
    ensures r.Some? ==> r.value.currentBalance == r.value.totalDocs - r.value.totalPayments
  {
    if party !in Parties(dir, side) then None
    else
      var docs := PartyDocsTotal(DocsOf(l, side), party);
      var paid := PartyPaymentsTotal(l.payments, PartyOf(side), party);
      Some(BalanceReport(party, docs - paid, docs, paid))
  }

  /** With no documents and no payments a known party's balance is zero. */
  lemma {:induction false} EmptySumsAreZero(dir: Directory, side: Side, party: nat)
    requires party in Parties(dir, side)
    ensures BalanceView(dir, EmptyLedger, side, party) == Some(BalanceReport(party, 0.0, 0.0, 0.0))
  {
  }

  /**
   * The balance view and the payment view agree: right after a payment the balance view reports
   * exactly the party balance the payment's response carried, and the balance it reports is the
   * one the payment view walks over.
   */
  lemma BalanceAgreesWithPayment(dir: Directory, l: Ledger, side: Side, req: PaymentRequest)
    requires RecordPayment(dir, l, side, req).1.Created?
    ensures var (l', resp) := RecordPayment(dir, l, side, req);
      var report := BalanceView(dir, l', side, req.party);
      && report.Some?
      && report.value.currentBalance == resp.body.partyBalance
      && report.value.currentBalance == PartyBalance(l, side, req.party) - resp.body.amountBase
  {
    PaymentAccepted(dir, l, side, req);
    PaymentReportsNewBalance(dir, l, side, req);
  }

  /** A journal entry is on a customer's statement when it names that customer. */
  predicate OnStatement(e: Entry, customer: nat)
  {
    e.partyType == CustomerParty && e.partyId == Some(customer)
  }

  /** The customer's entries in journal order. */
  function CustomerEntries(journal: seq<Entry>, customer: nat): seq<Entry>
  {
    Filter(journal, (e: Entry) => OnStatement(e, customer))
  }

  /**
   * The customer's entries ordered by descending stamp, as `order_by('-created_at')` lists them;
   * a backdated sale takes its place by its stamp, not by when it was journalled. Entries with
   * the same stamp stay in journal order.
   */
  function NewestFirst(journal: seq<Entry>, customer: nat): (r: seq<Entry>)
    ensures |r| <= |journal|
    ensures forall e :: e in r <==> e in journal && OnStatement(e, customer)
    ensures multiset(r) <= multiset(journal)
    ensures forall i :: 0 <= i < |journal| && OnStatement(journal[i], customer) ==> multiset(r)[journal[i]] == multiset(journal)[journal[i]]
    ensures StampsDescend(r)
  {
    var mine := CustomerEntries(journal, customer);
    FilterCounts(journal, (e: Entry) => OnStatement(e, customer));
    var r := SortDescBy(mine, Stamp);
    assert forall e :: e in r <==> e in multiset(r);
    assert forall e :: e in mine <==> e in multiset(mine);
    assert StampsDescend(r) by {
      forall i, j | 0 <= i < j < |r|
        ensures r[i].createdAt >= r[j].createdAt
      {
        assert Stamp(r[i]) >= Stamp(r[j]);
      }
    }
    r
  }

  /**
   * The signed amount an entry contributes to the statement: a sale and a loan given raise the
   * balance, a payment received and every other kind lower it by the entry's base amount.
   */
  function StatementAmount(e: Entry): real
  {
    if e.kind == Sale then e.amountBase
    else if e.kind == PaymentReceived then -e.amountBase
    else if e.kind == LoanGiven then e.amountBase
    else -e.amountBase
  }

  /** The sum of the statement amounts of the first `n` entries. */
  function RunningTotal(entries: seq<Entry>, n: nat): real
    requires n <= |entries|
  {
    if n == 0 then 0.0 else RunningTotal(entries, n - 1) + StatementAmount(entries[n - 1])
  }

  /** One statement line: the entry's stamp and kind, its signed amount and the balance after it. */
  datatype StatementLine = StatementLine(date: nat, kind: Kind, amount: real, balanceAfter: real)

  /** The statement's line for entry `k`: its balance is the sum of the amounts up to and including it. */
  function LineAt(entries: seq<Entry>, k: nat): StatementLine
    requires k < |entries|
  {
    StatementLine(entries[k].createdAt, entries[k].kind, StatementAmount(entries[k]), RunningTotal(entries, k + 1))
  }

  datatype Statement = Statement(customer: nat, currentBalance: real, lines: seq<StatementLine>)

  /**
   * Sign conventions of the statement: a sale and a loan given count their base amount, anything
   * else its negation; so a return (stored with a negative base) raises the balance, and a
   * positive sale adjustment lowers it.
   */
  lemma StatementSigns(e: Entry)
    ensures e.kind == Sale || e.kind == LoanGiven ==> StatementAmount(e) == e.amountBase
    ensures e.kind != Sale && e.kind != LoanGiven ==> StatementAmount(e) == -e.amountBase
    ensures e.kind == ReturnSale && e.amountBase < 0.0 ==> StatementAmount(e) > 0.0
    ensures e.kind == SaleAdjustment && e.amountBase > 0.0 ==> StatementAmount(e) < 0.0
  {
  }

  /** Each line's balance is the previous line's balance plus its own amount, starting from zero. */
  lemma RunningBalanceSteps(entries: seq<Entry>, k: nat)
    requires k < |entries|
    ensures LineAt(entries, k).balanceAfter == (if k == 0 then 0.0 else LineAt(entries, k - 1).balanceAfter) + LineAt(entries, k).amount
  {
    assert RunningTotal(entries, k + 1) == RunningTotal(entries, k) + StatementAmount(entries[k]);
    assert k == 0 ==> RunningTotal(entries, k) == 0.0;
  }

  /**
   * The statement view: `None` (a 404) for an unknown customer; otherwise one pass over the
   * customer's entries newest first, keeping a running balance; the current balance is the last
   * running balance, that is the sum of every line's amount.
   */
  method StatementView(dir: Directory, l: Ledger, customer: nat) returns (r: Option<Statement>)
    ensures r.None? <==> customer !in dir.customers
    ensures r.Some? ==>
      var entries := NewestFirst(l.journal, customer);
      && r.value.customer == customer
      && |r.value.lines| == |entries|
      && (forall k :: 0 <= k < |entries| ==> r.value.lines[k] == LineAt(entries, k))
      && r.value.currentBalance == RunningTotal(entries, |entries|)
  {
    if customer !in dir.customers {
      return None;
    }
    var lines, running := RunningLines(NewestFirst(l.journal, customer));
    r := Some(Statement(customer, running, lines));
  }

  /**
   * The statement's loop: one line per entry, in the order given, each with the balance after
   * it; the running balance it ends with is the sum of every entry's amount.
   */
  method RunningLines(entries: seq<Entry>) returns (lines: seq<StatementLine>, running: real)
    ensures |lines| == |entries|
    ensures forall k :: 0 <= k < |entries| ==> lines[k] == LineAt(entries, k)
    ensures running == RunningTotal(entries, |entries|)
  {
    lines := [];
    running := 0.0;
    var i := 0;
    while i < |entries|
      invariant 0 <= i <= |entries|
      invariant |lines| == i
      invariant running == RunningTotal(entries, i)
      invariant forall k :: 0 <= k < i ==> lines[k] == LineAt(entries, k)
    {
      var e := entries[i];
      var amount: real;
      if e.kind == Sale {
        running := running + e.amountBase;
        amount := e.amountBase;
      } else if e.kind == PaymentReceived {
        running := running - e.amountBase;
        amount := -e.amountBase;
      } else {
        amount := if e.kind == LoanGiven then e.amountBase else -e.amountBase;
        running := running + amount;
      }
      lines := lines + [StatementLine(e.createdAt, e.kind, amount, running)];
      i := i + 1;
    }
  }

  /** The base amount of the customer's payments stamped at or after `stamp`. */
  function PaidSince(payments: seq<PaymentRecord>, customer: nat, stamp: nat): real
    decreases |payments|
  {
    if payments == [] then 0.0
    else
      (if payments[0].partyType == CustomerParty && payments[0].partyId == customer && payments[0].createdAt >= stamp
       then payments[0].amountBase else 0.0)
      + PaidSince(payments[1..], customer, stamp)
  }

  /** One outstanding-invoices row. */
  datatype Invoice = Invoice(saleId: nat, date: nat, totalAmount: real, paidAmount: real, outstanding: real, status: DocStatus)

  /** The row of sale `i`: what is still owed is its base total less the payments since it, floored at zero. */
  function InvoiceOf(l: Ledger, customer: nat, i: nat): (inv: Invoice)
    requires i < |l.sales|
    ensures inv.outstanding >= 0.0
    ensures inv.outstanding >= inv.totalAmount - inv.paidAmount
    ensures inv.outstanding == 0.0 || inv.outstanding == inv.totalAmount - inv.paidAmount
  {
    var sale := l.sales[i];
    var paid := PaidSince(l.payments, customer, sale.createdAt);
    Invoice(i, sale.createdAt, sale.totalBase, paid, MaxReal(0.0, sale.totalBase - paid), sale.status)
  }

  function MaxReal(a: real, b: real): real
  {
    if a >= b then a else b
  }

  /** The rows for the customer's open sales among the first `n`, in table (creation) order. */
  function InvoicesUpTo(l: Ledger, customer: nat, n: nat): seq<Invoice>
    requires n <= |l.sales|
  {
    if n == 0 then []
    else InvoicesUpTo(l, customer, n - 1) + (if OpenFor(l.sales[n - 1], customer) then [InvoiceOf(l, customer, n - 1)] else [])
  }

  function OutstandingSum(invoices: seq<Invoice>): real
  {
    if invoices == [] then 0.0 else OutstandingSum(invoices[..|invoices| - 1]) + invoices[|invoices| - 1].outstanding
  }

  /** Every row is the row of an open sale of the customer among the first `n`, in increasing sale order. */
  predicate RowsAreOpenSales(l: Ledger, customer: nat, n: nat, rows: seq<Invoice>)
    requires n <= |l.sales|
  {
    && (forall k :: 0 <= k < |rows| ==>
          rows[k].saleId < n && OpenFor(l.sales[rows[k].saleId], customer) && rows[k] == InvoiceOf(l, customer, rows[k].saleId))
    && (forall j, k :: 0 <= j < k < |rows| ==> rows[j].saleId < rows[k].saleId)
  }

  /** Every open sale of the customer among the first `n` has a row. */
  predicate ListsEveryOpenSale(l: Ledger, customer: nat, n: nat, rows: seq<Invoice>)
    requires n <= |l.sales|
  {
    forall i :: 0 <= i < n && OpenFor(l.sales[i], customer) ==> exists k :: 0 <= k < |rows| && rows[k].saleId == i
  }

  /** The rows are the customer's open sales, in creation order. */
  lemma {:induction false} InvoicesAreOpenSales(l: Ledger, customer: nat, n: nat)
    requires n <= |l.sales|
    ensures RowsAreOpenSales(l, customer, n, InvoicesUpTo(l, customer, n))
  {
    if n > 0 {
      InvoicesAreOpenSales(l, customer, n - 1);
      var prev := InvoicesUpTo(l, customer, n - 1);
      var rows := InvoicesUpTo(l, customer, n);
      if OpenFor(l.sales[n - 1], customer) {
        var last := InvoiceOf(l, customer, n - 1);
        assert last.saleId == n - 1;
        assert rows == prev + [last];
        forall k | 0 <= k < |rows|
          ensures rows[k].saleId < n && OpenFor(l.sales[rows[k].saleId], customer)
          ensures rows[k] == InvoiceOf(l, customer, rows[k].saleId)
        {
          if k < |prev| {
            assert rows[k] == prev[k];
          }
        }
        forall j, k | 0 <= j < k < |rows|
          ensures rows[j].saleId < rows[k].saleId
        {
          assert rows[j] == prev[j];
          if k < |prev| {
            assert rows[k] == prev[k];
          }
        }
      } else {
        assert rows == prev;
      }
    }
  }

  /** Every open sale of the customer has its row. */
  lemma {:induction false} OpenSalesAreListed(l: Ledger, customer: nat, n: nat)
    requires n <= |l.sales|
    ensures ListsEveryOpenSale(l, customer, n, InvoicesUpTo(l, customer, n))
  {
    if n > 0 {
      OpenSalesAreListed(l, customer, n - 1);
      var prev := InvoicesUpTo(l, customer, n - 1);
      var rows := InvoicesUpTo(l, customer, n);
      assert |prev| <= |rows| && forall k :: 0 <= k < |prev| ==> rows[k] == prev[k];
      forall i | 0 <= i < n && OpenFor(l.sales[i], customer)
        ensures exists k :: 0 <= k < |rows| && rows[k].saleId == i
      {
        if i < n - 1 {
          var k :| 0 <= k < |prev| && prev[k].saleId == i;
          assert rows[k].saleId == i;
        } else {
          assert rows[|prev|] == InvoiceOf(l, customer, n - 1);
        }
      }
    }
  }

  /** The total owed is never negative, as no row owes a negative amount. */
  lemma {:induction false} OutstandingNeverNegative(l: Ledger, customer: nat, n: nat)
    requires n <= |l.sales|
    ensures OutstandingSum(InvoicesUpTo(l, customer, n)) >= 0.0
  {
    if n > 0 {
      OutstandingNeverNegative(l, customer, n - 1);
      var prev := InvoicesUpTo(l, customer, n - 1);
      var rows := InvoicesUpTo(l, customer, n);
      if OpenFor(l.sales[n - 1], customer) {
        assert rows[..|rows| - 1] == prev;
      } else {
        assert rows == prev;
      }
    }
  }

  datatype OutstandingReport = OutstandingReport(customer: nat, totalOutstanding: real, invoices: seq<Invoice>)

  /**
   * The outstanding-invoices view: `None` (a 404) for an unknown customer; otherwise one pass
   * over the sales in creation order, emitting a row per open sale of the customer and summing
   * what each still owes.
   */
  method OutstandingView(dir: Directory, l: Ledger, customer: nat) returns (r: Option<OutstandingReport>)
    ensures r.None? <==> customer !in dir.customers
    ensures r.Some? ==>
      && r.value.customer == customer
      && r.value.invoices == InvoicesUpTo(l, customer, |l.sales|)
      && r.value.totalOutstanding == OutstandingSum(r.value.invoices)
  {
    if customer !in dir.customers {
      return None;
    }
    var invoices: seq<Invoice> := [];
    var total := 0.0;
    var i := 0;
    while i < |l.sales|
      invariant 0 <= i <= |l.sales|
      invariant invoices == InvoicesUpTo(l, customer, i)
      invariant total == OutstandingSum(invoices)
    {
      var sale := l.sales[i];
      if sale.party == customer && (sale.status == Unpaid || sale.status == Partial) {
        var paid := PaidSince(l.payments, customer, sale.createdAt);
        var outstanding := MaxReal(0.0, sale.totalBase - paid);
        var row := Invoice(i, sale.createdAt, sale.totalBase, paid, outstanding, sale.status);
        assert row == InvoiceOf(l, customer, i);
        total := total + outstanding;
        invoices := invoices + [row];
        assert invoices[..|invoices| - 1] == InvoicesUpTo(l, customer, i);
        assert invoices == InvoicesUpTo(l, customer, i + 1);
      } else {
        assert invoices == InvoicesUpTo(l, customer, i + 1);
      }
      i := i + 1;
    }
    r := Some(OutstandingReport(customer, total, invoices));
  }

  /** Two open 100 AFN sales to customer 7, then one 100 AFN payment from them. */
  const TwoSalesOnePayment: Ledger :=
    EmptyLedger.(
      sales := [Document(0, 7, 100.0, "AFN", 1.0, 100.0, Unpaid, 0), Document(1, 7, 100.0, "AFN", 1.0, 100.0, Unpaid, 1)],
      payments := [PaymentRecord(2, CustomerParty, 7, 100.0, "AFN", 1.0, 100.0, "cash", 2)],
      clock := 3)

  /**
   * A payment is set against every open invoice issued before it, not just one: after two open
   * 100 sales and a single 100 payment, neither invoice shows anything outstanding.
   */
  lemma PaymentCountsAgainstEveryEarlierInvoice()
    ensures |InvoicesUpTo(TwoSalesOnePayment, 7, 2)| == 2
    ensures InvoicesUpTo(TwoSalesOnePayment, 7, 2)[0].outstanding == 0.0
    ensures InvoicesUpTo(TwoSalesOnePayment, 7, 2)[1].outstanding == 0.0
    ensures OutstandingSum(InvoicesUpTo(TwoSalesOnePayment, 7, 2)) == 0.0
  {
    var l := TwoSalesOnePayment;
    ExampleRows();
    ExamplePaid();
    var row0 := InvoiceOf(l, 7, 0);
    var row1 := InvoiceOf(l, 7, 1);
    assert row0.outstanding == 0.0 && row1.outstanding == 0.0;
    var rows := [row0, row1];
    assert rows[..1] == [row0] && [row0][..0] == [];
    assert OutstandingSum(rows) == OutstandingSum([row0]) + row1.outstanding;
  }

  /** Both sales of the example are open, so each has a row. */
  lemma ExampleRows()
    ensures InvoicesUpTo(TwoSalesOnePayment, 7, 2) == [InvoiceOf(TwoSalesOnePayment, 7, 0), InvoiceOf(TwoSalesOnePayment, 7, 1)]
  {
    var l := TwoSalesOnePayment;
    assert OpenFor(l.sales[0], 7) && OpenFor(l.sales[1], 7);
    assert InvoicesUpTo(l, 7, 1) == [InvoiceOf(l, 7, 0)];
  }

  /** The example's payment comes after both sales. */
  lemma ExamplePaid()
    ensures PaidSince(TwoSalesOnePayment.payments, 7, 0) == 100.0
    ensures PaidSince(TwoSalesOnePayment.payments, 7, 1) == 100.0
  {
    var ps := TwoSalesOnePayment.payments;
    assert ps[1..] == [];
  }

  /** In the same ledger the customer's balance is still 100: the outstanding view understates what is owed. */
  lemma OutstandingUnderstatesBalance(dir: Directory)
    requires 7 in dir.customers
    ensures BalanceView(dir, TwoSalesOnePayment, Selling, 7) == Some(BalanceReport(7, 100.0, 200.0, 100.0))
  {
    var l := TwoSalesOnePayment;
    assert l.sales[1..] == [l.sales[1]] && l.sales[1..][1..] == [];
    assert PartyDocsTotal(l.sales[1..], 7) == 100.0;
    assert l.payments[1..] == [];
  }
}
