/**
 * The report views: profit and loss over a period, the dashboard summary, the customer aging
 * report and the sales summary with its top customers. Calendar days come from `dayOf`, which
 * maps a creation stamp to its day number; "today" is a parameter.
 */
module Reports {
  import opened Common
  import opened Rates
  import opened LedgerTypes
  import opened LedgerStore
  import opened Settlement
  import opened PaymentViews
  import opened Expenses
  import opened Sorting

  /** A range of calendar days, both ends included. */
  datatype Period = Period(start: int, end: int)

  predicate InPeriod(day: int, p: Period)
  {
    p.start <= day <= p.end
  }

  /** The base totals of the documents created within the period (zero when there are none). */
  function DocsTotalIn(docs: seq<Document>, dayOf: nat -> int, p: Period): real
  {
    if docs == [] then 0.0
    else
      DocsTotalIn(docs[..|docs| - 1], dayOf, p)
      + (if InPeriod(dayOf(docs[|docs| - 1].createdAt), p) then docs[|docs| - 1].totalBase else 0.0)
  }

  /** The number of documents created within the period. */
  function DocsCountIn(docs: seq<Document>, dayOf: nat -> int, p: Period): nat
  {
    if docs == [] then 0
    else DocsCountIn(docs[..|docs| - 1], dayOf, p) + (if InPeriod(dayOf(docs[|docs| - 1].createdAt), p) then 1 else 0)
  }

  /** The base amounts of the expenses recorded within the period. */
  function ExpensesTotalIn(expenses: seq<ExpenseRecord>, dayOf: nat -> int, p: Period): real
  {
    if expenses == [] then 0.0
    else
      ExpensesTotalIn(expenses[..|expenses| - 1], dayOf, p)
      + (if InPeriod(dayOf(expenses[|expenses| - 1].createdAt), p) then expenses[|expenses| - 1].amountBase else 0.0)
  }

  /** The base amounts of the journal entries of one kind made within the period. */
  function KindTotalIn(journal: seq<Entry>, kind: Kind, dayOf: nat -> int, p: Period): real
  {
    if journal == [] then 0.0
    else
      var e := journal[|journal| - 1];
      KindTotalIn(journal[..|journal| - 1], kind, dayOf, p) + (if e.kind == kind && InPeriod(dayOf(e.createdAt), p) then e.amountBase else 0.0)
  }

  datatype ProfitLoss = ProfitLoss(
    period: Period,
    salesRevenue: real,
    purchaseCosts: real,
    grossProfit: real,
    expenses: real,
    withdrawals: real,
    netProfit: real)

  /**
   * The profit and loss report: sales revenue less purchase costs is the gross profit; less the
   * expenses and the owner's withdrawals of the period it is the net profit.
   */
  function ProfitLossReport(l: Ledger, dayOf: nat -> int, p: Period): ProfitLoss
  {
    var sales := DocsTotalIn(l.sales, dayOf, p);
    var purchases := DocsTotalIn(l.purchases, dayOf, p);
    var expenses := ExpensesTotalIn(l.expenses, dayOf, p);
    var withdrawals := KindTotalIn(l.journal, Withdrawal, dayOf, p);
    ProfitLoss(p, sales, purchases, sales - purchases, expenses, withdrawals, sales - purchases - expenses - withdrawals)
  }

  /** On an empty ledger every figure of the report is zero. */
  lemma EmptyLedgerReportsZero(dayOf: nat -> int, p: Period)
    ensures ProfitLossReport(EmptyLedger, dayOf, p) == ProfitLoss(p, 0.0, 0.0, 0.0, 0.0, 0.0, 0.0)
  {
  }

  /**
   * Recording an expense lowers the net profit of every period containing its day by exactly its
   * base amount, and leaves revenue, costs, gross profit and withdrawals as they were; a period
   * that does not contain its day is unaffected.
   */
  lemma ExpenseLowersNetProfit(dir: Directory, l: Ledger, req: ExpenseRequest, dayOf: nat -> int, p: Period)
    requires CreateExpense(dir, l, req).1.Created?
    ensures var before := ProfitLossReport(l, dayOf, p);
      var after := ProfitLossReport(CreateExpense(dir, l, req).0, dayOf, p);
      var cost := CreateExpense(dir, l, req).1.body.amountBase;
      && after.salesRevenue == before.salesRevenue && after.purchaseCosts == before.purchaseCosts
      && after.grossProfit == before.grossProfit && after.withdrawals == before.withdrawals
      && after.netProfit == before.netProfit - (if InPeriod(dayOf(l.clock), p) then cost else 0.0)
  {
    var l' := CreateExpense(dir, l, req).0;
    assert l'.expenses[..|l'.expenses| - 1] == l.expenses;
    assert l'.journal[..|l'.journal| - 1] == l.journal;
  }

  /**
   * A withdrawal lowers the net profit of every period containing its day by exactly its base
   * amount; a deposit changes no figure of any report.
   */
  lemma OwnerMovesAndProfit(dir: Directory, l: Ledger, move: OwnerMove, req: OwnerRequest, dayOf: nat -> int, p: Period)
    requires RecordOwnerMove(dir, l, move, req).1.Created?
    ensures var before := ProfitLossReport(l, dayOf, p);
      var after := ProfitLossReport(RecordOwnerMove(dir, l, move, req).0, dayOf, p);
      var amount := RecordOwnerMove(dir, l, move, req).1.body.amountBase;
      && after.grossProfit == before.grossProfit && after.expenses == before.expenses
      && (move == Deposit ==> after == before)
      && (move == Withdraw ==> after.netProfit == before.netProfit - (if InPeriod(dayOf(l.clock), p) then amount else 0.0))
  {
    var l' := RecordOwnerMove(dir, l, move, req).0;
    assert l'.journal[..|l'.journal| - 1] == l.journal;
  }

  /** The base amounts of customer payments made on day `today`. */
  function CustomerPaymentsOn(payments: seq<PaymentRecord>, dayOf: nat -> int, today: int): real
  {
    if payments == [] then 0.0
    else
      var pay := payments[|payments| - 1];
      CustomerPaymentsOn(payments[..|payments| - 1], dayOf, today)
      + (if pay.partyType == CustomerParty && dayOf(pay.createdAt) == today then pay.amountBase else 0.0)
  }

  /** What the listed parties owe in total, counting only those whose balance is positive. */
  function PositiveBalances(l: Ledger, side: Side, parties: seq<nat>): real
  {
    if parties == [] then 0.0
    else
      var balance := PartyBalance(l, side, parties[|parties| - 1]);
      PositiveBalances(l, side, parties[..|parties| - 1]) + (if balance > 0.0 then balance else 0.0)
  }

  /** The outstanding total is never negative and is at least any one listed party's positive balance. */
  lemma {:induction false} PositiveBalancesBound(l: Ledger, side: Side, parties: seq<nat>)
    ensures PositiveBalances(l, side, parties) >= 0.0
    ensures forall i :: 0 <= i < |parties| ==> PositiveBalances(l, side, parties) >= PartyBalance(l, side, parties[i])
  {
    if parties != [] {
      var init := parties[..|parties| - 1];
      PositiveBalancesBound(l, side, init);
      forall i | 0 <= i < |parties|
        ensures PositiveBalances(l, side, parties) >= PartyBalance(l, side, parties[i])
      {
        if i < |init| {
          assert parties[i] == init[i];
        }
      }
    }
  }

  /**
   * The first `min(10, |journal|)` entries by descending stamp (`order_by('-created_at')[:10]`):
   * entries of the journal, newest first, and no entry left out is newer than any listed one.
   */
  function Recent(journal: seq<Entry>): (r: seq<Entry>)
    ensures |r| == Min(10, |journal|)
    ensures multiset(r) <= multiset(journal)
    ensures StampsDescend(r)
    ensures forall x, i :: x in multiset(journal) - multiset(r) && 0 <= i < |r| ==> x.createdAt <= r[i].createdAt
  {
    var sorted := SortDescBy(journal, Stamp);
    NewestPrefix(sorted, Min(10, |journal|));
    sorted[..Min(10, |journal|)]
  }

  /** A prefix of the entries sorted by descending stamp is newest first, and nothing after it is newer. */
  lemma NewestPrefix(sorted: seq<Entry>, k: nat)
    requires k <= |sorted| && DescendingBy(sorted, Stamp)
    ensures var r := sorted[..k];
      && multiset(r) <= multiset(sorted)
      && StampsDescend(r)
      && forall x, i :: x in multiset(sorted) - multiset(r) && 0 <= i < |r| ==> x.createdAt <= r[i].createdAt
  {
    var r := sorted[..k];
    assert sorted == r + sorted[k..];
    assert multiset(sorted) == multiset(r) + multiset(sorted[k..]);
    forall i, j | 0 <= i < j < |r|
      ensures r[i].createdAt >= r[j].createdAt
    {
      assert Stamp(sorted[i]) >= Stamp(sorted[j]);
    }
    forall x, i | x in multiset(sorted) - multiset(r) && 0 <= i < |r|
      ensures x.createdAt <= r[i].createdAt
    {
      assert x in multiset(sorted[k..]);
      var m :| 0 <= m < |sorted[k..]| && sorted[k..][m] == x;
      assert Stamp(sorted[i]) >= Stamp(sorted[k + m]);
    }
  }

  datatype Dashboard = Dashboard(
    todaySales: real,
    todayPayments: real,
    customerOutstanding: real,
    supplierOutstanding: real,
    recent: seq<Entry>)

  /** Sums the positive balances of the listed parties, one party at a time. */
  method SumPositiveBalances(l: Ledger, side: Side, parties: seq<nat>) returns (total: real)
    ensures total == PositiveBalances(l, side, parties)
  {
    total := 0.0;
    var i := 0;
    while i < |parties|
      invariant 0 <= i <= |parties|
      invariant total == PositiveBalances(l, side, parties[..i])
    {
      var balance := PartyDocsTotal(DocsOf(l, side), parties[i]) - PartyPaymentsTotal(l.payments, PartyOf(side), parties[i]);
      if balance > 0.0 {
        total := total + balance;
      }
      assert parties[..i + 1][..i] == parties[..i];
      i := i + 1;
    }
    assert parties[..i] == parties;
  }

  /**
   * The dashboard: today's sales and customer payments, what customers owe us and what we owe
   * suppliers (positive balances only, so neither is negative), and the ten newest entries.
   */
  method DashboardView(dir: Directory, l: Ledger, dayOf: nat -> int, today: int) returns (d: Dashboard)
    ensures d.todaySales == DocsTotalIn(l.sales, dayOf, Period(today, today))
    ensures d.todayPayments == CustomerPaymentsOn(l.payments, dayOf, today)
    ensures d.customerOutstanding == PositiveBalances(l, Selling, dir.customers) >= 0.0
    ensures d.supplierOutstanding == PositiveBalances(l, Buying, dir.suppliers) >= 0.0
    ensures d.recent == Recent(l.journal)
  {
    var customers := SumPositiveBalances(l, Selling, dir.customers);
    var suppliers := SumPositiveBalances(l, Buying, dir.suppliers);
    PositiveBalancesBound(l, Selling, dir.customers);
    PositiveBalancesBound(l, Buying, dir.suppliers);
    d := Dashboard(DocsTotalIn(l.sales, dayOf, Period(today, today)), CustomerPaymentsOn(l.payments, dayOf, today),
                   customers, suppliers, Recent(l.journal));
  }

  /** The aging categories. */
  datatype Bucket = Current | Days31To60 | Days61To90 | Over90Days

  function BucketOf(days: int): Bucket
  {
    if days <= 30 then Current
    else if days <= 60 then Days31To60
    else if days <= 90 then Days61To90
    else Over90Days
  }

  /** The position of a category from the most recent to the oldest. */
  function BucketRank(b: Bucket): nat
  {
    match b
    case Current => 0
    case Days31To60 => 1
    case Days61To90 => 2
    case Over90Days => 3
  }

  /** Each category is exactly its range of days, and an older balance never lands in a younger category. */
  lemma BucketsPartitionDays(d1: int, d2: int)
    ensures BucketOf(d1) == Current <==> d1 <= 30
    ensures BucketOf(d1) == Days31To60 <==> 30 < d1 <= 60
    ensures BucketOf(d1) == Days61To90 <==> 60 < d1 <= 90
    ensures BucketOf(d1) == Over90Days <==> 90 < d1
    ensures d1 <= d2 ==> BucketRank(BucketOf(d1)) <= BucketRank(BucketOf(d2))
  {
  }

  /** The first of the customer's open sales in table order, if any. */
  function OldestOpen(sales: seq<Document>, customer: nat): (r: Option<nat>)
    ensures r.None? <==> forall i :: 0 <= i < |sales| ==> !OpenFor(sales[i], customer)
    ensures r.Some? ==> r.value < |sales| && OpenFor(sales[r.value], customer)
    ensures r.Some? ==> forall i :: 0 <= i < r.value ==> !OpenFor(sales[i], customer)
  {
    if sales == [] then None
    else if OpenFor(sales[0], customer) then Some(0)
    else
      match OldestOpen(sales[1..], customer)
      case None => None
      case Some(i) => Some(i + 1)
  }

  /** With headers in creation order, the first open sale is one with the earliest stamp. */
  lemma OldestOpenIsEarliest(l: Ledger, customer: nat)
    requires Linked(l)
    requires OldestOpen(l.sales, customer).Some?
    ensures forall j :: 0 <= j < |l.sales| && OpenFor(l.sales[j], customer) ==>
      l.sales[OldestOpen(l.sales, customer).value].createdAt <= l.sales[j].createdAt
  {
  }

  datatype AgingRow = AgingRow(customer: nat, balance: real, daysOutstanding: int, bucket: Bucket)

  /** A customer's aging row: days since the oldest open sale (zero when there is none) and their category. */
  function AgingRowOf(l: Ledger, customer: nat, dayOf: nat -> int, today: int): (row: AgingRow)
    ensures row.customer == customer && row.balance == PartyBalance(l, Selling, customer)
    ensures OldestOpen(l.sales, customer).None? ==> row.daysOutstanding == 0 && row.bucket == Current
    ensures row.bucket == BucketOf(row.daysOutstanding)
  {
    var days := match OldestOpen(l.sales, customer)
      case None => 0
      case Some(i) => today - dayOf(l.sales[i].createdAt);
    AgingRow(customer, PartyBalance(l, Selling, customer), days, BucketOf(days))
  }

  /** The rows of the listed customers that owe something, in list order. */
  function AgingRows(l: Ledger, customers: seq<nat>, dayOf: nat -> int, today: int): seq<AgingRow>
  {
    if customers == [] then []
    else
      var c := customers[|customers| - 1];
      AgingRows(l, customers[..|customers| - 1], dayOf, today)
      + (if PartyBalance(l, Selling, c) > 0.0 then [AgingRowOf(l, c, dayOf, today)] else [])
  }

  function BalancesTotal(rows: seq<AgingRow>): real
  {
    if rows == [] then 0.0 else BalancesTotal(rows[..|rows| - 1]) + rows[|rows| - 1].balance
  }

  /** Every aging row belongs to a listed customer who owes a positive balance. */
  predicate RowsOwe(l: Ledger, customers: seq<nat>, rows: seq<AgingRow>, dayOf: nat -> int, today: int)
  {
    forall k :: 0 <= k < |rows| ==>
      rows[k].customer in customers && rows[k].balance > 0.0 && rows[k] == AgingRowOf(l, rows[k].customer, dayOf, today)
  }

  /** Every listed customer who owes a positive balance has a row. */
  predicate ListsEveryDebtor(l: Ledger, customers: seq<nat>, rows: seq<AgingRow>)
  {
    forall c :: c in customers && PartyBalance(l, Selling, c) > 0.0 ==> exists k :: 0 <= k < |rows| && rows[k].customer == c
  }

  /**
   * The aging report lists exactly the customers with a positive balance, and its total, the sum
   * of the listed balances, is the customer total the dashboard reports as outstanding.
   */
  lemma {:induction false} AgingListsDebtors(l: Ledger, customers: seq<nat>, dayOf: nat -> int, today: int)
    ensures RowsOwe(l, customers, AgingRows(l, customers, dayOf, today), dayOf, today)
    ensures ListsEveryDebtor(l, customers, AgingRows(l, customers, dayOf, today))
    ensures BalancesTotal(AgingRows(l, customers, dayOf, today)) == PositiveBalances(l, Selling, customers)
  {
    if customers != [] {
      var init := customers[..|customers| - 1];
      var c := customers[|customers| - 1];
      AgingListsDebtors(l, init, dayOf, today);
      var prev := AgingRows(l, init, dayOf, today);
      var rows := AgingRows(l, customers, dayOf, today);
      assert forall x :: x in customers <==> x in init || x == c;
      if PartyBalance(l, Selling, c) > 0.0 {
        assert rows == prev + [AgingRowOf(l, c, dayOf, today)];
        assert rows[..|rows| - 1] == prev;
        assert forall k :: 0 <= k < |prev| ==> rows[k] == prev[k];
        forall x | x in customers && PartyBalance(l, Selling, x) > 0.0
          ensures exists k :: 0 <= k < |rows| && rows[k].customer == x
        {
          if x == c {
            assert rows[|prev|].customer == x;
          } else {
            var k :| 0 <= k < |prev| && prev[k].customer == x;
            assert rows[k].customer == x;
          }
        }
      } else {
        assert rows == prev;
      }
    }
  }

  /** Computes the aging rows and their total, one customer at a time. */
  method AgingView(dir: Directory, l: Ledger, dayOf: nat -> int, today: int) returns (rows: seq<AgingRow>, total: real)
    ensures rows == AgingRows(l, dir.customers, dayOf, today)
    ensures total == BalancesTotal(rows) == PositiveBalances(l, Selling, dir.customers)
  {
    rows := [];
    var i := 0;
    while i < |dir.customers|
      invariant 0 <= i <= |dir.customers|
      invariant rows == AgingRows(l, dir.customers[..i], dayOf, today)
    {
      var c := dir.customers[i];
      var balance := PartyDocsTotal(l.sales, c) - PartyPaymentsTotal(l.payments, CustomerParty, c);
      if balance > 0.0 {
        var oldest := OldestOpen(l.sales, c);
        var days := 0;
        if oldest.Some? {
          days := today - dayOf(l.sales[oldest.value].createdAt);
        }
        rows := rows + [AgingRow(c, balance, days, BucketOf(days))];
      }
      assert dir.customers[..i + 1][..i] == dir.customers[..i];
      i := i + 1;
    }
    assert dir.customers[..i] == dir.customers;
    total := BalancesTotal(rows);
    AgingListsDebtors(l, dir.customers, dayOf, today);
  }

  /** One top-customers row. */
  datatype TopRow = TopRow(customer: nat, totalSales: real)

  /** The base total of one customer's sales created within the period. */
  function CustomerSalesIn(sales: seq<Document>, customer: nat, dayOf: nat -> int, p: Period): real
  {
    if sales == [] then 0.0
    else
      var s := sales[|sales| - 1];
      CustomerSalesIn(sales[..|sales| - 1], customer, dayOf, p) + (if s.party == customer && InPeriod(dayOf(s.createdAt), p) then s.totalBase else 0.0)
  }

  /** The rows of the listed customers with positive sales in the period, in list order. */
  function Candidates(l: Ledger, customers: seq<nat>, dayOf: nat -> int, p: Period): seq<TopRow>
  {
    if customers == [] then []
    else
      var c := customers[|customers| - 1];
      var total := CustomerSalesIn(l.sales, c, dayOf, p);
      Candidates(l, customers[..|customers| - 1], dayOf, p) + (if total > 0.0 then [TopRow(c, total)] else [])
  }

  function TotalSales(row: TopRow): real { row.totalSales }

  datatype SalesSummary = SalesSummary(period: Period, totalSales: real, totalTransactions: nat, topCustomers: seq<TopRow>)

  /** The candidate rows of the listed customers are exactly those with positive sales in the period. */
  lemma {:induction false} CandidatesArePositive(l: Ledger, customers: seq<nat>, dayOf: nat -> int, p: Period)
    ensures forall r :: r in Candidates(l, customers, dayOf, p) ==>
      r.customer in customers && r.totalSales > 0.0 && r.totalSales == CustomerSalesIn(l.sales, r.customer, dayOf, p)
  {
    if customers != [] {
      CandidatesArePositive(l, customers[..|customers| - 1], dayOf, p);
      assert forall x :: x in customers[..|customers| - 1] ==> x in customers;
    }
  }

  /** Collects the candidate rows, one customer at a time. */
  method CollectCandidates(l: Ledger, customers: seq<nat>, dayOf: nat -> int, p: Period) returns (candidates: seq<TopRow>)
    ensures candidates == Candidates(l, customers, dayOf, p)
  {
    candidates := [];
    var i := 0;
    while i < |customers|
      invariant 0 <= i <= |customers|
      invariant candidates == Candidates(l, customers[..i], dayOf, p)
    {
      var c := customers[i];
      var total := CustomerSalesIn(l.sales, c, dayOf, p);
      if total > 0.0 {
        candidates := candidates + [TopRow(c, total)];
      }
      assert customers[..i + 1][..i] == customers[..i];
      i := i + 1;
    }
    assert customers[..i] == customers;
  }

  /**
   * The sales summary: the total and the number of sales in the period, and the customers with
   * positive sales in it, largest first, at most ten.
   */
  method SalesSummaryView(dir: Directory, l: Ledger, dayOf: nat -> int, p: Period) returns (s: SalesSummary)
    ensures s.totalSales == DocsTotalIn(l.sales, dayOf, p) && s.totalTransactions == DocsCountIn(l.sales, dayOf, p)
    ensures |s.topCustomers| <= 10 && DescendingBy(s.topCustomers, TotalSales)
    ensures forall r :: r in s.topCustomers ==>
      r.customer in dir.customers && r.totalSales > 0.0 && r.totalSales == CustomerSalesIn(l.sales, r.customer, dayOf, p)
    ensures var all := SortDescBy(Candidates(l, dir.customers, dayOf, p), TotalSales);
      && s.topCustomers == all[..Min(10, |all|)]
      && forall i, j :: 0 <= i < |s.topCustomers| <= j < |all| ==> s.topCustomers[i].totalSales >= all[j].totalSales
  {
    var candidates := CollectCandidates(l, dir.customers, dayOf, p);
    var sorted := SortDescBy(candidates, TotalSales);
    var top := sorted[..Min(10, |sorted|)];
    CandidatesArePositive(l, dir.customers, dayOf, p);
    SortKeepsRows(candidates, TotalSales);
    assert forall r :: r in top ==> r in sorted;
    s := SalesSummary(p, DocsTotalIn(l.sales, dayOf, p), DocsCountIn(l.sales, dayOf, p), top);
  }
}
