# Multi-currency shop ledger, modelled in Dafny

This project models the bookkeeping core of a small trading business's shop-management
system. The business sells and buys goods in several currencies. Every figure it keeps is
normalised into afghanis (AFN), the accounting currency. The repository has three parts, and each
is modelled in its own modules.

- **The Django back end: ledger and settlement engine.**
  - An append-only journal of monetary events (`Transaction`) under one `Store` class
    (module `LedgerStore`), whose tables the views update in place.
  - The latest-rate resolver and currency normaliser (`Rates`).
  - The bulk sale, purchase and return views (`BulkViews`), payments with the oldest-first
    re-stamping of open documents (`PaymentViews`, `Settlement`), adjustments of documents and
    of returns (`Adjustments`), and the create-or-update sale view (`EnhancedSales`).
  - Loans, expenses and owner moves (`Loans`, `Expenses`).
  - The party balance, statement and outstanding-invoice views (`PartyViews`), and the
    profit-and-loss, dashboard, aging and sales-summary reports (`Reports`).
  Each view is a method on the store. It is specified by a pure function of the old tables
  that returns the new tables and the response. Lemmas about that function state the
  view's promises: which status code answers which request, what is written, and what the
  written rows agree on.
- **The .NET back end: running-balance bookkeeping.**
  - One `Books` class holds the unit of work's tables.
  - `FinancialService` books the cash and party ledgers. Each entry carries the running
    balance after it, and the balance queries read the newest entry by (Date, Id)
    (`Financial`).
  - The exchange-rate service, repository and multi-currency service (`CurrencyExchange`,
    `RateRepository`, `MultiCurrency`).
  - The sale, purchase and sales-return command handlers (`SaleHandler`, `PurchaseHandler`,
    `SalesReturnHandler`, with `HandlerLines`).
  - The currencies controller (`CurrenciesController`).
- **The React front end: pure utilities and reducers.**
  - Date completion and comparison (`IsoDate`).
  - Form input helpers and the Zod error-key formatting they depend on (`InputHelpers`,
    `ZodPaths`).
  - Eastern-digit normalisation (`EnglishDigits`).
  - The data table's filter, sort, paging and CSV export (`DataTable`).
  - The fiscal-year formatters (`FiscalYear`) and the route-history listener (`RouteHistory`).
  - The auth, customer, user and sales Redux slices. Each is a small class whose reducer
    methods update its fields.

Decimal amounts are modelled as exact reals. Identities handed out by a database are modelled
as positions in a table. Clocks, "today" and request stamps are parameters.

## Model

| member | source | states |
|---|---|---|
| LedgerStore.Store.constructor | backend/core/models.py:23-85 | an empty journal and empty document tables over the given directory of currencies, parties, products and rates, which is linked |
| Rates.Newest | backend/core/utils.py:12-15 | the quote found is a stored (from, to) row, and no row of that pair is newer by date, then by creation time; none exactly when the pair has no row |
| Rates.LatestRate | backend/core/utils.py:5-32 | the rate for a pair; what it resolves to, and that it is positive and reciprocal for a reverse-only pair, are the rows of Rates.LatestRateResolves, Rates.LatestRatePositive and Rates.ReverseIsReciprocal |
| Rates.LatestRateResolves | backend/core/utils.py:5-32 | the rate is 1 for the same currency; otherwise the newest direct quote; otherwise the reciprocal of the newest nonzero reverse quote; otherwise 1 |
| Rates.ConvertScales | backend/core/utils.py:34-42 | the converted amount is the amount times the rate the conversion reports |
| Rates.ValidCurrency | backend/core/utils.py:44-46 | true exactly when a currency with the code is stored; the outcome rows of the views (BulkViews.CreateDocumentOutcome, PaymentViews.RecordPaymentOutcome, Loans.GiveLoanOutcome) state the 400 it leads to |
| Rates.Convert | backend/core/utils.py:34-42 | the same currency converts unchanged at rate 1; otherwise the rate used is the one the resolver gives for the pair |
| Rates.LatestRatePositive | backend/core/utils.py:5-32 | with positive stored quotes, every branch of the resolver gives a positive rate |
| Rates.ConvertKeepsSign | backend/core/utils.py:34-42 | with positive stored quotes, the converted amount has the sign of the amount |
| Rates.ReverseIsReciprocal | backend/core/utils.py:20-27 | when only the (a, b) direction is stored, resolving (b, a) gives the reciprocal of resolving (a, b) |
| LedgerTypes.KindCodeRoundTrip | backend/core/models.py:24-60 | each of the seventeen entry kinds reads back from its stored code |
| LedgerTypes.ParseKindRejects | backend/core/models.py:42-60 | a code is rejected exactly when no declared kind has it |
| LedgerTypes.PartyCodeRoundTrip | backend/core/models.py:62-76 | each of the four party types reads back from its stored code |
| LedgerTypes.SaleType | backend/sales/models.py:20-27 | "return" exactly for a sale-return entry, "sale" exactly for a sale entry, "adjustment" exactly for every other kind |
| LedgerTypes.SaleCaption | backend/sales/models.py:29-31 | the label is "Return" exactly for a return and "Sale" exactly otherwise; the amount shown is the magnitude of the base total, never negative, and for a (negative) return its negation |
| ItemLines.CheckLines | backend/sales/bulk_views.py:47-54 | the verdict is that of the first line with an unknown product or a non-positive quantity or negative price; lines ok exactly when every line passes |
| ItemLines.FirstFailureDecides | backend/purchases/bulk_views.py:44-51 | when every line before i passes and line i fails, the whole request gets line i's verdict |
| ItemLines.ItemsTotalNonNegative | backend/sales/bulk_views.py:52-60 | lines that pass validation add up to a non-negative entered total |
| ItemLines.StoredLinesFollowRequest | backend/sales/bulk_views.py:62-69 | one stored line per requested line, with its product, entered price and currency; the base price is the entered price at the rate; a return's quantities are negated |
| ItemLines.LinesBaseTotalIsRated | backend/sales/bulk_views.py:56-60 | the stored lines' base total is the requested entered total times the rate, negated for a return |
| ItemLines.ReturnLinesBase | backend/sales/bulk_views.py:228-237 | a return's stored lines total, in afghanis, the negated entered total at the rate |
| ItemLines.ValidateLines | backend/sales/bulk_views.py:45-69 | the loop's verdict is CheckLines of the lines, and on success the accumulated total is the lines' entered total |
| BulkViews.HeaderTotal | backend/sales/bulk_views.py:71-80 | a missing or zero declared total takes the lines' total; a declared total is kept exactly when it lies within 0.01 of the lines' total, and is a mismatch otherwise |
| BulkViews.CreateAccepted | backend/sales/bulk_views.py:28-145 | a bulk sale or purchase is created exactly when the party, the currency, every line and the declared total pass; the created entry, header, lines and response spelled out |
| BulkViews.CreateDocumentOutcome | backend/purchases/bulk_views.py:27-124 | 404 exactly for an unknown party or, past the currency check, an unknown product on the first offending line; a rejection writes nothing; a 201 appends one entry, one header and one line per requested line, leaving every other table alone |
| BulkViews.CreatedDocumentMirrorsEntry | backend/sales/bulk_views.py:99-120 | the header points at its entry and carries the same party, entered and base totals and rate; the rate is the currency's unit rate and the base total is the entered total times it; the status defaults to unpaid |
| BulkViews.CreatedTotalWithinTolerance | backend/sales/bulk_views.py:71-92 | a purchase header's entered total lies within 0.01 of the lines' total; a sale's does once its discount is added back and its tax taken off |
| BulkViews.CreatedHeaderMatchesLines | backend/purchases/bulk_views.py:53-97 | without a declared total, discount or tax, the header's base total is the sum of quantity times base unit price over its stored lines |
| BulkViews.ReturnAccepted | backend/sales/bulk_views.py:165-246 | a bulk return is created exactly when the party, the currency and every line pass; the created rows and response spelled out |
| BulkViews.ReturnDocumentOutcome | backend/purchases/bulk_views.py:160-209 | 404 exactly for an unknown party or an unknown product on the first offending line; nothing written unless 201, and then one entry, one header and the lines |
| BulkViews.ReturnIsNegated | backend/sales/bulk_views.py:201-246 | a return writes a return entry and a paid header whose entered total is the negated lines' total, never positive; the response shows the returned amounts as positive numbers |
| BulkViews.ReturnLinesNegated | backend/sales/bulk_views.py:228-237 | each stored return line carries its requested quantity negated, hence negative |
| BulkViews.ReturnLinesMatchHeader | backend/sales/bulk_views.py:201-237 | the stored return lines' base total is the header's base total |
| BulkViews.AppendDocumentShape | backend/sales/bulk_views.py:99-131 | one request appends exactly one journal entry, one header and its lines, advances the clock, and changes no other table, the other side's included |
| BulkViews.CreateDocumentKeepsLinks | backend/sales/bulk_views.py:99-131 | a bulk create keeps every header pointing at its journal entry and every line at its header |
| BulkViews.ReturnDocumentKeepsLinks | backend/sales/bulk_views.py:205-237 | a bulk return keeps the same links |
| BulkViews.AppendRows | backend/sales/bulk_views.py:99-131 | the store after writing the rows is AppendDocument of the store before |
| BulkViews.CreateDocument | backend/sales/bulk_views.py:24-152 | the bulk sale or purchase as a plan on the tables; its promises are the rows of BulkViews.CreateAccepted, CreateDocumentOutcome, CreatedDocumentMirrorsEntry, CreatedTotalWithinTolerance, CreatedHeaderMatchesLines and CreateDocumentKeepsLinks |
| BulkViews.CreateDocumentView | backend/sales/bulk_views.py:24-152 | the view leaves the store linked, and its new tables and response are those CreateDocument gives for the old tables |
| BulkViews.ReturnDocument | backend/sales/bulk_views.py:161-252 | the bulk return as a plan on the tables; its promises are the rows of BulkViews.ReturnAccepted, ReturnDocumentOutcome, ReturnIsNegated, ReturnLinesNegated, ReturnLinesMatchHeader and ReturnDocumentKeepsLinks |
| BulkViews.ReturnDocumentView | backend/sales/bulk_views.py:161-252 | the view leaves the store linked, and its new tables and response are those ReturnDocument gives for the old tables |
| Settlement.Allocate | backend/payments/payment_views.py:92-100 | a document is paid exactly when the credit covers its total and partial exactly when some but not enough credit is left; a paid document passes on the credit less its total, and no credit passes on past a document left partial or unpaid |
| Settlement.Walk | backend/payments/payment_views.py:92-102 | each open document of the party, in table order, takes the status the credit left for it allows and passes the rest of the credit on; every other row is returned as it was |
| Settlement.WalkOnlySetsStatus | backend/payments/payment_views.py:92-102 | the walk keeps the table's length and rewrites only the statuses of the party's open documents; every other row and every other column is unchanged |
| Settlement.NoCreditLeavesAllUnpaid | backend/payments/payment_views.py:99-100 | with no credit every open document of the party with a positive total ends up unpaid |
| Settlement.WalkIsOldestFirst | backend/payments/payment_views.py:193-203 | provided every open document of the party has a positive base total: once one of them is left partial or unpaid, every later open document is left unpaid |
| Settlement.NonPositiveTotalBreaksOrder | backend/payments/payment_views.py:91-95 | without that proviso the order breaks: with no credit, open documents of 100, -50 and 30 end unpaid, paid and paid, and a lone open document of total 0 is marked paid |
| Settlement.WalkSpendsAtMostCredit | backend/payments/payment_views.py:90-98 | what the walk marks paid plus the credit left is at most the credit it started with, and what is left is never negative |
| Settlement.WalkKeepsDocsTotal | backend/payments/payment_views.py:78-87 | rewriting statuses does not move the party's document total, so the balance the walk used still holds after it |
| PaymentViews.PaymentAccepted | backend/payments/payment_views.py:29-69 | a payment is accepted exactly when the party is known, the currency is valid and the amount is positive; the accepted tables and response spelled out |
| PaymentViews.RecordPaymentOutcome | backend/payments/payment_views.py:25-117 | 404 exactly for an unknown party; 400 for an unknown currency or a non-positive amount; nothing is written unless the payment is accepted |
| PaymentViews.PaymentMirrorsEntry | backend/payments/payment_views.py:45-69 | the payment row points at its entry, and both carry the same entered amount, currency, rate and base amount; the base amount is the entered amount at the resolved rate |
| PaymentViews.WithPaymentBalance | backend/payments/payment_views.py:78-87 | appending a payment adds its base amount to the party's payments total and leaves the documents total alone |
| PaymentViews.SettledKeepsBalance | backend/payments/payment_views.py:92-102 | the walk leaves every party's balance as it was |
| PaymentViews.PaymentReportsNewBalance | backend/payments/payment_views.py:77-87 | the balance the response reports is the party's balance before the payment less its base amount, and it is still the balance once the walk has run |
| PaymentViews.AcceptedPaymentShape | backend/payments/payment_views.py:47-102 | an accepted payment appends one entry and one payment row and changes nothing else except statuses of the party's open documents on its own side |
| PaymentViews.PaymentSettlesOldestFirst | backend/payments/payment_views.py:72-102 | the party's documents become the walk with credit max(0, minus the balance the response reports); what the walk marks paid never exceeds that credit; provided every open document of the party has a positive base total, after a partial or unpaid open document every later one is unpaid, and when the balance is not negative every open document is unpaid |
| PaymentViews.FullPaymentLeavesSaleUnpaid | backend/payments/payment_views.py:78-100 | a customer with one unpaid sale of 500 who pays 500 keeps that sale unpaid, because the credit is the excess of payments over all sales |
| PaymentViews.WithPaymentKeepsLinks | backend/payments/payment_views.py:48-69 | appending a payment and its entry keeps the ledger linked |
| PaymentViews.SettledKeepsLinks | backend/payments/payment_views.py:92-102 | the walk keeps the ledger linked |
| PaymentViews.AppendPayment | backend/payments/payment_views.py:47-69 | the store after the step is the old store with the entry and the payment row appended |
| PaymentViews.SettleOpen | backend/payments/payment_views.py:72-102 | the store after the loop is the old store with the side's table replaced by its walk for the party and the given credit |
| PaymentViews.Advance | backend/payments/payment_views.py:93-102 | one step of the walk changes at most the status of the document at the position; a document not open for the party leaves the table and the credit as they were |
| PaymentViews.SaveStatus | backend/payments/payment_views.py:102 | only the status of one document of the side's table changes |
| PaymentViews.AcceptPayment | backend/payments/payment_views.py:47-112 | the store after the accepted writes, and the response, are those RecordPayment gives |
| PaymentViews.RecordPayment | backend/payments/payment_views.py:25-217 | receive_payment and make_payment as a plan on the tables; its promises are the rows of PaymentViews.PaymentAccepted, RecordPaymentOutcome, PaymentMirrorsEntry, PaymentReportsNewBalance, AcceptedPaymentShape and PaymentSettlesOldestFirst |
| PaymentViews.RecordPaymentView | backend/payments/payment_views.py:126-217 | the view leaves the store linked, and its new tables and response are those RecordPayment gives for the old tables |
| Adjustments.AdjustDocumentOutcome | backend/sales/adjustment_views.py:26-72 | 404 exactly for an unknown document; 400 exactly when the new entered total equals the old one, whatever the currency and rate; nothing is written unless accepted; an accepted one appends one entry and rewrites only that document's two totals |
| Adjustments.AdjustmentIsDelta | backend/purchases/adjustment_views.py:26-53 | old total plus the journalled change is the new total, in the entered and in the base currency; the entry is the side's adjustment kind for the document's party, at the latest rate of the currency used; the new base total is the new entered total at that rate; the document keeps its status, rate and currency |
| Adjustments.AdjustReturnOutcome | backend/sales/return_adjustment_views.py:25-87 | 404 exactly for an unknown return (a document whose entry is not the side's return kind counts as unknown); 400 exactly when the total would not change; nothing written unless accepted |
| Adjustments.ReturnAdjustmentIsNegated | backend/purchases/return_adjustment_views.py:28-67 | an accepted return adjustment stores the new amount and its conversion negated, journals the signed change under the side's ordinary adjustment kind, and reports the return as grown exactly when the change is negative |
| Adjustments.AdjustDocumentAccepted | backend/sales/adjustment_views.py:33-60 | the accepted outcome of an adjustment spelled out: the appended entry and the rewritten document |
| Adjustments.AdjustReturnAccepted | backend/sales/return_adjustment_views.py:35-74 | the accepted outcome of a return adjustment spelled out |
| Adjustments.ReviseKeepsLinks | backend/sales/adjustment_views.py:46-60 | an adjustment keeps the ledger linked |
| Adjustments.AppendEntry | backend/sales/adjustment_views.py:46-55 | the store gains one journal entry at the end and its clock advances; nothing else changes |
| Adjustments.OverwriteTotals | backend/sales/adjustment_views.py:57-60 | only document i's entered and base totals change |
| Adjustments.ApplyRevision | backend/purchases/adjustment_views.py:38-53 | the store after an accepted adjustment is Revise of the store before |
| Adjustments.AdjustDocument | backend/sales/adjustment_views.py:22-72 | adjust_sale and adjust_purchase as a plan on the tables; its promises are the rows of Adjustments.AdjustDocumentOutcome, AdjustmentIsDelta, AdjustDocumentAccepted and ReviseKeepsLinks |
| Adjustments.AdjustDocumentView | backend/sales/adjustment_views.py:22-72 | the view leaves the store linked, and its new tables and response are those AdjustDocument gives |
| Adjustments.AdjustReturn | backend/sales/return_adjustment_views.py:21-87 | the return adjustment views as a plan on the tables; its promises are the rows of Adjustments.AdjustReturnOutcome, ReturnAdjustmentIsNegated, AdjustReturnAccepted and ReviseKeepsLinks |
| Adjustments.AdjustReturnView | backend/sales/return_adjustment_views.py:21-87 | the view leaves the store linked, and its new tables and response are those AdjustReturn gives |
| EnhancedSales.LinesWithout | backend/sales/enhanced_views.py:133-134 | every stored line of the other sales with its multiplicity, and none of sale doc |
| EnhancedSales.LinesWithoutKeepsOrder | backend/sales/enhanced_views.py:133-134 | removing a sale's lines from two runs of lines keeps the first run's survivors before the second's, so the lines kept stay in table order |
| EnhancedSales.CreateOrUpdateOutcome | backend/sales/enhanced_views.py:23-150 | every failure is a 400, never a 404; a rejection or a "no change" writes nothing; a 201 comes only from the create branch and a 200 only from the update branch |
| EnhancedSales.CreatedSaleTakesRequestTotal | backend/sales/enhanced_views.py:41-92 | a created sale's header and entry carry the converted request total, not the lines' sum; the status defaults to unpaid; each stored line copies its requested product, quantity and price unchecked and prices it at the header's rate |
| EnhancedSales.UpdatedSaleIsDelta | backend/sales/enhanced_views.py:95-147 | an update journals the signed change and overwrites the totals as adjust-sale does; without lines the stored lines are untouched |
| EnhancedSales.UpdatedSaleLines | backend/sales/enhanced_views.py:133-147 | with lines, the stored lines become the other sales' lines in their order followed by the new lines in request order; so the sale's lines are exactly the new ones and every other sale's lines are kept |
| EnhancedSales.UnchangedTotalAnswers | backend/sales/enhanced_views.py:106-113 | an unchanged total answers 200 "no change" here and 400 in the adjust-sale view; neither writes anything |
| EnhancedSales.ReplaceLinesKeepsLinks | backend/sales/enhanced_views.py:133-147 | replacing a sale's lines by lines of that sale keeps the ledger linked |
| EnhancedSales.CheckProducts | backend/sales/enhanced_views.py:74-75 | the loop answers true exactly when every requested product is known |
| EnhancedSales.ReplaceSaleLines | backend/sales/enhanced_views.py:133-147 | the store afterwards has the sale's old lines removed and the new ones appended |
| EnhancedSales.CreateOrUpdateSale | backend/sales/enhanced_views.py:23-154 | create_or_update_sale as a plan on the tables; its promises are the rows of EnhancedSales.CreateOrUpdateOutcome, CreatedSaleTakesRequestTotal, UpdatedSaleIsDelta, UpdatedSaleLines, UnchangedTotalAnswers and ReplaceLinesKeepsLinks |
| EnhancedSales.CreateOrUpdateSaleView | backend/sales/enhanced_views.py:23-39 | the view leaves the store linked, and its new tables and response are those CreateOrUpdate gives |
| EnhancedSales.CreateSaleBranch | backend/sales/enhanced_views.py:41-92 | the create branch's tables and response are those of the create case |
| EnhancedSales.UpdateSaleBranch | backend/sales/enhanced_views.py:95-152 | the update branch's tables and response are those of the update case |
| Loans.LoanSide | backend/loans/loan_views.py:38-46 | a party code names the customer table for "customer", the supplier table for "supplier", and no table for anything else |
| Loans.RepaymentKind | backend/loans/loan_views.py:128-133 | repaying a loan whose entry is a loan given is a repayment received; repaying any other loan is a repayment made |
| Loans.GiveLoanOutcome | backend/loans/loan_views.py:26-92 | 404 exactly when the currency is valid, the party type names a party table and the party is not in it; 201 exactly when the currency is valid, the party is known and the amount is positive; an unknown party type is a 400; a rejection writes nothing |
| Loans.NewLoanMirrorsEntry | backend/loans/loan_views.py:54-78 | a new loan is active and carries its loan-given entry's party, amounts, currency and rate; the base amount is the entered amount at the latest rate; nothing else changes |
| Loans.RepayLoanOutcome | backend/loans/loan_views.py:105-123 | 404 exactly for an unknown loan; 400 for a closed loan whatever the currency and amount; 201 exactly when the loan is active and the currency and amount pass; a rejection writes nothing |
| Loans.RepaymentFollowsLoan | backend/loans/loan_views.py:125-150 | the repayment is journalled for the loan's own party with the kind its original entry calls for, and the loan closes exactly when this one repayment's base amount reaches the loan's; the loan's amounts never change |
| Loans.LoansOnlyClose | backend/loans/loan_views.py:68-78 | after either loan view every loan keeps its amounts and party, a closed loan stays closed, and no loan disappears |
| Loans.PartialRepaymentsNeverClose | backend/loans/loan_views.py:147-150 | a 100 AFN loan repaid twice with 60 AFN is still active, although 120 AFN has been repaid |
| Loans.WithLoanKeepsLinks | backend/loans/loan_views.py:57-78 | appending a loan for a fresh entry keeps the ledger linked |
| Loans.WithRepaymentKeepsLinks | backend/loans/loan_views.py:136-150 | recording a repayment keeps the ledger linked |
| Loans.AppendLoan | backend/loans/loan_views.py:57-78 | the store gains the loan-given entry and the loan row |
| Loans.ApplyRepayment | backend/loans/loan_views.py:136-150 | the store gains the repayment entry, and only the repaid loan's status may change |
| Loans.GiveLoan | backend/loans/loan_views.py:22-92 | give_loan as a plan on the tables; its promises are the rows of Loans.GiveLoanOutcome, NewLoanMirrorsEntry and WithLoanKeepsLinks |
| Loans.GiveLoanView | backend/loans/loan_views.py:22-92 | the view leaves the store linked, and its new tables and response are those GiveLoan gives |
| Loans.RepayLoan | backend/loans/loan_views.py:101-157 | repay_loan as a plan on the tables; its promises are the rows of Loans.RepayLoanOutcome, RepaymentFollowsLoan, LoansOnlyClose, PartialRepaymentsNeverClose and WithRepaymentKeepsLinks |
| Loans.RepayLoanView | backend/loans/loan_views.py:101-157 | the view leaves the store linked, and its new tables and response are those RepayLoan gives |
| Expenses.ExpenseMirrorsEntry | backend/expenses/expense_views.py:25-79 | accepted exactly when the currency is known, the category is one of the five and the amount is positive; a rejection writes nothing; an accepted one appends one entry and one expense row that agree on amounts, currency and the latest rate, and touches no other table |
| Expenses.OwnerMoveIsOneEntry | backend/expenses/expense_views.py:92-168 | a withdrawal or a deposit is accepted exactly when the currency is known and the amount positive; it writes exactly one entry of its own kind for the owner and no document |
| Expenses.StoredBaseIsRated | backend/expenses/expense_views.py:45-65 | every base amount these views store is the entered amount times the rate stored beside it |
| Expenses.ExpenseKeepsLinks | backend/expenses/expense_views.py:47-66 | an expense keeps the ledger linked |
| Expenses.OwnerMoveKeepsLinks | backend/expenses/expense_views.py:110-118 | a withdrawal or a deposit keeps the ledger linked |
| Expenses.CreateExpense | backend/expenses/expense_views.py:22-79 | create_expense as a plan on the tables; its promises are the rows of Expenses.ExpenseMirrorsEntry, StoredBaseIsRated and ExpenseKeepsLinks |
| Expenses.CreateExpenseView | backend/expenses/expense_views.py:22-79 | the view leaves the store linked, and its new tables and response are those CreateExpense gives |
| Expenses.RecordOwnerMove | backend/expenses/expense_views.py:138-179 | the withdrawal and deposit views as a plan on the tables; its promises are the rows of Expenses.OwnerMoveIsOneEntry, StoredBaseIsRated and OwnerMoveKeepsLinks |
| Expenses.RecordOwnerMoveView | backend/expenses/expense_views.py:138-179 | the withdrawal and deposit views leave the store linked, and their new tables and response are those RecordOwnerMove gives |
| PartyViews.BalanceView | backend/parties/views.py:16-40 | none for an unknown party; otherwise the base totals of the party's documents and payments, an empty sum counting as zero, and their difference as the balance |
| PartyViews.EmptySumsAreZero | backend/parties/views.py:21-31 | with no documents and no payments a known party's balance is zero |
| PartyViews.BalanceAgreesWithPayment | backend/parties/views.py:123-138 | right after a payment the balance view finds the party and reports exactly the balance the payment's response carried, the balance before the payment less its base amount |
| PartyViews.NewestFirst | backend/parties/views.py:47-49 | every entry of the customer with its multiplicity and no other entry, in descending order of creation stamp, so a backdated sale takes its place by its date |
| PartyViews.RunningLines | backend/parties/views.py:51-71 | one line per entry in the given order, each carrying the entry's signed amount and the sum of the amounts up to it; the final running balance is the sum of all amounts |
| PartyViews.StatementSigns | backend/parties/views.py:54-63 | a sale and a loan given count their base amount, every other kind its negation; so a return (stored negative) raises the balance and a positive sale adjustment lowers it |
| PartyViews.RunningBalanceSteps | backend/parties/views.py:52-71 | each line's balance is the previous line's balance plus its own amount, starting from zero |
| PartyViews.StatementView | backend/parties/views.py:42-78 | none for an unknown customer; otherwise one line per customer entry in descending stamp order, with the running balance; the current balance is the last running balance, the sum of every line's amount |
| PartyViews.InvoiceOf | backend/parties/views.py:92-109 | what a sale still owes is its base total less the payments stamped at or after it, floored at zero |
| PartyViews.InvoicesAreOpenSales | backend/parties/views.py:84-88 | the rows are the customer's open sales, in creation order |
| PartyViews.OpenSalesAreListed | backend/parties/views.py:84-88 | every open sale of the customer has its row |
| PartyViews.OutstandingNeverNegative | backend/parties/views.py:99-100 | the total owed is never negative, since no row owes a negative amount |
| PartyViews.OutstandingView | backend/parties/views.py:80-117 | none for an unknown customer; otherwise the rows of the open sales and the sum of what they owe, as the specification functions give |
| PartyViews.PaymentCountsAgainstEveryEarlierInvoice | backend/parties/views.py:92-99 | after two open 100 sales and a single 100 payment neither invoice shows anything outstanding: one payment counts against every earlier invoice |
| PartyViews.OutstandingUnderstatesBalance | backend/parties/views.py:21-31 | in that same ledger the customer's balance is still 100, so the outstanding view understates what is owed |
| Reports.ProfitLossReport | backend/reports/views.py:18-56 | the profit-and-loss figures of a period; its promises are the rows of Reports.EmptyLedgerReportsZero, ExpenseLowersNetProfit and OwnerMovesAndProfit |
| Reports.EmptyLedgerReportsZero | backend/reports/views.py:18-56 | on an empty ledger every figure of the profit-and-loss report is zero |
| Reports.ExpenseLowersNetProfit | backend/reports/views.py:33-45 | recording an expense lowers the net profit of every period containing its day by exactly its base amount and leaves revenue, costs, gross profit and withdrawals alone; other periods are unaffected |
| Reports.OwnerMovesAndProfit | backend/reports/views.py:38-45 | a withdrawal lowers the net profit of every period containing its day by exactly its base amount; a deposit changes no figure of any report |
| Reports.PositiveBalancesBound | backend/reports/views.py:76-101 | the outstanding total is never negative and is at least any one listed party's positive balance |
| Reports.Recent | backend/reports/views.py:104 | min(10, journal length) entries of the journal in descending stamp order, and no entry left out is newer than a listed one |
| Reports.NewestPrefix | backend/reports/views.py:104 | a prefix of entries sorted by descending stamp is itself descending, and every entry after it is no newer than any entry in it |
| Reports.SumPositiveBalances | backend/reports/views.py:76-87 | the loop's result is the sum of the positive balances of the listed parties |
| Reports.DashboardView | backend/reports/views.py:60-121 | today's sales and customer payments, the positive customer and supplier balances (neither total negative), and the ten entries with the latest stamps |
| Reports.BucketsPartitionDays | backend/reports/views.py:157-162 | each aging category is exactly its range of days, and an older balance never lands in a younger category |
| Reports.OldestOpen | backend/reports/views.py:143-146 | the first of the customer's open sales in table order, none when there is none |
| Reports.OldestOpenIsEarliest | backend/reports/views.py:143-146 | with headers in creation order, the first open sale has the earliest stamp |
| Reports.AgingRowOf | backend/reports/views.py:148-162 | days since the oldest open sale, zero when there is none, and the category for those days |
| Reports.AgingListsDebtors | backend/reports/views.py:129-167 | the aging report lists exactly the customers with a positive balance, and its total is the customer total the dashboard reports as outstanding |
| Reports.AgingRows | backend/reports/views.py:125-169 | one row per listed customer with a positive balance; its promises are the rows of Reports.AgingListsDebtors and AgingView |
| Reports.AgingView | backend/reports/views.py:125-169 | the loop's rows are the aging rows, and its total is their sum, which is the positive customer balances the dashboard adds up |
| Reports.CandidatesArePositive | backend/reports/views.py:188-198 | the candidate rows are exactly the listed customers with positive sales in the period |
| Reports.CollectCandidates | backend/reports/views.py:187-198 | the loop's rows are the candidate rows |
| Reports.TotalSales | backend/reports/views.py:173-208 | the key the top-customer list is sorted on; Reports.SalesSummaryView states that the list descends by it |
| Reports.SalesSummaryView | backend/reports/views.py:173-208 | the period's sales total and count, and the customers with positive sales in it, largest first, at most ten |
| Books.NewestWhere | backend-dotnetcore/ShopManagementSystem.Application/Services/FinancialService.cs:90-95 | none exactly when no row is selected; otherwise a selected row that no selected row follows in (Date, Id) order |
| Books.Books.constructor | backend-dotnetcore/ShopManagementSystem.Application/Services/FinancialService.cs:19-26 | books over the given currencies, rates, parties and items, with every ledger and document table empty and the tables well formed |
| Financial.RecordCash | backend-dotnetcore/ShopManagementSystem.Application/Services/FinancialService.cs:28-48 | exactly one entry is appended to the cash book and nothing else changes; its balance-after is the cash balance plus cash in less cash out; identities stay positional |
| Financial.RecordCustomer | backend-dotnetcore/ShopManagementSystem.Application/Services/FinancialService.cs:50-68 | exactly one entry is appended to the customer ledger and nothing else changes; its balance-after is the customer's balance plus credit less payment |
| Financial.RecordSupplier | backend-dotnetcore/ShopManagementSystem.Application/Services/FinancialService.cs:70-88 | exactly one entry is appended to the supplier ledger and nothing else changes; its balance-after is the supplier's balance plus credit less payment |
| Financial.CashBalanceAfterRecord | backend-dotnetcore/ShopManagementSystem.Application/Services/FinancialService.cs:90-95 | the new entry decides the cash balance exactly when no entry is dated after it, and then the balance moves by cash in less cash out; a back-dated entry leaves the balance where it was |
| Financial.PartyBalanceAfterRecord | backend-dotnetcore/ShopManagementSystem.Application/Services/FinancialService.cs:97-115 | the same for a party's ledger, and every other party's balance is unchanged |
| Financial.CustomerPaymentBooks | backend-dotnetcore/ShopManagementSystem.Application/Services/FinancialService.cs:117-158 | one payment row, one cash entry and one customer entry that refer to it, and nothing else; cash in is amount times rate; the customer ledger is paid the unconverted amount; when dated no earlier than every entry, the cash balance rises by amount times rate and the customer's balance falls by the amount |
| Financial.SupplierPaymentBooks | backend-dotnetcore/ShopManagementSystem.Application/Services/FinancialService.cs:160-201 | one payment row, one cash entry and one supplier entry and nothing else; cash out is amount times rate; when dated no earlier than every entry, the cash balance falls by amount times rate and the supplier's balance by the amount |
| Financial.RecordCashTransaction | backend-dotnetcore/ShopManagementSystem.Application/Services/FinancialService.cs:28-48 | the books afterwards are RecordCash of the books before, and stay well formed |
| Financial.RecordCustomerTransaction | backend-dotnetcore/ShopManagementSystem.Application/Services/FinancialService.cs:50-68 | the books afterwards are RecordCustomer of the books before, and stay well formed |
| Financial.RecordSupplierTransaction | backend-dotnetcore/ShopManagementSystem.Application/Services/FinancialService.cs:70-88 | the books afterwards are RecordSupplier of the books before, and stay well formed |
| Financial.RecordCustomerPaymentView | backend-dotnetcore/ShopManagementSystem.Application/Services/FinancialService.cs:117-158 | the books afterwards are RecordCustomerPayment of the books before, and stay well formed |
| Financial.RecordSupplierPaymentView | backend-dotnetcore/ShopManagementSystem.Application/Services/FinancialService.cs:160-201 | the books afterwards are RecordSupplierPayment of the books before, and stay well formed |
| Financial.CashBalance | backend-dotnetcore/ShopManagementSystem.Application/Services/FinancialService.cs:90-95 | 0 for an empty book; otherwise the balance-after of an entry no other entry follows by (date, id) |
| Financial.PartyBalance | backend-dotnetcore/ShopManagementSystem.Application/Services/FinancialService.cs:97-115 | the balance-after of the party's newest entry by (date, id); with no entry, the opening balance of the first party with the id; for an unknown party, 0 |
| Financial.RecordCustomerPayment | backend-dotnetcore/ShopManagementSystem.Application/Services/FinancialService.cs:117-158 | one payment row, one cash entry and one customer entry appended and nothing else changed; the cash entry's balance-after is the cash balance plus amount x rate, the customer entry's the customer balance less the amount |
| Financial.RecordSupplierPayment | backend-dotnetcore/ShopManagementSystem.Application/Services/FinancialService.cs:160-201 | one payment row, one cash entry and one supplier entry appended and nothing else changed; the cash entry's balance-after is the cash balance less amount x rate, the supplier entry's the supplier balance less the amount |
| RateRepository.ActiveRate | backend-dotnetcore/ShopManagementSystem.Infrastructure/Repositories/CurrencyExchangeRateRepository.cs:14-22 | none exactly when the currency has no active row; otherwise an active row of the currency with no active row of it dated later |
| RateRepository.ActiveRateIgnoresDate | backend-dotnetcore/ShopManagementSystem.Infrastructure/Repositories/CurrencyExchangeRateRepository.cs:14-22 | the same row comes back whatever date is asked about |
| RateRepository.History | backend-dotnetcore/ShopManagementSystem.Infrastructure/Repositories/CurrencyExchangeRateRepository.cs:24-30 | exactly the currency's rows, inactive ones included, with their multiplicities, latest effective date first |
| Sorting.SortDescBy | backend/reports/views.py:200 | the same rows with the same multiplicities, in descending order of the key |
| Sorting.InsertKeepsDescending | backend/reports/views.py:200 | inserting a row into a descending sequence keeps it descending |
| CurrencyExchange.RateToAfghaniMeans | backend-dotnetcore/ShopManagementSystem.Application/Services/CurrencyExchangeService.cs:22-36 | 1 for the afghani; for any other currency success exactly when it has an active row, with the rate of the newest one |
| CurrencyExchange.RateToAfghani | backend-dotnetcore/ShopManagementSystem.Application/Services/CurrencyExchangeService.cs:22-36 | a failed lookup names the currency that has no active rate |
| CurrencyExchange.RateIsPositive | backend-dotnetcore/ShopManagementSystem.Application/Services/CurrencyExchangeService.cs:22-36 | with positive stored rates every rate the lookup answers is positive |
| CurrencyExchange.AfghaniRoundTrip | backend-dotnetcore/ShopManagementSystem.Application/Services/CurrencyExchangeService.cs:38-52 | with positive rates, into afghanis and back returns the amount, in exact arithmetic (decimal division rounds) |
| CurrencyExchange.ConvertThroughAfghani | backend-dotnetcore/ShopManagementSystem.Application/Services/CurrencyExchangeService.cs:54-61 | between two different currencies, success exactly when both ids are positive and both rates resolve, the target's to a nonzero rate; the result is the amount times the one rate divided by the other |
| CurrencyExchange.ConvertRoundTrip | backend-dotnetcore/ShopManagementSystem.Application/Services/CurrencyExchangeService.cs:54-61 | whenever a conversion succeeds, converting back succeeds and returns the amount, in exact arithmetic (decimal division rounds) |
| CurrencyExchange.AfghaniConvertsUnchanged | backend-dotnetcore/ShopManagementSystem.Application/Services/CurrencyExchangeService.cs:38-52 | the afghani converts to and from afghanis unchanged |
| CurrencyExchange.ConvertToAfghani | backend-dotnetcore/ShopManagementSystem.Application/Services/CurrencyExchangeService.cs:38-44 | a non-positive id is rejected; otherwise success exactly when the rate lookup succeeds, with the amount times that rate; the afghani converts unchanged |
| CurrencyExchange.ConvertFromAfghani | backend-dotnetcore/ShopManagementSystem.Application/Services/CurrencyExchangeService.cs:46-52 | a non-positive id is rejected; otherwise success exactly when the rate lookup gives a nonzero rate, with a result that times the rate gives the amount back; the afghani converts unchanged |
| CurrencyExchange.Convert | backend-dotnetcore/ShopManagementSystem.Application/Services/CurrencyExchangeService.cs:54-61 | the amount unchanged between equal ids; between different ids, a result that times the target's rate equals the amount times the source's rate |
| CurrencyExchange.DeactivateAll | backend-dotnetcore/ShopManagementSystem.Application/Services/CurrencyExchangeService.cs:73-80 | the same rows in order, each active row of the currency deactivated and every other row kept |
| CurrencyExchange.SetRateOutcome | backend-dotnetcore/ShopManagementSystem.Application/Services/CurrencyExchangeService.cs:63-117 | set exactly when the rate is positive, and a rejection changes nothing; afterwards the new row carries the rate and is the currency's only active row, only the rate and currency tables change, and the tables stay well formed |
| CurrencyExchange.CurrenciesKeepIds | backend-dotnetcore/ShopManagementSystem.Application/Services/CurrencyExchangeService.cs:98-104 | setting a rate changes nothing of any currency but a current rate, and only that of the currency it sets, which takes the new rate when it is positive; ids and codes stay |
| CurrencyExchange.SetRateKeepsWellFormed | backend-dotnetcore/ShopManagementSystem.Application/Services/CurrencyExchangeService.cs:63-117 | setting a rate keeps the tables well formed |
| CurrencyExchange.SetRate | backend-dotnetcore/ShopManagementSystem.Application/Services/CurrencyExchangeService.cs:63-117 | success exactly for a positive rate, a rejection changing nothing; on success only the rate and currency tables change, and the returned row is the appended active row with the currency and rate given |
| CurrencyExchange.DeactivateRates | backend-dotnetcore/ShopManagementSystem.Application/Services/CurrencyExchangeService.cs:73-80 | the loop leaves the rate table as DeactivateAll of the old one and changes nothing else |
| CurrencyExchange.SetExchangeRate | backend-dotnetcore/ShopManagementSystem.Application/Services/CurrencyExchangeService.cs:63-117 | the books afterwards and the result are those SetRate gives, and the books stay well formed |
| CurrencyExchange.Upper | backend-dotnetcore/ShopManagementSystem.Application/Services/CurrencyExchangeService.cs:130 | the same length, every lower-case ASCII letter raised and every other character kept |
| CurrencyExchange.CurrencyWithCode | backend-dotnetcore/ShopManagementSystem.Application/Services/CurrencyExchangeService.cs:130 | none exactly when no code matches the key in either case; otherwise the first currency whose code matches |
| CurrencyExchange.UpdateRatesKeepsCurrencies | backend-dotnetcore/ShopManagementSystem.Application/Services/CurrencyExchangeService.cs:124-136 | the batch keeps the tables well formed, changes only the rate and currency tables, and never changes a currency's id or code |
| CurrencyExchange.UpdateRatesFailsOnBadRate | backend-dotnetcore/ShopManagementSystem.Application/Services/CurrencyExchangeService.cs:124-136 | the batch fails exactly when one of its entries names a non-afghani currency and carries a non-positive rate, and then with that error |
| CurrencyExchange.UpdateRates | backend-dotnetcore/ShopManagementSystem.Application/Services/CurrencyExchangeService.cs:124-136 | the only failure is a non-positive rate, and the currency table keeps its length |
| CurrencyExchange.UpdateOneOutcome | backend-dotnetcore/ShopManagementSystem.Application/Services/CurrencyExchangeService.cs:128-135 | one entry fails exactly when it names a non-afghani currency with a non-positive rate, and leaves every key as settable as it was |
| CurrencyExchange.UpdateOne | backend-dotnetcore/ShopManagementSystem.Application/Services/CurrencyExchangeService.cs:128-135 | fails exactly for a non-positive rate of a currency other than the afghani that the key names, changing nothing then; a key naming no such currency changes nothing |
| CurrencyExchange.UpdateOneRate | backend-dotnetcore/ShopManagementSystem.Application/Services/CurrencyExchangeService.cs:128-135 | the books and the result of one loop step are those UpdateOne gives |
| CurrencyExchange.UpdateExchangeRates | backend-dotnetcore/ShopManagementSystem.Application/Services/CurrencyExchangeService.cs:124-136 | the books afterwards and the result are those UpdateRates gives, and the books stay well formed |
| MultiCurrency.ExchangeRate | backend-dotnetcore/ShopManagementSystem.Application/Services/MultiCurrencyService.cs:44-47 | exactly 1 for the afghani, positive whenever the stored rates are, and a missing rate fails with that currency's error |
| MultiCurrency.ToBaseAgrees | backend-dotnetcore/ShopManagementSystem.Application/Services/MultiCurrencyService.cs:23-31 | into the base currency agrees with the exchange service for every positive id; a non-positive id that names no afghani row is rejected |
| MultiCurrency.FromBaseAgrees | backend-dotnetcore/ShopManagementSystem.Application/Services/MultiCurrencyService.cs:33-42 | out of the base currency agrees with the exchange service for every positive id; for a non-positive id that names no afghani row the rate lookup decides, not the id check |
| MultiCurrency.BaseRoundTrip | backend-dotnetcore/ShopManagementSystem.Application/Services/MultiCurrencyService.cs:23-42 | with positive rates, into the base currency and back returns the amount, in exact arithmetic (decimal division rounds) |
| MultiCurrency.ConvertToBase | backend-dotnetcore/ShopManagementSystem.Application/Services/MultiCurrencyService.cs:23-31 | unchanged for the afghani; on success the amount times the currency's rate to the afghani |
| MultiCurrency.ConvertFromBase | backend-dotnetcore/ShopManagementSystem.Application/Services/MultiCurrencyService.cs:33-42 | unchanged for the afghani; on success a result that times the currency's rate gives the amount back |
| HandlerLines.StoredLines | backend-dotnetcore/ShopManagementSystem.Application/Handlers/CreateSaleHandler.cs:58-71 | one stored row per requested line, each the line as given with its quantity and total negated on a return |
| HandlerLines.StoredLinesTotal | backend-dotnetcore/ShopManagementSystem.Application/Handlers/CreatePurchaseHandler.cs:51-64 | the stored lines add up to the request total, negated on a return |
| HandlerLines.BuildLines | backend-dotnetcore/ShopManagementSystem.Application/Handlers/CreateSalesReturnHandler.cs:50-63 | the loop's rows are StoredLines of the request, and they add up to the signed request total |
| SaleHandler.FirstLineErrorIsFirst | backend-dotnetcore/ShopManagementSystem.Application/Handlers/CreateSaleHandler.cs:169-183 | the lines pass exactly when every line is valid; otherwise the error is that of the first invalid line |
| SaleHandler.ValidateSale | backend-dotnetcore/ShopManagementSystem.Application/Handlers/CreateSaleHandler.cs:153-192 | passes exactly when the currency id is positive and known, there are lines, every line is valid, and a positive customer id names a customer |
| SaleHandler.CreateSale | backend-dotnetcore/ShopManagementSystem.Application/Handlers/CreateSaleHandler.cs:22-151 | a failure writes nothing; a success appends the returned sale as the next row of the sales table |
| SaleHandler.SaleOutcome | backend-dotnetcore/ShopManagementSystem.Application/Handlers/CreateSaleHandler.cs:22-151 | the sale is created exactly when the request is acceptable, and otherwise nothing is written; the error is that of the first failing check: a non-positive currency id, an unknown currency, no lines, the first invalid line's error, then an unknown customer |
| SaleHandler.SaleDocument | backend-dotnetcore/ShopManagementSystem.Application/Handlers/CreateSaleHandler.cs:40-71 | the sales row Handle builds; its signs and amounts are the row of SaleHandler.SaleDocumentSigns |
| SaleHandler.SaleDocumentSigns | backend-dotnetcore/ShopManagementSystem.Application/Handlers/CreateSaleHandler.cs:40-71 | total, cash and credit are negated on a return; cash plus credit is the total; the lines add up to the document total, with negated quantities on a return and prices as given |
| SaleHandler.SaleBooks | backend-dotnetcore/ShopManagementSystem.Application/Handlers/CreateSaleHandler.cs:40-139 | an accepted sale writes the sale, a cash entry exactly when cash was received, a customer entry exactly when a customer is given and the credit is nonzero, and nothing else; every appended row takes the next identity |
| SaleHandler.SaleCashEntry | backend-dotnetcore/ShopManagementSystem.Application/Handlers/CreateSaleHandler.cs:73-109 | cash in of the cash received at the booking rate for a sale, cash out for a return; dated no earlier than the book, it moves the cash balance by that much |
| SaleHandler.SaleCustomerEntry | backend-dotnetcore/ShopManagementSystem.Application/Handlers/CreateSaleHandler.cs:111-139 | a sale raises the customer's balance by the credit; a return lowers it by the magnitude of the credit; other customers' balances do not move |
| SaleHandler.ValidateForeignKeys | backend-dotnetcore/ShopManagementSystem.Application/Handlers/CreateSaleHandler.cs:153-192 | the loop's verdict is the specification's verdict on the currency id, the currency, the lines and the customer |
| SaleHandler.BookSale | backend-dotnetcore/ShopManagementSystem.Application/Handlers/CreateSaleHandler.cs:40-139 | Handle's writes as a plan on the books; its promises are the rows of SaleHandler.SaleBooks, SaleCashEntry, SaleCustomerEntry and BookSaleView |
| SaleHandler.BookSaleView | backend-dotnetcore/ShopManagementSystem.Application/Handlers/CreateSaleHandler.cs:40-139 | the books afterwards are BookSale of the books before, and stay well formed |
| SaleHandler.CreateSaleView | backend-dotnetcore/ShopManagementSystem.Application/Handlers/CreateSaleHandler.cs:22-151 | the books afterwards and the result are those CreateSale gives, and the books stay well formed |
| PurchaseHandler.PurchaseOutcome | backend-dotnetcore/ShopManagementSystem.Application/Handlers/CreatePurchaseHandler.cs:22-144 | the purchase is created exactly when the supplier exists, whatever its lines, currency and amounts; otherwise nothing is written |
| PurchaseHandler.CreatePurchase | backend-dotnetcore/ShopManagementSystem.Application/Handlers/CreatePurchaseHandler.cs:22-144 | a failure writes nothing; a success appends the returned purchase as the next row of the purchases table |
| PurchaseHandler.PurchaseDocumentSigns | backend-dotnetcore/ShopManagementSystem.Application/Handlers/CreatePurchaseHandler.cs:38-64 | total, cash and credit are negated on a return; cash plus credit is the total; the lines add up to the total, with negated quantities on a return and costs as given |
| PurchaseHandler.PurchaseBooks | backend-dotnetcore/ShopManagementSystem.Application/Handlers/CreatePurchaseHandler.cs:38-132 | an accepted purchase writes the purchase, a cash entry exactly when cash was paid, a supplier entry exactly when the credit is nonzero, and nothing else; every appended row takes the next identity |
| PurchaseHandler.PurchaseCashEntry | backend-dotnetcore/ShopManagementSystem.Application/Handlers/CreatePurchaseHandler.cs:66-102 | cash out of the cash paid at the booking rate for a purchase, cash in for a return; dated no earlier than the book, it moves the cash balance by that much |
| PurchaseHandler.PurchaseSupplierEntry | backend-dotnetcore/ShopManagementSystem.Application/Handlers/CreatePurchaseHandler.cs:104-132 | a purchase raises the supplier's balance by the credit; a return lowers it by the magnitude of the credit; other suppliers' balances do not move |
| PurchaseHandler.BookPurchase | backend-dotnetcore/ShopManagementSystem.Application/Handlers/CreatePurchaseHandler.cs:38-132 | Handle's writes as a plan on the books; its promises are the rows of PurchaseHandler.PurchaseDocumentSigns, PurchaseBooks, PurchaseCashEntry, PurchaseSupplierEntry and BookPurchaseView |
| PurchaseHandler.BookPurchaseView | backend-dotnetcore/ShopManagementSystem.Application/Handlers/CreatePurchaseHandler.cs:38-132 | the books afterwards are BookPurchase of the books before, and stay well formed |
| PurchaseHandler.CreatePurchaseView | backend-dotnetcore/ShopManagementSystem.Application/Handlers/CreatePurchaseHandler.cs:22-144 | the books afterwards and the result are those CreatePurchase gives, and the books stay well formed |
| SalesReturnHandler.ReturnOutcome | backend-dotnetcore/ShopManagementSystem.Application/Handlers/CreateSalesReturnHandler.cs:22-107 | the return is created exactly when the customer exists; otherwise nothing is written |
| SalesReturnHandler.CreateSalesReturn | backend-dotnetcore/ShopManagementSystem.Application/Handlers/CreateSalesReturnHandler.cs:22-107 | a failure writes nothing; a success appends the returned return as the next row of the returns table |
| SalesReturnHandler.ReturnDocumentAmounts | backend-dotnetcore/ShopManagementSystem.Application/Handlers/CreateSalesReturnHandler.cs:38-63 | the stored return keeps the request's signs: its total is the request total, cash plus credit refund make the total, and its lines are the request lines unchanged, adding up to the total |
| SalesReturnHandler.ReturnBooks | backend-dotnetcore/ShopManagementSystem.Application/Handlers/CreateSalesReturnHandler.cs:38-95 | an accepted return writes the document, a cash entry exactly when cash was refunded, a customer entry exactly when the credit refund is positive, and nothing else |
| SalesReturnHandler.ReturnCashRefund | backend-dotnetcore/ShopManagementSystem.Application/Handlers/CreateSalesReturnHandler.cs:65-82 | the cash refund is a cash out at the booking rate, which lowers the cash balance by that much when dated no earlier than the book |
| SalesReturnHandler.ReturnCreditRefund | backend-dotnetcore/ShopManagementSystem.Application/Handlers/CreateSalesReturnHandler.cs:84-95 | the credit refund is a payment referring to no document and no payment, which lowers the customer's balance by it when dated no earlier than the customer's entries |
| SalesReturnHandler.BookReturn | backend-dotnetcore/ShopManagementSystem.Application/Handlers/CreateSalesReturnHandler.cs:38-95 | Handle's writes as a plan on the books; its promises are the rows of SalesReturnHandler.ReturnDocumentAmounts, ReturnBooks, ReturnCashRefund, ReturnCreditRefund and BookReturnView |
| SalesReturnHandler.BookReturnView | backend-dotnetcore/ShopManagementSystem.Application/Handlers/CreateSalesReturnHandler.cs:38-95 | the books afterwards are BookReturn of the books before, and stay well formed |
| SalesReturnHandler.CreateSalesReturnView | backend-dotnetcore/ShopManagementSystem.Application/Handlers/CreateSalesReturnHandler.cs:22-107 | the books afterwards and the result are those CreateSalesReturn gives, and the books stay well formed |
| CurrenciesController.ClearOtherBases | backend-dotnetcore/ShopManagementSystem.API/Controllers/CurrenciesController.cs:60-69 | the same currencies in order, each other than the given id with its base flag cleared |
| CurrenciesController.UpdateOutcome | backend-dotnetcore/ShopManagementSystem.API/Controllers/CurrenciesController.cs:46-74 | a missing id changes nothing; otherwise the currency with the id carries the posted fields, every other currency keeps everything but possibly its base flag, and no id changes |
| CurrenciesController.UpdateCurrency | backend-dotnetcore/ShopManagementSystem.API/Controllers/CurrenciesController.cs:46-74 | the table keeps its length; none, and nothing changed, exactly when no currency has the id; otherwise the answer has the id and the posted code and base flag |
| CurrenciesController.UpdateMakesSoleBase | backend-dotnetcore/ShopManagementSystem.API/Controllers/CurrenciesController.cs:60-69 | when the updated currency becomes the base, it is the only base currency afterwards |
| CurrenciesController.UpdateWithoutBaseKeepsOthers | backend-dotnetcore/ShopManagementSystem.API/Controllers/CurrenciesController.cs:46-74 | an update that does not make the currency the base touches no other currency |
| CurrenciesController.ClearingTheBaseLeavesNone | backend-dotnetcore/ShopManagementSystem.API/Controllers/CurrenciesController.cs:46-74 | an example: clearing the base flag of the only base currency leaves no base currency at all |
| CurrenciesController.NextId | backend-dotnetcore/ShopManagementSystem.API/Controllers/CurrenciesController.cs:37-44 | a positive identity larger than every identity in use |
| CurrenciesController.CreateCurrency | backend-dotnetcore/ShopManagementSystem.API/Controllers/CurrenciesController.cs:37-44 | the posted currency is appended as given under a fresh identity, and identities stay distinct |
| CurrenciesController.DeleteCurrency | backend-dotnetcore/ShopManagementSystem.API/Controllers/CurrenciesController.cs:76-86 | none exactly when no currency has the id; otherwise one currency fewer, none new, and, with distinct ids, none with the id |
| CurrenciesController.CreateAndDeleteIgnoreBase | backend-dotnetcore/ShopManagementSystem.API/Controllers/CurrenciesController.cs:37-86 | an example: creating a second base currency leaves two, and deleting the only one leaves none |
| CurrenciesController.UpdateCurrencyView | backend-dotnetcore/ShopManagementSystem.API/Controllers/CurrenciesController.cs:46-74 | the currency table afterwards and the answer are those UpdateCurrency gives; nothing else changes |
| CurrenciesController.CreateCurrencyView | backend-dotnetcore/ShopManagementSystem.API/Controllers/CurrenciesController.cs:37-44 | the currency table afterwards and the created currency are those CreateCurrency gives |
| CurrenciesController.DeleteCurrencyView | backend-dotnetcore/ShopManagementSystem.API/Controllers/CurrenciesController.cs:76-86 | false exactly when no currency has the id; the table afterwards is DeleteCurrency's result, or unchanged |
| IsoDate.ToIsoDate | frontend/src/utils/functions/date.ts:24-53 | the empty string for a missing, empty, non-string or unrecognised value; a full ISO string comes back as it is; any other non-empty result is a full ISO string with the date, and the time when one was given, of the input |
| IsoDate.ToIsoDateIdempotent | frontend/src/utils/functions/date.ts:24-53 | completing a completed string changes nothing |
| IsoDate.IsStartBeforeEnd | frontend/src/utils/functions/date.ts:81-84 | true when either date is missing or empty, otherwise by string order; IsoDate.DateOrderIsStringOrder states that this is calendar order for year-month-day dates |
| IsoDate.DateOrderIsStringOrder | frontend/src/utils/functions/date.ts:81-84 | for two dates written year-month-day, the start is before or on the end exactly when it is so in the calendar |
| IsoDate.DateFields | frontend/src/utils/functions/date.ts:81-84 | two such dates compare by year, then month, then day |
| IsoDate.DigitOrder | frontend/src/utils/functions/date.ts:81-84 | for digit strings of one length, string order is numeric order and equal strings are equal numbers |
| EnglishDigits.EnglishDigit | frontend/src/ui-custom/formik/FormikTextField.tsx:6-30 | a Persian or Arabic-Indic digit becomes the ASCII digit of the same value; any other character is kept |
| EnglishDigits.ToEnglishDigits | frontend/src/ui-custom/formik/FormikTextField.tsx:6-30 | the same length, every character replaced on its own |
| EnglishDigits.NormalisedText | frontend/src/ui-custom/formik/FormikTextField.tsx:36-40 | no eastern digit is left, and text without one comes back unchanged |
| EnglishDigits.Idempotent | frontend/src/ui-custom/formik/FormikTextField.tsx:36-40 | normalising twice is normalising once |
| EnglishDigits.SameNumber | frontend/src/ui-custom/formik/FormikTextField.tsx:6-30 | a number typed in eastern digits reads as the same number once normalised |
| InputHelpers.DefaultWhenMissing | frontend/src/utils/functions/inputHelpers.ts:3-8 | the value when there is one, the default for null or undefined |
| InputHelpers.SomeHas | frontend/src/utils/functions/inputHelpers.ts:10-22 | true exactly when some entity carries the value as a string under the key |
| InputHelpers.DefaultWhenNotListed | frontend/src/utils/functions/inputHelpers.ts:10-22 | the value exactly when it is there, the entities are there and one of them carries it under the key; the default in every other case |
| InputHelpers.FilledValues | frontend/src/utils/functions/inputHelpers.ts:36-42 | a value counts as filled exactly when it is a non-empty string or something other than a string, null or undefined |
| InputHelpers.StripIndexes | frontend/src/utils/functions/inputHelpers.ts:46 | removing index groups never lengthens a key |
| InputHelpers.StripWithoutBrackets | frontend/src/utils/functions/inputHelpers.ts:46 | a key without an opening bracket is left as it is |
| InputHelpers.StripDropsIndex | frontend/src/utils/functions/inputHelpers.ts:46 | a bracketed decimal index is removed and what follows is stripped in turn |
| InputHelpers.StripIndexedKey | frontend/src/utils/functions/inputHelpers.ts:46 | a key with one index group loses the group and keeps the text around it |
| InputHelpers.StripNestedIndexes | frontend/src/utils/functions/inputHelpers.ts:46 | several index groups in a row all go |
| InputHelpers.StripScansOnce | frontend/src/utils/functions/inputHelpers.ts:46 | the key is scanned once from the left, so a group that forms only after a removal stays |
| InputHelpers.StripSplits | frontend/src/utils/functions/inputHelpers.ts:46 | text that leaves no group open is stripped on its own, whatever follows it |
| InputHelpers.HasMatchingKeysMeans | frontend/src/utils/functions/inputHelpers.ts:44-52 | true exactly when some error key, with its index groups removed, is one of the keys to check |
| ZodPaths.JoinedPath | frontend/src/utils/types/FormikZodWrapper.ts:12-19 | the path createZodErrors reports; its promises are the rows of ZodPaths.JoinedPathSplits and KeysOnlyAgree |
| ZodPaths.JoinedPathSplits | frontend/src/utils/types/FormikZodWrapper.ts:12-19 | when no key holds a dot, the joined path splits back into the steps it was made from |
| ZodPaths.Push | frontend/src/utils/types/FormikZodWrapper.ts:65-77 | a key becomes a new segment after the others; an index is written in brackets after the last segment, or after undefined when there is none |
| ZodPaths.ErrorKey | frontend/src/utils/types/FormikZodWrapper.ts:65-77 | the key getZodValidationsResult stores an issue under; its promises are the rows of ZodPaths.KeyIndexKey, ErrorKeyExample, LeadingIndex, KeysOnlyAgree and StrippedErrorKey |
| ZodPaths.KeyIndexKey | frontend/src/utils/types/FormikZodWrapper.ts:65-77 | an index after a key is written in brackets after it, and the next key starts a new dotted segment |
| ZodPaths.ErrorKeyExample | frontend/src/utils/types/FormikZodWrapper.ts:65-77 | the quantity of the first item is reported under items[0].qty |
| ZodPaths.LeadingIndex | frontend/src/utils/types/FormikZodWrapper.ts:69-72 | an index with no key before it is written after the text undefined |
| ZodPaths.KeysOnlyAgree | frontend/src/utils/types/FormikZodWrapper.ts:12-19 | for a path of keys alone, getZodValidationsResult stores the message under the same text createZodErrors reports |
| ZodPaths.StrippedErrorKey | frontend/src/utils/types/FormikZodWrapper.ts:65-77 | removing the index groups from the key of an issue whose path starts with a key gives its key names joined with dots |
| ZodPaths.Collected | frontend/src/utils/types/FormikZodWrapper.ts:65-87 | the keys of the result are exactly the formatted keys of the issues |
| ZodPaths.LastIssueWins | frontend/src/utils/types/FormikZodWrapper.ts:77 | the message stored under a key is that of the last issue with that key |
| ZodPaths.ValidationsResult | frontend/src/utils/types/FormikZodWrapper.ts:65-87 | the loop's map is Collected of the issues |
| ZodPaths.IssueMatchesField | frontend/src/utils/types/FormikZodWrapper.ts:65-87 | a form asking by a field's plain dotted name finds an issue reported for any array element on the way to that field |
| DataTable.FilteredRows | frontend/src/ui-custom/table/DataTable.tsx:57-69 | every row for a search that is blank once trimmed; otherwise each row with a value containing the search text, compared in lower case, with its multiplicity, and no other row |
| DataTable.FilteredRowsKeepOrder | frontend/src/ui-custom/table/DataTable.tsx:57-69 | filtering two runs of rows keeps the first run's matches before the second's, so the rows shown stay in their order |
| DataTable.ExactValueFound | frontend/src/ui-custom/table/DataTable.tsx:57-69 | a row with a value equal to the search text, in any case, is found |
| DataTable.SortedRows | frontend/src/ui-custom/table/DataTable.tsx:71-84 | the same rows with the same multiplicities, left as they are unless a sortable column is chosen; when one is, nulls come last, and a column of numbers or of texts is in order in the chosen direction |
| DataTable.SortBy | frontend/src/ui-custom/table/DataTable.tsx:71-84 | the same rows with the same multiplicities; its order is the rows of DataTable.SortOrdersNumbers, SortOrdersText and SortPutsNullsLast |
| DataTable.InsertKeepsOrdered | frontend/src/ui-custom/table/DataTable.tsx:71-84 | inserting a row into an ordered numeric column keeps it ordered |
| DataTable.SortOrdersNumbers | frontend/src/ui-custom/table/DataTable.tsx:71-84 | sorting a numeric column puts nulls last and the numbers in the chosen direction |
| DataTable.InsertKeepsTextOrdered | frontend/src/ui-custom/table/DataTable.tsx:71-84 | inserting a row into an ordered text column keeps it ordered |
| DataTable.SortOrdersText | frontend/src/ui-custom/table/DataTable.tsx:71-84 | sorting a column of texts and nulls puts nulls last and the texts in character order, reversed for a descending sort |
| DataTable.InsertKeepsNullsLast | frontend/src/ui-custom/table/DataTable.tsx:77-78 | inserting a row keeps the nulls last, whatever the column holds |
| DataTable.SortPutsNullsLast | frontend/src/ui-custom/table/DataTable.tsx:77-78 | sorting on any column, numbers, texts or both, puts the nulls after every other value |
| DataTable.Compare | frontend/src/ui-custom/table/DataTable.tsx:74-82 | a null on the left goes after, a null on the right before; two numbers order by value and two texts by character order, each in the chosen direction, and two texts tie exactly when equal |
| DataTable.SliceRows | frontend/src/ui-custom/table/DataTable.tsx:280 | the rows between the two ends clamped to the length, and none when the end is not after the start |
| DataTable.PageRows | frontend/src/ui-custom/table/DataTable.tsx:280 | at most a page of rows, each the row at its position from the page's first row, and none past the end |
| DataTable.EmptyRows | frontend/src/ui-custom/table/DataTable.tsx:197 | no blank rows on the first page or on a full later page |
| DataTable.PageIsFilled | frontend/src/ui-custom/table/DataTable.tsx:197-280 | on a later page of an unfiltered table that starts within the rows, the rows shown and the blank rows make exactly one page |
| DataTable.Exportable | frontend/src/ui-custom/table/DataTable.tsx:168-170 | each column not hidden in print with its multiplicity, and no hidden column |
| DataTable.ExportableKeepsOrder | frontend/src/ui-custom/table/DataTable.tsx:168-170 | the exported columns of two runs of columns keep the first run's before the second's, so the CSV columns follow the table's column order |
| DataTable.EscapeRoundTrip | frontend/src/ui-custom/table/DataTable.tsx:172-181 | unescaping undoes the doubling of quotes |
| DataTable.Escape | frontend/src/ui-custom/table/DataTable.tsx:172-181 | every quote doubled, so the text never gets shorter |
| DataTable.CellRoundTrip | frontend/src/ui-custom/table/DataTable.tsx:172-181 | every data cell of the CSV reads back as the text of its value |
| DataTable.HeaderQuoteBreaks | frontend/src/ui-custom/table/DataTable.tsx:168-170 | header labels are quoted without escaping, so a label holding a quote does not read back |
| DataTable.CsvLines | frontend/src/ui-custom/table/DataTable.tsx:167-183 | the header line of the exported columns, then one line per sorted row, in order |
| DataTable.Csv | frontend/src/ui-custom/table/DataTable.tsx:167-183 | the content starts with the header line of the exported columns, and is only that line when there are no rows |
| FiscalYear.ToDayMonth | frontend/src/utils/functions/fiscal-year/fiscalYearUtils.ts:11-16 | for up to four characters, the value padded with zeros to four, shown as two characters, a slash and two characters; a longer value shows its first four that way |
| FiscalYear.StripLeadingZeros | frontend/src/utils/functions/fiscal-year/fiscalYearUtils.ts:35 | a suffix of the input after a run of zeros, itself not starting with a zero |
| FiscalYear.DayMonthRoundTrip | frontend/src/utils/functions/fiscal-year/fiscalYearUtils.ts:11-40 | for a two-character day and month, showing the stored form of the day and month gives them back |
| FiscalYear.ToCharOfShortDay | frontend/src/utils/functions/fiscal-year/fiscalYearUtils.ts:28-40 | a one-digit day stays unpadded in front, so 3/9 is stored as 309, not as the 0309 the function's own comment gives |
| FiscalYear.ToChar | frontend/src/utils/functions/fiscal-year/fiscalYearUtils.ts:28-40 | "0" exactly for an empty value or one that is not two pieces around a slash |
| FiscalYear.AddTwelveMonthsKeeps | frontend/src/utils/functions/fiscal-year/fiscalYearUtils.ts:52-86 | twelve months on from a month of the year is the same month |
| FiscalYear.AddingMonths | frontend/src/utils/functions/fiscal-year/fiscalYearUtils.ts:52-86 | the end boundary for a start boundary; its promises are the rows of FiscalYear.AddTwelveMonthsKeeps, AddingMonthsIsDayBefore and AddingMonthsExample |
| FiscalYear.AddingMonthsIsDayBefore | frontend/src/utils/functions/fiscal-year/fiscalYearUtils.ts:52-86 | for a boundary with a month from 1 to 12, the result is the day before it, in the same month or, from the first of a month, the last day of the month before |
| FiscalYear.AddingMonthsExample | frontend/src/utils/functions/fiscal-year/fiscalYearUtils.ts:52-86 | 3009 gives 2909, the day before in the same month, not the 2910 the function's own comment gives |
| FiscalYear.AllToDayMonth | frontend/src/utils/functions/fiscal-year/fiscalYearUtils.ts:97-103 | both boundaries of every record shown as day and month, and nothing else of the records changed |
| FiscalYear.AllToChar | frontend/src/utils/functions/fiscal-year/fiscalYearUtils.ts:112-118 | both boundaries of every record in stored form, and nothing else of the records changed |
| FiscalYear.AllRoundTrip | frontend/src/utils/functions/fiscal-year/fiscalYearUtils.ts:97-118 | records whose boundaries are written as day and month come back unchanged from storing and showing again |
| RouteHistory.Visit | frontend/src/ui-component/AppLayou.tsx:24-28 | nothing is written exactly when the newest entry already has the url; otherwise the entry goes first, followed by the old entries in order, cut to twenty |
| RouteHistory.Stored | frontend/src/ui-component/AppLayou.tsx:24-28 | the stored list is never empty and starts with the page visited, and it stays within twenty entries once it starts within them |
| RouteHistory.KeepsNewest | frontend/src/ui-component/AppLayou.tsx:27 | the entries kept are the newest of the old list in their order; the oldest are dropped first |
| RouteHistory.VisitAllBounded | frontend/src/ui-component/AppLayou.tsx:24-28 | however many pages are visited, the history stays within twenty entries |
| Records.ReplaceFirst | frontend/src/apps/parties/customer/redux/CustomerSlice.ts:40-48 | the same length; the first record with the id is replaced, every other position keeps its record, and without such a record nothing changes |
| Records.WithoutId | frontend/src/apps/parties/customer/redux/CustomerSlice.ts:49-51 | every record with another id and no record with that id |
| Records.WithoutIdCounts | frontend/src/apps/parties/customer/redux/CustomerSlice.ts:49-51 | each record with another id is kept as often as it occurs, and none is added |
| Records.WithoutIdKeepsOrder | frontend/src/apps/parties/customer/redux/CustomerSlice.ts:49-51 | removing an id from two runs of records keeps the first run's survivors before the second's, so the records kept stay in their order |
| Records.WithoutAbsentId | frontend/src/store/slices/user.ts:48-50 | removing an id no record has changes nothing |
| Records.ReplaceKeepsDistinct | frontend/src/apps/parties/customer/redux/CustomerSlice.ts:40-48 | replacing by id keeps the ids distinct |
| Records.ReplaceThenFind | frontend/src/store/slices/user.ts:42-47 | after replacing a record that was there, looking the id up finds the new record where the old one was |
| Records.WithoutIdKeepsDistinct | frontend/src/apps/parties/customer/redux/CustomerSlice.ts:49-51 | removing by id keeps the ids distinct |
| Records.PrependKeepsDistinct | frontend/src/apps/parties/customer/redux/CustomerSlice.ts:34-39 | putting a record with a new id in front keeps the ids distinct |
| AuthSlice.AuthState.constructor | frontend/src/store/slices/auth.ts:8-13 | logged out, not initialised, no user and no token |
| AuthSlice.AuthState.Login | frontend/src/store/slices/auth.ts:32-37 | logged in and initialised with the payload's user and token |
| AuthSlice.AuthState.Logout | frontend/src/store/slices/auth.ts:38-43 | logged out and initialised, without user or token |
| AuthSlice.AuthState.Initialize | frontend/src/store/slices/auth.ts:44-49 | initialised, with the session the payload gives |
| CustomerSlice.CustomerState.constructor | frontend/src/apps/parties/customer/redux/CustomerSlice.ts:13-18 | no customers, a blank customer being edited, not loading and no error |
| CustomerSlice.CustomerState.SetCustomers | frontend/src/apps/parties/customer/redux/CustomerSlice.ts:24-28 | the list replaced and the request settled; the customer being edited kept |
| CustomerSlice.CustomerState.SetCustomer | frontend/src/apps/parties/customer/redux/CustomerSlice.ts:29-33 | the customer being edited replaced and the request settled; the list kept |
| CustomerSlice.CustomerState.CreateCustomer | frontend/src/apps/parties/customer/redux/CustomerSlice.ts:34-39 | the new customer first in the list and being edited; a new id keeps the ids distinct |
| CustomerSlice.CustomerState.UpdateCustomer | frontend/src/apps/parties/customer/redux/CustomerSlice.ts:40-48 | the first customer with the id replaced, the list unchanged when there is none; the customer being edited set either way; distinct ids stay distinct |
| CustomerSlice.CustomerState.DeleteCustomer | frontend/src/apps/parties/customer/redux/CustomerSlice.ts:49-51 | every customer with the id removed and the others kept in order; nothing else changes |
| CustomerSlice.CustomerState.SetLoading | frontend/src/apps/parties/customer/redux/CustomerSlice.ts:52-54 | the loading flag set and nothing else changed |
| CustomerSlice.CustomerState.SetError | frontend/src/apps/parties/customer/redux/CustomerSlice.ts:55-57 | the error set and nothing else changed |
| CustomerSlice.CustomerState.ClearCustomer | frontend/src/apps/parties/customer/redux/CustomerSlice.ts:58-62 | a blank customer being edited and the request settled; the list kept |
| UserSlice.UserState.constructor | frontend/src/store/slices/user.ts:12-16 | no cards, not loading and no error |
| UserSlice.UserState.AddUser | frontend/src/store/slices/user.ts:39-41 | the user appended at the end; nothing else changes |
| UserSlice.UserState.UpdateUser | frontend/src/store/slices/user.ts:42-47 | the first card with the id replaced, nothing changed when there is none; distinct ids stay distinct |
| UserSlice.UserState.DeleteUser | frontend/src/store/slices/user.ts:48-50 | every card with the id removed; distinct ids stay distinct |
| UserSlice.UserState.DetailCardsPending | frontend/src/store/slices/user.ts:54-57 | loading without an error; the cards kept |
| UserSlice.UserState.DetailCardsFulfilled | frontend/src/store/slices/user.ts:58-61 | the cards replaced by the payload and loading over; the error left as it was |
| UserSlice.UserState.DetailCardsRejected | frontend/src/store/slices/user.ts:62-65 | the payload becomes the error and loading is over; the cards kept |
| SalesSlice.ListingRows | frontend/src/apps/sales/store/salesSlice.ts:78 | the page's results for a paginated response, the list itself otherwise |
| SalesSlice.MessageOr | frontend/src/apps/sales/store/salesSlice.ts:82 | the error's message unless it is missing or empty, the fixed fallback otherwise |
| SalesSlice.SalesState.constructor | frontend/src/apps/sales/store/salesSlice.ts:46-53 | no sales, customers or products, not loading, no error and no sale being edited |
| SalesSlice.SalesState.ClearError | frontend/src/apps/sales/store/salesSlice.ts:59-61 | no error; nothing else changes |
| SalesSlice.SalesState.SetCurrentSale | frontend/src/apps/sales/store/salesSlice.ts:62-64 | the sale being edited set; nothing else changes |
| SalesSlice.SalesState.ClearCurrentSale | frontend/src/apps/sales/store/salesSlice.ts:65-67 | no sale being edited; nothing else changes |
| SalesSlice.SalesState.RequestPending | frontend/src/apps/sales/store/salesSlice.ts:72-75 | loading without an error; the lists and the sale being edited kept |
| SalesSlice.SalesState.FetchSalesFulfilled | frontend/src/apps/sales/store/salesSlice.ts:76-79 | loading over and the sales taken from the response; nothing else changes |
| SalesSlice.SalesState.FetchSalesRejected | frontend/src/apps/sales/store/salesSlice.ts:80-83 | loading over, with the error's message or the fixed fetch message; the lists kept |
| SalesSlice.SalesState.FetchCustomersFulfilled | frontend/src/apps/sales/store/salesSlice.ts:85-87 | the customers taken from the response; nothing else changes, loading included |
| SalesSlice.SalesState.FetchProductsFulfilled | frontend/src/apps/sales/store/salesSlice.ts:89-91 | the products taken from the response; nothing else changes, loading included |
| SalesSlice.SalesState.CreateBulkSaleFulfilled | frontend/src/apps/sales/store/salesSlice.ts:97-101 | loading over, the new sale first in the list and no sale being edited |
| SalesSlice.SalesState.CreateBulkSaleRejected | frontend/src/apps/sales/store/salesSlice.ts:102-105 | loading over, with the error's message or the fixed create message; the lists kept |
| SalesSlice.SalesState.UpdateBulkSaleFulfilled | frontend/src/apps/sales/store/salesSlice.ts:107-113 | the sale with the same id replaced when listed and no sale being edited; distinct ids stay distinct; loading is not touched |

## Where the code is followed

These are places where the code does something a reader might not expect. The model does what the code does.

- The oldest-first walk in `receive_payment` and `make_payment` (backend/payments/payment_views.py:77-102) starts from the credit left over after ALL of the party's documents, the open ones included. So a payment that exactly covers the party's single open sale leaves it unpaid (`PaymentViews.FullPaymentLeavesSaleUnpaid`).
- The same walk marks an open document whose base total is 0 or less as paid whatever the credit, and a negative total raises the credit passed on (backend/payments/payment_views.py:91-95). Such documents can be stored: `adjust_sale` takes any new total (backend/sales/adjustment_views.py:34), and bulk documents allow a zero unit price, an unchecked discount and a status from the request (backend/sales/bulk_views.py:52, 85-91, 119). Oldest-first order then fails (`Settlement.NonPositiveTotalBreaksOrder`), so `Settlement.WalkIsOldestFirst` and `PaymentViews.PaymentSettlesOldestFirst` state it for positive totals only.
- A loan closes only when ONE repayment reaches its base amount (backend/loans/loan_views.py:147-150). Several partial repayments never close it (`Loans.PartialRepaymentsNeverClose`).
- The Django rate resolver has no as-of-date filter: the newest quote by date, then by creation time, is used whatever the document's date (backend/core/utils.py:12-27).
- `adjust_sale` and `adjust_purchase` answer 400 to an adjustment whose entered delta is zero, even when the base delta is not. The create-or-update sale view answers 200 with no change in the same case (backend/sales/enhanced_views.py:109-113).
- The outstanding-invoice view counts a payment against every earlier open invoice, not once in total (`PartyViews.PaymentCountsAgainstEveryEarlierInvoice`).
- A .NET sales return whose cash exceeds its total writes a customer payment of the magnitude of the negative credit, which lowers the customer's balance (`SaleHandler.SaleCustomerEntry`).
- `CreateCurrency` and `DeleteCurrency` do not keep the single-base-currency rule that `UpdateCurrency` keeps (`CurrenciesController.CreateAndDeleteIgnoreBase`).
- Two comments in fiscalYearUtils.ts give examples that the code does not produce: 3/9 is stored as 309, not 0309, and 3009 gives 2909, not 2910 (`FiscalYear.ToCharOfShortDay`, `FiscalYear.AddingMonthsExample`).
- The CSV header quotes column labels without doubling quotes inside them, while data cells do double them (`DataTable.HeaderQuoteBreaks`).
- `emptyRows` is computed from the unfiltered row count (frontend/src/ui-custom/table/DataTable.tsx:197), so its blank rows can disagree with the filtered page. `DataTable.PageIsFilled` therefore speaks of an unfiltered table.

## Left out

- Decimal rounding. The database's `decimal_places` quantisation and .NET `decimal` rounding are not modelled; amounts are exact reals.
- Free text. Notes, descriptions, names, reference numbers, `Source` strings and the wording of error messages are not modelled. Errors are modelled as kinds (a status code or an error constructor).
- Clocks. `timezone.now()`, `DateTime.UtcNow` and `new Date()` become parameters: the store's request stamp, dates as integers, and the `dayOf` map for calendar days in the reports.
- Transactions and database failures. Atomic blocks and commit or rollback are modelled by writing nothing on a rejected request. Exceptions raised by the database itself, and the catch-all 400 for them, are not modelled.
- Uniqueness. The unique constraint on (from currency, to currency, date) of `ExchangeRate` is not enforced. `Rates.Newest` breaks ties by creation time, as the query's ordering does.
- Default values of model fields that no view relies on (currency rate defaults, document status defaults beyond what the views set) are not modelled separately.
- backend/loans/models.py, backend/expenses/models.py and backend/payments/models.py are not part of this model. Their fields are inferred from the views that write them.
- The expense categories are a fixed set taken from backend/core/constants.py:35-41.
- The .NET entity classes and the Entity Framework mapping are not part of this model. Their fields are inferred from the services, handlers and controller.
- Authentication, permissions, serializers, pagination, routing and the read-only GET endpoints are not modelled.
- PartyViews.NewestFirst and Reports.Recent list entries with equal stamps in journal order; `order_by('-created_at')` leaves their order to the database.
- RateRepository.ActiveRate: when two active rows of a currency share the latest effective date, the database returns one of them unspecified; the contract promises only some row with the latest date.
- CurrencyExchange.Upper and Text.Lower change ASCII letters only; .NET `ToUpper` and JavaScript `toLowerCase` also map other alphabets.
- The `date` and `source` arguments of `SetExchangeRateAsync` are reduced to an effective date; the separate `Date` column and `LastUpdated` stamp are not modelled.
- `UpdatedAt` of an updated currency is not modelled.
- DataTable.SortedRows: `localeCompare` is replaced by character order on text cells (Unicode scalar values, which differ from JavaScript's UTF-16 code-unit order beyond the Basic Multilingual Plane). Cells are limited to null, whole numbers and text.
- DataTable.SortBy: `Array.prototype.sort` is modelled as a stable insertion sort, which picks one admissible order. It is the order the source gives only for a consistent comparator; the comparator returns 1 for two nulls in either order and mixes numeric and text comparison, so with two null cells, or numbers and text, in the sorted column the browser may order rows differently.
- `setZodErrorAtPath` is not modelled: `getZodValidationsResult` builds its object and then discards it.
- `getTranslateWhenNotNullOrUndefined` is not modelled: it calls the i18n translation function, which is not part of this model.
- localStorage and JSON parsing in the route-history listener are not modelled. The entry's timestamp and navigation type are carried as opaque text.
- The Formik field store written by `FormikTextField`'s `onChange` is not modelled; only the digit normalisation it applies is.
- `isStartBeforeEnd` is modelled for string arguments only.
- FiscalYear.AddingMonthsIsDayBefore is stated for boundaries of at most four characters whose month is 1 to 12; longer inputs are not covered.
- The async thunks, their axios requests and the mock detail-card data are not modelled; the reducers take the payload they would deliver. The customers and products payloads are modelled as the same paged-or-plain listing as the sales payload.
- Rendering, DOM access (tab highlighting, focus) and React effects other than the route-history update are not modelled.
