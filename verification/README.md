# Verified model of the retail management services

A Dafny model of the parts of the system where being wrong costs money or
stock, with proofs that hold for every input and every run.

**Financials** turns at-least-once events into double-entry books.
`Postings` translates each event kind into a posting plan, `Books` is the state
(inbox, journal, bills, sale facts) and its steps, `FinancialsService` is the
same state as a class whose methods update it. `BooksProofs` shows what every
step keeps; `PostedRows` relates the inbox to the journal, `Refunds` a refund to the
sale it reverses. `History` replays a run as its bookings and payments, from which
`Bills` follows every supplier bill and `PartialRefunds` a sale refunded in parts.
`BookedAmounts` says what each event moves on which account, `Attempts` which failures
are retried and which wait for a person. `BooksTheorems`, `TrialBalance`, `Payables`,
`Reports` and `Vat` show that the journal and each report computed beside it always tell
the same story.

**Inventory and checkout.** `Stock` holds levels, reservations and the movement
log; `StockEffects` says what each call changes, and `InventoryRuns`, `StockLaws` and
`StockBounds` relate the three over whole runs. `Checkout` reserves line by line and
compensates on failure, `CheckoutPrices` says what it charges, and `CheckoutSaga` and
`SaleDelivery` follow a checkout through to the stock and the books. `StockCounts`,
`CountedLines` and `CountLaws` cover counts that are posted while stock keeps moving.

**Receiving and Procurement** keep their own totals of the same deliveries and
are linked only by events. `Receiving`, `Discrepancies` and `Procurement` model
the two services, `SupplyChain` composes them with a bus that may delay,
reorder and repeat, and the theorems say that they converge and that
Procurement is never ahead.

**Exports.** `Zip` writes the container of an .xlsx file byte by byte, `Csv` the
text export, `Sheet` column names and escaped text. Each is proved against an
independent reader: sections 4.3.7, 4.3.12 and 4.3.16 of the PKWARE APPNOTE for
the container, section 2 of RFC 4180 for CSV, sections 2.2 and 2.11 of XML 1.0 for characters and
line ends.

`Witnesses` holds the runs that show where the system falls short.

## How it is written

Each operation that changes state appears twice: as a function on values (the
specification, which lemmas and runs use) and as a method with the fields and
loops of the service, proved to compute that function. Runs are folds over a
datatype of steps; a step stands for one service call and is atomic. What the
environment decides (lookups, failures, times, delivery order) is a parameter,
so the theorems hold for every choice of it.

Money is integer cents, percentages are integer hundredths of a percent, and
rounding is the nearest integer with halves upwards. Payments stay real numbers
of cents, because a request may carry fractions of a cent. Times are integer
milliseconds, a calendar day is a whole number of them, and a month is given by
a function. Ids that the database generates are positions in their table.

## What turned out not to hold

- A checkout compares the rounded sum of its payments with its total, the books
  the sum of the rounded payments. Two payments of half a cent are accepted at
  the till and then refused by the books (`Witnesses.HalfCentsAreAcceptedButNotBooked`);
  the exact condition is `CheckoutSaga.AcceptedCheckoutPostsExactlyWhen`.
- A return that lists a product and location on two lines restores only the first
  (`Witnesses.RepeatedSkuReturnRestoresTheFirstLine`: three units come back and one
  is restored; exactly when: `StockLaws.ReturnRestoresAllExactlyWhen`).
- When a sale has a SKU on two lines, a refund of either uses the VAT share of
  whichever line's fact comes back first, and rounding can make the shares differ
  (`Witnesses.RepeatedSkuRefundDrifts`; exactly when, in booking order:
  `SalesAccounting.WholeLineRefundCancelsExactlyWhen`, and in every order:
  `SalesAccounting.WholeLineRefundCancelsInEveryOrderExactlyWhen`).
- A reserve call that Inventory serves and whose reply is lost stays allocated: the
  checkout is refused and has no reservation to release (`Witnesses.LostReplyLeaks`;
  exactly when a refused checkout restores every figure:
  `CheckoutSaga.RefusedCheckoutRestoresExactlyWhen`).
- Posting a stock count checks only that stock does not go negative, so it can
  leave less on hand than is allocated (`Witnesses.PostingCanUndercutAllocations`;
  exactly when: `StockBounds.PostCoveredExactlyWhen`).
- Procurement accepts an order with a SKU on two lines; Receiving's table does
  not, so such an order can be sent and nothing can ever be received against it
  (`SupplyChainTheorems.RepeatedSkuOrderCanBeSent` and `RepeatedSkuOrderNeverArrives`;
  exactly when: `ApprovalIsExpectedExactlyWhen`).
- The .xlsx export writes carriage returns as they are, and an XML processor turns
  them into line feeds (section 2.11 of XML 1.0), so a text with one does not come
  back unchanged (`Sheet.XmlReadsBackExactlyWhen`).
- A CSV without columns prints empty lines, which read back as one empty field
  each (`Csv.ReadsBackExactlyWhen`).
- A comment in Receiving says that Procurement keeps no received quantities; its
  code does, and the model follows the code.

## Model

| member | source | states |
|---|---|---|
| `Money.RoundDivIsRound` | services/financials/src/ledger/money.ts:10-12 | rounding a share of cents in integers gives the nearest cent of its real value, halves upwards |
| `Money.RoundDivWithin` | services/financials/src/ledger/money.ts:10-12 | a rounded share never leaves the range from nothing to the whole |
| `Pricing.LinePriceIsSound` | services/retail-sales/src/products/pricing.ts:17-32 | a priced line loses no cent between subtotal, discount, tax and total; the discount is nothing without a promotion, otherwise the nearest cent of its percentage and within the subtotal, and the tax is the nearest cent of its rate |
| `Journal.BalancedDraft` | services/financials/src/ledger/journal.ts:26-49 | exactly which drafts are accepted (one-sided lines, something non-zero, equal sides), and that dropping zero lines moves no account |
| `Journal.AcceptedExactlyWhen` | services/financials/src/ledger/journal.ts:26-49 | a draft is accepted if and only if no side is negative, no line has two sides, something is posted and both sides come to the same; it keeps exactly the lines that post something |
| `Journal.CheckBalanced` | services/financials/src/ledger/journal.ts:26-49 | the two loops with early refusal give that verdict and those lines |
| `Postings.PlanGoodsReceived` | services/financials/src/postings/postings.service.ts:52-107 | the receipt loop with its permanent and transient lookup errors computes the receipt plan |
| `Postings.PlanItemSold` | services/financials/src/postings/postings.service.ts:114-159 | the sale loop, takings grouped by account in a map, computes the sale plan |
| `Postings.PlanItemReturned` | services/financials/src/postings/postings.service.ts:165-217 | the refund loop over the original sale facts computes the refund plan |
| `PostingProofs.DiscrepancyIsBooked` | services/financials/src/postings/postings.service.ts:220-245 | closing a day moves Cash by the discrepancy, Cash over/short by its negative and no other account, with no entry exactly when there is none |
| `Postings.PlanStockAdjusted` | services/financials/src/postings/postings.service.ts:253-280 | the signed value of an adjustment computes its plan |
| `Postings.MakePlan` | services/financials/src/inbox/inbox.processor.ts:91-106 | each event kind goes to its own translation, an unknown one is a permanent error |
| `PostingProofs.TakingsAreComplete` | services/financials/src/postings/postings.service.ts:120-135 | grouping payments by account loses no cent and touches only the till accounts |
| `PostingProofs.GoodsReceivedIsSound` | services/financials/src/postings/postings.service.ts:52-107 | a receipt credits the payable account by exactly its bill and is keyed by its note |
| `PostingProofs.ItemSoldIsSound` | services/financials/src/postings/postings.service.ts:114-159 | an accepted sale moves revenue, VAT and cost by exactly what its facts report |
| `PostingProofs.ItemReturnedIsSound` | services/financials/src/postings/postings.service.ts:165-217 | an accepted refund moves returns, VAT and cost by exactly what its facts report |
| `PostingProofs.DayClosedIsSound` | services/financials/src/postings/postings.service.ts:220-245 | closing a day always posts and leaves sales, VAT, cost and payables alone |
| `PostingProofs.StockAdjustedIsSound` | services/financials/src/postings/postings.service.ts:253-280 | a stock adjustment always posts and leaves sales, VAT, cost and payables alone |
| `PostingProofs.PlanIsSound` | services/financials/src/inbox/inbox.processor.ts:91-106 | whatever the event, its entry, bill and facts describe one document with one set of figures |
| `BookedAmounts.ReceiptIsBookedAtOrderCost` | services/financials/src/postings/postings.service.ts:52-107 | the bill and the net debit on inventory are both the sum, over lines not damaged with a positive quantity, of quantity times the order's unit cost of that SKU; the bill names the supplier and is due at the order's terms, and nothing else moves |
| `BookedAmounts.ReceiptPostsExactlyWhen` | services/financials/src/postings/postings.service.ts:52-107 | a receipt whose lines are all on the order posts if and only if it is worth nothing or no booked line costs less than nothing |
| `BookedAmounts.SaleIsBookedByMethod` | services/financials/src/postings/postings.service.ts:114-159 | Cash, card receivable and gift cards are each debited with the rounded payments of exactly that method; sales, VAT, cost and inventory move by the lines' net prices, VAT and costs, no other account moves |
| `BookedAmounts.SaleFactsAreItsLines` | services/financials/src/postings/postings.service.ts:136-150 | a sale leaves one fact per line with that line's goods, net price, VAT and Inventory's cost |
| `BookedAmounts.RefundIsPaidInCash` | services/financials/src/postings/postings.service.ts:165-217 | a refund pays its lines out of cash, splits them between returns and VAT, and puts their cost back into inventory |
| `BookedAmounts.EntryNamesItsDocument` | services/financials/src/postings/postings.service.ts:52-280 | every entry is kept under the document its event names |
| `SalesAccounting.OneSidedDraft` | services/financials/src/ledger/journal.ts:26-49 | one-sided lines make an entry if and only if both sides total the same positive amount |
| `SalesAccounting.SalePostsExactlyWhen` | services/financials/src/postings/postings.service.ts:114-159 | a sale posts if and only if its payments, each rounded to cents, total its lines, and something moves |
| `SalesAccounting.RefundPostsExactlyWhen` | services/financials/src/postings/postings.service.ts:165-217 | a refund posts if and only if money or cost moves |
| `SalesAccounting.RefundedTaxWithin` | services/financials/src/postings/postings.service.ts:180-195 | the VAT a refund reverses is between nothing and the refund |
| `SalesAccounting.SoldLineIsFound` | services/financials/src/ledger/ledger.repository.ts:22-24 | for distinct SKUs the facts found for a returned line are that line's own |
| `SalesAccounting.WholeLineRefundCancels` | services/financials/src/postings/postings.service.ts:165-217 | refunding a whole line cancels its quantity, revenue, VAT and cost to zero |
| `SalesAccounting.WholeLineRefundCancelsExactlyWhen` | services/financials/src/postings/postings.service.ts:165-217 | with the facts in booking order, a whole-line refund uses the first line of the SKU, and cancels the line if and only if its VAT at that line's share rounds to its own VAT |
| `SalesAccounting.WholeLineRefundCancelsInEveryOrderExactlyWhen` | services/financials/src/ledger/ledger.repository.ts:22-24 | the query fixes no order: a whole-line refund cancels its line in every order the sale's facts may come back in if and only if every line of the SKU has the line's VAT share, always with distinct SKUs |
| `Witnesses.RepeatedSkuRefundDrifts` | services/financials/src/postings/postings.service.ts:165-217 | a checkout of one unit and then two at three cents and 16% posts, the refund of the second line posts, and its cent of VAT is not given back |
| `Refunds.BookedSalesStand` | services/financials/src/ledger/ledger.repository.ts:22-24 | in every run a booked sale's facts are those of one posted event, in one piece and nowhere else |
| `Refunds.WholeLineRefundNetsToZeroExactlyWhen` | services/financials/src/postings/postings.service.ts:165-217 | with facts returned in booking order, refunding a whole line of any booked sale nets that line's facts to zero under the same exact condition, always when no earlier line has the SKU |
| `Refunds.WholeLineRefundNetsToZeroInEveryOrderExactlyWhen` | services/financials/src/ledger/ledger.repository.ts:22-24 | over every run and every order of the books' facts, refunding a whole line of a booked sale nets its fact to zero if and only if every line of the SKU has its VAT share |
| `SalesAccounting.PartialRefundsDrift` | services/financials/src/postings/postings.service.ts:165-217 | over n partial refunds the VAT reversed stays within n half-cents of the exact share |
| `PartialRefunds.PartialRefundsDriftInRuns` | services/financials/src/postings/postings.service.ts:165-217 | in every run, n posted refunds of a SKU of a booked sale give back VAT within n half-cents of its share of what they refunded (the share of the SKU's first line in booking order), and a refund booked before its sale gives back none |
| `BooksProofs.StepKeepsInv` | services/financials/src/ledger/ledger.repository.ts:32-80 | every delivery, sweep, retry and payment keeps ledger, bills and facts in agreement and event ids unique |
| `BooksProofs.RunKeepsInv` | services/financials/src/inbox/inbox.processor.ts:53-89 | so does every run |
| `BooksTheorems.ExactlyOnce` | services/financials/src/ledger/ledger.repository.ts:32-80 | in every run one entry per document, bills and facts exactly where their entries are, bills paid exactly where a payment is booked |
| `PostedRows.RunAccounts` | services/financials/src/inbox/inbox.processor.ts:67-89 | in every run a posted event is booked or moves nothing under an order Procurement answered with, and every entry but a payment was asked for by a posted event |
| `PostedRows.BookedExactlyWhenPosted` | services/financials/src/ledger/ledger.repository.ts:32-80 | with purchase orders frozen, a document is booked if and only if a posted event moves money under it |
| `BooksTheorems.RunsOnlyAdd` | services/financials/src/inbox/inbox.repository.ts:31-51 | entries and facts are never changed or removed, paid stays paid and POSTED is never left |
| `BooksTheorems.RedeliveryBooksNothing` | services/financials/src/inbox/inbox.consumer.ts:38-41 | an event whose document is booked books nothing again, under the same or a new event id |
| `BooksTheorems.PayableControlAccount` | services/financials/src/payables/payables.repository.ts:34-54 | in every run the net credit on the payable account is the total of the open bills |
| `History.RunIsReplay` | services/financials/src/inbox/inbox.processor.ts:53-89 | whatever arrives, is swept, retried or paid, the ledger of a run is what some list of bookings and payments makes of empty tables |
| `Bills.EveryBillIsBookedAlone` | services/financials/src/payables/payables.repository.ts:34-54 | in every run each bill was credited by exactly its amount under its own receipt, is paid if and only if exactly that amount was debited under its own payment, and no other entry moves the payable account |
| `Bills.EveryBillIsForItsGoods` | services/financials/src/postings/postings.service.ts:52-107 | in every run each bill owes its order's supplier, at the order's terms, what the undamaged goods of some receipt are worth at the order's costs |
| `BooksProofs.PaymentEntry` | services/financials/src/payables/payables.service.ts:92-114 | a payment is accepted as it is and moves its bill's amount from the bank to the payable account, nothing else |
| `BooksTheorems.BackoffBounds` | services/financials/src/inbox/inbox.processor.ts:24-26 | backoff grows with the attempts and stays between 15 seconds and one hour |
| `Attempts.PlanOutcome` | services/financials/src/inbox/inbox.processor.ts:79-88 | told by the event and the other services' answers: a plan fails transiently if and only if a service asked does not answer, permanently if and only if an answer rules it out (order missing, not in KES, lacking a booked SKU; cost missing; no posting rule), otherwise only by not balancing |
| `Attempts.AttemptSettles` | services/financials/src/inbox/inbox.processor.ts:67-89 | a pending event is retried after the backoff if and only if only an unanswered call or the database stands in the way, is left to a person if and only if it can never be posted as it stands, and is posted otherwise; a failed attempt books nothing and no other row changes |
| `Attempts.RetryTriesNow` | services/financials/src/inbox/inbox.controller.ts:35-41 | a person's retry refuses unknown and posted events; any other is put back, due at once with its attempts kept, and attempted like a pending one |
| `Attempts.FlaggedWaitsForRetry` | services/financials/src/inbox/inbox.controller.ts:35-41 | in every run an event left to a person stays exactly as it is until somebody retries it |
| `Attempts.DueExactlyWhen` | services/financials/src/inbox/inbox.repository.ts:23-29 | due are exactly the pending rows whose next attempt has come |
| `Attempts.DueInOrder` | services/financials/src/inbox/inbox.repository.ts:23-29 | rows received first are due first |
| `Attempts.BackoffDoubles` | services/financials/src/inbox/inbox.processor.ts:24-26 | the first retry comes after 15 seconds, every later one after twice as long up to an hour |
| `Attempts.FirstReceipt` | services/financials/src/inbox/inbox.repository.ts:12-17 | an unknown event is stored pending with no attempt made, a known one left alone |
| `BooksTheorems.SweepSettles` | services/financials/src/inbox/inbox.processor.ts:53-65 | one sweep removes exactly the first 25 due events, whatever comes of each |
| `BooksTheorems.SweepsDrain` | services/financials/src/inbox/inbox.processor.ts:53-89 | k sweeps for one instant clear exactly the first 25 k due events in order |
| `FinancialsService.Database.Store` | services/financials/src/inbox/inbox.repository.ts:12-17 | adds a row once per event id |
| `FinancialsService.Database.FindDue` | services/financials/src/inbox/inbox.repository.ts:23-29 | the first due rows in order of arrival |
| `FinancialsService.Database.ScheduleRetry` | services/financials/src/inbox/inbox.repository.ts:31-36 | reschedules one row and nothing else |
| `FinancialsService.Database.MarkNeedsAttention` | services/financials/src/inbox/inbox.repository.ts:38-43 | flags one row and nothing else |
| `FinancialsService.Database.Requeue` | services/financials/src/inbox/inbox.repository.ts:46-51 | puts one row back and nothing else |
| `FinancialsService.Database.Commit` | services/financials/src/ledger/ledger.repository.ts:32-80 | books entry, bill and facts together or, for a known document, only marks the event posted |
| `FinancialsService.Database.PayBill` | services/financials/src/payables/payables.repository.ts:34-54 | flips an open bill and books the payment, or changes nothing |
| `FinancialsService.Database.Pay` | services/financials/src/payables/payables.service.ts:92-114 | refuses an unknown or paid bill; otherwise the state of one payment step |
| `FinancialsService.InboxProcessor.Process` | services/financials/src/inbox/inbox.processor.ts:67-89 | one attempt on one event: posted, flagged, rescheduled or skipped |
| `FinancialsService.InboxProcessor.Handle` | services/financials/src/inbox/inbox.consumer.ts:38-41 | stores, then processes |
| `FinancialsService.InboxProcessor.Retry` | services/financials/src/inbox/inbox.controller.ts:35-41 | requeues and processes unless already posted |
| `FinancialsService.InboxProcessor.Sweep` | services/financials/src/inbox/inbox.processor.ts:53-65 | processes the due batch in order |
| `TrialBalance.RowsAreComplete` | services/financials/src/ledger/ledger.service.ts:48-69 | the rows of the chart account for every line up to the day |
| `TrialBalance.AlwaysBalances` | services/financials/src/ledger/ledger.service.ts:48-69 | after every run and for every day, debits equal credits and debit-normal balances equal credit-normal ones |
| `TrialBalance.RowsShowTheirAccounts` | services/financials/src/ledger/ledger.service.ts:48-69 | each row shows what the entries up to and including the day put on its account's two sides, and as balance the side the account grows with less the other |
| `Payables.Aging` | services/financials/src/payables/payables.service.ts:54-89 | the accumulating loop gives every supplier row, bucket and total from the open bills alone |
| `Payables.BucketsAddUp` | services/financials/src/payables/payables.service.ts:80-88 | the five buckets add up to everything open |
| `Payables.SuppliersAddUp` | services/financials/src/payables/payables.service.ts:80-88 | the supplier rows add up to everything open |
| `Payables.AgingAgreesWithLedger` | services/financials/src/payables/payables.service.ts:54-89 | in every run the report's suppliers, buckets and outstanding total agree with each other and with the payable account |
| `Payables.BucketsAreDayRanges` | services/financials/src/payables/payables.service.ts:20-33 | the buckets hold what is not overdue, 1 to 30, 31 to 60, 61 to 90 and more than 90 calendar days overdue |
| `Payables.OverdueCountsDays` | services/financials/src/payables/payables.service.ts:15-23 | days overdue are the calendar days between the due date's day and the report's |
| `Reports.ComputeRollUp` | services/financials/src/reports/reports.service.ts:63-75 | one group per key, each with its own facts' figures |
| `Reports.ComputeRange` | services/financials/src/reports/reports.service.ts:37-47 | the days of a period, refused when reversed or over 366 |
| `Reports.Profitability` | services/financials/src/reports/reports.service.ts:86-98 | every row shows its own facts and the total all of them; a daily report has every day once, in order |
| `Reports.RowsAddUp` | services/financials/src/reports/reports.service.ts:86-98 | the rows add up to the total, by product, store and day |
| `Reports.RowIsRight` | services/financials/src/reports/reports.service.ts:49-61 | gross profit is revenue less cost, the margin gross profit over revenue to the nearest tenth of a percent, none without revenue |
| `Reports.RowsShowTheirOwn` | services/financials/src/reports/reports.service.ts:63-95 | a row sums the facts of its own product, store or calendar day |
| `Reports.ProfitAgreesWithJournal` | services/financials/src/reports/reports.service.ts:86-98 | in every run and period revenue is account 4000 less 4900 and cost is account 5000 |
| `Vat.VatByMonth` | services/financials/src/reports/vat.ts:26-52 | the loop computes the rows by month and totals over all lines |
| `Vat.MonthsAreRight` | services/financials/src/reports/vat.ts:27-46 | each month with lines has one row, and the row is what that month's lines add up to |
| `Vat.VatAgreesWithFacts` | services/financials/src/reports/vat.ts:26-52 | in every run and period output and refunded VAT are the sale facts' VAT and nothing else reaches the account |
| `Stock.StockService.AdjustStock` | services/inventory/src/stock/stock.service.ts:101-141 | the level and log after a manual adjustment, an unknown product refused, and the event for any change but none |
| `Stock.StockService.ApplyGoodsReceived` | services/inventory/src/stock/stock.service.ts:154-189 | the levels, stub products and log after a receipt |
| `Stock.StockService.ApplyStockTransfer` | services/inventory/src/stock/stock.service.ts:199-276 | both legs of a transfer, or nothing for a known number or unknown product |
| `Stock.StockService.ApplyItemReturn` | services/inventory/src/stock/stock.service.ts:285-329 | restores a line once per return, product and location |
| `Stock.StockService.HandleItemReturned` | services/inventory/src/events/item-returned.consumer.ts:30-38 | the loop over an event's lines |
| `Stock.StockService.ReserveStock` | services/inventory/src/stock/stock.service.ts:332-381 | reserves only what is available, and says what it did |
| `Stock.StockService.ReleaseReservation` | services/inventory/src/stock/stock.service.ts:384-412 | gives back an active reservation once |
| `Stock.StockService.ConsumeReservationForSale` | services/inventory/src/stock/stock.service.ts:415-457 | turns an active reservation into a sale once |
| `Stock.StockService.HandleItemSold` | services/inventory/src/events/item-sold.consumer.ts:30-38 | the loop over an event's lines |
| `InventoryRuns.LevelsAlwaysMatch` | services/inventory/src/stock/stock.service.ts:101-457 | in every run on hand is the sum of the log and allocated the sum of the active reservations, at every slot |
| `StockEffects.ReceiptAddsGoodUnits` | services/inventory/src/stock/stock.service.ts:154-187 | a receipt raises every slot on hand by its good lines' positive quantities there and leaves allocations alone; a SKU nobody had entered becomes a product at no cost |
| `StockEffects.ReceiptIsLogged` | services/inventory/src/stock/stock.service.ts:154-187 | a receipt logs one movement for each good line, under its note's number |
| `StockEffects.TransferMovesItsQuantity` | services/inventory/src/stock/stock.service.ts:199-283 | a transfer takes its quantity from one location and adds it to the other, the first time its number is seen and if the product is known; otherwise nothing changes |
| `StockEffects.ReservesWhatIsFree` | services/inventory/src/stock/stock.service.ts:332-381 | a reservation is granted if and only if the product is known and that much is on hand and not allocated, and then allocates exactly that; refused, no figure changes |
| `StockEffects.ReleaseGivesBack` | services/inventory/src/stock/stock.service.ts:384-413 | releasing an active reservation gives its quantity back, anything else changes nothing |
| `StockEffects.SaleTakesReserved` | services/inventory/src/stock/stock.service.ts:415-457 | a sale takes what was sold from on hand and what was reserved from allocated, once |
| `StockEffects.ReturnSkipsUnknown` | services/inventory/src/stock/stock.service.ts:285-329 | a return touches no product nobody has entered and no allocation |
| `StockLaws.MovementsAtMostOnce` | services/inventory/src/stock/stock.service.ts:199-329 | in every run a transfer moves out once and in once or not at all, and a return restores each product and location at most once |
| `StockLaws.UnitsAreConserved` | services/inventory/src/stock/stock.service.ts:101-457 | a product's total over all locations is receipts, returns and adjustments less sales; transfers contribute nothing |
| `StockLaws.ReturnRestores` | services/inventory/src/stock/stock.service.ts:285-329 | a first return restores the quantity of its first line for a product and location |
| `StockLaws.ReturnRestoresAllExactlyWhen` | services/inventory/src/events/item-returned.consumer.ts:30-38 | the whole returned quantity comes back if and only if no product and location is on two lines |
| `Witnesses.RepeatedSkuReturnRestoresTheFirstLine` | services/inventory/src/stock/stock.service.ts:285-329 | a run in which one unit and two of a product come back on two lines and one unit is restored |
| `StockBounds.MoveCoveredExactlyWhen` | services/inventory/src/stock/stock.service.ts:101-141 | when a movement keeps allocations covered by stock on hand |
| `StockBounds.ConsumeCoveredExactlyWhen` | services/inventory/src/stock/stock.service.ts:415-457 | a sale keeps them covered if and only if its excess over the reservation was available |
| `StockBounds.ReserveCoveredExactlyWhen` | services/inventory/src/stock/stock.service.ts:332-381 | reserving keeps them covered if and only if the quantity is not negative |
| `StockBounds.AllocationsStayCovered` | services/inventory/src/stock/stock.service.ts:101-457 | in every run whose steps respect those conditions, 0 <= allocated <= on hand everywhere |
| `StockBounds.PostCoveredExactlyWhen` | services/inventory/src/stock-counts/stock-counts.service.ts:225-270 | posting keeps allocations covered if and only if no variance takes more than is available |
| `Witnesses.PostingCanUndercutAllocations` | services/inventory/src/stock-counts/stock-counts.service.ts:225-270 | a run of six calls after which posting leaves more allocated than on hand |
| `StockCounts.StockCountsService.CreateCount` | services/inventory/src/stock-counts/stock-counts.service.ts:99-145 | freezes the covered products, with each refusal |
| `StockCounts.StockCountsService.RecordCounted` | services/inventory/src/stock-counts/stock-counts.service.ts:151-182 | records a quantity on its line or a new one |
| `StockCounts.StockCountsService.SubmitCount` | services/inventory/src/stock-counts/stock-counts.service.ts:184-217 | closes counting, zeroing or refusing uncounted lines |
| `StockCounts.StockCountsService.PostCount` | services/inventory/src/stock-counts/stock-counts.service.ts:225-292 | applies every variance or, if one would go negative, none; publishes exactly the changes |
| `StockCounts.StockCountsService.CancelCount` | services/inventory/src/stock-counts/stock-counts.service.ts:294-304 | cancels an active count |
| `StockCounts.Summarize` | services/inventory/src/stock-counts/stock-counts.service.ts:374-395 | units over, units short and variance value from the lines |
| `CountLaws.OneActivePerLocation` | services/inventory/src/stock-counts/stock-counts.service.ts:99-145 | in every run a location has at most one open or submitted count, and a count one line per product |
| `CountedLines.CreateSucceedsExactlyWhen` | services/inventory/src/stock-counts/stock-counts.service.ts:99-145 | a count is created if and only if it is for everything or a choice, not both, none is active there, listed products exist and some product is asked for |
| `CountedLines.CreatedCountListsWhatIsAsked` | services/inventory/src/stock-counts/stock-counts.service.ts:342-356 | it has one uncounted line for each product asked for: with stock there, listed, or of the category |
| `CountedLines.CategoriesIgnoreCase` | services/inventory/src/stock-counts/stock-counts.service.ts:342-348 | categories match letter by letter whatever the case |
| `CountedLines.RecordedQuantityStands` | services/inventory/src/stock-counts/stock-counts.service.ts:151-182 | a recorded quantity stands on the product's own line, a new one expecting what is on hand, and no other line changes |
| `CountedLines.SubmitSucceedsExactlyWhen` | services/inventory/src/stock-counts/stock-counts.service.ts:184-203 | which submits are accepted, from the status and the lines |
| `CountedLines.SubmitRecordsUncounted` | services/inventory/src/stock-counts/stock-counts.service.ts:203-217 | with Zero every uncounted line is found empty, otherwise no line changes; counted lines never do |
| `CountedLines.UncountedLineIsEmptied` | services/inventory/src/stock-counts/stock-counts.service.ts:203-270 | in every run, when a count submitted with Zero posts, the slot of a line nobody had counted holds exactly what moved since the line was frozen |
| `CountedLines.PostedOnce` | services/inventory/src/stock-counts/stock-counts.service.ts:225-270 | a posted count keeps its lines and can be neither posted again nor cancelled |
| `CountedLines.CancelledExactlyWhen` | services/inventory/src/stock-counts/stock-counts.service.ts:294-304 | an open or submitted count is cancelled without moving stock, any other refused |
| `CountedLines.ChangesAreVariances` | services/inventory/src/stock-counts/stock-counts.service.ts:231-286 | what is published is exactly the lines found different from what was expected, as found less expected |
| `CountedLines.OverLessShort` | services/inventory/src/stock-counts/stock-counts.service.ts:374-395 | units over less units short are what was found less what was expected on the counted lines |
| `CountLaws.PostSucceedsExactlyWhen` | services/inventory/src/stock-counts/stock-counts.service.ts:225-270 | posting succeeds if and only if no changed line would go negative, and a refusal changes nothing |
| `CountLaws.FrozenAtOnHand` | services/inventory/src/stock-counts/stock-counts.service.ts:99-182 | a line is frozen at the on hand of that moment |
| `CountLaws.PostUnderMovement` | services/inventory/src/stock-counts/stock-counts.service.ts:225-270 | after posting, on hand is the counted quantity plus everything that moved since the line was frozen |
| `CountLaws.VarianceIsBooked` | services/inventory/src/stock-counts/stock-counts.service.ts:231-286 | the variance value is the signed change the books make to inventory, with no entry exactly at zero |
| `CountLaws.ManualAdjustmentIsBooked` | services/inventory/src/stock/stock.service.ts:101-141 | a manual adjustment moves what was asked for and publishes unless that is nothing; the books change inventory by the value of the units moved and shrinkage by the negative, with no entry exactly at zero |
| `Checkout.CheckoutService.Checkout` | services/retail-sales/src/checkout/checkout.service.ts:38-157 | outcome and stock of the whole checkout, reserve loop, compensation and payment check included |
| `Checkout.CheckoutService.ReserveLines` | services/retail-sales/src/checkout/checkout.service.ts:43-81 | the reserve loop stops at the first failing line |
| `Checkout.CheckoutService.ReleaseReserved` | services/retail-sales/src/checkout/checkout.service.ts:60-96 | the compensation loop releases what was reserved |
| `CheckoutPrices.AcceptedCheckoutChargesListedPrices` | services/retail-sales/src/checkout/checkout.service.ts:38-157 | an accepted checkout sells every cart line at its listed price, each discount its promotion's percentage and each tax its rate to the nearest cent; totals add up and what was paid rounds to what is charged |
| `CheckoutPrices.AcceptedExactlyWhenPaid` | services/retail-sales/src/checkout/checkout.service.ts:83-96 | with every line reserved a checkout is accepted if and only if the payments round to the charged total |
| `CheckoutPrices.ReservedLine` | services/retail-sales/src/checkout/checkout.service.ts:43-81 | a line is reserved if and only if its price is listed, Inventory answers, knows it and has that much free; otherwise the first of these that fails is the refusal |
| `CheckoutSaga.ReserveAllEffect` | services/retail-sales/src/checkout/checkout.service.ts:43-81 | the loop changes only allocations, by exactly what it holds |
| `CheckoutSaga.RefusedCheckoutCompensates` | services/retail-sales/src/checkout/checkout.service.ts:43-96 | a refused checkout leaves every figure as it was, plus what failed releases and a lost reply leave allocated |
| `CheckoutSaga.RefusedCheckoutRestoresExactlyWhen` | services/retail-sales/src/checkout/checkout.service.ts:43-96 | every figure is restored if and only if every release gets through and no reservation was made whose reply was lost |
| `Witnesses.LostReplyLeaks` | services/retail-sales/src/checkout/checkout.service.ts:43-96 | a refused checkout after a lost reply leaves one unit allocated although no release fails |
| `CheckoutSaga.AcceptedCheckoutSellsTheCart` | services/inventory/src/events/item-sold.consumer.ts:30-38 | delivered once or more, the sale lowers on hand by exactly the cart and restores allocated, repeated SKUs included |
| `CheckoutSaga.LateRedelivery` | services/inventory/src/events/item-sold.consumer.ts:30-38 | redelivery after any further run changes nothing |
| `SaleDelivery.DelayedSaleSellsTheCart` | services/inventory/src/events/item-sold.consumer.ts:30-38 | first delivered after any run that leaves its reservations alone, the sale lowers on hand and allocated by exactly the cart; later deliveries change nothing |
| `CheckoutSaga.AcceptedCheckoutPostsExactlyWhen` | services/retail-sales/src/checkout/checkout.service.ts:83-153 | an accepted checkout posts if and only if its payments round to cents one by one to the same sum, and something moves |
| `CheckoutSaga.WholeCentsAgree` | services/retail-sales/src/checkout/checkout.service.ts:83-96 | payments in whole cents always do |
| `Witnesses.HalfCentsAreAcceptedButNotBooked` | services/retail-sales/src/checkout/checkout.service.ts:83-153 | a one-cent cart paid with two half cents is accepted by the checkout and refused by the sale's posting plan |
| `Receiving.ReceivingService.Record` | services/receiving/src/expected-deliveries/expected-deliveries.service.ts:55-77 | seeds a delivery once per order; a repeated SKU is refused |
| `Receiving.ReceivingService.OpenNote` | services/receiving/src/goods-received-notes/goods-received-notes.service.ts:73-113 | opens a note with one line per SKU still outstanding, with each refusal |
| `Receiving.ReceivingService.ScanItem` | services/receiving/src/goods-received-notes/goods-received-notes.service.ts:121-168 | adds a scan to its line and recomputes that SKU's flags |
| `Receiving.ReceivingService.FinalizeNote` | services/receiving/src/goods-received-notes/goods-received-notes.service.ts:171-250 | freezes the note, adds what arrived to the delivery and publishes the receipt |
| `Receiving.ArrivedBySku` | services/receiving/src/goods-received-notes/goods-received-notes.service.ts:179-185 | the map holds what arrived of each SKU |
| `Receiving.AsksForWhatIsMissing` | services/receiving/src/goods-received-notes/goods-received-notes.service.ts:73-113 | a note asks for what is still missing of each line and for no complete one |
| `Receiving.NoteOpenedExactlyWhen` | services/receiving/src/goods-received-notes/goods-received-notes.service.ts:73-113 | when a note is opened, and that it is a draft at the location asked for with a line for everything missing |
| `Receiving.ReceiptTellsTheNote` | services/receiving/src/goods-received-notes/goods-received-notes.service.ts:221-250 | the published receipt names the note, order and location and carries the note's lines |
| `Receiving.FinalizedExactlyWhen` | services/receiving/src/goods-received-notes/goods-received-notes.service.ts:171-250 | a note is finalized if and only if it is a draft with something counted; its delivery then has received that much more of each SKU and is complete if and only if nothing is missing |
| `Discrepancies.ScansKeepTally` | services/receiving/src/goods-received-notes/goods-received-notes.service.ts:121-168 | after any scans every line's quantity is the sum of its scans and every scanned SKU's flag is what recomputing the whole note gives |
| `Discrepancies.FinalizeFlagsTheUnscanned` | services/receiving/src/goods-received-notes/discrepancy.ts:16-33 | finalizing changes exactly the lines of SKUs nobody scanned, each to a shortage |
| `Discrepancies.FlagsTellTheScans` | services/receiving/src/goods-received-notes/discrepancy.ts:16-33 | whatever was scanned, a finalized note flags damage where damaged units were scanned, and on good lines a shortage or overage of the SKU's good and damaged units together |
| `Procurement.PurchaseOrdersService.CreateOrder` | services/procurement/src/purchase-orders/purchase-orders.service.ts:104-154 | prices and totals a draft, or refuses |
| `Procurement.PurchaseOrdersService.SubmitOrder` | services/procurement/src/purchase-orders/purchase-orders.service.ts:156-164 | only a draft is submitted |
| `Procurement.PurchaseOrdersService.ApproveOrder` | services/procurement/src/purchase-orders/purchase-orders.service.ts:171-215 | only a manager or owner approves, at the threshold only an owner |
| `Procurement.PurchaseOrdersService.MarkOrderSent` | services/procurement/src/purchase-orders/purchase-orders.service.ts:287-295 | only an approved order is sent |
| `Procurement.PurchaseOrdersService.OnGoodsReceived` | services/procurement/src/purchase-orders/purchase-orders.service.ts:224-285 | adds a receipt to the totals once per note |
| `Procurement.OrderIsPricedByOffer` | services/procurement/src/purchase-orders/purchase-orders.service.ts:104-154 | a new order is a draft of exactly what was wanted at the offer's prices and totals that; which requests are refused |
| `Procurement.ApprovedExactlyWhen` | services/procurement/src/purchase-orders/purchase-orders.service.ts:171-215 | an order awaiting approval is approved by an owner, or by a manager below the threshold, and by nobody else |
| `Procurement.OpenExactlyWhen` | services/procurement/src/purchase-orders/purchase-orders.service.ts:28-32 | Receiving may open notes against orders approved, sent or partly received |
| `SupplyChain.StatusNeverMovesBack` | services/procurement/src/purchase-orders/purchase-orders.service.ts:250-259 | no step removes an order, changes its goods or moves its status back |
| `SupplyChain.RunsMoveForward` | services/procurement/src/purchase-orders/purchase-orders.service.ts:156-295 | nor does any run from any state |
| `SupplyChainProofs.DeliverReceiptKeepsInv` | services/procurement/src/purchase-orders/purchase-orders.service.ts:224-285 | delivering any receipt at any time keeps both services' totals equal to what the receipts say |
| `SupplyChainProofs.FinalizeKeepsInv` | services/receiving/src/goods-received-notes/goods-received-notes.service.ts:171-250 | so does finalizing a note |
| `SupplyChainProofs.RunKeepsInv` | services/procurement/src/purchase-orders/purchase-orders.service.ts:224-295 | so does every run |
| `SupplyChainTheorems.TotalsConverge` | services/procurement/src/purchase-orders/purchase-orders.service.ts:224-285 | once every receipt has been delivered at least once, in any order and with repeats, totals and statuses of the two services agree line by line |
| `SupplyChainTheorems.ProcurementNeverAhead` | services/procurement/src/purchase-orders/purchase-orders.service.ts:224-285 | at every moment before that Procurement is at most level with Receiving |
| `SupplyChainTheorems.NothingArrivesUnapproved` | services/procurement/src/purchase-orders/purchase-orders.service.ts:171-215 | in every run goods arrive only against orders approved by someone who may approve them |
| `SupplyChainTheorems.TotalIsWhatIsOrdered` | services/procurement/src/purchase-orders/purchase-orders.service.ts:104-154 | in every run an order's total is what its lines order at their costs |
| `SupplyChainTheorems.FinalizedNotesStay` | services/receiving/src/goods-received-notes/goods-received-notes.service.ts:121-250 | in every run a finalized note never changes again |
| `SupplyChainTheorems.ProcessedRunsAgree` | services/procurement/src/purchase-orders/purchase-orders.service.ts:224-285 | a run in which every receipt was processed along the way leaves totals and statuses in agreement |
| `SupplyChainTheorems.DeliveryProcesses` | services/procurement/src/purchase-orders/purchase-orders.service.ts:224-285 | delivering a receipt at any point of a run gets it processed |
| `SupplyChainTheorems.StaysProcessed` | services/procurement/src/purchase-orders/purchase-orders.service.ts:261-284 | what is processed stays processed, however the run goes on |
| `SupplyChainTheorems.ApprovalIsExpectedExactlyWhen` | services/receiving/src/expected-deliveries/expected-deliveries.service.ts:55-77 | after any run an approval makes Receiving expect the order if and only if its SKUs are distinct |
| `SupplyChainTheorems.RepeatedSkuOrderCanBeSent` | services/procurement/src/purchase-orders/purchase-orders.service.ts:104-215 | a run that prices, approves and sends an order naming a SKU twice |
| `SupplyChainTheorems.RepeatedSkuOrderNeverArrives` | services/receiving/src/expected-deliveries/expected-deliveries.service.ts:62-76 | in no run does such an order get a delivery or a receipt, or move beyond sent |
| `Zip.WriteUInt32LE` | libs/shared/src/lists/xlsx.ts:114-124 | writes a field in place, or refuses a number that does not fit |
| `Zip.WriteLocalHeader` | libs/shared/src/lists/xlsx.ts:113-125 | the thirty bytes of a local header, written field by field |
| `Zip.WriteCentralHeader` | libs/shared/src/lists/xlsx.ts:127-140 | the forty-six bytes of a directory header, gaps left zero |
| `Zip.WriteEndRecord` | libs/shared/src/lists/xlsx.ts:146-151 | the twenty-two bytes of the end record |
| `Zip.Zip` | libs/shared/src/lists/xlsx.ts:100-153 | succeeds if and only if every number fits its field, and then the archive has every part in place |
| `ZipReader.ReadsWhatWasWritten` | libs/shared/src/lists/xlsx.ts:100-153 | a reader that knows only the format recovers every name, body, checksum and size in order |
| `ZipReader.ContentsSurvive` | libs/shared/src/lists/xlsx.ts:107-111 | with a decompressor that undoes the compressor every content comes back with its checksum and size |
| `Sheet.ColumnName` | libs/shared/src/lists/xlsx.ts:43-49 | the loop computes the column name |
| `Sheet.NamesAreUnique` | libs/shared/src/lists/xlsx.ts:42-49 | columns and non-empty capital-letter names correspond one to one |
| `Sheet.PassesEscape` | libs/shared/src/lists/xlsx.ts:51-59 | the four replacement passes amount to escaping each character once |
| `Sheet.XmlReadsBackExactlyWhen` | libs/shared/src/lists/xlsx.ts:51-65 | an XML processor, which refuses characters XML does not allow, reads the allowed text with line ends normalised, and gets the text back unchanged if and only if XML allows all of it and it holds no carriage return |
| `Sheet.ReturnBecomesFeed` | libs/shared/src/lists/xlsx.ts:51-65 | a lone carriage return between two characters comes back as a line feed |
| `Csv.ToCsv` | libs/shared/src/lists/csv.ts:9-13 | the loop and join print the byte-order mark and every line with its line end |
| `Csv.ReadsCell` | libs/shared/src/lists/csv.ts:15-23 | a printed cell followed by a separator reads back as the text it shows |
| `Csv.TextNeverRuns` | libs/shared/src/lists/csv.ts:15-23 | no text cell starts like a formula, and it shows the text itself unless the text does |
| `Csv.QuotedExactlyWhen` | libs/shared/src/lists/csv.ts:22 | a cell is quoted if and only if its text holds a quote, a comma, a carriage return or a line feed |
| `Csv.NumbersShowPlainly` | libs/shared/src/lists/csv.ts:15-18 | missing and non-finite values print as nothing, numbers as their numerals |
| `Csv.ReadsBackExactlyWhen` | libs/shared/src/lists/csv.ts:9-23 | the whole table reads back as shown if and only if it has a column |

## Left out

- Frontends, request validation, sign-in, service wiring, HTTP, gRPC and RabbitMQ: only their effects on the steps remain.
- Deflate and CRC-32: function parameters, with decompression assumed to undo compression where contents are concerned.
- IEEE floating point: arithmetic is exact and rounds where the code rounds.
- UTF-8: archive names and contents are given as bytes, CSV and XML text as characters; the byte-order mark is its character.
- Descriptions, memos, labels, supplier names and notes, which no figure depends on.
- Sort order of report rows (by gross profit, by total, by month).
- The row order of queries that name none: a stock count takes its products in any order; runs look a sale's facts up in booking order, and the lemmas named InEveryOrder cover the others.
- Partial crashes inside a service call and interleaving within one: each call is one atomic step.
- Parallel lookups: when several lines of an event fail, the model reports the first in order.
- Repeated goods-received events in Inventory: the code keeps no guard per note there, and no property claims one.
- Low-stock events, sales velocity, valuation, count suggestions and blind counts: read-only views.
- The financial summary page and list endpoints: read-only views.
- Case folding of category names beyond the letters A to Z.
- The worksheet's XML around its cells and the fixed package parts: constant text.
- Reorder suggestions, vendor offers beyond a unit cost per SKU, returns authorisation, sales audit and warehouse services: not part of this model.
- Reports.Profitability: takes facts dated as postings date them, which BooksProofs shows of every run.
- Sheet.XmlReadsBackExactlyWhen: characters are Unicode scalar values, so lone surrogates do not occur.
