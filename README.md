# Invoice money engine

This project models the money engine of an invoicing dashboard: a Next.js front end that keeps its data in four Firestore collections (`invoices`, `customers`, `users` and `payouts`). The model covers these parts:

- **Create-invoice page.** The item table and its per-row amounts, rounded to the cent. The totals, where tax and discount are percentages. The checks that stop a save, and the payment status written with the record.
- **Edit-invoice modal.** Cell edits that recompute an item's unrounded amount. Totals where tax and discount are flat amounts. The status and payment timestamp written on apply.
- **Payment status.** The ordered Overpaid / Paid / Partial / Unpaid classification, followed by the Overdue override.
- **Earnings.** Total income, total withdrawn, the signed newest-first earnings feed, the balance, the top-10 recent flow, and the sign and magnitude shown for each amount.
- **Status counter.** The per-status invoice counts.
- **Customer table.** De-duplication by trimmed, lower-cased e-mail, keeping the first record.
- **Payout request form.** The amount, the preview balance, the validity test, and the submit with its reset.
- **Edit and view models.** How one stored invoice, its customer and its user become the edit model and the view model, with their not-found errors.
- **Invoice and customer tables.** Row mapping, delete, search and the status tag colors.
- **Sign-up form.** Its ordered checks.

How JavaScript values are represented:

- Money is `real`.
- `Number(s)` is `JsNumber.ToNumber`. It trims white space, reads `""` as 0, reads a decimal literal with optional sign, fraction and exponent, and gives `NaN` (`None`) for anything else.
- `Number(s) || 0` is `JsNumber.Num`, `parseFloat` is `JsNumber.ParseFloat`, and `Number(x.toFixed(2))` is `JsNumber.Round2`, which rounds half away from zero to the cent.
- Timestamps are `int` milliseconds. The current time is always a parameter.
- A Firestore collection is a sequence of `Doc(id, data)`; a lookup by id is a `map`.

Where the code works by changing state, the model does too:

- `getTotalIncome`, `getTotalWithdraw`, `getEarningsTableData`, `getInvoiceCounter`, the customer de-duplication and the invoice page's customer map are methods with loops. Each loop is proved against a specification function.
- The create page, the edit modal, the payout form and the sign-up form are classes. Their methods update the fields the source keeps in React state.

Two behaviours of the source are recorded as written, as lemmas, and not corrected:

1. The create flow stores the payment time under `lastPayment` (src/app/invoice/standard-invoice/page.tsx:376). Every reader uses `lastPaymentAt` (src/types/FirestoreDatabase.ts:38, src/lib/getEarningsTableData.ts:35). So a payment recorded at creation is listed in the earnings feed under the invoice date (`EarningsTable.CreatedPaymentListedUnderInvoiceDate`).
2. The payout form compares the method with "Select payment method" (src/components/earnings/RequestPayoutModal.tsx:49). The field starts as, and is reset to, "Select payment" (lines 26 and 67). So a request with no method chosen passes the check (`PayoutRequest.UnchosenMethodPasses`).

Some points where the code behaves differently from what its comments or a quick reading suggest. The model follows the code in each case:

- **Edit payment timestamp.** It reads both amounts with `Number(x || 0)`, not `Number(x) || 0`. A text amount that is no number gives `NaN`, which differs from everything. Such an amount therefore always counts as a new payment (`EditInvoice.UnreadableAmountAlwaysChanged`).
- **Customer label.** The earnings feed uses `??`, so an empty customer name is shown as empty. The invoice table uses `||`, so an empty name shows "Unknown Customer".
- **Create-page item check.** It reads rate and quantity with `parseFloat`. `NaN <= 0` is false, so a rate that is a word passes the check and the item is saved with amount 0 (`StandardInvoice.UnreadableRatePasses`).
- **Tax and discount.** The create page treats them as percentages; the edit modal treats the same stored numbers as flat amounts (`EditInvoice.FlatVersusPercent`).

## Model

| member | source | states |
|---|---|---|
| PaymentStatus.BaseStatus | src/app/invoice/standard-invoice/page.tsx:311-329 | Each outcome holds exactly under its own condition. Overpaid iff paid > total > 0. Paid iff paid = total > 0. Partial iff 0 < paid < total. Unpaid iff total ≤ 0 or paid ≤ 0. Never Overdue. |
| PaymentStatus.ApplyOverdue | src/app/invoice/standard-invoice/page.tsx:331-343 | The result is Overdue iff the status already was Overdue, or it is neither Paid nor Overpaid and now is past a due date that exists. Otherwise the status is unchanged. |
| PaymentStatus.SettledNeverOverdue | src/components/invoice/EditInvoiceModal.tsx:281-306 | With total > 0 and paid ≥ total the final status is Paid or Overpaid, whatever the dates. |
| PaymentStatus.NameInjective | src/app/invoice/standard-invoice/page.tsx:311-316 | Different statuses are stored as different texts. |
| StandardInvoice.BlankRowPriced | src/app/invoice/standard-invoice/page.tsx:27-35 | The blank row's amount 0 equals the rounded product of its empty rate and quantity "1". |
| StandardInvoice.EditRow | src/app/invoice/standard-invoice/page.tsx:45-57 | Setting a field changes that field only. A rate or quantity edit sets the amount to Round2(Num(rate) × Num(quantity)); a description edit keeps the amount. The key is kept. |
| StandardInvoice.EditRows | src/app/invoice/standard-invoice/page.tsx:38-60 | The length is kept. Rows with another key are returned as they are; rows with the key are edited. |
| StandardInvoice.InitialTableWellFormed | src/app/invoice/standard-invoice/page.tsx:27-35 | The starting table is numbered from "1" and priced. |
| StandardInvoice.KeysDistinct | src/app/invoice/standard-invoice/page.tsx:209-219 | In a table numbered i+1, all keys are pairwise distinct. |
| StandardInvoice.EditRowsTouchesOneRow | src/app/invoice/standard-invoice/page.tsx:43-58 | In a numbered table, editing by row k's key equals updating row k alone. |
| StandardInvoice.EditRowsWellFormed | src/app/invoice/standard-invoice/page.tsx:38-60 | An edit keeps the table numbered and every amount equal to its rounded rate × quantity. |
| StandardInvoice.SubTotalOrderFree | src/app/invoice/standard-invoice/page.tsx:221-223 | The subtotal is the same for any permutation of the rows. |
| StandardInvoice.GrandTotal | src/app/invoice/standard-invoice/page.tsx:225-230 | Defined exactly when tax, discount and shipping all read as numbers. It is then within half a cent of subTotal + subTotal·tax/100 − subTotal·discount/100 + shipping, and a whole number of cents below 1e21. |
| StandardInvoice.BalanceDue | src/app/invoice/standard-invoice/page.tsx:232 | Defined exactly when the grand total and the amount paid are numbers. It is then within half a cent of their difference, and a whole number of cents below 1e21. |
| StandardInvoice.EmptyAdjustments | src/app/invoice/standard-invoice/page.tsx:225-232 | With empty tax, discount, shipping and amount paid, both the grand total and the balance due are the subtotal rounded to the cent. |
| StandardInvoice.GrandTotalExample | src/app/invoice/standard-invoice/page.tsx:225-230 | Subtotal 100 with tax "10", discount "5" and shipping "20" gives 125. |
| StandardInvoice.UnreadableRatePasses | src/app/invoice/standard-invoice/page.tsx:264-268 | A row whose rate starts with a letter passes the completeness test, and its amount is 0. |
| Records.StoreItems | src/app/invoice/standard-invoice/page.tsx:300-305 | The stored `items` array: one stored item per table line, in order. The create page stores each row as `StandardInvoice.StoredRow`; the edit modal (src/components/invoice/EditInvoiceModal.tsx:332-337) stores each item as `EditInvoice.StoredItem`. |
| StandardInvoice.StatusTotal | src/app/invoice/standard-invoice/page.tsx:309 | `NaN` reads 0; otherwise the grand total rounded to the cent. |
| StandardInvoice.StatusTotalOfGrandTotal | src/app/invoice/standard-invoice/page.tsx:225-230 | A defined grand total is already rounded, so the status compares against the grand total itself. |
| StandardInvoice.CreateDueDate | src/app/invoice/standard-invoice/page.tsx:332-335 | The payment due date, else the invoice date, else now. |
| StandardInvoice.UndatedNeverOverdue | src/app/invoice/standard-invoice/page.tsx:331-343 | With neither date entered the due date is now, so a new invoice is never Overdue. |
| StandardInvoice.LastPayment | src/app/invoice/standard-invoice/page.tsx:376 | Set, to now, exactly when the amount paid reads as a number above 0. |
| StandardInvoice.InvoiceForm.constructor | src/app/invoice/standard-invoice/page.tsx:22-35 | The page starts with empty inputs and the single blank row keyed "1". The table invariant holds. |
| StandardInvoice.InvoiceForm.CalcTableItems | src/app/invoice/standard-invoice/page.tsx:38-60 | The table becomes EditRows of the old table, and the table invariant is kept. |
| StandardInvoice.InvoiceForm.AddNewRow | src/app/invoice/standard-invoice/page.tsx:209-219 | The table is the old one plus a blank row keyed one past its length, and the invariant is kept. |
| StandardInvoice.InvoiceForm.Record | src/app/invoice/standard-invoice/page.tsx:346-377 | The stored record carries the given status. Its due date is CreateDueDate and its invoice date the entered one or now. Its items are the stored rows and its `lastPaymentAt` is unset. Its subtotal is SubTotal, its grand total GrandTotal, and its balance due BalanceDue of that grand total. The four adjustments are stored as `Number(x)` of the inputs. Number, PO, terms, notes and the customer and user ids are as entered. |
| StandardInvoice.InvoiceForm.Created | src/app/invoice/standard-invoice/page.tsx:346-377 | The stored record's due date is CreateDueDate. Its invoice date is the entered one or now. Its items are the stored rows. Its `lastPaymentAt` is unset. |
| StandardInvoice.CreatedBalanceDue | src/app/invoice/standard-invoice/page.tsx:225-232 | The stored balance due exists exactly when the stored grand total and amount paid are numbers, and is then the grand total less the amount paid to the cent. |
| StandardInvoice.InvoiceForm.SaveInvoice | src/app/invoice/standard-invoice/page.tsx:257-386 | Refuses while a save runs, then on an empty table, then on an incomplete row, in that order. Otherwise yields the created record with its classified status and the `lastPayment` value. |
| StandardInvoice.CreatedStatusMatchesRecord | src/app/invoice/standard-invoice/page.tsx:307-343 | The saved status is the classification of the record's own amount paid, grand total and due date. |
| EditInvoice.CalculateTotals | src/components/invoice/EditInvoiceModal.tsx:227-247 | Subtotal is the sum of item amounts. Grand total = subtotal − discount + tax + shipping, as flat amounts. Balance due + amount paid = grand total. The four adjustments pass through. |
| EditInvoice.CalculateTotalsIdempotent | src/components/invoice/EditInvoiceModal.tsx:241-246 | Applying it twice equals applying it once. |
| EditInvoice.CalculateTotalsIgnoresSums | src/components/invoice/EditInvoiceModal.tsx:227-247 | The old subtotal, grand total and balance due do not affect the result. |
| EditInvoice.CalculateTotalsOrderFree | src/components/invoice/EditInvoiceModal.tsx:228-231 | Any permutation of the items gives the same totals. |
| EditInvoice.FlatVersusPercent | src/components/invoice/EditInvoiceModal.tsx:233-238 | Tax 10 on a 200 subtotal gives 220 when creating and 210 when editing. |
| EditInvoice.WithDescription | src/components/invoice/EditInvoiceModal.tsx:93-99 | Only row i's description changes; its amount and all other rows are kept. |
| EditInvoice.WithQuantity | src/components/invoice/EditInvoiceModal.tsx:127-137 | Row i's quantity is set and its amount becomes Num(quantity) × Num(rate), unrounded. Other rows are kept. |
| EditInvoice.WithRate | src/components/invoice/EditInvoiceModal.tsx:169-176 | Row i's rate is set and its amount becomes Num(quantity) × Num(rate). Other rows are kept. |
| EditInvoice.BlankItemPriced | src/components/invoice/EditInvoiceModal.tsx:213-218 | The appended item's amount 0 is that of quantity "1" and an empty rate. |
| EditInvoice.DescriptionKeepsAmountsCurrent | src/components/invoice/EditInvoiceModal.tsx:93-99 | A description edit keeps every amount equal to its quantity × rate. |
| EditInvoice.QuantityKeepsAmountsCurrent | src/components/invoice/EditInvoiceModal.tsx:127-137 | A quantity edit keeps every amount equal to its quantity × rate. |
| EditInvoice.RateKeepsAmountsCurrent | src/components/invoice/EditInvoiceModal.tsx:169-176 | A rate edit keeps every amount equal to its quantity × rate. |
| EditInvoice.QuantityCellSteps | src/components/invoice/EditInvoiceModal.tsx:127-137 | Copying the rows, assigning the quantity and then the recomputed amount yields WithQuantity. |
| EditInvoice.RateCellSteps | src/components/invoice/EditInvoiceModal.tsx:169-176 | Copying the rows, assigning the rate and then the recomputed amount yields WithRate. |
| EditInvoice.AddKeepsAmountsCurrent | src/components/invoice/EditInvoiceModal.tsx:210-224 | Appending the blank item keeps every amount current. |
| EditInvoice.EditStatus | src/components/invoice/EditInvoiceModal.tsx:269-306 | Overdue iff the base status of Num(amount paid) against the rounded grand total is Unpaid or Partial and a due date is set and past. Never Overdue without a due date. |
| EditInvoice.PaymentTimestamp | src/components/invoice/EditInvoiceModal.tsx:308-315 | Now when the amount paid changed (as `Number(x \|\| 0)` with `!==`), else the stored payment time. |
| EditInvoice.PaymentChangedOfNumbers | src/components/invoice/EditInvoiceModal.tsx:308-310 | For two readable amounts, changed iff they differ. |
| EditInvoice.UnreadableAmountAlwaysChanged | src/components/invoice/EditInvoiceModal.tsx:308-315 | An entered amount that is no number always moves the timestamp to now, even when it equals the stored text. |
| EditInvoice.ReapplyKeepsTimestamp | src/components/invoice/EditInvoiceModal.tsx:308-315 | Applying with a readable amount paid as stored keeps the stored payment time. |
| EditInvoice.TotalsEffectConsistent | src/components/invoice/EditInvoiceModal.tsx:248-259 | Once every amount is current, the totals the effect computes make the form consistent. |
| EditInvoice.EditForm.constructor | src/components/invoice/EditInvoiceModal.tsx:249-260 | The loaded data with its totals recalculated. It is consistent when the loaded amounts are current. |
| EditInvoice.EditForm.SetDescription | src/components/invoice/EditInvoiceModal.tsx:93-99 | Items become WithDescription, totals are recalculated, and nothing else changes. Consistency is kept. |
| EditInvoice.EditForm.SetQuantity | src/components/invoice/EditInvoiceModal.tsx:127-137 | Items become WithQuantity, totals are recalculated, and consistency is kept. |
| EditInvoice.EditForm.SetRate | src/components/invoice/EditInvoiceModal.tsx:169-176 | Items become WithRate, totals are recalculated, and consistency is kept. |
| EditInvoice.EditForm.AddNewRow | src/components/invoice/EditInvoiceModal.tsx:210-224 | Items are the old ones plus the blank item, totals are recalculated, and consistency is kept. |
| EditInvoice.EditForm.SetAdjustment | src/components/invoice/EditInvoiceModal.tsx:642-729 | The typed text replaces one adjustment, and the totals are recalculated from it. Consistency is kept. |
| EditInvoice.EditForm.RecalculateTotals | src/components/invoice/EditInvoiceModal.tsx:249-260 | The totals become CalculateTotals of the items; nothing else changes. |
| EditInvoice.EditForm.Batch | src/components/invoice/EditInvoiceModal.tsx:320-366 | The written invoice carries the given status and payment time, the edited header fields and dates, the stored items, and the stored customer and user ids. Its subtotal, grand total and balance due are those of CalculateTotals. The four adjustments pass through as typed. The customer and user documents carry the edited contact fields. |
| EditInvoice.EditForm.Updated | src/components/invoice/EditInvoiceModal.tsx:320-366 | The written invoice carries EditStatus, PaymentTimestamp, the edited due date, and the stored customer and user ids. |
| EditInvoice.EditForm.ApplyChanges | src/components/invoice/EditInvoiceModal.tsx:263-375 | An empty issue date fails with "Failed to update invoice". Otherwise the three documents of Updated. |
| EditInvoice.WrittenMatchesShown | src/components/invoice/EditInvoiceModal.tsx:320-345 | On a consistent modal, the written subtotal, grand total and balance due are the totals shown. The written balance due plus the amount paid is the grand total. Every written item amount is its quantity times its rate. |
| TotalIncome.IncomeOf | src/lib/getTotalIncome.ts:15-18 | Never negative. Positive exactly when `Number(costAmountPaid)` is a number above 0, and then it is that number. |
| TotalIncome.GetTotalIncome | src/lib/getTotalIncome.ts:11-22 | The loop's result is the sum of IncomeOf over the invoices, and is at least 0. |
| TotalIncome.IncomeSumNonNegative | src/lib/getTotalIncome.ts:11-22 | Total income is at least 0. |
| TotalIncome.IncomeOrderFree | src/lib/getTotalIncome.ts:13-20 | Total income does not depend on the order of the invoices. |
| TotalIncome.UnpaidAddNothing | src/lib/getTotalIncome.ts:17 | An invoice with a zero, negative or unreadable amount paid adds nothing. |
| TotalWithdraw.WithdrawnOf | src/lib/getTotalWithdraw.ts:14-17 | A positive amount counts in full; any other counts 0. |
| TotalWithdraw.GetTotalWithdraw | src/lib/getTotalWithdraw.ts:10-21 | The loop's result is the sum of WithdrawnOf over the payouts, and is at least 0. |
| TotalWithdraw.WithdrawAppend | src/lib/getTotalWithdraw.ts:16-17 | One more payout of positive amount a adds exactly a; a non-positive one adds nothing. |
| TotalWithdraw.WithdrawOrderFree | src/lib/getTotalWithdraw.ts:12-19 | Total withdrawn does not depend on the order of the payouts. |
| EarningsTable.CustomerNamesLookup | src/lib/getEarningsTableData.ts:17-20 | The map holds each customer id with the name of the last document of that id. |
| EarningsTable.CustomerNamesKeys | src/lib/getEarningsTableData.ts:17-20 | An id is in the map exactly when some customer document has it. |
| EarningsTable.BuildCustomerMap | src/lib/getEarningsTableData.ts:15-20 | The loop builds exactly CustomerNames. |
| EarningsTable.CustomerLabel | src/lib/getEarningsTableData.ts:30 | The stored name when the id maps to a defined name, else "Unknown Customer". |
| EarningsTable.PaymentDate | src/lib/getEarningsTableData.ts:35 | `lastPaymentAt` when set, otherwise the invoice date. |
| EarningsTable.IncomeEntry | src/lib/getEarningsTableData.ts:32-37 | The entry carries the invoice id, the payment date, the label " — " invoice number, and the positive amount paid. |
| EarningsTable.PayoutEntry | src/lib/getEarningsTableData.ts:47-52 | The entry carries the payout id, its method, its creation time and the negated amount. |
| EarningsTable.Insert | src/lib/getEarningsTableData.ts:56 | One longer, and the same entries plus the inserted one. |
| EarningsTable.InsertKeepsOrder | src/lib/getEarningsTableData.ts:56 | Inserting into a newest-first list keeps it newest first. |
| EarningsTable.SortNewestFirst | src/lib/getEarningsTableData.ts:56 | A permutation of its input, ordered by date non-increasing. |
| EarningsTable.InsertOldest | src/lib/getEarningsTableData.ts:56 | An entry no newer than all others goes last, so ties keep their order. |
| EarningsTable.SortSortedIsIdentity | src/lib/getEarningsTableData.ts:56 | Sorting a newest-first list leaves it as it is. |
| EarningsTable.PushIncomeEntries | src/lib/getEarningsTableData.ts:25-39 | The first loop pushes exactly the entries of the paid invoices, in order. |
| EarningsTable.PushPayoutEntries | src/lib/getEarningsTableData.ts:44-53 | The second loop appends one entry per payout, in order. |
| EarningsTable.GetEarningsTableData | src/lib/getEarningsTableData.ts:10-57 | The two loops then the sort give the sorted entries of the paid invoices followed by the payouts. |
| EarningsTable.IncomeEntriesLength | src/lib/getEarningsTableData.ts:25-39 | One entry per invoice whose amount paid is a number above 0. |
| EarningsTable.PayoutEntriesLength | src/lib/getEarningsTableData.ts:44-53 | One entry per payout; none is filtered. |
| EarningsTable.IncomeEntriesSum | src/lib/getEarningsTableData.ts:36 | The invoice entries sum to total income. |
| EarningsTable.PayoutEntriesSum | src/lib/getEarningsTableData.ts:51 | The payout entries sum to minus the sum of all payout amounts. |
| EarningsTable.FeedFacts | src/lib/getEarningsTableData.ts:25-56 | The feed's length is the number of paid invoices plus the number of payouts. It is newest first. Its amounts sum to total income minus all payout amounts. |
| EarningsTable.IncomeEntriesMoneyIn | src/lib/getEarningsTableData.ts:29-37 | The positive parts of the invoice entries sum to total income. |
| EarningsTable.PayoutEntriesMoneyIn | src/lib/getEarningsTableData.ts:51 | Payouts of non-negative amount contribute no positive entry. |
| EarningsTable.IncomeIsFeedMoneyIn | src/lib/getTotalIncome.ts:17-18 | With non-negative payouts, total income equals the sum of the feed's positive entries. |
| EarningsTable.WithdrawIsPayoutTotal | src/lib/getTotalWithdraw.ts:16-17 | With non-negative payouts, total withdrawn is the sum of all payout amounts. |
| EarningsTable.CreatedPaymentListedUnderInvoiceDate | src/app/invoice/standard-invoice/page.tsx:376 | A payment recorded at creation appears in the feed dated at the invoice date, because the record has no `lastPaymentAt`. |
| Dashboard.BalanceIsFeedSum | src/app/dashboard/page.tsx:59 | With non-negative payouts, income − withdrawn equals the sum of the feed's amounts. |
| Dashboard.RecentFlow | src/app/dashboard/page.tsx:143-145 | min(10, n) entries, newest first, all drawn from the feed. |
| Dashboard.PrefixWithin | src/app/dashboard/page.tsx:145 | A prefix holds no entry more often than the whole list. |
| Dashboard.RecentFlowOfFeed | src/app/dashboard/page.tsx:140-148 | Applied to the earnings feed, the recent flow is the feed's first min(10, n) entries. |
| Dashboard.SignPrefix | src/app/dashboard/page.tsx:222-242 | "+" iff the amount is above 0; "-" iff it is 0 or below. |
| Dashboard.Magnitude | src/app/earnings/page.tsx:209 | Non-negative, and equal to the amount or its negation. |
| Dashboard.ShownAmountRoundTrip | src/app/earnings/page.tsx:204-217 | The sign and magnitude shown recover the amount. |
| InvoiceCounter.GetInvoiceCounter | src/services/invoiceCounter.ts:16-44 | total is the number of invoices. Each bucket counts the invoices whose lower-cased status is exactly its name. |
| InvoiceCounter.BucketsWithinTotal | src/services/invoiceCounter.ts:28-41 | paid + unpaid + overdue + partial ≤ total. |
| InvoiceCounter.CaseIgnored | src/services/invoiceCounter.ts:26 | Statuses equal up to case fall in the same buckets. |
| InvoiceCounter.BucketExamples | src/services/invoiceCounter.ts:26-41 | "Paid" and "PAID" count as paid; "Overpaid" and "" count in no bucket. |
| CustomerTable.ToRow | src/lib/getCustomerTableData.ts:12-15 | The row is the document id with the document's fields. |
| CustomerTable.Key | src/lib/getCustomerTableData.ts:21 | Undefined exactly when the record has no e-mail, which makes `trim` throw. |
| CustomerTable.Dedup | src/lib/getCustomerTableData.ts:18-27 | No longer than the input, with pairwise distinct keys. |
| CustomerTable.DedupKeys | src/lib/getCustomerTableData.ts:18-27 | The table holds exactly the keys of its input. |
| CustomerTable.FillMap | src/lib/getCustomerTableData.ts:18-27 | The loop succeeds iff every key is defined, and then yields Dedup. Otherwise it stops at a record without a key. |
| CustomerTable.GetCustomerTable | src/lib/getCustomerTableData.ts:10-27 | Fails, naming a document without an e-mail, iff one exists. Otherwise the de-duplicated rows. |
| CustomerTable.EveryKeyKept | src/lib/getCustomerTableData.ts:20-25 | Every input key is represented in the output. |
| CustomerTable.FirstIsKept | src/lib/getCustomerTableData.ts:22-24 | The first record of each key is in the output. |
| CustomerTable.OnlyFirstsKept | src/lib/getCustomerTableData.ts:22-24 | Every output record is the first of its key. |
| CustomerTable.DedupIsSubsequence | src/lib/getCustomerTableData.ts:20-27 | The output keeps the input's order. |
| CustomerTable.DistinctLosesNothing | src/lib/getCustomerTableData.ts:18-27 | With distinct keys nothing is dropped. |
| CustomerTable.NothingLostMeansDistinct | src/lib/getCustomerTableData.ts:18-27 | If nothing is dropped, the keys were distinct. |
| CustomerTable.NothingDroppedIffDistinct | src/lib/getCustomerTableData.ts:18-27 | Output length equals input length iff the input keys are distinct. |
| CustomerTable.SameKeyKeepsFirst | src/lib/getCustomerTableData.ts:22-24 | Of two records with one key, only the first is kept. |
| CustomerTable.KeyIgnoresPaddingAndCase | src/lib/getCustomerTableData.ts:21 | E-mails that differ only by surrounding white space and letter case give the same key, as with "A@x.com" and "a@x.com ". |
| PayoutRequest.PayoutForm.constructor | src/components/earnings/RequestPayoutModal.tsx:24-26 | Amount and e-mail start empty; the method starts as "Select payment". |
| PayoutRequest.PayoutForm.NumericAmount | src/components/earnings/RequestPayoutModal.tsx:29 | The amount when it reads as a non-zero number, else 0. |
| PayoutRequest.PayoutForm.PreviewBalance | src/components/earnings/RequestPayoutModal.tsx:30 | Preview + amount = balance. The preview is negative iff the amount exceeds the balance. |
| PayoutRequest.PayoutForm.HandleSubmit | src/components/earnings/RequestPayoutModal.tsx:52-77 | An invalid form yields nothing and changes nothing. A valid one yields the draft, with 0 < amount ≤ balance and a non-empty e-mail. The form is reset only once the payout is written. |
| PayoutRequest.Written | src/lib/createPayout.ts:5-12 | The stored payout carries the draft's amount, method and e-mail, and the creation time. |
| PayoutRequest.ValidRequestWithinBalance | src/components/earnings/RequestPayoutModal.tsx:45-49 | A valid form asks for 0 < amount ≤ balance, so the preview is not negative. |
| PayoutRequest.EmptyAmountInvalid | src/components/earnings/RequestPayoutModal.tsx:29-46 | An empty amount reads as 0, so an opened or reset form is invalid. |
| PayoutRequest.UnchosenMethodPasses | src/components/earnings/RequestPayoutModal.tsx:26-49 | With the method left as "Select payment", a positive amount within the balance and an e-mail make the form valid. |
| PayoutRequest.RequestKeepsBalanceNonNegative | src/app/earnings/page.tsx:103-310 | A request made against the earnings balance leaves income − withdrawn at 0 or above once its payout is stored. |
| InvoiceData.OrZero | src/lib/getInvoiceEditData.ts:95-101 | A stored number as is; missing or `NaN` reads 0. |
| InvoiceData.Load | src/lib/getInvoiceEditData.ts:20-45 | "Invoice not found", then "Customer not found" (by `custID`), then "User not found" (by `userID`). Otherwise the three documents. |
| InvoiceData.ToDateInput | src/lib/getInvoiceEditData.ts:60-61 | Empty for no timestamp. Otherwise the start of the UTC day holding it. |
| InvoiceData.EditItemOf | src/lib/getInvoiceEditData.ts:48-57 | Description, quantity and rate kept as stored. The amount is recomputed as Num(quantity) × Num(rate). |
| InvoiceData.EditItems | src/lib/getInvoiceEditData.ts:48 | One item per stored item, in order. |
| InvoiceData.GetInvoiceEditData | src/lib/getInvoiceEditData.ts:20-106 | Fails with Load's error. Otherwise: the header with date inputs, customer fields defaulting to "", the three sums coerced with `\|\| 0`, the four adjustments passed through, and the stored invoice unchanged beside it. |
| InvoiceData.EditItemsCurrent | src/lib/getInvoiceEditData.ts:48-57 | The loaded items' amounts are current, so the edit form opens consistent. |
| InvoiceData.ViewItemOf | src/lib/getInvoiceViewData.ts:91-101 | Quantity and rate coerced, and amount = their product. |
| InvoiceData.ViewItems | src/lib/getInvoiceViewData.ts:91 | One item per stored item, in order. |
| InvoiceData.GetInvoiceViewData | src/lib/getInvoiceViewData.ts:60-141 | Fails with Load's error. Otherwise: the due date is unset exactly when `payDue` is, customer fields are as stored, and all seven totals are coerced with `\|\| 0`. |
| InvoiceData.EditAndViewAgree | src/lib/getInvoiceViewData.ts:64-140 | The edit and view models of one invoice fail together with the same error. They show the same item amounts and the same sums, the same adjustments once coerced, and a due date on both or neither. |
| InvoiceList.CustomerName | src/app/invoice/page.tsx:232 | The mapped name when present and non-empty, else "Unknown Customer"; never empty. |
| InvoiceList.RowOf | src/app/invoice/page.tsx:229-242 | Key and number as stored. Customer name per CustomerName. Due date unset when `payDue` is. Amounts default to 0. An empty status shows "Unpaid". |
| InvoiceList.Rows | src/app/invoice/page.tsx:219-243 | One row per invoice, in order. |
| InvoiceList.FetchInvoices | src/app/invoice/page.tsx:209-246 | The map loop then the row mapping give RowOf of each invoice under the customers' names. |
| InvoiceList.Delete | src/app/invoice/page.tsx:65-67 | Exactly the rows with another key remain. |
| InvoiceList.DeleteKeepsOrder | src/app/invoice/page.tsx:65-67 | The remaining rows keep their order. |
| InvoiceList.DeleteAbsentKey | src/app/invoice/page.tsx:65-67 | Deleting a key no row has changes nothing. |
| InvoiceList.Search | src/app/invoice/page.tsx:463-468 | Exactly the rows whose lower-cased number or customer name contains the lower-cased query. |
| InvoiceList.EmptyQueryKeepsAll | src/app/invoice/page.tsx:463-468 | An empty query keeps every row. |
| InvoiceList.SearchOrderAndIdempotence | src/app/invoice/page.tsx:463-468 | The result keeps the rows' order; searching it again changes nothing. |
| InvoiceList.StatusColor | src/app/invoice/page.tsx:413-421 | Each of the five statuses has its fixed color; any other text has none. |
| InvoiceList.WrittenStatusesColored | src/app/invoice/page.tsx:413-421 | Every status the forms write has a color, and different statuses have different colors. |
| CustomerSearch.SearchCustomers | src/app/customers/page.tsx:213-224 | A blank query returns the table. Otherwise exactly the rows with a field containing the lower-cased, untrimmed query. |
| CustomerSearch.SearchOrderAndIdempotence | src/app/customers/page.tsx:213-224 | The result keeps the table's order; searching it again with the same query changes nothing. |
| CustomerSearch.MissingFieldReadsUndefined | src/app/customers/page.tsx:219 | A customer without a name is found by "undefined". |
| Register.Validate | src/app/register/page.tsx:25-30 | The message of the first failing check, in order: blank name, empty e-mail, password under 6, mismatch. None iff all pass. |
| Register.MessagesDistinct | src/app/register/page.tsx:25-30 | The four messages differ. |
| Register.RegisterForm.constructor | src/app/register/page.tsx:13-18 | Empty fields, no error, not loading. |
| Register.RegisterForm.HandleRegister | src/app/register/page.tsx:20-61 | Account creation is attempted iff validation passes. On failure the error is the check's message and loading is untouched. After an attempt loading is off, and the error is cleared or set to the creation's message ("Registration failed" when empty). |
| JsNumber.Round2 | src/app/invoice/standard-invoice/page.tsx:54-55 | Within half a cent of its input, a whole number of cents below 1e21, and with the sign kept. |
| JsNumber.Round2Idempotent | src/app/invoice/standard-invoice/page.tsx:308-309 | Rounding a rounded value changes nothing. |
| JsText.TrimPadded | src/lib/getCustomerTableData.ts:21 | `trim` removes exactly blank padding around text that neither starts nor ends with white space. |

## Left out

- **Firestore I/O.** The reads and writes (`getDocs`, `getDoc`, `addDoc`, `deleteDoc`, `writeBatch`) are replaced by sequences and maps passed in and by returned values. A failed write is a parameter: `written` for the payout form, `createFailure` for sign-up. The batch's atomicity is the database's.
- **User interface.** React hooks, effect triggers, rendering, modals, toasts, routing, the debounce hook, `Intl.NumberFormat` and date formatting are not modelled. The edit modal's totals effect is modelled as a call after each item edit.
- **Authentication.** Login and session handling are not modelled. From sign-up only the checks and the error and loading fields are kept. Account creation is a parameter.
- **Numbers.** JavaScript numbers are binary doubles; the model computes on exact reals. `Number` of hexadecimal, binary, octal and `Infinity` literals gives `NaN` in the model. `toFixed` is modelled as exact half-away-from-zero rounding, not the rounding of the double's binary value.
- **`NaN` versus missing.** A stored numeric field that is `NaN` is not distinguished from one that is missing or null; both are `None`.
- **InvoiceList.RowOf:** `costGrandTotal ?? 0` keeps a stored `NaN` in the source; the model gives 0, because `NaN` and missing are not distinguished.
- **Text.** `toLowerCase` maps ASCII letters only. `password.length` counts characters, not UTF-16 code units.
- **Dates.** Parsing of date inputs and of ISO strings, `new Date(...)` and time zones are not modelled. A date input is a timestamp, or `None` when empty. A date that fails to parse (an invalid `Date`) is not modelled, except for the edit modal's empty issue date, which makes the write fail.
- **Clock.** `Date.now`, `Timestamp.now` and `new Date()` are a `now` parameter. The create flow reads the clock several times; the model uses one instant.
- **Aliasing in the edit modal.** Its cell handlers copy the item array shallowly and then assign into the shared item objects. The model replaces the item by value, so the mutation of the previous state's objects is not captured.
- **Sorting.** The in-place, stable `Array.prototype.sort` of the feed and of the recent flow is modelled by value, as a stable insertion sort on sequences.
- **The create page's save.** The customer and user documents it writes first are not modelled; only their generated ids enter the invoice record. The stray `lastPayment` field is reported with the record (`SaveOutcome.Saved`), not stored in it. The `createdAt: Timestamp.now()` field (src/app/invoice/standard-invoice/page.tsx:374) is not modelled: no part of this model reads it. Concurrent clicks are reduced to the `saveLoading` test at entry. The navigation after saving is not modelled.
- **PayoutRequest.PayoutForm.HandleSubmit:** the `loading` flag and the modal's close and refresh callbacks are not modelled.
- **Register.RegisterForm.HandleRegister:** a thrown value that is not an `Error` ("An unknown error occurred") is not modelled. The profile update and the redirect are not modelled either.
- **Customer table row type.** The `CustomerTableData` type file is not part of this model. Its rows are modelled as the document id plus the customer fields.
- **Payout writes.** The `createAt` added by `createPayout` is the `now` of `PayoutRequest.Written`. Of `createPayout` nothing else is modelled.
