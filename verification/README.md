# Verification model of the gold shop's ledger

The backend keeps a double-entry general ledger in two dimensions, USD and grams per karat. It is
append-only and hash-chained, and sales, refunds, supplier debt, settlements and a historical replay feed
it. This project models that ledger and the subledgers, stock and protocols around it, and proves what they
keep over every call, every run or every interleaving.

Run `dafny verify dfyconfig.toml` (Dafny 4.11).

## How it is laid out

| module | models |
|---|---|
| `Journal`, `AuditChain`, `GLChain` | journal lines and the balance validator; the hash chains; the posting rules under the lock |
| `PostingEngine`, `Interleaving` | posting twice over: as a session object changed in place, and as interleaved transactions with two head locks |
| `TrialBalance`, `PeriodClose` | the grouped report against the plain fold; year close over consecutive years |
| `Orders`, `SalePostings`, `LineRefunds` | checkout and line refunds; the entries of sales and refund slices; what is left when every unit is back |
| `Suppliers`, `SupplierDesk`, `OpeningBalances`, `ApControl`, `Fifo`, `ApAging` | supplier debt in cash and gold: balances, documents, control accounts, opening entry, aging |
| `SettlementFx`, `Receivables` | realized FX on settlement; invoices, receipts and the AR control account |
| `UnitStock`, `StockTakes` | coin and ounce stock; stock-takes |
| `LoginLockout`, `FanOut` | the lockout derived from the audit log; the bounded concurrent fan-out |
| `Replay`, `ClosedYearProbe` | the historical replay; which documents its closed-year probe names |
| `Wrappers`, `Sums`, `Rounding`, `Folds` | shared datatypes, sums, half-even rounding, loops that stop at the first failure |

Modelling choices. Money is whole cents, grams are milligrams, rates are millionths and percentages
hundredths of a percent: the scales of the columns. `quantize` rounds half to even on exact rationals
(section 4.3.1 of IEEE 754-2008). A digest is a free datatype that records what went into it, so two digests
are equal only if their inputs are. Tables are sequences and maps. An HTTP error is an `Err` that leaves the
state as it was. The clock is read later each time it is read under a lock. Whether the posting engine takes
an entry is a parameter (`accepts`) in the supplier and receivables modules; `PostingEngine` and `Replay`
model the engine itself. Row ids are integers where only their equality matters.

Three statements the code's own documentation suggests are false in general. Each has a lemma with the
failing input and one with the exact condition:

- the half-cent bound on the FX leg at equal rates fails for foreign cash (`SettlementFx.ForeignCashIsNotSmall`;
  `SettlementFx.EqualRatesBoundExactly`, `SettlementFx.NoGainExactly` and `SettlementFx.NoFxLegExactly` give the
  conditions);
- stored supplier balances and the replay of documents part on a negative gram due, which the handler skips
  and the replay counts (`SupplierDesk.NegativeDueOnNewDesk`; `SupplierDesk.PurchaseReconcilesExactly`);
- the closed-year probe says it "lists EVERY offender", but it judges each document on the books as the
  earlier ones left them (`Replay.SecondEmptyPurchaseIsNotNamed`; `ClosedYearProbe.ListsEveryOffenderExactly`).

The results about the probe take the documents as the replay makes them (app/core/gl_replay.py:365-461): one
step per row, event or order, and no reversal step for an order that has line refunds.

## Model

| member | source | states |
|---|---|---|
| `Journal.ValidatorIsExact` | app/core/gl.py:68-105 | The validator accepts an entry exactly when it has lines, nets to zero in USD base and in every karat there is, and every component fits its account. |
| `Journal.ReversalCancels` | app/core/gl.py:439-455 | An entry and its reversal cancel on every account, in base, per currency and per karat. |
| `Journal.SwapKeepsBalance` | app/core/gl.py:432-449 | The mirror image of a balanced entry is balanced in both dimensions. |
| `AuditChain.Verify` | app/core/audit_chain.py:262-313 | The walk reports an intact chain with its row count, or the first row whose link or hash does not fit, with the expected and actual digests. |
| `AuditChain.AppendKeepsIntact` | app/core/ledger.py:174-233 | A row appended onto the head keeps the chain intact, and the new head is its hash. |
| `AuditChain.VerificationIsExact` | app/api/ledger.py:81-119 | Against the head of an intact chain, what passes the walk and the head check is that chain, field for field, and nothing else; only row ids are free. |
| `AuditChain.SameHeadSameContent` | app/core/audit_chain.py:120-144 | Two intact chains with the same last hash have the same hashed content and the same length. |
| `AuditChain.SameContentSameHead` | app/core/audit_chain.py:215-231 | Equal content gives equal hashes, whatever the row ids. |
| `AuditChain.EditReportedAtRow` | app/core/audit_chain.py:285-309 | Rewriting the fields of a row is reported at exactly that row. |
| `AuditChain.RehashedEditReported` | app/core/audit_chain.py:285-309 | Rewriting a row together with its own hash moves the report to the next row, or to the head check. |
| `AuditChain.DeletionReportedAtSuccessor` | app/core/audit_chain.py:285-309 | Deleting an inner row is reported at its successor. |
| `AuditChain.TruncationReportedByHead` | app/api/ledger.py:111-119 | Dropping rows from the end leaves a clean walk and is caught by the head hash. |
| `AuditChain.TimeOrderIsAppendOrder` | app/api/ledger.py:81-87 | Fetching by time returns the append order, because every append reads a later clock. |
| `GLChain.AppendKeepsJournalSafe` | app/core/gl.py:306-378 | Appending under the lock keeps one verified chain, distinct ids and entry numbers, at most one reversal per entry, no reversal of a reversal, and at most one live entry per auto-post source. |
| `GLChain.AppendReversesNoClose` | app/core/gl.py:398-419 | No posting reverses a year close, whatever the ledger held before. |
| `PostingEngine.Session.PostEntry` | app/core/gl.py:267-378 | Posts exactly the entry the outcome function gives, or refuses with its reason and changes nothing; the books stay valid. |
| `PostingEngine.Session.ReverseEntry` | app/core/gl.py:381-455 | Posts the mirror image once, refuses a missing entry, a reversal, a year close or a second reversal. |
| `PostingEngine.Session.NextEntryNo` | app/core/gl.py:133-151 | Numbers run per entry date; only the counter of that day moves. |
| `PostingEngine.AcceptedExactly` | app/core/gl.py:108-174 | The checks before the lock let through exactly the balanced entries on accounts that exist and are active, into a month that exists and is open or may be closed. |
| `PostingEngine.Session.AppendEntry` | app/core/gl.py:321-378 | Number, chained row, both heads and the audit event, and nothing else. |
| `PostingEngine.Session.Record` | app/core/ledger.py:174-233 | One chained audit row and the advanced head. |
| `PostingEngine.Session.ResolveAccounts` | app/core/gl.py:154-173 | The first line whose account is unknown or inactive refuses the entry. |
| `PostingEngine.PostKeepsValid` | app/core/gl.py:280-378 | Every accepted posting keeps both chains, the posting rules and the balance of every entry. |
| `PostingEngine.ReverseKeepsValid` | app/core/gl.py:388-455 | Every accepted reversal does too. |
| `PostingEngine.ReversedForGood` | app/core/gl.py:404-430 | After a reversal every later attempt, on the entry or on its reversal, is refused. |
| `Interleaving.CommittedBooksAreSafe` | app/core/gl.py:213-246 | In every state of every interleaving of any number of transactions, the committed journal is one verified chain obeying every posting rule, no year close was reversed, and every entry balances. |
| `Interleaving.CommittedJournalIsAppendOnly` | app/core/gl.py:306-378 | Nothing committed is ever rewritten or removed. |
| `Interleaving.NobodyWaitsForAWaiter` | app/core/gl.py:287-313 | With the ledger head always locked before the GL head, no transaction waits for one that waits: no deadlock of any length. |
| `Interleaving.SomeoneCanGoOn` | app/core/ledger.py:160-171 | While transactions run, one of them can go on. |
| `Interleaving.StepKeepsInv` | app/core/gl.py:294-378 | Every step (early check, lock, re-check, append, record, commit, abort) keeps the invariant. |
| `Interleaving.RunKeepsInv` | app/core/gl.py:398-430 | So does every run from a safe database. |
| `TrialBalance.ComputeTrialBalance` | app/core/gl.py:466-569 | The grouped report equals the line-by-line fold: per account, currency and karat, with a karat bucket exactly where a line moved metal. |
| `TrialBalance.AccumulateKeepsMatches` | app/core/gl.py:495-535 | Folding one more item into the report keeps it equal to the fold of the items. |
| `TrialBalance.GroupedMatchesLines` | app/core/gl.py:476-494 | A report over the groups is the report over the lines. |
| `TrialBalance.ReportBalances` | app/core/gl.py:536-569 | For every journal of balanced entries and every date, the report balances in USD and in each karat. |
| `TrialBalance.ReversalRestoresReport` | app/core/gl.py:439-455 | Posting an entry and its reversal leaves every net as it was. |
| `Orders.Checkout` | app/api/orders.py:309-365 | The totals: VAT on the pre-discount subtotal, then the discount; refused by its own guards exactly on an empty cart, a quantity below one or a discount out of range, the first of these saying why. |
| `Orders.RefundsConserveCash` | app/api/orders.py:754-824 | Over any sequence of line refunds, cash returned plus the current total is what was charged, no refund is negative, and the order reads REFUNDED exactly when every unit is back, with the total at zero and each line fully refunded. |
| `Orders.RefundKeepsGood` | app/api/orders.py:806-824 | One accepted refund keeps all of that. |
| `Orders.TotalMonotone` | app/api/orders.py:700-712 | Half-even VAT and a discount of at most 100% never let the total rise when value is taken away. |
| `Orders.OrderRow.RecomputeTotals` | app/api/orders.py:689-713 | The loop recomputes subtotal, VAT, discount and total from what remains. |
| `Orders.RefundAcceptedExactly` | app/api/orders.py:744-768 | A line refund is accepted exactly when the order is still open to them, has the line, and the line has that many units left. |
| `Orders.OrderRow.ReturnUnits` | app/api/orders.py:806-824 | Counters, totals, status and event after an accepted refund. |
| `Orders.OrderRow.Refund` | app/api/orders.py:717-824 | The order side of the handler: the outcome function, in place, invariant kept, a refusal changes nothing. |
| `SalePostings.PostSale` | app/core/gl_postings.py:95-169 | The sale entry balances in USD and in every karat and puts revenue, making charge, VAT, discount, metal and stone cost on their accounts. |
| `SalePostings.AggregateCogs` | app/core/gl_postings.py:139-147 | The per-karat dict adds up to the cost and grams of the lines. |
| `SalePostings.MetalCogs` | app/core/gl_postings.py:148-152 | The COGS pairs move exactly the grams and cost sold, between METAL_COGS and METAL_INVENTORY only. |
| `SalePostings.PostLineRefund` | app/core/gl_postings.py:222-271 | The slice entry undoes its share on every account it touches, in money and grams, touches no other, and balances exactly when the discount slice is not negative. |
| `SalePostings.SaleMoney` | app/core/gl_postings.py:123-137 | The money lines of a sale, by what they do to any net. |
| `SalePostings.StoneMoney` | app/core/gl_postings.py:154-164 | One aggregated stone pair, only if there is stone cost. |
| `LineRefunds.RefundSourcesAreDistinct` | app/core/gl_postings.py:221-224 | The line id with the cumulative quantity is distinct for every refund event of an order: none is swallowed or doubled. |
| `LineRefunds.AllUnitsAreBack` | app/api/orders.py:813-824 | When an order reads REFUNDED by lines, its events add up to what was sold, in any per-unit measure. |
| `LineRefunds.RevenueReturnsToZero` | app/core/gl_postings.py:109-129 | Sale and slices leave SALES_REVENUE at exactly zero, in any split and order of refunds, whatever the VAT setting and the product costs are by then. |
| `LineRefunds.MakingReturnsToZero` | app/core/gl_postings.py:228-255 | And MAKING_CHARGE_REVENUE. |
| `LineRefunds.GramsReturnToZero` | app/core/gl_postings.py:235-252 | And the grams of every karat, on COGS and on inventory. |
| `LineRefunds.StoneReturnsToZero` | app/core/gl_postings.py:259-267 | And the stone cost. |
| `LineRefunds.VatReturnsWithinHalfCents` | app/core/gl_postings.py:227-249 | VAT within half a cent per slice plus half a cent for the sale. |
| `LineRefunds.CogsReturnsWithinHalfCents` | app/core/gl_postings.py:85-92 | Metal COGS within half a cent per untracked slice plus half a cent per untracked line; tracked lines leave nothing. |
| `LineRefunds.SlicesAddUpToSubtotal` | app/api/orders.py:810-814 | The slices together are worth the subtotal of the sale. |
| `LineRefunds.SlicesBalance` | app/core/gl_postings.py:230-233 | The discount slice of every accepted line refund is not negative, from the totals that remain and from the totals as sold, so its entry balances. |
| `PeriodClose.CloseYear` | app/core/period_close.py:156-207 | Each refusal under exactly its condition; closes exactly when no guard fires, some account has a balance to close and every account on the entry takes money; then the contra entry is posted and next year is open. A refusal leaves the books as they were. |
| `PeriodClose.Preview` | app/core/period_close.py:121-153 | The lines are the contra balances of the year as the trial balance reads them, plus retained earnings: a line exactly where there is something to close. |
| `PeriodClose.RefuseClose` | app/core/period_close.py:157-172 | Which guard fires under which condition, and none exactly when there are months, all closed, and the year is not closed already. |
| `PeriodClose.ClosableExactly` | app/core/period_close.py:186-198 | The engine takes the closing entry exactly when every account with a balance, and retained earnings if there is a result, exists, is active and takes money. |
| `PeriodClose.ClosedForGood` | app/core/period_close.py:105-118 | A closed year stays closed over every accepted reversal, even in a ledger that holds old reversals of other closes. |
| `PeriodClose.PostedKeepsClosed` | app/core/period_close.py:105-118 | And over every accepted posting. |
| `PeriodClose.ClosedYearsNetToZero` | app/core/period_close.py:121-153 | Over any run of closes with nothing back-dated, every income and expense account nets to zero at the end of every closed year. |
| `PeriodClose.CloseTakesItsOwnYear` | app/core/period_close.py:173-207 | Each close is balanced, moves no metal, and moves into retained earnings exactly the profit since the previous close, although it reads a cumulative trial balance. |
| `Suppliers.AdjustBalance` | app/core/supplier_balance.py:17-79 | Adds the delta to one balance and to no other, or refuses, exactly when the result would be negative. |
| `Suppliers.ConsumeLots` | app/api/suppliers.py:377-407 | Draws every payment from its lot or refuses with the first reason; returns the grams paid per karat. |
| `Suppliers.PostPurchase` | app/core/gl_postings.py:274-363 | Balanced in both dimensions; on AP and METAL_AP exactly what is newly owed, per karat; empty exactly when there is neither cash cost nor grams owed. |
| `Suppliers.PostPayment` | app/core/gl_postings.py:366-394 | Balanced; takes exactly the payment off AP or off one karat of METAL_AP. |
| `Suppliers.PurchaseCash` | app/core/gl_postings.py:319-342 | Product and stone inventory, net AP and cash paid get exactly their parts and balance; a stone part above the cost is dropped. |
| `SupplierDesk.Desk.CreatePurchase` | app/api/suppliers.py:411-559 | Refuses for the first failing check, or leaves exactly the purchase, its lots, balances and entry; always keeps the cash tie-out, and the three-way one unless a due is negative. |
| `SupplierDesk.Desk.CreatePayment` | app/api/suppliers.py:693-827 | Likewise for payments: the balance is checked before lots are drawn, and an overpayment is refused. |
| `SupplierDesk.RunStaysTied` | app/api/suppliers.py:427-535 | Over every run of purchases and payments with posting on and no negative due, stored balances, the replay of documents and the control accounts agree, per supplier and karat. |
| `SupplierDesk.PurchaseReconcilesExactly` | app/api/suppliers.py:491-520 | A purchase keeps stored balances equal to the replay exactly when none of its gram dues is negative. |
| `SupplierDesk.NegativeDueDrifts` | app/api/inventory.py:135-144 | The input that shows it: a due of minus one milligram in gold mode is accepted, adds nothing to the balance, and the replay counts it. |
| `SupplierDesk.NegativeDueOnNewDesk` | app/api/suppliers.py:427-520 | That input on a new desk, posting or not. |
| `SupplierDesk.RunStaysSound` | app/api/suppliers.py:492-501 | Over every run, whatever is requested and with posting on or off: no negative balance, and stored cash balances equal the cash replay. |
| `SupplierDesk.CleanRunReconciles` | app/api/inventory.py:121-159 | Without a negative due, stored balances and replay agree on every key over every run, posting or not. |
| `SupplierDesk.PaymentReconciles` | app/api/suppliers.py:716-792 | A payment always keeps them equal. |
| `SupplierDesk.PostedKeepsTie` | app/core/gl_postings.py:336-356 | An entry with the document's control effect keeps GL AP and METAL_AP equal to the balances. |
| `SupplierDesk.ExpectedBalances` | app/api/inventory.py:121-159 | The accumulated dict is, key by key, purchases less payments. |
| `SupplierDesk.Reconcile` | app/api/inventory.py:163-235 | The reported keys are exactly those on which stored and computed balance differ; none means they agree on every key there could be. |
| `SupplierDesk.AddDebt` | app/api/suppliers.py:492-520 | Balances grow by exactly the positive amounts owed, cash and per karat. |
| `SupplierDesk.CheckPurchase` | app/api/suppliers.py:417-485 | The checks in order, ending with gold paid against gold due. |
| `SupplierDesk.SettlePayment` | app/api/suppliers.py:716-791 | The checks of a payment, the balance first. |
| `ApControl.VerifyApControl` | app/core/ap.py:27-60 | Both verdicts: USD, and every karat either side knows. |
| `ApControl.ReportMatchesExactly` | app/core/ap.py:37-60 | On journals the mappers wrote the report matches exactly when the books tie out. |
| `OpeningBalances.OpeningEntry` | app/core/coa_seed.py:173-306 | Balanced in both dimensions whatever the stock, debts and cash; on the control accounts exactly what suppliers are owed. |
| `OpeningBalances.OpeningTies` | app/core/coa_seed.py:253-268 | Posted on untouched control accounts it ties them to the stored balances, exactly when its cash lines leave AP alone in total. |
| `OpeningBalances.OpeningStartsTied` | app/core/coa_seed.py:253-300 | Right after it the books are tied three ways, under exactly that condition. |
| `OpeningBalances.TiedFromOpening` | app/core/coa_seed.py:253-300 | A shop that runs without posting, opens its ledger with the opening entry and posts from then on is tied three ways in every later state. |
| `OpeningBalances.PlugEquity` | app/core/coa_seed.py:281-300 | The equity lines close what is missing, in money and per karat, and nothing else. |
| `Fifo.ApplyPaid` | app/core/ap.py:111-117 | The in-place loop leaves of each purchase what the payments do not reach after everything older. |
| `Fifo.FifoHasOneCut` | app/core/ap.py:111-117 | What remains is a cleared prefix, at most one part-paid item, then an untouched suffix. |
| `Fifo.RemainingTotal` | app/core/ap.py:111-117 | The rest adds up to the debt less the payments, or to nothing. |
| `ApAging.ComputeApAging` | app/core/ap.py:73-141 | Every supplier gets the buckets of what FIFO leaves and the stored gold per karat, and the totals are theirs together. |
| `ApAging.BucketsHoldWhatRemains` | app/core/ap.py:63-70 | Each bucket holds exactly the amounts of its age and together they hold everything. |
| `ApAging.AgingTotal` | app/core/ap.py:104-124 | A supplier's buckets sum to max(0, debt - paid) whatever order the purchases are read in. |
| `ApAging.AgingInEveryState` | app/api/suppliers.py:492-501 | In every state the supplier desk can reach, posting on or off and whatever is requested, each supplier's buckets sum to the stored cash balance and the grand total to the balances listed. |
| `ApAging.AgingIsStoredBalance` | app/api/suppliers.py:723-725 | The same of any book without negative balances whose cash balances are the cash replay. |
| `ApAging.GrandTotalIsStored` | app/core/ap.py:137-139 | And the grand total is the sum of the stored balances. |
| `SettlementFx.SettlementLegs` | app/core/gl_fx.py:51-116 | Refuses exactly the unknown kind, the empty list, a foreign document or a foreign tender; otherwise one leg per allocation, one cash leg and at most one FX leg for exactly the difference, balanced in base. |
| `SettlementFx.EqualRatesBoundExactly` | app/core/gl_fx.py:79-116 | With captured rates equal to the tender rate the FX leg is at most (n + 1) / 2 cents for all allocations, exactly if the cash is in the document's currency or the rate is one. |
| `SettlementFx.ForeignCashIsNotSmall` | app/core/gl_fx.py:93-102 | The input that shows it otherwise: one allocation of the rate times a unit. |
| `SettlementFx.NoGainExactly` | app/core/gl_fx.py:91-114 | With the tender rate at or above every captured rate no receipt gains beyond that bound, exactly if the cash is in the document's currency or no document was booked above one. |
| `SettlementFx.RoundTripExactly` | app/core/gl_fx.py:93-102 | Converting cents to the tender currency and back is lossless for every amount exactly when the rate is at least one. |
| `SettlementFx.NoFxLegExactly` | app/core/gl_fx.py:93-114 | A USD document booked at one and paid in foreign cash never has an FX leg, exactly when the tender rate is at least one. |
| `SettlementFx.PlugIsDifference` | app/core/gl_fx.py:107-114 | Credits less debits before the plug are the realized difference, with the sign of the kind. |
| `Receivables.Subledger.PostInvoice` | app/core/ar.py:123-169 | Each refusal under exactly its condition, and accepted exactly when the customer exists, the limit allows it and, posting, the VAT is not negative and the engine agrees; the customer is then within the limit, GL AR stays tied, and the subledger stays sound exactly when the total is not negative. |
| `Receivables.Subledger.CreditSale` | app/core/ar.py:91-108 | Accepted exactly when the customer exists, the limit allows it and the engine agrees; the invoice matches the AR line of its sale entry and the customer is within the limit. |
| `Receivables.Subledger.PostReceipt` | app/core/ar.py:181-254 | FIFO over the customer's open invoices, the rest unapplied, AR down by exactly the receipt; amounts in range and status matching kept. |
| `Receivables.InvoiceWithinLimit` | app/core/ar.py:72-81 | An invoice raises its customer's open balance by its total, so the check before it is the limit after it. |
| `Receivables.ApplyReceipt` | app/core/ar.py:217-233 | The loop leaves each invoice of the queue what FIFO leaves it, touches no other, and allocates every applied cent. |
| `Receivables.ReceiptIsOldestFirst` | app/core/ar.py:218-233 | A cleared run of the queue, at most one invoice in part, the rest untouched; something is left over only if all is cleared, and nothing is lost. |
| `Receivables.OldestFirstIsQueue` | app/core/ar.py:218-223 | The queue is exactly the customer's open invoices, by date then number. |
| `Receivables.VerifyArControl` | app/core/ar.py:111-120 | Adding up customer by customer matches GL AR exactly when the books tie out. |
| `Receivables.AllBalances` | app/core/ar.py:55-69 | The open balances of all customers add up to what invoices are short of less unapplied receipts. |
| `Receivables.ReceiptOnAr` | app/core/ar.py:235-251 | The receipt's entry takes exactly the receipt off AR. |
| `UnitStock.Shop.Sell` | app/api/orders.py:257-365 | Accepted exactly when every line of the cart is, the cart is not empty and the discount is in range, with the reason otherwise; units leave stock exactly as sold, or nothing changes. |
| `UnitStock.TakeUnits` | app/api/orders.py:242-263 | All lines are accepted, or the first that is not says why, the lines before it having taken their units. |
| `UnitStock.CartFits` | app/api/orders.py:251-263 | A cart is accepted exactly when every line could be sold and it asks for no more than is on hand, in whatever order its lines come. |
| `UnitStock.Shop.Void` | app/api/orders.py:577-617 | Only a completed order; every unit goes back. |
| `UnitStock.Shop.RefundWhole` | app/api/orders.py:674-677 | Only the status changes. |
| `UnitStock.Shop.RefundLine` | app/api/orders.py:787-824 | Exactly the refunded units of a coin or ounce line go back. |
| `UnitStock.Shop.Buy` | app/api/suppliers.py:300-334 | A purchase line adds its quantity, or is refused. |
| `UnitStock.Shop.BuyBack` | app/api/buybacks.py:300-335 | A buyback adds its quantity, or is refused. |
| `UnitStock.Shop.Adjust` | app/api/adjustments.py:251-306 | A whole-number adjustment that stays non-negative, recorded with it. |
| `UnitStock.AdjustCore` | app/api/adjustments.py:251-295 | The refusals of the one adjustment path, in order. |
| `UnitStock.SaleKeeps` | app/api/orders.py:289-305 | Conservation after a sale: on hand is purchases, buybacks and adjustments less what is out, and not negative. |
| `UnitStock.VoidKeeps` | app/api/orders.py:577-614 | Conservation after a void. |
| `UnitStock.LineRefundKeeps` | app/api/orders.py:787-813 | Conservation after a line refund. |
| `UnitStock.DriftIsLineRefunds` | app/api/inventory.py:309-328 | The drift reconcile-units would report is exactly what line refunds moved. |
| `UnitStock.ReplayIsExactWithoutLineRefunds` | app/api/inventory.py:241-328 | Without line refunds the replay is what is on hand, for every unit. |
| `StockTakes.Take.Submit` | app/api/stock_takes.py:421-491 | Freezes every line against the stock of the moment, resolves the lines without variance, and closes at once if none is left. |
| `StockTakes.Take.FreezeLines` | app/api/stock_takes.py:460-472 | The loop: expected quantity, variance, resolution, and the two counters of the event. |
| `StockTakes.Take.Approve` | app/api/stock_takes.py:503-598 | Moves stock by the frozen variance once, resolves the line, leaves one fewer pending and closes after the last. |
| `StockTakes.Take.Reject` | app/api/stock_takes.py:606-671 | Resolves the line, moves no stock. |
| `StockTakes.Take.AddLine` | app/api/stock_takes.py:323-355 | Drafts only, known units only, one line per unit. |
| `StockTakes.Take.EditLine` | app/api/stock_takes.py:360-384 | Drafts only; nothing but the count changes. |
| `StockTakes.Take.RemoveLine` | app/api/stock_takes.py:391-414 | Drafts only; nothing but the line goes. |
| `StockTakes.Take.MaybeClose` | app/api/stock_takes.py:173-226 | Closes exactly when nothing is pending and it is not closed. |
| `StockTakes.ApprovingKeeps` | app/api/stock_takes.py:554-574 | After approval the unit stands at the counted quantity plus the net movement since submit, and the line was adjusted for once. |
| `StockTakes.ApprovalRefusedExactly` | app/api/adjustments.py:284-292 | A pending line's approval is refused exactly when counted plus net movement is negative. |
| `StockTakes.ClosingKeepsInv` | app/api/stock_takes.py:183-226 | A take is SUBMITTED exactly while a line is pending after submit, and STOCK_TAKE_CLOSED is written once. |
| `StockTakes.MoveKeepsInv` | app/api/stock_takes.py:93-99 | Sales and other movements after submit keep the account of the frozen quantities. |
| `LoginLockout.LockedExactly` | app/core/login_lockout.py:110-136 | The query answers locked exactly while a lock row is less than 15 minutes old and no unlock follows it. |
| `LoginLockout.WindowBound` | app/core/login_lockout.py:139-164 | With at most K attempts in flight, a closed 15-minute window free of a success or an unlock holds at most 10 + K - 1 wrong-password rows. |
| `LoginLockout.TenGuesses` | app/core/login_lockout.py:90-92 | With one attempt at a time: at most 10, over every run. |
| `LoginLockout.LockHolds` | app/core/login_lockout.py:110-136 | A lock refuses every attempt until it is 15 minutes old unless unlocked, and a refusal writes nothing. |
| `LoginLockout.LockEnds` | app/core/login_lockout.py:20-23 | Later, or after an unlock, an attempt passes unless there is another lock. |
| `LoginLockout.LocksDoNotOverlap` | app/core/login_lockout.py:182-205 | With one attempt at a time no lock is renewed while it holds. |
| `LoginLockout.StepKeepsInv` | app/api/auth.py:95-116 | Check, stamped failure, count and lock, background rows and unlocks all keep the log's invariant. |
| `LoginLockout.AuthLog.Refuses` | app/api/auth.py:95-96 | The guard of the login handler. |
| `LoginLockout.AuthLog.RecordFailedLogin` | app/core/login_lockout.py:167-205 | Appends the failure, and a lock if it was one too many. |
| `LoginLockout.AuthLog.RecordUnlock` | app/core/login_lockout.py:214-238 | Appends the unlock row. |
| `FanOut.SessionsAreBounded` | app/core/dashboard.py:84-112 | In every state of every schedule lane sessions never exceed the gate nor a load's own limit, none is shared, and sections start at most once, in order. |
| `FanOut.EveryLoadFinishes` | app/core/dashboard.py:100-120 | A schedule that cannot go on has run every section exactly once with its result at its own index. |
| `FanOut.SchedulesEnd` | app/core/dashboard.py:103-110 | No schedule is longer than the work at its start. |
| `FanOut.SomeLaneGoesOn` | app/core/dashboard.py:104-112 | While a lane is not done some lane can go on. |
| `FanOut.StepKeepsInv` | app/core/dashboard.py:103-110 | Taking a slot, opening, pulling, finishing and leaving keep the invariant. |
| `Replay.SortSteps` | app/core/gl_replay.py:696-699 | The chronological permutation, ties broken by kind. |
| `Replay.SortIsStable` | app/core/gl_replay.py:698-699 | Documents of the same instant and kind keep the order they were read in. |
| `Replay.SaleComesFirst` | app/core/gl_replay.py:71-84 | Refunds dated no earlier than their sale are sorted after it. |
| `Replay.LoopCoversAll` | app/core/gl_replay.py:702-734 | After the loop no document is left over: each is in the GL, has nothing to post, or refunds a sale already reversed. |
| `Replay.SecondRunChangesNothing` | app/core/gl_replay.py:696-768 | A second run over any of the same documents, read in any order, on what a first committed succeeds and changes nothing: no entry, period, head or audit row. |
| `Replay.ClosedYearsUntouched` | app/core/gl_replay.py:719-741 | A committed replay adds no entry dated in a closed fiscal year and opens no month there. |
| `Replay.ProbeIsExact` | app/core/gl_replay.py:625-638 | The probe names nobody exactly when no unposted document of a closed year would post, open a month or be refused, and then it has changed nothing. |
| `Replay.SecondEmptyPurchaseIsNotNamed` | app/core/gl_replay.py:625-639 | The input that shows the list is not every such document: what an earlier one opened is no longer opened by the next. |
| `ClosedYearProbe.NamedExactly` | app/core/gl_replay.py:607-650 | The probe names a document exactly when it is an unposted one of a closed year whose mapper gets past its lookups and that has something to reverse or post, or whose month is missing with no earlier document opening it. |
| `ClosedYearProbe.LeftOutExactly` | app/core/gl_replay.py:625-639 | Of the documents that would touch the books, it leaves out exactly those with nothing to post in a missing month that an earlier document opens. |
| `ClosedYearProbe.ListsEveryOffenderExactly` | app/core/gl_replay.py:612-618 | So it lists every offender exactly when there is no such document. |
| `Replay.ReplayKeepsValid` | app/core/gl_replay.py:746-752 | What a committed replay leaves is valid, so its final balance and chain checks cannot fail. |
| `Replay.RunReplay` | app/core/gl_replay.py:771-786 | One transaction over the sorted documents: a dry run and every failure leave the database as it was, and a dry run reports what an execution commits. |
| `Replay.ReplayHistory` | app/core/gl_replay.py:655-768 | The prechecks, the probe, the loop, the closed-year check and the marker, as the outcome function says. |
| `Replay.Probe` | app/core/gl_replay.py:607-650 | The offenders are the documents that touch the books at their own turn. |
| `Replay.RunLoop` | app/core/gl_replay.py:702-734 | The steps in order, to the first failure. |
| `Replay.Map` | app/core/gl_replay.py:185-194 | The mappers on the session: skip, open the month, post, or refuse. |
| `Replay.MapAfterSale` | app/core/gl_postings.py:185-224 | Voids and refunds look for the sale and its reversal before they open a month. |
| `Replay.MapForward` | app/core/gl_postings.py:431-460 | Forward mappers skip a posted source; a melt that changed nothing opens no month. |
| `Replay.MapperShape` | app/core/gl_postings.py:44-59 | A mapper does nothing, or opens the document's month, or that and one entry on the document's date. |
| `Replay.AsSoldRestoresCheckout` | app/core/gl_replay.py:168-182 | Whatever line refunds followed, the rebuilt header is the one checkout computed. |
| `Replay.EnsurePeriod` | app/core/gl_postings.py:44-59 | Creates a missing month open and leaves an existing one alone. |

## Left out

- SHA-256 and canonical JSON: the digest is a free datatype, so collisions are not modelled.
- Quantizing a line before it is validated: amounts are already at column scale.
- The order of the validator's messages and the sort of the closing entry's lines by account code.
- Uniqueness indexes as a last resort in `post_entry`: the re-check under the lock is modelled, a stricter isolation level is not.
- Concurrent `close_year` calls: the already-closed check is made before any lock, so that property is sequential.
- The discount that live line refunds reverse: the live path passes the order after its totals were recomputed, so only the balance of such an entry is stated, not that the discounts add up.
- Orders.Checkout: gold rate gate, prices, product and unit stock and the credit limit are not part of it; `UnitStock` adds the stock of coins and ounces, `Receivables` the limit.
- Orders.OrderRow.Refund: stock and the slice entry are not part of it; they are `UnitStock.Shop.RefundLine` and `SalePostings.PostLineRefund`.
- Suppliers.PurchaseCash: the stone cost arrives as an amount; adding it up over the products bought is not modelled.
- LineRefunds.VatReturnsWithinHalfCents: states the bound at the sale's own VAT rate; a changed setting between sale and refund is not covered.
- LineRefunds.CogsReturnsWithinHalfCents: assumes the product's tracked cost is unchanged since the sale, as the replay checks and the live path does not.
- Receivables.Subledger.PostReceipt: covers USD invoices booked at rate one and USD tender accounts other than AR itself; other currencies round per document, an LBP tender stores its own rate on the receipt, and explicit allocations are not capped by the receipt.
- Receivables.Subledger.CreditSale: covers the sale only; voiding or refunding a credit sale leaves its invoice open.
- SupplierDesk.Desk.CreatePurchase: the items of a purchase (products, coins, gold lots made) are not part of it; coin and ounce quantities are in `UnitStock`.
- SupplierDesk.RunStaysTied: assumes no manual entry on the control accounts and an engine that takes every entry.
- Ids and timestamps: fresh and distinct by assumption.
- StockTakes.Take.EditLine: requests are atomic; the original does not lock the take while a line is edited.
- UnitStock.Shop.Sell: product stock is not modelled, only coins and ounces.
- FanOut: the failure path (cancelling the other lanes) and the caching of the gate per event loop.
- LoginLockout: other emails, the per-address rate limiter, and a recorder that fails (the attempt then leaves no row, which `Leave` covers).
- Replay.ReplayHistory: documents arrive as steps carrying the lines their mapper builds; reading them back from tables and events, per-kind totals, warnings and the list of master-data notices are not modelled. Books whose chain verifies are taken to be valid.
- Vendor bills and payments, which mirror receivables; bank reconciliation, KPIs, zakat, pricing formulas, catalogue editing, reports as PDF or spreadsheets, HTTP, sessions, passwords and migrations.
