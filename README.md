# Optimabix backend core in Dafny

A model of the accounting and stock core of the Optimabix point-of-sale
backend, a Node/Express service over MongoDB. Each Mongoose collection
that the core writes is a class holding a `seq` of documents:
`LedgerStore`, `InventoryStore`, `UnitStore`, `ReturnStore`,
`PaymentStore`, `CounterStore`, `AccountStore`, `CompanyStore`,
`ProductStore`, `MetadataStore` and `PosStore`. The handlers are methods
on these stores, or functions where the source only computes a value.

The model covers:

- the double-entry poster and its callers, expense posting and returns;
- the older running-balance ledger entry;
- the POS return workflow, with its session rollback and the ledger pair
  that survives a rollback;
- return numbering and the per-company counters;
- inventory records and the `totalQuantity = Σ batch.quantity` rule;
- the subtotal folds of POS transactions and invoices;
- the dashboard folds;
- the account directory and its request validator;
- product creation with the company-metadata merge;
- name normalisation;
- the company guards, the access-status rule and payment records;
- the upload check.

Conventions of the model:

- Ids are strings.
- New ids, the clock, today's date text and "now" are parameters.
- An error response is `Err(status, message)` of the `Result` type in
  `Common`.
- A `find…` on a collection with a pre-find hook skips soft-deleted
  documents. The hook exists on Ledger, Inventory, POSTransaction,
  Invoices, Companies and Payments. Products, CompanyMetadata,
  InventoryUnits, Returns and Counter have none, and account queries
  name `isDeleted: false` themselves.
- Each database call is one sequential step: no interleavings.

Modules, one per file:

- `Common`: Result/Option, first match, filter, sums, sorting, paging.
- `Text`: trimming, ASCII case, the database's string order.
- `Decimal`: `String`, `padStart` and `parseInt` on counters.
- `LedgerService`, `LedgerModel`: the ledger.
- `Counters`: the counter service.
- `ReturnNumbers`: the return model and its pre-save hook.
- `InventoryUnits`, `Inventory`, `Products`, `PosTransactions`,
  `Invoices`, `Expense`, `Returns`, `Dashboard`, `Accounts`,
  `Validation`, `Companies`: the collections and handlers of those names.
- `FormatName`: `formatName`.
- `FileValidator`: `validateFile`.

## Model

| member | source | states |
|---|---|---|
| LedgerService.DoubleEntry | src/utils/ledgerService.js:5-56 | fails with 500 exactly when debit ≠ credit; otherwise exactly two rows, the debit on the debit account then the credit on the credit account, both carrying the request's shared fields, with linkedEntityId, invoiceId and accountId absent when omitted |
| LedgerService.CreateDoubleLedgerEntry | src/utils/ledgerService.js:21-56 | the ledger is unchanged on failure and otherwise grows by exactly the two rows; existing rows are never modified |
| LedgerService.PostKeepsBalance | src/utils/ledgerService.js:21-56 | a successful post leaves total debits minus total credits unchanged |
| LedgerService.ApplyPosts | src/utils/ledgerService.js:25 | a sequence of posts only appends to the ledger |
| LedgerService.PostsBalanced | src/utils/ledgerService.js:21-56 | across any sequence of posts, debits minus credits is preserved |
| LedgerService.PostsFromEmptyBalanced | src/utils/ledgerService.js:21-56 | starting from an empty ledger, total debits equal total credits |
| LedgerModel.Latest | src/models/ledger.model.js:111 | `findOne({companyId}).sort({date:-1})`: a live row of the company with the greatest date, or none exactly when the company has no live row |
| LedgerModel.RunningRow | src/models/ledger.model.js:100-131 | omitted amounts are 0; balance = latest prior balance of the company + debit − credit, and debit − credit when there is no prior row |
| LedgerModel.LedgerStore.InsertMany | src/utils/ledgerService.js:25-56 | appends the rows given |
| LedgerModel.LedgerStore.SoftDelete | src/models/ledger.model.js:88-92 | sets isDeleted and deletedBy on that row only |
| LedgerModel.LedgerStore.ManageLedgerEntry | src/models/ledger.model.js:96-139 | appends the running row; when the required fields are missing, fails with 500 'Failed to manage ledger entry' and writes nothing |
| LedgerModel.SoftDeleteHides | src/models/ledger.model.js:82-92 | after a soft delete the company's visible rows are the old ones minus that row |
| LedgerModel.LatestIsLast | src/models/ledger.model.js:111 | on a chronological ledger the latest row is the last visible row of the company |
| LedgerModel.PreviousIsLastBalance | src/models/ledger.model.js:111-114 | the previous balance is the balance of the company's last visible row, or 0 |
| LedgerModel.ManageKeepsRunningSum | src/models/ledger.model.js:111-131 | if every stored balance is the running Σ(debit − credit) of the company, it still is after the new entry |
| LedgerModel.ManageKeepsChronological | src/models/ledger.model.js:111-131 | an entry dated at or after the company's rows keeps its rows chronological |
| LedgerModel.OtherCompaniesUnaffected | src/models/ledger.model.js:111-131 | another company's entry changes neither this company's rows nor its previous balance |
| LedgerModel.PreviousBalanceOwnRows | src/models/ledger.model.js:111-115 | the previous balance depends only on the company's own rows |
| Counters.CounterStore.GetNextSequence | src/utils/counterService.js:3-15 | the new store and the value are those of `Next` on the old store |
| Counters.NextIncrements | src/utils/counterService.js:4-14 | returns the previous seq of (name, company) plus one, stores it, and returns 1 for a fresh pair |
| Counters.NextLeavesOthers | src/utils/counterService.js:5 | other (name, company) pairs keep their seq |
| Counters.NextStrictlyIncreasing | src/utils/counterService.js:6-14 | two successive calls for one pair return strictly increasing values |
| Counters.NextAsWritten | src/models/counter.model.js:5-16 | with `name` unique on its own, an upsert for a second company under an existing name fails on the duplicate key |
| Counters.SecondCompanyCounterFails | src/models/counter.model.js:5-16 | 'POSReturnCounter' of a second company fails as written, but yields 1 under the per-pair index |
| Decimal.ParseInt | src/models/returns.model.js:39-40 | on text without leading whitespace, sign or 0x prefix, `parseInt` gives no number exactly when the text does not start with a digit |
| Decimal.LastSegment | src/models/returns.model.js:39 | `split('-').pop()`: the longest suffix without '-' |
| Decimal.Pad6Parses | src/models/returns.model.js:39-43 | parsing a padded counter gives the counter back |
| Decimal.Pad6Ordered | src/models/returns.model.js:34-43 | below 1,000,000, string order of padded counters is numeric order |
| Decimal.Pad6OrderBreaks | src/models/returns.model.js:34-43 | example: at 1,000,000 the seven-digit counter sorts below 999999 |
| Decimal.LexLessIsNumeric | src/models/returns.model.js:34 | on digit strings of equal length, string order is numeric order |
| ReturnNumbers.Last4 | src/models/returns.model.js:29 | `slice(-4)`: the last min(4, length) characters |
| ReturnNumbers.Greatest | src/models/returns.model.js:32-35 | the stored return with the prefix whose number is greatest in string order, or none exactly when no number has the prefix |
| ReturnNumbers.GreatestStaysGreatest | src/models/returns.model.js:32-35 | a new number above the greatest becomes the greatest |
| ReturnNumbers.NextCounter | src/models/returns.model.js:37-41 | 1 when no number has the prefix |
| ReturnNumbers.NumberRoundTrip | src/models/returns.model.js:39-43 | the last '-' segment of a generated number parses to its counter |
| ReturnNumbers.NumberCompare | src/models/returns.model.js:34-43 | same prefix: equal numbers mean equal counters, and below 1,000,000 number order is counter order |
| ReturnNumbers.GeneratedHasPrefix | src/models/returns.model.js:28-43 | every generated number starts with 'RTN-date-last4' |
| ReturnNumbers.NumberedAt | src/models/returns.model.js:26-43 | under the numbering invariant, each stored number with the prefix is the one generated from its counter |
| ReturnNumbers.NextIsFresh | src/models/returns.model.js:32-43 | while counters stay below 999999, the next counter exceeds every stored counter of the prefix |
| ReturnNumbers.CounterBelowGreatest | src/models/returns.model.js:34-43 | a number not above the greatest has a counter not above its counter |
| ReturnNumbers.GreatestCounter | src/models/returns.model.js:37-41 | the next counter is one more than the greatest number's counter |
| ReturnNumbers.NumberedExtends | src/models/returns.model.js:26-43 | saving the next generated number keeps the numbering invariant |
| ReturnNumbers.CollisionAtMillion | src/models/returns.model.js:34-43 | after counters 999999 and 1000000 the scheme regenerates 1000000, a number already taken |
| ReturnNumbers.FirstNumber | src/models/returns.model.js:28-43 | example: the first return of a prefix is numbered prefix + '-000001' |
| ReturnNumbers.ReturnStore.PreSave | src/models/returns.model.js:26-58 | only a new document is numbered: returnNumber from the greatest stored number, counterNumber from the company's 'POSReturnCounter'; a failed counter upsert is passed to `next(err)` as a 500 with the counters unchanged; an old document is unchanged |
| ReturnNumbers.ReturnStore.Save | src/models/returns.model.js:26-58 | the hook, then the insert; a failed counter upsert or a taken return number fails the save and stores nothing, and only the latter keeps the counter advance |
| Returns.AsWrittenCounterBlocksReturn | src/models/returns.model.js:45-54 | under the counter schema as written, a company's first return fails with the upsert's duplicate-key 500 when another company holds 'POSReturnCounter', and the return leaves every collection as it was |
| ReturnNumbers.SaveSucceedsBelowMillion | src/models/returns.model.js:32-43 | below the bound the next number is never taken |
| InventoryUnits.RestoreUnit | src/controllers/returns.controller.js:36-50 | a unit that is 'Sold' for company, product, batch and serial becomes 'In Stock'; none found is a 500 naming the serial |
| InventoryUnits.RestoreSerialsErr | src/controllers/returns.controller.js:35-51 | the serials stop at the first one not found |
| InventoryUnits.RestoreUnitCounts | src/controllers/returns.controller.js:36-50 | one restore lowers the number of sold units by one |
| InventoryUnits.RestoreSerialsCounts | src/controllers/returns.controller.js:35-51 | restoring n serials lowers the sold count by n |
| InventoryUnits.RestoreTwiceFails | src/controllers/returns.controller.js:41-50 | a serial cannot be returned twice |
| Inventory.TotalOfIncrement | src/controllers/returns.controller.js:55-68 | raising one batch by q raises the batch sum by q |
| Inventory.NewRecord | src/controllers/inventory.controller.js:24-33 | a new record's totalQuantity is the sum of its batch quantities |
| Inventory.Updated | src/controllers/inventory.controller.js:102-104 | batches replaced wholesale, totalQuantity recomputed as their sum, identity kept |
| Inventory.GetInventoryById | src/controllers/inventory.controller.js:77-80 | found exactly when a live record has the id; absent and soft-deleted are both 404 |
| Inventory.InventoryStore.CreateInventory | src/controllers/inventory.controller.js:13-33 | 404 for an unknown product, then 400 for a live record of the pair, else append; keeps totals consistent and at most one live record per pair |
| Inventory.InventoryStore.UpdateInventory | src/controllers/inventory.controller.js:96-106 | 404 and no change for an unknown id, else that record updated; keeps both invariants |
| Inventory.InventoryStore.SoftDeleteInventory | src/controllers/inventory.controller.js:121-126 | 404 for an unknown id, else isDeleted and deletedBy set; keeps both invariants |
| Inventory.CreateKeepsUnique | src/controllers/inventory.controller.js:18-21 | creating only when no live record exists keeps one live record per pair |
| Inventory.SoftDeleteHides | src/controllers/inventory.controller.js:78-80 | a soft-deleted record is not found by id and no longer blocks its pair |
| Inventory.GetAllInventory | src/controllers/inventory.controller.js:50-63 | the items are exactly page `page` of the live records of the company: min(limit, count − (page−1)·limit) of them, or none past the end, in stored order from (page−1)·limit on; count and ⌈count/limit⌉ pages |
| Inventory.EveryRecordListed | src/controllers/inventory.controller.js:55-56 | every live record of the company is listed: the i-th is item i mod limit of page ⌊i/limit⌋ + 1 |
| Common.OnPage | src/controllers/inventory.controller.js:55-56 | `.skip((page−1)·limit).limit(limit)` skips nothing: on page ⌊i/limit⌋ + 1 the i-th match is item i mod limit |
| PosTransactions.ComputeSubtotal | src/controllers/posTransactions.controller.js:22-29 | 404 naming the first unknown product exactly when a line's product is unknown; otherwise Σ unitPrice × quantity |
| PosTransactions.NewTransaction | src/controllers/posTransactions.controller.js:34-46 | subTotal as computed; discount, tax, totalPayable and paidAmount stored as supplied |
| PosTransactions.FindLive | src/models/posTransactions.model.js:112-115 | a live transaction with the id, or none exactly when there is none |
| PosTransactions.GetPOSTransactionById | src/controllers/posTransactions.controller.js:90-93 | 404 exactly when no live transaction has the id |
| PosTransactions.PosStore.CreatePOSTransaction | src/controllers/posTransactions.controller.js:22-46 | fails with 404 and writes nothing exactly when a product is unknown; otherwise appends the transaction with the subtotal |
| PosTransactions.PosStore.SoftDeletePOSTransaction | src/controllers/posTransactions.controller.js:107-112 | 404 for an unknown id, else isDeleted and deletedBy set |
| PosTransactions.GetAllPOSTransactions | src/controllers/posTransactions.controller.js:63-76 | the items are exactly page `page` of the live transactions of the company (as many as remain, up to limit, from (page−1)·limit on), their count and ⌈count/limit⌉ pages |
| PosTransactions.EveryTransactionListed | src/controllers/posTransactions.controller.js:68-69 | every live transaction of the company is listed: the i-th is item i mod limit of page ⌊i/limit⌋ + 1 |
| Invoices.CreateInvoice | src/controllers/invoices.controller.js:23-52 | a missing transaction is reported before a missing ledger entry; the subtotal is Σ unitPrice × quantity; amounts and paymentStatus stored as supplied |
| Invoices.GetAllInvoices | src/controllers/invoices.controller.js:68-83 | the items are exactly page `page` of the live invoices of the company, filtered by paymentStatus when given (as many as remain, up to limit), with count and pages |
| Invoices.EveryInvoiceListed | src/controllers/invoices.controller.js:75-76 | every matching invoice is listed: the i-th is item i mod limit of page ⌊i/limit⌋ + 1 |
| Invoices.CreatedInvoiceListed | src/controllers/invoices.controller.js:69-71 | a new invoice raises the count of exactly the listings it matches |
| Expense.ExpensePost | src/controllers/expense.controller.js:14-35 | debit and credit are both the amount; type 'Expense'; the fresh transaction id; referenceType 'Payments' by default |
| Expense.CreateExpense | src/controllers/expense.controller.js:20-35 | always succeeds and appends the two 'Expense' rows |
| Expense.ExpenseOwnsTransaction | src/controllers/expense.controller.js:20 | a fresh transaction id: the expense's rows are exactly the rows with that id |
| Expense.GetAllExpenses | src/controllers/expense.controller.js:48-88 | 400 exactly when companyId is missing or empty; otherwise the rows are exactly page `page` of the live 'Expense' rows of the company in the date window sorted newest first, with count, pages and totalExpenses the sum over debit rows |
| Expense.EveryExpenseListed | src/controllers/expense.controller.js:68-69 | every matching expense row is listed: the i-th newest is item i mod limit of page ⌊i/limit⌋ + 1 |
| Expense.SortedPage | src/controllers/expense.controller.js:66-69 | the sorted page holds matches only, in date order |
| Expense.TotalCountsDebitsOnly | src/controllers/expense.controller.js:76-78 | totalExpenses is the sum over the debit rows of the page |
| Products.MergeList | src/controllers/products.controller.js:42-49 | appends formatName(raw) exactly when raw is given and the raw string is not already listed; the list is otherwise kept |
| Products.UpsertMetadata | src/controllers/products.controller.js:33-51 | absent metadata is created with [category] or [] and [brand] or [], unformatted; existing metadata is merged |
| Products.MergeRepeats | src/controllers/products.controller.js:42-45 | a raw name that differs from its formatted form is appended again on every call |
| Products.MergeRepeatsExample | src/controllers/products.controller.js:42-45 | example: 'phones' twice on ['Phones'] gives ['Phones', 'Phones', 'Phones'] |
| Products.CreateProduct | src/controllers/products.controller.js:27-70 | 400 before any write on a SKU clash in the company; otherwise the metadata is saved, and then a missing SKU or a SKU used elsewhere fails with 500, else the product is appended |
| Products.CreateKeepsSkuUnique | src/controllers/products.controller.js:27-30 | a successful create keeps each SKU unique within a company |
| Products.GetProductById | src/controllers/products.controller.js:146-149 | a soft-deleted or absent product is 404 |
| Products.GetProductByIdFinds | src/controllers/products.controller.js:146-149 | found exactly when a live product has the id |
| Products.GetAllProducts | src/controllers/products.controller.js:118-132 | the items are exactly page `page` of the matching products, filtered by category when given: as many as remain after (page−1)·limit, up to limit, in stored order; with count and pages |
| Products.EveryProductListed | src/controllers/products.controller.js:124-125 | every matching product is listed: the i-th is item i mod limit of page ⌊i/limit⌋ + 1 |
| Returns.BumpBatch | src/controllers/returns.controller.js:55-61 | `$inc` on the batch whose `_id` matches: the batch sum rises by the quantity when the batch exists and nothing changes otherwise; every batch keeps its id |
| Returns.RestockLineKeepsConsistent | src/controllers/returns.controller.js:55-68 | when the batch exists, raising it and totalQuantity by the quantity keeps Σ batches = totalQuantity |
| Returns.RestockLinesKeepsConsistent | src/controllers/returns.controller.js:30-69 | the same over all lines of a return |
| Returns.MissingBatchBreaksConsistency | src/controllers/returns.controller.js:55-68 | a missing batch with a nonzero quantity breaks Σ batches = totalQuantity |
| Returns.RestoreLinesErr | src/controllers/returns.controller.js:30-51 | the first unknown serial fails the whole return |
| Returns.RestoreLinesCounts | src/controllers/returns.controller.js:30-51 | the sold count falls by the number of serials returned |
| Returns.ReturnPostBalanced | src/controllers/returns.controller.js:90-106 | the reversing pair passes the guard: debit 'Sales Return', credit 'Cash/Bank' for cash and 'Accounts Payable' otherwise, both for totalRefund |
| Returns.RefundCancelsCashCredit | src/controllers/returns.controller.js:109-120 | for a cash return with a non-negative refund, amountPaid is the negated credit amount |
| Returns.RestoreSerialUnits | src/controllers/returns.controller.js:35-51 | the loop over serials equals `RestoreSerials` on the old units |
| Returns.ReverseStock | src/controllers/returns.controller.js:30-69 | the loop over lines restores serials and raises quantities line by line |
| Returns.CreatePOSReturn | src/controllers/returns.controller.js:8-157 | response and new state equal `ProcessReturn` of the old state, including the counter-failure outcome of the save hook |
| Returns.Complete | src/controllers/returns.controller.js:74-144 | steps 3 to 7 equal `CompleteReturn`: a counter failure or a taken number aborts at the save, a receipt failure after the ledger post |
| Returns.ReturnSucceedsIff | src/controllers/returns.controller.js:26-144 | success exactly when the sale is live, every serial is found, the counter upsert succeeds, the number is free and the receipt succeeds |
| Returns.FailedReturnRollsBack | src/controllers/returns.controller.js:151-155 | a failure is a 500 leaving units, inventory, returns and payments unchanged; only the counter and the ledger pair may persist |
| Returns.LedgerPairSurvivesReceiptFailure | src/controllers/returns.controller.js:93-144 | a receipt failure answers 500 yet leaves the two ledger rows in place |
| Returns.ReturnKeepsLedgerBalance | src/controllers/returns.controller.js:93-106 | whatever the outcome, debits minus credits is unchanged |
| Returns.SuccessfulReturnEffects | src/controllers/returns.controller.js:74-120 | on success: the numbered return stored, the sold count down by the serials, and one refund of −\|totalRefund\| 'Refunded' for cash and none otherwise |
| Returns.ReturnKeepsInventoryConsistent | src/controllers/returns.controller.js:55-68 | when each line's batch is in its pair's record, Σ batches = totalQuantity holds after the return |
| Returns.GetAllReturns | src/controllers/returns.controller.js:173-197 | the entries are exactly page `page` of the matches (company, case-insensitive number substring, transaction, counter) sorted on the field; they are matches only and in key order, with the total and the page count |
| Returns.EveryReturnListed | src/controllers/returns.controller.js:181-182 | every matching return is listed: the i-th in key order is item i mod limit of page ⌊i/limit⌋ + 1 |
| Dashboard.GetAmount | src/controllers/dashboard.controller.js:44-45 | 0 for a transaction type absent from the groups |
| Dashboard.AddToAmount | src/controllers/dashboard.controller.js:28-31 | adding a row to the groups raises only its own type's total |
| Dashboard.GroupTotals | src/controllers/dashboard.controller.js:28-45 | the grouped total of a type is the sum of amounts over all rows of that type |
| Dashboard.KpisAreSums | src/controllers/dashboard.controller.js:21-53 | totalSales, paymentsReceived and discountsGiven sum every row of their type, debit and credit alike; cashInBank sums only 'Cash/Bank' debits |
| Dashboard.SalePairCountsTwice | src/controllers/dashboard.controller.js:28-38 | a balanced sale pair adds twice its amount to totalSales and once to cashInBank |
| Dashboard.GetInventoryValue | src/controllers/dashboard.controller.js:57-71 | the nested loops compute ΣΣ quantity × purchasePrice over the company's live records |
| Dashboard.TableName | src/controllers/dashboard.controller.js:146-158 | 'Unknown' when no live product of the company matches; any other name is such a product's name |
| Dashboard.Rows | src/controllers/dashboard.controller.js:146-158 | one row per record, each built from its own record |
| Dashboard.RowsValue | src/controllers/dashboard.controller.js:146-158 | the row values sum to the records' values |
| Dashboard.TableSumsToValue | src/controllers/dashboard.controller.js:146-158 | the table's values sum to the inventory value |
| Dashboard.TableRowFacts | src/controllers/dashboard.controller.js:146-158 | each row's value is its record's batch sum, and its quantity is the batch quantity sum when totals are consistent |
| Dashboard.GetEntityCounts | src/controllers/dashboard.controller.js:75-90 | each count is at most the number of entities |
| Dashboard.NewEntityCounted | src/controllers/dashboard.controller.js:77-86 | a new entity raises the customer count exactly when it is a live 'Customer' or 'Both' of the company, and the vendor count exactly when it is a live 'Vendor' or 'Both' |
| Dashboard.MonthSales | src/controllers/dashboard.controller.js:125-129 | 0 for a month without data; any other value comes from that month's entry |
| Dashboard.GetSalesChart | src/controllers/dashboard.controller.js:119-135 | exactly six labels and values, oldest first, the k-th for the month 5−k back from now |
| Dashboard.ChartMonths | src/controllers/dashboard.controller.js:119-128 | the last month is the current one and the six months are consecutive |
| Dashboard.MonthIndexRoundTrip | src/controllers/dashboard.controller.js:121-128 | month numbering round-trips through year and month |
| Dashboard.Named | src/controllers/dashboard.controller.js:189-195 | each item keeps its totals and takes its product's name, or 'Unknown' |
| Dashboard.TopGroups | src/controllers/dashboard.controller.js:179-180 | min(8, n) groups in descending unitsSold, a sub-multiset of the aggregated groups |
| Dashboard.GetTopProducts | src/controllers/dashboard.controller.js:179-195 | the named top groups: min(8, n) items by descending unitsSold, each from an aggregated entry |
| Dashboard.TopIsTop | src/controllers/dashboard.controller.js:179-185 | no omitted product sold more than a listed one |
| Dashboard.GetDashboard | src/controllers/dashboard.controller.js:205-238 | 400 exactly when companyId is missing or not an ObjectId; otherwise each section is its fold, the chart's k-th label and value are those of the month 5−k back, and outstandingReceivables is 0 |
| Validation.RuleErrors | src/middlewares/validation.middleware.js:12-31 | a chain reports nothing exactly when the value is non-empty and passes; with no bail, an empty value gets both messages |
| Validation.ValidateAccount | src/middlewares/validation.middleware.js:11-33 | no errors exactly when both ids pass `isMongoId` (24 characters of hex digits after an optional 0x/0h prefix), entityType is Customer, Vendor or Both, and status is Active, Inactive or Suspended |
| Validation.MongoIdForms | src/middlewares/validation.middleware.js:14 | `isMongoId` accepts exactly 24 hex digits, or a 0x/0h prefix and 22 hex digits |
| Validation.ChainErrors | src/middlewares/validation.middleware.js:11-33 | the errors at one field's path are exactly that field's chain errors |
| Validation.AccountMessages | src/middlewares/validation.middleware.js:12-31 | each of the eight messages appears exactly when its validator rejects the field |
| Validation.ValidateRequest | src/middlewares/validation.middleware.js:3-9 | the handler runs exactly when the error list is empty; otherwise 400 with all the errors |
| Validation.AccountGate | src/middlewares/validation.middleware.js:3-33 | the account handler runs exactly for an accepted body; any other gets 400 with at least one error |
| Validation.EmptyBodyReportsEverything | src/middlewares/validation.middleware.js:11-33 | example: an empty body gets all eight messages |
| Accounts.NewAccount | src/controllers/account.controller.js:19-25 | a live account for the pair, status 'Active' when omitted |
| Accounts.AccountStore.CreateAccount | src/controllers/account.controller.js:14-25 | 400 while a live account exists for (entityId, companyId), else append; keeps one live account per pair |
| Accounts.AccountStore.UpdateAccount | src/controllers/account.controller.js:47-66 | 404 for a missing or deleted account; otherwise only status and updatedBy change and the saved account is answered |
| Accounts.UpdatedStillFound | src/controllers/account.controller.js:52-54 | after a status update the same account is found by id with the new status, and every listing counts as many accounts as before |
| Accounts.AccountStore.DeleteAccount | src/controllers/account.controller.js:82-101 | 404 for a missing or already deleted account; otherwise isDeleted and deletedBy set and success answered |
| Accounts.CreateKeepsUnique | src/controllers/account.controller.js:14-17 | creating only when no live pair exists keeps the pair unique |
| Accounts.DeletedDoesNotBlock | src/controllers/account.controller.js:82-89 | after the soft delete the pair can be created again and the id is not found |
| Accounts.GetAccounts | src/controllers/account.controller.js:114-135 | the items are exactly page `page` of the matching accounts sorted newest first; never a deleted account; optional company and entityType filters; count and pages |
| Accounts.EveryAccountListed | src/controllers/account.controller.js:125-126 | every matching account is listed: the i-th newest is item i mod limit of page ⌊i/limit⌋ + 1 |
| Accounts.CreatedAccountListed | src/controllers/account.controller.js:115-129 | a new account raises the count of exactly the listings it matches |
| Companies.WithAccess | src/controllers/companies.controller.js:122-126 | undefined keys keep their old value and reasons are trimmed; nothing else changes |
| Companies.WithPayment | src/controllers/companies.controller.js:153-155 | exactly one entry appended; a falsy nextPaymentDue or gracePeriod keeps the old value |
| Companies.CompanyStore.CreateCompany | src/controllers/companies.controller.js:12-28 | 400 when a required field is falsy, 400 for a live company of that name, 500 when a deleted company holds the name or registration number, else append |
| Companies.CompanyStore.UpdateCompanyAccessStatus | src/controllers/companies.controller.js:118-130 | the reason rule is checked before the lookup (400), then 404, then the update |
| Companies.CompanyStore.AddPaymentRecord | src/controllers/companies.controller.js:148-157 | 404 for an unknown company, else `WithPayment` |
| Companies.ReasonRule | src/controllers/companies.controller.js:118-120 | refused exactly for 'Suspended' or 'Revoked' with neither reason given |
| Companies.ZeroGraceKeepsOld | src/controllers/companies.controller.js:155 | a grace period of 0 keeps the old one |
| Companies.PaymentsAccumulate | src/controllers/companies.controller.js:153 | two payments are recorded in order, each once |
| Companies.CreatedNameBlocks | src/controllers/companies.controller.js:16-19 | a live company blocks a later create under the same trimmed name |
| FormatName.FormatFalsy | src/utils/formatName.js:3 | a falsy input gives '' |
| FormatName.FormatShape | src/utils/formatName.js:5-9 | single-spaced, no outer whitespace, its words are the input's words capitalised, same word count |
| FormatName.FormatWordsCapitalized | src/utils/formatName.js:8 | each word starts with a non-lowercase letter and has no uppercase letter after it |
| FormatName.FormatIdempotent | src/utils/formatName.js:3-9 | formatting twice equals formatting once |
| FormatName.FormatOneWord | src/utils/formatName.js:5-9 | a single word is just capitalised |
| FormatName.FormatIsCapitalizedWords | src/utils/formatName.js:5-9 | the result is the capitalised words joined by single spaces |
| FormatName.WordsTrim | src/utils/formatName.js:5 | trimming does not change the words |
| FileValidator.ValidateFile | src/utils/fileValidator.js:1-10 | accepted exactly for JPEG or PNG of at most 2 MiB; the type is checked first |
| FileValidator.LimitInclusive | src/utils/fileValidator.js:7-9 | example: exactly 2 MiB passes; one byte more fails on size, or on type when the type is wrong |

## Left out

- Express plumbing: routes, responses, app bootstrap and configuration.
- Users, admins, authentication and password hashing.
- The plain CRUD controllers of entities, roles, modules, tax configurations, discounts, subscription plans, audit logs, branches, payments, stock adjustments and the ledger.
- softDeleteCompany, restoreCompany, getAllCompanies, getCompanyById and updateCompany: plain CRUD.
- getInvoiceById, getCompanyMetadata and the product update and delete handlers: plain CRUD.
- The sale engine (batch decrement and sale-side ledger postings) is not part of this model. It is only imported by the routes.
- Mongoose schema validation and strict mode. These would reject or strip some writes the handlers make:
  - referenceType 'Returns' is outside the ledger enum;
  - the refund's status 'Refunded' and its null ledgerEntryId conflict with the payments schema;
  - the ledger schema lacks account, entryType, amount and transactionId;
  - `returnedOn` is outside the unit schema;
  - the company schema requires `createdBy`, which createCompany does not pass;
  - the product schema trims `productName`, `sku` and `category`, which Products.NewProduct stores as given and Products.SameSku and Products.SkuClash compare untrimmed.

  The model follows the handlers, not the schema.
- The PDF receipt is the `receiptError` parameter: a receipt step that may fail.
- The company lookup before the receipt is not modelled.
- Audit-log writes are not modelled: `logAuditEvent` catches its own failures, so UpdateAccount and DeleteAccount answer success once the account is saved.
- The clock, dates and random or time-based numbers are parameters. This covers transaction and invoice numbers, the return number's date part, `new Date()` and moment's month arithmetic.
- The dashboard's aggregation pipelines for the chart and the top products are inputs (`MonthTotal`, `ProductTotal`). So is the date-to-month conversion.
- The expense day-boundary window is modelled as given bounds (`from`, `to`).
- Concurrency and MongoDB sessions: each request is one sequential step over a snapshot. A rollback restores the collections the session covers.
- Amounts are exact integers: there is no floating point and no `formatCurrency`.
- Dashboard.GetInventoryValue: a batch quantity or purchase price is always present, so the `|| 0` fallbacks for missing values are not modelled.
- Counters and quantities are unbounded.
- Case mapping is ASCII only, and there is no Unicode whitespace beyond the ASCII spaces.
- Dashboard.GetDashboard: `ObjectId.isValid` is modelled as 24 hexadecimal characters. Older bson versions also accept any 12-character string.
- Returns.GetAllReturns:
  - the returnNumber filter treats the text as a literal substring, so regular-expression metacharacters are not modelled;
  - `Number(counterNumber)` is modelled on digit strings only;
  - only the sort fields createdAt, counterNumber and totalRefund are modelled.
- Listings:
  - page and limit are positive integers, so `parseInt` and `Number` on other text are not modelled;
  - an undefined filter key is dropped from the query, as Mongoose does;
  - Returns.GetAllReturns, Accounts.GetAccounts, Expense.GetAllExpenses, Dashboard.TopGroups and Dashboard.GetTopProducts: elements with equal sort keys keep their stored order, whereas MongoDB's sort is not stable. When keys tie, the exact page (or which tied groups make the top eight) is the model's choice, not a promise of the source.
- LedgerModel.Latest: ties on date are not broken the way MongoDB breaks them. A posting row's stored balance reads as the schema default 0.
- Returns.BumpBatch: a batchId that is not an ObjectId makes MongoDB raise a cast error; the model treats it as matching no batch.
- Ids are well-formed ObjectIds: the CastError (answered 500) that Mongoose raises for a malformed id in `findById`, `findOne` or `new mongoose.Types.ObjectId(companyId)` is not modelled. The lookups of GetProductById, GetInventoryById, GetPOSTransactionById, UpdateInventory, SoftDeleteInventory, CreateInvoice, UpdateAccount, DeleteAccount and FindLive answer not found instead, and GetAllExpenses answers Ok.
- ReturnNumbers.ReturnStore.Save: the counter upsert's outcome is the `counterError` parameter; Returns.AsWrittenCounterBlocksReturn ties it to the counter schema as written.
- Decimal.ParseInt: leading whitespace, signs and the 0x prefix are not modelled; the return-number hook only parses the digit segment after the last '-'.
- Validation: only validateAccount is in this model; the other validators are not.

## Findings

| source | as written | input that shows it | evidently intended | confidence | as-written member | corrected member |
|---|---|---|---|---|---|---|
| src/models/counter.model.js:5-16 | `name` is `unique: true` by itself, besides the unique (name, companyId) index, so only one company can ever hold a counter of a given name | company A has 'POSReturnCounter'; the save hook's `Counter.findOneAndUpdate` for ('POSReturnCounter', B) (src/models/returns.model.js:46-50) upserts a second document with the same name and fails on the duplicate key, so every return of company B fails | one counter per (name, companyId); the first call for a fresh pair returns 1 | not executed | Counters.NextAsWritten, Counters.SecondCompanyCounterFails, Returns.AsWrittenCounterBlocksReturn | Counters.CounterStore.GetNextSequence, Counters.NextIncrements |
