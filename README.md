# invopy core: a verified model

invopy is a Flask and SQLAlchemy application for a small shop. It keeps
a product catalogue with stock figures, issues invoices with daily order
numbers, and runs a customer ledger. In the ledger, receivables are amounts
owed, transactions are payments and refunds, and each customer has a stored
balance. A companion script, `excel_to_sql.py`, turns a spreadsheet of
products into one SQL `INSERT` command.

This project models the logic of those two files in Dafny and proves what
the code promises about it:

- **Ledger.** The stored balance is always the one `update_balance` would
  compute: dues minus payments plus refunds. Every route that changes the
  ledger moves exactly one customer's balance, by exactly the amount of the
  row it touched.
- **Invoice status.** When a transaction edit or delete, or a receivable
  edit, reconciles an invoice, its new status is the rule of
  `_update_invoice_status` applied to its customer's ledger-wide totals
  (`Invoicing.Reconcile`, `Integrity.ReconcileOwnedByFacts`). Statuses are
  not kept current otherwise: a new invoice and an unlinked one are
  'pending', and a payment, a link or an invoice edit leaves them as they
  were.
- **Invoices and stock.**
  - Creating an invoice takes each line's quantity off stock.
  - Editing it moves each product's stock by old quantity minus new quantity.
  - Deleting it with `restore_stock` undoes the sale.
- **Order numbers.** The daily order number is "001" on a new day, and
  otherwise the latest invoice's number plus one, zero-filled.
- **Schema constraints.** Every route keeps them:
  - keys in order and below their counters;
  - foreign keys resolving;
  - unique item codes.
- **Authorisation.**
  - `has_permission` with its admin bypass;
  - the all-or-nothing field gate of `update_product`;
  - the account rules of `update_user` and `delete_user`.
- **Smaller pieces.**
  - `SimpleCache` with explicit times;
  - the print-template rules;
  - idempotent `init_permissions`;
  - product search matching;
  - inventory-aging buckets.
- **SQL export.** `clean_string` round-trips: SQL reads back the stripped
  text. The command is the header, one tuple per row, joined by `",\n"`,
  and a closing `;`.

## How the model is organised

Modules:

- `Wrappers`: `Option`, `Result` and the error kinds.
- `Text`: ASCII `lower`, `title` and `strip`.
- `Decimal`: `str(n)`, `int(s)` and `zfill`.
- `Ledger`: customers, transactions, receivables, `update_balance` and
  the status rule.
- `Inventory`: products, invoice lines and the stock arithmetic.
- `Invoicing`: invoices, the order number and `_update_invoice_status`.
- `Integrity`: the table constraints and their lemmas.
- `Accounts`: users, permissions and the user routes.
- `Catalog`: the `update_product` gate, search and aging.
- `Caching`: `SimpleCache`.
- `PrintTemplates`: the template routes.
- `Database`: the `Store` class that holds every table. Each route is one
  method on it.
- `SqlExport`: `excel_to_sql.py`.

How the state is represented:

- Money is integer cents, so `round(x, 2)` is the identity. Dates are day
  numbers.
- Transactions, receivables and invoices are sequences in primary-key
  order. "Latest by id" is therefore "last in the sequence".
- Customers and products are maps from id to record.
- A route either fails and leaves the store unchanged, which models the
  session rollback, or commits all of its effects.
- Uncaught exceptions and `get_or_404` are modelled as failures. The failure
  carries the error kind the route reports.
- `update_balance` is a loop (`Ledger.ComputeBalance`). It is proved equal
  to the ledger function `CustomerBalance`, and `Store.Valid()` keeps every
  stored balance equal to that function.

## Model

| member | source | states |
|---|---|---|
| `Ledger.CustomerBalance` | app.py:124-140 | the balance `update_balance` stores: the customer's dues minus payments plus refunds (no ensures: `ComputeBalance` and the shift lemmas state its meaning) |
| `Ledger.Balance` | app.py:126-140 | the same sum over a customer's own collections |
| `Ledger.ComputeBalance` | app.py:124-140 | the two loops of `update_balance` accumulate exactly Σ(amount + additional_amount) − Σ(payment amounts) + Σ(refund amounts); other transaction types add nothing |
| `Ledger.TotalDueConcat` | app.py:129-130 | the receivable sum over two runs of rows is the sum of their sums |
| `Ledger.TotalPaidConcat` | app.py:132-136 | payment and refund sums split over concatenation |
| `Ledger.TransactionsOfConcat` | app.py:121 | a customer's transactions in two runs of rows are its transactions in each, in order |
| `Ledger.ReceivablesOfConcat` | app.py:122 | the same for receivables |
| `Ledger.TransactionsOfMembers` | app.py:121 | `customer.transactions` holds exactly the rows whose `customer_id` is that customer |
| `Ledger.ReceivablesOfMembers` | app.py:122 | `customer.receivables` holds exactly the rows whose `customer_id` is that customer |
| `Ledger.NoRowsNoBalance` | app.py:124-140 | a customer owning no rows has empty collections and balance 0 |
| `Ledger.AppendTransaction` | app.py:143-150 | a new transaction joins its owner's collection at the end and no one else's |
| `Ledger.AppendReceivable` | app.py:153-162 | a new receivable joins its owner's collection at the end and no one else's |
| `Ledger.RemoveTransaction` | app.py:2606 | deleting a transaction removes it from its owner's collection only |
| `Ledger.RemoveReceivable` | app.py:2687 | deleting a receivable removes it from its owner's collection only |
| `Ledger.ReplaceTransaction` | app.py:2584-2587 | editing a transaction in place replaces it in its owner's collection only |
| `Ledger.ReplaceReceivable` | app.py:2657-2659 | editing a receivable in place replaces it in its owner's collection only |
| `Ledger.AppendTransactionTotals` | app.py:132-136 | a new transaction adds its payment part and its refund part to its owner's sums |
| `Ledger.AppendedTransactionShiftsBalance` | app.py:132-136 | recording any transaction moves its owner's balance by refund − payment and leaves other customers' balances alone |
| `Ledger.PaymentLowersBalance` | app.py:134-135 | a payment lowers the payer's balance by its amount |
| `Ledger.OtherKindsContributeNothing` | app.py:133-137 | a transaction of any other type leaves every balance unchanged |
| `Ledger.RefundRaisesBalance` | app.py:136-137 | a refund raises the balance by its amount |
| `Ledger.ReceivableRaisesBalance` | app.py:129-130 | a receivable raises its owner's balance by amount + additional amount, and no other customer's balance |
| `Ledger.DeletedReceivableLeavesBalance` | app.py:2686-2690 | deleting a receivable lowers its owner's balance by exactly its amount + additional amount |
| `Ledger.DeletedTransactionLeavesBalance` | app.py:2605-2609 | deleting a transaction undoes exactly its effect on its owner's balance |
| `Ledger.EditedTransactionShiftsBalance` | app.py:2584-2590 | editing a transaction moves its owner's balance by the old net payment minus the new one |
| `Ledger.EditedReceivableShiftsBalance` | app.py:2657-2662 | editing a receivable moves its owner's balance by the new due minus the old due |
| `Ledger.StatusOf` | app.py:2642-2647 | the status rule on the two totals (no ensures: `StatusCases` states it) |
| `Ledger.CustomerStatus` | app.py:2621-2647 | the rule applied to the customer's ledger-wide dues and payments |
| `Ledger.StatusCases` | app.py:2642-2647 | 'paid' exactly when payments ≥ due; 'partial' exactly when 0 < payments < due; 'pending' otherwise |
| `Ledger.NothingDueIsPaid` | app.py:2627-2643 | when no payment amount is negative, a customer with no receivables has every invoice 'paid', even with no payments |
| `Ledger.NegativePaymentIsPending` | app.py:2627-2647 | the hypothesis is needed: with nothing due and one payment of −5.00, the status is 'pending' and the balance 5.00 |
| `Ledger.TotalPaidNonNegative` | app.py:2627-2631 | non-negative payments sum to a non-negative total |
| `Ledger.StatusAgreesWithBalance` | app.py:2627-2643 | without refunds, the status is 'paid' exactly when the customer's balance is at most 0 |
| `Ledger.RefundLeavesStatus` | app.py:2627-2631 | refunds change the balance but never the status, because the status totals ignore refunds |
| `Ledger.ExampleLedger` | app.py:124-140 | a worked ledger: 500.00 due gives balance 500.00 and status 'pending'; a 300.00 payment gives 200.00 and 'partial'; a further 200.00 payment gives 0 and 'paid' |
| `Decimal.DigitChar` | app.py:186 | each digit value has a digit character that reads back as that value |
| `Decimal.ShowIsDecimal` | app.py:186 | `str(n)` is a non-empty string of digits that starts with '0' only for 0 |
| `Decimal.ReadShow` | app.py:185-186 | `int(str(n)) == n` |
| `Decimal.ReadAppend` | app.py:185 | appending a digit multiplies the value by ten and adds the digit |
| `Decimal.ReadLeadingZeros` | app.py:185-186 | leading zeros do not change the value `int()` reads |
| `Decimal.ZFillShape` | app.py:186 | `zfill` never truncates: the result has length max(len, width), ends with the input and is zeros before it |
| `Decimal.ParseZFillShow` | app.py:185-186 | reading a zero-filled `str(n)` back with `int()` gives `n` |
| `Invoicing.NextOrderNumber` | app.py:176-190 | `generate_order_number`, failing when the latest number is not decimal (no ensures: the lemmas below state it) |
| `Invoicing.LatestOnIsHighestId` | app.py:180-182 | the latest invoice of a day is dated that day and has a higher id than every other invoice of that day; there is none exactly when no invoice has that date |
| `Invoicing.FirstOfTheDay` | app.py:188-190 | with no invoice dated today the number is "001" |
| `Invoicing.PaddedBelowTen` | app.py:186 | a one-digit number is written as "00" followed by the digit |
| `Invoicing.NextFollowsLatest` | app.py:184-187 | otherwise the number is the latest one read with `int()`, plus one, zero-filled to at least three characters and not truncated |
| `Invoicing.LatestHoldsLastNumber` | app.py:180-182 | the latest invoice of a day holds the last of that day's order numbers in id order |
| `Invoicing.DailyRunContinues` | app.py:176-190 | invoices created one after another on the same day are numbered "001", "002", … with no gap; the run is not bounded by the column length (see "## Left out") |
| `Invoicing.RunIsDistinct` | app.py:176-190 | the numbers of such a run are pairwise different |
| `Invoicing.RunAt` | app.py:186 | the i-th number of a run is `i + 1` zero-filled |
| `Invoicing.LatestByIdNotHighest` | app.py:182 | the counter follows the invoice with the highest id, not the highest number: after "005" then "002" it issues "003" |
| `Invoicing.BackdatedInvoiceRepeatsNumber` | app.py:179 | the counter uses today's date, not the submitted one: two invoices with the same date can share a number |
| `Invoicing.Reconcile` | app.py:2621-2647 | only the status changes; an invoice without a (known) customer is left as it is; otherwise its status is the rule applied to that customer's ledger-wide totals |
| `Inventory.Withdraw` | app.py:862-872 | selling lines keeps the set of products |
| `Inventory.Restock` | app.py:826-827 | restoring lines keeps the set of products |
| `Inventory.WithdrawEffect` | app.py:871 | a sale lowers each product's stock by exactly its total quantity on the lines, with no floor; all other fields stay |
| `Inventory.RestockEffect` | app.py:787 | a restore raises each product's stock by exactly its total quantity on the lines |
| `Inventory.QtyOfUnlisted` | app.py:862-872 | a product no line names keeps its stock |
| `Inventory.RestockUndoesWithdraw` | app.py:819-834 | creating an invoice and then deleting it with `restore_stock` gives back the original catalogue exactly |
| `Inventory.EditEffect` | app.py:785-805 | an edit changes each product's stock by exactly old quantity − new quantity and keeps the set of products |
| `Inventory.EditWithSameLines` | app.py:785-805 | saving an invoice with its own lines leaves every stock as it was |
| `Inventory.RestockConcat` | app.py:1569-1571 | restoring several invoices' lines in one pass is restoring them one after another |
| `Inventory.SellLines` | app.py:862-872 | the selling loop fails exactly when some line names a missing product (`Product.query.get` gives None), and otherwise computes the sale |
| `Inventory.RestoreLines` | app.py:786-787 | the restoring loop fails exactly when some line's product is missing, and otherwise computes the restore |
| `Integrity.IncreasingPairwise` | app.py:143-144 | keys handed out in order are pairwise increasing and below the counter |
| `Integrity.PairwiseIncreasing` | app.py:143-144 | the converse of `IncreasingPairwise` |
| `Integrity.Find` | app.py:2579 | `Query.get` finds a row position exactly when some row has the key, and the row found has it |
| `Integrity.FindIsUnique` | app.py:2579 | with increasing keys, the row found is the only one with that key |
| `Integrity.IncreasingAppend` | app.py:2503 | a row added with the next key keeps the keys in order |
| `Integrity.IncreasingRemove` | app.py:2606 | deleting a row keeps the keys in order |
| `Integrity.IncreasingSameKeys` | app.py:2584-2587 | editing rows without changing their keys keeps the order |
| `Integrity.LinksSameIds` | app.py:159 | invoice edits that keep the invoice ids keep every `receivable.invoice_id` resolving |
| `Integrity.LinksAppendInvoice` | app.py:159 | adding an invoice keeps every `receivable.invoice_id` resolving |
| `Integrity.CodesSameCodes` | app.py:84 | edits that keep the item codes keep them unique |
| `Integrity.WithdrawKeepsCodes` | app.py:84 | a sale keeps item codes unique |
| `Integrity.RestockKeepsCodes` | app.py:84 | a restore keeps item codes unique |
| `Integrity.BalancesAfterEdit` | app.py:124-141 | when only one customer's rows change, recomputing that customer's balance keeps every stored balance current |
| `Integrity.OthersAfterAppendTransaction` | app.py:2503 | a new transaction leaves every other customer's rows as they were |
| `Integrity.OthersAfterAppendReceivable` | app.py:2567 | a new receivable leaves every other customer's rows as they were |
| `Integrity.OthersAfterReplaceTransaction` | app.py:2584-2587 | an edited transaction leaves every other customer's rows as they were |
| `Integrity.OthersAfterReplaceReceivable` | app.py:2657-2659 | an edited receivable leaves every other customer's rows as they were |
| `Integrity.OthersAfterRemoveTransaction` | app.py:2606 | a deleted transaction leaves every other customer's rows as they were |
| `Integrity.OthersAfterRemoveReceivable` | app.py:2687 | a deleted receivable leaves every other customer's rows as they were |
| `Integrity.TransactionsNotOfFacts` | app.py:2465 | the bulk delete removes exactly the customer's transactions and leaves every other customer's transactions in order |
| `Integrity.ReceivablesNotOfFacts` | app.py:2466 | the bulk delete removes exactly the customer's receivables and leaves every other customer's receivables in order |
| `Integrity.TransactionsNotOfIncreasing` | app.py:2465 | the transactions left keep their keys in order |
| `Integrity.ReceivablesNotOfIncreasing` | app.py:2466 | the receivables left keep their keys in order |
| `Integrity.SameDuesSameTotals` | app.py:129-130 | tables with the same owners and the same dues row by row have the same sums |
| `Integrity.UnlinkKeepsLedger` | app.py:829 | clearing `invoice_id` on a deleted invoice's receivables changes no balance and no status |
| `Integrity.UnlinkResolves` | app.py:829 | after an invoice delete, every remaining `invoice_id` resolves |
| `Integrity.ReconcileOwnedByFacts` | app.py:2593-2594 | reconciling a customer's invoices changes only their statuses, gives each the customer's status, and leaves other invoices alone |
| `Integrity.ReconcileKeepsTables` | app.py:2593-2594 | reconciling keeps every invoice key and foreign key |
| `Accounts.HasPermission` | app.py:238-241 | `has_permission`: an admin holds every permission, anyone else those in their list (no ensures) |
| `Accounts.HasAnyPermission` | app.py:243-246 | `has_any_permission` (no ensures: `AnyIsOneOf` states it) |
| `Accounts.Updated` | app.py:1854-1872 | the user `update_user` writes (no ensures: `UpdatedAccess` and `UpdatedTotp` state it) |
| `Accounts.AnyIsOneOf` | app.py:238-246 | `has_any_permission` holds exactly when the user is an admin or holds one of the names; an empty list passes only an admin |
| `Accounts.InsertMissing` | app.py:292-295 | adding a permission with a fresh id and a new name keeps names unique and keeps every name present |
| `Accounts.InsertDefaults` | app.py:292-295 | the loop adds only missing names, keeps every existing row, leaves every default name present, and changes nothing when all are present |
| `Accounts.UpdatedAccess` | app.py:1861-1865 | after `update_user` the user holds a permission exactly when it is an admin or was sent an existing permission id with that name; an admin's list is cleared |
| `Accounts.UpdatedTotp` | app.py:1867-1872 | with 2FA off no secret is kept; with 2FA on and no secret sent the old one stays |
| `Accounts.UserDirectory.constructor` | app.py:211-230 | empty user and permission tables |
| `Accounts.UserDirectory.InitPermissions` | app.py:249-301 | `init_permissions` adds exactly the missing defaults and is idempotent |
| `Accounts.UserDirectory.AddMissing` | app.py:292-295 | the same loop, in place over the permission table |
| `Accounts.UserDirectory.AddUser` | app.py:1814-1842 | refused exactly when the username is taken; otherwise a new user whose permission list is empty for an admin and otherwise the requested existing ids |
| `Accounts.UserDirectory.UpdateUser` | app.py:1844-1878 | not found for a missing id; refused when a different user has the new name; otherwise only that user changes, as `Updated` says |
| `Accounts.UserDirectory.DeleteUser` | app.py:1880-1894 | refused for the session's own account; not found for a missing id; otherwise exactly that user goes |
| `Caching.Lookup` | app.py:57-64 | what `get` answers: the value of an entry expiring strictly after now (no ensures: the lemmas below state it) |
| `Caching.SetThenLookup` | app.py:57-70 | a value set with a timeout is answered strictly before, and not at, its expiry |
| `Caching.SetLeavesOthers` | app.py:66-70 | setting one key changes no other key's answer |
| `Caching.GetOnlyTidies` | app.py:57-64 | dropping an expired entry changes no answer from then on |
| `Caching.ExpiryIsFinal` | app.py:59-64 | an answer that has gone stays gone until the key is set again |
| `Caching.SimpleCache.constructor` | app.py:54-55 | an empty cache |
| `Caching.SimpleCache.Get` | app.py:57-64 | `get` answers the live value and removes only an expired entry for that key |
| `Caching.SimpleCache.Set` | app.py:66-70 | `set` stores the value with expiry now + timeout, 300 by default |
| `Caching.SimpleCache.Delete` | app.py:72-74 | `delete` removes the key, after which it is never answered |
| `Caching.CachedCall` | app.py:38-50 | `cache_for` returns a live cached value that is not `None` and changes nothing; on a miss, an expired entry or a cached `None` it returns the computed value and stores it for the given time, measured from the clock reading taken after the call returns |
| `PrintTemplates.ClearThenStore` | app.py:1134-1136 | clearing the type's other defaults and then storing a default keeps at most one default per type and touches only the default flags |
| `PrintTemplates.StoreNonDefault` | app.py:1157-1160 | storing a template without the flag keeps at most one default per type |
| `PrintTemplates.TitleOfLowerWord` | app.py:1202 | `title()` of a lower-case word capitalises its first letter only |
| `PrintTemplates.LowerRunKept` | app.py:1202 | lower-case letters after a letter stay lower-case under `title()` |
| `PrintTemplates.TemplateRegistry.constructor` | app.py:201-208 | an empty template table |
| `PrintTemplates.TemplateRegistry.New` | app.py:1121-1146 | a new template under a fresh id; a new default first takes the flag off the other defaults of its type |
| `PrintTemplates.TemplateRegistry.Edit` | app.py:1151-1176 | not found for a missing id; otherwise name, content and flag replaced, the type kept, and the other defaults of the type cleared when the flag is set |
| `PrintTemplates.TemplateRegistry.Delete` | app.py:1178-1187 | not found for a missing id; the default template cannot be deleted; otherwise exactly that template goes |
| `PrintTemplates.TemplateRegistry.GetDefault` | app.py:1190-1210 | returns the one default of the type, creating "Default <Type> Template" when there is none |
| `PrintTemplates.DefaultNames` | app.py:1202 | the generated names are "Default Invoice Template" and "Default Summary Template" |
| `Text.TitleFrom` | app.py:1202 | `title()` keeps the length |
| `Text.LowerString` | app.py:527 | `lower()` keeps the length and lower-cases each character |
| `Text.LowerConcat` | app.py:527 | `lower()` distributes over concatenation |
| `Text.LowerIdempotent` | app.py:527 | lower-casing twice is lower-casing once |
| `Text.LeadingSpaces` | excel_to_sql.py:9 | the leading-whitespace count covers exactly the whitespace prefix |
| `Text.ContentEnd` | excel_to_sql.py:9 | the content end leaves exactly the whitespace suffix |
| `Text.StripShape` | excel_to_sql.py:9 | `strip()` keeps a contiguous piece of the input, removes only whitespace, and leaves none at either end |
| `Text.StripIdempotent` | excel_to_sql.py:9 | stripping twice is stripping once |
| `Catalog.Apply` | app.py:683-711 | the fields written for a request (no ensures: `ApplyChangesExactlySent` states it) |
| `Catalog.Gate` | app.py:652-711 | the field checks, then the writes (no ensures: `GateRefuses` and `GateAllOrNothing` state it) |
| `Catalog.FirstDenied` | app.py:652-680 | none exactly when every field sent may be edited; otherwise the first field in the route's order that is sent and not allowed |
| `Catalog.EveryFieldIsChecked` | app.py:652-680 | every editable field is in the checked order |
| `Catalog.GateRefuses` | app.py:652-680 | refused exactly when some field sent lacks its `edit_product_*` permission, with that field's message |
| `Catalog.ApplyChangesExactlySent` | app.py:683-711 | every field sent gets the sent value and every field not sent keeps its value |
| `Catalog.GateAllOrNothing` | app.py:652-711 | either nothing changes, or exactly the fields sent change |
| `Catalog.AdminPassesGate` | app.py:238-240 | an admin passes every field check |
| `Catalog.NoGrantsNoEdits` | app.py:652-680 | a non-admin with no permissions gets through only with an empty request, which changes nothing |
| `Catalog.SplitGivesTerms` | app.py:528 | `split()` gives non-empty words without whitespace |
| `Catalog.Like` | app.py:541-553 | PostgreSQL `LIKE` with its default escape: `%` any run, `_` any character, a backslash makes the next character literal (no ensures: the lemmas below state its meaning) |
| `Catalog.EscapedTermMatches` | app.py:541 | a backslash in a term escapes the next character: the pattern `%a\b%` matches "ab" and not the text `a\b` |
| `Catalog.LikePrefix` | app.py:541 | for a term without `%`, `_` or backslash, `LIKE 't%'` matches exactly the strings that start with `t` |
| `Catalog.LikeAnything` | app.py:541 | `%` alone matches every string |
| `Catalog.LikeLeadingPercent` | app.py:541-553 | a leading `%` matches the rest of the pattern against any suffix |
| `Catalog.ContainsLike` | app.py:541-553 | `LIKE '%t%'` with a term free of `%`, `_` and backslash is substring search |
| `Catalog.Search` | app.py:524-562 | the set the route returns: no product for a query without terms, otherwise those matching every term in some column (no ensures: `SearchMeaning` states its meaning) |
| `Catalog.SearchMeaning` | app.py:527-559 | for terms free of `%`, `_` and backslash, a product is found exactly when each lower-cased query term is a case-insensitive substring of one of its seven text columns |
| `Catalog.TermIsLower` | app.py:527-528 | every search term is already lower-case |
| `Catalog.SplitIsLower` | app.py:527-528 | splitting lower-case text gives lower-case terms |
| `Catalog.BlankQueryFindsNothing` | app.py:530-531 | an empty or all-space query finds nothing |
| `Catalog.Aging` | app.py:2023-2040 | the four bracket counts over the products (no ensures: `AgingCountsEveryProduct` and `CountAging` state it) |
| `Catalog.Bucket` | app.py:2033-2040 | each day count falls in exactly one bracket: ≤30, 31-60, 61-90, >90 |
| `Catalog.LastSale` | app.py:2024-2026 | none exactly when no invoice has a line for the product; otherwise the latest such invoice's date |
| `Catalog.NeverSoldIs61To90` | app.py:2028-2031 | a product that never sold is counted in 61-90 days, never in 90+ |
| `Catalog.AgingCountsEveryProduct` | app.py:2023-2040 | the four counts add up to the number of products |
| `Catalog.CountAging` | app.py:2023-2040 | the counting loop gives the brackets of every product |
| `SqlExport.CleanString` | excel_to_sql.py:5-9 | `clean_string` (no ensures: `ReadCleanString` states its round trip) |
| `SqlExport.Tuple` | excel_to_sql.py:23-35 | one row's value tuple, in the header's column order (no ensures: `MissingCells` states its cells) |
| `SqlExport.Command` | excel_to_sql.py:17-39 | the whole command (no ensures: `InsertCommand`, `CommandAppend` and `EmptySheet` state it) |
| `SqlExport.UnescapeEscape` | excel_to_sql.py:9 | collapsing each `''` to `'` undoes the quote doubling |
| `SqlExport.EscapePairsQuotes` | excel_to_sql.py:9 | after doubling, every quote of the body stands in a pair, so the literal cannot end early |
| `SqlExport.ReadCleanString` | excel_to_sql.py:5-9 | a missing cell reads back as NULL; a present cell reads back as its stripped text |
| `SqlExport.Truncate` | excel_to_sql.py:28-29 | `int(x)` on a float truncates toward zero |
| `SqlExport.ReadIntCell` | excel_to_sql.py:28-29 | an integer cell reads back as the truncated value, and a missing one as 0 |
| `SqlExport.Tuples` | excel_to_sql.py:21-36 | one tuple per row, in sheet order |
| `SqlExport.MissingCells` | excel_to_sql.py:23-32 | missing Price, Stock and Restock Level cells are `0`; the other cells are NULL or a quoted literal |
| `SqlExport.JoinAppend` | excel_to_sql.py:39 | joining one more piece adds the separator and the piece |
| `SqlExport.CommandAppend` | excel_to_sql.py:35-39 | a further row adds `",\n"` and its tuple to the command body |
| `SqlExport.EmptySheet` | excel_to_sql.py:17-39 | an empty sheet gives the header directly followed by `;` |
| `SqlExport.InsertCommand` | excel_to_sql.py:17-39 | the loop builds the header, the tuples joined by `",\n"`, and `;` |
| `Database.NewCustomerKeeps` | app.py:2412-2421 | a new customer with the next id and balance 0 keeps every table constraint |
| `Database.ForgetCustomerOwned` | app.py:2461-2469 | removing a customer that owns no invoice, with all its rows, keeps every foreign key resolving |
| `Database.ForgetCustomerBalances` | app.py:2465-2469 | removing a customer, with all its rows, keeps every other stored balance current |
| `Database.RebalanceKeepsOwners` | app.py:139-140 | writing one customer's balance changes no customer id, so ownership still resolves |
| `Database.AppendTransactionKeeps` | app.py:2502-2505 | adding a transaction and recomputing its owner's balance keeps every constraint; the new balance is the old one + refund − payment |
| `Database.ReplaceTransactionKeeps` | app.py:2583-2596 | editing a transaction, recomputing and reconciling keeps every constraint; the balance moves by the old net payment minus the new one |
| `Database.RemoveTransactionKeeps` | app.py:2603-2615 | deleting a transaction, recomputing and reconciling keeps every constraint; the balance moves back by that transaction's net payment |
| `Database.AppendReceivableKeeps` | app.py:2561-2569 | adding a receivable and recomputing keeps every constraint; the balance rises by its due |
| `Database.ReplaceReceivableKeeps` | app.py:2656-2668 | editing a receivable and recomputing keeps every constraint; the balance moves by new due − old due |
| `Database.RemoveReceivableKeeps` | app.py:2686-2692 | deleting a receivable and recomputing keeps every constraint; the balance falls by its due |
| `Database.ReplaceInvoiceKeeps` | app.py:2525-2526 | rewriting an invoice under the same id, whose customer exists, keeps every constraint |
| `Database.AppendInvoiceKeeps` | app.py:859-878 | adding an invoice with the next id keeps every constraint |
| `Database.RemoveInvoiceKeeps` | app.py:829-830 | deleting an invoice and unlinking its receivables keeps every constraint |
| `Database.ClearInvoicesKeeps` | app.py:459-461 | deleting all invoices while none is referenced keeps every constraint |
| `Database.ShiftKeepsCodes` | app.py:1749 | a stock change keeps item codes unique |
| `Database.EditKeepsCodes` | app.py:684 | a product edit whose code no other product has keeps item codes unique |
| `Database.RecomputeIsIdentity` | app.py:874-876 | recomputing a balance that is current changes nothing |
| `Database.AllItemsPrefix` | app.py:1569-1571 | if every line of all the invoices names a listed product, then so does every line of each prefix of the invoices |
| `Database.AllItemsHasMember` | app.py:1569-1571 | all lines being listed implies each invoice's lines are |
| `Database.RestoreAll` | app.py:1566-1571 | the nested restoring loop fails exactly when some line's product is missing, and otherwise restocks every line of every invoice |
| `Database.ReconcileAll` | app.py:2593-2594 | the loop over the customer's invoices computes `ReconcileOwnedBy` |
| `Database.Store.constructor` | app.py:360-362 | freshly created tables: an empty ledger over a given catalogue, with every constraint holding |
| `Database.Store.RecordTransaction` | app.py:2502-2505 | appends the transaction and moves its owner's balance by refund − payment |
| `Database.Store.ReviseTransaction` | app.py:2583-2596 | replaces the transaction, moves the balance by the net difference and reconciles the owner's invoices |
| `Database.Store.DropTransaction` | app.py:2603-2615 | removes the transaction, undoes its effect on the balance and reconciles the owner's invoices |
| `Database.Store.RecordReceivable` | app.py:2567-2569 | appends the receivable and raises its owner's balance by its due |
| `Database.Store.ReviseReceivable` | app.py:2657-2662 | replaces the receivable and moves the balance by new due − old due |
| `Database.Store.ReconcileLinked` | app.py:2665-2666 | the linked invoice, and only it, gets its customer's status |
| `Database.Store.DetachInvoice` | app.py:2681-2684 | the linked invoice loses its customer and name and goes back to 'pending'; nothing else changes |
| `Database.Store.DropReceivable` | app.py:2686-2690 | removes the receivable and lowers its owner's balance by its due |
| `Database.Store.ReviseInvoice` | app.py:2525-2526 | replaces one invoice and sets new stock figures |
| `Database.Store.RecordInvoice` | app.py:859-872 | appends the invoice with the next id and sets new stock figures |
| `Database.Store.DropInvoice` | app.py:829-830 | removes the invoice and clears the references to it |
| `Database.Store.ClearInvoices` | app.py:459-461 | removes every invoice while none is referenced |
| `Database.Store.Restocked` | app.py:1749 | sets new stock figures that keep item codes unique |
| `Database.Store.UpdateBalance` | app.py:124-141 | `update_balance` on a customer with a current balance keeps the tables unchanged |
| `Database.Store.AddCustomer` | app.py:2403-2425 | refused exactly for a missing or empty name; otherwise a new customer with balance 0 under the next id, and nothing else changes |
| `Database.Store.UpdateCustomer` | app.py:2434-2456 | not found for a missing id; refused for a missing or empty name; otherwise only the contact fields of that customer change, and the balance is kept |
| `Database.Store.DeleteCustomer` | app.py:2458-2474 | not found for a missing id; refused while the customer owns an invoice; otherwise the customer, and exactly its transactions and receivables, go and every other customer's rows stay |
| `Database.Store.AddPayment` | app.py:2476-2509 | refused when the customer, amount or method key is missing; a `null` method is accepted and stored as NULL; not found for an unknown customer; otherwise one 'payment' row is added and only the payer's balance falls, by the amount; invoice statuses stay |
| `Database.Store.AddReceivable` | app.py:2548-2574 | a missing amount fails `float()`; zero or empty notes are refused; not found for an unknown customer; otherwise one receivable, and the balance rises by the amount |
| `Database.Store.LinkInvoice` | app.py:2511-2546 | not found for a missing invoice or customer; otherwise the invoice is given to the customer, a receivable of total + additional is recorded against it, and the balance rises by that; the status is not recomputed |
| `Database.Store.EditTransaction` | app.py:2576-2600 | not found for a missing id; a missing amount or method key fails, and a `null` method is stored as NULL; otherwise the row is edited with its type kept, the balance moves by the net difference, and each of the owner's invoices is reconciled |
| `Database.Store.DeleteTransaction` | app.py:2602-2619 | not found for a missing id; otherwise the row goes, its effect on the balance is undone, and the owner's invoices are reconciled |
| `Database.Store.EditReceivable` | app.py:2649-2672 | not found for a missing id; a missing amount or notes fails; otherwise the row is edited, the balance moves by new due − old due, and a linked invoice is reconciled |
| `Database.Store.DeleteReceivable` | app.py:2674-2696 | not found for a missing id; otherwise a linked invoice loses its customer and goes back to 'pending', the row goes, and the balance falls by its due |
| `Database.Store.CreateInvoice` | app.py:846-887 | fails on an unreadable previous order number, a missing product or an unknown customer; otherwise appends a 'pending' invoice with today's next order number and takes each line's quantity off stock, and the ledger does not change |
| `Database.Store.EditInvoice` | app.py:778-817 | not found for a missing invoice or a line naming a missing product; otherwise date, name, totals and lines are replaced, and each stock changes by old − new quantity |
| `Database.Store.DeleteInvoice` | app.py:819-834 | not found for a missing invoice; with `restore_stock` the lines go back to stock, and without it stock is untouched; the invoice goes and receivables lose the reference |
| `Database.Store.DeleteAllInvoices` | app.py:1560-1579 | with `restore_stock` every line of every invoice goes back to stock; all invoices go, which is refused while a receivable refers to one |
| `Database.Store.AdjustStock` | app.py:1739-1761 | not found for a missing product; otherwise the stock grows by `change` (0 when absent), with no floor, and the new stock is returned |
| `Database.Store.UpdateProduct` | app.py:643-717 | not found for a missing product; refused as a whole by the field gate or by a duplicate item code; otherwise exactly the sent fields change |

## Left out

- Flask routing, sessions, redirects, flash messages and template rendering
  are left out. Each route is a method on `Store`. Where a route's body
  reads the session user (`update_product`, `delete_user`), that user is a
  parameter.
- The route decorators are not modelled: each modelled route assumes its
  decorator let the request through. These decorators refuse a user without
  the permission and change nothing:
  - `@permission_required('manage_stock')` on `update_product_stock`
    (`Database.Store.AdjustStock`);
  - `@permission_required('manage_settings')` on `add_user`,
    `update_user` and `delete_user` (`Accounts.UserDirectory.AddUser`,
    `UpdateUser`, `DeleteUser`);
  - `@admin_required` on `new_print_template`, `print_template` and
    `delete_print_template` (`PrintTemplates.TemplateRegistry.New`, `Edit`,
    `Delete`);
  - `@login_required` on the other modelled routes, except four that have
    no decorator at all: `invoice`, `new_invoice`, `delete_all_invoices`
    and `inventory_aging`. Their only gate is the app-wide
    `@app.before_request` hook `require_login`, which redirects a request
    without a session.
  The predicates these decorators test are modelled
  (`Accounts.HasPermission`, `Accounts.AnyIsOneOf`).
- SQLAlchemy sessions, commit and rollback are modelled as atomic success,
  or failure with nothing changed. This includes the commit inside
  `update_balance`.
- Every `db.session.commit()` inside the `try` blocks is assumed to succeed,
  except for the two constraint violations that are modelled:
  - the unique item code in `update_product`;
  - the `receivable.invoice_id` foreign key in the bulk invoice delete.
- DailyRunContinues: puts no bound on the length of the run, and
  `Database.Store.CreateInvoice` issues "1000" for the 1000th invoice of a
  day. The `order_number` column is `String(3)` (app.py:167), and on
  PostgreSQL a four-character value is refused when `new_invoice` flushes
  its session, so there the 1000th invoice of a day fails and nothing is
  stored. This column-length check is not modelled.
- The bulk invoice delete (`Query.delete`) bypasses the ORM. It is modelled
  as the database's foreign-key check refusing it while a receivable
  refers to an invoice.
- Exception texts are stand-in constants (`BadOrderNumber`,
  `InvoiceStillReferenced`, `DuplicateItemCode`), not the driver's exact
  messages.
- Floats and `round` are not modelled. Money, prices, quantities and
  `change` are integers.
- `Database.Store.CreateInvoice`: the request always carries `date`,
  `customer_name`, `total_amount`, `total_items` and `items`, so a request
  without one of them cannot be expressed. In the source a missing `date`,
  `customer_name`, `total_amount` or `total_items` raises a KeyError
  outside the `try` block of `new_invoice` (app.py:852-856). That is an
  HTTP 500 with nothing stored. A missing `items` raises inside the `try`
  (app.py:861) and is rolled back. Either way nothing changes.
- `Database.Store.UpdateProduct`: the patch fields `item_code`,
  `description`, `uom`, `price`, `stock` and `restock_level` are either
  absent or hold a value, so a JSON `null` for one of them cannot be sent.
  In the source such a request fails: `float(None)` or `int(None)`
  (app.py:696-702) is caught and rolled back, and a `null` in a NOT NULL
  column (app.py:84-88) is refused at commit. Either way nothing changes.
- Parse failures of `float()` and `int()` on request fields are not
  modelled, because those fields are typed as integers. This covers:
  - 'Invalid amount or customer ID' in `add_customer_payment`;
  - `float(additional_amount)`;
  - `int(data['stock'])`.
- A missing `amount` in `add_customer_receivable` is modelled as
  `float(None)` failing.
- `int()` on an order number accepts only a string of decimal digits.
  Python's `int()` also accepts signs, surrounding whitespace and
  underscores.
- The order-number race between concurrent requests is not modelled.
  `date.today()` is a parameter.
- In `invoice` PUT, the assignments and the stock loops run outside the
  `try` block. An exception there is an HTTP 500 whose session is discarded;
  the model reports it as `Fail(NotFound)` with nothing changed.
- The GET branches, the printing routes, the listing routes and the
  analytics endpoints other than `inventory_aging` are not modelled.
- `products` POST and the product DELETE route are not part of this model.
  The catalogue is the constructor's argument, and only stock changes and
  `update_product` change it.
- `Database.Store.CreateInvoice`: the customer's `update_balance()` call is
  modelled, but an invoice adds no ledger row. It is therefore the identity
  (`Database.RecomputeIsIdentity`), and the contract states the customers
  unchanged.
- `Database.Store.CreateInvoice`: the source's `if invoice.customer_id:`
  skips id 0. Customer ids are handed out from 1, so no customer has id 0.
- `Database.Store.EditInvoice`: as in the source, an edit does not touch the
  receivable that a linked invoice created, and does not recompute the
  balance or the status.
- `Database.Store.AddPayment` and `Database.Store.LinkInvoice`: as in the
  source, neither reconciles invoice statuses.
- The model uses the receivable's stored invoice id, as the source does. It
  does not model that the `receivable` backref is a list.
- TOTP verification and generation are not modelled, because they are
  pyotp calls.
- Passwords are not modelled: `Accounts.User` has no password field. Two
  source behaviours therefore have no counterpart: `add_user` reads
  `data['password']` before its `try` block (app.py:1823), so a request
  without a password creates no user; and `update_user` replaces the
  password only when a non-empty one is sent (app.py:1857-1858).
- Excel, PDF and pandas import and export are not modelled. Neither are
  backup and restore, wallpaper upload and the settings pages.
- The file write at the end of `excel_to_sql_insert` is not modelled.
- The spreadsheet read is a sequence of rows whose cells are already typed.
- The Price cell's `str(float)` text is taken as given.
- `lower`, `title`, `strip` and `ILIKE` are modelled on ASCII. Unicode
  case mapping and Unicode whitespace are not modelled.
- SearchMeaning: states the substring reading only for terms without `%`,
  `_` or a backslash. In the source `%` and `_` act as wildcards and a
  backslash escapes the next character. `Catalog.Like` models all three,
  and the lemmas `LikeLeadingPercent` and `EscapedTermMatches` state them.
- LikePrefix and ContainsLike: same restriction on the term, for the same
  reason.
- The ordering of the search results (`order_by(Product.item_code)`) is
  not modelled; `Catalog.Search` is a set.
- NothingDueIsPaid: holds only when no payment amount is negative. The
  payment route accepts any `float(amount)`, and with a negative payment a
  customer with nothing due is 'pending' (`Ledger.NegativePaymentIsPending`).
- `SimpleCache` takes the time as an integer parameter, `now`, instead of
  reading `datetime.utcnow()`.
- `cache_for` builds its key from the function name and arguments; here
  the key is a parameter.
- `get_default_template` reads its content from a file; here the content
  is a parameter.
