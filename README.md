# A verified model of a small-business bookkeeping back end

This project is a Dafny model of the business core of a bookkeeping web application. The model covers:

- the tRPC routers for invoices, expenses, the chart of accounts, financial reports, customers and the company profile and settings;
- the role hierarchy and permission table;
- the validation constants, regular expressions and select-option tables;
- the text formatters used by the UI;
- two date and duration helpers;
- a small Python research scraper that visits a fixed list of marketing pages.

The database is the class `Database.Db`. It holds one map per table, from row id to record. Each router procedure is a module-level method that `modifies` only the tables it writes. Its contract states:

- the error it reports (`NotFound`, `Forbidden`, `Conflict` or `BadRequest`), in the order the router checks;
- the new contents of the tables it changes;
- the invariants it keeps: account codes and customer emails unique per company, and invoice ledgers consistent (`amountPaid + amountDue == total`).

Queries that return ordered rows (list pages, report windows, hierarchy rows) are pure functions over the query result, given as a sequence in the database's order.

The caller is `(userId, companyId, role)`. Fresh database ids, the clock (`now`), the current year and the calendar used for report periods are parameters. Money is exact (`real`).

The scraper's browser is the class `Scraper.Browser`. It records a trace of events (open page, navigate, sleep, screenshot, close page, close browser) and counts open pages. Page loading is a parameter. It covers a page that loads and the three failures caught inside `scrape_page`: navigation, reading the page and the screenshot. A failure to open the page is not modelled (see "## Left out").

Modules, one per source file:

| module | source |
|---|---|
| `Common`, `Text`, `Patterns`, `Enums`, `Database` | shared helpers: Option/Result, pagination, keyed sums, decimal text, JavaScript `parseInt`, fixed-shape regular expressions, enums, tables |
| `InvoiceValidation` | lib/validations/invoice.ts |
| `Invoices` | server/routers/invoices.ts |
| `Expenses` | server/routers/expenses.ts |
| `Accounts` | server/routers/accounts.ts |
| `Reports` | server/routers/reports.ts |
| `Customers` | server/routers/customers.ts |
| `CompanyRouter` | server/routers/company.ts |
| `Rbac` | lib/rbac.ts |
| `ValidationRules` | lib/constants/validation.ts |
| `Options` | lib/constants/options.ts |
| `Formatters` | hooks/use-formatters.ts |
| `Durations` | src/lib/utils.ts |
| `DateUtils` | lib/utils.ts |
| `Scraper` | research/scraper.py |

Where the model's behaviour is worth knowing:

- **Admin rights differ between the permission table and the routers.** The table denies an admin `accounts.delete` and `settings.update` (lib/rbac.ts:93, 96). The routers let owners and admins do both (server/routers/accounts.ts:419-424, server/routers/company.ts:168-175). The model follows the routers for the procedures and the table for `hasPermission`.
- **An account update can leave a parent of another type.** `accounts.update` checks a new parent against the account's new or existing type. It does not re-check an existing parent when only the type changes. `Accounts.TypeChangeKeepsMismatchedParent` exhibits such an update. The model keeps the code's behaviour, so `Accounts.Update` preserves unique codes but not matching parent types.

## Model

| member | source | states |
|---|---|---|
| `Common.OrNull` | server/routers/customers.ts:206-210 | an absent or empty optional string becomes null; any other value is kept |
| `Common.Page` | server/routers/expenses.ts:102-105 | `skip`/`take` returns at most `limit` rows, the ones starting at `offset` of the full result |
| `Common.PageHasMore` | server/routers/expenses.ts:122 | `offset + returned < total` holds exactly when rows exist beyond the page |
| `Common.Filter` | server/routers/reports.ts:123-128 | `filter` (and a `findMany` with a `where` clause) keeps exactly the rows that pass, each as often as in the input |
| `Common.FilterAppend` | server/routers/reports.ts:123-128 | filtering keeps order: the filter of a concatenation is the concatenation of the filters |
| `Common.FilterAllPass` | server/routers/reports.ts:123-128 | when every row passes, the filter returns the rows unchanged |
| `Common.PartitionSum` | server/routers/reports.ts:502-505 | grouping entries by distinct keys keeps the grand total |
| `InvoiceValidation.ParseLine` | lib/validations/invoice.ts:6-12 | a line is accepted iff it has a description, quantity ≥ 0.01, unit price ≥ 0 and tax rate in [0, 1]; the accepted line carries the input's description, quantity and unit price, and its tax rate or 0 |
| `InvoiceValidation.ParseLines` | lib/validations/invoice.ts:29 | the lines are accepted iff every line is; then the i-th parsed line is the parse of the i-th input |
| `InvoiceValidation.ParseForm` | lib/validations/invoice.ts:19-37 | a form is accepted iff it has a customer name, both dates and at least one line and every line parses; the parsed lines are those of `ParseLines`, the name, email, dates, notes and terms pass through, and the currency defaults to USD |
| `InvoiceValidation.ParseLinesRoundTrip` | lib/validations/invoice.ts:6-12 | the inputs of valid lines parse back to those lines |
| `InvoiceValidation.ParseFormRoundTrip` | lib/validations/invoice.ts:19-37 | data with the required fields and at least one valid line, submitted as a form, parses back to itself |
| `InvoiceValidation.CalculateLineAmount` | lib/validations/invoice.ts:44-48 | the amount is q×p×(1 + rate); for a valid line it lies between q×p and 2×q×p |
| `InvoiceValidation.LineBounds` | lib/validations/invoice.ts:8-10 | for a valid line, 0 ≤ tax ≤ net amount |
| `InvoiceValidation.CalculateInvoiceTotals` | lib/validations/invoice.ts:53-63 | before rounding, total = subtotal + taxTotal, and for valid lines 0 ≤ taxTotal ≤ subtotal |
| `InvoiceValidation.TaxWithinSubtotal` | lib/validations/invoice.ts:54-61 | for valid lines, the tax total is between 0 and the subtotal |
| `InvoiceValidation.LineAmountsAddUpToTotal` | lib/validations/invoice.ts:44-63 | the per-line amounts add up to the invoice total |
| `InvoiceValidation.GenerateInvoiceNumber` | lib/validations/invoice.ts:76-87 | every number starts with `INV-<year>-`; with no last number, or one from another year, it is `INV-<year>-001` |
| `InvoiceValidation.SplitAfterPrefix` | lib/validations/invoice.ts:84 | splitting at `-` after the prefix gives "INV", the year, then the fields of the rest |
| `InvoiceValidation.ThirdFieldOfSplit` | lib/validations/invoice.ts:84 | `split("-")[2] \|\| "0"` is the third field when it is non-empty |
| `InvoiceValidation.ThirdFieldAfterPrefix` | lib/validations/invoice.ts:84 | the third field of a prefixed number is its counter, up to the next dash |
| `InvoiceValidation.ContinuesFromCounter` | lib/validations/invoice.ts:80-87 | a number with this year's prefix is continued from its third field |
| `InvoiceValidation.PaddedCounterReadsBack` | lib/validations/invoice.ts:85-87 | a counter zero-padded to three digits parses back to itself |
| `InvoiceValidation.NextNumberIncrements` | lib/validations/invoice.ts:84-87 | after a number with this year's prefix whose third field is the numeral n comes the prefix with n + 1 zero-padded to three digits, and its third field parses back to n + 1 |
| `InvoiceValidation.NumbersAdvanceOneAtATime` | lib/validations/invoice.ts:84-87 | after the zero-padded number with counter n the generator yields the zero-padded number with counter n + 1, so generated numbers count up one at a time |
| `InvoiceValidation.CounterOfNumber` | lib/validations/invoice.ts:80-84 | `INV-<year>-n`, alone or followed by further `-` fields, has this year's prefix and third field n |
| `InvoiceValidation.NonNumericCounter` | lib/validations/invoice.ts:84-85 | a counter that is not a number produces `INV-<year>-NaN` |
| `Invoices.ParseCreateInput` | server/routers/invoices.ts:8-18 | the input is accepted iff it has a customer name, valid lines and a status of draft or sent; then it returns the parsed lines and the given status, draft when none is given; otherwise BadRequest |
| `Invoices.NewCustomer` | server/routers/invoices.ts:90-101 | the created contact is a customer of the company with the given name; it has an email exactly when a non-empty one was given |
| `Invoices.FindOrCreateContact` | server/routers/invoices.ts:71-101 | the name-and-email lookup is tried first, then the email-only lookup; a new customer is created only when both find nothing |
| `Invoices.LineRecords` | server/routers/invoices.ts:134-143 | stored lines are numbered from 1 in input order, with tax q×p×rate and amount q×p×(1 + rate) |
| `Invoices.StoredLinesAddUp` | server/routers/invoices.ts:104-143 | the stored line amounts add up to subtotal + taxTotal |
| `Invoices.NewInvoice` | server/routers/invoices.ts:104-133 | a new invoice has amountPaid 0 and amountDue = total = subtotal + taxTotal; sentAt is set iff the status is sent |
| `Invoices.Create` | server/routers/invoices.ts:50-160 | bad input gives BadRequest and changes nothing; otherwise the contact is resolved and the invoice stored; ledgers stay consistent |
| `Invoices.WithStatus` | server/routers/invoices.ts:314-325 | sentAt is stamped only on the first move to sent; the first move to paid also settles the balance; any other change touches only the status |
| `Invoices.SentStampedOnce` | server/routers/invoices.ts:319-320 | moving back to sent later keeps the first sentAt stamp |
| `Invoices.UpdateStatus` | server/routers/invoices.ts:282-337 | NotFound outside the caller's company; otherwise the invoice becomes `WithStatus`; ledgers stay consistent |
| `Invoices.Delete` | server/routers/invoices.ts:342-387 | NotFound outside the company, BadRequest unless the invoice is a draft; it succeeds exactly when the invoice is removed |
| `Invoices.StatusAfterPayment` | server/routers/invoices.ts:485-491 | paid when nothing is due, partial when both amounts are positive, otherwise unchanged |
| `Invoices.ApplyPayment` | server/routers/invoices.ts:481-525 | amountPaid grows by the amount and amountDue = total − amountPaid; the status follows `StatusAfterPayment`; paidAt is stamped when the invoice becomes paid; nothing else changes |
| `Invoices.PaymentKeepsLedger` | server/routers/invoices.ts:473-491 | an accepted payment keeps paid + due = total with due ≥ 0, and leaves the invoice paid or partial |
| `Invoices.PayingInFullSettles` | server/routers/invoices.ts:482-491 | paying exactly what is due leaves nothing due, marks the invoice paid and stamps paidAt |
| `Invoices.PaymentsAccumulate` | server/routers/invoices.ts:481-483 | two payments leave the same balance as one payment of their sum |
| `Invoices.RecordPayment` | server/routers/invoices.ts:439-537 | BadRequest for a non-positive amount or one above amountDue; NotFound outside the company; it succeeds exactly when the amount is positive, the invoice is the company's and the amount is at most amountDue, and then a payment, its allocation and the invoice update are stored together |
| `Invoices.GetStats` | server/routers/invoices.ts:392-434 | total counts every invoice of the company, paid those paid, pending those sent, viewed or partial, overdue those overdue; paid + pending + overdue ≤ total, the difference being the drafts and voids |
| `Invoices.EveryStatusCounted` | server/routers/invoices.ts:411-413 | counting over all seven statuses counts every invoice of the company |
| `Invoices.CountDisjoint` | server/routers/invoices.ts:410-426 | counts over disjoint status groups add up |
| `Invoices.StatusPartition` | server/routers/invoices.ts:410-426 | every invoice of the company is counted in exactly one group |
| `Expenses.NewExpense` | server/routers/expenses.ts:197-213 | a new expense has a positive amount, tax defaulting to 0, status draft and no approval or rejection |
| `Expenses.Create` | server/routers/expenses.ts:176-226 | invalid input gives BadRequest and changes nothing; otherwise the expense is stored (input schema at lines 7-19) |
| `Expenses.ApplyUpdate` | server/routers/expenses.ts:274-288 | an update never changes the status or the approval and rejection fields; each supplied field (date, amount, description, merchant, category, payment method, contact, tax amount, tax flag, receipt, notes) overwrites the stored one, absent ones stay |
| `Expenses.EmptyUpdateChangesNothing` | server/routers/expenses.ts:274-288 | an update with no fields leaves the expense as it was |
| `Expenses.Update` | server/routers/expenses.ts:231-302 | BadRequest, NotFound, then Forbidden exactly when the stored status is approved or paid; otherwise the expense becomes `ApplyUpdate` |
| `Expenses.Delete` | server/routers/expenses.ts:306-355 | NotFound, then Forbidden exactly when approved or paid; otherwise the row is removed |
| `Expenses.Approve` | server/routers/expenses.ts:401-408 | the expense becomes approved by the caller, whatever its prior status; nothing else changes |
| `Expenses.Reject` | server/routers/expenses.ts:468-476 | the expense becomes rejected by the caller with the reason; nothing else changes |
| `Expenses.RejectionUnlocks` | server/routers/expenses.ts:400-476 | an approved expense is locked against edits; rejecting it unlocks it |
| `Expenses.ApproveExpense` | server/routers/expenses.ts:359-422 | Forbidden unless owner or admin, then NotFound, otherwise `Approve` |
| `Expenses.RejectExpense` | server/routers/expenses.ts:426-489 | BadRequest for an empty reason, Forbidden unless owner or admin, then NotFound, otherwise `Reject` (reason schema at lines 56-59) |
| `Expenses.Filtered` | server/routers/expenses.ts:85-97 | exactly the rows that match the company, status, category and search filters, each as often as in the input (order through `Common.FilterAppend`) |
| `Expenses.List` | server/routers/expenses.ts:65-125 | limit and offset are checked; total counts the filtered rows; the page is exactly the `offset`/`limit` slice of the filtered rows; hasMore holds exactly when rows remain past the page (input schema at lines 36-42) |
| `Expenses.AllMeansNoStatusFilter` | server/routers/expenses.ts:88 | "all" with no category or search counts every expense of the company |
| `Expenses.FilterKeepsAll` | server/routers/expenses.ts:85-97 | when every row matches, the filter keeps all of them in order |
| `Accounts.AccountCurrency` | server/routers/accounts.ts:266 | the company's currency, or USD when there is none |
| `Accounts.NewAccount` | server/routers/accounts.ts:255-269 | a new account is active, not a system account, and has the given code, type and parent |
| `Accounts.CreateError` | server/routers/accounts.ts:181-246 | in order: BadRequest for an empty code or name, Forbidden unless owner or admin, Conflict for a taken code, NotFound for a foreign parent, BadRequest for a parent of another type; no error exactly when every check passes (input schema at lines 10-19) |
| `Accounts.Create` | server/routers/accounts.ts:181-272 | the error of `CreateError` changes nothing; otherwise the account is added; unique codes and matching parents are preserved |
| `Accounts.UpdateError` | server/routers/accounts.ts:277-376 | in order: BadRequest for an empty code or name, Forbidden unless owner or admin, NotFound, Forbidden for a system account, Conflict only when the code changes to a taken one, NotFound for a foreign parent, BadRequest for a parent whose type differs from the new or existing type, BadRequest for the account as its own parent; no error exactly when every check passes (input schema at lines 21-32) |
| `Accounts.ApplyUpdate` | server/routers/accounts.ts:380-393 | each supplied field (code, name, type, sub-type, bank and control flags, parent, tax category, active flag) overwrites the stored one, absent ones stay; the company, currency and system flag stay |
| `Accounts.Update` | server/routers/accounts.ts:277-396 | the error of `UpdateError` changes nothing; otherwise the account becomes `ApplyUpdate`; codes stay unique |
| `Accounts.TypeChangeKeepsMismatchedParent` | server/routers/accounts.ts:345-369 | changing only the type of a child account leaves its parent with a different type |
| `Accounts.Delete` | server/routers/accounts.ts:401-481 | Forbidden unless owner or admin, NotFound, Forbidden for a system account; it succeeds exactly when all three pass; an account with journal lines is only deactivated, one without is removed |
| `Accounts.Hierarchy` | server/routers/accounts.ts:486-534 | one tree per account type; top-level nodes have no parent; each child's parent is its enclosing node; every node has its tree's type |
| `Accounts.NodeInLevel` | server/routers/accounts.ts:519-526 | a queried row with the requested parent and type gets a node whose children are built one level deeper |
| `Accounts.PathInTree` | server/routers/accounts.ts:519-531 | the last row of a chain of child links no longer than the fuel appears in the tree |
| `Accounts.DownPathDistinct` | server/routers/accounts.ts:519-531 | a chain of child links from a top-level account never meets an account twice |
| `Accounts.HierarchyComplete` | server/routers/accounts.ts:504-534 | every account linked to a top-level account by child links within its type appears in that type's tree; a fuel of the number of rows always suffices |
| `Accounts.BuildTreeShaped` | server/routers/accounts.ts:518-526 | `buildTree` nests each node under its parent and keeps the tree's type |
| `Accounts.LevelShaped` | server/routers/accounts.ts:518-526 | the same, for the children of one level |
| `Accounts.CycleNeverRooted` | server/routers/accounts.ts:518-526 | an account on a parent cycle has no chain of parents to the top |
| `Accounts.CyclesNotReached` | server/routers/accounts.ts:518-531 | no node of a built tree lies on a parent cycle |
| `Accounts.Debits` | server/routers/accounts.ts:600-623 | the sum of positive amounts is non-negative |
| `Accounts.Credits` | server/routers/accounts.ts:600-623 | the sum of the magnitudes of negative amounts is non-negative |
| `Accounts.BalanceSplits` | server/routers/accounts.ts:600-623 | the balance is debits minus credits |
| `Accounts.PeriodLines` | server/routers/accounts.ts:574-596 | exactly the journal lines of the account and company within the optional start and end dates, each as often as in the journal |
| `Accounts.GetBalance` | server/routers/accounts.ts:539-625 | NotFound outside the company; otherwise it succeeds, with debits, credits, balance and count those of `PeriodLines`, and periodBalance = debits − credits with both parts ≥ 0 |
| `Reports.Window` | server/routers/reports.ts:64-80 | exactly the journal lines of the company, the accounts and the date window, each as often as in the journal |
| `Reports.WindowAppend` | server/routers/reports.ts:64-80 | the query keeps journal order: the window of a concatenation is the concatenation of the windows |
| `Reports.AmountAppend` | server/routers/reports.ts:89-112 | the amount of two runs of lines is the sum of their amounts |
| `Reports.WindowSplit` | server/routers/reports.ts:373-388 | the lines up to a date split into those before a middle date and those from it |
| `Reports.RowsOfType` | server/routers/reports.ts:43-61 | exactly the active accounts of the company with the given type, each as often as in the input |
| `Reports.RowsOfTypeAppend` | server/routers/reports.ts:43-61 | the query keeps the rows' order |
| `Reports.RowsOfTypeUnique` | server/routers/reports.ts:43-61 | distinct account ids stay distinct after filtering by type |
| `Reports.ByAccount` | server/routers/reports.ts:89-112 | one entry per account, its amount the signed sum of that account's lines |
| `Reports.NonZero` | server/routers/reports.ts:123-128 | exactly the entries with a non-zero amount, each as often as in the input |
| `Reports.NonZeroAppend` | server/routers/reports.ts:123-128 | the filter keeps the listing's order |
| `Reports.NonZeroKeepsTotal` | server/routers/reports.ts:114-128 | dropping zero-amount accounts does not change the total |
| `Reports.ByAccountTotal` | server/routers/reports.ts:89-116 | the per-account amounts add up to the signed sum of the lines on those accounts |
| `Reports.MakeSection` | server/routers/reports.ts:89-128 | listed accounts are non-zero and add up to the section total |
| `Reports.SectionTotal` | server/routers/reports.ts:89-116 | with distinct accounts, the section total is the signed sum of the window's lines |
| `Reports.ProfitAndLossReport` | server/routers/reports.ts:43-131 | the revenue and expense sections are the per-account listings of the period's lines on the active revenue and expense accounts; netIncome = totalRevenue − totalExpenses; revenue = −Σ amount and expenses = +Σ amount; listed accounts add up |
| `Reports.BalanceSheetReport` | server/routers/reports.ts:158-261 | the asset, liability and equity sections are the per-account listings of the lines up to the date on the active accounts of each type; assets = +Σ, liabilities and equity = −Σ; totalLiabilitiesAndEquity = L + E; balanced iff \|A − (L + E)\| < 0.01 |
| `Reports.CashAccountIds` | server/routers/reports.ts:288-299 | the company's active accounts that are bank accounts or have the sub-type "cash" |
| `Reports.OtherAccounts` | server/routers/reports.ts:334-336 | exactly the accounts of the transaction's lines that are not on a cash account, no more entries than lines |
| `Reports.Classify` | server/routers/reports.ts:332-349 | the category the rules give the other accounts, operating by default (characterised by `Reports.ClassifyLastMatch`) |
| `Reports.ClassifyLastMatch` | server/routers/reports.ts:332-349 | the last other account that matches a rule decides the category; with none it is operating |
| `Reports.Categorize` | server/routers/reports.ts:332-349 | the loop that reassigns `category` computes the classification |
| `Reports.ItemsTotalPush` | server/routers/reports.ts:351-365 | pushing an item adds its amount to the bucket total |
| `Reports.AmountPush` | server/routers/reports.ts:351-370 | appending a line adds its amount |
| `Reports.BucketPush` | server/routers/reports.ts:351-365 | one more movement lands in its own bucket and no other |
| `Reports.BucketsPartition` | server/routers/reports.ts:351-370 | the three buckets together hold every movement once; their totals add up to the movements' amount |
| `Reports.SortMovements` | server/routers/reports.ts:351-365 | the loop fills the three buckets with the movements of each category, in order |
| `Reports.CashFlow` | server/routers/reports.ts:267-410 | each movement lands in exactly one bucket; net = operating + investing + financing; beginning is the balance before the start; ending = beginning + net |
| `Reports.MonthKeyFormat` | server/routers/reports.ts:490-493 | the month key is `YYYY-MM`, the month 1-based and two digits |
| `Reports.QuarterKeyFormat` | server/routers/reports.ts:494-496 | the quarter key is `YYYY-Qn` with n = ⌊month0/3⌋ + 1 in 1..4 |
| `Reports.YearKeyFormat` | server/routers/reports.ts:497-499 | the year key is the year's numeral |
| `Reports.GroupedSums` | server/routers/reports.ts:502-505 | the grouping has one key per occurring period, holding that period's sum |
| `Reports.KeyedSumAbsent` | server/routers/reports.ts:502-505 | a key that does not occur sums to 0 |
| `Reports.GroupByPeriod` | server/routers/reports.ts:502-505 | the loop filling `byPeriod` computes the grouping |
| `Reports.InsertByKey` | server/routers/reports.ts:508-510 | inserting an entry with a new key keeps the list sorted and adds exactly that entry |
| `Reports.SortByKey` | server/routers/reports.ts:508-510 | the output is strictly sorted by key and holds every entry of the map exactly once |
| `Reports.GroupsTotal` | server/routers/reports.ts:502-510 | a list of per-key sums over distinct keys adds up to the sum over those keys |
| `Reports.TrendEntriesTotal` | server/routers/reports.ts:502-505 | the trend entries add up to the signed amount of the lines |
| `Reports.Trends` | server/routers/reports.ts:415-621 | one entry per key, sorted ascending; each amount is its period's sum; the amounts add up to −Σ for revenue and +Σ for expenses |
| `Customers.Normalized` | server/routers/customers.ts:276-285 | the name is taken, and each empty or absent optional field is stored as null |
| `Customers.NewCustomer` | server/routers/customers.ts:201-211 | a new contact is a customer of the company in its currency |
| `Customers.Create` | server/routers/customers.ts:162-213 | BadRequest for invalid input; Conflict when another customer of the company has the email, with no check without an email; it succeeds exactly when neither applies; emails stay unique (input schema at lines 7-14) |
| `Customers.Update` | server/routers/customers.ts:218-286 | BadRequest, NotFound, and Conflict only when the email changes to one another customer has; it succeeds exactly when none applies; emails stay unique |
| `Customers.Delete` | server/routers/customers.ts:291-347 | NotFound, then Forbidden when the customer has an invoice; otherwise it is removed |
| `Customers.InvoiceContactKeepsEmailsUnique` | server/routers/invoices.ts:71-101 | the contact that invoice creation may add keeps customer emails unique |
| `Customers.GetStats` | server/routers/customers.ts:352-393 | withInvoices counts a subset of total, and withoutInvoices counts the rest |
| `Customers.Filtered` | server/routers/customers.ts:65-77 | exactly the company's customers that match the search, each as often as in the input (order through `Common.FilterAppend`) |
| `Customers.List` | server/routers/customers.ts:44-100 | only customer contacts; total counts the filtered rows; the page is exactly the `offset`/`limit` slice of the filtered rows; hasMore holds exactly when rows remain past the page (input schema at lines 16-24) |
| `CompanyRouter.FiscalYearEndShape` | server/routers/company.ts:12 | the fiscal-year-end pattern accepts exactly two digits, a dash and two digits |
| `CompanyRouter.ApplyProfile` | server/routers/company.ts:106-117 | the name is replaced and each other field only when supplied; settings and currency stay |
| `CompanyRouter.UpdateProfile` | server/routers/company.ts:79-119 | BadRequest for invalid input, Forbidden unless owner or admin, otherwise `ApplyProfile` (input schema at lines 7-13) |
| `CompanyRouter.Put` | server/routers/company.ts:177-184 | a supplied value sets its key; an absent one leaves the map |
| `CompanyRouter.MergeSettings` | server/routers/company.ts:177-184 | supplied keys take the input value, other existing keys stay, and missing settings count as empty |
| `CompanyRouter.MergeIdempotent` | server/routers/company.ts:181-184 | saving the same settings twice equals saving them once |
| `CompanyRouter.ApplySettings` | server/routers/company.ts:177-193 | the settings are merged; the currency column changes only when a non-empty currency is supplied |
| `CompanyRouter.UpdateSettings` | server/routers/company.ts:150-207 | BadRequest for invalid input, Forbidden unless owner or admin, otherwise `ApplySettings` (input schema at lines 15-52) |
| `CompanyRouter.CurrencyFollowsInput` | server/routers/company.ts:186-193 | the currency column changes only to a supplied currency, which also lands in the settings |
| `Rbac.ParseRole` | lib/rbac.ts:21-27 | a string is a role exactly when it is one of the role names |
| `Rbac.ParseRoleName` | lib/rbac.ts:21-27 | each role's name reads back as that role |
| `Rbac.Level` | lib/rbac.ts:21-27 | every role has a level from 1 to 5 |
| `Rbac.UserLevel` | lib/rbac.ts:40 | the level is 0 exactly for unknown role strings |
| `Rbac.RequireRole` | lib/rbac.ts:36-43 | a check passes only for a known role, and then exactly when it outranks or equals the minimum |
| `Rbac.LevelIsLadderPosition` | lib/rbac.ts:21-27 | the levels are the positions on the role ladder |
| `Rbac.RequireRoleExamples` | lib/rbac.ts:32-34 | a member is below admin and the owner is above it |
| `Rbac.RequireRoleExtremes` | lib/rbac.ts:21-43 | the owner passes every check; an unknown role passes none |
| `Rbac.AdminGuardIsRequireRole` | lib/rbac.ts:36-43 | the routers' owner-or-admin test is `requireRole(role, "admin")` |
| `Rbac.RequireRoleTransitive` | lib/rbac.ts:36-43 | passing a check implies passing every weaker one |
| `Rbac.RequireRoleTotal` | lib/rbac.ts:36-43 | any two roles are comparable |
| `Rbac.GetRoleLabel` | lib/rbac.ts:48-58 | the label of a role, and "Unknown" exactly for other strings |
| `Rbac.GetRoleDescription` | lib/rbac.ts:63-73 | the description of a role, and "Unknown role" exactly for other strings |
| `Rbac.LabelsDistinct` | lib/rbac.ts:48-73 | different roles have different labels and descriptions |
| `Rbac.HasPermission` | lib/rbac.ts:138-150 | granted only for a known role, resource and action whose table entry is true |
| `Rbac.HasPermissionExamples` | lib/rbac.ts:131-136 | a member may not delete invoices; an admin may |
| `Rbac.OwnerHasEveryPermission` | lib/rbac.ts:79-88 | the owner is granted every listed action |
| `Rbac.ViewerOnlyReads` | lib/rbac.ts:119-128 | a viewer may read every resource except settings and users, and do nothing else |
| `Rbac.AdjacentTablesIncrease` | lib/rbac.ts:78-129 | what a role is granted, the next role up is granted too |
| `Rbac.PermissionsFollowHierarchy` | lib/rbac.ts:78-129 | anything granted to a role is granted to every higher role (hierarchy at lines 21-27) |
| `Rbac.Climb` | lib/rbac.ts:78-129 | a grant carries up any number of ladder steps |
| `ValidationRules.AmountSchema` | lib/constants/validation.ts:184-187 | accepted iff 0 ≤ a ≤ 999999999999.9999; the value is kept (bound at line 69) |
| `ValidationRules.PercentageSchema` | lib/constants/validation.ts:201-214 | accepted iff 0 ≤ v ≤ 100, which the tax-rate and discount schemas share |
| `ValidationRules.IsValidDateRange` | lib/constants/validation.ts:328-330 | a range is valid when its end is not before its start (its order properties in `ValidationRules.DateRangeReflexiveAndTransitive`) |
| `ValidationRules.DateRangeReflexiveAndTransitive` | lib/constants/validation.ts:328-330 | a one-instant range is valid; valid ranges chain; two opposite ranges are one instant |
| `ValidationRules.AccountCodeSchema` | lib/constants/validation.ts:266-270 | accepted iff 1 to 20 characters from A–Z, 0–9 and '-' (pattern at line 32) |
| `ValidationRules.AccountCodeLengthFromPattern` | lib/constants/validation.ts:266-270 | the pattern alone implies the length bounds (pattern at line 32, length at line 64) |
| `ValidationRules.TaxIdUSShape` | lib/constants/validation.ts:23 | accepted iff nine digits, or two digits, a dash and seven digits; so 9 or 10 characters |
| `ValidationRules.HexColorShape` | lib/constants/validation.ts:44 | accepted iff '#' and exactly three or six hex digits |
| `ValidationRules.UuidPatternIsVersion4` | lib/constants/validation.ts:47 | accepted iff the 8-4-4-4-12 layout of hex digits with version nibble 4 and a variant character in 8, 9, a, b, in either case (sections 4.1.1 and 4.1.3 of RFC 4122) |
| `ValidationRules.UuidExpansion` | lib/constants/validation.ts:47 | the uuid pattern is 36 positions, each with its class |
| `ValidationRules.PercentageTextInRange` | lib/constants/validation.ts:41 | a matching string has at most two decimals and denotes a value in [0, 100] |
| `ValidationRules.PercentageParts` | lib/constants/validation.ts:41 | a matching string splits into whole digits and at most two decimals, and its whole part is at most 100 |
| `Options.Find` | lib/constants/options.ts:272 | the index of the first option with the value, or none exactly when no option has it |
| `Options.GetOptionLabel` | lib/constants/options.ts:271-273 | the first matching option's label, or the value itself when none matches or the label is empty |
| `Options.GetOptionColor` | lib/constants/options.ts:275-277 | the first matching option's colour; absent when none matches |
| `Options.GetOptionIcon` | lib/constants/options.ts:279-281 | the first matching option's icon; absent when none matches |
| `Options.LookupUnambiguous` | lib/constants/options.ts:271-281 | with distinct values, each lookup returns the one option carrying the value |
| `Options.GetSubtypeOptions` | lib/constants/options.ts:161-176 | non-empty exactly for the five account types |
| `Options.SubtypeTables` | lib/constants/options.ts:161-176 | each account type picks its own subtype table |
| `Options.InvoiceStatusTableCovers` | lib/constants/options.ts:41-53 | every invoice status has an option |
| `Options.InvoiceStatusTableExact` | lib/constants/options.ts:41-53 | every invoice-status option is a status |
| `Options.ExpenseStatusTableCovers` | lib/constants/options.ts:55-61 | every expense status has an option |
| `Options.ExpenseStatusTableExact` | lib/constants/options.ts:55-61 | every expense-status option is a status |
| `Options.TablesHaveDistinctValues` | lib/constants/options.ts:41-265 | within every option table, the values are pairwise distinct |
| `Formatters.KeepDigits` | hooks/use-formatters.ts:113 | exactly the digits of the input, in order |
| `Formatters.FormatPhoneNumber` | hooks/use-formatters.ts:112-120 | ten digits become `(ddd) ddd-dddd`; anything else is returned unchanged |
| `Formatters.PhoneKeepsDigits` | hooks/use-formatters.ts:112-120 | formatting keeps the digits in order |
| `Formatters.PhoneIdempotent` | hooks/use-formatters.ts:112-120 | formatting twice equals formatting once |
| `Formatters.FormatTaxId` | hooks/use-formatters.ts:123-131 | nine digits become `dd-ddddddd`; anything else is returned unchanged |
| `Formatters.TaxIdKeepsDigits` | hooks/use-formatters.ts:123-131 | formatting keeps the digits in order |
| `Formatters.TaxIdIdempotent` | hooks/use-formatters.ts:123-131 | formatting twice equals formatting once |
| `Formatters.FormattedTaxIdIsValid` | hooks/use-formatters.ts:123-131 | a formatted nine-digit tax id matches the US tax-id pattern |
| `Formatters.FormatRelativeTime` | hooks/use-formatters.ts:90-109 | "Just now" exactly under a minute; otherwise a text ending in " ago" (its unit and count are those of `Formatters.ClassifyElapsed`) |
| `Formatters.ClassifyElapsed` | hooks/use-formatters.ts:90-109 | each unit holds on exactly one range of elapsed time: under 60 s "Just now", then minutes under an hour, hours under a day, days under 7 days, weeks under 28 days, months under 360 days, years from 360 days; the count is the floor of the elapsed time in that unit |
| `Formatters.NestedFloors` | hooks/use-formatters.ts:94-97 | the chained floors equal the floors of the whole quotient |
| `Formatters.ZeroMonthsShown` | hooks/use-formatters.ts:98-107 | 28 days are shown as "0mo ago" |
| `Formatters.ZeroYearsShown` | hooks/use-formatters.ts:99-108 | 360 days are shown as "0y ago" |
| `Formatters.ClassifyElapsedFixed` | hooks/use-formatters.ts:90-109 | the same ranges up to weeks, but weeks run to 30 days and months to 365 days, so no unit is shown with a count of 0; the count is the floor in that unit |
| `Formatters.FixedAgreesOutsideWindows` | hooks/use-formatters.ts:90-109 | the fixed version agrees with the original outside the 28–29 and 360–364 day windows |
| `Formatters.Pow1024` | hooks/use-formatters.ts:140 | a power of 1024 is at least 1 |
| `Formatters.FormatFileSize` | hooks/use-formatters.ts:134-145 | unitIndex ≤ 4 and names the unit; size × 1024^unitIndex = bytes; size < 1024 unless the unit is TB |
| `Formatters.Capitalize` | hooks/use-formatters.ts:148-150 | only the first character changes, to upper case; "" maps to "" |
| `Formatters.CapitalizeIdempotent` | hooks/use-formatters.ts:148-150 | capitalising twice equals capitalising once |
| `Formatters.CapitalizeAll` | hooks/use-formatters.ts:156 | each word is capitalised, and the count is kept |
| `Formatters.SnakeToTitle` | hooks/use-formatters.ts:153-158 | a text without '_' is only capitalised |
| `Formatters.SnakeToTitleShape` | hooks/use-formatters.ts:153-158 | the length is kept, every '_' becomes ' ', and no '_' remains |
| `Durations.JsRemainder` | src/lib/utils.ts:46 | JavaScript's `%`: the remainder has the sign of the dividend |
| `Durations.SplitDuration` | src/lib/utils.ts:45-46 | for non-negative input, hours × 60 + mins = minutes with 0 ≤ mins < 60 |
| `Durations.FormatDuration` | src/lib/utils.ts:44-51 | under an hour the text is "m min"; a whole number of hours is "h hr" |
| `Durations.HoursAndMinutes` | src/lib/utils.ts:50 | otherwise "h hr r min" with 1 ≤ r ≤ 59 and h × 60 + r = minutes |
| `Durations.NegativeInput` | src/lib/utils.ts:44-50 | −30 minutes is shown as "-1 hr -30 min" |
| `DateUtils.CeilDiv` | lib/utils.ts:44 | `Math.ceil(a / d)` is the least q with a ≤ q × d |
| `DateUtils.DaysUntil` | lib/utils.ts:40-45 | the number of days up to the date, rounded up |
| `DateUtils.IsOverdue` | lib/utils.ts:50-52 | a date is overdue iff it lies at least one full day before now |
| `DateUtils.DaysUntilMonotone` | lib/utils.ts:43-44 | now is 0 days away, and later dates are never fewer days away |
| `Scraper.NotDisallowed` | research/scraper.py:62-65 | true exactly when the path starts with none of the listed prefixes |
| `Scraper.CheckCanFetch` | research/scraper.py:51-72 | false iff the path starts with a known disallowed prefix, "/login" or "/dashboard" |
| `Scraper.ConfiguredPagesAllowed` | research/scraper.py:41-72 | every configured page passes the check |
| `Scraper.Browser.NewPage` | research/scraper.py:84 | opening a page records it and counts it as open |
| `Scraper.Browser.Navigate` | research/scraper.py:88-92 | navigation is recorded |
| `Scraper.Browser.Wait` | research/scraper.py:158 | a sleep is recorded |
| `Scraper.Browser.TakeScreenshot` | research/scraper.py:119 | the screenshot is recorded |
| `Scraper.Browser.ReleasePage` | research/scraper.py:133 | closing a page records it and counts one fewer open page |
| `Scraper.Browser.Close` | research/scraper.py:165 | closing the browser is recorded |
| `Scraper.ScreenshotName` | research/scraper.py:118 | the name is "screenshot", the path with every '/' turned into '_', then ".png" |
| `Scraper.RootScreenshotName` | research/scraper.py:118 | the root page's screenshot is "screenshot_.png" |
| `Scraper.Truncate` | research/scraper.py:115 | `text[:2000]`: the prefix of exactly min(length, 2000) characters |
| `Scraper.PageRecord` | research/scraper.py:98-120 | the record has the path and URL, the loaded title, description and headings, the truncated main text exactly when the page had some, and the screenshot name of the path |
| `Scraper.CountAppend` | research/scraper.py:84-133 | event counts add over concatenated traces |
| `Scraper.MiddleCounts` | research/scraper.py:86-126 | the work between opening and closing a page opens, closes and sleeps nothing |
| `Scraper.PageOpenedAndClosedOnce` | research/scraper.py:77-133 | a rejected path touches no page; any other page is opened and closed exactly once, whether it loads or its navigation, reading or screenshot fails |
| `Scraper.EventCounts` | research/scraper.py:84-133 | a page's events hold one open, one close and no delay |
| `Scraper.ReadPage` | research/scraper.py:94-126 | after navigation: the wait, then reading the page, then the screenshot, stopping at the step that raises; the record only when all succeed |
| `Scraper.ScrapePage` | research/scraper.py:74-133 | the result is the record, or nothing when the path is rejected or navigation, reading or the screenshot fails (after which the screenshot attempt stays in the trace); the trace grows by the page's events; no page is left open |
| `Scraper.LoopStep` | research/scraper.py:154-163 | one more page adds its delay, its events and its result, if any |
| `Scraper.Run` | research/scraper.py:135-179 | the results are those collected over the configured pages; then the browser is closed; no page is left open |
| `Scraper.ScrapeAll` | research/scraper.py:146-163 | the loop collects the results and the trace of its pages |
| `Scraper.SuccessesAppend` | research/scraper.py:146-163 | the successes of two runs of pages concatenate |
| `Scraper.CollectedInOrder` | research/scraper.py:146-163 | the results are the successful pages in configured order, each of which passed the check |
| `Scraper.NoDelayInPage` | research/scraper.py:74-133 | scraping one page sleeps for no delay between pages |
| `Scraper.DelaysBetweenPages` | research/scraper.py:154-158 | n pages see n − 1 delays |

## Left out

- Authentication, the tRPC and Prisma plumbing, and the "you don't belong to any company" prelude of every procedure. The caller's company and role are given.
- The queries' `orderBy` clauses. Each ordered query result is a sequence given in the database's order.
- Prisma's cascade on delete, and `findFirst` returning an arbitrary first match. The model picks any matching row through a `:|` choice.
- Schema fields the procedures only store (dates, notes, merchants, references, descriptions) beyond what the contracts mention. Zod stripping unknown keys is implicit, since inputs are typed.
- Number rounding with `toFixed(2)` and `toFixed(1)`, and floating point in general. Amounts are exact reals, and invoice totals are stated before rounding.
- `Rbac.GetRoleLabel`: looks up an object literal in the source, so an inherited key such as "toString" or "constructor" yields a member of `Object.prototype` rather than "Unknown"; the model returns "Unknown" for every string that is not a role.
- `Rbac.GetRoleDescription`: the same lookup, so an inherited key yields a member of `Object.prototype` rather than "Unknown role"; the model returns "Unknown role" for every string that is not a role.
- Input defaults (`limit` 50 and `offset` 0 of the expense and customer `list`, the expense `status` "all", the trends `interval` "month"): the model takes each input after the schema has filled in its defaults.
- `Formatters.FormatFileSize`: returns the scaled size and the unit, not the one-decimal text.
- The uuid, email and URL checks that Zod applies to inputs. Ids are naturals and email validity is not modelled.
- Day and week trend keys, and the local calendar. Dates are mapped to (year, month, ISO date, week start) by a calendar parameter, so only the month, quarter and year key formats are proved.
- `localeCompare`, modelled as character-code order. This is the same order for the ASCII keys the reports produce.
- Unicode case mapping. `toUpperCase` and the insensitive search are modelled for ASCII letters.
- `parseInt` beyond 2^53. The model's integers are unbounded.
- `Accounts.Hierarchy`: `buildTree` is given a fuel of the number of rows so that Dafny accepts its termination. The JavaScript terminates too: it starts from the top-level accounts and each account has one parent, so an account on a parent cycle is never reached (`Accounts.CyclesNotReached`). `Accounts.HierarchyComplete` shows the fuel never cuts a tree.
- The invoice procedures `list` and `getById`; the expense procedures `getById`, `getStats` and `getCategories`; the customer `getById`; and the account `list`. These are queries with no rule beyond the filters already modelled.
- The report fields that only echo the input (dates, descriptions and references of cash items).
- `camelToTitle`, the locale formatters (currency, number, date, percent) and `cn`. These are Intl or UI helpers.
- `Scraper.ScrapePage`: a failing `browser.new_page` is not modelled. It is called before the `try`, so its exception leaves `scrape_page` with no page opened.
- `Scraper.Run`: for the same reason, a failing `new_page` aborts the run before `browser.close()`, with no results returned. The model's run always ends by closing the browser and returns the collected results.
- In the scraper: the output directory in front of the screenshot name and `scraped_at`; reading the title, description, headings and main text from the browser, which the `load` parameter supplies as already extracted values; the unused robots parser; the JSON file; console output; and the actual sleeping.
- The email and PDF routes, the seed data and the UI components and hooks.

## Findings

| source | as written | input that shows it | evidently intended | confidence | as-written member | corrected member |
|---|---|---|---|---|---|---|
| hooks/use-formatters.ts:98-107 | weeks are shown only while `diffWeek < 4`, then months are counted in 30-day units | an elapsed time of 28 or 29 days gives "0mo ago" | to keep showing weeks until a month has passed, so no unit appears with a count of 0 | high (not executed) | `Formatters.ZeroMonthsShown` | `Formatters.ClassifyElapsedFixed` |
| hooks/use-formatters.ts:99-108 | months are shown only while `diffMonth < 12`, then years are counted in 365-day units | an elapsed time of 360 to 364 days gives "0y ago" | to keep showing months until a year has passed | high (not executed) | `Formatters.ZeroYearsShown` | `Formatters.ClassifyElapsedFixed` |
