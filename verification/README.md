# personal-finance-tracker — a Dafny model of the record store and its rules

The application keeps users, transactions, categories, recurring-transaction
templates, savings goals and wallets in one JSON file (`src/lib/db.ts`), and a few
server-side rules read or update that store:

- the recurrence engine that materialises the templates once a month;
- the transaction route that stores a transaction and reports budget overflow;
- the CSV bulk-import route;
- the savings-goal routes;
- the dashboard page, which filters, totals, groups and sorts the user's transactions for its cards and charts.

The model is split into these modules:

- `Common`: options, replies, dates with an order-preserving `Stamp`, ASCII lowercasing, and amount strings.
- `Seqs`: filter, map, sum and find as sequence functions, with their laws.
- `Sorting`: stable insertion sort by a real key, standing for `Array.prototype.sort`.
- `Grouping`: the "find-or-push, then add" reducer used by the charts, as a fold and as a loop.
- `Records`: the stored entities and the `{ ...x, ...updates }` merges.
- `Recurrence`: what one run of the engine does, as functions of the templates.
- `Store`: the `Database` class, with one sequence field per collection and a write counter.
- `TransactionsRoute`, `BulkImport` and `GoalsRoute`: the three routes.
- `Dashboard`: the page's data pipeline.

Amounts are whole cents (`int`). Dates are `Common.Date(year, month 0..11, day, ms)`
values passed in by the caller. Ids that the source draws from `Math.random()`
are parameters. A request body's absent string field is the empty string.

## Model

| member | source | states |
|---|---|---|
| Common.StampChronological | src/app/page.tsx:64-94 | For valid dates, `Stamp` orders dates chronologically and is injective. This is the stand-in for `getTime()` used in every date comparison and sort. |
| Common.Lower | src/app/page.tsx:46-51 | `toLowerCase` on ASCII: each capital becomes its small letter, every other character is kept, and the result has no capitals. The length is unchanged. |
| Common.LowerIdempotent | src/app/page.tsx:46-51 | Lowering a lowered string changes nothing, so the lowered query is matched against lowered text consistently. |
| Seqs.Filter | src/lib/db.ts:180-182 | `Array.prototype.filter`: the result is no longer than the input, and an element is kept exactly when it is in the input and satisfies the predicate. |
| Seqs.Find | src/app/api/transactions/route.ts:45 | `Array.prototype.find`: nothing exactly when no element matches. Otherwise the result is the first match. |
| Seqs.FindIndex | src/lib/db.ts:209 | `findIndex`: -1 exactly when no element matches. Otherwise the result is the first matching position. |
| Seqs.FilterSubseq | src/lib/db.ts:221-225 | A filter keeps the surviving elements in their original relative order. |
| Seqs.SumAppend | src/app/api/transactions/route.ts:48-50 | The `reduce` sum of a concatenation is the sum of the parts. |
| Seqs.SumPermutation | src/app/page.tsx:83-89 | A sum does not depend on the order of the elements, so the in-place sort leaves the totals unchanged. |
| Sorting.SortBy | src/app/page.tsx:94 | The sort returns a permutation of its input, sorted by the key. |
| Sorting.SortStable | src/app/page.tsx:94 | The sort is stable, like `Array.prototype.sort`: for every key value, the elements with that key come out in their input order. |
| Sorting.SortStableBy | src/app/page.tsx:94 | Stability stated for any predicate that selects exactly the elements with one key value. |
| Grouping.GroupTotals | src/app/page.tsx:99-107 | The reducer loop computes exactly the fold `Grouping.Fold`: an existing group has its total increased, and a new key is appended. |
| Grouping.FindEntry | src/app/page.tsx:101 | The `find` over the accumulator gives the position of the first group with the key, or -1 when there is none. |
| Grouping.FoldKeys | src/app/page.tsx:101-106 | The reducer yields one group per distinct key and no other groups. |
| Grouping.FoldTotals | src/app/page.tsx:103 | Each group's total is the sum of the amounts of the items with its key. |
| Grouping.FoldConserves | src/app/page.tsx:99-107 | The group totals add up to the sum of all item amounts. |
| Grouping.FoldFirstOccurrence | src/app/page.tsx:146-155 | Groups appear in the order in which their keys first occur among the items. |
| Records.PatchTransaction | src/lib/db.ts:207-220 | The merge keeps id, owner and creation time, and stamps `updatedAt`. Each field the update carries takes the update's value, and each field it does not carry keeps its value. |
| Records.PatchCategory | src/lib/db.ts:244-259 | The merge keeps id, owner and creation time, and stamps `updatedAt`. Each field the update carries takes the update's value (a carried `budget: undefined` removes the budget), and each other field keeps its value. |
| Records.PatchGoal | src/lib/db.ts:344-354 | The merge keeps the id, since the route strips it, and stamps `updatedAt`. Each field the update carries takes the update's value, including `userId` and `createdAt`. Each field it does not carry keeps its value. |
| Records.PatchWallet | src/lib/db.ts:383-393 | `Partial<Wallet>` admits every field: each field the update carries takes its value, even `id` and `createdAt`. Every other field keeps its value, and `updatedAt` is stamped. |
| Records.PatchUser | src/lib/db.ts:168-177 | The merge keeps id and creation time. Each field the update carries takes its value, including the optional profile fields. Each other field keeps its value, and an empty update changes nothing. |
| Records.SeedCategories | src/lib/db.ts:146-155 | A new user gets exactly ten categories, all owned by that user, copying the default table in order. Exactly the expense categories carry a budget. |
| Recurrence.AdvanceAll | src/lib/db.ts:291-322 | After a run, exactly the templates that fired have `lastGenerated = now`. Nothing else about any template changes, and other users' templates are untouched. |
| Recurrence.GeneratedShape | src/lib/db.ts:294-321 | One transaction per firing template. Each copies its template, belongs to the user and is dated `now`. Nothing is generated exactly when no template fires. |
| Recurrence.ProcessIdempotent | src/lib/db.ts:300-320 | A second run with the same `now` stamps nothing and adds no transactions. |
| Recurrence.OncePerMonth | src/lib/db.ts:298-305 | Within one calendar month a template fires at most once, whatever the day and time of the second run. |
| Recurrence.FirstRunBoundary | src/lib/db.ts:294-297 | A template that never fired and is due on the 15th gives nothing on the 14th and exactly one transaction on the 15th. |
| Recurrence.MonthRollover | src/lib/db.ts:298-305 | Last generated on 20 January and due on the 15th: nothing on 10 February, one transaction on 16 February. |
| Store.Database.constructor | src/lib/db.ts:86-93 | The empty store: every collection is empty. |
| Store.Database.CreateUser | src/lib/db.ts:136-159 | Appends one user built from the input with the fresh id and `now`, and the ten seeded categories owned by that user, then writes once. |
| Store.Database.GetUserByEmail | src/lib/db.ts:160-163 | Nothing exactly when no user has the email. Otherwise the first user with that email. |
| Store.Database.GetUserById | src/lib/db.ts:164-167 | Nothing exactly when no user has the id. Otherwise the first user with that id. |
| Store.Database.UpdateUser | src/lib/db.ts:168-177 | An unknown id answers `None` and changes nothing. Otherwise only the first user with the id is merged, and the store is written once. |
| Store.Database.GetTransactions | src/lib/db.ts:180-182 | Exactly the user's transactions, in store order, with every copy of each: an entry occurs as often as in the store if the user owns it, and otherwise not at all. |
| Store.Database.AddTransaction | src/lib/db.ts:183-194 | Appends the stamped transaction, returns it, and writes once. |
| Store.Database.AddTransactions | src/lib/db.ts:195-206 | Appends one stamped transaction per input, in order, and writes once. |
| Store.Database.UpdateTransaction | src/lib/db.ts:207-220 | No entry matching both id and owner: `None` and nothing changes. Otherwise only the first match is merged. |
| Store.Database.DeleteTransaction | src/lib/db.ts:221-225 | The transactions become exactly those not matching both id and owner, and the store is written once. |
| Store.DeleteRemovesExactlyMatches | src/lib/db.ts:221-225 | The deletion removes exactly the entries with both id and owner, and the survivors keep their order. |
| Store.Database.GetCategories | src/lib/db.ts:228-230 | Exactly the user's categories, in store order, with every copy of each: an entry occurs as often as in the store if the user owns it, and otherwise not at all. |
| Store.Database.CreateCategory | src/lib/db.ts:231-243 | Appends the new category owned by the user. |
| Store.Database.UpdateCategory | src/lib/db.ts:244-259 | No entry matching both id and owner: `None` and nothing changes. Otherwise only the first match is merged. |
| Store.Database.GetRecurring | src/lib/db.ts:260-262 | Exactly the user's templates, in store order, with every copy of each: an entry occurs as often as in the store if the user owns it, and otherwise not at all. |
| Store.Database.CreateRecurring | src/lib/db.ts:263-276 | Appends a template whose `lastGenerated` is null. |
| Store.Database.DeleteRecurring | src/lib/db.ts:277-281 | The templates become exactly those not matching both id and owner. |
| Store.Database.ProcessRecurring | src/lib/db.ts:282-328 | The loop leaves the templates equal to `AdvanceAll`. It appends exactly `Generated` after the existing transactions, and writes only when something was generated. |
| Store.RunTemplates | src/lib/db.ts:291-323 | The `forEach` over the templates leaves them equal to `AdvanceAll` and appends exactly `Generated` after the existing transactions. It reports a change exactly when something was generated, and with no change the templates are as they were. |
| Store.VisitTemplate | src/lib/db.ts:292-322 | A due template is stamped with `lastGenerated = now` and yields its materialised transaction. A template that is not due is left as it is and yields nothing. |
| Store.Database.GetGoals | src/lib/db.ts:331-334 | Exactly the user's goals, in store order, with every copy of each: an entry occurs as often as in the store if the user owns it, and otherwise not at all. |
| Store.Database.CreateGoal | src/lib/db.ts:336-342 | Appends the goal as given. |
| Store.Database.UpdateGoal | src/lib/db.ts:344-354 | An unknown id answers `None` and changes nothing. Otherwise only the first goal with the id is merged, whoever owns it. |
| Store.Database.DeleteGoal | src/lib/db.ts:356-362 | Removes every goal with the id, whoever owns it. |
| Store.Database.GetWallets | src/lib/db.ts:364-367 | Exactly the user's wallets, in store order, with every copy of each: an entry occurs as often as in the store if the user owns it, and otherwise not at all. |
| Store.Database.CreateWallet | src/lib/db.ts:369-381 | Appends the stamped wallet. |
| Store.Database.UpdateWallet | src/lib/db.ts:383-393 | An unknown id answers `None` and changes nothing. Otherwise only the first wallet with the id is merged. |
| Store.Database.DeleteWallet | src/lib/db.ts:395-400 | Removes every wallet with the id. |
| Store.Stamped | src/lib/db.ts:185-190 | A stored transaction copies owner, amount, description, date, type, category and wallet from the input. It gets the fresh id and `now` as both creation and update time. |
| Store.StampedAll | src/lib/db.ts:195-206 | One stored transaction per input, in order, each with its own fresh id and `now` as both timestamps. |
| TransactionsRoute.BudgetVerdict | src/app/api/transactions/route.ts:42-57 | Over budget exactly when the transaction is an expense, and the first of the user's categories with that id has a truthy budget that the category's all-time total strictly exceeds. Only then is the name reported, and an unknown category is never over budget. |
| TransactionsRoute.Judge | src/app/api/transactions/route.ts:42-57 | The step-by-step nested checks compute exactly `BudgetVerdict`. |
| TransactionsRoute.Post | src/app/api/transactions/route.ts:28-59 | A missing or falsy field gives 400 and stores nothing. Otherwise the transaction is appended first, in one write, and the verdict is taken over the user's transactions including it. |
| TransactionsRoute.SpentAppend | src/app/api/transactions/route.ts:48-50 | The category total has no filter on type or period. Each transaction in the category adds its amount, and others add nothing. |
| TransactionsRoute.NewAmountCounted | src/app/api/transactions/route.ts:32-55 | The verdict is "previous total plus the new amount exceeds the budget". |
| TransactionsRoute.BudgetOverflowExample | src/app/api/transactions/route.ts:44-55 | A 500.00 budget with 450.00 spent, plus a 100.00 expense, is over budget and names the category. |
| BulkImport.InferKind | src/app/api/transactions/bulk/route.ts:33 | A type of income or expense is kept. Otherwise the result is expense exactly when the amount is a negative number. It is always one of the two. |
| BulkImport.CategoryFor | src/app/api/transactions/bulk/route.ts:27-35 | The first category whose lowercased name equals the row's lowercased category. Failing that the first category's id, and failing that the empty string. |
| BulkImport.MapRow | src/app/api/transactions/bulk/route.ts:29-36 | A mapped row is the session user's and has no wallet. Its description is never empty: the row's own, else "Imported Transaction". A non-numeric amount becomes 0 and a blank date becomes now. Its type is income or expense. With any categories it is filed under one of the user's categories, otherwise under "". |
| BulkImport.MapRows | src/app/api/transactions/bulk/route.ts:25-37 | One transaction per row, in row order. |
| BulkImport.MapAll | src/app/api/transactions/bulk/route.ts:25-37 | The `map` completes exactly when every row's date is blank or readable, and then yields one mapped transaction per row, in order. |
| BulkImport.ImportedRows | src/app/api/transactions/bulk/route.ts:25-41 | The stored rows are one per imported row, owned by the session user, without a wallet, with the inferred type and the matched category. |
| BulkImport.Post | src/app/api/transactions/bulk/route.ts:16-41 | A non-array or empty list gives 400 with no change. An unreadable date gives 500 with no change. Otherwise every row is appended in order in one write, and the count is the number of rows. |
| GoalsRoute.NewGoal | src/app/api/goals/route.ts:30-41 | A new goal is the user's and starts at zero progress. Its target is the number read from the body. Its colour is the given one, else the default "#3b82f6". |
| GoalsRoute.Create | src/app/api/goals/route.ts:26-44 | A missing name or a falsy target gives 400 and creates nothing. Otherwise exactly the new goal is appended. |
| GoalsRoute.Update | src/app/api/goals/route.ts:54-74 | No id gives 400. An id that is not among the user's goals gives 404 with no change. Otherwise the first goal with the id gets the body's fields. Its progress becomes the body's `currentAmount`, or stays at the user's goal's progress when the body has none. One write. |
| GoalsRoute.Delete | src/app/api/goals/route.ts:83-100 | No id gives 400. An id that is not among the user's goals gives 404 with no change. Otherwise every goal with the id is removed. |
| GoalsRoute.OwnedIsFirst | src/app/api/goals/route.ts:62-69 | With unique goal ids, the goal the store patches is the user's goal the route found. |
| GoalsRoute.UpdateKeepsOthers | src/app/api/goals/route.ts:62-72 | With unique ids and no `userId` in the update, other users' goals are unchanged by a PUT. |
| GoalsRoute.DeleteKeepsOthers | src/app/api/goals/route.ts:92-99 | With unique ids, other users' goals are unchanged by a DELETE. |
| Dashboard.SearchFilter | src/app/page.tsx:44-52 | An absent or empty query keeps everything. Otherwise the result keeps exactly the transactions whose description, amount string or category name contains the lowercased query, in order and with every copy of each. |
| Dashboard.DateFilter | src/app/page.tsx:55-81 | An absent or "all" range is the identity, and so is an unknown range. Otherwise the result keeps exactly the transactions on or after the cutoff, in order and with every copy of each. |
| Dashboard.Visible | src/app/page.tsx:44-81 | The transactions shown are an order-preserving selection of the user's transactions. A transaction is shown exactly when both the search and the date-range filter keep it, and then as many times as it occurs among the user's transactions. |
| Dashboard.BalanceIsSignedSum | src/app/page.tsx:83-91 | Balance, meaning income minus expenses, is the sum of incomes counted positive and expenses counted negative. |
| Dashboard.TotalPermutation | src/app/page.tsx:83-94 | Income and expense totals do not depend on the order of the transactions. |
| Dashboard.NewestFirst | src/app/page.tsx:94 | The sort is a permutation of the transactions, with dates in descending order. |
| Dashboard.NewestFirstStable | src/app/page.tsx:94 | Transactions with the same date keep their list order in the newest-first list. |
| Dashboard.RecentAreLatest | src/app/page.tsx:93-95 | At most five recent transactions, all among the input, newest first. No transaction left out is newer than one shown. |
| Dashboard.MonthlyExpenses | src/app/page.tsx:97-112 | The entries are exactly the months that have expenses, one per month, ordered by calendar month. Each total is that month's expenses, and the totals add up to `expenses`. |
| Dashboard.CategoryExpenses | src/app/page.tsx:114-126 | One entry per distinct category name, with "Unknown" for a missing category, in order of first occurrence. The totals add up to `expenses`. |
| Dashboard.BudgetData | src/app/page.tsx:128-141 | A permutation of the rows of the expense categories with a truthy budget, each row computed from its category alone, sorted by percentage, highest first. |
| Dashboard.BudgetDataStable | src/app/page.tsx:128-141 | Rows with equal percentages keep the order of their categories, because the sort is stable. |
| Dashboard.BudgetRows | src/app/page.tsx:128-139 | One row per expense category with a truthy budget, in category order, each computed from that category alone. |
| Dashboard.Chronological | src/app/page.tsx:144-145 | The expenses, sorted by date ascending. |
| Dashboard.ChronologicalStable | src/app/page.tsx:144-145 | Expenses with the same date keep their list order in the trend's oldest-first list. |
| Dashboard.TrendOf | src/app/page.tsx:146-156 | At most 30 entries, namely min(30, number of day groups). Labels are distinct and each total is that label's expenses. |
| Dashboard.TrendIsLatest | src/app/page.tsx:143-156 | The trend entries are the last groups in ascending first-date order, and every dropped group starts no later than every kept one. |
| Dashboard.SummaryConsistent | src/app/page.tsx:83-156 | The balance is the signed sum of the visible transactions. Both charts add up to `expenses`. At most 5 recent transactions and at most 30 trend points. |
| Dashboard.Home | src/app/page.tsx:26-156 | The recurrence engine runs first, with its full effect on the store. The page then shows exactly the summary of the user's updated transactions. |
| Dashboard.Render | src/app/page.tsx:41-156 | The step-by-step pipeline computes exactly `Summary`. |
| Dashboard.MonthlyChart | src/app/page.tsx:97-112 | The reducer loop followed by the month sort computes `MonthlyExpenses`. |
| Dashboard.TrendChart | src/app/page.tsx:143-156 | The sort, the reducer loop and the slice compute `TrendData`. |

## Left out

- File persistence is not modelled: `readDb`/`writeDb`, JSON parsing and the fallback to default data when the file is missing or corrupt (src/lib/db.ts:108-132). The store is an object in memory, and `writes` counts the write-backs.
- The `if (!data.goals)` and `if (!data.wallets)` guards for old data files are not modelled: the collections always exist.
- `Math.random()` ids are parameters. The recurrence engine takes one id per stored template, aligned by index, and uses the ids of the firing ones.
- The wall clock, time zones and locales are not modelled. The date-range cutoffs (today minus a week, month or year) are parameters, and `setMonth`/`setFullYear` overflow is outside the model. `Stamp` orders dates but ignores month lengths. Month names for the chart come from `Date.month` through a fixed table.
- `Dashboard.TrendOf`: the day labels carry month and day without the year, exactly as `toLocaleDateString(..., { month: 'short', day: 'numeric' })` does. So the same day in two years shares one trend entry; the model keeps that behaviour.
- JavaScript floating point and NaN are not modelled. Amounts are integers (cents) and percentages are exact reals. `Number()` or `parseFloat` of a non-numeric string is outside the model, except in the bulk import, where such a value is the `None` amount.
- The category chart's `color` field is a constant for display and is not modelled.
- Lowercasing is ASCII-only. The search matches amounts as `Number.prototype.toString` writes them in dollars (`12.5`), computed from whole cents.
- `Dashboard.NewestFirst`: the sort in place at page.tsx:94 is modelled by rebinding the list. Later stages see the date-descending order, but aliasing of the array is not modelled.
- Session checks (the 401 and redirect paths) and `NextResponse` plumbing beyond the status code are not modelled. The transaction and goal routes have no `catch`: a throw there, such as a malformed JSON body rejected by `req.json()`, reaches the framework's own 500, which is not modelled. The bulk route catches its own errors, and its 500 is modelled for an unreadable date.
- BulkImport.Post: rows are records whose fields have the types the model gives them. The mapping also throws, and answers 500, for a `null` row or a truthy `category` that is not a string, because `.toLowerCase` is then not a function. Those inputs are outside the model.
- Records.PatchTransaction: an update key that is present with the value `undefined` is treated as absent. The transaction PUT route always sends `amount`, `description`, `type` and `categoryId`, so a field missing from its body overwrites the stored field with `undefined`, or the amount with NaN. That route is not part of this model.
- Records.PatchCategory: the same holds for `name` and `type`, which the category PUT route always sends. Only `budget: undefined` is representable, as `Some(None)`.
- Records.PatchGoal: body keys that are not goal fields are also copied onto the stored goal by the spread, and field values of the wrong JSON type are stored as sent. The model carries only the goal's own fields, with their declared types.
- The GET goals handler is not modelled separately: it is `Store.Database.GetGoals`.
- The thin CRUD routes (wallets, categories, recurring templates, profile, register, security), the React components, the charts, currency formatting, OCR and CSV parsing are outside the core.
- Races between concurrent requests are not modelled: each operation is atomic.
