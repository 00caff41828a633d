# Budget core in Dafny

This project models the in-memory logic of a construction budget
application and proves properties of it. The application has six parts:

- **Budget service.** It creates project and expense records and computes a project's spent, remaining and percent-used figures. It groups expenses by category and by capital/resource type, and builds a portfolio report over an optional date range.
- **Risk and insight engine.** It classifies each project's budget risk and derives trend, category-concentration and portfolio insights. It ranks risks and recommendations by weighted scores, and computes a health score. It also makes a moving-average cash-flow forecast and analyses stock risk over the inventory.
- **Inventory service.** An object holding the list of stock items. It adds, updates, deletes and adjusts items, and provides statistics and search.
- **Project and expense store.** It holds the projects and expenses behind the budget pages. Deleting a project cascades to its expenses. After every expense change, a project's cached `spent` is re-summed.
- **Shared helpers.** These cover percentages, status classification, status colours, e-mail shape checking, truncation, `groupBy`, `sortBy` and the text of a CSV export.
- **Logger.** A bounded log buffer that keeps the last 100 entries.

How JavaScript values are represented:

- Money, quantities and percentages are `real` (exact arithmetic).
- Dates are integer day numbers.
- Ids and the current day are parameters, and so are the random draws of the forecast.
- An absent or falsy JavaScript value (`x || default`) is an `Option`, where `Some("")` and `Some(0.0)` count as falsy where the source tests truthiness.

Files:

| file | module | models |
|---|---|---|
| `seqs.dfy` | `Seqs` | `filter`, `reduce` sums, `findIndex` |
| `records.dfy` | `Records` | projects, expenses, per-project spend |
| `grouping.dfy` | `Grouping` | dictionaries built by `push`ing into `result[key]`, with keys in the order they were first met |
| `sorting.dfy` | `Sorting` | stable `Array.prototype.sort` by an integer key, on sequences and in place on an array |
| `budget_service.dfy` | `BudgetService` | `budgetService.js` |
| `ai_insights.dfy` | `AiInsights` | `aiInsightsService.js` |
| `inventory.dfy` | `Inventory` | `inventoryService.js`; class `InventoryService` |
| `budget_store.dfy` | `BudgetStore` | the store logic of `BudgetContext.js`; class `Store` |
| `helpers.dfy` | `Helpers` | `helpers.js` |
| `logging.dfy` | `Logging` | `logger.js`; class `Logger` |

Code that builds results step by step is modelled as methods with loops, proved against a specification function. This covers the `forEach` loops, the in-place sort, the pushes into result arrays, and the classes whose fields are replaced. The properties the source promises are then proved about those functions.

## Model

| member | source | states |
|---|---|---|
| BudgetService.CreateProject | Budget/src/services/budgetService.js:3-13 | `spent` starts at 0. A given id wins over the generated one. `status` is the given non-empty status, otherwise "planning". |
| BudgetService.CreateExpense | Budget/src/services/budgetService.js:15-24 | Every field is copied. `status` is the given non-empty status, otherwise "pending". |
| BudgetService.CalculateProjectBudget | Budget/src/services/budgetService.js:26-41 | `spent` is the sum of the project's expenses and `remaining = budget - spent`. `percentUsed` is the true percentage capped at 100. Over budget means strictly more spent than the budget; then the percentage is 100 and the remainder negative. |
| BudgetService.GetExpensesByCategory | Budget/src/services/budgetService.js:43-61 | The `forEach` over the expenses, creating or updating one group per expense, yields exactly `ByCategory(expenses)`. |
| BudgetService.ByCategorySpec | Budget/src/services/budgetService.js:43-61 | Exactly one group per category that occurs: the categories are distinct, every expense's category has a group, and every group has a positive count and the category of some expense. Each group holds exactly that category's expenses in input order, its count is their number and its total their sum. The counts add up to the number of expenses. |
| BudgetService.ByCategoryGroupsOccur | Budget/src/services/budgetService.js:46-54 | A group is opened only for an arriving expense: every group has a positive count and a category some expense has. |
| BudgetService.ByCategoryStep | Budget/src/services/budgetService.js:46-58 | One more expense adds its amount, 1 and itself to the existing group of its category, or appends a new group after the others. |
| BudgetService.ExistingCategoryStep | Budget/src/services/budgetService.js:55-57 | Pushing into an existing category changes that group's summary alone. |
| BudgetService.NewCategoryStep | Budget/src/services/budgetService.js:47-54 | A new category opens a group at the end, holding only that expense. |
| BudgetService.FindCategorySummaries | Budget/src/services/budgetService.js:47 | Looking up a category among the summaries finds the same position as among the raw groups. |
| BudgetService.SumCountsSummaries | Budget/src/services/budgetService.js:56 | The groups' counts add up to the number of grouped expenses. |
| BudgetService.GetExpensesByType | Budget/src/services/budgetService.js:63-77 | The loop yields `ByType`. It returns the error as soon as an expense of unknown type is met, as the source throws there. |
| BudgetService.ByTypeSpec | Budget/src/services/budgetService.js:63-77 | It succeeds if and only if every type is absent, empty, "capital" or "resource". Then `capital` holds exactly the capital expenses and `resource` all the others, in order, with their counts and totals. On failure, the error names a type that occurs. |
| BudgetService.ByTypeTotals | Budget/src/services/budgetService.js:69-74 | The two counts add up to the number of expenses, and the two totals to the overall sum. |
| BudgetService.FailurePersists | Budget/src/services/budgetService.js:69-74 | Once an expense of unknown type has thrown, the rest of the list does not change the outcome. |
| BudgetService.InRangeSpec | Budget/src/services/budgetService.js:80-88 | Dates are filtered only when both bounds are given. The filter keeps exactly the expenses dated within the inclusive bounds, and otherwise all of them. |
| BudgetService.GenerateReport | Budget/src/services/budgetService.js:79-109 | It fails exactly when the type breakdown throws. Otherwise: the totals are the summed budgets and the summed filtered amounts, with `totalRemaining` their difference; the percentage is defined exactly when there are projects; the counts are of projects and filtered expenses; the breakdowns are taken over the filtered expenses; and each project, in input order, carries its own figures over them. |
| AiInsights.RiskScore | Budget/src/services/aiInsightsService.js:135-139 | The score is level weight times impact weight, within 0..9. It is 0 exactly for an unknown level, and 9 exactly for a critical risk of high impact. |
| AiInsights.PriorityScore | Budget/src/services/aiInsightsService.js:141-144 | The score is at most 3, and 0 exactly for an unknown priority. |
| AiInsights.HealthScore | Budget/src/services/aiInsightsService.js:146-150 | The score always lies in [0, 100], and is 100 with no spend and no risk. |
| AiInsights.HealthScoreMonotone | Budget/src/services/aiInsightsService.js:146-150 | More spending or more risks never raise the score. |
| AiInsights.HealthScoreExact | Budget/src/services/aiInsightsService.js:146-150 | Inside its range, the score is the remaining percentage less 15 per risk. |
| AiInsights.Recent | Budget/src/services/aiInsightsService.js:44-46 | The recent window holds at most ten expenses, and all of them when there are fewer. |
| AiInsights.RecentWithin | Budget/src/services/aiInsightsService.js:44-46 | The recent window is drawn from the project's expenses. |
| AiInsights.RecentNewestFirst | Budget/src/services/aiInsightsService.js:45 | The recent window is ordered newest first. |
| AiInsights.RecentLatest | Budget/src/services/aiInsightsService.js:44-46 | No expense left out of the window is newer than one kept in it. |
| AiInsights.TrendSpec | Budget/src/services/aiInsightsService.js:48-61 | A trend insight appears if and only if there are at least five expenses and the projected spend `avg × 30/7` exceeds the remaining budget. It has confidence 75 and a positive overrun. |
| AiInsights.TopCategoryMaximal | Budget/src/services/aiInsightsService.js:78-80 | The `reduce` over the category keys ends on a category whose total is at least every total seen. |
| AiInsights.CategoryInsightOfSpec | Budget/src/services/aiInsightsService.js:73-90 | Over distinct categories, the insight appears if and only if some category total exceeds half the spend. It then names a category of largest total, with that total. |
| AiInsights.CategoryInsightSpec | Budget/src/services/aiInsightsService.js:44-90 | The same over the project's own expenses, grouped newest first because the recent-window sort works in place on them. A project without expenses gets no category insight. |
| AiInsights.CategoryTieNamesOlder | Budget/src/services/aiInsightsService.js:44-80 | With two categories tied for the top total, the one met last in newest-first order wins the `>` reduction. In the example that is the category of the older expense. |
| AiInsights.ProjectFindingsRisks | Budget/src/services/aiInsightsService.js:18-41 | The risk depends on the percentage used alone. The budget review is there exactly above 90 percent, and then it comes first. |
| AiInsights.PercentUsedThreshold | Budget/src/services/aiInsightsService.js:15 | The percentage passes a threshold exactly when the spend passes that share of the budget. |
| AiInsights.CriticalProjectSpec | Budget/src/services/aiInsightsService.js:18-32 | Above 90 percent there is one critical, high-impact risk, and the first recommendation is a high-priority budget review. |
| AiInsights.WarningProjectSpec | Budget/src/services/aiInsightsService.js:33-41 | Above 75 and at most 90 percent there is one warning of medium impact and no budget review. |
| AiInsights.QuietProjectSpec | Budget/src/services/aiInsightsService.js:18-41 | At most 75 percent there is no risk and no review. |
| AiInsights.ProjectRiskIff | Budget/src/services/aiInsightsService.js:18-41 | A project has a risk exactly when it has used more than 75 percent of its budget. |
| AiInsights.ProjectFindingsShape | Budget/src/services/aiInsightsService.js:12-91 | One project yields one critical or warning risk exactly above 75 percent, and never a portfolio insight or the fallback recommendation. |
| AiInsights.PushProjectRisk | Budget/src/services/aiInsightsService.js:18-41 | The risk block pushes the project's risk, and the review above 90 percent. |
| AiInsights.PushTrend | Budget/src/services/aiInsightsService.js:54-69 | The trend block pushes the insight and a cost-control recommendation together. |
| AiInsights.PushCategory | Budget/src/services/aiInsightsService.js:73-90 | The category block pushes the category insight of the project's expenses grouped in the order it is given, which is newest first, if there is one. |
| AiInsights.PushedFindings | Budget/src/services/aiInsightsService.js:12-91 | The three blocks, pushed in turn, append exactly one project's findings. |
| AiInsights.PushProjectFindings | Budget/src/services/aiInsightsService.js:12-91 | The `forEach` callback appends `ProjectFindings(p, expenses)` to the three lists. |
| AiInsights.CollectStep | Budget/src/services/aiInsightsService.js:12 | Walking one more project appends its findings to those of the projects before it. |
| AiInsights.CollectFindings | Budget/src/services/aiInsightsService.js:12-91 | The `forEach` over the projects collects the findings of every project, in project order. |
| AiInsights.CollectSpec | Budget/src/services/aiInsightsService.js:12-91 | There is exactly one risk per project at risk, all of them critical or warning. The projects contribute no portfolio insight and no fallback recommendation. |
| AiInsights.ConcludeAnalysis | Budget/src/services/aiInsightsService.js:93-122 | Pushing the portfolio insight, the fallback, the two sorts and the score yields `Conclude`. |
| AiInsights.ConcludeInsights | Budget/src/services/aiInsightsService.js:98-104 | Exactly one portfolio insight is appended after the collected ones, with `remaining = totalBudget - totalSpent`. |
| AiInsights.ConcludeRanking | Budget/src/services/aiInsightsService.js:107-120 | The fallback recommendation is added exactly when nothing is at risk. Every risk is kept, and the score lies in [0, 100]. |
| AiInsights.AnalyzeBudgetRisk | Budget/src/services/aiInsightsService.js:6-122 | The whole analysis yields `BudgetAnalysis(projects, expenses)`. |
| AiInsights.BudgetAnalysisSpec | Budget/src/services/aiInsightsService.js:6-122 | One portfolio insight comes last, with the portfolio's budget, spend and remainder. The fallback is there exactly when no risk is. There are no risks exactly when no project is above 75 percent, and the risk count is the number of projects at risk. The score lies in [0, 100]. |
| AiInsights.BudgetAnalysisRanking | Budget/src/services/aiInsightsService.js:116-119 | Risks come out by non-increasing score and recommendations by non-increasing priority. Each is a permutation of what was collected, and equal scores keep collection order. |
| AiInsights.Latest | Budget/src/services/aiInsightsService.js:155-157 | The window holds the last thirty expenses, or all of them when there are fewer. |
| AiInsights.LatestWithin | Budget/src/services/aiInsightsService.js:155-157 | The forecast window is drawn from the expenses. |
| AiInsights.LatestLatest | Budget/src/services/aiInsightsService.js:155-157 | Nothing left out of the window is dated after anything kept. |
| AiInsights.Average | Budget/src/services/aiInsightsService.js:163 | The average times the window size is the window's total. |
| AiInsights.DayWithinBand | Budget/src/services/aiInsightsService.js:171-172 | A draw in [0, 1) keeps a day's amount within 20 percent of a non-negative average. |
| AiInsights.ConfidenceBounds | Budget/src/services/aiInsightsService.js:177 | From day 1 on, confidence lies in [60, 93.5] and never rises. |
| AiInsights.CashFlowSome | Budget/src/services/aiInsightsService.js:163-186 | With seven or more expenses in the window, the forecast is the day list, the average and their product. |
| AiInsights.CashFlowSpec | Budget/src/services/aiInsightsService.js:152-186 | There is no forecast from fewer than seven expenses. Otherwise there is one entry per day ahead, for consecutive days, with confidence non-increasing and within [60, 93.5]. Amounts stay within 20 percent of a non-negative average when the draws lie in [0, 1). The total is average times days. |
| AiInsights.ForecastDays | Budget/src/services/aiInsightsService.js:166-179 | The `for` loop over days 1..daysAhead yields `Days(...)`. |
| AiInsights.PredictCashFlow | Budget/src/services/aiInsightsService.js:152-186 | It sorts the caller's array in place, stably by date, and returns `CashFlow` of the sorted array. The horizon defaults to 30 days. |
| AiInsights.Names | Budget/src/services/aiInsightsService.js:211 | `items.map(i => i.name)`: one name per item, in order. |
| AiInsights.MeanValue | Budget/src/services/aiInsightsService.js:237 | The mean value is taken over all items, active or not. |
| AiInsights.OverstockedSpec | Budget/src/services/aiInsightsService.js:237-238 | The overstocked items are exactly the items worth more than three times the mean, in order. |
| AiInsights.StockRisksSpec | Budget/src/services/aiInsightsService.js:206-234 | The critical risk is there exactly when something is out of stock, and comes first. The warning is there exactly when something is low. |
| AiInsights.StockRecommendationsSpec | Budget/src/services/aiInsightsService.js:206-246 | The reorder, the replenishment and the optimization are each there exactly when their list is non-empty. |
| AiInsights.InventoryRisksSpec | Budget/src/services/aiInsightsService.js:198-234 | The counts are those of active low-stock and active out-of-stock items. The critical risk naming every out-of-stock item is there exactly when one exists, and comes first. The warning naming every low-stock item likewise. |
| AiInsights.InventoryRecommendationsSpec | Budget/src/services/aiInsightsService.js:206-246 | The reorder names every out-of-stock item and is there exactly when one exists. So are the replenishment for low stock and the optimization naming the overstocked items. |
| AiInsights.AnalyzeInventoryRisk | Budget/src/services/aiInsightsService.js:193-253 | The pushes yield `InventoryAnalysis(items)`. |
| AiInsights.OutOfStockIsLowStock | Budget/src/services/aiInsightsService.js:198-204 | With non-negative reorder levels, every out-of-stock item is also low-stock, so its count is never larger. |
| Inventory.NewItem | Budget/src/services/inventoryService.js:49-59 | `totalValue = quantity × unitPrice`. A given non-zero quantity, price and reorder level are kept; otherwise they become 0, 0 and 10. A given non-empty status is kept, otherwise it is "active". A given id wins over the generated one. Name, description, sku and category are copied. No adjustment is recorded. |
| Inventory.Updated | Budget/src/services/inventoryService.js:76-86 | The value is recomputed. A missing, non-numeric or zero quantity or price keeps the old one. The id is kept. Each other field takes the given value and otherwise keeps the old one. |
| Inventory.AdjustToZeroKeepsStock | Budget/src/services/inventoryService.js:71-129 | An adjustment of -5 on 5 units leaves 5 units, not 0. A later +5 then gives 10. |
| Inventory.Adjusted | Budget/src/services/inventoryService.js:116-129 | The corrected adjustment: quantity becomes `old + adjustment`, zero included. The value is recomputed and the adjustment recorded. |
| Inventory.AdjustRoundTrip | Budget/src/services/inventoryService.js:116-129 | Adjusting by an amount and then by its negation restores quantity and value. |
| Inventory.AdjustedAgreesAwayFromZero | Budget/src/services/inventoryService.js:71-129 | Wherever the new quantity is not zero, the written and the corrected adjustment agree. |
| Inventory.LowStockItemsSpec | Budget/src/services/inventoryService.js:43-45 | The low-stock items are exactly the active items at or below the fixed threshold, in order. |
| Inventory.StockLines | Budget/src/services/inventoryService.js:142-154 | One breakdown line per category group, in the order the categories were first met. |
| Inventory.FindStockLines | Budget/src/services/inventoryService.js:144 | Looking up a category among the lines finds the same position as among the groups. |
| Inventory.BreakdownStep | Budget/src/services/inventoryService.js:143-154 | One more active item is counted into its category's line, or opens a new line at the end. |
| Inventory.ExistingStockStep | Budget/src/services/inventoryService.js:151-153 | Counting into an existing line changes that line alone. |
| Inventory.NewStockStep | Budget/src/services/inventoryService.js:144-150 | A new category opens a line at the end holding that item alone. |
| Inventory.SumStockCountsGroups | Budget/src/services/inventoryService.js:151 | The lines' counts add up to the number of grouped items. |
| Inventory.FillBreakdown | Budget/src/services/inventoryService.js:142-154 | The `forEach` that fills the breakdown yields `Breakdown(active)`. |
| Inventory.InventoryStatsSpec | Budget/src/services/inventoryService.js:136-164 | It counts and values active items only. Out of stock means active with quantity 0, and the average is 0 with no active item. There is one line per category of active item and no other: every line has a positive count, with exactly that category's count, value and quantity, and the counts add up to `totalItems`. |
| Inventory.OutOfStockIsLowStock | Budget/src/services/inventoryService.js:139-140 | Every active item with no stock is also counted as low stock. |
| Inventory.LowerIdempotent | Budget/src/services/inventoryService.js:167 | Lower-casing twice is lower-casing once. |
| Inventory.SearchSpec | Budget/src/services/inventoryService.js:166-174 | The result is exactly the items whose name, description, sku or category contains the query, in list order. Case does not matter, and the empty query returns every item. |
| Inventory.InventoryService.constructor | Budget/src/services/inventoryService.js:7-9 | The service starts from the stored list. |
| Inventory.InventoryService.GetItemById | Budget/src/services/inventoryService.js:35-37 | Nothing exactly when no item has the id. Otherwise the first item of the list with that id. |
| Inventory.InventoryService.AddItem | Budget/src/services/inventoryService.js:47-64 | Exactly one new item is appended, and the others are untouched. The value invariant is kept. |
| Inventory.InventoryService.UpdateItem | Budget/src/services/inventoryService.js:71-92 | An unknown id returns nothing and changes nothing. Otherwise only the first item with the id is replaced, in place, by `Updated`. The value invariant is kept. |
| Inventory.InventoryService.DeleteItem | Budget/src/services/inventoryService.js:99-104 | Every item with the id is removed and the others kept in order. It returns true even for an absent id. The value invariant is kept. |
| Inventory.InventoryService.AdjustStock | Budget/src/services/inventoryService.js:111-129 | The corrected adjustment (Findings row 1). An unknown id, or a result below zero, changes nothing. Otherwise the first item with the id gets quantity `old + adjustment`, zero included. It keeps the value invariant and non-negative stock. |
| Inventory.InventoryService.GetInventoryStats | Budget/src/services/inventoryService.js:136-164 | It returns `InventoryStats(items)`. |
| BudgetStore.Store.constructor | Budget/src/context/BudgetContext.js:26-31 | `loadData`: the store starts from the stored lists. |
| BudgetStore.AfterAddProject | Budget/src/context/BudgetContext.js:34-41 | The created project is appended, and the existing ones are unchanged. |
| BudgetStore.AddProjectKeepsConsistent | Budget/src/context/BudgetContext.js:34-41 | A new project whose id no expense names keeps every cached `spent` equal to its expenses' sum. |
| BudgetStore.Store.AddProject | Budget/src/context/BudgetContext.js:34-41 | The created project goes at the end, and the expenses are untouched. |
| BudgetStore.UpdateProjectsSpec | Budget/src/context/BudgetContext.js:48-54 | Length and order are kept. Only projects with the id get the merged fields, and they keep their id. |
| BudgetStore.UpdateProjectUnknown | Budget/src/context/BudgetContext.js:48-54 | An unknown id changes nothing. |
| BudgetStore.UpdateProjectKeepsConsistent | Budget/src/context/BudgetContext.js:48-54 | Merging fields other than `spent` keeps every cached sum. |
| BudgetStore.Store.UpdateProject | Budget/src/context/BudgetContext.js:48-54 | The projects become `UpdateProjects(...)`, and the expenses are untouched. |
| BudgetStore.DeleteProjectSpec | Budget/src/context/BudgetContext.js:62-69 | No project has the id and no expense names it. Every other project and expense stays. A consistent store stays consistent. |
| BudgetStore.Store.DeleteProject | Budget/src/context/BudgetContext.js:62-69 | The store becomes `AfterDeleteProject(...)`. |
| BudgetStore.ResumConsistent | Budget/src/context/BudgetContext.js:88-90 | Re-summing one project makes the store consistent when all the others already were. |
| BudgetStore.SpentOnAppend | Budget/src/context/BudgetContext.js:88-89 | Appending an expense adds its amount to its own project's spend only. |
| BudgetStore.AddExpenseSpec | Budget/src/context/BudgetContext.js:78-91 | The expense is appended and the store stays consistent. Its project's `spent` grows by the amount, and every other project is unchanged. |
| BudgetStore.Store.AddExpense | Budget/src/context/BudgetContext.js:78-94 | The store becomes `AfterAddExpense(...)`. |
| BudgetStore.MovedExpenseLeavesStaleSpent | Budget/src/context/BudgetContext.js:101-115 | As written, moving the only expense of p1 to p2 leaves p2's `spent` at 0 while its expenses sum to 10. |
| BudgetStore.UpdateExpensesOther | Budget/src/context/BudgetContext.js:103-105 | With unique ids, an update changes the spend of no project other than the expense's old and new ones. |
| BudgetStore.UpdateExpenseKeepsConsistent | Budget/src/context/BudgetContext.js:101-115 | The corrected update, which re-sums both the old and the new project, keeps the store consistent and the ids unique. |
| BudgetStore.Store.UpdateExpense | Budget/src/context/BudgetContext.js:101-115 | The store becomes `AfterUpdateExpense(...)`, the corrected update. |
| BudgetStore.DeleteExpenseSpec | Budget/src/context/BudgetContext.js:124-136 | Exactly the expenses with the id go and all others stay. An unknown id changes nothing at all. |
| BudgetStore.DeleteExpenseKeepsConsistent | Budget/src/context/BudgetContext.js:124-136 | With unique ids, re-summing the former project keeps the store consistent. |
| BudgetStore.Store.DeleteExpense | Budget/src/context/BudgetContext.js:124-136 | The store becomes `AfterDeleteExpense(...)`. |
| BudgetStore.Store.GetProjectById | Budget/src/context/BudgetContext.js:146 | Nothing exactly when no project has the id. Otherwise the first project of the list with that id. |
| BudgetStore.Store.GetProjectExpenses | Budget/src/context/BudgetContext.js:148-149 | Exactly the expenses with that project id. |
| BudgetStore.ProjectStatsOf | Budget/src/context/BudgetContext.js:151-167 | Nothing exactly for an unknown project. Otherwise, for the first project with the id: its expense sum and count, `remaining = budget - totalSpent`, and an uncapped percentage. Only that project's budget must be positive. |
| BudgetStore.ProjectStatsAgree | Budget/src/context/BudgetContext.js:151-167 | The stats agree with `calculateProjectBudget`, whose percentage is theirs capped at 100; above budget the stats exceed 100. In a consistent store the total is the cached `spent`. |
| Helpers.Round | Budget/src/utils/helpers.js:36 | `Math.round`: the integer nearest to x, halves rounded up. |
| Helpers.CalculatePercentage | Budget/src/utils/helpers.js:34-37 | 0 for a zero total, otherwise the rounded percentage. |
| Helpers.PercentageBounds | Budget/src/utils/helpers.js:34-37 | A part of a positive whole is between 0 and 100 percent. |
| Helpers.GetStatusColor | Budget/src/utils/helpers.js:39-51 | Each colour is returned exactly for its statuses, and "info" for every other status. |
| Helpers.GetBudgetStatus | Budget/src/utils/helpers.js:53-59 | For a positive budget: Over Budget if and only if spent ≥ budget; Near Limit in [90%, 100%); High Usage in [75%, 90%); On Track below 75%. For a zero budget (the dashboard total of an empty portfolio), where the percentage is Infinity or NaN: Over Budget if and only if something was spent, otherwise On Track. For a negative budget the same thresholds, with every comparison turned round. |
| Helpers.ScanClassify | Budget/src/utils/helpers.js:62 | The left-to-right scan of the regular expression's automaton ends in the state the text's structure determines. |
| Helpers.ClassifyStep | Budget/src/utils/helpers.js:62 | Classifying one more character is one scan step. |
| Helpers.DomainStateStep | Budget/src/utils/helpers.js:62 | Classifying one more domain character is one domain step. |
| Helpers.ValidateEmailSpec | Budget/src/utils/helpers.js:61-64 | The check accepts exactly the texts of `^[^\s@]+@[^\s@]+\.[^\s@]+$`. |
| Helpers.ValidateEmailSound | Budget/src/utils/helpers.js:61-64 | Every accepted text has that shape. |
| Helpers.ValidateEmailComplete | Budget/src/utils/helpers.js:61-64 | Every text of that shape is accepted. |
| Helpers.ValidateEmailAccepts | Budget/src/utils/helpers.js:62 | "a@b.c" and "a@b.." are accepted. |
| Helpers.ValidateEmailRejects | Budget/src/utils/helpers.js:62 | "a@b", "a@@b.c" and "a b@c.d" are rejected. |
| Helpers.TruncateText | Budget/src/utils/helpers.js:71-74 | An empty or short enough text comes back unchanged. Otherwise the result is its first `maxLength` characters (none for a negative length) followed by "...". `maxLength` defaults to 50. |
| Helpers.TruncateIdempotent | Budget/src/utils/helpers.js:71-74 | Truncating a truncated text changes nothing. |
| Helpers.GroupBy | Budget/src/utils/helpers.js:88-97 | The `reduce` pushing into the accumulator yields `Group(items, key)`. |
| Grouping.GroupSpec | Budget/src/utils/helpers.js:88-97 | One group per key that occurs and no other: the keys are distinct, every item's key has a group, and every group is non-empty with a key some item has. Each group holds exactly the items with its key, in input order. |
| Grouping.GroupTotalSize | Budget/src/utils/helpers.js:88-97 | Grouping neither loses nor duplicates items. |
| Grouping.GroupPrefixStep | Budget/src/utils/helpers.js:89-95 | One more item is one more push into its key's group. |
| Helpers.SortBySpec | Budget/src/utils/helpers.js:99-110 | The result is a permutation of the input, ascending for "asc" and descending otherwise, and equal keys keep their order. |
| Sorting.StableSortPermutes | Budget/src/utils/helpers.js:100 | The sort is a permutation. |
| Sorting.StableSortSorted | Budget/src/utils/helpers.js:100-105 | The sort is ascending. |
| Sorting.StableSortStable | Budget/src/utils/helpers.js:100 | The sort is stable. |
| Sorting.SortInPlace | Budget/src/services/aiInsightsService.js:155-156 | Sorting an array in place leaves the stable sort of its old contents. |
| Sorting.InsertInPlace | Budget/src/services/aiInsightsService.js:155-156 | Shifting one element into a sorted prefix is `Insert` on that prefix, and nothing after it moves. |
| Helpers.UndoubleDoubleQuotes | Budget/src/utils/helpers.js:132 | Doubling the quotes of a string can be undone. |
| Helpers.EscapeFieldSpec | Budget/src/utils/helpers.js:128-134 | A string cell reads back as the same string. It is written unchanged exactly when it holds neither ',' nor '"' (section 2, rule 7 of RFC 4180). |
| Helpers.LineBreakNotQuoted | Budget/src/utils/helpers.js:131 | A line break alone does not cause quoting, unlike rule 6 of RFC 4180. |
| Helpers.CsvText | Budget/src/utils/helpers.js:121-137 | No text for empty data. |
| Helpers.CsvLineCount | Budget/src/utils/helpers.js:121-137 | Without line breaks in keys and cells, the text has one line break per data row: a header line plus one line per row. |
| Logging.Retained | Budget/src/services/logger.js:6-24 | The buffer keeps at most 100 entries: the last 100, or all of them when there are fewer. |
| Logging.RetainedStep | Budget/src/services/logger.js:19-24 | Push then shift on overflow keeps exactly the last 100 entries of the history. |
| Logging.SelectLogsSpec | Budget/src/services/logger.js:54-59 | With a level, exactly that level's entries are returned; with none or an empty level, the whole buffer. |
| Logging.SelectLogsAppend | Budget/src/services/logger.js:54-59 | Selecting by level keeps buffer order. |
| Logging.Logger.constructor | Budget/src/services/logger.js:3-7 | The buffer starts empty. |
| Logging.Logger.Log | Budget/src/services/logger.js:9-34 | Exactly one entry is appended at the end. The buffer stays within 100 entries, dropping only the oldest on overflow. |
| Logging.Logger.Info | Budget/src/services/logger.js:36-38 | It records one "info" entry. |
| Logging.Logger.Warn | Budget/src/services/logger.js:40-42 | It records one "warn" entry. |
| Logging.Logger.Error | Budget/src/services/logger.js:44-46 | It records one "error" entry. |
| Logging.Logger.Debug | Budget/src/services/logger.js:48-52 | It records a "debug" entry only in development mode, and otherwise changes nothing. |
| Logging.Logger.ClearLogs | Budget/src/services/logger.js:61-63 | The buffer becomes empty. |

## Left out

- React state, hooks, `selectedProject`/`loading`, toasts and the `useBudget` guard are not modelled. The store is a class with two fields.
- Persistence through `storageService` (`loadItems`, `saveItems`, the store setters) is a plain in-memory assignment that always succeeds. The catch-and-log error paths (`return null`/`false`, rethrow) are therefore not modelled.
- `Date.now()`/`Math.random()` ids, `new Date()` timestamps (`createdAt`, `updatedAt`, the analysis timestamp) and the forecast's calendar dates are not modelled. Ids, today's day number and the forecast's random draws are parameters.
- Dates are integer day numbers. Parsing of date strings (`new Date(e.date)`) is not modelled.
- Floating-point arithmetic, `NaN` and `Infinity` are not modelled. Amounts are exact reals. Where the source divides by a budget or a total budget, the model requires it to be positive, or returns no percentage for an empty project list. `Helpers.GetBudgetStatus` is the exception: it models the zero budget through the label that Infinity or NaN produces.
- Message texts, `toFixed` formatting and suggestion strings are not modelled. Risks, insights and recommendations keep their level, impact, priority, action, project and numeric fields.
- Lower-casing in search is ASCII only; JavaScript's full Unicode `toLowerCase` is not modelled.
- JavaScript object keys inherited from `Object.prototype` (a category or status called "constructor", say) are not modelled in `groupBy`, `getExpensesByCategory`, `getStatusColor` or the category lookup.
- `sortBy` and the date sorts use integer keys and a stable sort. Comparisons of mixed or non-numeric values are not modelled.
- The category totals of `analyzeBudgetRisk` (`categorySpending`) are taken from the same grouping as `getExpensesByCategory`, applied to the project's expenses newest first. The totals are equal to the source's, and so is the order of the keys, apart from integer-like keys (next line).
- Dictionary key order: every dictionary keeps its keys in the order they were first met, integer-like keys included. JavaScript enumerates integer-like keys ("2", "10") first, in ascending numeric order. This affects the order of `getExpensesByCategory`'s groups, of the inventory `categoryBreakdown`, of `groupBy` and of the keys in the top-category reduction.
- `Helpers.TruncateText`: lengths and prefixes count Unicode scalar values, not UTF-16 code units as JavaScript's `length` and `substring` do. A text with characters outside the Basic Multilingual Plane can therefore be cut at a different place, or not at all.
- `getAllItems` and `getItemsByProject` are not modelled; they return the list or a plain filter of it.
- Logger: console output, `exportLogs`, `sendToLoggingService`, the global error listeners and the `navigator`/`window` fields are not modelled. The `data` payload is a string.
- The CSV download (Blob, anchor and click) is not modelled, and neither is the form of non-string cells; only the text is.
- `AiInsights.PredictCashFlow`: requires at least `daysAhead` random draws.
- `validatePhone`, `debounce`, `filterByDateRange`, `generateId`, `getDateRangePreset` and the formatting helpers are not part of this model.

## Findings

| source | as written | input that shows it | evidently intended | confidence | as-written member | corrected member |
|---|---|---|---|---|---|---|
| Budget/src/services/inventoryService.js:71-129 | `adjustStock` passes `old + adjustment` through `updateItem`, whose `parseFloat(q) \|\| old` treats 0 as missing | an item with quantity 5 adjusted by -5 keeps quantity 5 (and value 10) | quantity becomes 0 and the stock round-trips | not executed | Inventory.AdjustToZeroKeepsStock | Inventory.AdjustRoundTrip |
| Budget/src/context/BudgetContext.js:101-115 | `updateExpense` re-sums only the project the expense belonged to before the update | moving expense e1 (10.0) from p1 to p2 leaves p2's `spent` at 0 while its expenses sum to 10 | both the old and the new project are re-summed, so every cached `spent` stays the sum of its expenses | not executed | BudgetStore.MovedExpenseLeavesStaleSpent | BudgetStore.UpdateExpenseKeepsConsistent |
