# BetterFinance ledger and plan engine in Dafny

This project models the backend of BetterFinance, a personal-finance application. Three kinds of stored data are covered:

- A **monthly record** holds one month's balance sheet and cash flow. It has four ordered lists of lines (assets, liabilities, incomes, expenses), the four totals derived from them, net worth and surplus. An expense line may be charged to a budget line.
- An **annual plan** holds one year's asset and liability targets, planned incomes and budget lines, and its monthly and annual surplus.
- A **budget line** (`AnnualExpense`) has a remaining amount and an execution rate.

On top of these the model covers:

- the query and bulk-update semantics of the repositories, modelled on an in-memory store (`Repositories.Database`);
- the three services: plan create-or-update and summary, monthly record create/update/delete with carry-forward and the previous-month template, and the dashboard figures;
- the import service: the CSV section state machine that fills a month, the four Excel sheet importers over already-extracted cell text, and the label parsers.

## How the model is built

- **Money** is `real`. BigDecimal addition, subtraction and multiplication are exact, so totals and sums are exact rationals.
- **Rounding.** The one rounding operation, `divide(d, 4, HALF_UP)`, is `DecimalMath.Round4`, written out as half-up rounding to four places. A rate shown as a percentage is `DecimalMath.RatePercent`.
- **Entities the services mutate are classes.** `MonthlyRecordEntity.MonthlyRecord` and `PlanEntities.AnnualBalancePlan` have the source's fields and `add…` methods. Their state as a value (`Data()`) is what a repository stores.
- **The store is the class `Repositories.Database`.** It holds the stored records and plans and the next identity value. `Valid()` is the invariant the stored rows keep:
  - unique record ids;
  - at most one record per (year, month), the unique constraint of `MonthlyRecord.java:10`;
  - one plan per year;
  - every stored id and every budget-line reference below the next id.
- **Saving** gives every id-less row and line the next identity values (`WithIds`, `PlanWithIds`) and inserts or replaces the row (`UpsertRecord`, `UpsertPlan`).
- **Failures.** `EntityNotFoundException` and `IllegalArgumentException` are modelled as `Err(NotFound)` and `Err(AlreadyExists)` of `Wrappers.Result`.
- **Nulls.** A Java `null` is `None`. A field that every producer sets (an entity's `isMonthly`, amounts validated as non-null) is a plain value. Request fields the service defaults (`sortOrder` to 0, `isMonthly` to true) are `Option`s, and the defaults are applied where the source applies them.
- **Spreadsheets and CSV reach the model as text.**
  - A CSV file is its rows, already split into cells.
  - A workbook is a map from sheet name to rows of optional cell text.
- **Test suites.** Where the two service test suites disagree with the service code, the model follows the code, and the tests are not modelled. `AnnualPlanServiceTest.java:166,191,209,225` expect surpluses of 1.5, 24, −1 and 2.5, from an older formula that subtracts liability payments. `MonthlyRecordServiceTest.java:335-336` expect a template with zero amounts, where `MonthlyRecordService.java:103-107` keeps them. What the model proves instead:
  - the service's own test plan gives −2.5 / −30 / −24 (`AnnualPlanService.SurplusOfServiceTestPlan`);
  - the template keeps the previous month's amounts (`MonthlyRecordService.TemplateKeepsAmounts`).

## Model

| member | source | states |
|---|---|---|
| MonthlyRecordEntity.MonthlyRecord.constructor | finance-backend/src/main/java/com/finance/entity/MonthlyRecord.java:23-52 | A new record of a period has all four totals ZERO, no summary, no id and four empty lists |
| MonthlyRecordEntity.MonthlyRecord.AddAssetDetail | finance-backend/src/main/java/com/finance/entity/MonthlyRecord.java:115-118 | The line is appended at the end of the asset list; every other field and list is unchanged |
| MonthlyRecordEntity.MonthlyRecord.AddLiabilityDetail | finance-backend/src/main/java/com/finance/entity/MonthlyRecord.java:120-123 | The line is appended at the end of the liability list; nothing else changes |
| MonthlyRecordEntity.MonthlyRecord.AddIncomeDetail | finance-backend/src/main/java/com/finance/entity/MonthlyRecord.java:125-128 | The line is appended at the end of the income list; nothing else changes |
| MonthlyRecordEntity.MonthlyRecord.AddExpenseDetail | finance-backend/src/main/java/com/finance/entity/MonthlyRecord.java:130-133 | The line is appended at the end of the expense list; nothing else changes |
| MonthlyRecordEntity.MonthlyRecord.ClearDetails | finance-backend/src/main/java/com/finance/service/MonthlyRecordService.java:72-75 | The four lists are emptied; id, period, totals and summary are unchanged |
| MonthlyRecordEntity.MonthlyRecord.RecalculateTotals | finance-backend/src/main/java/com/finance/entity/MonthlyRecord.java:143-156 | Afterwards each total is the sum of the amounts of its own list, and only the four totals change |
| MonthlyRecordEntity.MonthlyRecordData.Recalculated | finance-backend/src/main/java/com/finance/entity/MonthlyRecord.java:135-156 | The recalculated totals are consistent with the lists; net worth is their asset sum less their liability sum and surplus their income sum less their expense sum; nothing but the totals differs |
| MonthlyRecordEntity.RecalculateIdempotent | finance-backend/src/main/java/com/finance/entity/MonthlyRecord.java:143-156 | Recalculating twice gives what recalculating once gives, and a record whose totals are already consistent is unchanged |
| MonthlyRecordEntity.EmptyRecordTotalsZero | finance-backend/src/main/java/com/finance/entity/MonthlyRecord.java:143-156 | With four empty lists all four totals, net worth and surplus are zero, since ZERO is the identity of the reductions |
| AnnualExpenseEntity.AnnualExpense.RemainingAmount | finance-backend/src/main/java/com/finance/entity/AnnualExpense.java:64-66 | Remaining plus spent (null read as zero) is the budget, and the remainder is negative exactly when more than the budget is spent |
| AnnualExpenseEntity.AnnualExpense.ExecutionRate | finance-backend/src/main/java/com/finance/entity/AnnualExpense.java:68-74 | A zero budget gives 0. A non-zero budget (negative ones too) with a null spent amount fails as the null dereference does. Otherwise the rate is within 0.005 of the exact percentage spent/budget × 100 |
| AnnualExpenseEntity.RateAgreesWithRemaining | finance-backend/src/main/java/com/finance/entity/AnnualExpense.java:64-74 | For a positive budget: a used-up budget (remaining ≤ 0) shows at least 100 percent, one not exceeded shows between 0 and 100, so the rate is never clamped |
| DecimalMath.Round4 | finance-backend/src/main/java/com/finance/entity/AnnualExpense.java:72 | The unscaled four-place result is the nearest integer to x·10000, ties away from zero (HALF_UP) |
| DecimalMath.Round4Monotone | finance-backend/src/main/java/com/finance/entity/AnnualExpense.java:72 | Rounding half-up never reverses the order of two quotients |
| DecimalMath.Round4Exact | finance-backend/src/main/java/com/finance/entity/AnnualExpense.java:72 | A value that already has four fractional digits is left unchanged by the rounding |
| DecimalMath.RatePercent | finance-backend/src/main/java/com/finance/entity/AnnualExpense.java:72-73 | `n.divide(d, 4, HALF_UP) × 100` is within 0.005 of 100·n/d and is a whole number of hundredths |
| DecimalMath.RatePercentOfZero | finance-backend/src/main/java/com/finance/service/DashboardService.java:268-271 | Nothing spent gives a share of exactly 0 |
| DecimalMath.RatePercentAgainstWhole | finance-backend/src/main/java/com/finance/entity/AnnualExpense.java:72-73 | For a positive divisor, reaching it shows at least 100 percent and staying within [0, d] shows between 0 and 100 percent |
| Repositories.IndexOfRecord | finance-backend/src/main/java/com/finance/service/MonthlyRecordService.java:66-67 | No index iff no stored record has the id; a found index holds that id |
| Repositories.FindRecordById | finance-backend/src/main/java/com/finance/service/MonthlyRecordService.java:66-67 | `findById`: empty iff no stored record has the id; a found record is stored and has the id |
| Repositories.FindByYearAndMonth | finance-backend/src/main/java/com/finance/repository/MonthlyRecordRepository.java:14 | Empty iff no stored record has the period; a found record is stored and has that period |
| Repositories.ExistsByYearAndMonth | finance-backend/src/main/java/com/finance/repository/MonthlyRecordRepository.java:16 | True iff some stored record has the year and month |
| Repositories.RecordsOfYear | finance-backend/src/main/java/com/finance/repository/MonthlyRecordRepository.java:15 | Holds exactly the stored records of the year |
| Repositories.FindByYearOrderByMonthAsc | finance-backend/src/main/java/com/finance/repository/MonthlyRecordRepository.java:15 | Sorted by month ascending, a permutation of the year's records, and holding exactly the stored records of the year |
| Repositories.IndexOfPlan | finance-backend/src/main/java/com/finance/repository/AnnualBalancePlanRepository.java:11 | No index iff no stored plan has the year; a found index holds a plan of that year |
| Repositories.FindPlanByYear | finance-backend/src/main/java/com/finance/repository/AnnualBalancePlanRepository.java:11 | `findByYear`: empty iff no stored plan has the year; a found plan is stored and has that year |
| Repositories.FindExpenseIn | finance-backend/src/main/java/com/finance/service/MonthlyRecordService.java:215-218 | Empty iff no budget line of the list has the id; a found line is in the list and has the id |
| Repositories.FindAnnualExpenseById | finance-backend/src/main/java/com/finance/service/MonthlyRecordService.java:215-218 | `annualExpenseRepository.findById`: empty iff no budget line of any stored plan has the id; a found line has the id and is a budget line of a stored plan |
| Repositories.AssetsOfGroup | finance-backend/src/main/java/com/finance/repository/MonthlyAssetDetailRepository.java:18-19 | Holds exactly the record's asset lines of the group |
| Repositories.SumAmountByGroup | finance-backend/src/main/java/com/finance/repository/MonthlyAssetDetailRepository.java:18-19 | SQL `SUM`: null iff the record has no line in the group; otherwise the sum of the amounts of the group's lines |
| Repositories.ClearLines | finance-backend/src/main/java/com/finance/repository/MonthlyExpenseDetailRepository.java:24-26 | The lines keep their order and count, and each is the line with its reference cleared when it points at one of the ids |
| Repositories.LinkedLinesEmptyIff | finance-backend/src/main/java/com/finance/repository/MonthlyExpenseDetailRepository.java:18-19 | No line is charged to the budget line iff no line references its id |
| Repositories.YearSumNullIff | finance-backend/src/main/java/com/finance/repository/MonthlyExpenseDetailRepository.java:21-22 | `sumAmountByAnnualExpenseIdAndYear` is null iff no expense line of a record of that year references the id |
| Repositories.YearSumAppend | finance-backend/src/main/java/com/finance/repository/MonthlyExpenseDetailRepository.java:21-22 | One more record adds the amounts of its lines charged to the id when it is of the year, and nothing when it is of another year |
| Repositories.AllYearsSumAppend | finance-backend/src/main/java/com/finance/repository/MonthlyExpenseDetailRepository.java:18-19 | The unfiltered sum counts a further record's charged lines whatever its year |
| Repositories.LinkedLinesOfCleared | finance-backend/src/main/java/com/finance/repository/MonthlyExpenseDetailRepository.java:24-26 | After clearing, no line of a record is charged to a cleared id, and the lines charged to any other id are as before |
| Repositories.ChargedLinesOfCleared | finance-backend/src/main/java/com/finance/repository/MonthlyExpenseDetailRepository.java:24-26 | Over the whole store, in one year or all years: nothing is charged to a cleared id and the other ids keep their lines |
| Repositories.ClearReferencesEffect | finance-backend/src/main/java/com/finance/repository/MonthlyExpenseDetailRepository.java:18-26 | After clearing, both sums are null for a cleared id in every year, and both sums of every other id are unchanged |
| Repositories.NothingChargedAtOrAbove | finance-backend/src/main/java/com/finance/repository/MonthlyExpenseDetailRepository.java:21-22 | When every reference is below n, the year sum of any id ≥ n is null |
| Repositories.NumberAssetsKeeps | finance-backend/src/main/java/com/finance/service/MonthlyRecordService.java:59 | Giving asset lines ids on save changes nothing but their ids |
| Repositories.NumberAssetsKeepsTotal | finance-backend/src/main/java/com/finance/service/MonthlyRecordService.java:59 | Saving keeps the asset lines' total |
| Repositories.NumberLiabilitiesKeeps | finance-backend/src/main/java/com/finance/service/MonthlyRecordService.java:59 | Giving liability lines ids on save changes nothing but their ids |
| Repositories.NumberLiabilitiesKeepsTotal | finance-backend/src/main/java/com/finance/service/MonthlyRecordService.java:59 | Saving keeps the liability lines' total |
| Repositories.NumberIncomesKeeps | finance-backend/src/main/java/com/finance/service/MonthlyRecordService.java:59 | Giving income lines ids on save changes nothing but their ids |
| Repositories.NumberIncomesKeepsTotal | finance-backend/src/main/java/com/finance/service/MonthlyRecordService.java:59 | Saving keeps the income lines' total |
| Repositories.NumberExpenseLinesKeeps | finance-backend/src/main/java/com/finance/service/MonthlyRecordService.java:59 | Giving expense lines ids on save changes nothing but their ids, not their budget-line references |
| Repositories.NumberExpenseLinesKeepsTotal | finance-backend/src/main/java/com/finance/service/MonthlyRecordService.java:59 | Saving keeps the expense lines' total |
| Repositories.WithIdsKeepsContent | finance-backend/src/main/java/com/finance/service/MonthlyRecordService.java:59 | A saved record equals the unsaved one up to ids; it always has an id, and a record that had one keeps it |
| Repositories.WithIdsKeepsAssetSum | finance-backend/src/main/java/com/finance/service/MonthlyRecordService.java:59 | Saving a record keeps its asset sum |
| Repositories.WithIdsKeepsLiabilitySum | finance-backend/src/main/java/com/finance/service/MonthlyRecordService.java:59 | Saving a record keeps its liability sum |
| Repositories.WithIdsKeepsIncomeSum | finance-backend/src/main/java/com/finance/service/MonthlyRecordService.java:59 | Saving a record keeps its income sum |
| Repositories.WithIdsKeepsExpenseSum | finance-backend/src/main/java/com/finance/service/MonthlyRecordService.java:59 | Saving a record keeps its expense sum |
| Repositories.WithIdsKeepsTotals | finance-backend/src/main/java/com/finance/service/MonthlyRecordService.java:58-59 | A saved record's totals agree with its lines iff they did before saving |
| Repositories.NumberingIdentified | finance-backend/src/main/java/com/finance/service/AnnualPlanService.java:125 | Saving budget lines that all have ids leaves them as they are |
| Repositories.ValidGrows | finance-backend/src/main/java/com/finance/entity/MonthlyRecord.java:10 | The store invariant survives raising the next id |
| Repositories.UpsertRecordValid | finance-backend/src/main/java/com/finance/entity/MonthlyRecord.java:10 | Inserting or replacing a record whose period no other record has keeps ids unique and periods unique, and keeps references below the next id |
| Repositories.AppendedRecordValid | finance-backend/src/main/java/com/finance/entity/MonthlyRecord.java:10 | Appending a record with a fresh id and a free period keeps the store invariant |
| Repositories.ReplacedRecordValid | finance-backend/src/main/java/com/finance/entity/MonthlyRecord.java:10 | Replacing a record in place by one with the same id and a free period keeps the store invariant |
| Repositories.UpsertPlanValid | finance-backend/src/main/java/com/finance/entity/AnnualBalancePlan.java:10 | Inserting or replacing the plan of a year keeps one plan per year and budget-line ids below the next id |
| Repositories.RemoveRecordValid | finance-backend/src/main/java/com/finance/service/MonthlyRecordService.java:231 | Deleting a record keeps the store invariant |
| Repositories.RemovedAtValid | finance-backend/src/main/java/com/finance/service/MonthlyRecordService.java:231 | Removing the record at one position keeps the store invariant |
| Repositories.ClearReferencesValid | finance-backend/src/main/java/com/finance/repository/MonthlyExpenseDetailRepository.java:24-26 | Clearing references keeps the store invariant |
| Repositories.Database.constructor | finance-backend/src/main/java/com/finance/entity/MonthlyRecord.java:13-15 | An empty store is valid and hands out identity values from 1 |
| Repositories.Database.SaveRecord | finance-backend/src/main/java/com/finance/service/MonthlyRecordService.java:59 | `save`: the record gets ids for itself and its new lines; it replaces the row with its id or is appended; the invariant is kept; the plans are untouched |
| Repositories.Database.SavePlan | finance-backend/src/main/java/com/finance/service/AnnualPlanService.java:113 | `save`: new budget lines get ids; the plan replaces the stored plan of its year or is added; the invariant is kept; the records are untouched |
| Repositories.Database.DeleteRecord | finance-backend/src/main/java/com/finance/service/MonthlyRecordService.java:231 | `deleteById`: the record with the id is removed with its lines, and nothing else changes |
| Repositories.Database.ClearAnnualExpenseReferences | finance-backend/src/main/java/com/finance/repository/MonthlyExpenseDetailRepository.java:24-26 | Bulk update of every record of every year: lines charged to one of the ids lose their reference, and nothing else changes |
| AnnualPlanService.IncomesByFrequency | finance-backend/src/main/java/com/finance/service/AnnualPlanService.java:132-151 | Twelve times the monthly incomes plus the once-a-year incomes is each income's contribution over a year |
| AnnualPlanService.BudgetsByFrequency | finance-backend/src/main/java/com/finance/service/AnnualPlanService.java:138-157 | Twelve times the monthly budgets plus the once-a-year budgets is each budget's contribution over a year |
| AnnualPlanService.AnnualSurplusIsYearTotal | finance-backend/src/main/java/com/finance/service/AnnualPlanService.java:130-164 | The annual surplus is the year's planned income less the year's planned budgets |
| AnnualPlanService.OnceIncomeAddsToAnnualOnly | finance-backend/src/main/java/com/finance/service/AnnualPlanService.java:130-164 | A non-monthly income leaves the monthly surplus unchanged and raises the annual surplus by its amount |
| AnnualPlanService.SurplusOfServiceTestPlan | finance-backend/src/main/java/com/finance/service/AnnualPlanService.java:130-164 | For the service test's plan (income 2.5 monthly, budget 5 monthly, bonus 6 once) the code gives −2.5, −30 and −24 |
| AnnualPlanService.WithSurplus | finance-backend/src/main/java/com/finance/service/AnnualPlanService.java:130-164 | Both stored surpluses are those of the plan's own lines, and nothing else of the plan changes |
| AnnualPlanService.CalculateSurplus | finance-backend/src/main/java/com/finance/service/AnnualPlanService.java:130-164 | Writes the two surpluses of the plan's current lines into the entity and changes nothing else |
| AnnualPlanService.SameBudgetsSameMonthly | finance-backend/src/main/java/com/finance/service/AnnualPlanService.java:138-141 | The monthly budget sum depends only on each line's frequency and amount |
| AnnualPlanService.SameBudgetsSameOnce | finance-backend/src/main/java/com/finance/service/AnnualPlanService.java:154-157 | The non-monthly budget sum depends only on each line's frequency and amount |
| AnnualPlanService.SurplusDependsOnBudgetsOnly | finance-backend/src/main/java/com/finance/service/AnnualPlanService.java:130-164 | Changing budget-line ids, names or spent amounts does not change either surplus |
| AnnualPlanService.SavedPlanSurplusCurrent | finance-backend/src/main/java/com/finance/service/AnnualPlanService.java:111-113 | Saving a plan whose surpluses are current leaves them current |
| AnnualPlanService.ExistingExpenseIds | finance-backend/src/main/java/com/finance/service/AnnualPlanService.java:90-93 | An id is listed iff some budget line of the plan has it; lines without an id contribute nothing |
| AnnualPlanService.ReplaceAssetTargets | finance-backend/src/main/java/com/finance/service/AnnualPlanService.java:44-56 | The asset targets become the request's, in request order, with sortOrder defaulted to 0; nothing else changes |
| AnnualPlanService.ReplaceLiabilityTargets | finance-backend/src/main/java/com/finance/service/AnnualPlanService.java:59-70 | The liability targets become the request's, in order, sortOrder defaulted; nothing else changes |
| AnnualPlanService.ReplaceAnnualIncomes | finance-backend/src/main/java/com/finance/service/AnnualPlanService.java:73-85 | The incomes become the request's, in order, with isMonthly defaulted to true and sortOrder to 0; nothing else changes |
| AnnualPlanService.ReplaceAnnualExpenses | finance-backend/src/main/java/com/finance/service/AnnualPlanService.java:98-107 | The budget lines become new id-less lines from the request, in order, isMonthly defaulted to true, spent ZERO; nothing else changes |
| AnnualPlanService.BuildPlan | finance-backend/src/main/java/com/finance/service/AnnualPlanService.java:38-108 | The year is set; each list the request carries (even an empty one) replaces the plan's; a list it leaves out is kept |
| AnnualPlanService.ApplyRequestIdsBelow | finance-backend/src/main/java/com/finance/service/AnnualPlanService.java:38-108 | The budget lines of the plan to update, with the request applied, have ids below the next id or none |
| AnnualPlanService.ApplyToPlan | finance-backend/src/main/java/com/finance/service/AnnualPlanService.java:38-108 | The found or new plan with the request applied; references to the old budget lines are cleared only when the request replaces them and some old line has an id |
| AnnualPlanService.FreshBudgetLinesUncharged | finance-backend/src/main/java/com/finance/service/AnnualPlanService.java:98-113 | Budget lines saved fresh get ids nobody is charged to, so their spending is zero in every year |
| AnnualPlanService.CreateOrUpdate | finance-backend/src/main/java/com/finance/service/AnnualPlanService.java:37-116 | The saved plan is the request applied to the year's plan (found or new) with current surpluses. It replaces the stored plan of the year. References are cleared as above. New budget lines start with nothing charged |
| AnnualPlanService.ExpensesWithSpent | finance-backend/src/main/java/com/finance/service/AnnualPlanService.java:166-172 | Each budget line's spent amount becomes its year sum (ZERO for a null sum), and nothing else changes |
| AnnualPlanService.UpdateSpentAmounts | finance-backend/src/main/java/com/finance/service/AnnualPlanService.java:166-172 | The loop gives every budget line of the entity its spent amount for the plan's year, nothing else changes |
| AnnualPlanService.GetByYear | finance-backend/src/main/java/com/finance/service/AnnualPlanService.java:26-34 | NotFound iff no plan has the year; otherwise the stored plan with the spent amounts brought up to date; nothing is saved |
| AnnualPlanService.GetSummary | finance-backend/src/main/java/com/finance/service/AnnualPlanService.java:118-128 | NotFound iff no plan has the year. Otherwise the surpluses and spent amounts are recomputed and the plan is saved back in place, with current surpluses |
| AnnualPlanService.GetAvailableYears | finance-backend/src/main/java/com/finance/service/AnnualPlanService.java:174-179 | Ascending, a permutation of the plans' years, and holding a year iff some plan has it |
| MonthlyRecordService.GetByYearAndMonth | finance-backend/src/main/java/com/finance/service/MonthlyRecordService.java:28-32 | NotFound iff no record has the period; otherwise a stored record of that period |
| MonthlyRecordService.PreviousPeriod | finance-backend/src/main/java/com/finance/service/MonthlyRecordService.java:167-171 | January goes to December of the year before, any other month to the month before; within 1..12 it is the period one month earlier |
| MonthlyRecordService.NextPeriod | finance-backend/src/main/java/com/finance/service/MonthlyRecordService.java:167-171 | The period one month later, within 1..12 |
| MonthlyRecordService.PreviousNextInverse | finance-backend/src/main/java/com/finance/service/MonthlyRecordService.java:167-171 | Within the calendar, stepping back and forward (either way round) returns to the same period |
| MonthlyRecordService.FindPreviousRecord | finance-backend/src/main/java/com/finance/service/MonthlyRecordService.java:167-171 | Empty iff no record has the previous period; a found one is stored and has that period |
| MonthlyRecordService.CarriedLinesTotalZero | finance-backend/src/main/java/com/finance/service/MonthlyRecordService.java:126-164 | Carried-forward lines have amount ZERO, so each of the four totals of the carried lines is zero |
| MonthlyRecordService.CarriedReferencesKept | finance-backend/src/main/java/com/finance/service/MonthlyRecordService.java:156-164 | Carried expense lines stay charged to the same budget lines |
| MonthlyRecordService.CarryAssets | finance-backend/src/main/java/com/finance/service/MonthlyRecordService.java:126-134 | Appends, in order, each previous asset line with amount ZERO, the same group, name, return rate and sortOrder, and no id |
| MonthlyRecordService.CarryLiabilities | finance-backend/src/main/java/com/finance/service/MonthlyRecordService.java:137-144 | Appends, in order, each previous liability line with amount ZERO, the same name, interest rate and sortOrder |
| MonthlyRecordService.CarryIncomes | finance-backend/src/main/java/com/finance/service/MonthlyRecordService.java:147-153 | Appends, in order, each previous income line with amount ZERO, the same name and sortOrder |
| MonthlyRecordService.CarryExpenses | finance-backend/src/main/java/com/finance/service/MonthlyRecordService.java:156-164 | Appends, in order, each previous expense line with amount ZERO, its note dropped, the same budget line and sortOrder |
| MonthlyRecordService.CopyFromPreviousMonth | finance-backend/src/main/java/com/finance/service/MonthlyRecordService.java:119-165 | No previous record: the record is unchanged. Otherwise all four of its lists are carried forward |
| MonthlyRecordService.ResolveBudgetLine | finance-backend/src/main/java/com/finance/service/MonthlyRecordService.java:215-219 | The line is charged to the id iff the request gives an id and a budget line with that id exists; an unknown id silently leaves it uncharged |
| MonthlyRecordService.ResolvedBelow | finance-backend/src/main/java/com/finance/service/MonthlyRecordService.java:215-219 | A resolved reference is below the next id |
| MonthlyRecordService.ExpenseDetailsFrom | finance-backend/src/main/java/com/finance/service/MonthlyRecordService.java:207-223 | One expense line per request line, in order, each with its resolved budget line |
| MonthlyRecordService.ExpenseDetailsFromBelow | finance-backend/src/main/java/com/finance/service/MonthlyRecordService.java:207-223 | Expense lines built from a request reference only ids already handed out (below the next id) |
| MonthlyRecordService.EmptyIffPopulatesNothing | finance-backend/src/main/java/com/finance/service/MonthlyRecordService.java:112-117 | `isEmpty` holds iff populating from the request adds no line |
| MonthlyRecordService.PopulatedTotals | finance-backend/src/main/java/com/finance/service/MonthlyRecordService.java:173-224 | Populating an empty record gives four lists whose totals are the sums of the request's amounts (a null list counting as empty) |
| MonthlyRecordService.NewLinesTotals | finance-backend/src/main/java/com/finance/service/MonthlyRecordService.java:174-205 | New asset, liability and income lines keep their requests' amounts |
| MonthlyRecordService.NewExpensesTotal | finance-backend/src/main/java/com/finance/service/MonthlyRecordService.java:207-223 | New expense lines keep their requests' amounts |
| MonthlyRecordService.PopulateAssets | finance-backend/src/main/java/com/finance/service/MonthlyRecordService.java:174-184 | Appends one asset line per request line, in order, sortOrder defaulted to 0; nothing else changes |
| MonthlyRecordService.PopulateLiabilities | finance-backend/src/main/java/com/finance/service/MonthlyRecordService.java:186-195 | Appends one liability line per request line, in order; nothing else changes |
| MonthlyRecordService.PopulateIncomes | finance-backend/src/main/java/com/finance/service/MonthlyRecordService.java:197-205 | Appends one income line per request line, in order; nothing else changes |
| MonthlyRecordService.PopulateExpenses | finance-backend/src/main/java/com/finance/service/MonthlyRecordService.java:207-223 | Appends one expense line per request line, in order, charged to a budget line only when it resolves; nothing else changes |
| MonthlyRecordService.PopulateDetails | finance-backend/src/main/java/com/finance/service/MonthlyRecordService.java:173-224 | Each list the request carries is appended to the record's; null lists add nothing |
| MonthlyRecordService.CreatedRecord | finance-backend/src/main/java/com/finance/service/MonthlyRecordService.java:46-58 | The record to save has the request's period and summary, no id, and totals consistent with its lines |
| MonthlyRecordService.CreatedFromPreviousIsZero | finance-backend/src/main/java/com/finance/service/MonthlyRecordService.java:52-58 | With no lines in the request and a previous month: every list is the previous one carried forward, and all four totals are zero |
| MonthlyRecordService.CreatedWithoutPreviousIsEmpty | finance-backend/src/main/java/com/finance/service/MonthlyRecordService.java:52-58 | With no lines in the request and no previous month: the record has no lines |
| MonthlyRecordService.CreatedFromRequestTotals | finance-backend/src/main/java/com/finance/service/MonthlyRecordService.java:52-58 | With any line in the request, all four lists come from the request and the totals are the sums of the request's amounts |
| MonthlyRecordService.CreatedReferencesBelow | finance-backend/src/main/java/com/finance/service/MonthlyRecordService.java:52-56 | Every expense line of a created record, whether carried or populated, references an id already handed out (below the next id) or none |
| MonthlyRecordService.Create | finance-backend/src/main/java/com/finance/service/MonthlyRecordService.java:41-62 | AlreadyExists iff the period has a record, and then nothing is saved. Otherwise the created record, with a new id, is appended. The invariant is kept |
| MonthlyRecordService.NewIdNotStored | finance-backend/src/main/java/com/finance/service/MonthlyRecordService.java:59 | The next id belongs to no stored record, so a created record is appended |
| MonthlyRecordService.UpdatedRecord | finance-backend/src/main/java/com/finance/service/MonthlyRecordService.java:69-79 | The updated record keeps its id, year and month, takes the request's summary, and its totals agree with its new lines |
| MonthlyRecordService.UpdateWithEmptyRequestClears | finance-backend/src/main/java/com/finance/service/MonthlyRecordService.java:71-79 | Update never carries forward: an empty request leaves no lines and zero totals |
| MonthlyRecordService.StoredPeriodUnique | finance-backend/src/main/java/com/finance/entity/MonthlyRecord.java:10 | A record that keeps its stored period shares it with no other record |
| MonthlyRecordService.Update | finance-backend/src/main/java/com/finance/service/MonthlyRecordService.java:65-83 | NotFound iff no record has the id, and then nothing changes. Otherwise the record is replaced in place by the updated one, keeping its id. The invariant is kept |
| MonthlyRecordService.Delete | finance-backend/src/main/java/com/finance/service/MonthlyRecordService.java:226-232 | NotFound iff no record has the id; the store afterwards holds the records less that one; plans untouched |
| MonthlyRecordService.RemoveRecordEffect | finance-backend/src/main/java/com/finance/service/MonthlyRecordService.java:226-232 | After a delete no record has the id, every other record is still stored, and no record was added |
| MonthlyRecordService.TemplateKeepsAmounts | finance-backend/src/main/java/com/finance/service/MonthlyRecordService.java:95-109 | The template has no id and no summary and has the requested period. It keeps the previous month's totals and line amounts. Its lines have no id |
| MonthlyRecordService.UnsavedAssets | finance-backend/src/main/java/com/finance/service/MonthlyRecordService.java:104 | The asset lines with each id set to null, in order |
| MonthlyRecordService.UnsavedLiabilities | finance-backend/src/main/java/com/finance/service/MonthlyRecordService.java:105 | The liability lines with each id set to null, in order |
| MonthlyRecordService.UnsavedIncomes | finance-backend/src/main/java/com/finance/service/MonthlyRecordService.java:106 | The income lines with each id set to null, in order |
| MonthlyRecordService.UnsavedExpenses | finance-backend/src/main/java/com/finance/service/MonthlyRecordService.java:107 | The expense lines with each id set to null, in order |
| MonthlyRecordService.GetPreviousTemplate | finance-backend/src/main/java/com/finance/service/MonthlyRecordService.java:85-110 | The template of the period: the previous record with ids cleared, or an empty record of the period when there is none |
| DashboardService.GetOverview | finance-backend/src/main/java/com/finance/service/DashboardService.java:32-55 | The month's stored totals, with net worth and surplus derived from them, or six zeros when the month has no record |
| DashboardService.OverviewOfRecalculatedRecord | finance-backend/src/main/java/com/finance/service/DashboardService.java:32-55 | For a record whose totals were recalculated, net worth and surplus are the sums of its lines |
| DashboardService.YearRecordsInMonthOrder | finance-backend/src/main/java/com/finance/service/DashboardService.java:58 | The sorted query returns every record of the year once, months ascending |
| DashboardService.GetAssetTrend | finance-backend/src/main/java/com/finance/service/DashboardService.java:57-69 | One point per record of the year, months ascending; net worth is asset less liability; exactly the year's records appear |
| DashboardService.GetIncomeExpenseTrend | finance-backend/src/main/java/com/finance/service/DashboardService.java:71-83 | One point per record of the year, months ascending; surplus is income less expense; exactly the year's records appear |
| DashboardService.ShareOf | finance-backend/src/main/java/com/finance/service/DashboardService.java:113-117 | 0 unless the target is positive; otherwise within 0.005 of the exact percentage, at least 100 when reached, within [0, 100] when not |
| DashboardService.GetAssetDistribution | finance-backend/src/main/java/com/finance/service/DashboardService.java:85-124 | Exactly one item per asset group, in declaration order, each the group's current amount (null sum read as ZERO), target and share |
| DashboardService.DistributionItemFor | finance-backend/src/main/java/com/finance/service/DashboardService.java:92-118 | One turn of the loop over the groups gives the group's item: current amount (null sum read as ZERO), target and share |
| DashboardService.GroupTargetsPartition | finance-backend/src/main/java/com/finance/service/DashboardService.java:104-110 | The three groups' targets add up to the plan's whole asset target |
| DashboardService.GroupSumOrZero | finance-backend/src/main/java/com/finance/service/DashboardService.java:96-101 | A group's current amount (null read as ZERO) is the total of its lines |
| DashboardService.GroupSnoc | finance-backend/src/main/java/com/finance/service/DashboardService.java:96-101 | One more asset line adds its amount to its own group's total and to no other |
| DashboardService.GroupTotalsPartition | finance-backend/src/main/java/com/finance/service/DashboardService.java:85-124 | The three groups' line totals add up to the total of all asset lines |
| DashboardService.CurrentAmountsPartition | finance-backend/src/main/java/com/finance/service/DashboardService.java:96-102 | The three current amounts of a record add up to its asset lines' total |
| DashboardService.ProgressItem | finance-backend/src/main/java/com/finance/service/DashboardService.java:143-166 | Category and raw budget (not annualised) are the line's. Spent is the year's sum. Remaining plus spent is the budget. The rate is 0 unless the budget is positive, and then it is within 0.005 of the exact percentage |
| DashboardService.ProgressItems | finance-backend/src/main/java/com/finance/service/DashboardService.java:141-167 | One item per budget line that is not DAILY, in plan order |
| DashboardService.GetAnnualProgress | finance-backend/src/main/java/com/finance/service/DashboardService.java:126-172 | No data iff the year has no plan. Otherwise the plan's monthly and annual surplus, and one progress item per budget line that is not DAILY, in plan order, the k-th being that line's `ProgressItem` |
| DashboardService.AnnualProgressAgreesWithPlan | finance-backend/src/main/java/com/finance/service/DashboardService.java:141-166 | Each listed item comes from a budget line of the year's plan that is not DAILY, with its category and budget. For a positive budget its remaining amount and rate are those the line reports once its spent amount is updated |
| DashboardService.ProgressAgreesWithBudgetLine | finance-backend/src/main/java/com/finance/service/DashboardService.java:155-163 | For a positive budget, the dashboard's remaining amount and rate are those the budget line itself reports once its spent amount is updated |
| DashboardService.MonthPointOf | finance-backend/src/main/java/com/finance/service/DashboardService.java:201-216 | The month's point carries the targets; its actuals are null iff the month has no record, and otherwise are that record's totals |
| DashboardService.GetAnnualTargetTrend | finance-backend/src/main/java/com/finance/service/DashboardService.java:174-221 | No target iff no plan. Otherwise the two target totals and exactly twelve points, one per month 1..12, all with the same targets |
| DashboardService.Slices | finance-backend/src/main/java/com/finance/service/DashboardService.java:239-273 | One slice per line, in order |
| DashboardService.UnsharedSlices | finance-backend/src/main/java/com/finance/service/DashboardService.java:239-263 | One unshared slice per line, in order |
| DashboardService.PieLinesSnoc | finance-backend/src/main/java/com/finance/service/DashboardService.java:239-263 | One more line adds its slice, its yearly budget and its spending to the totals |
| DashboardService.PieLoopStep | finance-backend/src/main/java/com/finance/service/DashboardService.java:241-243 | A turn of the first loop keeps a line that is not DAILY and skips a DAILY one |
| DashboardService.AddSlice | finance-backend/src/main/java/com/finance/service/DashboardService.java:245-262 | A line that is not DAILY adds its slice, with a monthly budget annualised ×12, and adds its budget and spending to the totals |
| DashboardService.CollectSlices | finance-backend/src/main/java/com/finance/service/DashboardService.java:239-263 | The slices of the lines that are not DAILY. A monthly budget is annualised ×12 and a yearly one is kept. The total budget and total spent are sums over the kept lines |
| DashboardService.FillShares | finance-backend/src/main/java/com/finance/service/DashboardService.java:265-273 | Each slice gets its share of the total spent (0 unless the total is positive), and nothing else changes |
| DashboardService.GetBudgetPie | finance-backend/src/main/java/com/finance/service/DashboardService.java:223-280 | No pie iff no plan; otherwise the slices and totals of the plan's lines that are not DAILY |
| DashboardService.SharesNearlyExact | finance-backend/src/main/java/com/finance/service/DashboardService.java:265-273 | The shares add up to the exact percentage of the spending within half a hundredth per slice |
| DashboardService.PiePercentagesAddUp | finance-backend/src/main/java/com/finance/service/DashboardService.java:265-273 | When anything was spent the percentages add up to 100 within 0.005 per slice; when nothing was, every percentage is 0 |
| DashboardService.PieBudgetIsYearlyPlan | finance-backend/src/main/java/com/finance/service/DashboardService.java:245-249 | The pie's total budget is twelve times the monthly budgets plus the yearly budgets of the lines shown |
| DataImportService.ParseBigDecimalDefaults | finance-backend/src/main/java/com/finance/service/DataImportService.java:395-396 | Null, empty and blank text read as ZERO |
| DataImportService.ParseBigDecimalNonNumeric | finance-backend/src/main/java/com/finance/service/DataImportService.java:397-401 | Text that is not a number reads as ZERO |
| DataImportService.ParseBigDecimalPlain | finance-backend/src/main/java/com/finance/service/DataImportService.java:395-402 | Text with nothing to trim and no comma is read as `new BigDecimal` reads it |
| DataImportService.ParseBigDecimalNumeral | finance-backend/src/main/java/com/finance/service/DataImportService.java:395-402 | A numeral, with or without a minus sign, reads as its value |
| DataImportService.ParseBigDecimalGrouped | finance-backend/src/main/java/com/finance/service/DataImportService.java:398 | A thousands comma is ignored: `a,b` reads as the digits of a and b run together |
| DataImportService.ParseAssetGroup | finance-backend/src/main/java/com/finance/service/DataImportService.java:374-382 | Null text gives LIQUID |
| DataImportService.AssetGroupRoundTrip | finance-backend/src/main/java/com/finance/service/DataImportService.java:374-382 | Every group's label and every group's name parse back to that group |
| DataImportService.UnknownAssetGroupIsLiquid | finance-backend/src/main/java/com/finance/service/DataImportService.java:380 | Text that, trimmed, is no group's label or name gives LIQUID |
| DataImportService.ParseIncomeTypeAsWritten | finance-backend/src/main/java/com/finance/service/DataImportService.java:384-393 | The parser as written reads null as OTHER; what it makes of the label 股权 is stated by `DataImportService.DividendLabelReadsAsOther` |
| DataImportService.DividendLabelReadsAsOther | finance-backend/src/main/java/com/finance/service/DataImportService.java:390 | As written, the DIVIDEND label 股权 parses as OTHER |
| DataImportService.ImportedDividendLabelIsOther | finance-backend/src/main/java/com/finance/service/DataImportService.java:225-234 | The workbook import, as written, stores an income whose type cell is 股权 as OTHER |
| DataImportService.IntendedIncomeTypeRoundTrip | finance-backend/src/main/java/com/finance/service/DataImportService.java:225-234 | Read with the corrected parser, a type cell holding a type's label imports as that type; for every type but DIVIDEND the corrected and the as-written import agree |
| DataImportService.ParseIncomeType | finance-backend/src/main/java/com/finance/service/DataImportService.java:384-393 | The parser as intended (also accepting 股权): null gives OTHER |
| DataImportService.IncomeTypeRoundTrip | finance-backend/src/main/java/com/finance/enums/IncomeType.java:4-8 | Every income type's label parses back to that type |
| DataImportService.IncomeTypeCorrectionIsNarrow | finance-backend/src/main/java/com/finance/service/DataImportService.java:384-393 | The correction changes nothing but the reading of 股权 |
| DataImportService.CsvStep | finance-backend/src/main/java/com/finance/service/DataImportService.java:124-197 | A row with no cells or an empty first cell is skipped. A section header switches section and resets sortOrder to 0. Column headers, rows before any section and rows that are too short change nothing. Any other row under a section is appended as a line of that section |
| DataImportService.CsvRunAppend | finance-backend/src/main/java/com/finance/service/DataImportService.java:124-198 | Reading rows in two parts is reading them at once |
| DataImportService.NoSectionNoChange | finance-backend/src/main/java/com/finance/service/DataImportService.java:154 | Rows without a section header import nothing |
| DataImportService.LeadingRowsIgnored | finance-backend/src/main/java/com/finance/service/DataImportService.java:154 | Data rows before the first section header are ignored |
| DataImportService.ImportedExpensesUnlinked | finance-backend/src/main/java/com/finance/service/DataImportService.java:184-194 | Expense lines imported from CSV are never charged to a budget line |
| DataImportService.AppendedOrders | finance-backend/src/main/java/com/finance/service/DataImportService.java:157-194 | An accepted row takes the current sortOrder, raises it by one and touches only its own section's list |
| DataImportService.SectionRowStep | finance-backend/src/main/java/com/finance/service/DataImportService.java:155-196 | A row inside a section keeps the section's lines numbered consecutively |
| DataImportService.AppendedLineNumbered | finance-backend/src/main/java/com/finance/service/DataImportService.java:157-194 | Appending an accepted row keeps its section's lines numbered consecutively |
| DataImportService.SectionLinesNumbered | finance-backend/src/main/java/com/finance/service/DataImportService.java:155-196 | Within a section, rows that are too short do not use up a sortOrder |
| DataImportService.SectionBlockNumbered | finance-backend/src/main/java/com/finance/service/DataImportService.java:127-196 | After a header and its rows, the section's new lines have sortOrders 0, 1, 2, …, and the other sections are untouched |
| DataImportService.AcceptedRows | finance-backend/src/main/java/com/finance/service/DataImportService.java:125-158 | The rows a section turns into lines: each is not blank, opens no section, is no column header and has the cells the section needs |
| DataImportService.RowsInSection | finance-backend/src/main/java/com/finance/service/DataImportService.java:124-196 | Inside a section, the row loop appends exactly the accepted rows, in order, and nothing else |
| DataImportService.AppendAllLines | finance-backend/src/main/java/com/finance/service/DataImportService.java:155-194 | Appended rows keep the section's earlier lines; the k-th new line is the row's asset, liability, income or expense line with the k-th next sortOrder |
| DataImportService.AppendAllOthers | finance-backend/src/main/java/com/finance/service/DataImportService.java:155-194 | Appending rows to one section leaves the other three lists unchanged |
| DataImportService.SectionBlockLines | finance-backend/src/main/java/com/finance/service/DataImportService.java:127-196 | After a header and its rows: the section's k-th new line is built from the k-th accepted row, with its name, amount (and group or note) and sortOrder k; the other sections are untouched |
| DataImportService.CsvImported | finance-backend/src/main/java/com/finance/service/DataImportService.java:106-200 | The record of the period (reusing a stored record's id) has the four lists the rows give, from cleared lists, and totals consistent with them |
| DataImportService.MonthRecordSavable | finance-backend/src/main/java/com/finance/service/DataImportService.java:106-112 | The found-or-new record has a stored id or none, and no other record has its period |
| DataImportService.ReadRow | finance-backend/src/main/java/com/finance/service/DataImportService.java:124-197 | One turn of the loop updates the section, the sortOrder and the record's lists as the state machine does |
| DataImportService.ReadRows | finance-backend/src/main/java/com/finance/service/DataImportService.java:124-198 | The loop leaves the record's lists as the state machine run over all rows gives them |
| DataImportService.ImportMonthlyRecordFromCsv | finance-backend/src/main/java/com/finance/service/DataImportService.java:100-215 | The saved record is the imported one with ids. It replaces the record of the period or is appended. Plans are untouched. The invariant is kept |
| DataImportService.CellAmountAsParsed | finance-backend/src/main/java/com/finance/service/DataImportService.java:358-372 | A missing cell amount defaulted to ZERO is exactly what `parseBigDecimal` makes of the same text |
| DataImportService.ImportedIncomesSpec | finance-backend/src/main/java/com/finance/service/DataImportService.java:217-244 | One income per row with a name, in row order, the k-th with sortOrder k and a non-empty name; its type is what `parseIncomeType` as written makes of the type cell |
| DataImportService.ImportedAssetTargetsSpec | finance-backend/src/main/java/com/finance/service/DataImportService.java:246-271 | One target per row with a name, in row order, the k-th with sortOrder k |
| DataImportService.ImportedLiabilityTargetsSpec | finance-backend/src/main/java/com/finance/service/DataImportService.java:273-296 | One target per row with a name, in row order, the k-th with sortOrder k |
| DataImportService.ImportedExpensesSpec | finance-backend/src/main/java/com/finance/service/DataImportService.java:298-320 | One budget line per row with a category, in row order, the k-th with sortOrder k, always monthly and without an id |
| DataImportService.ImportIncomeRow | finance-backend/src/main/java/com/finance/service/DataImportService.java:222-241 | A row is added iff it exists and has a name; an added row takes the next sortOrder and its type from `parseIncomeType` as written |
| DataImportService.ImportIncomes | finance-backend/src/main/java/com/finance/service/DataImportService.java:217-244 | The sheet's incomes are appended in row order, with types from `parseIncomeType` as written, and the count returned is how many were added |
| DataImportService.ImportAssetTargetRow | finance-backend/src/main/java/com/finance/service/DataImportService.java:251-268 | A row is added iff it exists and has a name; an added row takes the next sortOrder |
| DataImportService.ImportAssetTargets | finance-backend/src/main/java/com/finance/service/DataImportService.java:246-271 | The sheet's asset targets are appended in row order, with the count |
| DataImportService.ImportLiabilityTargetRow | finance-backend/src/main/java/com/finance/service/DataImportService.java:278-293 | A row is added iff it exists and has a name in its first cell |
| DataImportService.ImportLiabilityTargets | finance-backend/src/main/java/com/finance/service/DataImportService.java:273-296 | The sheet's liability targets are appended in row order, with the count |
| DataImportService.ImportExpenseRow | finance-backend/src/main/java/com/finance/service/DataImportService.java:303-317 | A row is added iff it exists and has a category |
| DataImportService.ImportExpenses | finance-backend/src/main/java/com/finance/service/DataImportService.java:298-320 | The sheet's budget lines are appended in row order, with the count |
| DataImportService.LoadImportedPlan | finance-backend/src/main/java/com/finance/service/DataImportService.java:43-85 | The found or new plan loses its four lists and takes the lines of whichever sheets exist, incomes typed by `parseIncomeType` as written. Its surpluses are recomputed by the same formula as the plan service's |
| DataImportService.ImportAnnualPlanFromExcel | finance-backend/src/main/java/com/finance/service/DataImportService.java:37-97 | The imported plan is saved in place of the year's plan with current surpluses. Monthly records are not touched. Nothing is charged to the new budget lines |
| DataImportService.ImportedBudgetsAreDaily | finance-backend/src/main/java/com/finance/entity/AnnualExpense.java:21 | Budget lines from a workbook keep the entity's DAILY parent category |
| Text.Trim | finance-backend/src/main/java/com/finance/service/DataImportService.java:396-398 | `trim()` returns an infix of the text with only characters ≤ space around it, and the result neither starts nor ends with one |
| Text.TrimIdempotent | finance-backend/src/main/java/com/finance/service/DataImportService.java:396-398 | Trimming twice is trimming once |
| Text.RemoveCommas | finance-backend/src/main/java/com/finance/service/DataImportService.java:398 | `replace(",", "")` leaves no comma and keeps every other character |
| Text.RemoveCommasJoin | finance-backend/src/main/java/com/finance/service/DataImportService.java:398 | Removing the comma between two comma-free parts joins them |
| Text.ParseDigits | finance-backend/src/main/java/com/finance/service/DataImportService.java:398 | `new BigDecimal` reads a run of digits as its decimal value |
| Text.ParseNegativeDigits | finance-backend/src/main/java/com/finance/service/DataImportService.java:398 | A minus sign before digits negates their value |
| Text.ParseNatNumeral | finance-backend/src/main/java/com/finance/service/DataImportService.java:398 | The numeral of a number, with or without a minus sign, reads back as that number |
| Text.ParseFractionNumeral | finance-backend/src/main/java/com/finance/service/DataImportService.java:398 | A numeral with a decimal point reads as its digits over a power of ten |
| Text.NotNumerals | finance-backend/src/main/java/com/finance/service/DataImportService.java:398-400 | The empty text, a lone sign and a lone point are not numbers |
| Text.ExponentWithoutDigits | finance-backend/src/main/java/com/finance/service/DataImportService.java:398-400 | An exponent marker without digits is not a number |
| Text.LettersNotNumeral | finance-backend/src/main/java/com/finance/service/DataImportService.java:398-400 | Letters are not a number |

## Left out

- Apache POI cell access (`DataImportService.java:352-372`) is not modelled. A cell reaches the model as its text. The numeric branch, which goes through `double`, and the forced string cell type are not modelled.
- CSV decoding and splitting (OpenCSV `readAll`, UTF-8) are not modelled. The import starts from the rows already split into cells.
- `DataExportService.java` is not part of this model. Its columns for liabilities and expenses do not line up with the columns the importer reads. The model keeps the importer's columns as written.
- The `ImportResult` messages and the catch-all that turns any exception into a failed result are left out. The model's importers cannot fail.
- HTTP controllers, `GlobalExceptionHandler` and response `Result` wrapping are left out. Errors are `Err(NotFound)` or `Err(AlreadyExists)`.
- The response DTOs are field-by-field copies and are not modelled. Responses are the stored row's value.
- `@Transactional` atomicity and concurrent requests are left out: every operation runs alone.
- JPA cascade and orphan removal are left out. A record's lines are part of its row, so deleting or replacing a row deletes or replaces its lines.
- `@OrderBy("sortOrder ASC")` re-sorting on reload is left out. Lists keep their insertion order.
- `@PrePersist`/`@PreUpdate` timestamps are left out, because they depend on the clock.
- The detail back-reference that `add…Detail` sets (`detail.setMonthlyRecord(this)`) is implicit: a line belongs to the record whose list holds it.
- The column scale of 2 for stored amounts is left out. The model keeps exact values.
- The `.doubleValue()` of rates and percentages in `DashboardService` and `AnnualExpense` is display-only and left out. Rates stay exact four-place decimals × 100.
- Validation annotations on the request DTOs are left out. Their guarantees are assumed: amounts, budgets and names are present. Only the service's defaults for `sortOrder` and `isMonthly` are modelled. The DTO field initialisers for parentCategory DAILY and liabilityGroup LOAN become the values a request carries.
- AnnualExpenseEntity.AnnualExpense.ExecutionRate: a null budget amount is not modelled, because the column is non-null (`AnnualExpense.java:26`) and every producer sets it.
- Text.ParseDigits (and the other `Text` parsing lemmas): only ASCII digits are modelled. `new BigDecimal(String)` also accepts other Unicode digits.
- The unused repository queries are left out: `findRecentRecords`, `MonthlyRecordRepository.findPreviousRecord`, `findByMonthlyRecordId…`, `findByAnnualExpenseId` and `existsByYear`. The service computes the previous period itself.
- The Excel import does not clear references to the budget lines it removes (`DataImportService.java:51-54`). In the database the foreign key could then reject the orphan removal. The model keeps the references, which then point at no stored line.
- The frontend is left out. It is UI state and floating-point arithmetic.
- The `MonthlyRecordService.getByYear` list (`MonthlyRecordService.java:34-38`) is modelled only as the sorted query `Repositories.FindByYearOrderByMonthAsc`.

## Findings

| source | as written | input that shows it | evidently intended | confidence | as-written member | corrected member |
|---|---|---|---|---|---|---|
| finance-backend/src/main/java/com/finance/service/DataImportService.java:384-393 | `parseIncomeType` recognises 分红 and DIVIDEND for DIVIDEND. The enum's label, which `IncomeType.getLabel()` returns, is 股权 (`IncomeType.java:7`). | The type cell "股权" | The label 股权 parses as DIVIDEND, as every other type's label parses back to its type | not executed | DataImportService.DividendLabelReadsAsOther | DataImportService.IncomeTypeRoundTrip |
