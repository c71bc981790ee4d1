/** AnnualPlanService: building, reading and summarising a year's plan. */
module AnnualPlanService {
  import opened Wrappers
  import opened Seqs
  import opened AnnualExpenseEntity
  import opened PlanEntities
  import opened Requests
  import opened Repositories

  // ---------------------------------------------------------------------
  // calculateSurplus
  // ---------------------------------------------------------------------

  /** `Boolean.TRUE.equals(isMonthly)`. */
  predicate IsMonthlyIncome(i: AnnualIncome) { i.isMonthly }
  predicate IsOnceIncome(i: AnnualIncome) { !i.isMonthly }
  predicate IsMonthlyBudget(e: AnnualExpense) { e.isMonthly }
  predicate IsOnceBudget(e: AnnualExpense) { !e.isMonthly }

  function PlannedIncome(i: AnnualIncome): real { i.amount }
  function PlannedBudget(e: AnnualExpense): real { e.budgetAmount }

  /** Monthly income less monthly budgets. */
  function MonthlySurplus(incomes: seq<AnnualIncome>, expenses: seq<AnnualExpense>): real
  {
    Sum(PlannedIncome, Filter(IsMonthlyIncome, incomes)) - Sum(PlannedBudget, Filter(IsMonthlyBudget, expenses))
  }

  /** Twelve monthly surpluses, plus once-a-year income, less once-a-year budgets. */
  function AnnualSurplus(incomes: seq<AnnualIncome>, expenses: seq<AnnualExpense>): real
  {
    MonthlySurplus(incomes, expenses) * 12.0
      + Sum(PlannedIncome, Filter(IsOnceIncome, incomes))
      - Sum(PlannedBudget, Filter(IsOnceBudget, expenses))
  }

  /** What a line contributes over a whole year: a monthly line twelve times, any other line once. */
  function YearlyIncome(i: AnnualIncome): real { if i.isMonthly then 12.0 * i.amount else i.amount }
  function YearlyBudget(e: AnnualExpense): real { if e.isMonthly then 12.0 * e.budgetAmount else e.budgetAmount }

  lemma {:induction false} IncomesByFrequency(incomes: seq<AnnualIncome>)
    ensures 12.0 * Sum(PlannedIncome, Filter(IsMonthlyIncome, incomes)) + Sum(PlannedIncome, Filter(IsOnceIncome, incomes))
         == Sum(YearlyIncome, incomes)
  {
    if |incomes| > 0 {
      var init, last := incomes[..|incomes| - 1], incomes[|incomes| - 1];
      IncomesByFrequency(init);
      SumAppend(PlannedIncome, Filter(IsMonthlyIncome, init), [last]);
      SumAppend(PlannedIncome, Filter(IsOnceIncome, init), [last]);
    }
  }

  lemma {:induction false} BudgetsByFrequency(expenses: seq<AnnualExpense>)
    ensures 12.0 * Sum(PlannedBudget, Filter(IsMonthlyBudget, expenses)) + Sum(PlannedBudget, Filter(IsOnceBudget, expenses))
         == Sum(YearlyBudget, expenses)
  {
    if |expenses| > 0 {
      var init, last := expenses[..|expenses| - 1], expenses[|expenses| - 1];
      BudgetsByFrequency(init);
      SumAppend(PlannedBudget, Filter(IsMonthlyBudget, init), [last]);
      SumAppend(PlannedBudget, Filter(IsOnceBudget, init), [last]);
    }
  }

  /** The annual surplus is the year's planned income less the year's planned budgets. */
  lemma AnnualSurplusIsYearTotal(incomes: seq<AnnualIncome>, expenses: seq<AnnualExpense>)
    ensures AnnualSurplus(incomes, expenses) == Sum(YearlyIncome, incomes) - Sum(YearlyBudget, expenses)
  {
    IncomesByFrequency(incomes);
    BudgetsByFrequency(expenses);
  }

  /** A once-a-year income leaves the monthly surplus alone and adds its amount to the annual one. */
  lemma OnceIncomeAddsToAnnualOnly(incomes: seq<AnnualIncome>, expenses: seq<AnnualExpense>, i: AnnualIncome)
    requires !i.isMonthly
    ensures MonthlySurplus(incomes + [i], expenses) == MonthlySurplus(incomes, expenses)
    ensures AnnualSurplus(incomes + [i], expenses) == AnnualSurplus(incomes, expenses) + i.amount
  {
    var all := incomes + [i];
    assert all[..|all| - 1] == incomes;
    SumAppend(PlannedIncome, Filter(IsOnceIncome, incomes), [i]);
  }

  /**
   * The plan of AnnualPlanServiceTest: one monthly income of 2.5 and one
   * monthly budget of 5, then a once-a-year bonus of 6.
   */
  lemma SurplusOfServiceTestPlan(salary: AnnualIncome, bonus: AnnualIncome, budget: AnnualExpense)
    requires salary.amount == 2.5 && salary.isMonthly
    requires bonus.amount == 6.0 && !bonus.isMonthly
    requires budget.budgetAmount == 5.0 && budget.isMonthly
    ensures MonthlySurplus([salary], [budget]) == -2.5
    ensures AnnualSurplus([salary], [budget]) == -30.0
    ensures AnnualSurplus([salary, bonus], [budget]) == -24.0
  {
    assert Filter(IsMonthlyIncome, [salary]) == [salary] && Filter(IsOnceIncome, [salary]) == [];
    assert Filter(IsMonthlyBudget, [budget]) == [budget] && Filter(IsOnceBudget, [budget]) == [];
    assert Sum(PlannedIncome, [salary]) == 2.5;
    assert Sum(PlannedBudget, [budget]) == 5.0;
    assert [salary] + [bonus] == [salary, bonus];
    OnceIncomeAddsToAnnualOnly([salary], [budget], bonus);
  }

  /** The plan's stored surpluses are those of its own lines. */
  predicate SurplusCurrent(p: PlanData)
  {
    && p.monthlySurplus == Some(MonthlySurplus(p.annualIncomes, p.annualExpenses))
    && p.annualSurplus == Some(AnnualSurplus(p.annualIncomes, p.annualExpenses))
  }

  /** `p` after `calculateSurplus`. */
  function WithSurplus(p: PlanData): (q: PlanData)
    ensures SurplusCurrent(q)
    ensures q.(monthlySurplus := p.monthlySurplus, annualSurplus := p.annualSurplus) == p
  {
    p.(monthlySurplus := Some(MonthlySurplus(p.annualIncomes, p.annualExpenses)),
       annualSurplus := Some(AnnualSurplus(p.annualIncomes, p.annualExpenses)))
  }

  method CalculateSurplus(plan: AnnualBalancePlan)
    modifies plan
    ensures plan.Data() == WithSurplus(old(plan.Data()))
  {
    plan.monthlySurplus := Some(MonthlySurplus(plan.annualIncomes, plan.annualExpenses));
    plan.annualSurplus := Some(AnnualSurplus(plan.annualIncomes, plan.annualExpenses));
  }

  /** Two lists of budget lines with the same frequencies and amounts, position by position. */
  predicate SameBudgets(es: seq<AnnualExpense>, fs: seq<AnnualExpense>)
  {
    |es| == |fs| && forall k :: 0 <= k < |es| ==> es[k].isMonthly == fs[k].isMonthly && es[k].budgetAmount == fs[k].budgetAmount
  }

  lemma SameBudgetsPrefix(es: seq<AnnualExpense>, fs: seq<AnnualExpense>)
    requires SameBudgets(es, fs) && |es| > 0
    ensures SameBudgets(es[..|es| - 1], fs[..|fs| - 1])
  {
  }

  lemma {:induction false} SameBudgetsSameMonthly(es: seq<AnnualExpense>, fs: seq<AnnualExpense>)
    requires SameBudgets(es, fs)
    ensures Sum(PlannedBudget, Filter(IsMonthlyBudget, es)) == Sum(PlannedBudget, Filter(IsMonthlyBudget, fs))
  {
    if |es| > 0 {
      var n := |es| - 1;
      SameBudgetsPrefix(es, fs);
      SameBudgetsSameMonthly(es[..n], fs[..n]);
      if es[n].isMonthly {
        SumAppend(PlannedBudget, Filter(IsMonthlyBudget, es[..n]), [es[n]]);
        SumAppend(PlannedBudget, Filter(IsMonthlyBudget, fs[..n]), [fs[n]]);
      }
    }
  }

  lemma {:induction false} SameBudgetsSameOnce(es: seq<AnnualExpense>, fs: seq<AnnualExpense>)
    requires SameBudgets(es, fs)
    ensures Sum(PlannedBudget, Filter(IsOnceBudget, es)) == Sum(PlannedBudget, Filter(IsOnceBudget, fs))
  {
    if |es| > 0 {
      var n := |es| - 1;
      SameBudgetsPrefix(es, fs);
      SameBudgetsSameOnce(es[..n], fs[..n]);
      if !es[n].isMonthly {
        SumAppend(PlannedBudget, Filter(IsOnceBudget, es[..n]), [es[n]]);
        SumAppend(PlannedBudget, Filter(IsOnceBudget, fs[..n]), [fs[n]]);
      }
    }
  }

  /**
   * The surpluses depend only on how often and how much each line is: not on
   * budget line ids, names or spent amounts.
   */
  lemma SurplusDependsOnBudgetsOnly(incomes: seq<AnnualIncome>, es: seq<AnnualExpense>, fs: seq<AnnualExpense>)
    requires SameBudgets(es, fs)
    ensures MonthlySurplus(incomes, es) == MonthlySurplus(incomes, fs)
    ensures AnnualSurplus(incomes, es) == AnnualSurplus(incomes, fs)
  {
    SameBudgetsSameMonthly(es, fs);
    SameBudgetsSameOnce(es, fs);
  }

  /** Saving keeps a plan's surpluses in step with its lines. */
  lemma SavedPlanSurplusCurrent(p: PlanData, next: int)
    requires SurplusCurrent(p)
    ensures SurplusCurrent(PlanWithIds(p, next))
  {
    SurplusDependsOnBudgetsOnly(p.annualIncomes, p.annualExpenses, NumberBudgetLines(p.annualExpenses, next));
  }

  // ---------------------------------------------------------------------
  // createOrUpdate
  // ---------------------------------------------------------------------

  function NewAssetTarget(d: AssetTargetDto): AssetTarget
  {
    AssetTarget(d.assetGroup, d.name, d.targetAmount, d.allocationPercentage, d.expectedReturnRate, d.sortOrder.GetOr(0))
  }

  function NewLiabilityTarget(d: LiabilityTargetDto): LiabilityTarget
  {
    LiabilityTarget(d.liabilityGroup, d.name, d.targetBalance, d.interestRate, d.sortOrder.GetOr(0))
  }

  function NewAnnualIncome(d: AnnualIncomeDto): AnnualIncome
  {
    AnnualIncome(d.incomeType, d.name, d.amount, d.isMonthly.GetOr(true), d.remark, d.sortOrder.GetOr(0))
  }

  /** A new budget line; the entity's own initialiser gives it a spent amount of ZERO. */
  function NewAnnualExpense(d: AnnualExpenseDto): AnnualExpense
  {
    AnnualExpense(None, d.parentCategory, d.category, d.budgetAmount, d.isMonthly.GetOr(true), Some(0.0), d.sortOrder.GetOr(0))
  }

  /** The ids of the budget lines that have one, in order. */
  function ExistingExpenseIds(es: seq<AnnualExpense>): (ids: seq<int>)
    ensures forall x :: x in ids <==> exists j :: 0 <= j < |es| && es[j].id == Some(x)
  {
    if |es| == 0 then []
    else
      var init := ExistingExpenseIds(es[..|es| - 1]);
      assert forall j :: 0 <= j < |es| - 1 ==> es[..|es| - 1][j] == es[j];
      match es[|es| - 1].id
      case None => init
      case Some(x) => init + [x]
  }

  /** The plan `createOrUpdate` starts from: the stored one for the year, or a new one. */
  function PlanToUpdate(plans: seq<PlanData>, year: int): PlanData
  {
    FindPlanByYear(plans, year).GetOr(PlanData(year, None, None, [], [], [], []))
  }

  /** `base` with every list the request carries replaced by the request's lines, in order. */
  function ApplyRequest(base: PlanData, req: AnnualPlanRequest): PlanData
  {
    base.(year := req.year,
          assetTargets := if req.assetTargets.Some? then Map(NewAssetTarget, req.assetTargets.value) else base.assetTargets,
          liabilityTargets := if req.liabilityTargets.Some? then Map(NewLiabilityTarget, req.liabilityTargets.value) else base.liabilityTargets,
          annualIncomes := if req.annualIncomes.Some? then Map(NewAnnualIncome, req.annualIncomes.value) else base.annualIncomes,
          annualExpenses := if req.annualExpenses.Some? then Map(NewAnnualExpense, req.annualExpenses.value) else base.annualExpenses)
  }

  method ReplaceAssetTargets(plan: AnnualBalancePlan, dtos: seq<AssetTargetDto>)
    modifies plan
    ensures plan.Data() == old(plan.Data()).(assetTargets := Map(NewAssetTarget, dtos))
  {
    plan.assetTargets := [];
    var k := 0;
    while k < |dtos|
      invariant 0 <= k <= |dtos|
      invariant plan.Data() == old(plan.Data()).(assetTargets := Map(NewAssetTarget, dtos[..k]))
    {
      plan.AddAssetTarget(NewAssetTarget(dtos[k]));
      assert dtos[..k + 1][..k] == dtos[..k];
      k := k + 1;
    }
    assert dtos[..k] == dtos;
  }

  method ReplaceLiabilityTargets(plan: AnnualBalancePlan, dtos: seq<LiabilityTargetDto>)
    modifies plan
    ensures plan.Data() == old(plan.Data()).(liabilityTargets := Map(NewLiabilityTarget, dtos))
  {
    plan.liabilityTargets := [];
    var k := 0;
    while k < |dtos|
      invariant 0 <= k <= |dtos|
      invariant plan.Data() == old(plan.Data()).(liabilityTargets := Map(NewLiabilityTarget, dtos[..k]))
    {
      plan.AddLiabilityTarget(NewLiabilityTarget(dtos[k]));
      assert dtos[..k + 1][..k] == dtos[..k];
      k := k + 1;
    }
    assert dtos[..k] == dtos;
  }

  method ReplaceAnnualIncomes(plan: AnnualBalancePlan, dtos: seq<AnnualIncomeDto>)
    modifies plan
    ensures plan.Data() == old(plan.Data()).(annualIncomes := Map(NewAnnualIncome, dtos))
  {
    plan.annualIncomes := [];
    var k := 0;
    while k < |dtos|
      invariant 0 <= k <= |dtos|
      invariant plan.Data() == old(plan.Data()).(annualIncomes := Map(NewAnnualIncome, dtos[..k]))
    {
      plan.AddAnnualIncome(NewAnnualIncome(dtos[k]));
      assert dtos[..k + 1][..k] == dtos[..k];
      k := k + 1;
    }
    assert dtos[..k] == dtos;
  }

  method ReplaceAnnualExpenses(plan: AnnualBalancePlan, dtos: seq<AnnualExpenseDto>)
    modifies plan
    ensures plan.Data() == old(plan.Data()).(annualExpenses := Map(NewAnnualExpense, dtos))
  {
    plan.annualExpenses := [];
    var k := 0;
    while k < |dtos|
      invariant 0 <= k <= |dtos|
      invariant plan.Data() == old(plan.Data()).(annualExpenses := Map(NewAnnualExpense, dtos[..k]))
    {
      plan.AddAnnualExpense(NewAnnualExpense(dtos[k]));
      assert dtos[..k + 1][..k] == dtos[..k];
      k := k + 1;
    }
    assert dtos[..k] == dtos;
  }

  /** Loads `base` into a new plan entity and replaces each list the request carries. */
  method BuildPlan(base: PlanData, req: AnnualPlanRequest) returns (plan: AnnualBalancePlan)
    ensures fresh(plan)
    ensures plan.Data() == ApplyRequest(base, req)
  {
    plan := new AnnualBalancePlan.Load(base);
    plan.year := req.year;
    if req.assetTargets.Some? {
      ReplaceAssetTargets(plan, req.assetTargets.value);
    }
    if req.liabilityTargets.Some? {
      ReplaceLiabilityTargets(plan, req.liabilityTargets.value);
    }
    if req.annualIncomes.Some? {
      ReplaceAnnualIncomes(plan, req.annualIncomes.value);
    }
    if req.annualExpenses.Some? {
      ReplaceAnnualExpenses(plan, req.annualExpenses.value);
    }
  }

  /** The budget lines of the plan to update, and of any request applied to it, have ids below `n` or none. */
  lemma ApplyRequestIdsBelow(plans: seq<PlanData>, req: AnnualPlanRequest, n: int)
    requires PlansValid(plans, n)
    ensures ExpenseIdsBelow(ApplyRequest(PlanToUpdate(plans, req.year), req).annualExpenses, n)
  {
    var found := FindPlanByYear(plans, req.year);
    if found.Some? {
      var k :| 0 <= k < |plans| && plans[k] == found.value;
      assert Identified(plans[k].annualExpenses, n);
    }
  }

  /**
   * The part of `createOrUpdate` before the surplus: loads or creates the plan
   * and replaces each list the request carries. When budget lines are
   * replaced, the expense lines charged to the old ones are detached.
   */
  method ApplyToPlan(db: Database, req: AnnualPlanRequest) returns (plan: AnnualBalancePlan)
    requires db.Valid()
    modifies db
    ensures fresh(plan) && db.Valid()
    ensures plan.Data() == ApplyRequest(PlanToUpdate(old(db.plans), req.year), req)
    ensures ExpenseIdsBelow(plan.annualExpenses, db.nextId)
    ensures var ids := ExistingExpenseIds(PlanToUpdate(old(db.plans), req.year).annualExpenses);
      db.records == if req.annualExpenses.Some? && |ids| > 0 then ClearReferences(old(db.records), ids) else old(db.records)
    ensures db.plans == old(db.plans) && db.nextId == old(db.nextId)
  {
    var base := PlanToUpdate(db.plans, req.year);
    ApplyRequestIdsBelow(db.plans, req, db.nextId);
    plan := BuildPlan(base, req);
    var ids := ExistingExpenseIds(base.annualExpenses);
    if req.annualExpenses.Some? && |ids| > 0 {
      db.ClearAnnualExpenseReferences(ids);
    }
  }

  /** Budget lines saved fresh get identities nobody has charged anything to. */
  lemma FreshBudgetLinesUncharged(records: seq<MonthlyRecordEntity.MonthlyRecordData>, es: seq<AnnualExpense>, next: int)
    requires AllReferencesBelow(records, next)
    requires forall j :: 0 <= j < |es| ==> es[j].id.None?
    ensures forall k, y :: 0 <= k < |es| ==> SpentInYear(records, NumberBudgetLines(es, next)[k].id, y) == 0.0
  {
    forall k, y | 0 <= k < |es|
      ensures SpentInYear(records, NumberBudgetLines(es, next)[k].id, y) == 0.0
    {
      NothingChargedAtOrAbove(records, next, next + k, y);
    }
  }

  /**
   * Saves the plan of `req.year`, creating it when there is none. Each list
   * the request carries replaces the stored one; a list it leaves out is
   * kept. Every new budget line starts with nothing charged to it. The
   * surpluses are recomputed from the resulting lines.
   */
  method CreateOrUpdate(db: Database, req: AnnualPlanRequest) returns (resp: PlanData)
    requires db.Valid()
    modifies db
    ensures db.Valid()
    ensures resp == PlanWithIds(WithSurplus(ApplyRequest(PlanToUpdate(old(db.plans), req.year), req)), old(db.nextId))
    ensures SurplusCurrent(resp)
    ensures db.plans == UpsertPlan(old(db.plans), resp)
    ensures var ids := ExistingExpenseIds(PlanToUpdate(old(db.plans), req.year).annualExpenses);
      db.records == if req.annualExpenses.Some? && |ids| > 0 then ClearReferences(old(db.records), ids) else old(db.records)
    ensures req.annualExpenses.Some? ==>
      forall k, y :: 0 <= k < |resp.annualExpenses| ==> SpentInYear(db.records, resp.annualExpenses[k].id, y) == 0.0
  {
    var plan := ApplyToPlan(db, req);
    CalculateSurplus(plan);
    var unsaved := plan.Data();
    resp := db.SavePlan(unsaved);
    SavedPlanSurplusCurrent(unsaved, old(db.nextId));
    if req.annualExpenses.Some? {
      FreshBudgetLinesUncharged(db.records, unsaved.annualExpenses, old(db.nextId));
    }
  }

  // ---------------------------------------------------------------------
  // updateSpentAmounts, getByYear, getSummary, getAvailableYears
  // ---------------------------------------------------------------------

  /** `e` with its spent amount set to what is charged to it in `year` (ZERO for a null sum). */
  function WithSpent(e: AnnualExpense, records: seq<MonthlyRecordEntity.MonthlyRecordData>, year: int): AnnualExpense
  {
    e.(spentAmount := Some(SpentInYear(records, e.id, year)))
  }

  /** Every budget line of `es` with its spent amount brought up to date; nothing else changes. */
  function ExpensesWithSpent(es: seq<AnnualExpense>, records: seq<MonthlyRecordEntity.MonthlyRecordData>, year: int): (fs: seq<AnnualExpense>)
    ensures |fs| == |es|
    ensures forall k :: 0 <= k < |es| ==>
      fs[k].(spentAmount := es[k].spentAmount) == es[k]
      && fs[k].spentAmount == Some(SpentInYear(records, es[k].id, year))
  {
    seq(|es|, k requires 0 <= k < |es| => WithSpent(es[k], records, year))
  }

  method UpdateSpentAmounts(plan: AnnualBalancePlan, records: seq<MonthlyRecordEntity.MonthlyRecordData>)
    modifies plan
    ensures plan.Data() == old(plan.Data()).(annualExpenses := ExpensesWithSpent(old(plan.annualExpenses), records, old(plan.year)))
  {
    var k := 0;
    while k < |plan.annualExpenses|
      invariant 0 <= k <= |plan.annualExpenses| == |old(plan.annualExpenses)|
      invariant forall i :: 0 <= i < k ==> plan.annualExpenses[i] == WithSpent(old(plan.annualExpenses)[i], records, plan.year)
      invariant forall i :: k <= i < |plan.annualExpenses| ==> plan.annualExpenses[i] == old(plan.annualExpenses)[i]
      invariant plan.Data().(annualExpenses := old(plan.annualExpenses)) == old(plan.Data())
    {
      var e := plan.annualExpenses[k];
      plan.annualExpenses := plan.annualExpenses[k := WithSpent(e, records, plan.year)];
      k := k + 1;
    }
    assert plan.annualExpenses == ExpensesWithSpent(old(plan.annualExpenses), records, old(plan.year));
  }

  /**
   * The plan of `year` with every budget line's spent amount brought up to
   * date from the expense lines of that year's records. Nothing is saved.
   */
  method GetByYear(db: Database, year: int) returns (res: Result<PlanData>)
    ensures res.Err? <==> forall i :: 0 <= i < |db.plans| ==> db.plans[i].year != year
    ensures res.Err? ==> res.error == NotFound
    ensures res.Ok? ==> var p := FindPlanByYear(db.plans, year).value;
      res.value == p.(annualExpenses := ExpensesWithSpent(p.annualExpenses, db.records, year))
  {
    var found := FindPlanByYear(db.plans, year);
    if found.None? {
      return Err(NotFound);
    }
    var plan := new AnnualBalancePlan.Load(found.value);
    UpdateSpentAmounts(plan, db.records);
    res := Ok(plan.Data());
  }

  /**
   * Recomputes the surpluses and the spent amounts of the plan of `year` and
   * saves them.
   */
  method GetSummary(db: Database, year: int) returns (res: Result<PlanData>)
    requires db.Valid()
    modifies db
    ensures db.Valid()
    ensures res.Err? <==> forall i :: 0 <= i < |old(db.plans)| ==> old(db.plans)[i].year != year
    ensures res.Err? ==> res.error == NotFound && db.plans == old(db.plans)
    ensures res.Ok? ==> SurplusCurrent(res.value)
    ensures res.Ok? ==> var p := FindPlanByYear(old(db.plans), year).value;
      res.value == WithSurplus(p).(annualExpenses := ExpensesWithSpent(p.annualExpenses, old(db.records), year))
      && db.plans == UpsertPlan(old(db.plans), res.value)
    ensures db.records == old(db.records)
  {
    var found := FindPlanByYear(db.plans, year);
    if found.None? {
      return Err(NotFound);
    }
    var p := found.value;
    var plan := new AnnualBalancePlan.Load(p);
    CalculateSurplus(plan);
    UpdateSpentAmounts(plan, db.records);
    var unsaved := plan.Data();
    SurplusDependsOnBudgetsOnly(p.annualIncomes, p.annualExpenses, unsaved.annualExpenses);
    assert Identified(unsaved.annualExpenses, db.nextId);
    NumberingIdentified(unsaved.annualExpenses, db.nextId, db.nextId);
    var saved := db.SavePlan(unsaved);
    res := Ok(saved);
  }

  function Year(y: int): int { y }
  function PlanYear(p: PlanData): int { p.year }

  /** `getAvailableYears`: the years that have a plan, ascending. */
  function GetAvailableYears(plans: seq<PlanData>): (years: seq<int>)
    ensures SortedBy(Year, years)
    ensures multiset(years) == multiset(Map(PlanYear, plans))
    ensures forall y :: y in years <==> exists i :: 0 <= i < |plans| && plans[i].year == y
  {
    var years := SortBy(Year, Map(PlanYear, plans));
    assert forall y :: y in years <==> y in multiset(years);
    years
  }
}
