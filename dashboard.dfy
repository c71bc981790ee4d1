/** DashboardService: the read-only summaries the dashboard shows. */
module DashboardService {
  import opened Wrappers
  import opened Seqs
  import opened Enums
  import opened DecimalMath
  import opened Text
  import opened MonthlyDetails
  import opened MonthlyRecordEntity
  import opened AnnualExpenseEntity
  import opened PlanEntities
  import opened Repositories
  import opened AnnualPlanService

  // ---------------------------------------------------------------------
  // getOverview
  // ---------------------------------------------------------------------

  datatype Overview = Overview(
    totalAsset: real,
    totalLiability: real,
    netWorth: real,
    totalIncome: real,
    totalExpense: real,
    surplus: real)

  /** The month's stored totals, or six zeros when the month has no record. */
  function GetOverview(records: seq<MonthlyRecordData>, year: int, month: int): (o: Overview)
    ensures o.netWorth == o.totalAsset - o.totalLiability
    ensures o.surplus == o.totalIncome - o.totalExpense
    ensures !ExistsByYearAndMonth(records, year, month) ==> o == Overview(0.0, 0.0, 0.0, 0.0, 0.0, 0.0)
    ensures ExistsByYearAndMonth(records, year, month) ==>
      var r := FindByYearAndMonth(records, year, month).value;
      o.totalAsset == r.totalAsset && o.totalLiability == r.totalLiability
      && o.totalIncome == r.totalIncome && o.totalExpense == r.totalExpense
  {
    match FindByYearAndMonth(records, year, month)
    case None => Overview(0.0, 0.0, 0.0, 0.0, 0.0, 0.0)
    case Some(r) => Overview(r.totalAsset, r.totalLiability, r.NetWorth(), r.totalIncome, r.totalExpense, r.Surplus())
  }

  /** For a record whose totals were recalculated, the overview is the sums of its lines. */
  lemma OverviewOfRecalculatedRecord(records: seq<MonthlyRecordData>, year: int, month: int)
    requires ExistsByYearAndMonth(records, year, month)
    requires FindByYearAndMonth(records, year, month).value.TotalsConsistent()
    ensures var r, o := FindByYearAndMonth(records, year, month).value, GetOverview(records, year, month);
      o.netWorth == AssetTotal(r.assetDetails) - LiabilityTotal(r.liabilityDetails)
      && o.surplus == IncomeTotal(r.incomeDetails) - ExpenseTotal(r.expenseDetails)
  {
  }

  // ---------------------------------------------------------------------
  // getAssetTrend, getIncomeExpenseTrend
  // ---------------------------------------------------------------------

  /** `month + "月"`. */
  function MonthLabel(month: int): string
  {
    (if month >= 0 then NatToString(month) else "-" + NatToString(-month)) + "月"
  }

  datatype AssetPoint = AssetPoint(period: string, month: int, asset: real, liability: real, netWorth: real)
  datatype CashFlowPoint = CashFlowPoint(period: string, month: int, income: real, expense: real, surplus: real)

  function AssetPointOf(r: MonthlyRecordData): AssetPoint
  {
    AssetPoint(MonthLabel(r.month), r.month, r.totalAsset, r.totalLiability, r.NetWorth())
  }

  function CashFlowPointOf(r: MonthlyRecordData): CashFlowPoint
  {
    CashFlowPoint(MonthLabel(r.month), r.month, r.totalIncome, r.totalExpense, r.Surplus())
  }

  /** The sorted query returns every record of the year once, months ascending. */
  lemma YearRecordsInMonthOrder(records: seq<MonthlyRecordData>, year: int)
    ensures var rs := FindByYearOrderByMonthAsc(records, year);
      && |rs| == |RecordsOfYear(records, year)|
      && forall i, j :: 0 <= i < j < |rs| ==> rs[i].month <= rs[j].month
  {
    var rs := FindByYearOrderByMonthAsc(records, year);
    assert |multiset(rs)| == |multiset(RecordsOfYear(records, year))|;
    forall i, j | 0 <= i < j < |rs|
      ensures rs[i].month <= rs[j].month
    {
      assert RecordMonth(rs[i]) <= RecordMonth(rs[j]);
    }
  }

  /** One point per record of the year, months ascending; net worth is asset less liability. */
  function GetAssetTrend(records: seq<MonthlyRecordData>, year: int): (pts: seq<AssetPoint>)
    ensures |pts| == |RecordsOfYear(records, year)|
    ensures forall i, j :: 0 <= i < j < |pts| ==> pts[i].month <= pts[j].month
    ensures forall k :: 0 <= k < |pts| ==> pts[k].netWorth == pts[k].asset - pts[k].liability
    ensures forall r :: r in records && r.year == year ==> AssetPointOf(r) in pts
    ensures forall p :: p in pts ==> exists r :: r in records && r.year == year && p == AssetPointOf(r)
  {
    var rs := FindByYearOrderByMonthAsc(records, year);
    YearRecordsInMonthOrder(records, year);
    MapMembers(AssetPointOf, rs);
    Map(AssetPointOf, rs)
  }

  /** One point per record of the year, months ascending; surplus is income less expense. */
  function GetIncomeExpenseTrend(records: seq<MonthlyRecordData>, year: int): (pts: seq<CashFlowPoint>)
    ensures |pts| == |RecordsOfYear(records, year)|
    ensures forall i, j :: 0 <= i < j < |pts| ==> pts[i].month <= pts[j].month
    ensures forall k :: 0 <= k < |pts| ==> pts[k].surplus == pts[k].income - pts[k].expense
    ensures forall r :: r in records && r.year == year ==> CashFlowPointOf(r) in pts
    ensures forall p :: p in pts ==> exists r :: r in records && r.year == year && p == CashFlowPointOf(r)
  {
    var rs := FindByYearOrderByMonthAsc(records, year);
    YearRecordsInMonthOrder(records, year);
    MapMembers(CashFlowPointOf, rs);
    Map(CashFlowPointOf, rs)
  }

  // ---------------------------------------------------------------------
  // getAssetDistribution
  // ---------------------------------------------------------------------

  datatype DistributionItem = DistributionItem(
    group: string,
    groupLabel: string,
    currentAmount: real,
    targetAmount: real,
    percentage: real)

  /** The month's amount in group `g`: the group sum of the record's lines, ZERO when there is none. */
  function CurrentAmount(record: Option<MonthlyRecordData>, g: AssetGroup): real
  {
    match record
    case None => 0.0
    case Some(r) => SumAmountByGroup(r.assetDetails, g).GetOr(0.0)
  }

  /** The targets of group `g`, added up. */
  function GroupTarget(ts: seq<AssetTarget>, g: AssetGroup): real
  {
    if |ts| == 0 then 0.0
    else GroupTarget(ts[..|ts| - 1], g) + (if ts[|ts| - 1].assetGroup == g then ts[|ts| - 1].targetAmount else 0.0)
  }

  function TargetAmount(plan: Option<PlanData>, g: AssetGroup): real
  {
    match plan
    case None => 0.0
    case Some(p) => GroupTarget(p.assetTargets, g)
  }

  /** How much of a target is reached, in percent; 0 unless the target is positive. */
  function ShareOf(amount: real, whole: real): (p: real)
    ensures whole <= 0.0 ==> p == 0.0
    ensures whole > 0.0 ==> -0.005 <= p - 100.0 * (amount / whole) <= 0.005
    ensures whole > 0.0 && amount >= whole ==> p >= 100.0
    ensures whole > 0.0 && 0.0 <= amount <= whole ==> 0.0 <= p <= 100.0
  {
    if whole > 0.0 then
      RatePercentAgainstWhole(amount, whole);
      RatePercent(amount, whole)
    else 0.0
  }

  function DistributionItemOf(record: Option<MonthlyRecordData>, plan: Option<PlanData>, g: AssetGroup): DistributionItem
  {
    var current, target := CurrentAmount(record, g), TargetAmount(plan, g);
    DistributionItem(g.Name(), g.Label(), current, target, ShareOf(current, target))
  }

  /** The body of the loop over the groups: the group's current amount, target and share. */
  method DistributionItemFor(record: Option<MonthlyRecordData>, plan: Option<PlanData>, group: AssetGroup)
    returns (item: DistributionItem)
    ensures item == DistributionItemOf(record, plan, group)
  {
    var currentAmount := 0.0;
    if record.Some? {
      var sum := SumAmountByGroup(record.value.assetDetails, group);
      if sum.Some? {
        currentAmount := sum.value;
      }
    }
    var targetAmount := 0.0;
    if plan.Some? {
      targetAmount := GroupTarget(plan.value.assetTargets, group);
    }
    assert currentAmount == CurrentAmount(record, group);
    assert targetAmount == TargetAmount(plan, group);
    var percentage := 0.0;
    if targetAmount > 0.0 {
      percentage := RatePercent(currentAmount, targetAmount);
    }
    assert percentage == ShareOf(currentAmount, targetAmount);
    item := DistributionItem(group.Name(), group.Label(), currentAmount, targetAmount, percentage);
  }

  /** One item per asset group, in declaration order. */
  method GetAssetDistribution(db: Database, year: int, month: int) returns (items: seq<DistributionItem>)
    ensures |items| == |AssetGroups|
    ensures forall k :: 0 <= k < |items| ==>
      items[k] == DistributionItemOf(FindByYearAndMonth(db.records, year, month), FindPlanByYear(db.plans, year), AssetGroups[k])
  {
    var record := FindByYearAndMonth(db.records, year, month);
    var plan := FindPlanByYear(db.plans, year);
    items := [];
    var k := 0;
    while k < |AssetGroups|
      invariant 0 <= k <= |AssetGroups| && |items| == k
      invariant forall i :: 0 <= i < k ==> items[i] == DistributionItemOf(record, plan, AssetGroups[i])
    {
      var item := DistributionItemFor(record, plan, AssetGroups[k]);
      items := items + [item];
      k := k + 1;
    }
  }

  function TargetAmountOf(t: AssetTarget): real { t.targetAmount }
  function TargetBalanceOf(t: LiabilityTarget): real { t.targetBalance }

  /** The three group targets add up to the plan's whole asset target. */
  lemma {:induction false} GroupTargetsPartition(ts: seq<AssetTarget>)
    ensures GroupTarget(ts, AssetGroup.LIQUID) + GroupTarget(ts, AssetGroup.PROTECTION) + GroupTarget(ts, AssetGroup.INVESTMENT)
         == Sum(TargetAmountOf, ts)
  {
    if |ts| > 0 {
      GroupTargetsPartition(ts[..|ts| - 1]);
    }
  }

  /** A group without lines contributes ZERO, as the null sum is replaced by ZERO. */
  lemma GroupSumOrZero(ds: seq<AssetDetail>, g: AssetGroup)
    ensures SumAmountByGroup(ds, g).GetOr(0.0) == AssetTotal(AssetsOfGroup(ds, g))
  {
  }

  lemma AssetTotalSnoc(ds: seq<AssetDetail>, d: AssetDetail)
    ensures AssetTotal(ds + [d]) == AssetTotal(ds) + d.amount
  {
    assert (ds + [d])[..|ds|] == ds;
  }

  /** One more line adds to the total of its own group only. */
  lemma GroupSnoc(ds: seq<AssetDetail>, d: AssetDetail, g: AssetGroup)
    ensures AssetTotal(AssetsOfGroup(ds + [d], g)) == AssetTotal(AssetsOfGroup(ds, g)) + (if d.assetGroup == g then d.amount else 0.0)
  {
    assert (ds + [d])[..|ds|] == ds;
    if d.assetGroup == g {
      AssetTotalSnoc(AssetsOfGroup(ds, g), d);
    }
  }

  lemma {:induction false} GroupTotalsPartition(ds: seq<AssetDetail>)
    ensures AssetTotal(AssetsOfGroup(ds, AssetGroup.LIQUID)) + AssetTotal(AssetsOfGroup(ds, AssetGroup.PROTECTION))
          + AssetTotal(AssetsOfGroup(ds, AssetGroup.INVESTMENT)) == AssetTotal(ds)
  {
    if |ds| > 0 {
      var init, last := ds[..|ds| - 1], ds[|ds| - 1];
      GroupTotalsPartition(init);
      assert ds == init + [last];
      AssetTotalSnoc(init, last);
      GroupSnoc(init, last, AssetGroup.LIQUID);
      GroupSnoc(init, last, AssetGroup.PROTECTION);
      GroupSnoc(init, last, AssetGroup.INVESTMENT);
    }
  }

  /** The three current amounts add up to the record's total assets as its lines sum them. */
  lemma CurrentAmountsPartition(r: MonthlyRecordData)
    ensures CurrentAmount(Some(r), AssetGroup.LIQUID) + CurrentAmount(Some(r), AssetGroup.PROTECTION)
          + CurrentAmount(Some(r), AssetGroup.INVESTMENT) == AssetTotal(r.assetDetails)
  {
    GroupSumOrZero(r.assetDetails, AssetGroup.LIQUID);
    GroupSumOrZero(r.assetDetails, AssetGroup.PROTECTION);
    GroupSumOrZero(r.assetDetails, AssetGroup.INVESTMENT);
    GroupTotalsPartition(r.assetDetails);
  }

  // ---------------------------------------------------------------------
  // getAnnualProgress
  // ---------------------------------------------------------------------

  /** `getParentCategory() != DAILY`: a line without a parent category is kept. */
  predicate NotDaily(e: AnnualExpense) { e.parentCategory != Some(ExpenseCategory.DAILY) }

  datatype BudgetProgress = BudgetProgress(
    category: string,
    budgetAmount: real,
    spentAmount: real,
    remainingAmount: real,
    executionRate: real)

  datatype AnnualProgress =
    | NoPlan
    | AnnualProgress(monthlySurplus: Option<real>, annualSurplus: Option<real>, budgetProgress: seq<BudgetProgress>)

  /** A line's progress: spent is the year's sum, the budget is the raw (monthly or yearly) amount. */
  function ProgressItem(e: AnnualExpense, records: seq<MonthlyRecordData>, year: int): (item: BudgetProgress)
    ensures item.category == e.category && item.budgetAmount == e.budgetAmount
    ensures item.spentAmount == SpentInYear(records, e.id, year)
    ensures item.remainingAmount + item.spentAmount == item.budgetAmount
    ensures item.budgetAmount <= 0.0 ==> item.executionRate == 0.0
    ensures item.budgetAmount > 0.0 ==> -0.005 <= item.executionRate - 100.0 * (item.spentAmount / item.budgetAmount) <= 0.005
  {
    var spent := SpentInYear(records, e.id, year);
    BudgetProgress(e.category, e.budgetAmount, spent, e.budgetAmount - spent, ShareOf(spent, e.budgetAmount))
  }

  /** The progress items of the lines that are not DAILY, in plan order. */
  function ProgressItems(es: seq<AnnualExpense>, records: seq<MonthlyRecordData>, year: int): (items: seq<BudgetProgress>)
    ensures |items| == |Filter(NotDaily, es)|
    ensures forall k :: 0 <= k < |items| ==> items[k] == ProgressItem(Filter(NotDaily, es)[k], records, year)
  {
    if |es| == 0 then []
    else
      var init := ProgressItems(es[..|es| - 1], records, year);
      if NotDaily(es[|es| - 1]) then init + [ProgressItem(es[|es| - 1], records, year)] else init
  }

  /**
   * `getAnnualProgress`: no data without a plan of the year; otherwise the
   * plan's two surpluses and one progress item per budget line that is not
   * DAILY, in plan order.
   */
  function GetAnnualProgress(plans: seq<PlanData>, records: seq<MonthlyRecordData>, year: int): (res: AnnualProgress)
    ensures res.NoPlan? <==> FindPlanByYear(plans, year).None?
    ensures res.AnnualProgress? ==> var p := FindPlanByYear(plans, year).value;
      && res.monthlySurplus == p.monthlySurplus && res.annualSurplus == p.annualSurplus
      && |res.budgetProgress| == |Filter(NotDaily, p.annualExpenses)|
      && forall k :: 0 <= k < |res.budgetProgress| ==>
           res.budgetProgress[k] == ProgressItem(Filter(NotDaily, p.annualExpenses)[k], records, year)
  {
    match FindPlanByYear(plans, year)
    case None => NoPlan
    case Some(p) => AnnualProgress(p.monthlySurplus, p.annualSurplus, ProgressItems(p.annualExpenses, records, year))
  }

  /**
   * For a positive budget the dashboard's figures are those the budget line
   * itself reports once its spent amount is brought up to date.
   */
  lemma ProgressAgreesWithBudgetLine(e: AnnualExpense, records: seq<MonthlyRecordData>, year: int)
    requires e.budgetAmount > 0.0
    ensures var item, f := ProgressItem(e, records, year), WithSpent(e, records, year);
      item.remainingAmount == f.RemainingAmount() && f.ExecutionRate() == Ok(item.executionRate)
  {
  }

  /**
   * Each item the annual progress lists comes from a budget line of the
   * year's plan that is not DAILY, and for a positive budget it shows the
   * remaining amount and rate that line reports once its spent amount is
   * brought up to date.
   */
  lemma AnnualProgressAgreesWithPlan(plans: seq<PlanData>, records: seq<MonthlyRecordData>, year: int, k: nat)
    requires FindPlanByYear(plans, year).Some?
    requires k < |GetAnnualProgress(plans, records, year).budgetProgress|
    ensures var p := FindPlanByYear(plans, year).value;
      var e, item := Filter(NotDaily, p.annualExpenses)[k], GetAnnualProgress(plans, records, year).budgetProgress[k];
      && e in p.annualExpenses && NotDaily(e)
      && item.category == e.category && item.budgetAmount == e.budgetAmount
      && (e.budgetAmount > 0.0 ==>
            item.remainingAmount == WithSpent(e, records, year).RemainingAmount()
            && WithSpent(e, records, year).ExecutionRate() == Ok(item.executionRate))
  {
    var p := FindPlanByYear(plans, year).value;
    var e := Filter(NotDaily, p.annualExpenses)[k];
    FilterMembers(NotDaily, p.annualExpenses);
    if e.budgetAmount > 0.0 {
      ProgressAgreesWithBudgetLine(e, records, year);
    }
  }

  // ---------------------------------------------------------------------
  // getAnnualTargetTrend
  // ---------------------------------------------------------------------

  datatype MonthPoint = MonthPoint(
    month: int,
    assetTarget: real,
    liabilityTarget: real,
    assetActual: Option<real>,
    liabilityActual: Option<real>)

  datatype TargetTrend =
    | NoTarget
    | TargetTrend(assetTargetTotal: real, liabilityTargetTotal: real, monthlyData: seq<MonthPoint>)

  /** A month of the trend: the year's targets, and the month's totals when it has a record. */
  function MonthPointOf(records: seq<MonthlyRecordData>, year: int, month: int, assetTarget: real, liabilityTarget: real): (p: MonthPoint)
    ensures p.month == month && p.assetTarget == assetTarget && p.liabilityTarget == liabilityTarget
    ensures p.assetActual.None? <==> !ExistsByYearAndMonth(records, year, month)
    ensures p.assetActual.None? <==> p.liabilityActual.None?
    ensures p.assetActual.Some? ==>
      exists r :: r in records && r.year == year && r.month == month
        && p.assetActual == Some(r.totalAsset) && p.liabilityActual == Some(r.totalLiability)
  {
    match FindByYearAndMonth(records, year, month)
    case None => MonthPoint(month, assetTarget, liabilityTarget, None, None)
    case Some(r) => MonthPoint(month, assetTarget, liabilityTarget, Some(r.totalAsset), Some(r.totalLiability))
  }

  /** No plan: no target. Otherwise twelve points, months 1 to 12, all with the same targets. */
  method GetAnnualTargetTrend(db: Database, year: int) returns (res: TargetTrend)
    ensures res.NoTarget? <==> FindPlanByYear(db.plans, year).None?
    ensures res.TargetTrend? ==>
      var p := FindPlanByYear(db.plans, year).value;
      && res.assetTargetTotal == Sum(TargetAmountOf, p.assetTargets)
      && res.liabilityTargetTotal == Sum(TargetBalanceOf, p.liabilityTargets)
      && |res.monthlyData| == 12
      && forall k :: 0 <= k < 12 ==>
        res.monthlyData[k] == MonthPointOf(db.records, year, k + 1, res.assetTargetTotal, res.liabilityTargetTotal)
  {
    var plan := FindPlanByYear(db.plans, year);
    if plan.None? {
      return NoTarget;
    }
    var assetTargetTotal := Sum(TargetAmountOf, plan.value.assetTargets);
    var liabilityTargetTotal := Sum(TargetBalanceOf, plan.value.liabilityTargets);
    var monthlyData := [];
    var month := 1;
    while month <= 12
      invariant 1 <= month <= 13 && |monthlyData| == month - 1
      invariant forall k :: 0 <= k < month - 1 ==>
        monthlyData[k] == MonthPointOf(db.records, year, k + 1, assetTargetTotal, liabilityTargetTotal)
    {
      var point := MonthPoint(month, assetTargetTotal, liabilityTargetTotal, None, None);
      var record := FindByYearAndMonth(db.records, year, month);
      if record.Some? {
        point := point.(assetActual := Some(record.value.totalAsset), liabilityActual := Some(record.value.totalLiability));
      }
      monthlyData := monthlyData + [point];
      month := month + 1;
    }
    res := TargetTrend(assetTargetTotal, liabilityTargetTotal, monthlyData);
  }

  // ---------------------------------------------------------------------
  // getBudgetPie
  // ---------------------------------------------------------------------

  datatype PieSlice = PieSlice(category: string, budgetAmount: real, spentAmount: real, percentage: real)

  datatype BudgetPie =
    | NoPie
    | BudgetPie(totalBudget: real, totalSpent: real, categories: seq<PieSlice>)

  /** The spending of the year charged to the lines, added up. */
  function SpentTotal(es: seq<AnnualExpense>, records: seq<MonthlyRecordData>, year: int): real
  {
    if |es| == 0 then 0.0 else SpentTotal(es[..|es| - 1], records, year) + SpentInYear(records, es[|es| - 1].id, year)
  }

  /** A slice: the budget over the year, the year's spending and its share of all spending. */
  function SliceOf(e: AnnualExpense, records: seq<MonthlyRecordData>, year: int, totalSpent: real): PieSlice
  {
    var spent := SpentInYear(records, e.id, year);
    PieSlice(e.category, YearlyBudget(e), spent, ShareOf(spent, totalSpent))
  }

  function Slices(es: seq<AnnualExpense>, records: seq<MonthlyRecordData>, year: int, totalSpent: real): (ss: seq<PieSlice>)
    ensures |ss| == |es|
    ensures forall k :: 0 <= k < |es| ==> ss[k] == SliceOf(es[k], records, year, totalSpent)
  {
    if |es| == 0 then [] else Slices(es[..|es| - 1], records, year, totalSpent) + [SliceOf(es[|es| - 1], records, year, totalSpent)]
  }

  /** A slice as the first loop builds it: the budget over the year and the year's spending, its share still 0. */
  function UnsharedSlice(e: AnnualExpense, records: seq<MonthlyRecordData>, year: int): PieSlice
  {
    PieSlice(e.category, YearlyBudget(e), SpentInYear(records, e.id, year), 0.0)
  }

  function UnsharedSlices(es: seq<AnnualExpense>, records: seq<MonthlyRecordData>, year: int): (ss: seq<PieSlice>)
    ensures |ss| == |es|
    ensures forall k :: 0 <= k < |es| ==> ss[k] == UnsharedSlice(es[k], records, year)
  {
    if |es| == 0 then [] else UnsharedSlices(es[..|es| - 1], records, year) + [UnsharedSlice(es[|es| - 1], records, year)]
  }

  /** The pie of a plan: its lines that are not DAILY. */
  function PieOf(p: PlanData, records: seq<MonthlyRecordData>, year: int): BudgetPie
  {
    var lines := Filter(NotDaily, p.annualExpenses);
    var totalSpent := SpentTotal(lines, records, year);
    BudgetPie(Sum(YearlyBudget, lines), totalSpent, Slices(lines, records, year, totalSpent))
  }

  /** One more line adds its slice and its amounts to the totals. */
  lemma PieLinesSnoc(lines: seq<AnnualExpense>, e: AnnualExpense, records: seq<MonthlyRecordData>, year: int)
    ensures UnsharedSlices(lines + [e], records, year) == UnsharedSlices(lines, records, year) + [UnsharedSlice(e, records, year)]
    ensures Sum(YearlyBudget, lines + [e]) == Sum(YearlyBudget, lines) + YearlyBudget(e)
    ensures SpentTotal(lines + [e], records, year) == SpentTotal(lines, records, year) + SpentInYear(records, e.id, year)
  {
    assert (lines + [e])[..|lines|] == lines;
  }

  /** A turn of the first loop keeps a line that is not DAILY and skips a DAILY one. */
  lemma PieLoopStep(es: seq<AnnualExpense>, i: nat)
    requires i < |es|
    ensures Filter(NotDaily, es[..i + 1]) == if NotDaily(es[i]) then Filter(NotDaily, es[..i]) + [es[i]] else Filter(NotDaily, es[..i])
  {
    assert es[..i + 1] == es[..i] + [es[i]];
    FilterSnoc(NotDaily, es[..i], es[i]);
  }

  /** A line that is not DAILY: its slice, with the budget annualised, and its amounts added to the totals. */
  method AddSlice(categories: seq<PieSlice>, totalBudget: real, totalSpent: real, expense: AnnualExpense,
                  records: seq<MonthlyRecordData>, year: int, ghost lines: seq<AnnualExpense>)
    returns (categories': seq<PieSlice>, totalBudget': real, totalSpent': real)
    requires categories == UnsharedSlices(lines, records, year)
    requires totalBudget == Sum(YearlyBudget, lines) && totalSpent == SpentTotal(lines, records, year)
    ensures categories' == UnsharedSlices(lines + [expense], records, year)
    ensures totalBudget' == Sum(YearlyBudget, lines + [expense])
    ensures totalSpent' == SpentTotal(lines + [expense], records, year)
  {
    PieLinesSnoc(lines, expense, records, year);
    var budgetAmount := YearlyBudget(expense);
    totalBudget' := totalBudget + budgetAmount;
    var spentAmount := SpentInYear(records, expense.id, year);
    totalSpent' := totalSpent + spentAmount;
    categories' := categories + [PieSlice(expense.category, budgetAmount, spentAmount, 0.0)];
  }

  /** The pie's first loop: a slice, without its share yet, per line that is not DAILY, and the two totals. */
  method CollectSlices(es: seq<AnnualExpense>, records: seq<MonthlyRecordData>, year: int)
    returns (categories: seq<PieSlice>, totalBudget: real, totalSpent: real)
    ensures categories == UnsharedSlices(Filter(NotDaily, es), records, year)
    ensures totalBudget == Sum(YearlyBudget, Filter(NotDaily, es))
    ensures totalSpent == SpentTotal(Filter(NotDaily, es), records, year)
  {
    categories := [];
    totalBudget := 0.0;
    totalSpent := 0.0;
    ghost var lines: seq<AnnualExpense> := [];
    var i := 0;
    while i < |es|
      invariant 0 <= i <= |es|
      invariant lines == Filter(NotDaily, es[..i])
      invariant categories == UnsharedSlices(lines, records, year)
      invariant totalBudget == Sum(YearlyBudget, lines)
      invariant totalSpent == SpentTotal(lines, records, year)
    {
      var expense := es[i];
      PieLoopStep(es, i);
      if NotDaily(expense) {
        categories, totalBudget, totalSpent := AddSlice(categories, totalBudget, totalSpent, expense, records, year, lines);
        lines := lines + [expense];
      }
      i := i + 1;
    }
    assert es[..i] == es;
  }

  /** The pie's second loop: each slice gets its share of `totalSpent`. */
  method FillShares(categories: seq<PieSlice>, totalSpent: real) returns (filled: seq<PieSlice>)
    ensures |filled| == |categories|
    ensures forall k :: 0 <= k < |filled| ==>
      filled[k] == categories[k].(percentage := ShareOf(categories[k].spentAmount, totalSpent))
  {
    filled := categories;
    var j := 0;
    while j < |filled|
      invariant 0 <= j <= |filled| == |categories|
      invariant forall k :: 0 <= k < j ==> filled[k] == categories[k].(percentage := ShareOf(categories[k].spentAmount, totalSpent))
      invariant forall k :: j <= k < |filled| ==> filled[k] == categories[k]
    {
      var spentAmount := filled[j].spentAmount;
      var percentage := if totalSpent > 0.0 then RatePercent(spentAmount, totalSpent) else 0.0;
      filled := filled[j := filled[j].(percentage := percentage)];
      j := j + 1;
    }
  }

  /**
   * `getBudgetPie`: no plan, no pie; otherwise the slices of the lines that
   * are not DAILY, each with its share of the year's spending.
   */
  method GetBudgetPie(db: Database, year: int) returns (res: BudgetPie)
    ensures res.NoPie? <==> FindPlanByYear(db.plans, year).None?
    ensures res.BudgetPie? ==> res == PieOf(FindPlanByYear(db.plans, year).value, db.records, year)
  {
    var plan := FindPlanByYear(db.plans, year);
    if plan.None? {
      return NoPie;
    }
    var categories, totalBudget, totalSpent := CollectSlices(plan.value.annualExpenses, db.records, year);
    categories := FillShares(categories, totalSpent);
    res := BudgetPie(totalBudget, totalSpent, categories);
  }

  function PercentageOf(s: PieSlice): real { s.percentage }

  lemma DivideSum(a: real, b: real, d: real)
    requires d != 0.0
    ensures (a + b) / d == a / d + b / d
  {
  }

  lemma DivideSelf(d: real)
    requires d != 0.0
    ensures d / d == 1.0
  {
    assert (d / d) * d == d;
  }

  /** Each share is off by at most half a hundredth of a percent, so the shares add up to nearly their exact total. */
  lemma {:induction false} SharesNearlyExact(es: seq<AnnualExpense>, records: seq<MonthlyRecordData>, year: int, total: real)
    requires total > 0.0
    ensures var sum, exact := Sum(PercentageOf, Slices(es, records, year, total)), 100.0 * (SpentTotal(es, records, year) / total);
      -0.005 * (|es| as real) <= sum - exact <= 0.005 * (|es| as real)
  {
    if |es| > 0 {
      var init, last := es[..|es| - 1], es[|es| - 1];
      SharesNearlyExact(init, records, year, total);
      var ss := Slices(es, records, year, total);
      assert ss[..|ss| - 1] == Slices(init, records, year, total);
      var before, spent := SpentTotal(init, records, year), SpentInYear(records, last.id, year);
      var u, v := before / total, spent / total;
      DivideSum(before, spent, total);
      assert SpentTotal(es, records, year) / total == u + v;
      var x := ss[|ss| - 1].percentage;
      assert x == ShareOf(spent, total);
      assert -0.005 <= x - 100.0 * v <= 0.005;
      assert Sum(PercentageOf, ss) == Sum(PercentageOf, Slices(init, records, year, total)) + x;
    }
  }

  /**
   * When anything was spent, the pie's percentages add up to 100 within half a
   * hundredth per slice; when nothing was, every percentage is 0.
   */
  lemma PiePercentagesAddUp(p: PlanData, records: seq<MonthlyRecordData>, year: int)
    ensures var pie := PieOf(p, records, year);
      && (pie.totalSpent > 0.0 ==>
           -0.005 * (|pie.categories| as real) <= Sum(PercentageOf, pie.categories) - 100.0 <= 0.005 * (|pie.categories| as real))
      && (pie.totalSpent <= 0.0 ==> forall k :: 0 <= k < |pie.categories| ==> pie.categories[k].percentage == 0.0)
  {
    var lines := Filter(NotDaily, p.annualExpenses);
    var total := SpentTotal(lines, records, year);
    if total > 0.0 {
      SharesNearlyExact(lines, records, year, total);
      DivideSelf(total);
    }
  }

  /** The pie's total budget is the year's plan for the lines it shows: twelve monthly budgets and each yearly one. */
  lemma PieBudgetIsYearlyPlan(p: PlanData, records: seq<MonthlyRecordData>, year: int)
    ensures var lines := Filter(NotDaily, p.annualExpenses);
      PieOf(p, records, year).totalBudget
      == 12.0 * Sum(PlannedBudget, Filter(IsMonthlyBudget, lines)) + Sum(PlannedBudget, Filter(IsOnceBudget, lines))
  {
    BudgetsByFrequency(Filter(NotDaily, p.annualExpenses));
  }
}
