/** The AnnualBalancePlan entity and the target and income lines it owns. */
module PlanEntities {
  import opened Wrappers
  import opened Enums
  import opened AnnualExpenseEntity

  datatype AssetTarget = AssetTarget(
    assetGroup: AssetGroup,
    name: string,
    targetAmount: real,
    allocationPercentage: Option<real>,
    expectedReturnRate: Option<real>,
    sortOrder: int)

  datatype LiabilityTarget = LiabilityTarget(
    liabilityGroup: Option<LiabilityGroup>,
    name: string,
    targetBalance: real,
    interestRate: Option<real>,
    sortOrder: int)

  /** `isMonthly`: whether `amount` comes in every month (true) or once a year. */
  datatype AnnualIncome = AnnualIncome(
    incomeType: IncomeType,
    name: string,
    amount: real,
    isMonthly: bool,
    remark: Option<string>,
    sortOrder: int)

  /** A year's plan as a value: a stored row, or the body of a response. */
  datatype PlanData = PlanData(
    year: int,
    monthlySurplus: Option<real>,
    annualSurplus: Option<real>,
    assetTargets: seq<AssetTarget>,
    liabilityTargets: seq<LiabilityTarget>,
    annualIncomes: seq<AnnualIncome>,
    annualExpenses: seq<AnnualExpense>)

  /** The entity as the services hold it while they build or change a plan. */
  class AnnualBalancePlan {
    var year: int
    var monthlySurplus: Option<real>
    var annualSurplus: Option<real>
    var assetTargets: seq<AssetTarget>
    var liabilityTargets: seq<LiabilityTarget>
    var annualIncomes: seq<AnnualIncome>
    var annualExpenses: seq<AnnualExpense>

    function Data(): PlanData
      reads this
    {
      PlanData(year, monthlySurplus, annualSurplus, assetTargets, liabilityTargets, annualIncomes, annualExpenses)
    }

    /** `new AnnualBalancePlan()` followed by `setYear`: no surplus yet, all lists empty. */
    constructor (year: int)
      ensures Data() == PlanData(year, None, None, [], [], [], [])
    {
      this.year := year;
      monthlySurplus := None;
      annualSurplus := None;
      assetTargets := [];
      liabilityTargets := [];
      annualIncomes := [];
      annualExpenses := [];
    }

    /** The entity a repository `find…` hands out for a stored row. */
    constructor Load(row: PlanData)
      ensures Data() == row
    {
      year := row.year;
      monthlySurplus := row.monthlySurplus;
      annualSurplus := row.annualSurplus;
      assetTargets := row.assetTargets;
      liabilityTargets := row.liabilityTargets;
      annualIncomes := row.annualIncomes;
      annualExpenses := row.annualExpenses;
    }

    method AddAssetTarget(t: AssetTarget)
      modifies this
      ensures Data() == old(Data()).(assetTargets := old(assetTargets) + [t])
    {
      assetTargets := assetTargets + [t];
    }

    method AddLiabilityTarget(t: LiabilityTarget)
      modifies this
      ensures Data() == old(Data()).(liabilityTargets := old(liabilityTargets) + [t])
    {
      liabilityTargets := liabilityTargets + [t];
    }

    method AddAnnualIncome(i: AnnualIncome)
      modifies this
      ensures Data() == old(Data()).(annualIncomes := old(annualIncomes) + [i])
    {
      annualIncomes := annualIncomes + [i];
    }

    method AddAnnualExpense(e: AnnualExpense)
      modifies this
      ensures Data() == old(Data()).(annualExpenses := old(annualExpenses) + [e])
    {
      annualExpenses := annualExpenses + [e];
    }
  }
}
