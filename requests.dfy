/**
 * The request bodies the services receive. A list the client left out is
 * `None`. The bean-validation rules the controllers enforce (names present,
 * amounts present) hold by construction here: those fields are not optional.
 * The ids a client may send for lines are ignored by every service and are
 * not modelled.
 */
module Requests {
  import opened Wrappers
  import opened Enums

  datatype AssetTargetDto = AssetTargetDto(
    assetGroup: AssetGroup,
    name: string,
    targetAmount: real,
    allocationPercentage: Option<real>,
    expectedReturnRate: Option<real>,
    sortOrder: Option<int>)

  datatype LiabilityTargetDto = LiabilityTargetDto(
    liabilityGroup: Option<LiabilityGroup>,
    name: string,
    targetBalance: real,
    interestRate: Option<real>,
    sortOrder: Option<int>)

  datatype AnnualIncomeDto = AnnualIncomeDto(
    incomeType: IncomeType,
    name: string,
    amount: real,
    isMonthly: Option<bool>,
    remark: Option<string>,
    sortOrder: Option<int>)

  datatype AnnualExpenseDto = AnnualExpenseDto(
    parentCategory: Option<ExpenseCategory>,
    category: string,
    budgetAmount: real,
    isMonthly: Option<bool>,
    sortOrder: Option<int>)

  datatype AnnualPlanRequest = AnnualPlanRequest(
    year: int,
    assetTargets: Option<seq<AssetTargetDto>>,
    liabilityTargets: Option<seq<LiabilityTargetDto>>,
    annualIncomes: Option<seq<AnnualIncomeDto>>,
    annualExpenses: Option<seq<AnnualExpenseDto>>)

  datatype AssetDetailDto = AssetDetailDto(
    assetGroup: AssetGroup,
    name: string,
    amount: real,
    returnRate: Option<real>,
    sortOrder: Option<int>)

  datatype LiabilityDetailDto = LiabilityDetailDto(
    name: string,
    amount: real,
    interestRate: Option<real>,
    sortOrder: Option<int>)

  datatype IncomeDetailDto = IncomeDetailDto(
    name: string,
    amount: real,
    sortOrder: Option<int>)

  datatype ExpenseDetailDto = ExpenseDetailDto(
    annualExpenseId: Option<int>,
    name: string,
    amount: real,
    detail: Option<string>,
    sortOrder: Option<int>)

  datatype MonthlyRecordRequest = MonthlyRecordRequest(
    year: int,
    month: int,
    summary: Option<string>,
    assetDetails: Option<seq<AssetDetailDto>>,
    liabilityDetails: Option<seq<LiabilityDetailDto>>,
    incomeDetails: Option<seq<IncomeDetailDto>>,
    expenseDetails: Option<seq<ExpenseDetailDto>>)
}
