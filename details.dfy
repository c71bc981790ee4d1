/**
 * The line items of a monthly record. The `monthlyRecord` back-reference of
 * each item is implicit: an item belongs to the record whose list holds it.
 * `id` is the database identity, absent until the item is first saved.
 */
module MonthlyDetails {
  import opened Wrappers
  import opened Enums
  import opened Seqs

  datatype AssetDetail = AssetDetail(
    id: Option<int>,
    assetGroup: AssetGroup,
    name: string,
    amount: real,
    returnRate: Option<real>,
    sortOrder: int)

  datatype LiabilityDetail = LiabilityDetail(
    id: Option<int>,
    name: string,
    amount: real,
    interestRate: Option<real>,
    sortOrder: int)

  datatype IncomeDetail = IncomeDetail(
    id: Option<int>,
    name: string,
    amount: real,
    sortOrder: int)

  /** `annualExpenseId` is the id of the annual expense budget the spending is charged to. */
  datatype ExpenseDetail = ExpenseDetail(
    id: Option<int>,
    annualExpenseId: Option<int>,
    name: string,
    amount: real,
    detail: Option<string>,
    sortOrder: int)

  function AssetAmount(d: AssetDetail): real { d.amount }
  function LiabilityAmount(d: LiabilityDetail): real { d.amount }
  function IncomeAmount(d: IncomeDetail): real { d.amount }
  function ExpenseAmount(d: ExpenseDetail): real { d.amount }

  function AssetTotal(ds: seq<AssetDetail>): real { Sum(AssetAmount, ds) }
  function LiabilityTotal(ds: seq<LiabilityDetail>): real { Sum(LiabilityAmount, ds) }
  function IncomeTotal(ds: seq<IncomeDetail>): real { Sum(IncomeAmount, ds) }
  function ExpenseTotal(ds: seq<ExpenseDetail>): real { Sum(ExpenseAmount, ds) }

  /** The same item before it was saved. */
  function AssetUnsaved(d: AssetDetail): AssetDetail { d.(id := None) }
  function LiabilityUnsaved(d: LiabilityDetail): LiabilityDetail { d.(id := None) }
  function IncomeUnsaved(d: IncomeDetail): IncomeDetail { d.(id := None) }
  function ExpenseUnsaved(d: ExpenseDetail): ExpenseDetail { d.(id := None) }
}
