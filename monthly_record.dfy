/** The MonthlyRecord entity: one month's balance sheet and cash flow. */
module MonthlyRecordEntity {
  import opened Wrappers
  import opened Seqs
  import opened MonthlyDetails

  /** A monthly record as a value: a stored row, or the body of a response. */
  datatype MonthlyRecordData = MonthlyRecordData(
    id: Option<int>,
    year: int,
    month: int,
    totalAsset: real,
    totalLiability: real,
    totalIncome: real,
    totalExpense: real,
    summary: Option<string>,
    assetDetails: seq<AssetDetail>,
    liabilityDetails: seq<LiabilityDetail>,
    incomeDetails: seq<IncomeDetail>,
    expenseDetails: seq<ExpenseDetail>)
  {
    /** `getNetWorth()`: total assets less total liabilities. */
    function NetWorth(): real { totalAsset - totalLiability }

    /** `getSurplus()`: total income less total expense. */
    function Surplus(): real { totalIncome - totalExpense }

    /** The four stored totals are the sums of the four lists. */
    predicate TotalsConsistent()
    {
      && totalAsset == AssetTotal(assetDetails)
      && totalLiability == LiabilityTotal(liabilityDetails)
      && totalIncome == IncomeTotal(incomeDetails)
      && totalExpense == ExpenseTotal(expenseDetails)
    }

    /** The record after `recalculateTotals()`: the totals are the sums, nothing else moves. */
    function Recalculated(): (r: MonthlyRecordData)
      ensures r.TotalsConsistent()
      ensures r.NetWorth() == AssetTotal(assetDetails) - LiabilityTotal(liabilityDetails)
      ensures r.Surplus() == IncomeTotal(incomeDetails) - ExpenseTotal(expenseDetails)
      ensures r.(totalAsset := totalAsset, totalLiability := totalLiability,
                 totalIncome := totalIncome, totalExpense := totalExpense) == this
    {
      this.(totalAsset := AssetTotal(assetDetails),
            totalLiability := LiabilityTotal(liabilityDetails),
            totalIncome := IncomeTotal(incomeDetails),
            totalExpense := ExpenseTotal(expenseDetails))
    }

    /** The record as it was before it and its lines were first saved: every id absent. */
    function Unsaved(): MonthlyRecordData
    {
      this.(id := None,
            assetDetails := Map(AssetUnsaved, assetDetails),
            liabilityDetails := Map(LiabilityUnsaved, liabilityDetails),
            incomeDetails := Map(IncomeUnsaved, incomeDetails),
            expenseDetails := Map(ExpenseUnsaved, expenseDetails))
    }
  }

  /** Recalculating twice changes nothing the first time did not. */
  lemma RecalculateIdempotent(r: MonthlyRecordData)
    ensures r.Recalculated().Recalculated() == r.Recalculated()
    ensures r.TotalsConsistent() ==> r.Recalculated() == r
  {
  }

  /** A record with no lines has all four totals zero once recalculated. */
  lemma EmptyRecordTotalsZero(r: MonthlyRecordData)
    requires r.assetDetails == [] && r.liabilityDetails == [] && r.incomeDetails == [] && r.expenseDetails == []
    ensures var t := r.Recalculated();
      t.totalAsset == 0.0 && t.totalLiability == 0.0 && t.totalIncome == 0.0 && t.totalExpense == 0.0
      && t.NetWorth() == 0.0 && t.Surplus() == 0.0
  {
  }

  /** The entity as the services hold it while they build or change a month. */
  class MonthlyRecord {
    var id: Option<int>
    var year: int
    var month: int
    var totalAsset: real
    var totalLiability: real
    var totalIncome: real
    var totalExpense: real
    var summary: Option<string>
    var assetDetails: seq<AssetDetail>
    var liabilityDetails: seq<LiabilityDetail>
    var incomeDetails: seq<IncomeDetail>
    var expenseDetails: seq<ExpenseDetail>

    /** The entity's current state as a value. */
    function Data(): MonthlyRecordData
      reads this
    {
      MonthlyRecordData(id, year, month, totalAsset, totalLiability, totalIncome, totalExpense,
                        summary, assetDetails, liabilityDetails, incomeDetails, expenseDetails)
    }

    /** `new MonthlyRecord()` followed by `setYear` and `setMonth`: the totals start at ZERO, the lists empty. */
    constructor (year: int, month: int)
      ensures Data() == MonthlyRecordData(None, year, month, 0.0, 0.0, 0.0, 0.0, None, [], [], [], [])
    {
      id := None;
      this.year := year;
      this.month := month;
      totalAsset := 0.0;
      totalLiability := 0.0;
      totalIncome := 0.0;
      totalExpense := 0.0;
      summary := None;
      assetDetails := [];
      liabilityDetails := [];
      incomeDetails := [];
      expenseDetails := [];
    }

    /** The entity a repository `find…` hands out for a stored row. */
    constructor Load(row: MonthlyRecordData)
      ensures Data() == row
    {
      id := row.id;
      year := row.year;
      month := row.month;
      totalAsset := row.totalAsset;
      totalLiability := row.totalLiability;
      totalIncome := row.totalIncome;
      totalExpense := row.totalExpense;
      summary := row.summary;
      assetDetails := row.assetDetails;
      liabilityDetails := row.liabilityDetails;
      incomeDetails := row.incomeDetails;
      expenseDetails := row.expenseDetails;
    }

    method AddAssetDetail(d: AssetDetail)
      modifies this
      ensures Data() == old(Data()).(assetDetails := old(assetDetails) + [d])
    {
      assetDetails := assetDetails + [d];
    }

    method AddLiabilityDetail(d: LiabilityDetail)
      modifies this
      ensures Data() == old(Data()).(liabilityDetails := old(liabilityDetails) + [d])
    {
      liabilityDetails := liabilityDetails + [d];
    }

    method AddIncomeDetail(d: IncomeDetail)
      modifies this
      ensures Data() == old(Data()).(incomeDetails := old(incomeDetails) + [d])
    {
      incomeDetails := incomeDetails + [d];
    }

    method AddExpenseDetail(d: ExpenseDetail)
      modifies this
      ensures Data() == old(Data()).(expenseDetails := old(expenseDetails) + [d])
    {
      expenseDetails := expenseDetails + [d];
    }

    /** Empties the four lists (`getXxxDetails().clear()` on each). */
    method ClearDetails()
      modifies this
      ensures Data() == old(Data()).(assetDetails := [], liabilityDetails := [], incomeDetails := [], expenseDetails := [])
    {
      assetDetails := [];
      liabilityDetails := [];
      incomeDetails := [];
      expenseDetails := [];
    }

    /** Sets each total to the sum of the amounts of its list. */
    method RecalculateTotals()
      modifies this
      ensures Data() == old(Data()).Recalculated()
      ensures Data().TotalsConsistent()
    {
      totalAsset := AssetTotal(assetDetails);
      totalLiability := LiabilityTotal(liabilityDetails);
      totalIncome := IncomeTotal(incomeDetails);
      totalExpense := ExpenseTotal(expenseDetails);
    }
  }
}
