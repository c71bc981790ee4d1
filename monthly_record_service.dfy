/**
 * MonthlyRecordService: creating, updating, reading and deleting a month's
 * record, carrying a month's structure forward into the next.
 */
module MonthlyRecordService {
  import opened Wrappers
  import opened Seqs
  import opened MonthlyDetails
  import opened MonthlyRecordEntity
  import opened PlanEntities
  import opened Requests
  import opened Repositories

  // ---------------------------------------------------------------------
  // Reading
  // ---------------------------------------------------------------------

  /** `getByYearAndMonth`: the record of the period, or not found. */
  function GetByYearAndMonth(records: seq<MonthlyRecordData>, year: int, month: int): (res: Result<MonthlyRecordData>)
    ensures res.Err? <==> !ExistsByYearAndMonth(records, year, month)
    ensures res.Err? ==> res.error == NotFound
    ensures res.Ok? ==> res.value in records && res.value.year == year && res.value.month == month
  {
    match FindByYearAndMonth(records, year, month)
    case None => Err(NotFound)
    case Some(r) => Ok(r)
  }

  // ---------------------------------------------------------------------
  // The previous period
  // ---------------------------------------------------------------------

  /**
   * `findPreviousRecord`'s period: January goes back to December of the
   * year before, any other month to the month before in the same year.
   * No month is validated here, so month 0 gives month -1.
   */
  function PreviousPeriod(year: int, month: int): (p: (int, int))
    ensures month == 1 ==> p == (year - 1, 12)
    ensures month != 1 ==> p == (year, month - 1)
    ensures 1 <= month <= 12 ==> 1 <= p.1 <= 12 && p.0 * 12 + p.1 == year * 12 + month - 1
  {
    if month == 1 then (year - 1, 12) else (year, month - 1)
  }

  /** The period after `(year, month)`, for months 1 to 12. */
  function NextPeriod(year: int, month: int): (p: (int, int))
    ensures 1 <= month <= 12 ==> 1 <= p.1 <= 12 && p.0 * 12 + p.1 == year * 12 + month + 1
  {
    if month == 12 then (year + 1, 1) else (year, month + 1)
  }

  /** Within the calendar, stepping back then forward, or forward then back, returns to the same period. */
  lemma PreviousNextInverse(year: int, month: int)
    requires 1 <= month <= 12
    ensures var p := PreviousPeriod(year, month); NextPeriod(p.0, p.1) == (year, month)
    ensures var n := NextPeriod(year, month); PreviousPeriod(n.0, n.1) == (year, month)
  {
  }

  function FindPreviousRecord(records: seq<MonthlyRecordData>, year: int, month: int): (r: Option<MonthlyRecordData>)
    ensures var p := PreviousPeriod(year, month);
      r.None? <==> !ExistsByYearAndMonth(records, p.0, p.1)
    ensures r.Some? ==> r.value in records && (r.value.year, r.value.month) == PreviousPeriod(year, month)
  {
    var p := PreviousPeriod(year, month);
    FindByYearAndMonth(records, p.0, p.1)
  }

  // ---------------------------------------------------------------------
  // Carrying the previous month forward (copyFromPreviousMonth)
  // ---------------------------------------------------------------------

  /** A line of the previous month, carried forward: same structure, amount zero, not yet saved. */
  function CarryAsset(d: AssetDetail): AssetDetail
  {
    AssetDetail(None, d.assetGroup, d.name, 0.0, d.returnRate, d.sortOrder)
  }

  function CarryLiability(d: LiabilityDetail): LiabilityDetail
  {
    LiabilityDetail(None, d.name, 0.0, d.interestRate, d.sortOrder)
  }

  function CarryIncome(d: IncomeDetail): IncomeDetail
  {
    IncomeDetail(None, d.name, 0.0, d.sortOrder)
  }

  /** An expense line keeps its budget line but loses its note. */
  function CarryExpense(d: ExpenseDetail): ExpenseDetail
  {
    ExpenseDetail(None, d.annualExpenseId, d.name, 0.0, None, d.sortOrder)
  }

  /** `r` with the lines of `prev`, if there is one, carried forward after its own. */
  function CarriedForward(r: MonthlyRecordData, prev: Option<MonthlyRecordData>): MonthlyRecordData
  {
    match prev
    case None => r
    case Some(p) =>
      r.(assetDetails := r.assetDetails + Map(CarryAsset, p.assetDetails),
         liabilityDetails := r.liabilityDetails + Map(CarryLiability, p.liabilityDetails),
         incomeDetails := r.incomeDetails + Map(CarryIncome, p.incomeDetails),
         expenseDetails := r.expenseDetails + Map(CarryExpense, p.expenseDetails))
  }

  /** Lines carried forward add nothing to any total. */
  lemma CarriedLinesTotalZero(p: MonthlyRecordData)
    ensures AssetTotal(Map(CarryAsset, p.assetDetails)) == 0.0
    ensures LiabilityTotal(Map(CarryLiability, p.liabilityDetails)) == 0.0
    ensures IncomeTotal(Map(CarryIncome, p.incomeDetails)) == 0.0
    ensures ExpenseTotal(Map(CarryExpense, p.expenseDetails)) == 0.0
  {
    SumOfZeros(AssetAmount, Map(CarryAsset, p.assetDetails));
    SumOfZeros(LiabilityAmount, Map(CarryLiability, p.liabilityDetails));
    SumOfZeros(IncomeAmount, Map(CarryIncome, p.incomeDetails));
    SumOfZeros(ExpenseAmount, Map(CarryExpense, p.expenseDetails));
  }

  /** Carried expense lines stay charged to the budget lines the previous month's were. */
  lemma CarriedReferencesKept(p: MonthlyRecordData, n: int)
    requires ReferencesBelow(p.expenseDetails, n)
    ensures forall j :: 0 <= j < |p.expenseDetails| ==>
      Map(CarryExpense, p.expenseDetails)[j].annualExpenseId == p.expenseDetails[j].annualExpenseId
    ensures ReferencesBelow(Map(CarryExpense, p.expenseDetails), n)
  {
  }

  method CarryAssets(record: MonthlyRecord, ds: seq<AssetDetail>)
    modifies record
    ensures record.Data() == old(record.Data()).(assetDetails := old(record.assetDetails) + Map(CarryAsset, ds))
  {
    var k := 0;
    while k < |ds|
      invariant 0 <= k <= |ds|
      invariant record.Data() == old(record.Data()).(assetDetails := old(record.assetDetails) + Map(CarryAsset, ds[..k]))
    {
      record.AddAssetDetail(CarryAsset(ds[k]));
      assert ds[..k + 1][..k] == ds[..k];
      k := k + 1;
    }
    assert ds[..k] == ds;
  }

  method CarryLiabilities(record: MonthlyRecord, ds: seq<LiabilityDetail>)
    modifies record
    ensures record.Data() == old(record.Data()).(liabilityDetails := old(record.liabilityDetails) + Map(CarryLiability, ds))
  {
    var k := 0;
    while k < |ds|
      invariant 0 <= k <= |ds|
      invariant record.Data() == old(record.Data()).(liabilityDetails := old(record.liabilityDetails) + Map(CarryLiability, ds[..k]))
    {
      record.AddLiabilityDetail(CarryLiability(ds[k]));
      assert ds[..k + 1][..k] == ds[..k];
      k := k + 1;
    }
    assert ds[..k] == ds;
  }

  method CarryIncomes(record: MonthlyRecord, ds: seq<IncomeDetail>)
    modifies record
    ensures record.Data() == old(record.Data()).(incomeDetails := old(record.incomeDetails) + Map(CarryIncome, ds))
  {
    var k := 0;
    while k < |ds|
      invariant 0 <= k <= |ds|
      invariant record.Data() == old(record.Data()).(incomeDetails := old(record.incomeDetails) + Map(CarryIncome, ds[..k]))
    {
      record.AddIncomeDetail(CarryIncome(ds[k]));
      assert ds[..k + 1][..k] == ds[..k];
      k := k + 1;
    }
    assert ds[..k] == ds;
  }

  method CarryExpenses(record: MonthlyRecord, ds: seq<ExpenseDetail>)
    modifies record
    ensures record.Data() == old(record.Data()).(expenseDetails := old(record.expenseDetails) + Map(CarryExpense, ds))
  {
    var k := 0;
    while k < |ds|
      invariant 0 <= k <= |ds|
      invariant record.Data() == old(record.Data()).(expenseDetails := old(record.expenseDetails) + Map(CarryExpense, ds[..k]))
    {
      record.AddExpenseDetail(CarryExpense(ds[k]));
      assert ds[..k + 1][..k] == ds[..k];
      k := k + 1;
    }
    assert ds[..k] == ds;
  }

  /** `copyFromPreviousMonth`: nothing when there is no previous record. */
  method CopyFromPreviousMonth(record: MonthlyRecord, records: seq<MonthlyRecordData>, year: int, month: int)
    modifies record
    ensures record.Data() == CarriedForward(old(record.Data()), FindPreviousRecord(records, year, month))
  {
    var previous := FindPreviousRecord(records, year, month);
    if previous.None? {
      return;
    }
    var prev := previous.value;
    CarryAssets(record, prev.assetDetails);
    CarryLiabilities(record, prev.liabilityDetails);
    CarryIncomes(record, prev.incomeDetails);
    CarryExpenses(record, prev.expenseDetails);
  }

  // ---------------------------------------------------------------------
  // Lines from the request (populateDetails)
  // ---------------------------------------------------------------------

  function NewAssetDetail(d: AssetDetailDto): AssetDetail
  {
    AssetDetail(None, d.assetGroup, d.name, d.amount, d.returnRate, d.sortOrder.GetOr(0))
  }

  function NewLiabilityDetail(d: LiabilityDetailDto): LiabilityDetail
  {
    LiabilityDetail(None, d.name, d.amount, d.interestRate, d.sortOrder.GetOr(0))
  }

  function NewIncomeDetail(d: IncomeDetailDto): IncomeDetail
  {
    IncomeDetail(None, d.name, d.amount, d.sortOrder.GetOr(0))
  }

  /**
   * `annualExpenseRepository.findById(id).orElse(null)`: the line is charged
   * to the budget line only when one with that id exists; an unknown id is
   * dropped silently.
   */
  function ResolveBudgetLine(plans: seq<PlanData>, id: Option<int>): (r: Option<int>)
    ensures r.Some? <==> id.Some? && FindAnnualExpenseById(plans, id.value).Some?
    ensures r.Some? ==> r == id
  {
    if id.Some? && FindAnnualExpenseById(plans, id.value).Some? then id else None
  }

  /** A budget line that can be resolved exists, so its id is below the next id. */
  lemma ResolvedBelow(plans: seq<PlanData>, id: Option<int>, n: int)
    requires PlansValid(plans, n)
    ensures ResolveBudgetLine(plans, id).Some? ==> ResolveBudgetLine(plans, id).value < n
  {
    if ResolveBudgetLine(plans, id).Some? {
      var i, j :| 0 <= i < |plans| && 0 <= j < |plans[i].annualExpenses| && plans[i].annualExpenses[j].id == id;
      assert Identified(plans[i].annualExpenses, n);
    }
  }

  function NewExpenseDetail(d: ExpenseDetailDto, plans: seq<PlanData>): ExpenseDetail
  {
    ExpenseDetail(None, ResolveBudgetLine(plans, d.annualExpenseId), d.name, d.amount, d.detail, d.sortOrder.GetOr(0))
  }

  /** The expense lines built from `dtos`, in order. */
  function ExpenseDetailsFrom(dtos: seq<ExpenseDetailDto>, plans: seq<PlanData>): (ds: seq<ExpenseDetail>)
    ensures |ds| == |dtos|
    ensures forall j :: 0 <= j < |dtos| ==> ds[j] == NewExpenseDetail(dtos[j], plans)
  {
    if |dtos| == 0 then []
    else ExpenseDetailsFrom(dtos[..|dtos| - 1], plans) + [NewExpenseDetail(dtos[|dtos| - 1], plans)]
  }

  lemma ExpenseDetailsFromBelow(dtos: seq<ExpenseDetailDto>, plans: seq<PlanData>, n: int)
    requires PlansValid(plans, n)
    ensures ReferencesBelow(ExpenseDetailsFrom(dtos, plans), n)
  {
    forall j | 0 <= j < |dtos|
      ensures ExpenseDetailsFrom(dtos, plans)[j].annualExpenseId.Some? ==> ExpenseDetailsFrom(dtos, plans)[j].annualExpenseId.value < n
    {
      ResolvedBelow(plans, dtos[j].annualExpenseId, n);
    }
  }

  /** `r` with the request's lines appended after its own; a list the request leaves out adds nothing. */
  function Populated(r: MonthlyRecordData, plans: seq<PlanData>, req: MonthlyRecordRequest): MonthlyRecordData
  {
    r.(assetDetails := r.assetDetails + Map(NewAssetDetail, req.assetDetails.GetOr([])),
       liabilityDetails := r.liabilityDetails + Map(NewLiabilityDetail, req.liabilityDetails.GetOr([])),
       incomeDetails := r.incomeDetails + Map(NewIncomeDetail, req.incomeDetails.GetOr([])),
       expenseDetails := r.expenseDetails + ExpenseDetailsFrom(req.expenseDetails.GetOr([]), plans))
  }

  /** `isEmpty(request)`: every list is absent or empty. */
  predicate IsEmpty(req: MonthlyRecordRequest)
  {
    && (req.assetDetails.None? || |req.assetDetails.value| == 0)
    && (req.liabilityDetails.None? || |req.liabilityDetails.value| == 0)
    && (req.incomeDetails.None? || |req.incomeDetails.value| == 0)
    && (req.expenseDetails.None? || |req.expenseDetails.value| == 0)
  }

  /** A request is empty exactly when populating from it adds no line. */
  lemma EmptyIffPopulatesNothing(r: MonthlyRecordData, plans: seq<PlanData>, req: MonthlyRecordRequest)
    ensures IsEmpty(req) <==> Populated(r, plans, req) == r
  {
    if !IsEmpty(req) {
      var q := Populated(r, plans, req);
      assert |q.assetDetails| + |q.liabilityDetails| + |q.incomeDetails| + |q.expenseDetails|
           > |r.assetDetails| + |r.liabilityDetails| + |r.incomeDetails| + |r.expenseDetails|;
    } else {
      assert req.assetDetails.GetOr([]) == [] && req.liabilityDetails.GetOr([]) == [];
      assert req.incomeDetails.GetOr([]) == [] && req.expenseDetails.GetOr([]) == [];
    }
  }

  function AssetDtoAmount(d: AssetDetailDto): real { d.amount }
  function LiabilityDtoAmount(d: LiabilityDetailDto): real { d.amount }
  function IncomeDtoAmount(d: IncomeDetailDto): real { d.amount }
  function ExpenseDtoAmount(d: ExpenseDetailDto): real { d.amount }

  /** Populating an empty record gives lines whose totals are the request's amounts. */
  lemma PopulatedTotals(r: MonthlyRecordData, plans: seq<PlanData>, req: MonthlyRecordRequest)
    requires r.assetDetails == [] && r.liabilityDetails == [] && r.incomeDetails == [] && r.expenseDetails == []
    ensures var q := Populated(r, plans, req);
      && AssetTotal(q.assetDetails) == Sum(AssetDtoAmount, req.assetDetails.GetOr([]))
      && LiabilityTotal(q.liabilityDetails) == Sum(LiabilityDtoAmount, req.liabilityDetails.GetOr([]))
      && IncomeTotal(q.incomeDetails) == Sum(IncomeDtoAmount, req.incomeDetails.GetOr([]))
      && ExpenseTotal(q.expenseDetails) == Sum(ExpenseDtoAmount, req.expenseDetails.GetOr([]))
  {
    var q := Populated(r, plans, req);
    assert q.assetDetails == Map(NewAssetDetail, req.assetDetails.GetOr([]));
    assert q.liabilityDetails == Map(NewLiabilityDetail, req.liabilityDetails.GetOr([]));
    assert q.incomeDetails == Map(NewIncomeDetail, req.incomeDetails.GetOr([]));
    assert q.expenseDetails == ExpenseDetailsFrom(req.expenseDetails.GetOr([]), plans);
    NewLinesTotals(req.assetDetails.GetOr([]), req.liabilityDetails.GetOr([]), req.incomeDetails.GetOr([]));
    NewExpensesTotal(req.expenseDetails.GetOr([]), plans);
  }

  /** New lines keep the amounts of their requests. */
  lemma NewLinesTotals(assets: seq<AssetDetailDto>, liabilities: seq<LiabilityDetailDto>, incomes: seq<IncomeDetailDto>)
    ensures AssetTotal(Map(NewAssetDetail, assets)) == Sum(AssetDtoAmount, assets)
    ensures LiabilityTotal(Map(NewLiabilityDetail, liabilities)) == Sum(LiabilityDtoAmount, liabilities)
    ensures IncomeTotal(Map(NewIncomeDetail, incomes)) == Sum(IncomeDtoAmount, incomes)
  {
    SumOfMap(AssetAmount, NewAssetDetail, AssetDtoAmount, assets);
    SumOfMap(LiabilityAmount, NewLiabilityDetail, LiabilityDtoAmount, liabilities);
    SumOfMap(IncomeAmount, NewIncomeDetail, IncomeDtoAmount, incomes);
  }

  lemma NewExpensesTotal(dtos: seq<ExpenseDetailDto>, plans: seq<PlanData>)
    ensures ExpenseTotal(ExpenseDetailsFrom(dtos, plans)) == Sum(ExpenseDtoAmount, dtos)
  {
    SumSameTerms(ExpenseAmount, ExpenseDetailsFrom(dtos, plans), ExpenseDtoAmount, dtos);
  }

  method PopulateAssets(record: MonthlyRecord, dtos: seq<AssetDetailDto>)
    modifies record
    ensures record.Data() == old(record.Data()).(assetDetails := old(record.assetDetails) + Map(NewAssetDetail, dtos))
  {
    var k := 0;
    while k < |dtos|
      invariant 0 <= k <= |dtos|
      invariant record.Data() == old(record.Data()).(assetDetails := old(record.assetDetails) + Map(NewAssetDetail, dtos[..k]))
    {
      record.AddAssetDetail(NewAssetDetail(dtos[k]));
      assert dtos[..k + 1][..k] == dtos[..k];
      k := k + 1;
    }
    assert dtos[..k] == dtos;
  }

  method PopulateLiabilities(record: MonthlyRecord, dtos: seq<LiabilityDetailDto>)
    modifies record
    ensures record.Data() == old(record.Data()).(liabilityDetails := old(record.liabilityDetails) + Map(NewLiabilityDetail, dtos))
  {
    var k := 0;
    while k < |dtos|
      invariant 0 <= k <= |dtos|
      invariant record.Data() == old(record.Data()).(liabilityDetails := old(record.liabilityDetails) + Map(NewLiabilityDetail, dtos[..k]))
    {
      record.AddLiabilityDetail(NewLiabilityDetail(dtos[k]));
      assert dtos[..k + 1][..k] == dtos[..k];
      k := k + 1;
    }
    assert dtos[..k] == dtos;
  }

  method PopulateIncomes(record: MonthlyRecord, dtos: seq<IncomeDetailDto>)
    modifies record
    ensures record.Data() == old(record.Data()).(incomeDetails := old(record.incomeDetails) + Map(NewIncomeDetail, dtos))
  {
    var k := 0;
    while k < |dtos|
      invariant 0 <= k <= |dtos|
      invariant record.Data() == old(record.Data()).(incomeDetails := old(record.incomeDetails) + Map(NewIncomeDetail, dtos[..k]))
    {
      record.AddIncomeDetail(NewIncomeDetail(dtos[k]));
      assert dtos[..k + 1][..k] == dtos[..k];
      k := k + 1;
    }
    assert dtos[..k] == dtos;
  }

  method PopulateExpenses(record: MonthlyRecord, dtos: seq<ExpenseDetailDto>, plans: seq<PlanData>)
    modifies record
    ensures record.Data() == old(record.Data()).(expenseDetails := old(record.expenseDetails) + ExpenseDetailsFrom(dtos, plans))
  {
    var k := 0;
    while k < |dtos|
      invariant 0 <= k <= |dtos|
      invariant record.Data() == old(record.Data()).(expenseDetails := old(record.expenseDetails) + ExpenseDetailsFrom(dtos[..k], plans))
    {
      var d := dtos[k];
      var budgetLine: Option<int> := None;
      if d.annualExpenseId.Some? {
        budgetLine := if FindAnnualExpenseById(plans, d.annualExpenseId.value).Some? then d.annualExpenseId else None;
      }
      record.AddExpenseDetail(ExpenseDetail(None, budgetLine, d.name, d.amount, d.detail, d.sortOrder.GetOr(0)));
      assert dtos[..k + 1][..k] == dtos[..k];
      k := k + 1;
    }
    assert dtos[..k] == dtos;
  }

  /** `populateDetails`: the request's lines, list by list, appended to the record's. */
  method PopulateDetails(record: MonthlyRecord, req: MonthlyRecordRequest, plans: seq<PlanData>)
    modifies record
    ensures record.Data() == Populated(old(record.Data()), plans, req)
  {
    ghost var d := record.Data();
    ghost var assets := d.assetDetails + Map(NewAssetDetail, req.assetDetails.GetOr([]));
    ghost var liabilities := d.liabilityDetails + Map(NewLiabilityDetail, req.liabilityDetails.GetOr([]));
    ghost var incomes := d.incomeDetails + Map(NewIncomeDetail, req.incomeDetails.GetOr([]));
    ghost var expenses := d.expenseDetails + ExpenseDetailsFrom(req.expenseDetails.GetOr([]), plans);
    if req.assetDetails.Some? {
      PopulateAssets(record, req.assetDetails.value);
    } else {
      assert assets == d.assetDetails;
    }
    assert record.Data() == d.(assetDetails := assets);
    if req.liabilityDetails.Some? {
      PopulateLiabilities(record, req.liabilityDetails.value);
    } else {
      assert liabilities == d.liabilityDetails;
    }
    assert record.Data() == d.(assetDetails := assets, liabilityDetails := liabilities);
    if req.incomeDetails.Some? {
      PopulateIncomes(record, req.incomeDetails.value);
    } else {
      assert incomes == d.incomeDetails;
    }
    assert record.Data() == d.(assetDetails := assets, liabilityDetails := liabilities, incomeDetails := incomes);
    if req.expenseDetails.Some? {
      PopulateExpenses(record, req.expenseDetails.value, plans);
    } else {
      assert expenses == d.expenseDetails;
    }
  }

  // ---------------------------------------------------------------------
  // create
  // ---------------------------------------------------------------------

  /** The new entity of `create`, before saving. */
  function Blank(req: MonthlyRecordRequest): MonthlyRecordData
  {
    MonthlyRecordData(None, req.year, req.month, 0.0, 0.0, 0.0, 0.0, req.summary, [], [], [], [])
  }

  /**
   * The record `create` saves: the request's lines, or, when it carries none,
   * the previous month's lines carried forward; totals recalculated.
   */
  function CreatedRecord(records: seq<MonthlyRecordData>, plans: seq<PlanData>, req: MonthlyRecordRequest): (r: MonthlyRecordData)
    ensures r.TotalsConsistent()
    ensures r.id.None? && r.year == req.year && r.month == req.month && r.summary == req.summary
  {
    var filled := if IsEmpty(req) then CarriedForward(Blank(req), FindPreviousRecord(records, req.year, req.month))
                  else Populated(Blank(req), plans, req);
    filled.Recalculated()
  }

  /** A record created without lines copies the previous month's structure but none of its amounts. */
  lemma CreatedFromPreviousIsZero(records: seq<MonthlyRecordData>, plans: seq<PlanData>, req: MonthlyRecordRequest)
    requires IsEmpty(req) && FindPreviousRecord(records, req.year, req.month).Some?
    ensures var p, r := FindPreviousRecord(records, req.year, req.month).value, CreatedRecord(records, plans, req);
      && r.totalAsset == 0.0 && r.totalLiability == 0.0 && r.totalIncome == 0.0 && r.totalExpense == 0.0
      && r.assetDetails == Map(CarryAsset, p.assetDetails)
      && r.liabilityDetails == Map(CarryLiability, p.liabilityDetails)
      && r.incomeDetails == Map(CarryIncome, p.incomeDetails)
      && r.expenseDetails == Map(CarryExpense, p.expenseDetails)
  {
    var p := FindPreviousRecord(records, req.year, req.month).value;
    CarriedLinesTotalZero(p);
    var carried := Blank(req).(assetDetails := Map(CarryAsset, p.assetDetails),
                               liabilityDetails := Map(CarryLiability, p.liabilityDetails),
                               incomeDetails := Map(CarryIncome, p.incomeDetails),
                               expenseDetails := Map(CarryExpense, p.expenseDetails));
    assert CarriedForward(Blank(req), Some(p)) == carried by {
      assert [] + Map(CarryAsset, p.assetDetails) == Map(CarryAsset, p.assetDetails);
      assert [] + Map(CarryLiability, p.liabilityDetails) == Map(CarryLiability, p.liabilityDetails);
      assert [] + Map(CarryIncome, p.incomeDetails) == Map(CarryIncome, p.incomeDetails);
      assert [] + Map(CarryExpense, p.expenseDetails) == Map(CarryExpense, p.expenseDetails);
    }
    assert CreatedRecord(records, plans, req) == carried.Recalculated();
  }

  /** Without lines and without a previous month, the record starts empty. */
  lemma CreatedWithoutPreviousIsEmpty(records: seq<MonthlyRecordData>, plans: seq<PlanData>, req: MonthlyRecordRequest)
    requires IsEmpty(req) && FindPreviousRecord(records, req.year, req.month).None?
    ensures CreatedRecord(records, plans, req) == Blank(req)
  {
  }

  /** With lines, the record's totals are the sums of the request's amounts. */
  lemma CreatedFromRequestTotals(records: seq<MonthlyRecordData>, plans: seq<PlanData>, req: MonthlyRecordRequest)
    requires !IsEmpty(req)
    ensures var r := CreatedRecord(records, plans, req);
      && r.totalAsset == Sum(AssetDtoAmount, req.assetDetails.GetOr([]))
      && r.totalLiability == Sum(LiabilityDtoAmount, req.liabilityDetails.GetOr([]))
      && r.totalIncome == Sum(IncomeDtoAmount, req.incomeDetails.GetOr([]))
      && r.totalExpense == Sum(ExpenseDtoAmount, req.expenseDetails.GetOr([]))
  {
    PopulatedTotals(Blank(req), plans, req);
  }

  /** Every expense line `create` builds is charged to an existing budget line or to none. */
  lemma CreatedReferencesBelow(records: seq<MonthlyRecordData>, plans: seq<PlanData>, req: MonthlyRecordRequest, n: int)
    requires AllReferencesBelow(records, n) && PlansValid(plans, n)
    ensures ReferencesBelow(CreatedRecord(records, plans, req).expenseDetails, n)
  {
    if IsEmpty(req) {
      var prev := FindPreviousRecord(records, req.year, req.month);
      if prev.Some? {
        var k :| 0 <= k < |records| && records[k] == prev.value;
        CarriedReferencesKept(prev.value, n);
      }
    } else {
      ExpenseDetailsFromBelow(req.expenseDetails.GetOr([]), plans, n);
    }
  }

  /** `create`: refused for a period that already has a record. */
  method Create(db: Database, req: MonthlyRecordRequest) returns (res: Result<MonthlyRecordData>)
    requires db.Valid()
    modifies db
    ensures db.Valid()
    ensures res.Err? <==> ExistsByYearAndMonth(old(db.records), req.year, req.month)
    ensures res.Err? ==> res.error == AlreadyExists && db.records == old(db.records) && db.nextId == old(db.nextId)
    ensures res.Ok? ==>
      && res.value == WithIds(CreatedRecord(old(db.records), old(db.plans), req), old(db.nextId))
      && res.value.id == Some(old(db.nextId))
      && db.records == old(db.records) + [res.value]
    ensures db.plans == old(db.plans)
  {
    if ExistsByYearAndMonth(db.records, req.year, req.month) {
      return Err(AlreadyExists);
    }
    var record := new MonthlyRecord(req.year, req.month);
    record.summary := req.summary;
    if IsEmpty(req) {
      CopyFromPreviousMonth(record, db.records, req.year, req.month);
    } else {
      PopulateDetails(record, req, db.plans);
    }
    record.RecalculateTotals();
    var unsaved := record.Data();
    assert unsaved == CreatedRecord(db.records, db.plans, req);
    CreatedReferencesBelow(db.records, db.plans, req, db.nextId);
    NewIdNotStored(db.records, db.nextId);
    var saved := db.SaveRecord(unsaved);
    res := Ok(saved);
  }

  /** A stored record's id is below the next id, so the next id is nobody's. */
  lemma NewIdNotStored(records: seq<MonthlyRecordData>, n: int)
    requires RecordIdsBelow(records, n)
    ensures IndexOfRecord(records, n).None?
  {
  }

  // ---------------------------------------------------------------------
  // update
  // ---------------------------------------------------------------------

  /**
   * The record `update` saves: the summary and all four lists replaced from
   * the request, totals recalculated. The year and month of the request are
   * ignored: a record never moves to another period.
   */
  function UpdatedRecord(r: MonthlyRecordData, plans: seq<PlanData>, req: MonthlyRecordRequest): (u: MonthlyRecordData)
    ensures u.TotalsConsistent()
    ensures u.id == r.id && u.year == r.year && u.month == r.month && u.summary == req.summary
  {
    Populated(r.(summary := req.summary, assetDetails := [], liabilityDetails := [], incomeDetails := [], expenseDetails := []),
              plans, req).Recalculated()
  }

  /** Updating with a request without lines empties the record. */
  lemma UpdateWithEmptyRequestClears(r: MonthlyRecordData, plans: seq<PlanData>, req: MonthlyRecordRequest)
    requires IsEmpty(req)
    ensures var u := UpdatedRecord(r, plans, req);
      && u.assetDetails == [] && u.liabilityDetails == [] && u.incomeDetails == [] && u.expenseDetails == []
      && u.totalAsset == 0.0 && u.totalLiability == 0.0 && u.totalIncome == 0.0 && u.totalExpense == 0.0
  {
    var cleared := r.(summary := req.summary, assetDetails := [], liabilityDetails := [], incomeDetails := [], expenseDetails := []);
    EmptyIffPopulatesNothing(cleared, plans, req);
  }

  /** The stored record with `id` keeps its period, so no other record shares it. */
  lemma StoredPeriodUnique(records: seq<MonthlyRecordData>, n: int, k: nat, u: MonthlyRecordData)
    requires RecordsValid(records, n) && k < |records|
    requires u.id == records[k].id && u.year == records[k].year && u.month == records[k].month
    ensures forall i :: 0 <= i < |records| && records[i].id != u.id ==> records[i].year != u.year || records[i].month != u.month
  {
  }

  /** `update`: not found when no record has `id`. */
  method Update(db: Database, id: int, req: MonthlyRecordRequest) returns (res: Result<MonthlyRecordData>)
    requires db.Valid()
    modifies db
    ensures db.Valid()
    ensures res.Err? <==> FindRecordById(old(db.records), id).None?
    ensures res.Err? ==> res.error == NotFound && db.records == old(db.records) && db.nextId == old(db.nextId)
    ensures res.Ok? ==>
      && res.value == WithIds(UpdatedRecord(FindRecordById(old(db.records), id).value, old(db.plans), req), old(db.nextId))
      && res.value.id == Some(id)
      && db.records == UpsertRecord(old(db.records), res.value)
    ensures db.plans == old(db.plans)
  {
    var k := IndexOfRecord(db.records, id);
    if k.None? {
      return Err(NotFound);
    }
    var stored := db.records[k.value];
    var record := new MonthlyRecord.Load(stored);
    record.summary := req.summary;
    record.ClearDetails();
    PopulateDetails(record, req, db.plans);
    record.RecalculateTotals();
    var unsaved := record.Data();
    assert unsaved == UpdatedRecord(stored, db.plans, req);
    ExpenseDetailsFromBelow(req.expenseDetails.GetOr([]), db.plans, db.nextId);
    assert unsaved.expenseDetails == [] + ExpenseDetailsFrom(req.expenseDetails.GetOr([]), db.plans);
    StoredPeriodUnique(db.records, db.nextId, k.value, unsaved);
    var saved := db.SaveRecord(unsaved);
    res := Ok(saved);
  }

  // ---------------------------------------------------------------------
  // delete
  // ---------------------------------------------------------------------

  /** `delete`: not found when no record has `id`; otherwise the record and its lines are gone. */
  method Delete(db: Database, id: int) returns (res: Result<()>)
    requires db.Valid()
    modifies db
    ensures db.Valid()
    ensures res.Err? <==> FindRecordById(old(db.records), id).None?
    ensures res.Err? ==> res.error == NotFound
    ensures db.records == RemoveRecord(old(db.records), id)
    ensures db.plans == old(db.plans) && db.nextId == old(db.nextId)
  {
    if FindRecordById(db.records, id).None? {
      return Err(NotFound);
    }
    db.DeleteRecord(id);
    res := Ok(());
  }

  /** After a delete no record has the id, and every other record is still there. */
  lemma RemoveRecordEffect(records: seq<MonthlyRecordData>, id: int)
    requires UniqueRecordIds(records)
    ensures FindRecordById(RemoveRecord(records, id), id).None?
    ensures forall r :: r in records && r.id != Some(id) ==> r in RemoveRecord(records, id)
    ensures forall r :: r in RemoveRecord(records, id) ==> r in records
  {
    match IndexOfRecord(records, id)
    case None =>
    case Some(k) =>
      var rest := records[..k] + records[k + 1..];
      RemovedAtGone(records, k, rest);
      RemovedAtKeepsOthers(records, k, rest);
      RemovedAtSubset(records, k, rest);
  }

  lemma RemovedAtGone(records: seq<MonthlyRecordData>, k: nat, rest: seq<MonthlyRecordData>)
    requires UniqueRecordIds(records) && k < |records| && rest == records[..k] + records[k + 1..]
    ensures forall i :: 0 <= i < |rest| ==> rest[i].id != records[k].id
  {
    assert forall i :: 0 <= i < |rest| ==> rest[i] == records[if i < k then i else i + 1];
  }

  lemma RemovedAtKeepsOthers(records: seq<MonthlyRecordData>, k: nat, rest: seq<MonthlyRecordData>)
    requires k < |records| && rest == records[..k] + records[k + 1..]
    ensures forall r :: r in records && r.id != records[k].id ==> r in rest
  {
    forall r | r in records && r.id != records[k].id
      ensures r in rest
    {
      var i :| 0 <= i < |records| && records[i] == r;
      if i < k {
        assert rest[i] == r;
      } else {
        assert rest[i - 1] == r;
      }
    }
  }

  lemma RemovedAtSubset(records: seq<MonthlyRecordData>, k: nat, rest: seq<MonthlyRecordData>)
    requires k < |records| && rest == records[..k] + records[k + 1..]
    ensures forall r :: r in rest ==> r in records
  {
    assert forall i :: 0 <= i < |rest| ==> rest[i] == records[if i < k then i else i + 1];
  }

  // ---------------------------------------------------------------------
  // getPreviousTemplate
  // ---------------------------------------------------------------------

  /**
   * The template for `(year, month)`: the previous month's record with every
   * id cleared, the period replaced and the summary dropped, amounts and
   * totals kept; with no previous month, an empty record of the period.
   */
  function Template(records: seq<MonthlyRecordData>, year: int, month: int): MonthlyRecordData
  {
    match FindPreviousRecord(records, year, month)
    case None => MonthlyRecordData(None, year, month, 0.0, 0.0, 0.0, 0.0, None, [], [], [], [])
    case Some(p) => p.Unsaved().(year := year, month := month, summary := None)
  }

  /** Unlike `create`, the template keeps the previous month's amounts. */
  lemma TemplateKeepsAmounts(records: seq<MonthlyRecordData>, year: int, month: int)
    requires FindPreviousRecord(records, year, month).Some?
    ensures var p, t := FindPreviousRecord(records, year, month).value, Template(records, year, month);
      && t.id.None? && t.year == year && t.month == month && t.summary.None?
      && t.totalAsset == p.totalAsset && t.totalLiability == p.totalLiability
      && t.totalIncome == p.totalIncome && t.totalExpense == p.totalExpense
      && AssetTotal(t.assetDetails) == AssetTotal(p.assetDetails)
      && ExpenseTotal(t.expenseDetails) == ExpenseTotal(p.expenseDetails)
      && (forall j :: 0 <= j < |t.assetDetails| ==> t.assetDetails[j].id.None?)
  {
    var p := FindPreviousRecord(records, year, month).value;
    SumOfMap(AssetAmount, AssetUnsaved, AssetAmount, p.assetDetails);
    SumOfMap(ExpenseAmount, ExpenseUnsaved, ExpenseAmount, p.expenseDetails);
  }

  /** The template's copy of the lines: each one with its id cleared. */
  method UnsavedAssets(ds: seq<AssetDetail>) returns (copies: seq<AssetDetail>)
    ensures copies == Map(AssetUnsaved, ds)
  {
    copies := [];
    var k := 0;
    while k < |ds|
      invariant 0 <= k <= |ds| && copies == Map(AssetUnsaved, ds[..k])
    {
      copies := copies + [ds[k].(id := None)];
      assert ds[..k + 1][..k] == ds[..k];
      k := k + 1;
    }
    assert ds[..k] == ds;
  }

  /** The template's copy of the lines: each one with its id cleared. */
  method UnsavedLiabilities(ds: seq<LiabilityDetail>) returns (copies: seq<LiabilityDetail>)
    ensures copies == Map(LiabilityUnsaved, ds)
  {
    copies := [];
    var k := 0;
    while k < |ds|
      invariant 0 <= k <= |ds| && copies == Map(LiabilityUnsaved, ds[..k])
    {
      copies := copies + [ds[k].(id := None)];
      assert ds[..k + 1][..k] == ds[..k];
      k := k + 1;
    }
    assert ds[..k] == ds;
  }

  /** The template's copy of the lines: each one with its id cleared. */
  method UnsavedIncomes(ds: seq<IncomeDetail>) returns (copies: seq<IncomeDetail>)
    ensures copies == Map(IncomeUnsaved, ds)
  {
    copies := [];
    var k := 0;
    while k < |ds|
      invariant 0 <= k <= |ds| && copies == Map(IncomeUnsaved, ds[..k])
    {
      copies := copies + [ds[k].(id := None)];
      assert ds[..k + 1][..k] == ds[..k];
      k := k + 1;
    }
    assert ds[..k] == ds;
  }

  /** The template's copy of the lines: each one with its id cleared. */
  method UnsavedExpenses(ds: seq<ExpenseDetail>) returns (copies: seq<ExpenseDetail>)
    ensures copies == Map(ExpenseUnsaved, ds)
  {
    copies := [];
    var k := 0;
    while k < |ds|
      invariant 0 <= k <= |ds| && copies == Map(ExpenseUnsaved, ds[..k])
    {
      copies := copies + [ds[k].(id := None)];
      assert ds[..k + 1][..k] == ds[..k];
      k := k + 1;
    }
    assert ds[..k] == ds;
  }

  /** `getPreviousTemplate`: the response of the previous record with ids cleared line by line. */
  method GetPreviousTemplate(db: Database, year: int, month: int) returns (t: MonthlyRecordData)
    ensures t == Template(db.records, year, month)
  {
    var previous := FindPreviousRecord(db.records, year, month);
    if previous.None? {
      var empty := new MonthlyRecord(year, month);
      return empty.Data();
    }
    var p := previous.value;
    var assets := UnsavedAssets(p.assetDetails);
    var liabilities := UnsavedLiabilities(p.liabilityDetails);
    var incomes := UnsavedIncomes(p.incomeDetails);
    var expenses := UnsavedExpenses(p.expenseDetails);
    t := p.(id := None, year := year, month := month, summary := None,
            assetDetails := assets, liabilityDetails := liabilities, incomeDetails := incomes, expenseDetails := expenses);
  }
}
