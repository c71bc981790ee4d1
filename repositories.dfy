/**
 * The Spring Data repositories the core calls, over one in-memory database.
 * Rows are values; a service loads a row into an entity, changes the entity
 * and saves it back. A row's `id` is its generated identity.
 */
module Repositories {
  import opened Wrappers
  import opened Enums
  import opened Seqs
  import opened MonthlyDetails
  import opened MonthlyRecordEntity
  import opened AnnualExpenseEntity
  import opened PlanEntities

  // ---------------------------------------------------------------------
  // MonthlyRecordRepository
  // ---------------------------------------------------------------------

  /** Index of the first stored record with identity `id`. */
  function IndexOfRecord(records: seq<MonthlyRecordData>, id: int): (k: Option<nat>)
    ensures k.None? <==> forall i :: 0 <= i < |records| ==> records[i].id != Some(id)
    ensures k.Some? ==> k.value < |records| && records[k.value].id == Some(id)
  {
    if |records| == 0 then None
    else if records[0].id == Some(id) then Some(0)
    else match IndexOfRecord(records[1..], id)
      case None => None
      case Some(j) => Some(j + 1)
  }

  /** `findById`. */
  function FindRecordById(records: seq<MonthlyRecordData>, id: int): (r: Option<MonthlyRecordData>)
    ensures r.None? <==> forall i :: 0 <= i < |records| ==> records[i].id != Some(id)
    ensures r.Some? ==> r.value in records && r.value.id == Some(id)
  {
    match IndexOfRecord(records, id)
    case None => None
    case Some(k) => Some(records[k])
  }

  /** `findByYearAndMonth`. */
  function FindByYearAndMonth(records: seq<MonthlyRecordData>, year: int, month: int): (r: Option<MonthlyRecordData>)
    ensures r.None? <==> forall i :: 0 <= i < |records| ==> records[i].year != year || records[i].month != month
    ensures r.Some? ==> r.value in records && r.value.year == year && r.value.month == month
  {
    if |records| == 0 then None
    else if records[0].year == year && records[0].month == month then Some(records[0])
    else
      var r := FindByYearAndMonth(records[1..], year, month);
      assert forall i :: 1 <= i < |records| ==> records[i] == records[1..][i - 1];
      r
  }

  /** `existsByYearAndMonth`. */
  function ExistsByYearAndMonth(records: seq<MonthlyRecordData>, year: int, month: int): (b: bool)
    ensures b <==> exists i :: 0 <= i < |records| && records[i].year == year && records[i].month == month
  {
    FindByYearAndMonth(records, year, month).Some?
  }

  function RecordMonth(r: MonthlyRecordData): int { r.month }

  /** The records of `year`, in storage order. */
  function RecordsOfYear(records: seq<MonthlyRecordData>, year: int): (rs: seq<MonthlyRecordData>)
    ensures forall r :: r in rs <==> r in records && r.year == year
  {
    if |records| == 0 then []
    else
      var init := RecordsOfYear(records[..|records| - 1], year);
      var last := records[|records| - 1];
      assert records == records[..|records| - 1] + [last];
      if last.year == year then init + [last] else init
  }

  /** `findByYearOrderByMonthAsc`: exactly the records of `year`, months ascending. */
  function FindByYearOrderByMonthAsc(records: seq<MonthlyRecordData>, year: int): (rs: seq<MonthlyRecordData>)
    ensures SortedBy(RecordMonth, rs)
    ensures multiset(rs) == multiset(RecordsOfYear(records, year))
    ensures forall r :: r in rs <==> r in records && r.year == year
  {
    var rs := SortBy(RecordMonth, RecordsOfYear(records, year));
    assert forall r :: r in rs <==> r in multiset(rs);
    rs
  }

  // ---------------------------------------------------------------------
  // AnnualBalancePlanRepository and AnnualExpenseRepository
  // ---------------------------------------------------------------------

  /** Index of the first stored plan of `year`. */
  function IndexOfPlan(plans: seq<PlanData>, year: int): (k: Option<nat>)
    ensures k.None? <==> forall i :: 0 <= i < |plans| ==> plans[i].year != year
    ensures k.Some? ==> k.value < |plans| && plans[k.value].year == year
  {
    if |plans| == 0 then None
    else if plans[0].year == year then Some(0)
    else match IndexOfPlan(plans[1..], year)
      case None => None
      case Some(j) => Some(j + 1)
  }

  /** `findByYear`. */
  function FindPlanByYear(plans: seq<PlanData>, year: int): (p: Option<PlanData>)
    ensures p.None? <==> forall i :: 0 <= i < |plans| ==> plans[i].year != year
    ensures p.Some? ==> p.value in plans && p.value.year == year
  {
    match IndexOfPlan(plans, year)
    case None => None
    case Some(k) => Some(plans[k])
  }

  /** The first budget line with identity `id` among `es`. */
  function FindExpenseIn(es: seq<AnnualExpense>, id: int): (e: Option<AnnualExpense>)
    ensures e.None? <==> forall j :: 0 <= j < |es| ==> es[j].id != Some(id)
    ensures e.Some? ==> e.value in es && e.value.id == Some(id)
  {
    if |es| == 0 then None
    else if es[0].id == Some(id) then Some(es[0])
    else
      var e := FindExpenseIn(es[1..], id);
      assert forall j :: 1 <= j < |es| ==> es[j] == es[1..][j - 1];
      e
  }

  /** `AnnualExpenseRepository.findById`: budget lines of every plan are searched. */
  function FindAnnualExpenseById(plans: seq<PlanData>, id: int): (e: Option<AnnualExpense>)
    ensures e.None? <==>
      forall i, j :: 0 <= i < |plans| && 0 <= j < |plans[i].annualExpenses| ==> plans[i].annualExpenses[j].id != Some(id)
    ensures e.Some? ==> e.value.id == Some(id)
    ensures e.Some? ==> exists i :: 0 <= i < |plans| && e.value in plans[i].annualExpenses
  {
    if |plans| == 0 then None
    else match FindExpenseIn(plans[0].annualExpenses, id)
      case Some(e) => Some(e)
      case None =>
        var e := FindAnnualExpenseById(plans[1..], id);
        assert forall i :: 1 <= i < |plans| ==> plans[i] == plans[1..][i - 1];
        assert e.Some? ==> exists i :: 1 <= i < |plans| && e.value in plans[i].annualExpenses by {
          if e.Some? {
            var i :| 0 <= i < |plans[1..]| && e.value in plans[1..][i].annualExpenses;
            assert plans[i + 1] == plans[1..][i];
          }
        }
        e
  }

  // ---------------------------------------------------------------------
  // MonthlyAssetDetailRepository
  // ---------------------------------------------------------------------

  /** The asset lines of `ds` in group `g`. */
  function AssetsOfGroup(ds: seq<AssetDetail>, g: AssetGroup): (gs: seq<AssetDetail>)
    ensures forall d :: d in gs <==> d in ds && d.assetGroup == g
  {
    if |ds| == 0 then []
    else
      var init := AssetsOfGroup(ds[..|ds| - 1], g);
      var last := ds[|ds| - 1];
      assert ds == ds[..|ds| - 1] + [last];
      if last.assetGroup == g then init + [last] else init
  }

  /**
   * `sumAmountByRecordIdAndGroup` for the record whose asset lines are `ds`:
   * SQL's SUM, which is null when no line matches.
   */
  function SumAmountByGroup(ds: seq<AssetDetail>, g: AssetGroup): (s: Option<real>)
    ensures s.None? <==> forall i :: 0 <= i < |ds| ==> ds[i].assetGroup != g
    ensures s.Some? ==> s.value == AssetTotal(AssetsOfGroup(ds, g))
  {
    var gs := AssetsOfGroup(ds, g);
    assert (forall i :: 0 <= i < |ds| ==> ds[i].assetGroup != g) ==> |gs| == 0 by {
      if |gs| > 0 {
        assert gs[0] in gs;
      }
    }
    if |gs| == 0 then None else Some(AssetTotal(gs))
  }

  // ---------------------------------------------------------------------
  // MonthlyExpenseDetailRepository
  // ---------------------------------------------------------------------

  /** The expense lines of `ds` charged to budget line `id`. */
  function LinkedLines(ds: seq<ExpenseDetail>, id: int): (ls: seq<ExpenseDetail>)
  {
    if |ds| == 0 then []
    else
      var init := LinkedLines(ds[..|ds| - 1], id);
      if ds[|ds| - 1].annualExpenseId == Some(id) then init + [ds[|ds| - 1]] else init
  }

  /** The expense lines of `records` charged to `id`, in records of `year` only when a year is given. */
  function ChargedLines(records: seq<MonthlyRecordData>, id: int, year: Option<int>): seq<ExpenseDetail>
  {
    if |records| == 0 then []
    else
      var last := records[|records| - 1];
      ChargedLines(records[..|records| - 1], id, year)
        + (if year.None? || last.year == year.value then LinkedLines(last.expenseDetails, id) else [])
  }

  /** SQL's SUM over `lines`: null when there is no line. */
  function SqlSum(lines: seq<ExpenseDetail>): Option<real>
  {
    if |lines| == 0 then None else Some(ExpenseTotal(lines))
  }

  /** `sumAmountByAnnualExpenseId`; a null id equals nothing in SQL. */
  function SumAmountByAnnualExpenseId(records: seq<MonthlyRecordData>, id: Option<int>): Option<real>
  {
    if id.None? then None else SqlSum(ChargedLines(records, id.value, None))
  }

  /** `sumAmountByAnnualExpenseIdAndYear`: only lines of records of `year` count. */
  function SumAmountByAnnualExpenseIdAndYear(records: seq<MonthlyRecordData>, id: Option<int>, year: int): Option<real>
  {
    if id.None? then None else SqlSum(ChargedLines(records, id.value, Some(year)))
  }

  /** What the services make of the year sum: null becomes ZERO. */
  function SpentInYear(records: seq<MonthlyRecordData>, id: Option<int>, year: int): real
  {
    SumAmountByAnnualExpenseIdAndYear(records, id, year).GetOr(0.0)
  }

  /** The line with its budget reference dropped when it points into `ids`. */
  function ClearLine(d: ExpenseDetail, ids: seq<int>): ExpenseDetail
  {
    if d.annualExpenseId.Some? && d.annualExpenseId.value in ids then d.(annualExpenseId := None) else d
  }

  function ClearLines(ds: seq<ExpenseDetail>, ids: seq<int>): (cs: seq<ExpenseDetail>)
    ensures |cs| == |ds| && forall j :: 0 <= j < |ds| ==> cs[j] == ClearLine(ds[j], ids)
  {
    seq(|ds|, j requires 0 <= j < |ds| => ClearLine(ds[j], ids))
  }

  function ClearRecord(r: MonthlyRecordData, ids: seq<int>): MonthlyRecordData
  {
    r.(expenseDetails := ClearLines(r.expenseDetails, ids))
  }

  /** The rows after `clearAnnualExpenseReferences(ids)`. */
  function ClearReferences(records: seq<MonthlyRecordData>, ids: seq<int>): seq<MonthlyRecordData>
  {
    seq(|records|, k requires 0 <= k < |records| => ClearRecord(records[k], ids))
  }

  // ---------------------------------------------------------------------
  // Facts about the expense sums
  // ---------------------------------------------------------------------

  lemma {:induction false} LinkedLinesEmptyIff(ds: seq<ExpenseDetail>, id: int)
    ensures |LinkedLines(ds, id)| == 0 <==> forall j :: 0 <= j < |ds| ==> ds[j].annualExpenseId != Some(id)
  {
    if |ds| > 0 {
      LinkedLinesEmptyIff(ds[..|ds| - 1], id);
      assert forall j :: 0 <= j < |ds| - 1 ==> ds[..|ds| - 1][j] == ds[j];
    }
  }

  /**
   * The year sum is null exactly when no expense line of a record of that
   * year is charged to the budget line (or the budget line has no id).
   */
  lemma {:induction false} YearSumNullIff(records: seq<MonthlyRecordData>, id: int, year: int)
    ensures SumAmountByAnnualExpenseIdAndYear(records, Some(id), year).None? <==>
      forall k, j :: 0 <= k < |records| && records[k].year == year && 0 <= j < |records[k].expenseDetails| ==>
        records[k].expenseDetails[j].annualExpenseId != Some(id)
  {
    if |records| > 0 {
      var init := records[..|records| - 1];
      var last := records[|records| - 1];
      YearSumNullIff(init, id, year);
      LinkedLinesEmptyIff(last.expenseDetails, id);
      assert forall k :: 0 <= k < |init| ==> init[k] == records[k];
    }
  }

  /** A record outside the year adds nothing to the year sum; a record inside it adds its linked lines. */
  lemma {:induction false} YearSumAppend(records: seq<MonthlyRecordData>, r: MonthlyRecordData, id: int, year: int)
    ensures SpentInYear(records + [r], Some(id), year) ==
      SpentInYear(records, Some(id), year) + (if r.year == year then ExpenseTotal(LinkedLines(r.expenseDetails, id)) else 0.0)
  {
    var rs := records + [r];
    assert rs[..|rs| - 1] == records;
    var before := ChargedLines(records, id, Some(year));
    var added := if r.year == year then LinkedLines(r.expenseDetails, id) else [];
    SumAppend(ExpenseAmount, before, added);
  }

  /** The unfiltered sum takes the linked lines of every record, whatever its year. */
  lemma {:induction false} AllYearsSumAppend(records: seq<MonthlyRecordData>, r: MonthlyRecordData, id: int)
    ensures SumAmountByAnnualExpenseId(records + [r], Some(id)).GetOr(0.0) ==
      SumAmountByAnnualExpenseId(records, Some(id)).GetOr(0.0) + ExpenseTotal(LinkedLines(r.expenseDetails, id))
  {
    var rs := records + [r];
    assert rs[..|rs| - 1] == records;
    SumAppend(ExpenseAmount, ChargedLines(records, id, None), LinkedLines(r.expenseDetails, id));
  }

  lemma {:induction false} LinkedLinesOfCleared(ds: seq<ExpenseDetail>, ids: seq<int>, id: int)
    ensures LinkedLines(ClearLines(ds, ids), id) == if id in ids then [] else LinkedLines(ds, id)
  {
    if |ds| > 0 {
      var init := ds[..|ds| - 1];
      LinkedLinesOfCleared(init, ids, id);
      assert ClearLines(ds, ids)[..|ds| - 1] == ClearLines(init, ids);
    }
  }

  lemma {:induction false} ChargedLinesOfCleared(records: seq<MonthlyRecordData>, ids: seq<int>, id: int, year: Option<int>)
    ensures ChargedLines(ClearReferences(records, ids), id, year) == if id in ids then [] else ChargedLines(records, id, year)
  {
    if |records| > 0 {
      var init := records[..|records| - 1];
      var cleared := ClearReferences(records, ids);
      var last := records[|records| - 1];
      assert cleared[..|records| - 1] == ClearReferences(init, ids);
      assert cleared[|records| - 1] == ClearRecord(last, ids);
      ChargedLinesOfCleared(init, ids, id, year);
      LinkedLinesOfCleared(last.expenseDetails, ids, id);
    }
  }

  /**
   * After `clearAnnualExpenseReferences(ids)` nothing is charged any more to a
   * budget line in `ids`, in any year, and the sums of every other budget
   * line are as before.
   */
  lemma ClearReferencesEffect(records: seq<MonthlyRecordData>, ids: seq<int>, id: int, year: int)
    ensures id in ids ==> SumAmountByAnnualExpenseIdAndYear(ClearReferences(records, ids), Some(id), year).None?
    ensures id in ids ==> SumAmountByAnnualExpenseId(ClearReferences(records, ids), Some(id)).None?
    ensures id !in ids ==>
      SumAmountByAnnualExpenseIdAndYear(ClearReferences(records, ids), Some(id), year) ==
      SumAmountByAnnualExpenseIdAndYear(records, Some(id), year)
    ensures id !in ids ==>
      SumAmountByAnnualExpenseId(ClearReferences(records, ids), Some(id)) == SumAmountByAnnualExpenseId(records, Some(id))
  {
    ChargedLinesOfCleared(records, ids, id, Some(year));
    ChargedLinesOfCleared(records, ids, id, None);
  }

  // ---------------------------------------------------------------------
  // Invariants of the stored rows
  // ---------------------------------------------------------------------

  /** Every budget reference of the lines `ds` is below `n`. */
  predicate ReferencesBelow(ds: seq<ExpenseDetail>, n: int)
  {
    forall j :: 0 <= j < |ds| && ds[j].annualExpenseId.Some? ==> ds[j].annualExpenseId.value < n
  }

  /** Every budget line id of `es` is below `n`. */
  predicate ExpenseIdsBelow(es: seq<AnnualExpense>, n: int)
  {
    forall j :: 0 <= j < |es| && es[j].id.Some? ==> es[j].id.value < n
  }

  /** No expense line of `records` is charged to a budget line id at or above `n`. */
  lemma NothingChargedAtOrAbove(records: seq<MonthlyRecordData>, n: int, id: int, year: int)
    requires forall k :: 0 <= k < |records| ==> ReferencesBelow(records[k].expenseDetails, n)
    requires id >= n
    ensures SumAmountByAnnualExpenseIdAndYear(records, Some(id), year).None?
  {
    YearSumNullIff(records, id, year);
  }

  // ---------------------------------------------------------------------
  // Identity generation
  // ---------------------------------------------------------------------

  function NumberAssets(ds: seq<AssetDetail>, base: int): seq<AssetDetail>
  {
    seq(|ds|, i requires 0 <= i < |ds| => if ds[i].id.Some? then ds[i] else ds[i].(id := Some(base + i)))
  }

  function NumberLiabilities(ds: seq<LiabilityDetail>, base: int): seq<LiabilityDetail>
  {
    seq(|ds|, i requires 0 <= i < |ds| => if ds[i].id.Some? then ds[i] else ds[i].(id := Some(base + i)))
  }

  function NumberIncomes(ds: seq<IncomeDetail>, base: int): seq<IncomeDetail>
  {
    seq(|ds|, i requires 0 <= i < |ds| => if ds[i].id.Some? then ds[i] else ds[i].(id := Some(base + i)))
  }

  function NumberExpenseLines(ds: seq<ExpenseDetail>, base: int): seq<ExpenseDetail>
  {
    seq(|ds|, i requires 0 <= i < |ds| => if ds[i].id.Some? then ds[i] else ds[i].(id := Some(base + i)))
  }

  function NumberBudgetLines(es: seq<AnnualExpense>, base: int): seq<AnnualExpense>
  {
    seq(|es|, i requires 0 <= i < |es| => if es[i].id.Some? then es[i] else es[i].(id := Some(base + i)))
  }

  /** How many identities saving `r` may draw. */
  function IdsNeeded(r: MonthlyRecordData): nat
  {
    1 + |r.assetDetails| + |r.liabilityDetails| + |r.incomeDetails| + |r.expenseDetails|
  }

  /** `r` as stored: identities drawn from `next` onwards for the record and each new line. */
  function WithIds(r: MonthlyRecordData, next: int): MonthlyRecordData
  {
    var a, l, i := |r.assetDetails|, |r.liabilityDetails|, |r.incomeDetails|;
    r.(id := if r.id.Some? then r.id else Some(next),
       assetDetails := NumberAssets(r.assetDetails, next + 1),
       liabilityDetails := NumberLiabilities(r.liabilityDetails, next + 1 + a),
       incomeDetails := NumberIncomes(r.incomeDetails, next + 1 + a + l),
       expenseDetails := NumberExpenseLines(r.expenseDetails, next + 1 + a + l + i))
  }

  lemma NumberAssetsKeeps(ds: seq<AssetDetail>, base: int)
    ensures Map(AssetUnsaved, NumberAssets(ds, base)) == Map(AssetUnsaved, ds)
  {
  }

  lemma NumberAssetsKeepsTotal(ds: seq<AssetDetail>, base: int)
    ensures AssetTotal(NumberAssets(ds, base)) == AssetTotal(ds)
  {
    SumSameTerms(AssetAmount, NumberAssets(ds, base), AssetAmount, ds);
  }

  lemma NumberLiabilitiesKeeps(ds: seq<LiabilityDetail>, base: int)
    ensures Map(LiabilityUnsaved, NumberLiabilities(ds, base)) == Map(LiabilityUnsaved, ds)
  {
  }

  lemma NumberLiabilitiesKeepsTotal(ds: seq<LiabilityDetail>, base: int)
    ensures LiabilityTotal(NumberLiabilities(ds, base)) == LiabilityTotal(ds)
  {
    SumSameTerms(LiabilityAmount, NumberLiabilities(ds, base), LiabilityAmount, ds);
  }

  lemma NumberIncomesKeeps(ds: seq<IncomeDetail>, base: int)
    ensures Map(IncomeUnsaved, NumberIncomes(ds, base)) == Map(IncomeUnsaved, ds)
  {
  }

  lemma NumberIncomesKeepsTotal(ds: seq<IncomeDetail>, base: int)
    ensures IncomeTotal(NumberIncomes(ds, base)) == IncomeTotal(ds)
  {
    SumSameTerms(IncomeAmount, NumberIncomes(ds, base), IncomeAmount, ds);
  }

  lemma NumberExpenseLinesKeeps(ds: seq<ExpenseDetail>, base: int)
    ensures Map(ExpenseUnsaved, NumberExpenseLines(ds, base)) == Map(ExpenseUnsaved, ds)
  {
  }

  lemma NumberExpenseLinesKeepsTotal(ds: seq<ExpenseDetail>, base: int)
    ensures ExpenseTotal(NumberExpenseLines(ds, base)) == ExpenseTotal(ds)
  {
    SumSameTerms(ExpenseAmount, NumberExpenseLines(ds, base), ExpenseAmount, ds);
  }

  /** Saving assigns identities and changes nothing else. */
  lemma WithIdsKeepsContent(r: MonthlyRecordData, next: int)
    ensures WithIds(r, next).Unsaved() == r.Unsaved()
    ensures WithIds(r, next).id.Some? && (r.id.Some? ==> WithIds(r, next).id == r.id)
  {
    WithIdsAssetsUnsaved(r, next);
    WithIdsLiabilitiesUnsaved(r, next);
    WithIdsIncomesUnsaved(r, next);
    WithIdsExpensesUnsaved(r, next);
    UnsavedOfSameLines(r, WithIds(r, next));
  }

  lemma WithIdsAssetsUnsaved(r: MonthlyRecordData, next: int)
    ensures Map(AssetUnsaved, WithIds(r, next).assetDetails) == Map(AssetUnsaved, r.assetDetails)
  {
    NumberAssetsKeeps(r.assetDetails, next + 1);
  }

  lemma WithIdsLiabilitiesUnsaved(r: MonthlyRecordData, next: int)
    ensures Map(LiabilityUnsaved, WithIds(r, next).liabilityDetails) == Map(LiabilityUnsaved, r.liabilityDetails)
  {
    NumberLiabilitiesKeeps(r.liabilityDetails, next + 1 + |r.assetDetails|);
  }

  lemma WithIdsIncomesUnsaved(r: MonthlyRecordData, next: int)
    ensures Map(IncomeUnsaved, WithIds(r, next).incomeDetails) == Map(IncomeUnsaved, r.incomeDetails)
  {
    NumberIncomesKeeps(r.incomeDetails, next + 1 + |r.assetDetails| + |r.liabilityDetails|);
  }

  lemma WithIdsExpensesUnsaved(r: MonthlyRecordData, next: int)
    ensures Map(ExpenseUnsaved, WithIds(r, next).expenseDetails) == Map(ExpenseUnsaved, r.expenseDetails)
  {
    var a, l, i := |r.assetDetails|, |r.liabilityDetails|, |r.incomeDetails|;
    NumberExpenseLinesKeeps(r.expenseDetails, next + 1 + a + l + i);
  }

  /** Two records that differ only in identities have the same unsaved form. */
  lemma UnsavedOfSameLines(r: MonthlyRecordData, w: MonthlyRecordData)
    requires w.year == r.year && w.month == r.month && w.summary == r.summary
    requires w.totalAsset == r.totalAsset && w.totalLiability == r.totalLiability
    requires w.totalIncome == r.totalIncome && w.totalExpense == r.totalExpense
    requires Map(AssetUnsaved, w.assetDetails) == Map(AssetUnsaved, r.assetDetails)
    requires Map(LiabilityUnsaved, w.liabilityDetails) == Map(LiabilityUnsaved, r.liabilityDetails)
    requires Map(IncomeUnsaved, w.incomeDetails) == Map(IncomeUnsaved, r.incomeDetails)
    requires Map(ExpenseUnsaved, w.expenseDetails) == Map(ExpenseUnsaved, r.expenseDetails)
    ensures w.Unsaved() == r.Unsaved()
  {
  }

  lemma WithIdsKeepsAssetSum(r: MonthlyRecordData, next: int)
    ensures AssetTotal(WithIds(r, next).assetDetails) == AssetTotal(r.assetDetails)
  {
    NumberAssetsKeepsTotal(r.assetDetails, next + 1);
  }

  lemma WithIdsKeepsLiabilitySum(r: MonthlyRecordData, next: int)
    ensures LiabilityTotal(WithIds(r, next).liabilityDetails) == LiabilityTotal(r.liabilityDetails)
  {
    NumberLiabilitiesKeepsTotal(r.liabilityDetails, next + 1 + |r.assetDetails|);
  }

  lemma WithIdsKeepsIncomeSum(r: MonthlyRecordData, next: int)
    ensures IncomeTotal(WithIds(r, next).incomeDetails) == IncomeTotal(r.incomeDetails)
  {
    NumberIncomesKeepsTotal(r.incomeDetails, next + 1 + |r.assetDetails| + |r.liabilityDetails|);
  }

  lemma WithIdsKeepsExpenseSum(r: MonthlyRecordData, next: int)
    ensures ExpenseTotal(WithIds(r, next).expenseDetails) == ExpenseTotal(r.expenseDetails)
  {
    var a, l, i := |r.assetDetails|, |r.liabilityDetails|, |r.incomeDetails|;
    NumberExpenseLinesKeepsTotal(r.expenseDetails, next + 1 + a + l + i);
  }

  /** The stored totals still match the stored lines exactly when they matched before. */
  lemma WithIdsKeepsTotals(r: MonthlyRecordData, next: int)
    ensures WithIds(r, next).TotalsConsistent() <==> r.TotalsConsistent()
  {
    WithIdsKeepsAssetSum(r, next);
    WithIdsKeepsLiabilitySum(r, next);
    WithIdsKeepsIncomeSum(r, next);
    WithIdsKeepsExpenseSum(r, next);
  }

  /** `p` as stored: its new budget lines get identities drawn from `next` onwards. */
  function PlanWithIds(p: PlanData, next: int): PlanData
  {
    p.(annualExpenses := NumberBudgetLines(p.annualExpenses, next))
  }

  /** The plans after saving `p`: the row of its year is replaced, or `p` is added. */
  function UpsertPlan(plans: seq<PlanData>, p: PlanData): seq<PlanData>
  {
    match IndexOfPlan(plans, p.year)
    case None => plans + [p]
    case Some(k) => plans[k := p]
  }

  /** The records after saving `r`: the row with its identity is replaced, or `r` is added. */
  function UpsertRecord(records: seq<MonthlyRecordData>, r: MonthlyRecordData): seq<MonthlyRecordData>
    requires r.id.Some?
  {
    match IndexOfRecord(records, r.id.value)
    case None => records + [r]
    case Some(k) => records[k := r]
  }

  /** The records after `deleteById(id)`. */
  function RemoveRecord(records: seq<MonthlyRecordData>, id: int): seq<MonthlyRecordData>
  {
    match IndexOfRecord(records, id)
    case None => records
    case Some(k) => records[..k] + records[k + 1..]
  }

  predicate RecordIdsBelow(records: seq<MonthlyRecordData>, n: int)
  {
    forall k :: 0 <= k < |records| ==> records[k].id.Some? && records[k].id.value < n
  }

  predicate UniqueRecordIds(records: seq<MonthlyRecordData>)
  {
    forall i, j :: 0 <= i < j < |records| ==> records[i].id != records[j].id
  }

  /** The unique constraint on (record_year, record_month). */
  predicate UniquePeriods(records: seq<MonthlyRecordData>)
  {
    forall i, j :: 0 <= i < j < |records| ==> records[i].year != records[j].year || records[i].month != records[j].month
  }

  /** The unique constraint on plan_year. */
  predicate UniquePlanYears(plans: seq<PlanData>)
  {
    forall i, j :: 0 <= i < j < |plans| ==> plans[i].year != plans[j].year
  }

  predicate AllReferencesBelow(records: seq<MonthlyRecordData>, n: int)
  {
    forall k :: 0 <= k < |records| ==> ReferencesBelow(records[k].expenseDetails, n)
  }

  /** Every budget line of `es` has an id, and it is below `n`. */
  predicate Identified(es: seq<AnnualExpense>, n: int)
  {
    forall j :: 0 <= j < |es| ==> es[j].id.Some? && es[j].id.value < n
  }

  predicate AllExpenseIdsBelow(plans: seq<PlanData>, n: int)
  {
    forall k :: 0 <= k < |plans| ==> Identified(plans[k].annualExpenses, n)
  }

  /** Numbering leaves lines that already have ids as they are. */
  lemma NumberingIdentified(es: seq<AnnualExpense>, n: int, next: int)
    requires Identified(es, n)
    ensures NumberBudgetLines(es, next) == es
  {
  }

  /** The invariant of the stored records, with `n` the next identity to hand out. */
  predicate RecordsValid(records: seq<MonthlyRecordData>, n: int)
  {
    && RecordIdsBelow(records, n)
    && UniqueRecordIds(records)
    && UniquePeriods(records)
    && AllReferencesBelow(records, n)
  }

  /** The invariant of the stored plans. */
  predicate PlansValid(plans: seq<PlanData>, n: int)
  {
    UniquePlanYears(plans) && AllExpenseIdsBelow(plans, n)
  }

  lemma ValidGrows(records: seq<MonthlyRecordData>, plans: seq<PlanData>, n: int, m: int)
    requires n <= m
    ensures RecordsValid(records, n) ==> RecordsValid(records, m)
    ensures PlansValid(plans, n) ==> PlansValid(plans, m)
  {
  }

  /** Saving a record keeps the invariant when its identity is fresh or already stored and its month is free. */
  lemma UpsertRecordValid(records: seq<MonthlyRecordData>, n: int, saved: MonthlyRecordData, m: int)
    requires RecordsValid(records, n) && n <= m
    requires saved.id.Some? && saved.id.value < m
    requires IndexOfRecord(records, saved.id.value).None? ==> saved.id.value >= n
    requires forall k :: 0 <= k < |records| && records[k].id != saved.id ==>
      records[k].year != saved.year || records[k].month != saved.month
    requires ReferencesBelow(saved.expenseDetails, m)
    ensures RecordsValid(UpsertRecord(records, saved), m)
  {
    ValidGrows(records, [], n, m);
    match IndexOfRecord(records, saved.id.value)
    case None =>
      AppendedRecordValid(records, m, saved);
    case Some(k) =>
      ReplacedRecordValid(records, m, k, saved);
  }

  lemma AppendedRecordValid(records: seq<MonthlyRecordData>, m: int, saved: MonthlyRecordData)
    requires RecordsValid(records, m)
    requires saved.id.Some? && saved.id.value < m
    requires forall k :: 0 <= k < |records| ==> records[k].id != saved.id
    requires forall k :: 0 <= k < |records| && records[k].id != saved.id ==>
      records[k].year != saved.year || records[k].month != saved.month
    requires ReferencesBelow(saved.expenseDetails, m)
    ensures RecordsValid(records + [saved], m)
  {
    var rs := records + [saved];
    assert forall i :: 0 <= i < |records| ==> rs[i] == records[i];
    assert rs[|records|] == saved;
  }

  lemma ReplacedRecordValid(records: seq<MonthlyRecordData>, m: int, k: nat, saved: MonthlyRecordData)
    requires RecordsValid(records, m)
    requires k < |records| && records[k].id == saved.id
    requires saved.id.Some? && saved.id.value < m
    requires forall k :: 0 <= k < |records| && records[k].id != saved.id ==>
      records[k].year != saved.year || records[k].month != saved.month
    requires ReferencesBelow(saved.expenseDetails, m)
    ensures RecordsValid(records[k := saved], m)
  {
  }

  lemma UpsertPlanValid(plans: seq<PlanData>, n: int, saved: PlanData, m: int)
    requires PlansValid(plans, n) && n <= m
    requires Identified(saved.annualExpenses, m)
    ensures PlansValid(UpsertPlan(plans, saved), m)
  {
    ValidGrows([], plans, n, m);
  }

  lemma RemoveRecordValid(records: seq<MonthlyRecordData>, n: int, id: int)
    requires RecordsValid(records, n)
    ensures RecordsValid(RemoveRecord(records, id), n)
  {
    match IndexOfRecord(records, id)
    case None =>
    case Some(k) =>
      RemovedAtValid(records, n, k);
  }

  lemma RemovedAtValid(records: seq<MonthlyRecordData>, n: int, k: nat)
    requires RecordsValid(records, n) && k < |records|
    ensures RecordsValid(records[..k] + records[k + 1..], n)
  {
    var rs := records[..k] + records[k + 1..];
    assert forall i :: 0 <= i < |rs| ==> rs[i] == records[if i < k then i else i + 1];
  }

  lemma ClearReferencesValid(records: seq<MonthlyRecordData>, n: int, ids: seq<int>)
    requires RecordsValid(records, n)
    ensures RecordsValid(ClearReferences(records, ids), n)
  {
    var rs := ClearReferences(records, ids);
    assert forall i :: 0 <= i < |rs| ==>
      rs[i].id == records[i].id && rs[i].year == records[i].year && rs[i].month == records[i].month;
  }

  /** The database: the monthly records and annual plans with everything they own. */
  class Database {
    var records: seq<MonthlyRecordData>
    var plans: seq<PlanData>
    /** The next identity the database hands out. */
    var nextId: int

    /**
     * Every stored record and budget line has an identity below `nextId`,
     * record identities and months are unique, plan years are unique, and no
     * expense line refers to an identity not yet handed out.
     */
    ghost predicate Valid()
      reads this
    {
      RecordsValid(records, nextId) && PlansValid(plans, nextId)
    }

    constructor ()
      ensures Valid() && records == [] && plans == []
    {
      records := [];
      plans := [];
      nextId := 1;
    }

    /**
     * `monthlyRecordRepository.save(r)`: inserts a new record or overwrites
     * the one with its identity, with all of its lines. The database refuses
     * a second record for a month; the callers never attempt one.
     */
    method SaveRecord(r: MonthlyRecordData) returns (saved: MonthlyRecordData)
      requires Valid()
      requires r.id.Some? ==> IndexOfRecord(records, r.id.value).Some?
      requires forall k :: 0 <= k < |records| && records[k].id != r.id ==>
        records[k].year != r.year || records[k].month != r.month
      requires ReferencesBelow(r.expenseDetails, nextId)
      modifies this
      ensures Valid()
      ensures saved == WithIds(r, old(nextId))
      ensures records == UpsertRecord(old(records), saved)
      ensures plans == old(plans)
      ensures nextId == old(nextId) + IdsNeeded(r)
    {
      saved := WithIds(r, nextId);
      WithIdsKeepsContent(r, nextId);
      var m := nextId + IdsNeeded(r);
      assert ReferencesBelow(saved.expenseDetails, m);
      UpsertRecordValid(records, nextId, saved, m);
      ValidGrows(records, plans, nextId, m);
      records := UpsertRecord(records, saved);
      nextId := m;
    }

    /** `annualBalancePlanRepository.save(p)`: the plan row of `p.year` with its lines. */
    method SavePlan(p: PlanData) returns (saved: PlanData)
      requires Valid()
      requires ExpenseIdsBelow(p.annualExpenses, nextId)
      modifies this
      ensures Valid()
      ensures saved == PlanWithIds(p, old(nextId))
      ensures plans == UpsertPlan(old(plans), saved)
      ensures records == old(records)
      ensures nextId == old(nextId) + |p.annualExpenses|
    {
      saved := PlanWithIds(p, nextId);
      var m := nextId + |p.annualExpenses|;
      assert Identified(saved.annualExpenses, m);
      UpsertPlanValid(plans, nextId, saved, m);
      ValidGrows(records, plans, nextId, m);
      plans := UpsertPlan(plans, saved);
      nextId := m;
    }

    /** `monthlyRecordRepository.deleteById(id)`: the record and, by cascade, its lines. */
    method DeleteRecord(id: int)
      requires Valid()
      modifies this
      ensures Valid()
      ensures records == RemoveRecord(old(records), id)
      ensures plans == old(plans) && nextId == old(nextId)
    {
      RemoveRecordValid(records, nextId, id);
      records := RemoveRecord(records, id);
    }

    /**
     * `clearAnnualExpenseReferences(ids)`: detaches from their budget line
     * every expense line charged to a budget line in `ids`.
     */
    method ClearAnnualExpenseReferences(ids: seq<int>)
      requires Valid()
      modifies this
      ensures Valid()
      ensures records == ClearReferences(old(records), ids)
      ensures plans == old(plans) && nextId == old(nextId)
    {
      ClearReferencesValid(records, nextId, ids);
      var k := 0;
      while k < |records|
        invariant 0 <= k <= |records| == |old(records)|
        invariant forall i :: 0 <= i < k ==> records[i] == ClearRecord(old(records)[i], ids)
        invariant forall i :: k <= i < |records| ==> records[i] == old(records)[i]
        invariant plans == old(plans) && nextId == old(nextId)
      {
        records := records[k := ClearRecord(records[k], ids)];
        k := k + 1;
      }
      assert records == ClearReferences(old(records), ids);
    }
  }
}
