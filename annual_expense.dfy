/** The AnnualExpense entity: one budget line of a year's plan. */
module AnnualExpenseEntity {
  import opened Wrappers
  import opened Enums
  import opened DecimalMath

  /**
   * `isMonthly` says whether `budgetAmount` is per month (true) or for the
   * whole year. Every producer of a budget line sets it, so it is never null.
   * `spentAmount` is the spending charged to the line, as last stored.
   */
  datatype AnnualExpense = AnnualExpense(
    id: Option<int>,
    parentCategory: Option<ExpenseCategory>,
    category: string,
    budgetAmount: real,
    isMonthly: bool,
    spentAmount: Option<real>,
    sortOrder: int)
  {
    /** `getRemainingAmount()`: budget still available; a missing spent amount counts as zero. */
    function RemainingAmount(): (r: real)
      ensures r + spentAmount.GetOr(0.0) == budgetAmount
      ensures r < 0.0 <==> spentAmount.GetOr(0.0) > budgetAmount
    {
      budgetAmount - spentAmount.GetOr(0.0)
    }

    /**
     * `getExecutionRate()`: the share of the budget spent, in percent, from a
     * quotient rounded half-up to four places. A zero budget gives 0; with a
     * non-zero budget a missing spent amount throws.
     */
    function ExecutionRate(): (r: Result<real>)
      ensures budgetAmount == 0.0 ==> r == Ok(0.0)
      ensures budgetAmount != 0.0 && spentAmount.None? ==> r == Err(NullPointer)
      ensures budgetAmount != 0.0 && spentAmount.Some? ==>
        r.Ok? && -0.005 <= r.value - 100.0 * (spentAmount.value / budgetAmount) <= 0.005
    {
      if budgetAmount == 0.0 then Ok(0.0)
      else match spentAmount
        case None => Err(NullPointer)
        case Some(spent) => Ok(RatePercent(spent, budgetAmount))
    }
  }

  /**
   * The rate and the remaining amount tell the same story: a budget that is
   * used up shows at least 100 percent, and one that is not yet exceeded shows
   * at most 100 percent.
   */
  lemma RateAgreesWithRemaining(e: AnnualExpense)
    requires e.budgetAmount > 0.0 && e.spentAmount.Some? && e.spentAmount.value >= 0.0
    ensures e.ExecutionRate().Ok?
    ensures e.RemainingAmount() <= 0.0 ==> e.ExecutionRate().value >= 100.0
    ensures e.RemainingAmount() >= 0.0 ==> 0.0 <= e.ExecutionRate().value <= 100.0
  {
    RatePercentAgainstWhole(e.spentAmount.value, e.budgetAmount);
  }
}
