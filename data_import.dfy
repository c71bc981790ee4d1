/**
 * DataImportService: a monthly record from CSV rows, and a year's plan from
 * the four sheets of a workbook. Cells reach the model as the text the
 * spreadsheet or CSV reader extracted.
 */
module DataImportService {
  import opened Wrappers
  import opened Seqs
  import opened Enums
  import opened Text
  import opened MonthlyDetails
  import opened MonthlyRecordEntity
  import opened AnnualExpenseEntity
  import opened PlanEntities
  import opened Repositories
  import opened AnnualPlanService

  // ---------------------------------------------------------------------
  // parseBigDecimal, parseAssetGroup, parseIncomeType
  // ---------------------------------------------------------------------

  /** `parseBigDecimal`: the number the trimmed text denotes once its commas are removed; ZERO for null, blank or unparsable text. */
  function ParseBigDecimal(value: Option<string>): real
  {
    if value.None? || |Trim(value.value)| == 0 then 0.0
    else ParseDecimal(RemoveCommas(Trim(value.value))).GetOr(0.0)
  }

  /** Null and blank text read as ZERO. */
  lemma ParseBigDecimalDefaults()
    ensures ParseBigDecimal(None) == 0.0
    ensures ParseBigDecimal(Some("")) == 0.0
    ensures ParseBigDecimal(Some("   ")) == 0.0
  {
    assert Trim("   ") == "" by {
      assert FirstKept("   ", 0) == 3;
    }
  }

  /** Text that is not a numeral reads as ZERO. */
  lemma ParseBigDecimalNonNumeric()
    ensures ParseBigDecimal(Some("abc")) == 0.0
  {
    TrimUntrimmed("abc");
    RemoveCommasNone("abc");
    LettersNotNumeral();
  }

  /** Text that needs no trimming and holds no comma is read by `new BigDecimal` as it stands. */
  lemma ParseBigDecimalPlain(s: string)
    requires |s| > 0 && !IsTrimmed(s[0]) && !IsTrimmed(s[|s| - 1]) && ',' !in s
    ensures ParseBigDecimal(Some(s)) == ParseDecimal(s).GetOr(0.0)
  {
    TrimUntrimmed(s);
    RemoveCommasNone(s);
  }

  /** A numeral of ASCII digits, with or without a minus sign, reads as its value. */
  lemma ParseBigDecimalNumeral(n: nat)
    ensures ParseBigDecimal(Some(NatToString(n))) == n as real
    ensures ParseBigDecimal(Some("-" + NatToString(n))) == -(n as real)
  {
    var s := NatToString(n);
    DigitsHaveNoMarks(s);
    assert ',' !in s by {
      assert forall k :: 0 <= k < |s| ==> s[k] != ',';
    }
    ParseBigDecimalPlain(s);
    var m := "-" + s;
    assert m[0] == '-' && m[|m| - 1] == s[|s| - 1];
    assert ',' !in m by {
      assert forall k :: 1 <= k < |m| ==> m[k] == s[k - 1];
    }
    ParseBigDecimalPlain(m);
    ParseNatNumeral(n);
  }

  /**
   * Thousands separators are ignored: two runs of digits joined by a comma
   * read as the digits run together.
   */
  lemma ParseBigDecimalGrouped(a: string, b: string)
    requires |a| > 0 && AllDigits(a) && |b| > 0 && AllDigits(b)
    ensures ParseBigDecimal(Some(a + "," + b)) == DigitsValue(a + b) as real
  {
    DigitsHaveNoMarks(a);
    DigitsHaveNoMarks(b);
    assert ',' !in a by {
      assert forall k :: 0 <= k < |a| ==> a[k] != ',';
    }
    assert ',' !in b by {
      assert forall k :: 0 <= k < |b| ==> b[k] != ',';
    }
    var s := a + "," + b;
    assert s[0] == a[0] && s[|s| - 1] == b[|b| - 1];
    TrimUntrimmed(s);
    RemoveCommasJoin(a, b);
    assert AllDigits(a + b) by {
      assert forall k :: 0 <= k < |a + b| ==> (a + b)[k] == if k < |a| then a[k] else b[k - |a|];
    }
    ParseDigits(a + b);
  }

  /** `parseAssetGroup`: a group's label or name, after trimming; LIQUID for anything else and for null. */
  function ParseAssetGroup(text: Option<string>): (g: AssetGroup)
    ensures text.None? ==> g == AssetGroup.LIQUID
  {
    if text.None? then AssetGroup.LIQUID
    else
      var l := Trim(text.value);
      if l == "活钱" || l == "LIQUID" then AssetGroup.LIQUID
      else if l == "保障" || l == "PROTECTION" then AssetGroup.PROTECTION
      else if l == "投资" || l == "INVESTMENT" then AssetGroup.INVESTMENT
      else AssetGroup.LIQUID
  }

  /** Every group reads back from its label and from its name, so what the export writes imports again. */
  lemma AssetGroupRoundTrip(g: AssetGroup)
    ensures ParseAssetGroup(Some(g.Label())) == g
    ensures ParseAssetGroup(Some(g.Name())) == g
  {
    TrimUntrimmed(g.Label());
    TrimUntrimmed(g.Name());
  }

  /** Text that is neither a label nor a name of a group, after trimming, reads as LIQUID. */
  lemma UnknownAssetGroupIsLiquid(text: string)
    requires forall g: AssetGroup :: Trim(text) != g.Label() && Trim(text) != g.Name()
    ensures ParseAssetGroup(Some(text)) == AssetGroup.LIQUID
  {
    assert Trim(text) != AssetGroup.PROTECTION.Label() && Trim(text) != AssetGroup.PROTECTION.Name();
    assert Trim(text) != AssetGroup.INVESTMENT.Label() && Trim(text) != AssetGroup.INVESTMENT.Name();
  }

  /** `parseIncomeType` as the source has it: it knows 分红 for DIVIDEND, not the label 股权. */
  function ParseIncomeTypeAsWritten(text: Option<string>): (t: IncomeType)
    ensures text.None? ==> t == IncomeType.OTHER
  {
    if text.None? then IncomeType.OTHER
    else
      var l := Trim(text.value);
      if l == "工资" || l == "SALARY" then IncomeType.SALARY
      else if l == "公积金" || l == "FUND" then IncomeType.FUND
      else if l == "奖金" || l == "BONUS" then IncomeType.BONUS
      else if l == "分红" || l == "DIVIDEND" then IncomeType.DIVIDEND
      else IncomeType.OTHER
  }

  /** The label the export writes for a dividend income comes back as OTHER. */
  lemma DividendLabelReadsAsOther()
    ensures ParseIncomeTypeAsWritten(Some(IncomeType.DIVIDEND.Label())) == IncomeType.OTHER
  {
    TrimUntrimmed(IncomeType.DIVIDEND.Label());
  }

  /** `parseIncomeType`, accepting the DIVIDEND label 股权 as well as 分红; null and unknown text read as OTHER. */
  function ParseIncomeType(text: Option<string>): (t: IncomeType)
    ensures text.None? ==> t == IncomeType.OTHER
  {
    if text.Some? && Trim(text.value) == IncomeType.DIVIDEND.Label() then IncomeType.DIVIDEND
    else ParseIncomeTypeAsWritten(text)
  }

  /** Every income type reads back from its own label. */
  lemma IncomeTypeRoundTrip(t: IncomeType)
    ensures ParseIncomeType(Some(t.Label())) == t
  {
    TrimUntrimmed(t.Label());
  }

  /** The correction changes the reading of the DIVIDEND label and of nothing else. */
  lemma IncomeTypeCorrectionIsNarrow(text: Option<string>)
    requires text.None? || Trim(text.value) != IncomeType.DIVIDEND.Label()
    ensures ParseIncomeType(text) == ParseIncomeTypeAsWritten(text)
  {
  }

  // ---------------------------------------------------------------------
  // importMonthlyRecordFromCsv
  // ---------------------------------------------------------------------

  datatype Section = ASSET | LIABILITY | INCOME | EXPENSE

  /** The section a trimmed first cell opens, if it names one. */
  function SectionNamed(cell: string): Option<Section>
  {
    if cell == "资产明细" || cell == "资产" then Some(ASSET)
    else if cell == "负债明细" || cell == "负债" then Some(LIABILITY)
    else if cell == "收入明细" || cell == "收入" then Some(INCOME)
    else if cell == "支出明细" || cell == "支出" then Some(EXPENSE)
    else None
  }

  /** A trimmed first cell of a column header row. */
  predicate IsColumnHeader(cell: string) { cell == "分组" || cell == "名称" || cell == "金额" }

  /** A row whose first cell, trimmed, names a section. */
  predicate OpensSection(row: seq<string>) { |row| > 0 && SectionNamed(Trim(row[0])).Some? }

  /** The loop's variables and the record's four lists after some rows. */
  datatype CsvState = CsvState(
    section: Option<Section>,
    sortOrder: int,
    assets: seq<AssetDetail>,
    liabilities: seq<LiabilityDetail>,
    incomes: seq<IncomeDetail>,
    expenses: seq<ExpenseDetail>)

  /** Before the first row: no section, sort order 0, the lists cleared. */
  const CsvStart := CsvState(None, 0, [], [], [], [])

  function AssetLine(row: seq<string>, sortOrder: int): AssetDetail
    requires |row| >= 3
  {
    AssetDetail(None, ParseAssetGroup(Some(row[0])), row[1], ParseBigDecimal(Some(row[2])), None, sortOrder)
  }

  function LiabilityLine(row: seq<string>, sortOrder: int): LiabilityDetail
    requires |row| >= 2
  {
    LiabilityDetail(None, row[0], ParseBigDecimal(Some(row[1])), None, sortOrder)
  }

  function IncomeLine(row: seq<string>, sortOrder: int): IncomeDetail
    requires |row| >= 2
  {
    IncomeDetail(None, row[0], ParseBigDecimal(Some(row[1])), sortOrder)
  }

  /** An expense line from CSV is charged to no budget line; a third cell is its description. */
  function ExpenseLine(row: seq<string>, sortOrder: int): ExpenseDetail
    requires |row| >= 2
  {
    ExpenseDetail(None, None, row[0], ParseBigDecimal(Some(row[1])), if |row| >= 3 then Some(row[2]) else None, sortOrder)
  }

  /** A data row is long enough for its section: three cells for assets, two for the others. */
  predicate LongEnough(s: Section, row: seq<string>) { |row| >= Width(s) }

  /** The cells a data row of section `s` needs. */
  function Width(s: Section): nat { if s == ASSET then 3 else 2 }

  /** The row as a line of the current section, numbered with the current sort order. */
  function Appended(st: CsvState, row: seq<string>): CsvState
    requires st.section.Some? && LongEnough(st.section.value, row)
  {
    var n := st.sortOrder;
    match st.section.value
    case ASSET => st.(sortOrder := n + 1, assets := st.assets + [AssetLine(row, n)])
    case LIABILITY => st.(sortOrder := n + 1, liabilities := st.liabilities + [LiabilityLine(row, n)])
    case INCOME => st.(sortOrder := n + 1, incomes := st.incomes + [IncomeLine(row, n)])
    case EXPENSE => st.(sortOrder := n + 1, expenses := st.expenses + [ExpenseLine(row, n)])
  }

  /** One turn of the row loop. */
  function CsvStep(st: CsvState, row: seq<string>): (next: CsvState)
    ensures |row| == 0 || row[0] == "" ==> next == st
    ensures OpensSection(row) ==> next == st.(section := SectionNamed(Trim(row[0])), sortOrder := 0)
    ensures !OpensSection(row) && st.section.None? ==> next == st
    ensures !OpensSection(row) && st.section.Some? && !LongEnough(st.section.value, row) ==> next == st
    ensures |row| > 0 && IsColumnHeader(Trim(row[0])) ==> next == st
    ensures st.section.Some? && Accepted(st.section.value, row) ==> next == Appended(st, row)
  {
    if |row| == 0 || row[0] == "" then st
    else
      var first := Trim(row[0]);
      match SectionNamed(first)
      case Some(s) => st.(section := Some(s), sortOrder := 0)
      case None =>
        if IsColumnHeader(first) || st.section.None? || !LongEnough(st.section.value, row) then st
        else Appended(st, row)
  }

  /** The row loop over `rows`, from `st`. */
  function CsvRun(st: CsvState, rows: seq<seq<string>>): CsvState
  {
    if |rows| == 0 then st else CsvStep(CsvRun(st, rows[..|rows| - 1]), rows[|rows| - 1])
  }

  lemma {:induction false} CsvRunAppend(st: CsvState, xs: seq<seq<string>>, ys: seq<seq<string>>)
    ensures CsvRun(st, xs + ys) == CsvRun(CsvRun(st, xs), ys)
  {
    if |ys| == 0 {
      assert xs + ys == xs;
    } else {
      var init := ys[..|ys| - 1];
      assert (xs + ys)[..|xs + ys| - 1] == xs + init;
      CsvRunAppend(st, xs, init);
    }
  }

  lemma {:induction false} NoSectionNoChange(rows: seq<seq<string>>)
    requires forall k :: 0 <= k < |rows| ==> !OpensSection(rows[k])
    ensures CsvRun(CsvStart, rows) == CsvStart
  {
    if |rows| > 0 {
      NoSectionNoChange(rows[..|rows| - 1]);
    }
  }

  /** Rows before the first section header add nothing and change nothing. */
  lemma LeadingRowsIgnored(before: seq<seq<string>>, rest: seq<seq<string>>)
    requires forall k :: 0 <= k < |before| ==> !OpensSection(before[k])
    ensures CsvRun(CsvStart, before + rest) == CsvRun(CsvStart, rest)
  {
    CsvRunAppend(CsvStart, before, rest);
    NoSectionNoChange(before);
  }

  predicate Unlinked(ds: seq<ExpenseDetail>)
  {
    forall k :: 0 <= k < |ds| ==> ds[k].annualExpenseId.None?
  }

  /** Expense lines imported from CSV are charged to no budget line. */
  lemma {:induction false} ImportedExpensesUnlinked(st: CsvState, rows: seq<seq<string>>)
    requires Unlinked(st.expenses)
    ensures Unlinked(CsvRun(st, rows).expenses)
  {
    if |rows| > 0 {
      ImportedExpensesUnlinked(st, rows[..|rows| - 1]);
    }
  }

  function AssetOrder(d: AssetDetail): int { d.sortOrder }
  function LiabilityOrder(d: LiabilityDetail): int { d.sortOrder }
  function IncomeOrder(d: IncomeDetail): int { d.sortOrder }
  function ExpenseOrder(d: ExpenseDetail): int { d.sortOrder }

  /** The sort orders of the lines of section `s`, in list order. */
  function SortOrders(st: CsvState, s: Section): seq<int>
  {
    match s
    case ASSET => Map(AssetOrder, st.assets)
    case LIABILITY => Map(LiabilityOrder, st.liabilities)
    case INCOME => Map(IncomeOrder, st.incomes)
    case EXPENSE => Map(ExpenseOrder, st.expenses)
  }

  /** The lists of the sections other than `s` are the same in both states. */
  predicate OthersUnchanged(a: CsvState, b: CsvState, s: Section)
  {
    && (s != ASSET ==> b.assets == a.assets)
    && (s != LIABILITY ==> b.liabilities == a.liabilities)
    && (s != INCOME ==> b.incomes == a.incomes)
    && (s != EXPENSE ==> b.expenses == a.expenses)
  }

  /** `lo, lo + 1, …, hi - 1`. */
  function Range(lo: int, hi: int): (r: seq<int>)
    ensures |r| == if hi <= lo then 0 else hi - lo
    ensures forall k :: 0 <= k < |r| ==> r[k] == lo + k
    decreases hi - lo
  {
    if hi <= lo then [] else Range(lo, hi - 1) + [hi - 1]
  }

  lemma AppendedOrders(st: CsvState, row: seq<string>)
    requires st.section.Some? && LongEnough(st.section.value, row)
    ensures var next, s := Appended(st, row), st.section.value;
      && next.section == st.section && next.sortOrder == st.sortOrder + 1
      && SortOrders(next, s) == SortOrders(st, s) + [st.sortOrder] && OthersUnchanged(st, next, s)
  {
    var next := Appended(st, row);
    match st.section.value
    case ASSET => assert next.assets[..|st.assets|] == st.assets;
    case LIABILITY => assert next.liabilities[..|st.liabilities|] == st.liabilities;
    case INCOME => assert next.incomes[..|st.incomes|] == st.incomes;
    case EXPENSE => assert next.expenses[..|st.expenses|] == st.expenses;
  }

  /** From `st` to `end`, section `s` stays current and gains lines numbered `st.sortOrder`, …, `end.sortOrder - 1`. */
  predicate NumberedOn(st: CsvState, end: CsvState, s: Section)
  {
    && end.section == Some(s)
    && st.sortOrder <= end.sortOrder
    && SortOrders(end, s) == SortOrders(st, s) + Range(st.sortOrder, end.sortOrder)
    && OthersUnchanged(st, end, s)
  }

  /** A row that opens no section either changes nothing or appends one line. */
  lemma InSectionStep(mid: CsvState, row: seq<string>)
    requires mid.section.Some? && !OpensSection(row)
    ensures CsvStep(mid, row) == mid || (LongEnough(mid.section.value, row) && CsvStep(mid, row) == Appended(mid, row))
  {
  }

  /** One more row inside a section keeps the numbering gapless. */
  lemma SectionRowStep(st: CsvState, mid: CsvState, row: seq<string>)
    requires st.section.Some? && NumberedOn(st, mid, st.section.value)
    requires !OpensSection(row)
    ensures NumberedOn(st, CsvStep(mid, row), st.section.value)
  {
    InSectionStep(mid, row);
    if CsvStep(mid, row) != mid {
      AppendedLineNumbered(st, mid, row);
    }
  }

  lemma AppendedLineNumbered(st: CsvState, mid: CsvState, row: seq<string>)
    requires st.section.Some? && NumberedOn(st, mid, st.section.value)
    requires LongEnough(st.section.value, row)
    ensures NumberedOn(st, Appended(mid, row), st.section.value)
  {
    var s, next := st.section.value, Appended(mid, row);
    AppendedOrders(mid, row);
    OthersUnchangedTransitive(st, mid, next, s);
    RangeSnoc(st.sortOrder, mid.sortOrder);
    SnocAfter(SortOrders(st, s), Range(st.sortOrder, mid.sortOrder), SortOrders(mid, s), SortOrders(next, s), mid.sortOrder);
  }

  /** A sequence that extends `base` by `r` and then by `[x]` extends it by `r + [x]`. */
  lemma SnocAfter(base: seq<int>, r: seq<int>, mid: seq<int>, next: seq<int>, x: int)
    requires mid == base + r && next == mid + [x]
    ensures next == base + (r + [x])
  {
    assert base + r + [x] == base + (r + [x]);
  }

  lemma OthersUnchangedTransitive(a: CsvState, b: CsvState, c: CsvState, s: Section)
    requires OthersUnchanged(a, b, s) && OthersUnchanged(b, c, s)
    ensures OthersUnchanged(a, c, s)
  {
  }

  lemma RangeSnoc(lo: int, hi: int)
    requires lo <= hi
    ensures Range(lo, hi + 1) == Range(lo, hi) + [hi]
  {
  }

  /**
   * Inside a section, the lines are numbered on from the current sort order
   * without gaps, a dropped row takes no number, and the lists of the other
   * sections do not move.
   */
  lemma {:induction false} SectionLinesNumbered(st: CsvState, body: seq<seq<string>>)
    requires st.section.Some?
    requires forall k :: 0 <= k < |body| ==> !OpensSection(body[k])
    ensures NumberedOn(st, CsvRun(st, body), st.section.value)
  {
    if |body| == 0 {
      assert SortOrders(st, st.section.value) + [] == SortOrders(st, st.section.value);
    } else {
      var init := body[..|body| - 1];
      SectionLinesNumbered(st, init);
      SectionRowStep(st, CsvRun(st, init), body[|body| - 1]);
    }
  }

  /** The lines a section header and the rows under it add are numbered 0, 1, 2, … */
  lemma SectionBlockNumbered(st: CsvState, header: seq<string>, body: seq<seq<string>>)
    requires OpensSection(header)
    requires forall k :: 0 <= k < |body| ==> !OpensSection(body[k])
    ensures var end, s := CsvRun(st, [header] + body), SectionNamed(Trim(header[0])).value;
      && end.section == Some(s)
      && SortOrders(end, s) == SortOrders(st, s) + Range(0, end.sortOrder)
      && OthersUnchanged(st, end, s)
  {
    CsvRunAppend(st, [header], body);
    assert CsvRun(st, [header]) == CsvStep(st, header) by {
      assert [header][..0] == [];
    }
    SectionLinesNumbered(CsvStep(st, header), body);
  }

  /** A row that section `s` turns into a line: not blank, no section or column header, long enough. */
  predicate Accepted(s: Section, row: seq<string>)
  {
    |row| > 0 && row[0] != "" && !OpensSection(row) && !IsColumnHeader(Trim(row[0])) && LongEnough(s, row)
  }

  /** The rows of `rows` that section `s` turns into lines, in order. */
  function AcceptedRows(s: Section, rows: seq<seq<string>>): (acc: seq<seq<string>>)
    ensures |acc| <= |rows|
    ensures forall k :: 0 <= k < |acc| ==> Accepted(s, acc[k])
    ensures Wide(acc, Width(s))
  {
    if |rows| == 0 then []
    else
      var init := AcceptedRows(s, rows[..|rows| - 1]);
      if Accepted(s, rows[|rows| - 1]) then init + [rows[|rows| - 1]] else init
  }

  /** Each of `rows` appended as a line of the current section, in order. */
  function AppendAll(st: CsvState, rows: seq<seq<string>>): (end: CsvState)
    requires st.section.Some? && Wide(rows, Width(st.section.value))
    ensures end.section == st.section && end.sortOrder == st.sortOrder + |rows|
  {
    if |rows| == 0 then st else Appended(AppendAll(st, rows[..|rows| - 1]), rows[|rows| - 1])
  }

  /** Inside a section, the row loop appends exactly the accepted rows, in order. */
  lemma {:induction false} RowsInSection(st: CsvState, body: seq<seq<string>>)
    requires st.section.Some?
    requires forall k :: 0 <= k < |body| ==> !OpensSection(body[k])
    ensures CsvRun(st, body) == AppendAll(st, AcceptedRows(st.section.value, body))
  {
    if |body| > 0 {
      var s, init, row := st.section.value, body[..|body| - 1], body[|body| - 1];
      RowsInSection(st, init);
      var acc := AcceptedRows(s, init);
      if Accepted(s, row) {
        assert (acc + [row])[..|acc|] == acc;
      }
    }
  }

  /** All rows have at least `w` cells. */
  predicate Wide(rows: seq<seq<string>>, w: nat) { forall k :: 0 <= k < |rows| ==> |rows[k]| >= w }

  /** `after` is `before` followed by one asset line per row, numbered on from `n`. */
  predicate AssetsAppended(before: seq<AssetDetail>, after: seq<AssetDetail>, rows: seq<seq<string>>, n: int)
    requires Wide(rows, 3)
  {
    |after| == |before| + |rows| && after[..|before|] == before
    && forall k :: 0 <= k < |rows| ==> after[|before| + k] == AssetLine(rows[k], n + k)
  }

  predicate LiabilitiesAppended(before: seq<LiabilityDetail>, after: seq<LiabilityDetail>, rows: seq<seq<string>>, n: int)
    requires Wide(rows, 2)
  {
    |after| == |before| + |rows| && after[..|before|] == before
    && forall k :: 0 <= k < |rows| ==> after[|before| + k] == LiabilityLine(rows[k], n + k)
  }

  predicate IncomesAppended(before: seq<IncomeDetail>, after: seq<IncomeDetail>, rows: seq<seq<string>>, n: int)
    requires Wide(rows, 2)
  {
    |after| == |before| + |rows| && after[..|before|] == before
    && forall k :: 0 <= k < |rows| ==> after[|before| + k] == IncomeLine(rows[k], n + k)
  }

  predicate ExpensesAppended(before: seq<ExpenseDetail>, after: seq<ExpenseDetail>, rows: seq<seq<string>>, n: int)
    requires Wide(rows, 2)
  {
    |after| == |before| + |rows| && after[..|before|] == before
    && forall k :: 0 <= k < |rows| ==> after[|before| + k] == ExpenseLine(rows[k], n + k)
  }

  /** The lines `AppendAll` adds to the current section: the k-th is the k-th row's, numbered on from the sort order. */
  predicate LinesAppended(st: CsvState, end: CsvState, rows: seq<seq<string>>)
    requires st.section.Some? && Wide(rows, Width(st.section.value))
  {
    match st.section.value
    case ASSET => AssetsAppended(st.assets, end.assets, rows, st.sortOrder)
    case LIABILITY => LiabilitiesAppended(st.liabilities, end.liabilities, rows, st.sortOrder)
    case INCOME => IncomesAppended(st.incomes, end.incomes, rows, st.sortOrder)
    case EXPENSE => ExpensesAppended(st.expenses, end.expenses, rows, st.sortOrder)
  }

  /** One more row keeps the asset lines appended in order. */
  lemma AssetsAppendedSnoc(before: seq<AssetDetail>, mid: seq<AssetDetail>, rows: seq<seq<string>>, row: seq<string>, n: int)
    requires Wide(rows, 3) && |row| >= 3 && AssetsAppended(before, mid, rows, n)
    ensures Wide(rows + [row], 3) && AssetsAppended(before, mid + [AssetLine(row, n + |rows|)], rows + [row], n)
  {
    var after, rs := mid + [AssetLine(row, n + |rows|)], rows + [row];
    assert after[..|before|] == mid[..|before|];
    assert forall k :: 0 <= k < |rows| ==> rs[k] == rows[k];
  }

  lemma LiabilitiesAppendedSnoc(before: seq<LiabilityDetail>, mid: seq<LiabilityDetail>, rows: seq<seq<string>>, row: seq<string>, n: int)
    requires Wide(rows, 2) && |row| >= 2 && LiabilitiesAppended(before, mid, rows, n)
    ensures Wide(rows + [row], 2) && LiabilitiesAppended(before, mid + [LiabilityLine(row, n + |rows|)], rows + [row], n)
  {
    var after, rs := mid + [LiabilityLine(row, n + |rows|)], rows + [row];
    assert after[..|before|] == mid[..|before|];
    assert forall k :: 0 <= k < |rows| ==> rs[k] == rows[k];
  }

  lemma IncomesAppendedSnoc(before: seq<IncomeDetail>, mid: seq<IncomeDetail>, rows: seq<seq<string>>, row: seq<string>, n: int)
    requires Wide(rows, 2) && |row| >= 2 && IncomesAppended(before, mid, rows, n)
    ensures Wide(rows + [row], 2) && IncomesAppended(before, mid + [IncomeLine(row, n + |rows|)], rows + [row], n)
  {
    var after, rs := mid + [IncomeLine(row, n + |rows|)], rows + [row];
    assert after[..|before|] == mid[..|before|];
    assert forall k :: 0 <= k < |rows| ==> rs[k] == rows[k];
  }

  lemma ExpensesAppendedSnoc(before: seq<ExpenseDetail>, mid: seq<ExpenseDetail>, rows: seq<seq<string>>, row: seq<string>, n: int)
    requires Wide(rows, 2) && |row| >= 2 && ExpensesAppended(before, mid, rows, n)
    ensures Wide(rows + [row], 2) && ExpensesAppended(before, mid + [ExpenseLine(row, n + |rows|)], rows + [row], n)
  {
    var after, rs := mid + [ExpenseLine(row, n + |rows|)], rows + [row];
    assert after[..|before|] == mid[..|before|];
    assert forall k :: 0 <= k < |rows| ==> rs[k] == rows[k];
  }

  /** No rows append no lines. */
  lemma NoLinesAppended(st: CsvState)
    requires st.section.Some?
    ensures LinesAppended(st, st, [])
  {
    match st.section.value
    case ASSET => assert st.assets[..|st.assets|] == st.assets;
    case LIABILITY => assert st.liabilities[..|st.liabilities|] == st.liabilities;
    case INCOME => assert st.incomes[..|st.incomes|] == st.incomes;
    case EXPENSE => assert st.expenses[..|st.expenses|] == st.expenses;
  }

  /** One more row appended as a line of its section, one lemma per section. */
  lemma AppendedAsset(mid: CsvState, row: seq<string>)
    requires mid.section == Some(ASSET) && |row| >= 3
    ensures Appended(mid, row).assets == mid.assets + [AssetLine(row, mid.sortOrder)]
  {
  }

  lemma AssetStep(st: CsvState, mid: CsvState, rows: seq<seq<string>>, row: seq<string>)
    requires st.section == Some(ASSET) && mid.section == st.section && mid.sortOrder == st.sortOrder + |rows|
    requires Wide(rows, 3) && |row| >= 3 && AssetsAppended(st.assets, mid.assets, rows, st.sortOrder)
    ensures Wide(rows + [row], 3) && AssetsAppended(st.assets, Appended(mid, row).assets, rows + [row], st.sortOrder)
  {
    AppendedAsset(mid, row);
    AssetsAppendedSnoc(st.assets, mid.assets, rows, row, st.sortOrder);
  }

  lemma LiabilityStep(st: CsvState, mid: CsvState, rows: seq<seq<string>>, row: seq<string>)
    requires st.section == Some(LIABILITY) && mid.section == st.section && mid.sortOrder == st.sortOrder + |rows|
    requires Wide(rows, 2) && |row| >= 2 && LiabilitiesAppended(st.liabilities, mid.liabilities, rows, st.sortOrder)
    ensures Wide(rows + [row], 2) && LiabilitiesAppended(st.liabilities, Appended(mid, row).liabilities, rows + [row], st.sortOrder)
  {
    var line := LiabilityLine(row, mid.sortOrder);
    assert Appended(mid, row).liabilities == mid.liabilities + [line];
    LiabilitiesAppendedSnoc(st.liabilities, mid.liabilities, rows, row, st.sortOrder);
  }

  lemma IncomeStep(st: CsvState, mid: CsvState, rows: seq<seq<string>>, row: seq<string>)
    requires st.section == Some(INCOME) && mid.section == st.section && mid.sortOrder == st.sortOrder + |rows|
    requires Wide(rows, 2) && |row| >= 2 && IncomesAppended(st.incomes, mid.incomes, rows, st.sortOrder)
    ensures Wide(rows + [row], 2) && IncomesAppended(st.incomes, Appended(mid, row).incomes, rows + [row], st.sortOrder)
  {
    var line := IncomeLine(row, mid.sortOrder);
    assert Appended(mid, row).incomes == mid.incomes + [line];
    IncomesAppendedSnoc(st.incomes, mid.incomes, rows, row, st.sortOrder);
  }

  lemma ExpenseStep(st: CsvState, mid: CsvState, rows: seq<seq<string>>, row: seq<string>)
    requires st.section == Some(EXPENSE) && mid.section == st.section && mid.sortOrder == st.sortOrder + |rows|
    requires Wide(rows, 2) && |row| >= 2 && ExpensesAppended(st.expenses, mid.expenses, rows, st.sortOrder)
    ensures Wide(rows + [row], 2) && ExpensesAppended(st.expenses, Appended(mid, row).expenses, rows + [row], st.sortOrder)
  {
    var line := ExpenseLine(row, mid.sortOrder);
    assert Appended(mid, row).expenses == mid.expenses + [line];
    ExpensesAppendedSnoc(st.expenses, mid.expenses, rows, row, st.sortOrder);
  }

  /** Appending one more row as a line of the section extends the lines appended so far. */
  lemma AppendedLinesStep(st: CsvState, mid: CsvState, rows: seq<seq<string>>, row: seq<string>)
    requires st.section.Some? && Wide(rows, Width(st.section.value)) && |row| >= Width(st.section.value)
    requires mid.section == st.section && mid.sortOrder == st.sortOrder + |rows|
    requires LinesAppended(st, mid, rows)
    ensures Wide(rows + [row], Width(st.section.value)) && LinesAppended(st, Appended(mid, row), rows + [row])
  {
    match st.section.value
    case ASSET => AssetStep(st, mid, rows, row);
    case LIABILITY => LiabilityStep(st, mid, rows, row);
    case INCOME => IncomeStep(st, mid, rows, row);
    case EXPENSE => ExpenseStep(st, mid, rows, row);
  }

  /** Appending rows one by one keeps what was there and adds one line per row, in order. */
  lemma {:induction false} AppendAllLines(st: CsvState, rows: seq<seq<string>>)
    requires st.section.Some? && Wide(rows, Width(st.section.value))
    ensures LinesAppended(st, AppendAll(st, rows), rows)
  {
    if |rows| == 0 {
      NoLinesAppended(st);
    } else {
      var init, row := rows[..|rows| - 1], rows[|rows| - 1];
      assert rows == init + [row];
      AppendAllLines(st, init);
      AppendedLinesStep(st, AppendAll(st, init), init, row);
    }
  }

  /** Appending rows to the current section leaves the other sections' lists alone. */
  lemma {:induction false} AppendAllOthers(st: CsvState, rows: seq<seq<string>>)
    requires st.section.Some? && Wide(rows, Width(st.section.value))
    ensures OthersUnchanged(st, AppendAll(st, rows), st.section.value)
  {
    if |rows| > 0 {
      var init := rows[..|rows| - 1];
      AppendAllOthers(st, init);
      var mid := AppendAll(st, init);
      AppendedOrders(mid, rows[|rows| - 1]);
      OthersUnchangedTransitive(st, mid, AppendAll(st, rows), st.section.value);
    }
  }

  /**
   * The lines a section header and the rows under it add: the k-th is the line
   * of the k-th accepted row, with sort order k, after the lines already there.
   */
  lemma SectionBlockLines(st: CsvState, header: seq<string>, body: seq<seq<string>>)
    requires OpensSection(header)
    requires forall k :: 0 <= k < |body| ==> !OpensSection(body[k])
    ensures var s := SectionNamed(Trim(header[0])).value;
      var start, acc := st.(section := Some(s), sortOrder := 0), AcceptedRows(s, body);
      CsvRun(st, [header] + body) == AppendAll(start, acc)
      && LinesAppended(start, AppendAll(start, acc), acc)
      && OthersUnchanged(st, AppendAll(start, acc), s)
  {
    var s := SectionNamed(Trim(header[0])).value;
    var start := st.(section := Some(s), sortOrder := 0);
    CsvRunAppend(st, [header], body);
    assert CsvRun(st, [header]) == start by {
      assert [header][..0] == [];
    }
    RowsInSection(start, body);
    AppendAllLines(start, AcceptedRows(s, body));
    AppendAllOthers(start, AcceptedRows(s, body));
  }

  function EmptyRecord(year: int, month: int): MonthlyRecordData
  {
    MonthlyRecordData(None, year, month, 0.0, 0.0, 0.0, 0.0, None, [], [], [], [])
  }

  /**
   * The record the CSV import saves: the stored record of the month or a new
   * one, its four lists exactly the lines of the rows, its totals recalculated.
   */
  function CsvImported(records: seq<MonthlyRecordData>, year: int, month: int, rows: seq<seq<string>>): (r: MonthlyRecordData)
    ensures r.TotalsConsistent()
    ensures r.year == year && r.month == month
    ensures r.id == (if ExistsByYearAndMonth(records, year, month) then FindByYearAndMonth(records, year, month).value.id else None)
    ensures var st := CsvRun(CsvStart, rows);
      r.assetDetails == st.assets && r.liabilityDetails == st.liabilities
      && r.incomeDetails == st.incomes && r.expenseDetails == st.expenses
  {
    var base := FindByYearAndMonth(records, year, month).GetOr(EmptyRecord(year, month));
    var st := CsvRun(CsvStart, rows);
    base.(assetDetails := st.assets, liabilityDetails := st.liabilities,
          incomeDetails := st.incomes, expenseDetails := st.expenses).Recalculated()
  }

  /** The record of a month, or a new one for it, may be saved: its id is stored and no other record has its month. */
  lemma MonthRecordSavable(records: seq<MonthlyRecordData>, n: int, year: int, month: int, u: MonthlyRecordData)
    requires RecordsValid(records, n)
    requires u.year == year && u.month == month
    requires u.id == (if ExistsByYearAndMonth(records, year, month) then FindByYearAndMonth(records, year, month).value.id else None)
    ensures u.id.Some? ==> IndexOfRecord(records, u.id.value).Some?
    ensures forall k :: 0 <= k < |records| && records[k].id != u.id ==> records[k].year != u.year || records[k].month != u.month
  {
    var found := FindByYearAndMonth(records, year, month);
    if found.Some? {
      var i :| 0 <= i < |records| && records[i] == found.value;
      assert records[i].id.Some?;
      forall k | 0 <= k < |records| && records[k].id != u.id
        ensures records[k].year != u.year || records[k].month != u.month
      {
        assert k != i;
      }
    }
  }

  /** The loop's variables together with the record's lists. */
  function StateOf(section: Option<Section>, sortOrder: int, r: MonthlyRecordData): CsvState
  {
    CsvState(section, sortOrder, r.assetDetails, r.liabilityDetails, r.incomeDetails, r.expenseDetails)
  }

  /** `r` with the lists of `st`. */
  function WithLines(r: MonthlyRecordData, st: CsvState): MonthlyRecordData
  {
    r.(assetDetails := st.assets, liabilityDetails := st.liabilities, incomeDetails := st.incomes, expenseDetails := st.expenses)
  }

  /** The body of the row loop: one row, read against the current section and sort order. */
  method ReadRow(record: MonthlyRecord, section: Option<Section>, sortOrder: int, row: seq<string>)
    returns (section': Option<Section>, sortOrder': int)
    modifies record
    ensures var next := CsvStep(StateOf(section, sortOrder, old(record.Data())), row);
      && section' == next.section && sortOrder' == next.sortOrder
      && record.Data() == WithLines(old(record.Data()), next)
  {
    section', sortOrder' := section, sortOrder;
    if |row| == 0 || row[0] == "" {
      return;
    }
    var firstCell := Trim(row[0]);
    var header := SectionNamed(firstCell);
    if header.Some? {
      section', sortOrder' := header, 0;
      return;
    }
    if IsColumnHeader(firstCell) || section.None? {
      return;
    }
    match section.value
    case ASSET =>
      if |row| >= 3 {
        record.AddAssetDetail(AssetLine(row, sortOrder));
        sortOrder' := sortOrder + 1;
      }
    case LIABILITY =>
      if |row| >= 2 {
        record.AddLiabilityDetail(LiabilityLine(row, sortOrder));
        sortOrder' := sortOrder + 1;
      }
    case INCOME =>
      if |row| >= 2 {
        record.AddIncomeDetail(IncomeLine(row, sortOrder));
        sortOrder' := sortOrder + 1;
      }
    case EXPENSE =>
      if |row| >= 2 {
        record.AddExpenseDetail(ExpenseLine(row, sortOrder));
        sortOrder' := sortOrder + 1;
      }
  }

  /** The row loop: starting with no section and sort order 0, every row in turn. */
  method ReadRows(record: MonthlyRecord, rows: seq<seq<string>>)
    modifies record
    ensures record.Data() == WithLines(old(record.Data()), CsvRun(StateOf(None, 0, old(record.Data())), rows))
  {
    ghost var start := StateOf(None, 0, record.Data());
    ghost var base := record.Data();
    var section: Option<Section> := None;
    var sortOrder := 0;
    var k := 0;
    while k < |rows|
      invariant 0 <= k <= |rows|
      invariant StateOf(section, sortOrder, record.Data()) == CsvRun(start, rows[..k])
      invariant record.Data() == WithLines(base, CsvRun(start, rows[..k]))
    {
      assert rows[..k + 1][..k] == rows[..k];
      section, sortOrder := ReadRow(record, section, sortOrder, rows[k]);
      k := k + 1;
    }
    assert rows[..k] == rows;
  }

  /**
   * `importMonthlyRecordFromCsv`: the month's record, found or new, loses its
   * lines; each row is then read in turn, and the record is saved with its
   * totals recalculated.
   */
  method ImportMonthlyRecordFromCsv(db: Database, year: int, month: int, rows: seq<seq<string>>) returns (saved: MonthlyRecordData)
    requires db.Valid()
    modifies db
    ensures db.Valid()
    ensures saved == WithIds(CsvImported(old(db.records), year, month, rows), old(db.nextId))
    ensures db.records == UpsertRecord(old(db.records), saved)
    ensures db.plans == old(db.plans)
  {
    var found := FindByYearAndMonth(db.records, year, month);
    var record: MonthlyRecord;
    if found.Some? {
      record := new MonthlyRecord.Load(found.value);
    } else {
      record := new MonthlyRecord(year, month);
    }
    record.ClearDetails();
    assert StateOf(None, 0, record.Data()) == CsvStart;
    ReadRows(record, rows);
    record.RecalculateTotals();
    var unsaved := record.Data();
    assert unsaved == CsvImported(db.records, year, month, rows);
    ImportedExpensesUnlinked(CsvStart, rows);
    MonthRecordSavable(db.records, db.nextId, year, month, unsaved);
    saved := db.SaveRecord(unsaved);
  }

  // ---------------------------------------------------------------------
  // importAnnualPlanFromExcel
  // ---------------------------------------------------------------------

  /** A spreadsheet row: the text of each cell, `None` where the row has no such cell. */
  type Row = seq<Option<string>>

  /** A sheet: its rows by row number, `None` where it has no such row. */
  type Sheet = seq<Option<Row>>

  /** A workbook: its sheets by name. */
  type Workbook = map<string, Sheet>

  const IncomeSheet: string := "年度收入"
  const AssetTargetSheet: string := "资产目标"
  const LiabilityTargetSheet: string := "负债目标"
  const ExpenseSheet: string := "年度预算"

  /** `row.getCell(k)`. */
  function CellAt(row: Row, k: nat): Option<string>
  {
    if k < |row| then row[k] else None
  }

  /** `getCellStringValue`: the cell's text trimmed, null without a cell. */
  function CellString(cell: Option<string>): Option<string>
  {
    match cell
    case None => None
    case Some(t) => Some(Trim(t))
  }

  /** `getCellBigDecimalValue` on a text cell: null without a cell, for blank text and for text that is not a number. */
  function CellDecimal(cell: Option<string>): Option<real>
  {
    match cell
    case None => None
    case Some(t) =>
      var v := Trim(t);
      if |v| == 0 then None else ParseDecimal(RemoveCommas(v))
  }

  /** A null amount becomes ZERO: exactly what `parseBigDecimal` makes of the same text. */
  lemma CellAmountAsParsed(cell: Option<string>)
    ensures CellDecimal(cell).GetOr(0.0) == ParseBigDecimal(cell)
  {
  }

  /** A cell with text left after trimming. */
  predicate HasText(cell: Option<string>)
  {
    CellString(cell).Some? && |CellString(cell).value| > 0
  }

  /** The rows the importers read: row 1 to the last, below the header row. */
  function DataRows(sheet: Sheet): seq<Option<Row>>
  {
    if |sheet| == 0 then [] else sheet[1..]
  }

  predicate IncomeRow(row: Option<Row>) { row.Some? && HasText(CellAt(row.value, 1)) }
  predicate AssetTargetRow(row: Option<Row>) { row.Some? && HasText(CellAt(row.value, 1)) }
  predicate LiabilityTargetRow(row: Option<Row>) { row.Some? && HasText(CellAt(row.value, 0)) }
  predicate ExpenseRow(row: Option<Row>) { row.Some? && HasText(CellAt(row.value, 0)) }

  /** Type (read by `parseIncomeType` as written), name, amount, 是 for monthly, remark. */
  function IncomeFrom(row: Row, sortOrder: int): AnnualIncome
  {
    AnnualIncome(ParseIncomeTypeAsWritten(CellString(CellAt(row, 0))), CellString(CellAt(row, 1)).GetOr(""),
                 CellDecimal(CellAt(row, 2)).GetOr(0.0), CellString(CellAt(row, 3)) == Some("是"),
                 CellString(CellAt(row, 4)), sortOrder)
  }

  /** The importer stores an income whose type cell holds the DIVIDEND label 股权 as OTHER. */
  lemma ImportedDividendLabelIsOther(row: Row, sortOrder: int)
    requires |row| > 0 && row[0] == Some(IncomeType.DIVIDEND.Label())
    ensures IncomeFrom(row, sortOrder).incomeType == IncomeType.OTHER
  {
    TrimUntrimmed(IncomeType.DIVIDEND.Label());
    DividendLabelReadsAsOther();
  }

  /** The income the importer evidently intends: the same row read with the corrected `parseIncomeType`. */
  function IncomeFromIntended(row: Row, sortOrder: int): AnnualIncome
  {
    IncomeFrom(row, sortOrder).(incomeType := ParseIncomeType(CellString(CellAt(row, 0))))
  }

  /** With the corrected parser, a type cell holding an income type's label imports as that type. */
  lemma IntendedIncomeTypeRoundTrip(row: Row, sortOrder: int, t: IncomeType)
    requires |row| > 0 && row[0] == Some(t.Label())
    ensures IncomeFromIntended(row, sortOrder).incomeType == t
    ensures t != IncomeType.DIVIDEND ==> IncomeFrom(row, sortOrder) == IncomeFromIntended(row, sortOrder)
  {
    TrimUntrimmed(t.Label());
    IncomeTypeRoundTrip(t);
    if t != IncomeType.DIVIDEND {
      IncomeTypeCorrectionIsNarrow(Some(t.Label()));
    }
  }

  /** Group, name, amount, expected return rate. */
  function AssetTargetFrom(row: Row, sortOrder: int): AssetTarget
  {
    AssetTarget(ParseAssetGroup(CellString(CellAt(row, 0))), CellString(CellAt(row, 1)).GetOr(""),
                CellDecimal(CellAt(row, 2)).GetOr(0.0), None, CellDecimal(CellAt(row, 3)), sortOrder)
  }

  /** Name, balance, interest rate; the group keeps the entity's LOAN. */
  function LiabilityTargetFrom(row: Row, sortOrder: int): LiabilityTarget
  {
    LiabilityTarget(Some(LiabilityGroup.LOAN), CellString(CellAt(row, 0)).GetOr(""),
                    CellDecimal(CellAt(row, 1)).GetOr(0.0), CellDecimal(CellAt(row, 2)), sortOrder)
  }

  /** Category, budget; always monthly, and parent category and spent amount keep the entity's DAILY and ZERO. */
  function ExpenseFrom(row: Row, sortOrder: int): AnnualExpense
  {
    AnnualExpense(None, Some(ExpenseCategory.DAILY), CellString(CellAt(row, 0)).GetOr(""),
                  CellDecimal(CellAt(row, 1)).GetOr(0.0), true, Some(0.0), sortOrder)
  }

  /** The incomes of the accepted rows, in order, the k-th with sort order k. */
  function ImportedIncomes(rows: seq<Option<Row>>): seq<AnnualIncome>
  {
    if |rows| == 0 then []
    else
      var init := ImportedIncomes(rows[..|rows| - 1]);
      var last := rows[|rows| - 1];
      if IncomeRow(last) then init + [IncomeFrom(last.value, |init|)] else init
  }

  /** One more row: an accepted row adds its line, numbered after the others. */
  lemma ImportedIncomesStep(rows: seq<Option<Row>>, j: nat, before: seq<AnnualIncome>)
    requires j < |rows| && before == ImportedIncomes(rows[..j])
    ensures ImportedIncomes(rows[..j + 1]) == if IncomeRow(rows[j]) then before + [IncomeFrom(rows[j].value, |before|)] else before
  {
    assert rows[..j + 1][..j] == rows[..j];
  }

  lemma {:induction false} ImportedIncomesSpec(rows: seq<Option<Row>>)
    ensures var xs := ImportedIncomes(rows);
      && |xs| == |Filter(IncomeRow, rows)|
      && (forall k :: 0 <= k < |xs| ==> IncomeRow(Filter(IncomeRow, rows)[k]) && xs[k] == IncomeFrom(Filter(IncomeRow, rows)[k].value, k))
      && (forall k :: 0 <= k < |xs| ==> xs[k].sortOrder == k && |xs[k].name| > 0)
  {
    if |rows| > 0 {
      ImportedIncomesSpec(rows[..|rows| - 1]);
    }
  }

  function ImportedAssetTargets(rows: seq<Option<Row>>): seq<AssetTarget>
  {
    if |rows| == 0 then []
    else
      var init := ImportedAssetTargets(rows[..|rows| - 1]);
      var last := rows[|rows| - 1];
      if AssetTargetRow(last) then init + [AssetTargetFrom(last.value, |init|)] else init
  }

  /** One more row: an accepted row adds its line, numbered after the others. */
  lemma ImportedAssetTargetsStep(rows: seq<Option<Row>>, j: nat, before: seq<AssetTarget>)
    requires j < |rows| && before == ImportedAssetTargets(rows[..j])
    ensures ImportedAssetTargets(rows[..j + 1]) == if AssetTargetRow(rows[j]) then before + [AssetTargetFrom(rows[j].value, |before|)] else before
  {
    assert rows[..j + 1][..j] == rows[..j];
  }

  lemma {:induction false} ImportedAssetTargetsSpec(rows: seq<Option<Row>>)
    ensures var xs := ImportedAssetTargets(rows);
      && |xs| == |Filter(AssetTargetRow, rows)|
      && (forall k :: 0 <= k < |xs| ==> AssetTargetRow(Filter(AssetTargetRow, rows)[k]) && xs[k] == AssetTargetFrom(Filter(AssetTargetRow, rows)[k].value, k))
      && (forall k :: 0 <= k < |xs| ==> xs[k].sortOrder == k && |xs[k].name| > 0)
  {
    if |rows| > 0 {
      ImportedAssetTargetsSpec(rows[..|rows| - 1]);
    }
  }

  function ImportedLiabilityTargets(rows: seq<Option<Row>>): seq<LiabilityTarget>
  {
    if |rows| == 0 then []
    else
      var init := ImportedLiabilityTargets(rows[..|rows| - 1]);
      var last := rows[|rows| - 1];
      if LiabilityTargetRow(last) then init + [LiabilityTargetFrom(last.value, |init|)] else init
  }

  /** One more row: an accepted row adds its line, numbered after the others. */
  lemma ImportedLiabilityTargetsStep(rows: seq<Option<Row>>, j: nat, before: seq<LiabilityTarget>)
    requires j < |rows| && before == ImportedLiabilityTargets(rows[..j])
    ensures ImportedLiabilityTargets(rows[..j + 1]) == if LiabilityTargetRow(rows[j]) then before + [LiabilityTargetFrom(rows[j].value, |before|)] else before
  {
    assert rows[..j + 1][..j] == rows[..j];
  }

  lemma {:induction false} ImportedLiabilityTargetsSpec(rows: seq<Option<Row>>)
    ensures var xs := ImportedLiabilityTargets(rows);
      && |xs| == |Filter(LiabilityTargetRow, rows)|
      && (forall k :: 0 <= k < |xs| ==> LiabilityTargetRow(Filter(LiabilityTargetRow, rows)[k]) && xs[k] == LiabilityTargetFrom(Filter(LiabilityTargetRow, rows)[k].value, k))
      && (forall k :: 0 <= k < |xs| ==> xs[k].sortOrder == k && |xs[k].name| > 0)
  {
    if |rows| > 0 {
      ImportedLiabilityTargetsSpec(rows[..|rows| - 1]);
    }
  }

  /** The budget lines of the accepted rows: new, monthly, numbered in order. */
  function ImportedExpenses(rows: seq<Option<Row>>): seq<AnnualExpense>
  {
    if |rows| == 0 then []
    else
      var init := ImportedExpenses(rows[..|rows| - 1]);
      var last := rows[|rows| - 1];
      if ExpenseRow(last) then init + [ExpenseFrom(last.value, |init|)] else init
  }

  /** One more row: an accepted row adds its line, numbered after the others. */
  lemma ImportedExpensesStep(rows: seq<Option<Row>>, j: nat, before: seq<AnnualExpense>)
    requires j < |rows| && before == ImportedExpenses(rows[..j])
    ensures ImportedExpenses(rows[..j + 1]) == if ExpenseRow(rows[j]) then before + [ExpenseFrom(rows[j].value, |before|)] else before
  {
    assert rows[..j + 1][..j] == rows[..j];
  }

  lemma {:induction false} ImportedExpensesSpec(rows: seq<Option<Row>>)
    ensures var xs := ImportedExpenses(rows);
      && |xs| == |Filter(ExpenseRow, rows)|
      && (forall k :: 0 <= k < |xs| ==> ExpenseRow(Filter(ExpenseRow, rows)[k]) && xs[k] == ExpenseFrom(Filter(ExpenseRow, rows)[k].value, k))
      && (forall k :: 0 <= k < |xs| ==> xs[k].sortOrder == k && |xs[k].category| > 0 && xs[k].isMonthly && xs[k].id.None?)
  {
    if |rows| > 0 {
      ImportedExpensesSpec(rows[..|rows| - 1]);
    }
  }

  /**
   * Row `j` of `importIncomes`: a row whose cell 1 has text becomes the next income.
   * `before` is what the earlier rows added after the plan's own `base`.
   */
  method ImportIncomeRow(plan: AnnualBalancePlan, rows: seq<Option<Row>>, j: nat, sortOrder: int,
                      ghost base: seq<AnnualIncome>, ghost before: seq<AnnualIncome>)
    returns (added: bool, ghost after: seq<AnnualIncome>)
    requires j < |rows| && before == ImportedIncomes(rows[..j]) && sortOrder == |before|
    requires plan.annualIncomes == base + before
    modifies plan
    ensures added == IncomeRow(rows[j])
    ensures after == ImportedIncomes(rows[..j + 1])
    ensures |after| == sortOrder + if added then 1 else 0
    ensures plan.Data() == old(plan.Data()).(annualIncomes := base + after)
  {
    ImportedIncomesStep(rows, j, before);
    var row := rows[j];
    if row.None? || CellString(CellAt(row.value, 1)).None? || |CellString(CellAt(row.value, 1)).value| == 0 {
      return false, before;
    }
    var line := IncomeFrom(row.value, sortOrder);
    plan.AddAnnualIncome(line);
    assert base + before + [line] == base + (before + [line]);
    added, after := true, before + [line];
  }

  /** `importIncomes`: appends the incomes of the sheet and returns how many. */
  method ImportIncomes(plan: AnnualBalancePlan, sheet: Sheet) returns (count: int)
    modifies plan
    ensures plan.Data() == old(plan.Data()).(annualIncomes := old(plan.annualIncomes) + ImportedIncomes(DataRows(sheet)))
    ensures count == |ImportedIncomes(DataRows(sheet))|
  {
    var rows := DataRows(sheet);
    count := 0;
    var sortOrder := 0;
    ghost var imported: seq<AnnualIncome> := [];
    var j := 0;
    while j < |rows|
      invariant 0 <= j <= |rows|
      invariant imported == ImportedIncomes(rows[..j])
      invariant count == sortOrder == |imported|
      invariant plan.Data() == old(plan.Data()).(annualIncomes := old(plan.annualIncomes) + imported)
    {
      var added;
      added, imported := ImportIncomeRow(plan, rows, j, sortOrder, old(plan.annualIncomes), imported);
      if added {
        sortOrder := sortOrder + 1;
        count := count + 1;
      }
      j := j + 1;
    }
    assert rows[..j] == rows;
  }

  /**
   * Row `j` of `importAssetTargets`: a row whose cell 1 has text becomes the next asset target.
   * `before` is what the earlier rows added after the plan's own `base`.
   */
  method ImportAssetTargetRow(plan: AnnualBalancePlan, rows: seq<Option<Row>>, j: nat, sortOrder: int,
                      ghost base: seq<AssetTarget>, ghost before: seq<AssetTarget>)
    returns (added: bool, ghost after: seq<AssetTarget>)
    requires j < |rows| && before == ImportedAssetTargets(rows[..j]) && sortOrder == |before|
    requires plan.assetTargets == base + before
    modifies plan
    ensures added == AssetTargetRow(rows[j])
    ensures after == ImportedAssetTargets(rows[..j + 1])
    ensures |after| == sortOrder + if added then 1 else 0
    ensures plan.Data() == old(plan.Data()).(assetTargets := base + after)
  {
    ImportedAssetTargetsStep(rows, j, before);
    var row := rows[j];
    if row.None? || CellString(CellAt(row.value, 1)).None? || |CellString(CellAt(row.value, 1)).value| == 0 {
      return false, before;
    }
    var line := AssetTargetFrom(row.value, sortOrder);
    plan.AddAssetTarget(line);
    assert base + before + [line] == base + (before + [line]);
    added, after := true, before + [line];
  }

  /** `importAssetTargets`: appends the asset targets of the sheet and returns how many. */
  method ImportAssetTargets(plan: AnnualBalancePlan, sheet: Sheet) returns (count: int)
    modifies plan
    ensures plan.Data() == old(plan.Data()).(assetTargets := old(plan.assetTargets) + ImportedAssetTargets(DataRows(sheet)))
    ensures count == |ImportedAssetTargets(DataRows(sheet))|
  {
    var rows := DataRows(sheet);
    count := 0;
    var sortOrder := 0;
    ghost var imported: seq<AssetTarget> := [];
    var j := 0;
    while j < |rows|
      invariant 0 <= j <= |rows|
      invariant imported == ImportedAssetTargets(rows[..j])
      invariant count == sortOrder == |imported|
      invariant plan.Data() == old(plan.Data()).(assetTargets := old(plan.assetTargets) + imported)
    {
      var added;
      added, imported := ImportAssetTargetRow(plan, rows, j, sortOrder, old(plan.assetTargets), imported);
      if added {
        sortOrder := sortOrder + 1;
        count := count + 1;
      }
      j := j + 1;
    }
    assert rows[..j] == rows;
  }

  /**
   * Row `j` of `importLiabilityTargets`: a row whose cell 0 has text becomes the next liability target.
   * `before` is what the earlier rows added after the plan's own `base`.
   */
  method ImportLiabilityTargetRow(plan: AnnualBalancePlan, rows: seq<Option<Row>>, j: nat, sortOrder: int,
                      ghost base: seq<LiabilityTarget>, ghost before: seq<LiabilityTarget>)
    returns (added: bool, ghost after: seq<LiabilityTarget>)
    requires j < |rows| && before == ImportedLiabilityTargets(rows[..j]) && sortOrder == |before|
    requires plan.liabilityTargets == base + before
    modifies plan
    ensures added == LiabilityTargetRow(rows[j])
    ensures after == ImportedLiabilityTargets(rows[..j + 1])
    ensures |after| == sortOrder + if added then 1 else 0
    ensures plan.Data() == old(plan.Data()).(liabilityTargets := base + after)
  {
    ImportedLiabilityTargetsStep(rows, j, before);
    var row := rows[j];
    if row.None? || CellString(CellAt(row.value, 0)).None? || |CellString(CellAt(row.value, 0)).value| == 0 {
      return false, before;
    }
    var line := LiabilityTargetFrom(row.value, sortOrder);
    plan.AddLiabilityTarget(line);
    assert base + before + [line] == base + (before + [line]);
    added, after := true, before + [line];
  }

  /** `importLiabilityTargets`: appends the liability targets of the sheet and returns how many. */
  method ImportLiabilityTargets(plan: AnnualBalancePlan, sheet: Sheet) returns (count: int)
    modifies plan
    ensures plan.Data() == old(plan.Data()).(liabilityTargets := old(plan.liabilityTargets) + ImportedLiabilityTargets(DataRows(sheet)))
    ensures count == |ImportedLiabilityTargets(DataRows(sheet))|
  {
    var rows := DataRows(sheet);
    count := 0;
    var sortOrder := 0;
    ghost var imported: seq<LiabilityTarget> := [];
    var j := 0;
    while j < |rows|
      invariant 0 <= j <= |rows|
      invariant imported == ImportedLiabilityTargets(rows[..j])
      invariant count == sortOrder == |imported|
      invariant plan.Data() == old(plan.Data()).(liabilityTargets := old(plan.liabilityTargets) + imported)
    {
      var added;
      added, imported := ImportLiabilityTargetRow(plan, rows, j, sortOrder, old(plan.liabilityTargets), imported);
      if added {
        sortOrder := sortOrder + 1;
        count := count + 1;
      }
      j := j + 1;
    }
    assert rows[..j] == rows;
  }

  /**
   * Row `j` of `importExpenses`: a row whose cell 0 has text becomes the next budget line.
   * `before` is what the earlier rows added after the plan's own `base`.
   */
  method ImportExpenseRow(plan: AnnualBalancePlan, rows: seq<Option<Row>>, j: nat, sortOrder: int,
                      ghost base: seq<AnnualExpense>, ghost before: seq<AnnualExpense>)
    returns (added: bool, ghost after: seq<AnnualExpense>)
    requires j < |rows| && before == ImportedExpenses(rows[..j]) && sortOrder == |before|
    requires plan.annualExpenses == base + before
    modifies plan
    ensures added == ExpenseRow(rows[j])
    ensures after == ImportedExpenses(rows[..j + 1])
    ensures |after| == sortOrder + if added then 1 else 0
    ensures plan.Data() == old(plan.Data()).(annualExpenses := base + after)
  {
    ImportedExpensesStep(rows, j, before);
    var row := rows[j];
    if row.None? || CellString(CellAt(row.value, 0)).None? || |CellString(CellAt(row.value, 0)).value| == 0 {
      return false, before;
    }
    var line := ExpenseFrom(row.value, sortOrder);
    plan.AddAnnualExpense(line);
    assert base + before + [line] == base + (before + [line]);
    added, after := true, before + [line];
  }

  /** `importExpenses`: appends the budget lines of the sheet and returns how many. */
  method ImportExpenses(plan: AnnualBalancePlan, sheet: Sheet) returns (count: int)
    modifies plan
    ensures plan.Data() == old(plan.Data()).(annualExpenses := old(plan.annualExpenses) + ImportedExpenses(DataRows(sheet)))
    ensures count == |ImportedExpenses(DataRows(sheet))|
  {
    var rows := DataRows(sheet);
    count := 0;
    var sortOrder := 0;
    ghost var imported: seq<AnnualExpense> := [];
    var j := 0;
    while j < |rows|
      invariant 0 <= j <= |rows|
      invariant imported == ImportedExpenses(rows[..j])
      invariant count == sortOrder == |imported|
      invariant plan.Data() == old(plan.Data()).(annualExpenses := old(plan.annualExpenses) + imported)
    {
      var added;
      added, imported := ImportExpenseRow(plan, rows, j, sortOrder, old(plan.annualExpenses), imported);
      if added {
        sortOrder := sortOrder + 1;
        count := count + 1;
      }
      j := j + 1;
    }
    assert rows[..j] == rows;
  }

  /** The data rows of the named sheet; none when the workbook has no such sheet. */
  function SheetRows(wb: Workbook, name: string): seq<Option<Row>>
  {
    if name in wb then DataRows(wb[name]) else []
  }

  /** `base` with its four lists replaced by what the four sheets hold; a missing sheet leaves its list empty. */
  function ImportedPlan(base: PlanData, wb: Workbook): PlanData
  {
    base.(annualIncomes := ImportedIncomes(SheetRows(wb, IncomeSheet)),
          assetTargets := ImportedAssetTargets(SheetRows(wb, AssetTargetSheet)),
          liabilityTargets := ImportedLiabilityTargets(SheetRows(wb, LiabilityTargetSheet)),
          annualExpenses := ImportedExpenses(SheetRows(wb, ExpenseSheet)))
  }

  /** The plan entity the workbook import builds from `base`, before it is saved. */
  method LoadImportedPlan(base: PlanData, wb: Workbook) returns (plan: AnnualBalancePlan)
    ensures fresh(plan)
    ensures plan.Data() == WithSurplus(ImportedPlan(base, wb))
  {
    plan := new AnnualBalancePlan.Load(base);
    plan.annualIncomes := [];
    plan.assetTargets := [];
    plan.liabilityTargets := [];
    plan.annualExpenses := [];
    ghost var incomes := ImportedIncomes(SheetRows(wb, IncomeSheet));
    ghost var assets := ImportedAssetTargets(SheetRows(wb, AssetTargetSheet));
    ghost var liabilities := ImportedLiabilityTargets(SheetRows(wb, LiabilityTargetSheet));
    ghost var expenses := ImportedExpenses(SheetRows(wb, ExpenseSheet));
    ghost var cleared := base.(annualIncomes := [], assetTargets := [], liabilityTargets := [], annualExpenses := []);
    assert plan.Data() == cleared;
    if IncomeSheet in wb {
      var count := ImportIncomes(plan, wb[IncomeSheet]);
      assert [] + incomes == incomes;
    }
    assert plan.Data() == cleared.(annualIncomes := incomes);
    if AssetTargetSheet in wb {
      var count := ImportAssetTargets(plan, wb[AssetTargetSheet]);
      assert [] + assets == assets;
    }
    assert plan.Data() == cleared.(annualIncomes := incomes, assetTargets := assets);
    if LiabilityTargetSheet in wb {
      var count := ImportLiabilityTargets(plan, wb[LiabilityTargetSheet]);
      assert [] + liabilities == liabilities;
    }
    assert plan.Data() == cleared.(annualIncomes := incomes, assetTargets := assets, liabilityTargets := liabilities);
    if ExpenseSheet in wb {
      var count := ImportExpenses(plan, wb[ExpenseSheet]);
      assert [] + expenses == expenses;
    }
    assert plan.Data() == ImportedPlan(base, wb);
    CalculateSurplus(plan);
  }

  /**
   * `importAnnualPlanFromExcel`: the plan of the year, found or new, loses
   * its four lists, takes the rows of whichever sheets the workbook has, gets
   * its surpluses recomputed and is saved. The monthly records are not
   * touched, so lines charged to the removed budget lines keep their
   * references, and nothing is charged to the new ones.
   */
  method ImportAnnualPlanFromExcel(db: Database, year: int, wb: Workbook) returns (saved: PlanData)
    requires db.Valid()
    modifies db
    ensures db.Valid()
    ensures saved == PlanWithIds(WithSurplus(ImportedPlan(PlanToUpdate(old(db.plans), year), wb)), old(db.nextId))
    ensures SurplusCurrent(saved)
    ensures db.plans == UpsertPlan(old(db.plans), saved)
    ensures db.records == old(db.records)
    ensures forall k, y :: 0 <= k < |saved.annualExpenses| ==> SpentInYear(db.records, saved.annualExpenses[k].id, y) == 0.0
  {
    var plan := LoadImportedPlan(PlanToUpdate(db.plans, year), wb);
    var unsaved := plan.Data();
    ImportedExpensesSpec(SheetRows(wb, ExpenseSheet));
    saved := db.SavePlan(unsaved);
    SavedPlanSurplusCurrent(unsaved, old(db.nextId));
    FreshBudgetLinesUncharged(db.records, unsaved.annualExpenses, old(db.nextId));
  }

  /** Budget lines from a workbook keep the entity's DAILY parent category. */
  lemma ImportedBudgetsAreDaily(rows: seq<Option<Row>>)
    ensures forall k :: 0 <= k < |ImportedExpenses(rows)| ==>
      ImportedExpenses(rows)[k].parentCategory == Some(ExpenseCategory.DAILY)
  {
  }
}
