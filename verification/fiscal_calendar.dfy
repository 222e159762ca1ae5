/** Indian fiscal quarters. A fiscal year runs from April to March and is named
    after the calendar year in which it ends (FY2026 = April 2025 .. March 2026);
    Q1 = Apr-Jun, Q2 = Jul-Sep, Q3 = Oct-Dec, Q4 = Jan-Mar.

    stock_backend.py derives a quarter label from a filing date in four places,
    each with its own output format. Each copy is modelled as written, next to
    an arithmetic reference definition and a reader for each format, so that
    the lemmas below can show that all four copies name the same quarter. */
module FiscalCalendar {
  import opened Wrappers
  import opened Text

  type Month = m: int | 1 <= m <= 12 witness 1

  datatype Quarter = Q1 | Q2 | Q3 | Q4 {
    function Number(): (n: nat)
      ensures 1 <= n <= 4
    {
      match this
      case Q1 => 1
      case Q2 => 2
      case Q3 => 3
      case Q4 => 4
    }
  }

  function QuarterFromNumber(n: int): (q: Quarter)
    requires 1 <= n <= 4
    ensures q.Number() == n
  {
    if n == 1 then Q1 else if n == 2 then Q2 else if n == 3 then Q3 else Q4
  }

  /** A fiscal quarter: which quarter, and the year its fiscal year ends in. */
  datatype FiscalQuarter = FiscalQuarter(quarter: Quarter, fiscalYear: int)

  // ---------------------------------------------------------------------------
  // Reference definition

  /** Months elapsed since April of year 0. */
  function FiscalMonthIndex(month: Month, year: nat): int {
    year * 12 + month - 4
  }

  /** The fiscal quarter containing the given calendar month, by counting
      months from the start of a fiscal year. */
  function FiscalQuarterOf(month: Month, year: nat): (f: FiscalQuarter)
    ensures f.fiscalYear >= 0
  {
    var idx := FiscalMonthIndex(month, year);
    FiscalQuarter(QuarterFromNumber(idx % 12 / 3 + 1), idx / 12 + 1)
  }

  /** The calendar months that make up a quarter: the months listed for each
      quarter in `q_cal_months` (stock_backend.py:1553-1558). */
  function QuarterMonths(q: Quarter): (ms: set<Month>)
    ensures |ms| == 3
    ensures forall m: Month :: m in ms <==> (m - 1) / 3 == q.Number() % 4
  {
    match q
    case Q1 => {4, 5, 6}
    case Q2 => {7, 8, 9}
    case Q3 => {10, 11, 12}
    case Q4 => {1, 2, 3}
  }

  /** The reference agrees with the calendar: a month belongs to the quarter
      whose month list contains it, and to the fiscal year that ends in the
      same calendar year for January-March and in the next one otherwise. */
  lemma FiscalQuarterOfCalendar(month: Month, year: nat)
    ensures month in QuarterMonths(FiscalQuarterOf(month, year).quarter)
    ensures FiscalQuarterOf(month, year).fiscalYear == if month >= 4 then year + 1 else year
  {
    var idx := FiscalMonthIndex(month, year);
    if month >= 4 {
      assert idx == year * 12 + (month - 4);
      assert idx / 12 == year && idx % 12 == month - 4;
    } else {
      assert idx == (year - 1) * 12 + (month + 8);
      assert idx / 12 == year - 1 && idx % 12 == month + 8;
    }
  }

  // ---------------------------------------------------------------------------
  // The four copies, as written

  /** The quarter branch shared by all copies:
      `'Q1' if month in [4,5,6] else 'Q2' if month in [7,8,9] else 'Q3' if month in [10,11,12] else 'Q4'`. */
  function QuarterName(month: Month): (r: string)
    ensures |r| == 2 && r[0] == 'Q' && '1' <= r[1] <= '4'
  {
    if month in {4, 5, 6} then "Q1"
    else if month in {7, 8, 9} then "Q2"
    else if month in {10, 11, 12} then "Q3"
    else "Q4"
  }

  /** The fiscal-year branch shared by all copies:
      `year + 1 if month >= 4 else year`. */
  function FiscalYearEnding(month: Month, year: nat): nat {
    if month >= 4 then year + 1 else year
  }

  /** NSE transcript labels, `f"{quarter}FY{str(fy_year)[-2:]}"`, e.g. "Q3FY26"
      (stock_backend.py:1955-1969). */
  function TranscriptLabel(month: Month, year: nat): string {
    QuarterName(month) + "FY" + LastTwo(NatToString(FiscalYearEnding(month, year)))
  }

  /** BSE concall fallback labels, `f"{q} {fy}"`, e.g. "Q3 2026"
      (stock_backend.py:2733-2741). */
  function BseConcallLabel(month: Month, year: nat): string {
    QuarterName(month) + " " + NatToString(FiscalYearEnding(month, year))
  }

  /** NSE concall fallback labels, `f"{q}FY{str(fy)[-2:]}"`, e.g. "Q3FY26"
      (stock_backend.py:2789-2793). */
  function NseConcallLabel(month: Month, year: nat): string {
    QuarterName(month) + "FY" + LastTwo(NatToString(FiscalYearEnding(month, year)))
  }

  /** Concall list labels, `f"{quarter} FY{str(fy_year)[-2:]}"`, e.g. "Q3 FY26"
      (stock_backend.py:3420-3436). */
  function ConcallListLabel(month: Month, year: nat): string {
    QuarterName(month) + " FY" + LastTwo(NatToString(FiscalYearEnding(month, year)))
  }

  // ---------------------------------------------------------------------------
  // Reading the labels back

  function QuarterOfName(s: string): (r: Option<Quarter>)
    ensures r.Some? ==> |s| == 2
  {
    if |s| == 2 && s[0] == 'Q' && '1' <= s[1] <= '4'
    then Some(QuarterFromNumber(s[1] as int - '0' as int))
    else None
  }

  /** Reads a label made of a quarter name, a separator and a number. */
  function ReadLabel(s: string, separator: string): Option<FiscalQuarter> {
    if |s| > 2 + |separator| && StartsWith(s[2..], separator) && AllDigits(s[2 + |separator|..]) then
      match QuarterOfName(s[..2])
      case Some(q) => Some(FiscalQuarter(q, DigitsValue(s[2 + |separator|..])))
      case None => None
    else None
  }

  lemma QuarterNameAgrees(month: Month, year: nat)
    ensures QuarterOfName(QuarterName(month)) == Some(FiscalQuarterOf(month, year).quarter)
  {
    FiscalQuarterOfCalendar(month, year);
  }

  lemma ReadLabelOf(month: Month, separator: string, number: string)
    requires number != [] && AllDigits(number)
    ensures ReadLabel(QuarterName(month) + separator + number, separator)
         == Some(FiscalQuarter(QuarterOfName(QuarterName(month)).value, DigitsValue(number)))
  {
    var s := QuarterName(month) + separator + number;
    assert s[..2] == QuarterName(month);
    assert s[2..] == separator + number;
    assert s[2 + |separator|..] == number;
  }

  /** Each copy's label reads back as the reference quarter; the two-digit
      formats keep the fiscal year modulo 100, the "Q3 2026" format keeps it
      whole. */
  lemma {:induction false} LabelsReadBack(month: Month, year: nat)
    ensures var f := FiscalQuarterOf(month, year);
      && ReadLabel(TranscriptLabel(month, year), "FY") == Some(FiscalQuarter(f.quarter, f.fiscalYear % 100))
      && ReadLabel(NseConcallLabel(month, year), "FY") == Some(FiscalQuarter(f.quarter, f.fiscalYear % 100))
      && ReadLabel(ConcallListLabel(month, year), " FY") == Some(FiscalQuarter(f.quarter, f.fiscalYear % 100))
      && ReadLabel(BseConcallLabel(month, year), " ") == Some(FiscalQuarter(f.quarter, f.fiscalYear))
  {
    var fy := FiscalYearEnding(month, year);
    FiscalQuarterOfCalendar(month, year);
    QuarterNameAgrees(month, year);
    LastTwoOfNatToString(fy);
    DigitsValueOfNatToString(fy);
    ReadLabelOf(month, "FY", LastTwo(NatToString(fy)));
    ReadLabelOf(month, " FY", LastTwo(NatToString(fy)));
    ReadLabelOf(month, " ", NatToString(fy));
  }

  /** The four copies agree on the (quarter, fiscal year) pair: for every
      filing date they name the same quarter and the same fiscal year, up to
      the two-digit abbreviation of the year. */
  lemma CopiesAgree(month: Month, year: nat)
    ensures var a := ReadLabel(TranscriptLabel(month, year), "FY");
      var b := ReadLabel(BseConcallLabel(month, year), " ");
      var c := ReadLabel(NseConcallLabel(month, year), "FY");
      var d := ReadLabel(ConcallListLabel(month, year), " FY");
      && a.Some? && b.Some?
      && a == c == d
      && a.value.quarter == b.value.quarter
      && a.value.fiscalYear == b.value.fiscalYear % 100
      && b.value.fiscalYear == (if month >= 4 then year + 1 else year)
  {
    LabelsReadBack(month, year);
    FiscalQuarterOfCalendar(month, year);
  }
}
