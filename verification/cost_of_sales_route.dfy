/**
 * The cost-of-sales route: the month and date windows of the season, the MLB exclusion clause,
 * and the composition of the cost of goods sold from the two query results.
 */
module CostOfSalesRoute {
  import opened Wrappers
  import opened JsNumber
  import opened SeasonPeriods

  // ---------------------------------------------------------------- date windows

  /** The first and last posting dates the inventory query reads, as YYYY-MM-DD texts. */
  datatype DateWindow = DateWindow(startDate: string, endDate: string)

  /** `20${year + shift}-MM-DD` */
  function Day(year: Option<int>, shift: int, m: nat, d: nat): string
    requires m < 100 && d < 100
  {
    "20" + NumStr(Plus(year, shift)) + "-" + Pad2(m) + "-" + Pad2(d)
  }

  /** The YYYY-MM-DD text of a date. */
  function DateText(y: nat, m: nat, d: nat): string
    requires m < 100 && d < 100
  {
    Dec(y) + "-" + Pad2(m) + "-" + Pad2(d)
  }

  /** Day `d` of the month `k` months after month `m` of the season year, as a `20${year + shift}-MM-DD` text. */
  function DayAt(year: Option<int>, m: nat, k: int, d: nat): string
    requires 1 <= m <= 12 && -24 <= m - 1 + k < 24 && d < 100
  {
    Day(year, YearsLater(m, k), MonthLater(m, k), d)
  }

  /**
   * The date window as the route writes it: from the first day of the first month of the sales
   * window to day 31 of its last month, except that the F window always ends on February 28.
   */
  function DateWindowOf(year: Option<int>, seasonType: string): (w: DateWindow)
    ensures var m := StartMonth(seasonType);
      w == DateWindow(DayAt(year, m, 0, 1), DayAt(year, m, WindowLength(seasonType) - 1, if seasonType == "F" then 28 else 31))
  {
    if seasonType == "S" then
      assert DayAt(year, 3, 5, 31) == Day(year, 0, 8, 31);
      DateWindow(Day(year, 0, 3, 1), Day(year, 0, 8, 31))
    else if seasonType == "F" then
      assert DayAt(year, 9, 5, 28) == Day(year, 1, 2, 28);
      DateWindow(Day(year, 0, 9, 1), Day(year, 1, 2, 28))
    else
      assert DayAt(year, 1, 11, 31) == Day(year, 0, 12, 31);
      DateWindow(Day(year, 0, 1, 1), Day(year, 0, 12, 31))
  }

  predicate IsLeapYear(y: int) {
    y % 4 == 0 && (y % 100 != 0 || y % 400 == 0)
  }

  /** The number of days of month `m` of year `y` in the Gregorian calendar. */
  function DaysInMonth(y: int, m: nat): (d: nat)
    ensures 28 <= d <= 31
  {
    if m == 2 then (if IsLeapYear(y) then 29 else 28)
    else if m == 4 || m == 6 || m == 9 || m == 11 then 30
    else 31
  }

  /** The date window with the F window ending on the last day of February, 29 in a leap year. */
  function IntendedDateWindow(year: Option<int>, seasonType: string): (w: DateWindow)
    ensures w.startDate == DateWindowOf(year, seasonType).startDate
    ensures seasonType != "F" ==> w == DateWindowOf(year, seasonType)
  {
    var w := DateWindowOf(year, seasonType);
    if seasonType == "F" && year.Some? then w.(endDate := Day(year, 1, 2, DaysInMonth(2000 + year.value + 1, 2)))
    else w
  }

  /** With a year that stays two-digit, `20${year + shift}-MM-DD` is the date text of that year. */
  lemma DayOfYear(y: int, shift: int, m: nat, d: nat)
    requires 10 <= y + shift <= 99 && m < 100 && d < 100
    ensures Day(Some(y), shift, m, d) == DateText(2000 + y + shift, m, d)
  {
    CenturyPrefix(y + shift);
  }

  /** A YYYYMM text names one year and one month. */
  lemma YearMonthInjective(y1: nat, m1: nat, y2: nat, m2: nat)
    requires m1 < 100 && m2 < 100 && Dec(y1) + Pad2(m1) == Dec(y2) + Pad2(m2)
    ensures y1 == y2 && m1 == m2
  {
    YearMonthValue(y1, m1);
    YearMonthValue(y2, m2);
    DivHundred(y1, m1);
    DivHundred(y2, m2);
  }

  /** The windows of `YYt` written with the years they name. */
  lemma WindowsOfYear(yy: nat, t: string)
    requires 11 <= yy <= 98
    ensures var p := CurrentPeriods(Some(yy), t);
      var w := DateWindowOf(Some(yy), t);
      (t == "S" ==> p.periodStart == Dec(2000 + yy) + Pad2(3) && p.periodEnd == Dec(2000 + yy) + Pad2(8) &&
                    w == DateWindow(DateText(2000 + yy, 3, 1), DateText(2000 + yy, 8, 31))) &&
      (t == "F" ==> p.periodStart == Dec(2000 + yy) + Pad2(9) && p.periodEnd == Dec(2001 + yy) + Pad2(2) &&
                    w == DateWindow(DateText(2000 + yy, 9, 1), DateText(2001 + yy, 2, 28))) &&
      (t != "S" && t != "F" ==>
         p.periodStart == Dec(2000 + yy) + Pad2(1) && p.periodEnd == Dec(2000 + yy) + Pad2(12) &&
         w == DateWindow(DateText(2000 + yy, 1, 1), DateText(2000 + yy, 12, 31)))
  {
    MonthOfYear(yy, 0, 3);
    MonthOfYear(yy, 0, 8);
    MonthOfYear(yy, 0, 9);
    MonthOfYear(yy, 1, 2);
    MonthOfYear(yy, 0, 1);
    MonthOfYear(yy, 0, 12);
    DayOfYear(yy, 0, 3, 1);
    DayOfYear(yy, 0, 8, 31);
    DayOfYear(yy, 0, 9, 1);
    DayOfYear(yy, 1, 2, 28);
    DayOfYear(yy, 0, 1, 1);
    DayOfYear(yy, 0, 12, 31);
  }

  /** The date `d` of the month named by a YYYYMM text is the date text of that year and month. */
  lemma SameMonth(text: string, y1: nat, m1: nat, y2: nat, m2: nat, d: nat)
    requires m1 < 100 && m2 < 100 && d < 100
    requires text == Dec(y1) + Pad2(m1) && text == Dec(y2) + Pad2(m2)
    ensures DateText(y1, m1, d) == DateText(y2, m2, d) && DaysInMonth(y1, m1) == DaysInMonth(y2, m2)
  {
    YearMonthInjective(y1, m1, y2, m2);
  }

  /** The day `d` of a YYYYMM month written by `Month` is the date text of the month it names. */
  lemma DayOfMonth(yy: nat, shift: int, mm: nat, d: nat, y: nat, m: nat)
    requires 10 <= yy + shift <= 99 && mm < 100 && d < 100 && m < 100
    requires Month(Some(yy), shift, mm) == Dec(y) + Pad2(m)
    ensures Day(Some(yy), shift, mm, d) == DateText(y, m, d)
    ensures DaysInMonth(2000 + yy + shift, mm) == DaysInMonth(y, m)
  {
    MonthOfYear(yy, shift, mm);
    DayOfYear(yy, shift, mm, d);
    SameMonth(Dec(y) + Pad2(m), y, m, 2000 + yy + shift, mm, d);
  }

  /** The date window starts on the first day of the first month of the YYYYMM window. */
  lemma DateWindowStartsOnFirstDay(yy: nat, t: string, y: nat, m: nat)
    requires 11 <= yy <= 98 && m < 100
    requires CurrentPeriods(Some(yy), t).periodStart == Dec(y) + Pad2(m)
    ensures DateWindowOf(Some(yy), t).startDate == DateText(y, m, 1)
  {
    if t == "S" {
      DayOfMonth(yy, 0, 3, 1, y, m);
    } else if t == "F" {
      DayOfMonth(yy, 0, 9, 1, y, m);
    } else {
      DayOfMonth(yy, 0, 1, 1, y, m);
    }
  }

  /** The intended date window ends on the last day of the last month of the YYYYMM window. */
  lemma IntendedDateWindowEndsOnLastDay(yy: nat, t: string, y: nat, m: nat)
    requires 11 <= yy <= 98 && m < 100
    requires CurrentPeriods(Some(yy), t).periodEnd == Dec(y) + Pad2(m)
    ensures IntendedDateWindow(Some(yy), t).endDate == DateText(y, m, DaysInMonth(y, m))
  {
    if t == "S" {
      SummerEndsOnLastDay(yy, y, m);
    } else if t == "F" {
      FallEndsOnLastDay(yy, y, m);
    } else {
      YearEndsOnLastDay(yy, t, y, m);
    }
  }

  /** The S window ends on August 31. */
  lemma SummerEndsOnLastDay(yy: nat, y: nat, m: nat)
    requires 11 <= yy <= 98 && m < 100
    requires CurrentPeriods(Some(yy), "S").periodEnd == Dec(y) + Pad2(m)
    ensures IntendedDateWindow(Some(yy), "S").endDate == DateText(y, m, DaysInMonth(y, m))
  {
    assert CurrentPeriods(Some(yy), "S").periodEnd == Month(Some(yy), 0, 8);
    assert IntendedDateWindow(Some(yy), "S").endDate == Day(Some(yy), 0, 8, 31);
    DayOfMonth(yy, 0, 8, 31, y, m);
    assert DaysInMonth(2000 + yy, 8) == 31;
  }

  /** The intended F window ends on the last day of February of the next year. */
  lemma FallEndsOnLastDay(yy: nat, y: nat, m: nat)
    requires 11 <= yy <= 98 && m < 100
    requires CurrentPeriods(Some(yy), "F").periodEnd == Dec(y) + Pad2(m)
    ensures IntendedDateWindow(Some(yy), "F").endDate == DateText(y, m, DaysInMonth(y, m))
  {
    assert CurrentPeriods(Some(yy), "F").periodEnd == Month(Some(yy), 1, 2);
    IntendedFallEnd(yy);
    DayOfMonth(yy, 1, 2, DaysInMonth(y, m), y, m);
    assert DaysInMonth(2000 + yy + 1, 2) == DaysInMonth(y, m);
  }

  /** The corrected F window ends on the last day of February of the following year. */
  lemma IntendedFallEnd(yy: nat)
    ensures IntendedDateWindow(Some(yy), "F").endDate == Day(Some(yy), 1, 2, DaysInMonth(2000 + yy + 1, 2))
  {
  }

  /** The calendar-year window ends on December 31. */
  lemma YearEndsOnLastDay(yy: nat, t: string, y: nat, m: nat)
    requires 11 <= yy <= 98 && m < 100 && t != "S" && t != "F"
    requires CurrentPeriods(Some(yy), t).periodEnd == Dec(y) + Pad2(m)
    ensures IntendedDateWindow(Some(yy), t).endDate == DateText(y, m, DaysInMonth(y, m))
  {
    assert CurrentPeriods(Some(yy), t).periodEnd == Month(Some(yy), 0, 12);
    assert IntendedDateWindow(Some(yy), t).endDate == Day(Some(yy), 0, 12, 31);
    DayOfMonth(yy, 0, 12, 31, y, m);
    assert DaysInMonth(2000 + yy, 12) == 31;
  }

  /** Season 23F: the YYYYMM window ends in February 2024, which has 29 days, but the date window ends on the 28th. */
  lemma LeapDayLeftOut()
    ensures CurrentPeriods(Some(23), "F").periodEnd == Dec(2024) + Pad2(2)
    ensures DateWindowOf(Some(23), "F").endDate == DateText(2024, 2, 28)
    ensures DaysInMonth(2024, 2) == 29
  {
    WindowsOfYear(23, "F");
  }

  // ---------------------------------------------------------------- the MLB clause

  const MLB_EXCLUDE_CONDITION := "and not (p.sesn = '21S' and p.middle_class_cd in ('A0100A0140'))"

  /** The extra SQL condition that leaves out one MLB season and class. */
  function MlbExcludeCondition(brandCode: string): (r: string)
    ensures r != "" <==> brandCode == "M"
    ensures r != "" ==> r == MLB_EXCLUDE_CONDITION
  {
    if brandCode == "M" then MLB_EXCLUDE_CONDITION else ""
  }

  // ---------------------------------------------------------------- the cost of goods sold

  /** The first row of the inventory-valuation query. */
  datatype InventoryRow = InventoryRow(stkAsstAprctAmt: Option<real>, vltnAmt: Option<real>)

  /** The first row of the COGS query. */
  datatype CogsRow = CogsRow(totalCogs: Option<real>)

  datatype CostOfSalesData = CostOfSalesData(cogsBase: real, stkAsstAprctAmt: real, vltnAmt: real,
                                             cogsActual: real, cogsTotal: real)

  /** The response body of a successful pair of queries. */
  datatype CostOfSalesResponse = CostOfSalesResponse(data: CostOfSalesData, params: Params)

  /** The route's answer to the parameters and the rows of its two queries. */
  function CostOfSales(brandParam: Option<string>, seasonParam: Option<string>,
                       inventoryResult: seq<InventoryRow>, cogsResult: seq<CogsRow>): (r: CostOfSalesResponse)
    ensures r.data.cogsTotal == r.data.cogsActual + r.data.stkAsstAprctAmt + r.data.vltnAmt
    ensures r.data.cogsBase == r.data.cogsActual
    ensures cogsResult == [] ==> r.data.cogsActual == 0.0
    ensures inventoryResult == [] ==> r.data.stkAsstAprctAmt == 0.0 && r.data.vltnAmt == 0.0
    ensures r.params == RequestParams(brandParam, seasonParam)
  {
    var stkAsstAprctAmt := if |inventoryResult| > 0 then OrZero(inventoryResult[0].stkAsstAprctAmt) else 0.0;
    var vltnAmt := if |inventoryResult| > 0 then OrZero(inventoryResult[0].vltnAmt) else 0.0;
    var baseCogs := if |cogsResult| > 0 then OrZero(cogsResult[0].totalCogs) else 0.0;
    var cogsActual := baseCogs;
    var cogsTotal := cogsActual + stkAsstAprctAmt + vltnAmt;
    CostOfSalesResponse(CostOfSalesData(baseCogs, stkAsstAprctAmt, vltnAmt, cogsActual, cogsTotal),
                        RequestParams(brandParam, seasonParam))
  }

  /**
   * The subtotal is the actual cost plus the two valuation amounts, the actual cost is the base
   * cost, and a missing result or value counts as 0.
   */
  lemma CogsComposition(brandParam: Option<string>, seasonParam: Option<string>,
                        inventoryResult: seq<InventoryRow>, cogsResult: seq<CogsRow>)
    ensures var d := CostOfSales(brandParam, seasonParam, inventoryResult, cogsResult).data;
      d.cogsBase == d.cogsActual && d.cogsTotal == d.cogsActual + d.stkAsstAprctAmt + d.vltnAmt &&
      (cogsResult == [] ==> d.cogsActual == 0.0 && d.cogsTotal == d.stkAsstAprctAmt + d.vltnAmt) &&
      (inventoryResult == [] ==> d.stkAsstAprctAmt == 0.0 && d.vltnAmt == 0.0 && d.cogsTotal == d.cogsActual) &&
      (cogsResult != [] ==> d.cogsActual == OrZero(cogsResult[0].totalCogs)) &&
      (inventoryResult != [] ==> d.stkAsstAprctAmt == OrZero(inventoryResult[0].stkAsstAprctAmt) &&
                                 d.vltnAmt == OrZero(inventoryResult[0].vltnAmt))
  {
  }
}
