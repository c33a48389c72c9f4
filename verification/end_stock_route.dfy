/**
 * The end-stock route: the month of the ending stock of a season and the same month one year
 * earlier, read from a season code such as `25S`.
 */
module EndStockRoute {
  import opened Wrappers
  import opened JsText
  import opened JsNumber
  import opened SeasonPeriods

  const END_STOCK_DEFAULT_SEASON := "25S"

  /** `parseInt('20' + season.substring(0, 2))` */
  function EndStockYear(season: string): Option<int> {
    ParseInt("20" + season[..if |season| < 2 then |season| else 2])
  }

  /** `season.substring(2, 3)`: one character, or none for a short code. */
  function EndStockType(season: string): string {
    season[if |season| < 2 then |season| else 2..if |season| < 3 then |season| else 3]
  }

  /** `${year}08` for an S season, `${year}02` for any other. */
  function EndMonth(year: Option<int>, summer: bool): string {
    NumStr(year) + Pad2(if summer then 8 else 2)
  }

  /** The end month of a known year is its YYYYMM text, counted from month 0 of year 0. */
  lemma EndMonthOf(y: nat, summer: bool)
    ensures IsDigits(EndMonth(Some(y), summer))
    ensures MonthIndex(EndMonth(Some(y), summer)) == y * 12 + (if summer then 8 else 2)
  {
    var m := if summer then 8 else 2;
    assert EndMonth(Some(y), summer) == Dec(y) + Pad2(m);
    YearMonthValue(y, m);
  }

  /** `targetYYYYMM`: `${seasonYear}08` for S, `${seasonYear}02` otherwise. */
  function TargetMonth(season: string): string {
    EndMonth(EndStockYear(season), EndStockType(season) == "S")
  }

  /** `pyYYYYMM`: the same month written with `seasonYear - 1`. */
  function PriorYearMonth(season: string): string {
    EndMonth(Plus(EndStockYear(season), -1), EndStockType(season) == "S")
  }

  /**
   * The target month is a YYYYMM text in August of the season's year for S and in February of
   * that same year otherwise, and the prior month is a YYYYMM text twelve months earlier.
   */
  lemma TargetAndPriorMonths(season: string)
    ensures IsDigits(TargetMonth(season)) && IsDigits(PriorYearMonth(season))
    ensures EndStockYear(season).Some? &&
      MonthIndex(TargetMonth(season)) == EndStockYear(season).value * 12 + (if EndStockType(season) == "S" then 8 else 2)
    ensures MonthIndex(TargetMonth(season)) - MonthIndex(PriorYearMonth(season)) == 12
  {
    EndStockYearIsNumber(season);
    var y := EndStockYear(season).value;
    var summer := EndStockType(season) == "S";
    MonthsOfYear(season, y, summer);
    YearApart(TargetMonth(season), PriorYearMonth(season), y, summer);
  }

  /** The end months of year `y` and of the year before are YYYYMM texts twelve months apart. */
  lemma YearApart(target: string, prior: string, y: nat, summer: bool)
    requires y >= 1 && target == EndMonth(Some(y), summer) && prior == EndMonth(Some(y - 1), summer)
    ensures IsDigits(target) && IsDigits(prior)
    ensures MonthIndex(target) == y * 12 + (if summer then 8 else 2)
    ensures MonthIndex(target) - MonthIndex(prior) == 12
  {
    EndMonthOf(y, summer);
    EndMonthOf(y - 1, summer);
  }

  /** Because of the `'20'` before it, the year of any season code is a number, never NaN, and at least 20. */
  lemma EndStockYearIsNumber(season: string)
    ensures EndStockYear(season).Some? && EndStockYear(season).value >= 20
  {
    var s := "20" + season[..if |season| < 2 then |season| else 2];
    assert TrimStart(s) == s by {
      assert !IsJsSpace(s[0]);
    }
    var d := DigitPrefix(s);
    assert |d| >= 2 && d[..2] == "20" by {
      assert IsDigit(s[0]) && IsDigit(s[1]);
    }
    DecValuePrefix(d, 2);
    assert DecValue("20") == 20 by {
      assert "20"[..1] == "2";
    }
  }

  /** A text is exactly "S" when it is non-empty and starts with 'S', cut to one character. */
  lemma FirstCharIsS(t: string)
    ensures t[..if |t| < 1 then |t| else 1] == "S" <==> |t| > 0 && t[0] == 'S'
  {
    var u := t[..if |t| < 1 then |t| else 1];
    if |t| > 0 {
      assert u == [t[0]];
    } else {
      assert u == [];
    }
  }

  /** For a season `YYt` the year is 20YY. */
  lemma EndStockYearOf(yy: nat, t: string)
    requires 10 <= yy <= 99
    ensures EndStockYear(Dec(yy) + t) == Some(2000 + yy)
  {
    CenturyText(yy, t);
    ParseIntDec(2000 + yy);
  }

  /** `'20' + season.substring(0, 2)` of a season `YYt` is the decimal text of 20YY. */
  lemma CenturyText(yy: nat, t: string)
    requires 10 <= yy <= 99
    ensures var s := Dec(yy) + t; "20" + s[..if |s| < 2 then |s| else 2] == Dec(2000 + yy)
  {
    var s := Dec(yy) + t;
    TwoDigits(yy);
    assert s[..2] == Dec(yy);
    CenturyPrefix(yy);
  }

  /** For a season `YYt` the type is the first character of `t`. */
  lemma EndStockTypeOf(yy: nat, t: string)
    requires 10 <= yy <= 99
    ensures EndStockType(Dec(yy) + t) == t[..if |t| < 1 then |t| else 1]
    ensures EndStockType(Dec(yy) + t) == "S" <==> |t| > 0 && t[0] == 'S'
  {
    var s := Dec(yy) + t;
    TwoDigits(yy);
    if |t| == 0 {
      assert |s| == 2;
    } else {
      assert s[2..3] == t[..1];
    }
    FirstCharIsS(t);
  }

  /**
   * For a season `YYt` the target month is August of 20YY for S and February of 20YY
   * otherwise, and the prior month lies twelve months before it.
   */
  lemma EndStockMonths(yy: nat, t: string)
    requires 10 <= yy <= 99
    ensures var m := if |t| > 0 && t[0] == 'S' then 8 else 2;
      TargetMonth(Dec(yy) + t) == Dec(2000 + yy) + Pad2(m) &&
      PriorYearMonth(Dec(yy) + t) == Dec(1999 + yy) + Pad2(m)
    ensures IsDigits(TargetMonth(Dec(yy) + t)) && IsDigits(PriorYearMonth(Dec(yy) + t))
    ensures MonthIndex(TargetMonth(Dec(yy) + t)) - MonthIndex(PriorYearMonth(Dec(yy) + t)) == 12
  {
    var s := Dec(yy) + t;
    var summer := |t| > 0 && t[0] == 'S';
    EndStockYearOf(yy, t);
    EndStockTypeOf(yy, t);
    MonthsOfYear(s, 2000 + yy, summer);
    TargetAndPriorMonths(s);
  }

  /** The target and prior months of a season whose year is known. */
  lemma MonthsOfYear(season: string, y: int, summer: bool)
    requires EndStockYear(season) == Some(y) && (EndStockType(season) == "S") == summer
    ensures TargetMonth(season) == EndMonth(Some(y), summer)
    ensures PriorYearMonth(season) == EndMonth(Some(y - 1), summer)
  {
  }

  /**
   * The target month of an F season `YYF` is February of 20YY, while the sales window of the
   * season ends in February of 20(YY+1): the ending stock read is the one of a year earlier.
   */
  lemma EndStockFebruaryIsYearEarly(yy: nat)
    requires 11 <= yy <= 98
    ensures TargetMonth(Dec(yy) + "F") == Dec(2000 + yy) + Pad2(2)
    ensures CurrentPeriods(Some(yy), "F").periodEnd == Dec(2001 + yy) + Pad2(2)
  {
    EndStockMonths(yy, "F");
    CurrentPeriodsOfYear(yy, "F");
  }

  /** The ending-stock month meant for a season of year `year`: August of that year for S, February of the next year otherwise. */
  function IntendedEndMonth(year: Option<int>, summer: bool): string {
    if summer then EndMonth(year, true) else EndMonth(Plus(year, 1), false)
  }

  /** The intended `targetYYYYMM` */
  function IntendedTargetMonth(season: string): string {
    IntendedEndMonth(EndStockYear(season), EndStockType(season) == "S")
  }

  /** The intended `pyYYYYMM`: the intended month of the season a year earlier. */
  function IntendedPriorYearMonth(season: string): string {
    IntendedEndMonth(Plus(EndStockYear(season), -1), EndStockType(season) == "S")
  }

  /**
   * For S and F seasons the intended target month is the last month of the season's sales
   * window, as the order-amount and cost routes compute it, and the prior month is twelve
   * months earlier.
   */
  lemma IntendedTargetIsSeasonEnd(yy: nat, t: string)
    requires 11 <= yy <= 98 && (t == "S" || t == "F")
    ensures IntendedTargetMonth(Dec(yy) + t) == CurrentPeriods(Some(yy), t).periodEnd
    ensures IsDigits(IntendedTargetMonth(Dec(yy) + t)) && IsDigits(IntendedPriorYearMonth(Dec(yy) + t))
    ensures MonthIndex(IntendedTargetMonth(Dec(yy) + t)) - MonthIndex(IntendedPriorYearMonth(Dec(yy) + t)) == 12
  {
    IntendedMonthsOf(Dec(yy) + t);
    if t == "S" {
      IntendedSummerTarget(yy);
    } else {
      IntendedFallTarget(yy);
    }
  }

  /** The corrected target month of `YYS` is August of 20YY, the end of its sales window. */
  lemma IntendedSummerTarget(yy: nat)
    requires 11 <= yy <= 98
    ensures IntendedTargetMonth(Dec(yy) + "S") == CurrentPeriods(Some(yy), "S").periodEnd
  {
    EndStockYearOf(yy, "S");
    EndStockTypeOf(yy, "S");
    CurrentPeriodsOfYear(yy, "S");
    assert IntendedTargetMonth(Dec(yy) + "S") == EndMonth(Some(2000 + yy), true);
  }

  /** The corrected target month of `YYF` is February of 20(YY+1), the end of its sales window. */
  lemma IntendedFallTarget(yy: nat)
    requires 11 <= yy <= 98
    ensures IntendedTargetMonth(Dec(yy) + "F") == CurrentPeriods(Some(yy), "F").periodEnd
  {
    EndStockYearOf(yy, "F");
    EndStockTypeOf(yy, "F");
    CurrentPeriodsOfYear(yy, "F");
    assert IntendedTargetMonth(Dec(yy) + "F") == EndMonth(Some(2001 + yy), false);
  }

  datatype EndStockParams = EndStockParams(season: string, targetYYYYMM: string, pyYYYYMM: string)

  /**
   * The season and the two months the route reports beside the rows: the ending-stock month of
   * the season's year and the same month twelve months earlier.
   */
  function EndStockRequest(seasonParam: Option<string>): (r: EndStockParams)
    ensures r.season == (if seasonParam.Some? && seasonParam.value != "" then seasonParam.value else END_STOCK_DEFAULT_SEASON)
    ensures r.targetYYYYMM == TargetMonth(r.season) && r.pyYYYYMM == PriorYearMonth(r.season)
    ensures IsDigits(r.targetYYYYMM) && IsDigits(r.pyYYYYMM)
    ensures EndStockYear(r.season).Some? &&
      MonthIndex(r.targetYYYYMM) == EndStockYear(r.season).value * 12 + (if EndStockType(r.season) == "S" then 8 else 2)
    ensures MonthIndex(r.targetYYYYMM) - MonthIndex(r.pyYYYYMM) == 12
  {
    var season := Param(seasonParam, END_STOCK_DEFAULT_SEASON);
    TargetAndPriorMonths(season);
    EndStockParams(season, TargetMonth(season), PriorYearMonth(season))
  }

  /**
   * The request with the corrected months of the Findings: an S season as written, an F season
   * at the February that ends its sales window, and the prior month twelve months earlier.
   */
  function IntendedEndStockRequest(seasonParam: Option<string>): (r: EndStockParams)
    ensures r.season == (if seasonParam.Some? && seasonParam.value != "" then seasonParam.value else END_STOCK_DEFAULT_SEASON)
    ensures IsDigits(r.targetYYYYMM) && IsDigits(r.pyYYYYMM)
    ensures EndStockYear(r.season).Some? && MonthIndex(r.targetYYYYMM) ==
      (EndStockYear(r.season).value + (if EndStockType(r.season) == "S" then 0 else 1)) * 12 +
      (if EndStockType(r.season) == "S" then 8 else 2)
    ensures MonthIndex(r.targetYYYYMM) - MonthIndex(r.pyYYYYMM) == 12
    ensures EndStockType(r.season) == "S" ==> r == EndStockRequest(seasonParam)
  {
    var season := Param(seasonParam, END_STOCK_DEFAULT_SEASON);
    IntendedMonthsOf(season);
    if EndStockType(season) == "S" then
      IntendedKeepsSummer(season);
      EndStockParams(season, IntendedTargetMonth(season), IntendedPriorYearMonth(season))
    else
      EndStockParams(season, IntendedTargetMonth(season), IntendedPriorYearMonth(season))
  }

  /** The corrected months are YYYYMM texts, the target at the season's end and the prior month a year before it. */
  lemma IntendedMonthsOf(season: string)
    ensures IsDigits(IntendedTargetMonth(season)) && IsDigits(IntendedPriorYearMonth(season))
    ensures EndStockYear(season).Some? && MonthIndex(IntendedTargetMonth(season)) ==
      (EndStockYear(season).value + (if EndStockType(season) == "S" then 0 else 1)) * 12 +
      (if EndStockType(season) == "S" then 8 else 2)
    ensures MonthIndex(IntendedTargetMonth(season)) - MonthIndex(IntendedPriorYearMonth(season)) == 12
  {
    EndStockYearIsNumber(season);
    var y := EndStockYear(season).value;
    if EndStockType(season) == "S" {
      EndMonthOf(y, true);
      EndMonthOf(y - 1, true);
    } else {
      EndMonthOf(y + 1, false);
      EndMonthOf(y, false);
    }
  }

  /** For an S season the corrected months are the months as written. */
  lemma IntendedKeepsSummer(season: string)
    requires EndStockType(season) == "S"
    ensures IntendedTargetMonth(season) == TargetMonth(season)
    ensures IntendedPriorYearMonth(season) == PriorYearMonth(season)
  {
    EndStockYearIsNumber(season);
  }

  /** The digits of the default season's months. */
  lemma DefaultEndStockDigits()
    ensures Dec(25) + "S" == "25S"
    ensures Dec(2025) + Pad2(8) == "202508" && Dec(2024) + Pad2(8) == "202408"
  {
    assert Dec(25) == "25" by {
      assert Dec(25) == Dec(2) + [DigitChar(5)];
    }
    assert Dec(2025) == "2025" by {
      CenturyPrefix(25);
    }
    assert Dec(2024) == "2024" by {
      assert Dec(24) == Dec(2) + [DigitChar(4)];
      CenturyPrefix(24);
    }
    assert Pad2(8) == "08";
  }

  /** Without a season parameter the route reads August 2025 against August 2024. */
  lemma DefaultEndStockMonths()
    ensures EndStockRequest(None) == EndStockParams("25S", "202508", "202408")
  {
    DefaultEndStockDigits();
    EndStockMonths(25, "S");
    EndStockTypeOf(25, "S");
  }
}
