/**
 * The season codes of the P&L routes (`24S`, `24F`, `24N`) and the YYYYMM month windows the
 * routes derive from them with template literals such as `20${year - 1}01`.
 */
module SeasonPeriods {
  import opened Wrappers
  import opened JsNumber

  const DEFAULT_BRAND := "M"
  const DEFAULT_SEASON := "23S"

  /** `searchParams.get(name) || fallback`: a missing or empty parameter takes the fallback. */
  function Param(value: Option<string>, fallback: string): string {
    if value.Some? && value.value != "" then value.value else fallback
  }

  /** `parseInt(season.slice(0, 2))`: the year digits of the season, NaN (`None`) when there are none. */
  function SeasonYear(season: string): (r: Option<int>)
    ensures |season| >= 2 && IsDigits(season[..2]) ==> r == Some(DecValue(season[..2]))
    ensures season == [] ==> r == None
  {
    ParseInt(season[..if |season| < 2 then |season| else 2])
  }

  /** `season.slice(2)`: the season type, `S`, `F` or anything else. */
  function SeasonType(season: string): (r: string)
    ensures |season| >= 2 ==> season == season[..2] + r
    ensures |season| < 2 ==> r == ""
  {
    season[if |season| < 2 then |season| else 2..]
  }

  /** `20${year + shift}` followed by the two digits of month `m`. */
  function Month(year: Option<int>, shift: int, m: nat): (r: string)
    requires m < 100
    ensures |r| >= 4 && r[..2] == "20" && r[|r| - 2..] == Pad2(m)
    ensures year.None? ==> r == "20NaN" + Pad2(m)
  {
    var r := "20" + NumStr(Plus(year, shift)) + Pad2(m);
    assert r[..2] == "20" && r[|r| - 2..] == Pad2(m);
    r
  }

  /** The two digits of a month or day number, with a leading zero below 10. */
  function Pad2(m: nat): (mm: string)
    requires m < 100
    ensures |mm| == 2 && IsDigits(mm)
  {
    [DigitChar(m / 10), DigitChar(m % 10)]
  }

  /** The sales window of a season and the first month of its current-season goods. */
  datatype Periods = Periods(periodStart: string, periodEnd: string, currentSeasonStart: string)

  /** The first month of the sales window of a season type: March for S, September for F, January otherwise. */
  function StartMonth(seasonType: string): (m: nat)
    ensures 1 <= m <= 12
  {
    if seasonType == "S" then 3 else if seasonType == "F" then 9 else 1
  }

  /** The months of the sales window: six for S and F, twelve otherwise. */
  function WindowLength(seasonType: string): nat {
    if seasonType == "S" || seasonType == "F" then 6 else 12
  }

  /** How many months before the window the current-season goods start: 14 for S, 6 otherwise. */
  function GoodsLead(seasonType: string): nat {
    if seasonType == "S" then 14 else 6
  }

  /** The YYYYMM text of the month `k` months after month `m` of the season year (before it for negative `k`). */
  function MonthAt(year: Option<int>, m: nat, k: int): string
    requires 1 <= m <= 12 && -24 <= m - 1 + k < 24
  {
    Month(year, YearsLater(m, k), MonthLater(m, k))
  }

  /** How many years after the season year the month `k` months after month `m` falls, within two years either way. */
  function YearsLater(m: nat, k: int): (y: int)
    requires -24 <= m - 1 + k < 24
  {
    var n := m - 1 + k;
    if n >= 12 then 1 else if n >= 0 then 0 else if n >= -12 then -1 else -2
  }

  /** The month number, 1 to 12, of the month `k` months after month `m`. */
  function MonthLater(m: nat, k: int): (r: nat)
    requires -24 <= m - 1 + k < 24
    ensures 1 <= r <= 12
  {
    var n := m - 1 + k;
    if n >= 12 then n - 11 else if n >= 0 then n + 1 else if n >= -12 then n + 13 else n + 25
  }

  /**
   * The current-year windows of the sales, cost and order routes: March to August for S,
   * September to the next February for F, the calendar year for any other type.
   */
  function CurrentPeriods(year: Option<int>, seasonType: string): (r: Periods)
    ensures var m := StartMonth(seasonType);
      r == Periods(MonthAt(year, m, 0), MonthAt(year, m, WindowLength(seasonType) - 1),
                   MonthAt(year, m, -(GoodsLead(seasonType) as int)))
  {
    if seasonType == "S" then
      Periods(Month(year, 0, 3), Month(year, 0, 8), Month(year, -1, 1))
    else if seasonType == "F" then
      Periods(Month(year, 0, 9), Month(year, 1, 2), Month(year, 0, 3))
    else
      Periods(Month(year, 0, 1), Month(year, 0, 12), Month(year, -1, 7))
  }

  /** The `sixMonthsBefore` month: February for S, August otherwise. */
  function SixMonthsBefore(year: Option<int>, seasonType: string): (r: string)
    ensures seasonType == "S" ==> r == MonthAt(year, StartMonth("S"), -1)
    ensures seasonType != "S" ==> r == MonthAt(year, StartMonth("F"), -1)
  {
    if seasonType == "S" then Month(year, 0, 2) else Month(year, 0, 8)
  }

  /** The brand, the season and the current windows a route reports back. */
  datatype Params = Params(brandCode: string, season: string, periods: Periods)

  /** The query parameters with their defaults, and the windows of the season. */
  function RequestParams(brandParam: Option<string>, seasonParam: Option<string>): (r: Params)
    ensures r.brandCode == (if brandParam.Some? && brandParam.value != "" then brandParam.value else DEFAULT_BRAND)
    ensures r.season == (if seasonParam.Some? && seasonParam.value != "" then seasonParam.value else DEFAULT_SEASON)
    ensures r.periods == CurrentPeriods(SeasonYear(r.season), SeasonType(r.season))
  {
    var season := Param(seasonParam, DEFAULT_SEASON);
    Params(Param(brandParam, DEFAULT_BRAND), season, CurrentPeriods(SeasonYear(season), SeasonType(season)))
  }

  // ---------------------------------------------------------------- seasons with a two-digit year

  /** A two-digit number has a two-character decimal text. */
  lemma TwoDigits(k: nat)
    requires 10 <= k <= 99
    ensures |Dec(k)| == 2
  {
    assert Dec(k) == Dec(k / 10) + [DigitChar(k % 10)];
  }

  /** A season code `YYt` reads back as the year YY and the type `t`. */
  lemma SeasonCode(yy: nat, t: string)
    requires 10 <= yy <= 99
    ensures SeasonYear(Dec(yy) + t) == Some(yy)
    ensures SeasonType(Dec(yy) + t) == t
  {
    TwoDigits(yy);
    var s := Dec(yy) + t;
    assert s[..2] == Dec(yy);
    assert s[2..] == t;
    ParseIntDec(yy);
  }

  /** With a year that stays two-digit, `20${year + shift}mm` is the six-digit YYYYMM of that year. */
  lemma MonthOfYear(y: int, shift: int, m: nat)
    requires 10 <= y + shift <= 99 && m < 100
    ensures Month(Some(y), shift, m) == Dec(2000 + y + shift) + Pad2(m)
  {
    CenturyPrefix(y + shift);
  }

  /**
   * The windows of the year YY for YY between 11 and 98, where every year the routes write
   * stays two-digit; `SeasonCode` reads a season code back to that year and type.
   */
  lemma CurrentPeriodsOfYear(yy: nat, t: string)
    requires 11 <= yy <= 98
    ensures var p := CurrentPeriods(Some(yy), t);
      (t == "S" ==> p == Periods(Dec(2000 + yy) + Pad2(3), Dec(2000 + yy) + Pad2(8), Dec(1999 + yy) + Pad2(1))) &&
      (t == "F" ==> p == Periods(Dec(2000 + yy) + Pad2(9), Dec(2001 + yy) + Pad2(2), Dec(2000 + yy) + Pad2(3))) &&
      (t != "S" && t != "F" ==> p == Periods(Dec(2000 + yy) + Pad2(1), Dec(2000 + yy) + Pad2(12), Dec(1999 + yy) + Pad2(7)))
    ensures SixMonthsBefore(Some(yy), t) == Dec(2000 + yy) + Pad2(if t == "S" then 2 else 8)
  {
    if t == "S" {
      MonthOfYear(yy, 0, 3);
      MonthOfYear(yy, 0, 8);
      MonthOfYear(yy, -1, 1);
      MonthOfYear(yy, 0, 2);
    } else if t == "F" {
      MonthOfYear(yy, 0, 9);
      MonthOfYear(yy, 1, 2);
      MonthOfYear(yy, 0, 3);
      MonthOfYear(yy, 0, 8);
    } else {
      MonthOfYear(yy, 0, 1);
      MonthOfYear(yy, 0, 12);
      MonthOfYear(yy, -1, 7);
      MonthOfYear(yy, 0, 8);
    }
  }

  // ---------------------------------------------------------------- months as numbers

  /** The months since year 0 of a YYYYMM text. */
  function MonthIndex(p: string): int
    requires IsDigits(p)
  {
    DecValue(p) / 100 * 12 + DecValue(p) % 100
  }

  /** The value of the YYYYMM text of year `n` and month `m`, and its month count. */
  lemma YearMonthValue(n: nat, m: nat)
    requires m < 100
    ensures IsDigits(Dec(n) + Pad2(m))
    ensures DecValue(Dec(n) + Pad2(m)) == n * 100 + m
    ensures MonthIndex(Dec(n) + Pad2(m)) == n * 12 + m
  {
    var mm := Pad2(m);
    var s := Dec(n) + mm;
    var head := Dec(n) + [mm[0]];
    assert s[..|s| - 1] == head && s[|s| - 1] == mm[1];
    assert head[..|head| - 1] == Dec(n) && head[|head| - 1] == mm[0];
    DecRoundTrip(n);
    assert DigitValue(mm[0]) == m / 10 && DigitValue(mm[1]) == m % 10;
    assert DecValue(head) == n * 10 + m / 10;
    assert DecValue(s) == n * 100 + m;
    DivHundred(n, m);
  }

  lemma DivHundred(n: nat, m: nat)
    requires m < 100
    ensures (n * 100 + m) / 100 == n && (n * 100 + m) % 100 == m
  {
  }

  /** The months from one YYYYMM text to another. */
  lemma MonthDistance(n1: nat, m1: nat, n2: nat, m2: nat)
    requires m1 < 100 && m2 < 100
    ensures IsDigits(Dec(n1) + Pad2(m1)) && IsDigits(Dec(n2) + Pad2(m2))
    ensures MonthIndex(Dec(n2) + Pad2(m2)) - MonthIndex(Dec(n1) + Pad2(m1)) == (n2 - n1) * 12 + m2 - m1
  {
    YearMonthValue(n1, m1);
    YearMonthValue(n2, m2);
  }

  /**
   * The S and F windows are six months long and the others twelve, and for S and F the
   * `sixMonthsBefore` month is the month just before the window.
   */
  lemma PeriodLength(yy: nat, t: string)
    requires 11 <= yy <= 98
    ensures var p := CurrentPeriods(Some(yy), t);
      var before := SixMonthsBefore(Some(yy), t);
      IsDigits(p.periodStart) && IsDigits(p.periodEnd) && IsDigits(before) &&
      MonthIndex(p.periodEnd) - MonthIndex(p.periodStart) + 1 == (if t == "S" || t == "F" then 6 else 12) &&
      (t == "S" || t == "F" ==> MonthIndex(p.periodStart) - MonthIndex(before) == 1)
  {
    CurrentPeriodsOfYear(yy, t);
    var y := 2000 + yy;
    if t == "S" {
      MonthDistance(y, 3, y, 8);
      MonthDistance(y, 2, y, 3);
    } else if t == "F" {
      MonthDistance(y, 9, y + 1, 2);
      MonthDistance(y, 8, y, 9);
    } else {
      MonthDistance(y, 1, y, 12);
      YearMonthValue(y, 8);
    }
  }

  /** The digits of the default season's months. */
  lemma DefaultSeasonDigits()
    ensures Dec(23) + "S" == "23S"
    ensures Dec(2023) + Pad2(3) == "202303" && Dec(2023) + Pad2(8) == "202308"
    ensures Dec(2022) + Pad2(1) == "202201"
  {
    assert Dec(23) == "23" by {
      assert Dec(23) == Dec(2) + [DigitChar(3)];
    }
    assert Dec(2023) == "2023" by {
      CenturyPrefix(23);
    }
    assert Dec(2022) == "2022" by {
      assert Dec(22) == Dec(2) + [DigitChar(2)];
      CenturyPrefix(22);
    }
    assert Pad2(3) == "03" && Pad2(8) == "08" && Pad2(1) == "01";
  }

  /** Without parameters a route answers for brand M and season 23S: March to August 2023, goods from January 2022. */
  lemma DefaultParams()
    ensures RequestParams(None, None) == Params("M", "23S", Periods("202303", "202308", "202201"))
  {
    DefaultSeasonDigits();
    SeasonCode(23, "S");
    CurrentPeriodsOfYear(23, "S");
  }
}
