/**
 * The order-amount route: the month of the season's ending stock, the first month of its
 * current-season sales, and the mapping of the one result row.
 */
module OrderAmountRoute {
  import opened Wrappers
  import opened JsNumber
  import opened SeasonPeriods

  /**
   * The two months the route assigns branch by branch: the ending-stock month (August, the
   * next February, December) and the first sales month of the current-season goods.
   */
  method OrderPeriods(year: Option<int>, seasonType: string) returns (periodEnd: string, currentSeasonStart: string)
    ensures periodEnd == CurrentPeriods(year, seasonType).periodEnd
    ensures currentSeasonStart == CurrentPeriods(year, seasonType).currentSeasonStart
  {
    if seasonType == "S" {
      periodEnd := Month(year, 0, 8);
      currentSeasonStart := Month(year, -1, 1);
    } else if seasonType == "F" {
      periodEnd := Month(year, 1, 2);
      currentSeasonStart := Month(year, 0, 3);
    } else {
      periodEnd := Month(year, 0, 12);
      currentSeasonStart := Month(year, -1, 7);
    }
  }

  /**
   * The sales of current-season goods are read over 20 months for S (January of the year
   * before to August), 12 for F (March to the next February) and 18 otherwise (July of the
   * year before to December).
   */
  lemma SalesWindowMonths(yy: nat, t: string)
    requires 11 <= yy <= 98
    ensures var p := CurrentPeriods(Some(yy), t);
      IsDigits(p.periodEnd) && IsDigits(p.currentSeasonStart) &&
      MonthIndex(p.periodEnd) - MonthIndex(p.currentSeasonStart) + 1 == (if t == "S" then 20 else if t == "F" then 12 else 18)
  {
    CurrentPeriodsOfYear(yy, t);
    var y := 2000 + yy;
    if t == "S" {
      MonthDistance(y - 1, 1, y, 8);
    } else if t == "F" {
      MonthDistance(y, 3, y + 1, 2);
    } else {
      MonthDistance(y - 1, 7, y, 12);
    }
  }

  /** The one row the query returns, in millions, and the sales rate in percent. */
  datatype OrderRow = OrderRow(endStockTagAmt: real, salesTagAmt: real, orderAmt: real, salesRate: real)

  const ZERO_ROW := OrderRow(0.0, 0.0, 0.0, 0.0)

  datatype OrderParams = OrderParams(brandCode: string, season: string, periodEnd: string, currentSeasonStart: string)

  /** The response body of a successful query. */
  datatype OrderAmountResponse = OrderAmountResponse(data: OrderRow, params: OrderParams)

  /** The route's answer to the parameters and the rows the query returned. */
  function OrderAmount(brandParam: Option<string>, seasonParam: Option<string>, rows: seq<OrderRow>): (r: OrderAmountResponse)
    ensures r.data == (if rows == [] then ZERO_ROW else rows[0])
    ensures var p := RequestParams(brandParam, seasonParam);
      r.params == OrderParams(p.brandCode, p.season, p.periods.periodEnd, p.periods.currentSeasonStart)
  {
    var p := RequestParams(brandParam, seasonParam);
    var result := if |rows| > 0 then rows[0] else ZERO_ROW;
    OrderAmountResponse(
      OrderRow(result.endStockTagAmt, result.salesTagAmt, result.orderAmt, result.salesRate),
      OrderParams(p.brandCode, p.season, p.periods.periodEnd, p.periods.currentSeasonStart))
  }

  /**
   * An empty result gives zeros; otherwise each of the four amounts is the same column of the
   * first row. The reported months are the current windows of the requested season.
   */
  lemma OrderAmountFields(brandParam: Option<string>, seasonParam: Option<string>, rows: seq<OrderRow>)
    ensures var r := OrderAmount(brandParam, seasonParam, rows);
      (rows == [] ==> r.data.endStockTagAmt == 0.0 && r.data.salesTagAmt == 0.0 &&
                      r.data.orderAmt == 0.0 && r.data.salesRate == 0.0) &&
      (rows != [] ==> r.data.endStockTagAmt == rows[0].endStockTagAmt && r.data.salesTagAmt == rows[0].salesTagAmt &&
                      r.data.orderAmt == rows[0].orderAmt && r.data.salesRate == rows[0].salesRate)
    ensures var r := OrderAmount(brandParam, seasonParam, rows);
      var season := Param(seasonParam, DEFAULT_SEASON);
      r.params.season == season && r.params.brandCode == Param(brandParam, DEFAULT_BRAND) &&
      r.params.periodEnd == CurrentPeriods(SeasonYear(season), SeasonType(season)).periodEnd &&
      r.params.currentSeasonStart == CurrentPeriods(SeasonYear(season), SeasonType(season)).currentSeasonStart
  {
  }
}
