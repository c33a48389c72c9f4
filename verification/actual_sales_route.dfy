/**
 * The actual-sales route: the windows of the season and of the year before it, and the split
 * of the result rows into channel rows, the '전체' total row and the `CHNL_CD_` rows.
 */
module ActualSalesRoute {
  import opened Wrappers
  import opened JsText
  import opened JsNumber
  import opened JsArray
  import opened SeasonPeriods

  const TOTAL_NAME := "전체"
  const CHANNEL_CODE_PREFIX := "CHNL_CD_"

  /** One result row: the channel name, which may be null, and the amounts the route reads. */
  datatype SalesRow = SalesRow(channelName: Option<string>, actSaleAmt: Option<real>, yoy: Option<real>,
                               retailActSaleAmt: Option<real>)

  /** The windows of the year before the season, written out branch by branch: the current windows of the year before. */
  function PriorPeriods(year: Option<int>, seasonType: string): (r: Periods)
    ensures r == CurrentPeriods(Plus(year, -1), seasonType)
  {
    PlusPlus(year, -1, 0);
    PlusPlus(year, -1, 1);
    PlusPlus(year, -1, -1);
    if seasonType == "S" then Periods(Month(year, -1, 3), Month(year, -1, 8), Month(year, -2, 1))
    else if seasonType == "F" then Periods(Month(year, -1, 9), Month(year, 0, 2), Month(year, -1, 3))
    else Periods(Month(year, -1, 1), Month(year, -1, 12), Month(year, -2, 7))
  }

  /** `pySixMonthsBefore`: the `sixMonthsBefore` month of the year before. */
  function PriorSixMonthsBefore(year: Option<int>, seasonType: string): (r: string)
    ensures r == SixMonthsBefore(Plus(year, -1), seasonType)
  {
    PlusPlus(year, -1, 0);
    if seasonType == "S" then Month(year, -1, 2) else Month(year, -1, 8)
  }

  predicate IsTotalRow(row: SalesRow) {
    row.channelName == Some(TOTAL_NAME)
  }

  /** `row.CHNL_NM?.startsWith('CHNL_CD_')`: false for a null name. */
  predicate IsChannelCodeRow(row: SalesRow) {
    row.channelName.Some? && StartsWith(row.channelName.value, CHANNEL_CODE_PREFIX)
  }

  predicate IsChannelRow(row: SalesRow) {
    !IsTotalRow(row) && !IsChannelCodeRow(row)
  }

  function TotalRowTest(): SalesRow -> bool {
    (row: SalesRow) => IsTotalRow(row)
  }

  function ChannelCodeRowTest(): SalesRow -> bool {
    (row: SalesRow) => IsChannelCodeRow(row)
  }

  function ChannelRowTest(): SalesRow -> bool {
    (row: SalesRow) => IsChannelRow(row)
  }

  /** The response body of a successful query. */
  datatype ActualSalesResponse = ActualSalesResponse(data: seq<SalesRow>, chnlCdData: seq<SalesRow>, total: real,
                                                     totalYoy: Option<real>, retailActSaleAmt: real, params: Params)

  /** The route's answer to the parameters and the rows the query returned. */
  function ActualSales(brandParam: Option<string>, seasonParam: Option<string>, rows: seq<SalesRow>): (r: ActualSalesResponse)
    ensures forall i :: 0 <= i < |r.data| ==> r.data[i] in rows && IsChannelRow(r.data[i])
    ensures forall i :: 0 <= i < |r.chnlCdData| ==> r.chnlCdData[i] in rows && IsChannelCodeRow(r.chnlCdData[i])
    ensures FindIndex(rows, TotalRowTest()).None? ==> r.total == 0.0 && r.retailActSaleAmt == 0.0 && r.totalYoy == None
    ensures FindIndex(rows, TotalRowTest()).Some? ==>
      var t := rows[FindIndex(rows, TotalRowTest()).value];
      IsTotalRow(t) && r.total == OrZero(t.actSaleAmt) && r.retailActSaleAmt == OrZero(t.retailActSaleAmt) &&
      r.totalYoy == OrNull(t.yoy)
    ensures r.params == RequestParams(brandParam, seasonParam)
  {
    var totalRow := Find(rows, TotalRowTest());
    ActualSalesResponse(
      Filter(rows, ChannelRowTest()),
      Filter(rows, ChannelCodeRowTest()),
      if totalRow.Some? then OrZero(totalRow.value.actSaleAmt) else 0.0,
      if totalRow.Some? then OrNull(totalRow.value.yoy) else None,
      if totalRow.Some? then OrZero(totalRow.value.retailActSaleAmt) else 0.0,
      RequestParams(brandParam, seasonParam))
  }

  /** The total name does not start with the channel-code prefix. */
  lemma TotalIsNotChannelCode()
    ensures !StartsWith(TOTAL_NAME, CHANNEL_CODE_PREFIX)
  {
    assert TOTAL_NAME[0] != CHANNEL_CODE_PREFIX[0];
  }

  /** Every row lands in exactly one of the channel rows, the total rows and the channel-code rows. */
  lemma RowsPartition(brandParam: Option<string>, seasonParam: Option<string>, rows: seq<SalesRow>)
    ensures var r := ActualSales(brandParam, seasonParam, rows);
      multiset(r.data) + multiset(Filter(rows, TotalRowTest())) + multiset(r.chnlCdData) == multiset(rows)
  {
    TotalIsNotChannelCode();
    FilterPartition3(rows, ChannelRowTest(), TotalRowTest(), ChannelCodeRowTest());
  }

  /** The channel rows are exactly the rows neither named '전체' nor named with the prefix, and likewise for the code rows. */
  lemma ChannelRows(brandParam: Option<string>, seasonParam: Option<string>, rows: seq<SalesRow>, row: SalesRow)
    ensures var r := ActualSales(brandParam, seasonParam, rows);
      (row in r.data <==> row in rows && IsChannelRow(row)) &&
      (row in r.chnlCdData <==> row in rows && IsChannelCodeRow(row))
  {
    FilterHas(rows, ChannelRowTest(), row);
    FilterHas(rows, ChannelCodeRowTest(), row);
  }

  /** Without a '전체' row the totals are 0 and the YoY null. */
  lemma NoTotalRow(brandParam: Option<string>, seasonParam: Option<string>, rows: seq<SalesRow>)
    requires forall i :: 0 <= i < |rows| ==> !IsTotalRow(rows[i])
    ensures var r := ActualSales(brandParam, seasonParam, rows);
      r.total == 0.0 && r.retailActSaleAmt == 0.0 && r.totalYoy == None
  {
  }

  /** The totals come from the first '전체' row; a zero YoY there is reported as null. */
  lemma FirstTotalRow(brandParam: Option<string>, seasonParam: Option<string>, rows: seq<SalesRow>, i: nat)
    requires i < |rows| && IsTotalRow(rows[i])
    requires forall j :: 0 <= j < i ==> !IsTotalRow(rows[j])
    ensures var r := ActualSales(brandParam, seasonParam, rows);
      r.total == OrZero(rows[i].actSaleAmt) && r.retailActSaleAmt == OrZero(rows[i].retailActSaleAmt) &&
      r.totalYoy == (if rows[i].yoy == Some(0.0) then None else rows[i].yoy)
  {
    var k := FindIndex(rows, TotalRowTest());
    assert k.Some? && k.value == i by {
      assert TotalRowTest()(rows[i]);
    }
  }
}
