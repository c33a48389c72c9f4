/**
 * The VAT-excluded sales route: the windows of the season, and the split of the result rows
 * into the channel rows and the '전체' total row.
 */
module VatExcludedSalesRoute {
  import opened Wrappers
  import opened JsNumber
  import opened JsArray
  import opened SeasonPeriods

  const TOTAL_NAME := "전체"

  /** One result row: the channel name and the two amounts the route reads. */
  datatype VatRow = VatRow(channelName: Option<string>, vatExcSaleAmt: Option<real>, actSaleAmt: Option<real>)

  predicate IsTotalRow(row: VatRow) {
    row.channelName == Some(TOTAL_NAME)
  }

  function TotalRowTest(): VatRow -> bool {
    (row: VatRow) => IsTotalRow(row)
  }

  function ChannelRowTest(): VatRow -> bool {
    (row: VatRow) => !IsTotalRow(row)
  }

  /** The response body of a successful query. */
  datatype VatResponse = VatResponse(data: seq<VatRow>, total: real, totalActSale: real, params: Params)

  /** The route's answer to the parameters and the rows the query returned. */
  function VatExcludedSales(brandParam: Option<string>, seasonParam: Option<string>, rows: seq<VatRow>): (r: VatResponse)
    ensures forall i :: 0 <= i < |r.data| ==> r.data[i] in rows && !IsTotalRow(r.data[i])
    ensures FindIndex(rows, TotalRowTest()).None? ==> r.total == 0.0 && r.totalActSale == 0.0
    ensures r.params == RequestParams(brandParam, seasonParam)
  {
    var totalRow := Find(rows, TotalRowTest());
    VatResponse(
      Filter(rows, ChannelRowTest()),
      if totalRow.Some? then OrZero(totalRow.value.vatExcSaleAmt) else 0.0,
      if totalRow.Some? then OrZero(totalRow.value.actSaleAmt) else 0.0,
      RequestParams(brandParam, seasonParam))
  }

  /** The channel rows are exactly the rows not named '전체', and with the total rows they make up all rows. */
  lemma ChannelRows(brandParam: Option<string>, seasonParam: Option<string>, rows: seq<VatRow>, row: VatRow)
    ensures var r := VatExcludedSales(brandParam, seasonParam, rows);
      (row in r.data <==> row in rows && !IsTotalRow(row)) &&
      multiset(r.data) + multiset(Filter(rows, TotalRowTest())) == multiset(rows)
  {
    FilterHas(rows, ChannelRowTest(), row);
    FilterPartition2(rows, ChannelRowTest(), TotalRowTest());
  }

  /** The totals are the amounts of the first '전체' row, or 0 without one. */
  lemma Totals(brandParam: Option<string>, seasonParam: Option<string>, rows: seq<VatRow>)
    ensures var r := VatExcludedSales(brandParam, seasonParam, rows);
      var k := FindIndex(rows, TotalRowTest());
      (k.None? ==> r.total == 0.0 && r.totalActSale == 0.0) &&
      (k.Some? ==> IsTotalRow(rows[k.value]) && r.total == OrZero(rows[k.value].vatExcSaleAmt) &&
                   r.totalActSale == OrZero(rows[k.value].actSaleAmt))
  {
  }
}
