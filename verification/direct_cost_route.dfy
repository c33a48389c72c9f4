/**
 * The direct-cost route: the windows of the season, and the split of the result rows into the
 * channel-code rows and the `TOTAL` row whose columns become the totals.
 */
module DirectCostRoute {
  import opened Wrappers
  import opened JsNumber
  import opened JsArray
  import opened SeasonPeriods

  const TOTAL_CODE := "TOTAL"

  /** The ten cost columns of a row, in the order of the query, and their sum. */
  datatype Costs = Costs(ryt: Option<real>, lgtCst: Option<real>, strgCst: Option<real>, cardCms: Option<real>,
                         shopRnt: Option<real>, shopDeprcCst: Option<real>, alncOnlnCms: Option<real>,
                         smCms: Option<real>, dfSaleStffCms: Option<real>, dmgmtSaleStffCms: Option<real>,
                         directCostTotal: Option<real>)

  /** One result row: a channel code, or `TOTAL`, and its costs. */
  datatype CostRow = CostRow(chnlCd: string, costs: Costs)

  /** The `totals` object: every column of the total row, plus a distribution fee that is always 0. */
  datatype Totals = Totals(ryt: real, lgtCst: real, strgCst: real, cardCms: real, shopRnt: real, shopDeprcCst: real,
                           alncOnlnCms: real, smCms: real, dfSaleStffCms: real, dmgmtSaleStffCms: real,
                           dstrbCms: real, directCostTotal: real)

  const ZERO_TOTALS := Totals(0.0, 0.0, 0.0, 0.0, 0.0, 0.0, 0.0, 0.0, 0.0, 0.0, 0.0, 0.0)

  /** `totalRow?.X || 0` for every column. */
  function TotalsOf(totalRow: Option<CostRow>): (t: Totals)
    ensures t.dstrbCms == 0.0
    ensures totalRow.None? ==> t == ZERO_TOTALS
    ensures totalRow.Some? ==> var c := totalRow.value.costs;
      t.ryt == OrZero(c.ryt) && t.lgtCst == OrZero(c.lgtCst) && t.strgCst == OrZero(c.strgCst) &&
      t.cardCms == OrZero(c.cardCms) && t.shopRnt == OrZero(c.shopRnt) &&
      t.shopDeprcCst == OrZero(c.shopDeprcCst) && t.alncOnlnCms == OrZero(c.alncOnlnCms) &&
      t.smCms == OrZero(c.smCms) && t.dfSaleStffCms == OrZero(c.dfSaleStffCms) &&
      t.dmgmtSaleStffCms == OrZero(c.dmgmtSaleStffCms) && t.directCostTotal == OrZero(c.directCostTotal)
  {
    match totalRow
    case None => ZERO_TOTALS
    case Some(row) =>
      var c := row.costs;
      Totals(OrZero(c.ryt), OrZero(c.lgtCst), OrZero(c.strgCst), OrZero(c.cardCms), OrZero(c.shopRnt),
             OrZero(c.shopDeprcCst), OrZero(c.alncOnlnCms), OrZero(c.smCms), OrZero(c.dfSaleStffCms),
             OrZero(c.dmgmtSaleStffCms), 0.0, OrZero(c.directCostTotal))
  }

  function TotalRowTest(): CostRow -> bool {
    (row: CostRow) => row.chnlCd == TOTAL_CODE
  }

  function ChannelRowTest(): CostRow -> bool {
    (row: CostRow) => row.chnlCd != TOTAL_CODE
  }

  /** The response body of a successful query. */
  datatype DirectCostResponse = DirectCostResponse(brandCode: string, season: string, period: Periods,
                                                   data: seq<CostRow>, totals: Totals)

  /** The route's answer to the parameters and the rows the query returned. */
  function DirectCost(brandParam: Option<string>, seasonParam: Option<string>, rows: seq<CostRow>): (r: DirectCostResponse)
    ensures forall i :: 0 <= i < |r.data| ==> r.data[i] in rows && r.data[i].chnlCd != TOTAL_CODE
    ensures FindIndex(rows, TotalRowTest()).None? ==> r.totals == ZERO_TOTALS
    ensures var p := RequestParams(brandParam, seasonParam);
      r.brandCode == p.brandCode && r.season == p.season && r.period == p.periods
  {
    var params := RequestParams(brandParam, seasonParam);
    DirectCostResponse(params.brandCode, params.season, params.periods,
                       Filter(rows, ChannelRowTest()), TotalsOf(Find(rows, TotalRowTest())))
  }

  /** The channel rows are exactly the rows whose code is not `TOTAL`; with the `TOTAL` rows they make up all rows. */
  lemma ChannelRows(brandParam: Option<string>, seasonParam: Option<string>, rows: seq<CostRow>, row: CostRow)
    ensures var r := DirectCost(brandParam, seasonParam, rows);
      (row in r.data <==> row in rows && row.chnlCd != TOTAL_CODE) &&
      multiset(r.data) + multiset(Filter(rows, TotalRowTest())) == multiset(rows)
  {
    FilterHas(rows, ChannelRowTest(), row);
    FilterPartition2(rows, ChannelRowTest(), TotalRowTest());
  }

  /** Each total is the column of the first `TOTAL` row, or 0 without one; the distribution fee is always 0. */
  lemma TotalsSpec(brandParam: Option<string>, seasonParam: Option<string>, rows: seq<CostRow>)
    ensures var t := DirectCost(brandParam, seasonParam, rows).totals;
      var k := FindIndex(rows, TotalRowTest());
      t.dstrbCms == 0.0 &&
      (k.None? ==> t == ZERO_TOTALS) &&
      (k.Some? ==> var c := rows[k.value].costs;
        rows[k.value].chnlCd == TOTAL_CODE &&
        t.ryt == OrZero(c.ryt) && t.lgtCst == OrZero(c.lgtCst) && t.strgCst == OrZero(c.strgCst) &&
        t.cardCms == OrZero(c.cardCms) && t.shopRnt == OrZero(c.shopRnt) &&
        t.shopDeprcCst == OrZero(c.shopDeprcCst) && t.alncOnlnCms == OrZero(c.alncOnlnCms) &&
        t.smCms == OrZero(c.smCms) && t.dfSaleStffCms == OrZero(c.dfSaleStffCms) &&
        t.dmgmtSaleStffCms == OrZero(c.dmgmtSaleStffCms) && t.directCostTotal == OrZero(c.directCostTotal))
  {
  }
}
