/**
 * The shipping price (VAT included) of a channel: VAT-excluded sales times 1.1, capped at the
 * actual sales for the retail channels when those are positive.
 */
module VatExcludedSales {

  /** The channels whose shipping price may not exceed their actual sales. */
  const RETAIL_CHANNELS: seq<string> := ["직영(가두)", "온라인(직)", "온라인(제휴)", "아울렛(직)", "사입", "기타"]

  function CalculateShippingPrice(vatExcSaleAmt: real, actSaleAmt: real, channelName: string): (r: real)
    ensures channelName !in RETAIL_CHANNELS ==> r == vatExcSaleAmt * 1.1
    ensures channelName in RETAIL_CHANNELS && actSaleAmt > 0.0 ==>
      r == (if vatExcSaleAmt * 1.1 <= actSaleAmt then vatExcSaleAmt * 1.1 else actSaleAmt)
    ensures channelName in RETAIL_CHANNELS && actSaleAmt <= 0.0 ==> r == vatExcSaleAmt * 1.1
  {
    var shippingPrice := vatExcSaleAmt * 1.1;
    if channelName in RETAIL_CHANNELS && actSaleAmt > 0.0 && shippingPrice > actSaleAmt then actSaleAmt
    else shippingPrice
  }

  /** The price never exceeds VAT-excluded sales times 1.1, and with positive actual sales a retail price never exceeds them. */
  lemma ShippingPriceBounds(vatExcSaleAmt: real, actSaleAmt: real, channelName: string)
    ensures CalculateShippingPrice(vatExcSaleAmt, actSaleAmt, channelName) <= vatExcSaleAmt * 1.1
    ensures channelName in RETAIL_CHANNELS && actSaleAmt > 0.0 ==>
      CalculateShippingPrice(vatExcSaleAmt, actSaleAmt, channelName) <= actSaleAmt
  {
  }
}
