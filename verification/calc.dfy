/**
 * The plan simulation: 26S revenue per channel from 25S revenue and a growth rate, then cost of
 * goods from the target mark-up, gross and operating profit, and a 25S-vs-26S comparison.
 * A JavaScript number that is not finite (the result of dividing by zero) is `None` here.
 */
module Calc {
  import opened Wrappers
  import opened JsArray

  datatype ChannelData = ChannelData(channel: string, channelKo: string, revenue25S: real)

  datatype SeasonData = SeasonData(
    season: string,
    revenue: real,
    cogs: real,
    grossProfit: real,
    grossProfitRate: real,
    adExpense: real,
    hrCost: real,
    operatingProfit: real,
    operatingProfitRate: real,
    discountRate: real,
    costRate: real)

  datatype ChannelGrowthInput = ChannelGrowthInput(channel: string, growthRate: real)

  datatype SimulationInput = SimulationInput(
    channelGrowthRates: seq<ChannelGrowthInput>,
    commonGrowthRate: real,
    useCommonRate: bool,
    orderAmount: real,
    targetMU: real,
    adExpense: real,
    headcount: real,
    hrCostPerPerson: real)

  datatype ChannelRevenue = ChannelRevenue(channel: string, channelKo: string, revenue25S: real, revenue26S: real, growthRate: real)

  datatype SimulationResult = SimulationResult(
    totalRevenue: real,
    totalCogs: Option<real>,
    grossProfit: Option<real>,
    grossProfitRate: Option<real>,
    adExpense: real,
    hrCost: real,
    operatingProfit: Option<real>,
    operatingProfitRate: Option<real>,
    channelRevenues: seq<ChannelRevenue>)

  // ---------------------------------------------------------------- numbers that may not be finite

  /** `a / b` of a finite `a`: not finite exactly when `b` is zero. */
  function Div(a: Option<real>, b: real): (r: Option<real>)
    ensures r.Some? <==> a.Some? && b != 0.0
    ensures r.Some? ==> r.value == a.value / b
  {
    if a.Some? && b != 0.0 then Some(a.value / b) else None
  }

  /** `a - b`: not finite when `a` is not. */
  function Minus(a: Option<real>, b: real): (r: Option<real>)
    ensures r.Some? <==> a.Some?
    ensures r.Some? ==> r.value + b == a.value
  {
    if a.Some? then Some(a.value - b) else None
  }

  // ---------------------------------------------------------------- simulation

  /** `g => g.channel === ch.channel` */
  function ForChannel(ch: ChannelData): ChannelGrowthInput -> bool {
    (gi: ChannelGrowthInput) => gi.channel == ch.channel
  }

  /** The common rate when it is used, else the channel's first listed rate, else 0. */
  function GrowthRateFor(ch: ChannelData, input: SimulationInput): (g: real)
    ensures input.useCommonRate ==> g == input.commonGrowthRate
    ensures (!input.useCommonRate && (forall j :: 0 <= j < |input.channelGrowthRates| ==>
               input.channelGrowthRates[j].channel != ch.channel)) ==> g == 0.0
    ensures !input.useCommonRate ==> forall j :: (0 <= j < |input.channelGrowthRates| &&
      input.channelGrowthRates[j].channel == ch.channel &&
      (forall i :: 0 <= i < j ==> input.channelGrowthRates[i].channel != ch.channel)) ==>
      g == input.channelGrowthRates[j].growthRate
  {
    if input.useCommonRate then input.commonGrowthRate
    else
      match FindIndex(input.channelGrowthRates, ForChannel(ch))
      case Some(i) => input.channelGrowthRates[i].growthRate
      case None => 0.0
  }

  /** `x * (1 + g / 100)`: `x` grown by `g` percent. */
  function Grow(x: real, g: real): real {
    x * (1.0 + g / 100.0)
  }

  /** A sum grows as its parts do. */
  lemma GrowAdd(a: real, b: real, g: real)
    ensures Grow(a + b, g) == Grow(a, g) + Grow(b, g)
  {
  }

  /** Zero growth changes nothing. */
  lemma GrowZero(a: real)
    ensures Grow(a, 0.0) == a
  {
  }

  function ChannelRevenueFor(ch: ChannelData, input: SimulationInput): ChannelRevenue {
    var growthRate := GrowthRateFor(ch, input);
    ChannelRevenue(ch.channel, ch.channelKo, ch.revenue25S, Grow(ch.revenue25S, growthRate), growthRate)
  }

  /** `channels.map(...)`: one revenue line per channel, in order. */
  function ChannelRevenues(channels: seq<ChannelData>, input: SimulationInput): (r: seq<ChannelRevenue>)
    ensures |r| == |channels|
    ensures forall i :: 0 <= i < |channels| ==>
      r[i].channel == channels[i].channel && r[i].channelKo == channels[i].channelKo &&
      r[i].revenue25S == channels[i].revenue25S && r[i].growthRate == GrowthRateFor(channels[i], input) &&
      r[i].revenue26S == Grow(channels[i].revenue25S, r[i].growthRate)
  {
    if channels == [] then []
    else ChannelRevenues(channels[..|channels| - 1], input) + [ChannelRevenueFor(channels[|channels| - 1], input)]
  }

  function Revenue26S(): ChannelRevenue -> real {
    (c: ChannelRevenue) => c.revenue26S
  }

  function Revenue25S(): ChannelData -> real {
    (c: ChannelData) => c.revenue25S
  }

  function CalculateSimulation(channels: seq<ChannelData>, input: SimulationInput): (r: SimulationResult)
    ensures r.channelRevenues == ChannelRevenues(channels, input)
    ensures r.totalRevenue == Sum(r.channelRevenues, Revenue26S())
    ensures r.totalCogs.Some? <==> input.targetMU != 0.0
    ensures r.totalCogs.Some? ==> r.totalCogs.value == r.totalRevenue / (input.targetMU / 100.0)
    ensures r.grossProfit.Some? <==> r.totalCogs.Some?
    ensures r.grossProfit.Some? ==> r.grossProfit.value == r.totalRevenue - r.totalCogs.value
    ensures r.adExpense == input.adExpense && r.hrCost == input.headcount * input.hrCostPerPerson
    ensures r.operatingProfit.Some? <==> r.grossProfit.Some?
    ensures r.operatingProfit.Some? ==>
      r.operatingProfit.value == r.grossProfit.value - input.adExpense - r.hrCost
    ensures r.grossProfitRate.Some? <==> r.grossProfit.Some? && r.totalRevenue != 0.0
    ensures r.grossProfitRate.Some? ==> r.grossProfitRate.value == r.grossProfit.value / r.totalRevenue * 100.0
    ensures r.operatingProfitRate.Some? <==> r.operatingProfit.Some? && r.totalRevenue != 0.0
    ensures r.operatingProfitRate.Some? ==>
      r.operatingProfitRate.value == r.operatingProfit.value / r.totalRevenue * 100.0
  {
    var channelRevenues := ChannelRevenues(channels, input);
    var totalRevenue := Sum(channelRevenues, Revenue26S());
    var totalCogs := Div(Some(totalRevenue), input.targetMU / 100.0);
    var grossProfit := Minus(Some(totalRevenue), totalCogs.GetOr(0.0));
    var grossProfit' := if totalCogs.Some? then grossProfit else None;
    var hrCost := input.headcount * input.hrCostPerPerson;
    var operatingProfit := Minus(Minus(grossProfit', input.adExpense), hrCost);
    var grossProfitRate := Div(grossProfit', totalRevenue);
    var operatingProfitRate := Div(operatingProfit, totalRevenue);
    SimulationResult(
      totalRevenue,
      totalCogs,
      grossProfit',
      if grossProfitRate.Some? then Some(grossProfitRate.value * 100.0) else None,
      input.adExpense,
      hrCost,
      operatingProfit,
      if operatingProfitRate.Some? then Some(operatingProfitRate.value * 100.0) else None,
      channelRevenues)
  }

  /** With one common growth rate the 26S total is the 25S total grown by that rate. */
  lemma {:induction false} CommonRateScalesTotal(channels: seq<ChannelData>, input: SimulationInput)
    requires input.useCommonRate
    ensures Sum(ChannelRevenues(channels, input), Revenue26S()) ==
      Grow(Sum(channels, Revenue25S()), input.commonGrowthRate)
  {
    if channels != [] {
      var init := channels[..|channels| - 1];
      CommonRateScalesTotal(init, input);
      var rs := ChannelRevenues(channels, input);
      var a, b, g := Sum(init, Revenue25S()), channels[|channels| - 1].revenue25S, input.commonGrowthRate;
      assert rs[..|rs| - 1] == ChannelRevenues(init, input);
      assert Sum(channels, Revenue25S()) == a + b;
      assert rs[|rs| - 1].revenue26S == Grow(b, g);
      assert Sum(rs, Revenue26S()) == Grow(a, g) + Grow(b, g);
      GrowAdd(a, b, g);
    }
  }

  /** Zero growth everywhere leaves every channel's revenue, and so the total, as in 25S. */
  lemma ZeroGrowthKeepsRevenue(channels: seq<ChannelData>, input: SimulationInput)
    requires input.useCommonRate && input.commonGrowthRate == 0.0
    ensures forall i :: 0 <= i < |channels| ==>
      ChannelRevenues(channels, input)[i].revenue26S == channels[i].revenue25S
    ensures CalculateSimulation(channels, input).totalRevenue == Sum(channels, Revenue25S())
  {
    CommonRateScalesTotal(channels, input);
    GrowZero(Sum(channels, Revenue25S()));
    forall i | 0 <= i < |channels|
      ensures ChannelRevenues(channels, input)[i].revenue26S == channels[i].revenue25S
    {
      GrowZero(channels[i].revenue25S);
    }
  }

  /** Cost of goods, advertising, personnel cost and operating profit add up to the revenue. */
  lemma ProfitAddsUp(channels: seq<ChannelData>, input: SimulationInput)
    requires input.targetMU != 0.0
    ensures var r := CalculateSimulation(channels, input);
      r.operatingProfit.Some? &&
      r.totalCogs.value + r.adExpense + r.hrCost + r.operatingProfit.value == r.totalRevenue
  {
  }

  // ---------------------------------------------------------------- defaults

  function GetDefaultSimulationInput(channels: seq<ChannelData>): (r: SimulationInput)
    ensures |r.channelGrowthRates| == |channels|
    ensures forall i :: 0 <= i < |channels| ==>
      r.channelGrowthRates[i] == ChannelGrowthInput(channels[i].channel, 5.0)
    ensures r.commonGrowthRate == 5.0 && r.useCommonRate && r.orderAmount == 0.0 && r.targetMU == 250.0
    ensures r.adExpense == 50000.0 && r.headcount == 100.0 && r.hrCostPerPerson == 600.0
  {
    SimulationInput(DefaultRates(channels), 5.0, true, 0.0, 250.0, 50000.0, 100.0, 600.0)
  }

  function DefaultRates(channels: seq<ChannelData>): (r: seq<ChannelGrowthInput>)
    ensures |r| == |channels|
    ensures forall i :: 0 <= i < |channels| ==> r[i] == ChannelGrowthInput(channels[i].channel, 5.0)
  {
    if channels == [] then []
    else DefaultRates(channels[..|channels| - 1]) + [ChannelGrowthInput(channels[|channels| - 1].channel, 5.0)]
  }

  /** The default input grows the 25S total by 5 percent and sets cost of goods to 40 percent of revenue. */
  lemma DefaultSimulation(channels: seq<ChannelData>)
    ensures var r := CalculateSimulation(channels, GetDefaultSimulationInput(channels));
      r.totalRevenue == Sum(channels, Revenue25S()) * 1.05 &&
      r.totalCogs == Some(r.totalRevenue * 0.4) &&
      r.hrCost == 60000.0
  {
    var input := GetDefaultSimulationInput(channels);
    var r := CalculateSimulation(channels, input);
    CommonRateScalesTotal(channels, input);
    MarkupConstants(Sum(channels, Revenue25S()), r.totalRevenue);
  }

  lemma MarkupConstants(x: real, y: real)
    ensures Grow(x, 5.0) == x * 1.05
    ensures y / (250.0 / 100.0) == y * 0.4
  {
  }

  /** The default per-channel rates are 5 as well, so switching off the common rate changes nothing. */
  lemma DefaultChannelRates(channels: seq<ChannelData>, i: nat)
    requires i < |channels|
    ensures GrowthRateFor(channels[i], GetDefaultSimulationInput(channels).(useCommonRate := false)) == 5.0
  {
    var rates := GetDefaultSimulationInput(channels).channelGrowthRates;
    assert ForChannel(channels[i])(rates[i]);
    var found := FindIndex(rates, ForChannel(channels[i]));
    assert found.Some? && rates[found.value].growthRate == 5.0;
  }

  // ---------------------------------------------------------------- comparison

  datatype Comparison = Comparison(metric: string, value25S: real, value26S: Option<real>,
                                   change: Option<real>, changeRate: Option<real>)

  /** `{ ...m, change: v26 - v25, changeRate: (v26 - v25) / v25 * 100 }` */
  function CompareMetric(metric: string, value25S: real, value26S: Option<real>): (c: Comparison)
    ensures c.metric == metric && c.value25S == value25S && c.value26S == value26S
    ensures c.change.Some? <==> value26S.Some?
    ensures c.change.Some? ==> c.change.value == value26S.value - value25S
    ensures c.changeRate.Some? <==> value26S.Some? && value25S != 0.0
    ensures c.changeRate.Some? ==> c.changeRate.value == c.change.value / value25S * 100.0
  {
    var change := Minus(value26S, value25S);
    var rate := Div(change, value25S);
    Comparison(metric, value25S, value26S, change, if rate.Some? then Some(rate.value * 100.0) else None)
  }

  const METRICS: seq<string> := ["매출", "매출원가", "매출총이익", "광고선전비", "인건비", "영업이익"]

  /** Six metrics in fixed order: revenue, cost of goods, gross profit, advertising, personnel cost, operating profit. */
  function Compare25Svs26S(season25S: SeasonData, result26S: SimulationResult): (r: seq<Comparison>)
    ensures |r| == 6
    ensures forall i :: 0 <= i < 6 ==> r[i].metric == METRICS[i]
    ensures r[0].value25S == season25S.revenue && r[0].value26S == Some(result26S.totalRevenue)
    ensures r[1].value25S == season25S.cogs && r[1].value26S == result26S.totalCogs
    ensures r[2].value25S == season25S.grossProfit && r[2].value26S == result26S.grossProfit
    ensures r[3].value25S == season25S.adExpense && r[3].value26S == Some(result26S.adExpense)
    ensures r[4].value25S == season25S.hrCost && r[4].value26S == Some(result26S.hrCost)
    ensures r[5].value25S == season25S.operatingProfit && r[5].value26S == result26S.operatingProfit
    ensures forall i :: 0 <= i < 6 ==> r[i] == CompareMetric(r[i].metric, r[i].value25S, r[i].value26S)
  {
    [CompareMetric(METRICS[0], season25S.revenue, Some(result26S.totalRevenue)),
     CompareMetric(METRICS[1], season25S.cogs, result26S.totalCogs),
     CompareMetric(METRICS[2], season25S.grossProfit, result26S.grossProfit),
     CompareMetric(METRICS[3], season25S.adExpense, Some(result26S.adExpense)),
     CompareMetric(METRICS[4], season25S.hrCost, Some(result26S.hrCost)),
     CompareMetric(METRICS[5], season25S.operatingProfit, result26S.operatingProfit)]
  }

  /** Comparing a season's figures with themselves gives no change and, where defined, a zero rate. */
  lemma CompareSelf(value: real, metric: string)
    ensures CompareMetric(metric, value, Some(value)).change == Some(0.0)
    ensures value != 0.0 ==> CompareMetric(metric, value, Some(value)).changeRate == Some(0.0)
  {
  }
}
