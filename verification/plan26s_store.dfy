/**
 * The 26S plan store: per brand, a list of scenarios and the id of the active one, plus the
 * brand's 25S actual-sales total. Actions replace these maps; getters read them and summarise a
 * scenario's rows by channel, season and category.
 * Clock readings are parameters: `now` (milliseconds) and `isoNow` (its ISO text).
 */
module PlanStore {
  import opened Wrappers
  import opened JsNumber
  import opened JsArray
  import opened Plan26S

  /** `Partial<SalesInputRow>`: the fields an update sets. */
  datatype RowPatch = RowPatch(
    id: Option<string>,
    channelCode: Option<string>,
    seasonCode: Option<string>,
    categoryCode: Option<string>,
    salesTagAmt: Option<real>,
    discountRate: Option<real>,
    actualSalesAmt: Option<real>)

  /** The cost-plan fields an update sets. */
  datatype CostPatch = CostPatch(
    orderAmount: Option<real>,
    targetMU: Option<real>,
    adExpense: Option<real>,
    headcount: Option<real>,
    hrCostPerPerson: Option<real>)

  /** The edits that rewrite a scenario in place (rename, one row, all rows, cost plan). */
  datatype ScenarioEdit =
    | Rename(name: string)
    | EditRow(rowId: string, patch: RowPatch)
    | ReplaceInputs(inputs: seq<SalesInputRow>)
    | EditCosts(costs: CostPatch)

  datatype ChannelSummary = ChannelSummary(
    channelCode: string, channelName: string, sales25S: real, sales26S: real, change: real, changeRate: real)

  datatype SeasonSummary = SeasonSummary(
    seasonCode: string, seasonName: string, sales25S: real, sales26S: real, change: real, changeRate: real)

  datatype ItemCategorySummary = ItemCategorySummary(
    categoryCode: string, categoryName: string, sales25S: real, sales26S: real, change: real, changeRate: real)

  const COPY_SUFFIX: string := " (복사본)"

  // ---------------------------------------------------------------- rows

  function ActualOf(row: SalesInputRow): real { row.actualSalesAmt }
  function ChannelOfRow(row: SalesInputRow): string { row.channelCode }
  function SeasonOfRow(row: SalesInputRow): string { row.seasonCode }
  function CategoryOfRow(row: SalesInputRow): string { row.categoryCode }

  /**
   * `{ ...row, ...patch }`, then, when the patch sets the tag amount or the discount but not the
   * actual amount, the actual amount recomputed from the merged tag amount and discount.
   */
  function ApplyRowPatch(row: SalesInputRow, p: RowPatch): (r: SalesInputRow)
    ensures r.id == p.id.GetOr(row.id) && r.channelCode == p.channelCode.GetOr(row.channelCode)
    ensures r.seasonCode == p.seasonCode.GetOr(row.seasonCode) && r.categoryCode == p.categoryCode.GetOr(row.categoryCode)
    ensures r.salesTagAmt == p.salesTagAmt.GetOr(row.salesTagAmt) && r.discountRate == p.discountRate.GetOr(row.discountRate)
    ensures p.actualSalesAmt.Some? ==> r.actualSalesAmt == p.actualSalesAmt.value
    ensures p.actualSalesAmt.None? && (p.salesTagAmt.Some? || p.discountRate.Some?) ==>
      r.actualSalesAmt == CalculateActualSales(r.salesTagAmt, r.discountRate)
    ensures p.actualSalesAmt.None? && p.salesTagAmt.None? && p.discountRate.None? ==>
      r.actualSalesAmt == row.actualSalesAmt
  {
    var merged := SalesInputRow(
      p.id.GetOr(row.id), p.channelCode.GetOr(row.channelCode), p.seasonCode.GetOr(row.seasonCode),
      p.categoryCode.GetOr(row.categoryCode), p.salesTagAmt.GetOr(row.salesTagAmt),
      p.discountRate.GetOr(row.discountRate), p.actualSalesAmt.GetOr(row.actualSalesAmt));
    if p.actualSalesAmt.None? && (p.salesTagAmt.Some? || p.discountRate.Some?) then
      merged.(actualSalesAmt := CalculateActualSales(merged.salesTagAmt, merged.discountRate))
    else merged
  }

  /** Applying the same patch a second time changes nothing more. */
  lemma ApplyRowPatchIdempotent(row: SalesInputRow, p: RowPatch)
    ensures ApplyRowPatch(ApplyRowPatch(row, p), p) == ApplyRowPatch(row, p)
  {
  }

  /** The rows after patching every row whose id is `rowId`; the other rows stay as they are. */
  function UpdateRows(rows: seq<SalesInputRow>, rowId: string, p: RowPatch): (r: seq<SalesInputRow>)
    ensures |r| == |rows|
    ensures forall k :: 0 <= k < |rows| ==>
      r[k] == (if rows[k].id == rowId then ApplyRowPatch(rows[k], p) else rows[k])
  {
    if rows == [] then []
    else
      var last := rows[|rows| - 1];
      UpdateRows(rows[..|rows| - 1], rowId, p) + [if last.id == rowId then ApplyRowPatch(last, p) else last]
  }

  /** Patching the one row with a given id moves the total actual sales by that row's change. */
  lemma {:induction false} UpdateRowsTotal(rows: seq<SalesInputRow>, rowId: string, p: RowPatch, j: int)
    requires 0 <= j < |rows| && rows[j].id == rowId
    requires forall k :: 0 <= k < |rows| && k != j ==> rows[k].id != rowId
    ensures Sum(UpdateRows(rows, rowId, p), ActualOf) ==
            Sum(rows, ActualOf) - rows[j].actualSalesAmt + ApplyRowPatch(rows[j], p).actualSalesAmt
  {
    var n := |rows| - 1;
    var init := rows[..n];
    assert UpdateRows(rows, rowId, p)[..n] == UpdateRows(init, rowId, p);
    if j == n {
      UpdateRowsNoMatch(init, rowId, p);
    } else {
      UpdateRowsTotal(init, rowId, p, j);
    }
  }

  /** Without a row of that id nothing changes. */
  lemma {:induction false} UpdateRowsNoMatch(rows: seq<SalesInputRow>, rowId: string, p: RowPatch)
    requires forall k :: 0 <= k < |rows| ==> rows[k].id != rowId
    ensures UpdateRows(rows, rowId, p) == rows
  {
  }

  // ---------------------------------------------------------------- scenarios

  /** One edit applied to one scenario, with the update time refreshed. */
  function ApplyEdit(s: Scenario26S, e: ScenarioEdit, isoNow: string): (r: Scenario26S)
    ensures r.id == s.id && r.createdAt == s.createdAt && r.brandCode == s.brandCode && r.updatedAt == isoNow
    ensures e.Rename? ==> r == s.(name := e.name, updatedAt := isoNow)
    ensures e.EditRow? ==> r == s.(salesInputs := UpdateRows(s.salesInputs, e.rowId, e.patch), updatedAt := isoNow)
    ensures e.ReplaceInputs? ==> r == s.(salesInputs := e.inputs, updatedAt := isoNow)
    ensures e.EditCosts? ==>
      (r.name == s.name && r.salesInputs == s.salesInputs &&
       r.orderAmount == e.costs.orderAmount.GetOr(s.orderAmount) &&
       r.targetMU == e.costs.targetMU.GetOr(s.targetMU) &&
       r.adExpense == e.costs.adExpense.GetOr(s.adExpense) &&
       r.headcount == e.costs.headcount.GetOr(s.headcount) &&
       r.hrCostPerPerson == e.costs.hrCostPerPerson.GetOr(s.hrCostPerPerson))
  {
    match e
    case Rename(name) => s.(name := name, updatedAt := isoNow)
    case EditRow(rowId, patch) => s.(salesInputs := UpdateRows(s.salesInputs, rowId, patch), updatedAt := isoNow)
    case ReplaceInputs(inputs) => s.(salesInputs := inputs, updatedAt := isoNow)
    case EditCosts(c) =>
      s.(orderAmount := c.orderAmount.GetOr(s.orderAmount), targetMU := c.targetMU.GetOr(s.targetMU),
         adExpense := c.adExpense.GetOr(s.adExpense), headcount := c.headcount.GetOr(s.headcount),
         hrCostPerPerson := c.hrCostPerPerson.GetOr(s.hrCostPerPerson), updatedAt := isoNow)
  }

  /** The list after editing every scenario whose id is `id`; the others stay as they are. */
  function EditMatching(list: seq<Scenario26S>, id: string, e: ScenarioEdit, isoNow: string): (r: seq<Scenario26S>)
    ensures |r| == |list|
    ensures forall k :: 0 <= k < |list| ==>
      r[k] == (if list[k].id == id then ApplyEdit(list[k], e, isoNow) else list[k])
  {
    if list == [] then []
    else
      var last := list[|list| - 1];
      EditMatching(list[..|list| - 1], id, e, isoNow) + [if last.id == id then ApplyEdit(last, e, isoNow) else last]
  }

  /** An edit keeps the ids, so the edited list finds the same scenarios by id. */
  lemma EditKeepsFind(list: seq<Scenario26S>, id: string, e: ScenarioEdit, isoNow: string, x: string)
    ensures FindById(EditMatching(list, id, e, isoNow), x).Some? <==> FindById(list, x).Some?
    ensures FindById(list, x).Some? && x == id ==>
      FindById(EditMatching(list, id, e, isoNow), x).value == ApplyEdit(FindById(list, x).value, e, isoNow)
  {
    var r := EditMatching(list, id, e, isoNow);
    var i, i' := FindScenario(list, x), FindScenario(r, x);
    if i.Some? {
      assert r[i.value].id == x;
      assert i'.Some? && i'.value <= i.value;
      assert list[i'.value].id == x;
    }
    if i'.Some? {
      assert list[i'.value].id == x;
    }
  }

  function IdOf(s: Scenario26S): string { s.id }

  /** Index of the first scenario with id `id`. */
  function FindScenario(list: seq<Scenario26S>, id: string): (r: Option<nat>)
    ensures r.Some? ==> r.value < |list| && list[r.value].id == id
    ensures r.Some? ==> forall j :: 0 <= j < r.value ==> list[j].id != id
    ensures r.None? ==> forall j :: 0 <= j < |list| ==> list[j].id != id
  {
    FindIndex(list, (s: Scenario26S) => s.id == id)
  }

  /** `list.find(s => s.id === id)` */
  function FindById(list: seq<Scenario26S>, id: string): (r: Option<Scenario26S>)
    ensures r.Some? ==> r.value in list && r.value.id == id
    ensures r.None? <==> forall j :: 0 <= j < |list| ==> list[j].id != id
  {
    match FindScenario(list, id)
    case Some(i) => Some(list[i])
    case None => None
  }

  /** `list.filter(s => s.id !== id)` */
  function Without(list: seq<Scenario26S>, id: string): (r: seq<Scenario26S>)
    ensures |r| <= |list|
    ensures forall k :: 0 <= k < |r| ==> r[k].id != id && r[k] in list
    ensures forall i, j :: 0 <= i < j < |r| ==>
      exists a, b :: 0 <= a < b < |list| && list[a] == r[i] && list[b] == r[j]
  {
    var keep := (s: Scenario26S) => s.id != id;
    var r := Filter(list, keep);
    assert forall i, j :: 0 <= i < j < |r| ==>
      exists a, b :: 0 <= a < b < |list| && list[a] == r[i] && list[b] == r[j] by {
      forall i, j | 0 <= i < j < |r|
        ensures exists a, b :: 0 <= a < b < |list| && list[a] == r[i] && list[b] == r[j]
      {
        var a, b := FilterOrder(list, keep, i, j);
      }
    }
    r
  }

  /** Deleting keeps every scenario with another id. */
  lemma WithoutKeeps(list: seq<Scenario26S>, id: string, s: Scenario26S)
    requires s in list && s.id != id
    ensures s in Without(list, id)
  {
    FilterKeeps(list, (s: Scenario26S) => s.id != id, s);
  }

  /**
   * The active id after deleting `deleted`: unchanged unless it was the deleted one; then the id of
   * the first remaining scenario, or null when none remains or that id is empty.
   */
  function ActiveAfterDelete(remaining: seq<Scenario26S>, activeId: Option<string>, deleted: string): (r: Option<string>)
    ensures activeId != Some(deleted) ==> r == activeId
    ensures activeId == Some(deleted) && remaining != [] && remaining[0].id != "" ==> r == Some(remaining[0].id)
    ensures activeId == Some(deleted) && (remaining == [] || remaining[0].id == "") ==> r == None
  {
    if activeId == Some(deleted) then
      if remaining != [] && remaining[0].id != "" then Some(remaining[0].id) else None
    else activeId
  }

  /** An active id that names a scenario still names one after a deletion. */
  lemma ActiveAfterDeleteExists(list: seq<Scenario26S>, activeId: Option<string>, deleted: string)
    requires activeId.Some? ==> FindById(list, activeId.value).Some?
    ensures var r := ActiveAfterDelete(Without(list, deleted), activeId, deleted);
      r.Some? ==> FindById(Without(list, deleted), r.value).Some?
  {
    var rest := Without(list, deleted);
    if activeId.Some? && activeId.value != deleted {
      var s := FindById(list, activeId.value).value;
      WithoutKeeps(list, deleted, s);
      assert FindById(rest, activeId.value).Some? by {
        var k :| 0 <= k < |rest| && rest[k] == s;
        assert rest[k].id == activeId.value;
      }
    } else if activeId.Some? && rest != [] && rest[0].id != "" {
      assert rest[0].id == rest[0].id;
    }
  }

  /** The id of the `idx`-th row of a copy made at time `now`. */
  function CopyRowId(now: nat, idx: nat): string {
    "row-" + Dec(now) + "-" + Dec(idx)
  }

  /** A copy of a scenario with a new id, a marked name, fresh timestamps and new row ids. */
  function Duplicate(original: Scenario26S, now: nat, isoNow: string): (d: Scenario26S)
    ensures d.id == "scenario-" + Dec(now) && d.name == original.name + COPY_SUFFIX
    ensures d.createdAt == isoNow && d.updatedAt == isoNow
    ensures d.brandCode == original.brandCode && d.orderAmount == original.orderAmount
    ensures d.targetMU == original.targetMU && d.adExpense == original.adExpense
    ensures d.headcount == original.headcount && d.hrCostPerPerson == original.hrCostPerPerson
    ensures |d.salesInputs| == |original.salesInputs|
    ensures forall k :: 0 <= k < |d.salesInputs| ==>
      d.salesInputs[k] == original.salesInputs[k].(id := CopyRowId(now, k))
  {
    original.(
      id := "scenario-" + Dec(now),
      name := original.name + COPY_SUFFIX,
      createdAt := isoNow,
      updatedAt := isoNow,
      salesInputs := seq(|original.salesInputs|, k requires 0 <= k < |original.salesInputs| =>
        original.salesInputs[k].(id := CopyRowId(now, k))))
  }

  /** The row ids of a copy are pairwise distinct, whatever the ids of the original. */
  lemma DuplicateRowIdsDistinct(original: Scenario26S, now: nat, isoNow: string, i: nat, j: nat)
    requires i < j < |original.salesInputs|
    ensures Duplicate(original, now, isoNow).salesInputs[i].id != Duplicate(original, now, isoNow).salesInputs[j].id
  {
    var p := "row-" + Dec(now) + "-";
    var a, b := CopyRowId(now, i), CopyRowId(now, j);
    if a == b {
      assert a[|p|..] == Dec(i) && b[|p|..] == Dec(j);
      DecInjective(i, j);
    }
  }

  /** Rows that differ only in their ids have the same channel sums. */
  lemma {:induction false} SameFiguresSameSums(a: seq<SalesInputRow>, b: seq<SalesInputRow>, key: SalesInputRow -> string, k: string)
    requires |a| == |b|
    requires forall i :: 0 <= i < |a| ==> b[i] == a[i].(id := b[i].id)
    requires forall i :: 0 <= i < |a| ==> key(a[i]) == key(b[i])
    ensures Sum(Having(a, key, k), ActualOf) == Sum(Having(b, key, k), ActualOf)
    ensures Sum(a, ActualOf) == Sum(b, ActualOf)
  {
    if a != [] {
      var n := |a| - 1;
      SameFiguresSameSums(a[..n], b[..n], key, k);
      assert ActualOf(a[n]) == ActualOf(b[n]) && key(a[n]) == key(b[n]);
      assert Having(a, key, k) == Having(a[..n], key, k) + (if key(a[n]) == k then [a[n]] else []);
      assert Having(b, key, k) == Having(b[..n], key, k) + (if key(b[n]) == k then [b[n]] else []);
      SumAppend(Having(a[..n], key, k), if key(a[n]) == k then [a[n]] else [], ActualOf);
      SumAppend(Having(b[..n], key, k), if key(b[n]) == k then [b[n]] else [], ActualOf);
    }
  }

  /** A copy has the same total actual sales as its original. */
  lemma DuplicateSameTotal(original: Scenario26S, now: nat, isoNow: string)
    ensures TotalSales(Duplicate(original, now, isoNow)) == TotalSales(original)
  {
    var d := Duplicate(original, now, isoNow);
    SameFiguresSameSums(original.salesInputs, d.salesInputs, ChannelOfRow, "");
  }

  // ---------------------------------------------------------------- summaries

  /** Sum of actual sales over all rows of a scenario. */
  function TotalSales(s: Scenario26S): real {
    Sum(s.salesInputs, ActualOf)
  }

  function ChannelSummaryOf(rows: seq<SalesInputRow>, ch: CodeName, sales25S: real): (r: ChannelSummary)
    ensures r.channelCode == ch.code && r.channelName == ch.name && r.sales25S == sales25S
    ensures r.sales26S == Sum(Having(rows, ChannelOfRow, ch.code), ActualOf)
    ensures r.change == r.sales26S - sales25S
    ensures r.changeRate == (if sales25S > 0.0 then (r.sales26S - sales25S) / sales25S * 100.0 else 0.0)
  {
    var s26 := Sum(Having(rows, ChannelOfRow, ch.code), ActualOf);
    ChannelSummary(ch.code, ch.name, sales25S, s26, s26 - sales25S,
                   if sales25S > 0.0 then (s26 - sales25S) / sales25S * 100.0 else 0.0)
  }

  /** One summary per channel of `chans`, in that order. */
  function ChannelSummaries(rows: seq<SalesInputRow>, chans: seq<CodeName>, sales25S: real): (r: seq<ChannelSummary>)
    ensures |r| == |chans|
    ensures forall i :: 0 <= i < |chans| ==> r[i] == ChannelSummaryOf(rows, chans[i], sales25S)
  {
    if chans == [] then []
    else ChannelSummaries(rows, chans[..|chans| - 1], sales25S) + [ChannelSummaryOf(rows, chans[|chans| - 1], sales25S)]
  }

  function SeasonSummaries(rows: seq<SalesInputRow>, seasons: seq<string>): (r: seq<SeasonSummary>)
    ensures |r| == |seasons|
    ensures forall i :: 0 <= i < |seasons| ==>
      var s26 := Sum(Having(rows, SeasonOfRow, seasons[i]), ActualOf);
      r[i] == SeasonSummary(seasons[i], seasons[i], 0.0, s26, s26, 0.0)
  {
    if seasons == [] then []
    else
      var s := seasons[|seasons| - 1];
      var s26 := Sum(Having(rows, SeasonOfRow, s), ActualOf);
      SeasonSummaries(rows, seasons[..|seasons| - 1]) + [SeasonSummary(s, s, 0.0, s26, s26, 0.0)]
  }

  function CategorySummaries(rows: seq<SalesInputRow>, cats: seq<CodeName>): (r: seq<ItemCategorySummary>)
    ensures |r| == |cats|
    ensures forall i :: 0 <= i < |cats| ==>
      var s26 := Sum(Having(rows, CategoryOfRow, cats[i].code), ActualOf);
      r[i] == ItemCategorySummary(cats[i].code, cats[i].name, 0.0, s26, s26, 0.0)
  {
    if cats == [] then []
    else
      var c := cats[|cats| - 1];
      var s26 := Sum(Having(rows, CategoryOfRow, c.code), ActualOf);
      CategorySummaries(rows, cats[..|cats| - 1]) + [ItemCategorySummary(c.code, c.name, 0.0, s26, s26, 0.0)]
  }

  function ChannelSales26S(s: ChannelSummary): real { s.sales26S }
  function SeasonSales26S(s: SeasonSummary): real { s.sales26S }
  function CategorySales26S(s: ItemCategorySummary): real { s.sales26S }

  lemma {:induction false} ChannelSummariesSumOver(rows: seq<SalesInputRow>, chans: seq<CodeName>, sales25S: real)
    ensures Sum(ChannelSummaries(rows, chans, sales25S), ChannelSales26S) == SumOver(rows, ChannelOfRow, Codes(chans), ActualOf)
  {
    if chans != [] {
      var init := chans[..|chans| - 1];
      ChannelSummariesSumOver(rows, init, sales25S);
      assert ChannelSummaries(rows, chans, sales25S)[..|chans| - 1] == ChannelSummaries(rows, init, sales25S);
      assert Codes(chans)[..|chans| - 1] == Codes(init);
    }
  }

  lemma {:induction false} SeasonSummariesSumOver(rows: seq<SalesInputRow>, seasons: seq<string>)
    ensures Sum(SeasonSummaries(rows, seasons), SeasonSales26S) == SumOver(rows, SeasonOfRow, seasons, ActualOf)
  {
    if seasons != [] {
      var init := seasons[..|seasons| - 1];
      SeasonSummariesSumOver(rows, init);
      assert SeasonSummaries(rows, seasons)[..|seasons| - 1] == SeasonSummaries(rows, init);
    }
  }

  lemma {:induction false} CategorySummariesSumOver(rows: seq<SalesInputRow>, cats: seq<CodeName>)
    ensures Sum(CategorySummaries(rows, cats), CategorySales26S) == SumOver(rows, CategoryOfRow, Codes(cats), ActualOf)
  {
    if cats != [] {
      var init := cats[..|cats| - 1];
      CategorySummariesSumOver(rows, init);
      assert CategorySummaries(rows, cats)[..|cats| - 1] == CategorySummaries(rows, init);
      assert Codes(cats)[..|cats| - 1] == Codes(init);
    }
  }

  lemma ChannelCodesDistinct()
    ensures Distinct(Codes(CHANNELS))
  {
    ChannelTableDistinct();
  }

  lemma CategoryCodesDistinct()
    ensures Distinct(Codes(ITEM_CATEGORIES))
  {
    CategoryTableDistinct();
  }

  /** When every row has a listed channel, the channel summaries add up to the scenario total. */
  lemma ChannelSummaryTotal(s: Scenario26S, sales25S: real)
    requires forall k :: 0 <= k < |s.salesInputs| ==> s.salesInputs[k].channelCode in Codes(CHANNELS)
    ensures Sum(ChannelSummaries(s.salesInputs, CHANNELS, sales25S), ChannelSales26S) == TotalSales(s)
  {
    ChannelSummariesSumOver(s.salesInputs, CHANNELS, sales25S);
    ChannelCodesDistinct();
    SumOverPartition(s.salesInputs, ChannelOfRow, Codes(CHANNELS), ActualOf);
  }

  /** When every row has a listed season, the season summaries add up to the scenario total. */
  lemma SeasonSummaryTotal(s: Scenario26S)
    requires forall k :: 0 <= k < |s.salesInputs| ==> s.salesInputs[k].seasonCode in SEASONS
    ensures Sum(SeasonSummaries(s.salesInputs, SEASONS), SeasonSales26S) == TotalSales(s)
  {
    SeasonSummariesSumOver(s.salesInputs, SEASONS);
    SeasonsDistinct();
    SumOverPartition(s.salesInputs, SeasonOfRow, SEASONS, ActualOf);
  }

  /** When every row has a listed category, the category summaries add up to the scenario total. */
  lemma CategorySummaryTotal(s: Scenario26S)
    requires forall k :: 0 <= k < |s.salesInputs| ==> s.salesInputs[k].categoryCode in Codes(ITEM_CATEGORIES)
    ensures Sum(CategorySummaries(s.salesInputs, ITEM_CATEGORIES), CategorySales26S) == TotalSales(s)
  {
    CategorySummariesSumOver(s.salesInputs, ITEM_CATEGORIES);
    CategoryCodesDistinct();
    SumOverPartition(s.salesInputs, CategoryOfRow, Codes(ITEM_CATEGORIES), ActualOf);
  }

  // ---------------------------------------------------------------- the store

  class Plan26SStore {
    var scenarios: map<string, seq<Scenario26S>>
    var activeScenarioId: map<string, Option<string>>
    var season25SData: map<string, real>

    constructor()
      ensures scenarios == map[] && activeScenarioId == map[] && season25SData == map[]
    {
      scenarios := map[];
      activeScenarioId := map[];
      season25SData := map[];
    }

    /** `scenarios[brandCode] || []` */
    function GetScenarios(brandCode: string): (r: seq<Scenario26S>)
      reads this
      ensures brandCode in scenarios ==> r == scenarios[brandCode]
      ensures brandCode !in scenarios ==> r == []
    {
      if brandCode in scenarios then scenarios[brandCode] else []
    }

    /** The brand's active id names one of its scenarios, or there is none. */
    ghost predicate ActiveExists(brandCode: string)
      reads this
    {
      brandCode in activeScenarioId && activeScenarioId[brandCode].Some? ==>
        FindById(GetScenarios(brandCode), activeScenarioId[brandCode].value).Some?
    }

    /**
     * Append a new empty scenario, named `name` when one is given, and make it active.
     * Returns its id.
     */
    method CreateScenario(brandCode: string, name: Option<string>, now: nat, isoNow: string) returns (id: string)
      modifies this
      ensures id == "scenario-" + Dec(now)
      ensures var list := GetScenarios(brandCode);
        |list| == |old(GetScenarios(brandCode))| + 1 &&
        list[..|list| - 1] == old(GetScenarios(brandCode)) &&
        FreshScenario(list[|list| - 1], brandCode, now, isoNow) &&
        list[|list| - 1].name == (if name.Some? && name.value != "" then name.value else NEW_SCENARIO_NAME)
      ensures scenarios == old(scenarios)[brandCode := GetScenarios(brandCode)]
      ensures activeScenarioId == old(activeScenarioId)[brandCode := Some(id)]
      ensures season25SData == old(season25SData)
      ensures ActiveExists(brandCode)
    {
      var sc := CreateEmptyScenario(brandCode, now, isoNow);
      if name.Some? && name.value != "" {
        sc := sc.(name := name.value);
      }
      var list := GetScenarios(brandCode) + [sc];
      scenarios := scenarios[brandCode := list];
      activeScenarioId := activeScenarioId[brandCode := Some(sc.id)];
      id := sc.id;
      assert list[..|list| - 1] == old(GetScenarios(brandCode));
      assert FindScenario(list, id).Some? by {
        assert list[|list| - 1].id == id;
      }
    }

    /**
     * Remove every scenario with that id. An active id equal to it moves to the first remaining
     * scenario, or to null; any other active id stays. A brand without an entry gets one, as the
     * `undefined` the source writes there.
     */
    method DeleteScenario(brandCode: string, scenarioId: string)
      modifies this
      ensures var remaining := Without(old(GetScenarios(brandCode)), scenarioId);
        scenarios == old(scenarios)[brandCode := remaining] &&
        (brandCode in old(activeScenarioId) ==>
          activeScenarioId == old(activeScenarioId)[brandCode :=
            ActiveAfterDelete(remaining, old(activeScenarioId[brandCode]), scenarioId)]) &&
        (brandCode !in old(activeScenarioId) ==> activeScenarioId == old(activeScenarioId)[brandCode := None])
      ensures season25SData == old(season25SData)
      ensures old(ActiveExists(brandCode)) ==> ActiveExists(brandCode)
    {
      var remaining := Without(GetScenarios(brandCode), scenarioId);
      if brandCode in activeScenarioId {
        var a := activeScenarioId[brandCode];
        ActiveAfterDeleteExists(GetScenarios(brandCode), if ActiveExists(brandCode) then a else None, scenarioId);
        activeScenarioId := activeScenarioId[brandCode := ActiveAfterDelete(remaining, a, scenarioId)];
      } else {
        activeScenarioId := activeScenarioId[brandCode := None];
      }
      scenarios := scenarios[brandCode := remaining];
    }

    /**
     * Append a copy of the first scenario with that id and make it active; returns the copy's id,
     * or "" with nothing changed when there is no such scenario.
     */
    method DuplicateScenario(brandCode: string, scenarioId: string, now: nat, isoNow: string) returns (newId: string)
      modifies this
      ensures FindById(old(GetScenarios(brandCode)), scenarioId).None? ==>
        newId == "" && scenarios == old(scenarios) && activeScenarioId == old(activeScenarioId)
      ensures FindById(old(GetScenarios(brandCode)), scenarioId).Some? ==>
        newId == "scenario-" + Dec(now) &&
        scenarios == old(scenarios)[brandCode := old(GetScenarios(brandCode)) +
          [Duplicate(FindById(old(GetScenarios(brandCode)), scenarioId).value, now, isoNow)]] &&
        activeScenarioId == old(activeScenarioId)[brandCode := Some(newId)] &&
        ActiveExists(brandCode)
      ensures season25SData == old(season25SData)
    {
      var original := FindById(GetScenarios(brandCode), scenarioId);
      if original.None? {
        return "";
      }
      var copy := Duplicate(original.value, now, isoNow);
      var list := GetScenarios(brandCode) + [copy];
      scenarios := scenarios[brandCode := list];
      newId := copy.id;
      activeScenarioId := activeScenarioId[brandCode := Some(newId)];
      assert FindScenario(list, newId).Some? by {
        assert list[|list| - 1].id == newId;
      }
    }

    method SetActiveScenario(brandCode: string, scenarioId: Option<string>)
      modifies this
      ensures activeScenarioId == old(activeScenarioId)[brandCode := scenarioId]
      ensures scenarios == old(scenarios) && season25SData == old(season25SData)
    {
      activeScenarioId := activeScenarioId[brandCode := scenarioId];
    }

    /** Apply one edit to the brand's scenarios with that id; nothing else changes. */
    method Edit(brandCode: string, scenarioId: string, e: ScenarioEdit, isoNow: string)
      modifies this
      ensures scenarios == old(scenarios)[brandCode := EditMatching(old(GetScenarios(brandCode)), scenarioId, e, isoNow)]
      ensures activeScenarioId == old(activeScenarioId) && season25SData == old(season25SData)
    {
      scenarios := scenarios[brandCode := EditMatching(GetScenarios(brandCode), scenarioId, e, isoNow)];
    }

    method UpdateScenarioName(brandCode: string, scenarioId: string, name: string, isoNow: string)
      modifies this
      ensures scenarios == old(scenarios)[brandCode := EditMatching(old(GetScenarios(brandCode)), scenarioId, Rename(name), isoNow)]
      ensures activeScenarioId == old(activeScenarioId) && season25SData == old(season25SData)
    {
      Edit(brandCode, scenarioId, Rename(name), isoNow);
    }

    /** Patch the row `rowId` of the scenario `scenarioId`; every other row, scenario and brand stays. */
    method UpdateSalesInput(brandCode: string, scenarioId: string, rowId: string, updates: RowPatch, isoNow: string)
      modifies this
      ensures scenarios == old(scenarios)[brandCode :=
        EditMatching(old(GetScenarios(brandCode)), scenarioId, EditRow(rowId, updates), isoNow)]
      ensures activeScenarioId == old(activeScenarioId) && season25SData == old(season25SData)
    {
      Edit(brandCode, scenarioId, EditRow(rowId, updates), isoNow);
    }

    method BulkUpdateSalesInputs(brandCode: string, scenarioId: string, inputs: seq<SalesInputRow>, isoNow: string)
      modifies this
      ensures scenarios == old(scenarios)[brandCode :=
        EditMatching(old(GetScenarios(brandCode)), scenarioId, ReplaceInputs(inputs), isoNow)]
      ensures activeScenarioId == old(activeScenarioId) && season25SData == old(season25SData)
    {
      Edit(brandCode, scenarioId, ReplaceInputs(inputs), isoNow);
    }

    method UpdateCostPlan(brandCode: string, scenarioId: string, updates: CostPatch, isoNow: string)
      modifies this
      ensures scenarios == old(scenarios)[brandCode :=
        EditMatching(old(GetScenarios(brandCode)), scenarioId, EditCosts(updates), isoNow)]
      ensures activeScenarioId == old(activeScenarioId) && season25SData == old(season25SData)
    {
      Edit(brandCode, scenarioId, EditCosts(updates), isoNow);
    }

    method SetSeason25SData(brandCode: string, totalActualSales: real)
      modifies this
      ensures season25SData == old(season25SData)[brandCode := totalActualSales]
      ensures scenarios == old(scenarios) && activeScenarioId == old(activeScenarioId)
    {
      season25SData := season25SData[brandCode := totalActualSales];
    }

    /** The scenario the brand's active id names, if the id is set, not empty and still listed. */
    function GetActiveScenario(brandCode: string): (r: Option<Scenario26S>)
      reads this
      ensures (brandCode !in activeScenarioId || activeScenarioId[brandCode] == None ||
               activeScenarioId[brandCode] == Some("")) ==> r == None
      ensures r.Some? ==> r.value in GetScenarios(brandCode) && activeScenarioId[brandCode] == Some(r.value.id)
      ensures brandCode in activeScenarioId && activeScenarioId[brandCode].Some? && activeScenarioId[brandCode] != Some("") ==>
        r == FindById(GetScenarios(brandCode), activeScenarioId[brandCode].value)
    {
      if brandCode !in activeScenarioId then None
      else
        match activeScenarioId[brandCode]
        case None => None
        case Some(id) => if id == "" then None else FindById(GetScenarios(brandCode), id)
    }

    /** `season25SData[brandCode] || 0` */
    function GetSeason25STotal(brandCode: string): (r: real)
      reads this
      ensures brandCode in season25SData ==> r == season25SData[brandCode]
      ensures brandCode !in season25SData ==> r == 0.0
    {
      if brandCode in season25SData then season25SData[brandCode] else 0.0
    }

    /**
     * Per channel, in table order: the scenario's actual sales in that channel against an equal
     * tenth of the brand's 25S total. Empty for an unknown scenario.
     */
    function GetChannelSummary(brandCode: string, scenarioId: string): (r: seq<ChannelSummary>)
      reads this
      ensures FindById(GetScenarios(brandCode), scenarioId).None? ==> r == []
      ensures FindById(GetScenarios(brandCode), scenarioId).Some? ==>
        var rows := FindById(GetScenarios(brandCode), scenarioId).value.salesInputs;
        |r| == |CHANNELS| &&
        forall i :: 0 <= i < |CHANNELS| ==>
          r[i].channelCode == CHANNELS[i].code && r[i].channelName == CHANNELS[i].name &&
          r[i].sales26S == Sum(Having(rows, ChannelOfRow, CHANNELS[i].code), ActualOf) &&
          r[i].sales25S == GetSeason25STotal(brandCode) / 10.0 &&
          r[i].change == r[i].sales26S - r[i].sales25S &&
          r[i].changeRate == (if r[i].sales25S > 0.0 then (r[i].sales26S - r[i].sales25S) / r[i].sales25S * 100.0 else 0.0)
    {
      match FindById(GetScenarios(brandCode), scenarioId)
      case None => []
      case Some(sc) => ChannelSummaries(sc.salesInputs, CHANNELS, GetSeason25STotal(brandCode) / (|CHANNELS| as real))
    }

    function GetSeasonSummary(brandCode: string, scenarioId: string): (r: seq<SeasonSummary>)
      reads this
      ensures FindById(GetScenarios(brandCode), scenarioId).None? ==> r == []
      ensures FindById(GetScenarios(brandCode), scenarioId).Some? ==>
        var rows := FindById(GetScenarios(brandCode), scenarioId).value.salesInputs;
        |r| == |SEASONS| &&
        forall i :: 0 <= i < |SEASONS| ==>
          var s26 := Sum(Having(rows, SeasonOfRow, SEASONS[i]), ActualOf);
          r[i] == SeasonSummary(SEASONS[i], SEASONS[i], 0.0, s26, s26, 0.0)
    {
      match FindById(GetScenarios(brandCode), scenarioId)
      case None => []
      case Some(sc) => SeasonSummaries(sc.salesInputs, SEASONS)
    }

    function GetItemCategorySummary(brandCode: string, scenarioId: string): (r: seq<ItemCategorySummary>)
      reads this
      ensures FindById(GetScenarios(brandCode), scenarioId).None? ==> r == []
      ensures FindById(GetScenarios(brandCode), scenarioId).Some? ==>
        var rows := FindById(GetScenarios(brandCode), scenarioId).value.salesInputs;
        |r| == |ITEM_CATEGORIES| &&
        forall i :: 0 <= i < |ITEM_CATEGORIES| ==>
          var s26 := Sum(Having(rows, CategoryOfRow, ITEM_CATEGORIES[i].code), ActualOf);
          r[i] == ItemCategorySummary(ITEM_CATEGORIES[i].code, ITEM_CATEGORIES[i].name, 0.0, s26, s26, 0.0)
    {
      match FindById(GetScenarios(brandCode), scenarioId)
      case None => []
      case Some(sc) => CategorySummaries(sc.salesInputs, ITEM_CATEGORIES)
    }

    /** Total actual sales of the scenario, or 0 for an unknown one. */
    function GetTotalSales26S(brandCode: string, scenarioId: string): (r: real)
      reads this
      ensures FindById(GetScenarios(brandCode), scenarioId).None? ==> r == 0.0
      ensures FindById(GetScenarios(brandCode), scenarioId).Some? ==>
        r == TotalSales(FindById(GetScenarios(brandCode), scenarioId).value)
    {
      match FindById(GetScenarios(brandCode), scenarioId)
      case None => 0.0
      case Some(sc) => TotalSales(sc)
    }
  }

  /** The total equals the sum of the per-channel figures whenever every row has a listed channel. */
  lemma TotalMatchesChannelSummary(store: Plan26SStore, brandCode: string, scenarioId: string)
    requires FindById(store.GetScenarios(brandCode), scenarioId).Some?
    requires var rows := FindById(store.GetScenarios(brandCode), scenarioId).value.salesInputs;
      forall k :: 0 <= k < |rows| ==> rows[k].channelCode in Codes(CHANNELS)
    ensures Sum(store.GetChannelSummary(brandCode, scenarioId), ChannelSales26S) == store.GetTotalSales26S(brandCode, scenarioId)
  {
    var sc := FindById(store.GetScenarios(brandCode), scenarioId).value;
    ChannelSummaryTotal(sc, store.GetSeason25STotal(brandCode) / 10.0);
  }
}
