/**
 * The simulation-scenario store: per brand, a list of saved simulation scenarios and the id of
 * the active one. Unlike the 26S plan store, deleting the active scenario leaves no scenario
 * active.
 */
module ScenarioStore {
  import opened Wrappers
  import opened JsArray

  datatype ChannelRevenue = ChannelRevenue(channel: string, channelKo: string, revenue25S: real, revenue26S: real, growthRate: real)
  datatype Revenue = Revenue(channelRevenues: seq<ChannelRevenue>, totalRevenue: real)
  datatype OrderCategory = OrderCategory(category: string, categoryKo: string, amount: real, ratio: real)
  datatype Order = Order(totalAmount: real, categories: seq<OrderCategory>)
  datatype CategoryMU = CategoryMU(category: string, categoryKo: string, mu: real)
  datatype Markup = Markup(targetMU: real, categoryMUs: seq<CategoryMU>)
  datatype AdChannel = AdChannel(channel: string, channelKo: string, amount: real, ratio: real)
  datatype AdExpense = AdExpense(totalAmount: real, channels: seq<AdChannel>)
  datatype Department = Department(dept: string, deptKo: string, headcount: real, salary: real)
  datatype Headcount = Headcount(totalHeadcount: real, avgSalary: real, departments: seq<Department>)

  datatype ScenarioData = ScenarioData(
    id: string,
    name: string,
    createdAt: string,
    revenue: Revenue,
    order: Order,
    markup: Markup,
    adExpense: AdExpense,
    headcount: Headcount)

  /** `Partial<ScenarioData>`: the top-level fields an update replaces. */
  datatype ScenarioPatch = ScenarioPatch(
    id: Option<string>,
    name: Option<string>,
    createdAt: Option<string>,
    revenue: Option<Revenue>,
    order: Option<Order>,
    markup: Option<Markup>,
    adExpense: Option<AdExpense>,
    headcount: Option<Headcount>)

  /** `{ ...s, ...data }` */
  function Merge(s: ScenarioData, data: ScenarioPatch): (r: ScenarioData)
    ensures r.id == data.id.GetOr(s.id) && r.name == data.name.GetOr(s.name)
    ensures r.createdAt == data.createdAt.GetOr(s.createdAt) && r.revenue == data.revenue.GetOr(s.revenue)
    ensures r.order == data.order.GetOr(s.order) && r.markup == data.markup.GetOr(s.markup)
    ensures r.adExpense == data.adExpense.GetOr(s.adExpense) && r.headcount == data.headcount.GetOr(s.headcount)
  {
    ScenarioData(data.id.GetOr(s.id), data.name.GetOr(s.name), data.createdAt.GetOr(s.createdAt),
                 data.revenue.GetOr(s.revenue), data.order.GetOr(s.order), data.markup.GetOr(s.markup),
                 data.adExpense.GetOr(s.adExpense), data.headcount.GetOr(s.headcount))
  }

  /** The empty patch leaves a scenario as it is, and merging the same patch twice is merging it once. */
  lemma MergeLaws(s: ScenarioData, data: ScenarioPatch)
    ensures Merge(s, ScenarioPatch(None, None, None, None, None, None, None, None)) == s
    ensures Merge(Merge(s, data), data) == Merge(s, data)
  {
  }

  /** `list.map(s => s.id === id ? { ...s, ...data } : s)` */
  function MergeMatching(list: seq<ScenarioData>, id: string, data: ScenarioPatch): (r: seq<ScenarioData>)
    ensures |r| == |list|
    ensures forall k :: 0 <= k < |list| ==> r[k] == (if list[k].id == id then Merge(list[k], data) else list[k])
  {
    if list == [] then []
    else
      var last := list[|list| - 1];
      MergeMatching(list[..|list| - 1], id, data) + [if last.id == id then Merge(last, data) else last]
  }

  /** A list without a scenario of that id is not touched by an update. */
  lemma {:induction false} MergeMatchingAbsent(list: seq<ScenarioData>, id: string, data: ScenarioPatch)
    requires forall k :: 0 <= k < |list| ==> list[k].id != id
    ensures MergeMatching(list, id, data) == list
  {
  }

  /** `list.filter(s => s.id !== id)` */
  function Without(list: seq<ScenarioData>, id: string): (r: seq<ScenarioData>)
    ensures |r| <= |list|
    ensures forall k :: 0 <= k < |r| ==> r[k].id != id && r[k] in list
    ensures forall i, j :: 0 <= i < j < |r| ==>
      exists a, b :: 0 <= a < b < |list| && list[a] == r[i] && list[b] == r[j]
  {
    var keep := (s: ScenarioData) => s.id != id;
    var r := Filter(list, keep);
    assert forall i, j :: 0 <= i < j < |r| ==>
      exists a, b :: 0 <= a < b < |list| && list[a] == r[i] && list[b] == r[j] by {
      forall i, j | 0 <= i < j < |r|
        ensures exists a, b :: 0 <= a < b < |list| && list[a] == r[i] && list[b] == r[j]
      {
        var a, b := FilterOrder(list, keep, i, j);
      }
    }
    r
  }

  /** Deleting keeps every scenario with another id, and deleting an absent id keeps the list. */
  lemma WithoutKeeps(list: seq<ScenarioData>, id: string, s: ScenarioData)
    requires s in list && s.id != id
    ensures s in Without(list, id)
    ensures (forall k :: 0 <= k < |list| ==> list[k].id != id) ==> Without(list, id) == list
  {
    FilterKeeps(list, (s: ScenarioData) => s.id != id, s);
    if forall k :: 0 <= k < |list| ==> list[k].id != id {
      FilterAll(list, (s: ScenarioData) => s.id != id);
    }
  }

  /** `list.find(s => s.id === id)` */
  function FindById(list: seq<ScenarioData>, id: string): (r: Option<ScenarioData>)
    ensures r.Some? ==> r.value in list && r.value.id == id
    ensures r.None? <==> forall j :: 0 <= j < |list| ==> list[j].id != id
    ensures r.Some? ==> exists j :: 0 <= j < |list| && list[j] == r.value && forall i :: 0 <= i < j ==> list[i].id != id
  {
    match FindIndex(list, (s: ScenarioData) => s.id == id)
    case Some(i) => Some(list[i])
    case None => None
  }

  class Scenarios {
    var scenarios: map<string, seq<ScenarioData>>
    var activeScenario: map<string, Option<string>>

    constructor()
      ensures scenarios == map[] && activeScenario == map[]
    {
      scenarios := map[];
      activeScenario := map[];
    }

    /** `scenarios[brandId] || []` */
    function GetScenarios(brandId: string): (r: seq<ScenarioData>)
      reads this
      ensures brandId in scenarios ==> r == scenarios[brandId]
      ensures brandId !in scenarios ==> r == []
    {
      if brandId in scenarios then scenarios[brandId] else []
    }

    /** Append a scenario to the brand's list; no active id changes. */
    method AddScenario(brandId: string, scenario: ScenarioData)
      modifies this
      ensures scenarios == old(scenarios)[brandId := old(GetScenarios(brandId)) + [scenario]]
      ensures activeScenario == old(activeScenario)
    {
      scenarios := scenarios[brandId := GetScenarios(brandId) + [scenario]];
    }

    /** Merge `data` into the brand's scenarios with that id; length and order stay. */
    method UpdateScenario(brandId: string, scenarioId: string, data: ScenarioPatch)
      modifies this
      ensures scenarios == old(scenarios)[brandId := MergeMatching(old(GetScenarios(brandId)), scenarioId, data)]
      ensures |GetScenarios(brandId)| == |old(GetScenarios(brandId))|
      ensures activeScenario == old(activeScenario)
    {
      scenarios := scenarios[brandId := MergeMatching(GetScenarios(brandId), scenarioId, data)];
    }

    /**
     * Remove every scenario with that id; the active id becomes null exactly when it was that id.
     * The brand's entry is written even when it was absent, as the `undefined` the source reads there.
     */
    method DeleteScenario(brandId: string, scenarioId: string)
      modifies this
      ensures scenarios == old(scenarios)[brandId := Without(old(GetScenarios(brandId)), scenarioId)]
      ensures brandId in old(activeScenario) && old(activeScenario[brandId]) == Some(scenarioId) ==>
        activeScenario == old(activeScenario)[brandId := None]
      ensures brandId in old(activeScenario) && old(activeScenario[brandId]) != Some(scenarioId) ==>
        activeScenario == old(activeScenario)
      ensures brandId !in old(activeScenario) ==> activeScenario == old(activeScenario)[brandId := None]
    {
      scenarios := scenarios[brandId := Without(GetScenarios(brandId), scenarioId)];
      var activeId := if brandId in activeScenario then activeScenario[brandId] else None;
      activeScenario := activeScenario[brandId := if activeId == Some(scenarioId) then None else activeId];
    }

    /** Change only the given brand's active id. */
    method SetActiveScenario(brandId: string, scenarioId: Option<string>)
      modifies this
      ensures activeScenario == old(activeScenario)[brandId := scenarioId]
      ensures scenarios == old(scenarios)
    {
      activeScenario := activeScenario[brandId := scenarioId];
    }

    /** The scenario the active id names; null when no id is set, it is empty or it is no longer listed. */
    function GetActiveScenario(brandId: string): (r: Option<ScenarioData>)
      reads this
      ensures (brandId !in activeScenario || activeScenario[brandId] == None ||
               activeScenario[brandId] == Some("")) ==> r == None
      ensures r.Some? ==> r.value in GetScenarios(brandId) && activeScenario[brandId] == Some(r.value.id)
      ensures brandId in activeScenario && activeScenario[brandId].Some? && activeScenario[brandId] != Some("") ==>
        (r.None? <==> forall j :: 0 <= j < |GetScenarios(brandId)| ==> GetScenarios(brandId)[j].id != activeScenario[brandId].value)
    {
      if brandId !in activeScenario then None
      else
        match activeScenario[brandId]
        case None => None
        case Some(id) => if id == "" then None else FindById(GetScenarios(brandId), id)
    }
  }

  /** After deleting the active scenario, no scenario of that brand is active. */
  lemma DeleteActiveLeavesNone(list: seq<ScenarioData>, id: string)
    ensures FindById(Without(list, id), id).None?
  {
  }
}
