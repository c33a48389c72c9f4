/**
 * The 26S sales-input table: the totals of a group of rows, the set of expanded groups, the
 * three-way filter with its channel / season / category ordering, the grouping of the filtered
 * rows, the label of a row inside a group and the totals of the 25S baseline.
 */
module SalesInputTable {
  import opened Wrappers
  import opened JsText
  import opened JsArray
  import opened StableSort
  import opened Plan26S

  /** The grouping chosen in the table: 'channel', 'season', 'category' or 'none'. */
  datatype GroupBy = ByChannel | BySeason | ByCategory | Ungrouped

  // ---------------------------------------------------------------- group totals

  /** The accumulator of `calculateGroupTotal`. */
  datatype GroupTotal = GroupTotal(salesTagAmt: real, actualSalesAmt: real)

  function TagOf(): SalesInputRow -> real {
    (i: SalesInputRow) => i.salesTagAmt
  }

  function ActualOf(): SalesInputRow -> real {
    (i: SalesInputRow) => i.actualSalesAmt
  }

  /**
   * `items.reduce((acc, item) => ({ tag: acc.tag + item.tag, actual: acc.actual + item.actual }), zero)`:
   * the pair accumulator ends with the tag-price total and the actual-sales total of the rows.
   */
  function CalculateGroupTotal(items: seq<SalesInputRow>): (r: GroupTotal)
    ensures r == GroupTotal(Sum(items, TagOf()), Sum(items, ActualOf()))
  {
    if items == [] then GroupTotal(0.0, 0.0)
    else
      var acc := CalculateGroupTotal(items[..|items| - 1]);
      var item := items[|items| - 1];
      GroupTotal(acc.salesTagAmt + item.salesTagAmt, acc.actualSalesAmt + item.actualSalesAmt)
  }

  /** The totals of two runs of rows add up to the totals of both together. */
  lemma GroupTotalAppend(a: seq<SalesInputRow>, b: seq<SalesInputRow>)
    ensures CalculateGroupTotal(a + b).salesTagAmt == CalculateGroupTotal(a).salesTagAmt + CalculateGroupTotal(b).salesTagAmt
    ensures CalculateGroupTotal(a + b).actualSalesAmt == CalculateGroupTotal(a).actualSalesAmt + CalculateGroupTotal(b).actualSalesAmt
  {
    SumAppend(a, b, TagOf());
    SumAppend(a, b, ActualOf());
  }

  // ---------------------------------------------------------------- expanded groups

  /** `next` is `prev` with the membership of `groupKey` flipped and every other key as it was. */
  ghost predicate Flipped(prev: set<string>, next: set<string>, groupKey: string) {
    (groupKey in next <==> groupKey !in prev) &&
    forall k :: k != groupKey ==> (k in next <==> k in prev)
  }

  /** The state update of `toggleGroup`: copy the set, then delete the key if present, else add it. */
  method ToggleGroup(prev: set<string>, groupKey: string) returns (next: set<string>)
    ensures Flipped(prev, next, groupKey)
  {
    next := prev;
    if groupKey in next {
      next := next - {groupKey};
    } else {
      next := next + {groupKey};
    }
  }

  /** The toggle's result is determined: two sets that both flip `groupKey` in `prev` are equal. */
  lemma FlippedUnique(prev: set<string>, a: set<string>, b: set<string>, groupKey: string)
    requires Flipped(prev, a, groupKey) && Flipped(prev, b, groupKey)
    ensures a == b
  {
    assert forall k :: k in a <==> k in b;
  }

  /** Toggling the same key twice gives back the set it started from. */
  lemma ToggleTwiceRestores(prev: set<string>, mid: set<string>, next: set<string>, groupKey: string)
    requires Flipped(prev, mid, groupKey) && Flipped(mid, next, groupKey)
    ensures next == prev
  {
    assert forall k :: k in next <==> k in prev;
  }

  /** The keys of a sequence as a set. */
  function KeySet(keys: seq<string>): set<string> {
    set k | k in keys
  }

  /** The keys `expandAll` puts in the set for a grouping. */
  function ExpandedKeys(groupBy: GroupBy): set<string> {
    match groupBy
    case ByChannel => KeySet(Codes(CHANNELS))
    case BySeason => KeySet(SEASONS)
    case ByCategory => KeySet(Codes(ITEM_CATEGORIES))
    case Ungrouped => {}
  }

  /** Adds each key of `keys` to the set, as `keys.forEach(k => allKeys.add(k))` does. */
  method AddEach(allKeys0: set<string>, keys: seq<string>) returns (allKeys: set<string>)
    ensures allKeys == allKeys0 + KeySet(keys)
  {
    allKeys := allKeys0;
    for i := 0 to |keys|
      invariant allKeys == allKeys0 + KeySet(keys[..i])
    {
      assert keys[..i + 1] == keys[..i] + [keys[i]];
      allKeys := allKeys + {keys[i]};
    }
    assert keys[..|keys|] == keys;
  }

  /** `expandAll`: the set of every group key of the current grouping, empty for 'none'. */
  method ExpandAll(groupBy: GroupBy) returns (allKeys: set<string>)
    ensures allKeys == ExpandedKeys(groupBy)
  {
    allKeys := {};
    if groupBy == ByChannel {
      allKeys := AddEach(allKeys, Codes(CHANNELS));
    } else if groupBy == BySeason {
      allKeys := AddEach(allKeys, SEASONS);
    } else if groupBy == ByCategory {
      allKeys := AddEach(allKeys, Codes(ITEM_CATEGORIES));
    }
  }

  /** A group is shown open when its key is in the set or when the table is not grouped. */
  predicate IsExpanded(expandedGroups: set<string>, groupBy: GroupBy, key: string) {
    key in expandedGroups || groupBy == Ungrouped
  }

  // ---------------------------------------------------------------- filter and order

  /** The value of a filter that lets every row through. */
  const ALL: string := "all"

  /** The three filter values of the table. */
  datatype Filters = Filters(channel: string, season: string, category: string)

  /** A row passes when it matches every filter that is not 'all'. */
  predicate Passes(input: SalesInputRow, filters: Filters) {
    (filters.channel == ALL || input.channelCode == filters.channel) &&
    (filters.season == ALL || input.seasonCode == filters.season) &&
    (filters.category == ALL || input.categoryCode == filters.category)
  }

  function PassesFilters(filters: Filters): SalesInputRow -> bool {
    (input: SalesInputRow) => Passes(input, filters)
  }

  /**
   * `keys.reduce((acc, k, idx) => ({ ...acc, [k]: idx }), {})`: each key mapped to its index,
   * a later occurrence overwriting an earlier one.
   */
  function IndexMap(keys: seq<string>): (m: map<string, nat>)
    ensures forall k :: k in m <==> k in keys
    ensures forall k :: k in m ==> m[k] < |keys| && keys[m[k]] == k
  {
    if keys == [] then map[] else IndexMap(keys[..|keys| - 1])[keys[|keys| - 1] := |keys| - 1]
  }

  /** The rank the comparator gives a code that its order map does not hold. */
  const UNKNOWN_RANK := 999

  const CHANNEL_ORDER: map<string, nat> := IndexMap(Codes(CHANNELS))
  const SEASON_ORDER: map<string, nat> := IndexMap(SEASONS)
  const CATEGORY_ORDER: map<string, nat> := IndexMap(Codes(ITEM_CATEGORIES))

  /** `order[code] ?? 999` */
  function Rank(order: map<string, nat>, code: string): int {
    if code in order then order[code] else UNKNOWN_RANK
  }

  /** The comparator of the table: channel rank, then season rank, then category rank. */
  function Compare(a: SalesInputRow, b: SalesInputRow): int {
    var ch := Rank(CHANNEL_ORDER, a.channelCode) - Rank(CHANNEL_ORDER, b.channelCode);
    if ch != 0 then ch
    else
      var se := Rank(SEASON_ORDER, a.seasonCode) - Rank(SEASON_ORDER, b.seasonCode);
      if se != 0 then se
      else Rank(CATEGORY_ORDER, a.categoryCode) - Rank(CATEGORY_ORDER, b.categoryCode)
  }

  /** The three ranks read as the digits of one number in base 1000. */
  function SortKey(input: SalesInputRow): int {
    (Rank(CHANNEL_ORDER, input.channelCode) * 1000 + Rank(SEASON_ORDER, input.seasonCode)) * 1000 +
    Rank(CATEGORY_ORDER, input.categoryCode)
  }

  function InputKey(): SalesInputRow -> int {
    (input: SalesInputRow) => SortKey(input)
  }

  /** Every rank is an index of its table or 999, so each fits one base-1000 digit. */
  lemma RanksBounded(input: SalesInputRow)
    ensures 0 <= Rank(CHANNEL_ORDER, input.channelCode) <= UNKNOWN_RANK
    ensures 0 <= Rank(SEASON_ORDER, input.seasonCode) <= UNKNOWN_RANK
    ensures 0 <= Rank(CATEGORY_ORDER, input.categoryCode) <= UNKNOWN_RANK
  {
  }

  /**
   * The comparator and the combined key agree in sign, so sorting with the comparator is the
   * stable sort by the key.
   */
  lemma CompareAgreesWithKey(a: SalesInputRow, b: SalesInputRow)
    ensures Compare(a, b) < 0 <==> SortKey(a) < SortKey(b)
    ensures Compare(a, b) == 0 <==> SortKey(a) == SortKey(b)
  {
    RanksBounded(a);
    RanksBounded(b);
    Base1000(Rank(CHANNEL_ORDER, a.channelCode), Rank(SEASON_ORDER, a.seasonCode), Rank(CATEGORY_ORDER, a.categoryCode),
             Rank(CHANNEL_ORDER, b.channelCode), Rank(SEASON_ORDER, b.seasonCode), Rank(CATEGORY_ORDER, b.categoryCode));
  }

  /** Three-digit numbers in base 1000 compare digit by digit, most significant first. */
  lemma Base1000(c1: int, s1: int, k1: int, c2: int, s2: int, k2: int)
    requires 0 <= c1 < 1000 && 0 <= s1 < 1000 && 0 <= k1 < 1000
    requires 0 <= c2 < 1000 && 0 <= s2 < 1000 && 0 <= k2 < 1000
    ensures var x, y := (c1 * 1000 + s1) * 1000 + k1, (c2 * 1000 + s2) * 1000 + k2;
      (x < y <==> c1 < c2 || (c1 == c2 && (s1 < s2 || (s1 == s2 && k1 < k2)))) &&
      (x == y <==> c1 == c2 && s1 == s2 && k1 == k2)
  {
  }

  /** `filteredInputs`: the rows passing the filters, stably sorted by the comparator. */
  function FilteredInputs(inputs: seq<SalesInputRow>, filters: Filters): (r: seq<SalesInputRow>)
    ensures |r| <= |inputs|
  {
    SortByKey(Filter(inputs, PassesFilters(filters)), InputKey())
  }

  /** The result holds exactly the rows that pass every filter, as often as they occur. */
  lemma FilteredInputsMembers(inputs: seq<SalesInputRow>, filters: Filters)
    ensures multiset(FilteredInputs(inputs, filters)) == multiset(Filter(inputs, PassesFilters(filters)))
    ensures forall x :: x in FilteredInputs(inputs, filters) <==> x in inputs && Passes(x, filters)
  {
    var p := PassesFilters(filters);
    var kept := Filter(inputs, p);
    var r := SortByKey(kept, InputKey());
    SortByKeyPermutes(kept, InputKey());
    forall x ensures x in r <==> x in inputs && Passes(x, filters) {
      assert x in r <==> x in multiset(r);
      assert x in kept <==> x in multiset(kept);
      if x in inputs && Passes(x, filters) {
        FilterKeeps(inputs, p, x);
      }
    }
  }

  /** The result is ordered by channel, then season, then category, as the comparator says. */
  lemma FilteredInputsOrdered(inputs: seq<SalesInputRow>, filters: Filters)
    ensures forall i, j :: 0 <= i < j < |FilteredInputs(inputs, filters)| ==>
      (Compare(FilteredInputs(inputs, filters)[i], FilteredInputs(inputs, filters)[j]) <= 0)
  {
    var kept := Filter(inputs, PassesFilters(filters));
    var r := SortByKey(kept, InputKey());
    SortByKeySorted(kept, InputKey());
    forall i, j | 0 <= i < j < |r| ensures Compare(r[i], r[j]) <= 0 {
      CompareAgreesWithKey(r[i], r[j]);
    }
  }

  /** Rows the comparator finds equal keep the order they had in `inputs`. */
  lemma FilteredInputsStable(inputs: seq<SalesInputRow>, filters: Filters)
    ensures forall k :: (WithKey(FilteredInputs(inputs, filters), InputKey(), k) ==
      WithKey(Filter(inputs, PassesFilters(filters)), InputKey(), k))
  {
    var kept := Filter(inputs, PassesFilters(filters));
    forall k ensures WithKey(SortByKey(kept, InputKey()), InputKey(), k) == WithKey(kept, InputKey(), k) {
      SortByKeyStable(kept, InputKey(), k);
    }
  }

  /** Rows whose channel code is not in the channel table come after every other row. */
  lemma UnknownChannelsLast(inputs: seq<SalesInputRow>, filters: Filters, i: nat, j: nat)
    requires i < j < |FilteredInputs(inputs, filters)|
    requires FilteredInputs(inputs, filters)[i].channelCode !in Codes(CHANNELS)
    ensures FilteredInputs(inputs, filters)[j].channelCode !in Codes(CHANNELS)
  {
    FilteredInputsOrdered(inputs, filters);
    var r := FilteredInputs(inputs, filters);
    RanksBounded(r[j]);
    assert Compare(r[i], r[j]) <= 0;
  }

  /** In a table without duplicate keys the rank of the key at index `i` is `i`. */
  lemma IndexMapAt(keys: seq<string>, i: nat)
    requires Distinct(keys) && i < |keys|
    ensures Rank(IndexMap(keys), keys[i]) == i
  {
  }

  /** Rows of two known channels come in the order of the channel table. */
  lemma KnownChannelsInOrder(inputs: seq<SalesInputRow>, filters: Filters, i: nat, j: nat, a: nat, b: nat)
    requires i < j < |FilteredInputs(inputs, filters)| && a < |CHANNELS| && b < |CHANNELS|
    requires FilteredInputs(inputs, filters)[i].channelCode == CHANNELS[a].code
    requires FilteredInputs(inputs, filters)[j].channelCode == CHANNELS[b].code
    ensures a <= b
  {
    FilteredInputsOrdered(inputs, filters);
    var r := FilteredInputs(inputs, filters);
    assert Compare(r[i], r[j]) <= 0;
    ChannelCodesDistinct();
    IndexMapAt(Codes(CHANNELS), a);
    IndexMapAt(Codes(CHANNELS), b);
  }

  /** The codes of a table whose entries are distinct ignoring case are distinct. */
  lemma CodesDistinct(t: seq<CodeName>)
    requires DistinctTable(t)
    ensures Distinct(Codes(t))
  {
    forall i, j | 0 <= i < j < |t| ensures Codes(t)[i] != Codes(t)[j] {
      assert !Matches(t[i].code, t[j].code);
    }
  }

  lemma ChannelCodesDistinct()
    ensures Distinct(Codes(CHANNELS))
  {
    ChannelTableDistinct();
    CodesDistinct(CHANNELS);
  }

  // ---------------------------------------------------------------- grouping

  /** One group of the table: its key, its heading (the `label` field) and its rows. */
  datatype Group = Group(key: string, heading: string, items: seq<SalesInputRow>)

  /** A channel's 25S figures. */
  datatype Baseline = Baseline(salesTag: real, actual: real, discount: real)

  /** One property of the `baselineByChannel` record, in insertion order. */
  datatype BaselineEntry = BaselineEntry(channelCode: string, baseline: Baseline)

  function EntryFor(code: string): BaselineEntry -> bool {
    (e: BaselineEntry) => e.channelCode == code
  }

  /** `baselineByChannel[code]`; a record holds each key once, so the first match is the one. */
  function BaselineFor(baselineByChannel: seq<BaselineEntry>, code: string): (r: Option<Baseline>)
    ensures r.None? <==> forall j :: 0 <= j < |baselineByChannel| ==> baselineByChannel[j].channelCode != code
    ensures r.Some? ==> BaselineEntry(code, r.value) in baselineByChannel
  {
    match FindIndex(baselineByChannel, EntryFor(code))
    case Some(i) => Some(baselineByChannel[i].baseline)
    case None => None
  }

  function ChannelKey(): SalesInputRow -> string {
    (i: SalesInputRow) => i.channelCode
  }

  function SeasonKey(): SalesInputRow -> string {
    (i: SalesInputRow) => i.seasonCode
  }

  function CategoryKey(): SalesInputRow -> string {
    (i: SalesInputRow) => i.categoryCode
  }

  /** A channel has data when it has rows and their tag or actual total is not zero. */
  predicate HasData(items: seq<SalesInputRow>) {
    |items| > 0 &&
    (CalculateGroupTotal(items).salesTagAmt != 0.0 || CalculateGroupTotal(items).actualSalesAmt != 0.0)
  }

  /** A channel has a baseline when the record holds one whose tag or actual amount is not zero. */
  predicate HasBaseline(baseline: Option<Baseline>) {
    baseline.Some? && (baseline.value.salesTag != 0.0 || baseline.value.actual != 0.0)
  }

  /** The group of one channel, or nothing when it has neither data nor a baseline. */
  function ChannelCandidate(filtered: seq<SalesInputRow>, baselineByChannel: seq<BaselineEntry>, ch: CodeName): Option<Group> {
    var items := Having(filtered, ChannelKey(), ch.code);
    if !HasData(items) && !HasBaseline(BaselineFor(baselineByChannel, ch.code)) then None
    else Some(Group(ch.code, ch.name, items))
  }

  function ChannelGroupOf(filtered: seq<SalesInputRow>, baselineByChannel: seq<BaselineEntry>): CodeName -> Option<Group> {
    (ch: CodeName) => ChannelCandidate(filtered, baselineByChannel, ch)
  }

  /** `{ key: e.code, label: e.name, items: filtered.filter(i => key(i) === e.code) }` */
  function GroupOfEntry(filtered: seq<SalesInputRow>, key: SalesInputRow -> string): CodeName -> Group {
    (e: CodeName) => Group(e.code, e.name, Having(filtered, key, e.code))
  }

  function NonEmpty(): Group -> bool {
    (g: Group) => |g.items| > 0
  }

  /** One group per table entry, in table order, the empty groups dropped. */
  function KeyedGroups(filtered: seq<SalesInputRow>, entries: seq<CodeName>, key: SalesInputRow -> string): seq<Group> {
    Filter(Map(entries, GroupOfEntry(filtered, key)), NonEmpty())
  }

  /** The seasons as table entries whose key and label are both the season code. */
  function SeasonEntries(): (r: seq<CodeName>)
    ensures |r| == |SEASONS| && forall i :: 0 <= i < |SEASONS| ==> r[i] == CodeName(SEASONS[i], SEASONS[i])
  {
    Map(SEASONS, (s: string) => CodeName(s, s))
  }

  /** `groupedData` */
  function GroupedData(filtered: seq<SalesInputRow>, groupBy: GroupBy, baselineByChannel: seq<BaselineEntry>): (r: seq<Group>)
    ensures groupBy == Ungrouped ==> |r| == 1 && r[0].key == "all" && r[0].items == filtered
  {
    match groupBy
    case Ungrouped => [Group("all", "전체", filtered)]
    case ByChannel => Present(Map(CHANNELS, ChannelGroupOf(filtered, baselineByChannel)))
    case BySeason => KeyedGroups(filtered, SeasonEntries(), SeasonKey())
    case ByCategory => KeyedGroups(filtered, ITEM_CATEGORIES, CategoryKey())
  }

  /**
   * A keyed grouping keeps exactly the groups of the entries that some row carries, each group
   * holding the rows with its key.
   */
  lemma KeyedGroupsSpec(filtered: seq<SalesInputRow>, entries: seq<CodeName>, key: SalesInputRow -> string, a: nat)
    requires a < |entries|
    ensures Group(entries[a].code, entries[a].name, Having(filtered, key, entries[a].code)) in KeyedGroups(filtered, entries, key)
      <==> exists x :: x in filtered && key(x) == entries[a].code
  {
    var f := GroupOfEntry(filtered, key);
    var gs := Map(entries, f);
    var g := Group(entries[a].code, entries[a].name, Having(filtered, key, entries[a].code));
    assert gs[a] == g;
    if exists x :: x in filtered && key(x) == entries[a].code {
      var x :| x in filtered && key(x) == entries[a].code;
      HavingKeeps(filtered, key, x);
      FilterKeeps(gs, NonEmpty(), g);
    }
    if g in KeyedGroups(filtered, entries, key) {
      assert |g.items| > 0;
      assert g.items[0] in filtered && key(g.items[0]) == entries[a].code;
    }
  }

  /** Every group of a keyed grouping is the non-empty group of an entry, and groups keep the entries' order. */
  lemma KeyedGroupsOrder(filtered: seq<SalesInputRow>, entries: seq<CodeName>, key: SalesInputRow -> string, i: nat, j: nat)
      returns (a: nat, b: nat)
    requires i < j < |KeyedGroups(filtered, entries, key)|
    ensures a < b < |entries|
    ensures KeyedGroups(filtered, entries, key)[i] == Group(entries[a].code, entries[a].name, Having(filtered, key, entries[a].code))
    ensures KeyedGroups(filtered, entries, key)[j] == Group(entries[b].code, entries[b].name, Having(filtered, key, entries[b].code))
    ensures |KeyedGroups(filtered, entries, key)[i].items| > 0 && |KeyedGroups(filtered, entries, key)[j].items| > 0
  {
    a, b := FilterOrder(Map(entries, GroupOfEntry(filtered, key)), NonEmpty(), i, j);
  }

  /** Grouped by season: a season has a group exactly when some filtered row has that season. */
  lemma SeasonGroupsSpec(filtered: seq<SalesInputRow>, baselineByChannel: seq<BaselineEntry>, s: nat)
    requires s < |SEASONS|
    ensures Group(SEASONS[s], SEASONS[s], Having(filtered, SeasonKey(), SEASONS[s])) in GroupedData(filtered, BySeason, baselineByChannel)
      <==> exists x :: x in filtered && x.seasonCode == SEASONS[s]
  {
    var entries := SeasonEntries();
    KeyedGroupsSpec(filtered, entries, SeasonKey(), s);
    assert entries[s] == CodeName(SEASONS[s], SEASONS[s]);
  }

  /** Grouped by category: a category has a group exactly when some filtered row has that category. */
  lemma CategoryGroupsSpec(filtered: seq<SalesInputRow>, baselineByChannel: seq<BaselineEntry>, k: nat)
    requires k < |ITEM_CATEGORIES|
    ensures Group(ITEM_CATEGORIES[k].code, ITEM_CATEGORIES[k].name, Having(filtered, CategoryKey(), ITEM_CATEGORIES[k].code))
        in GroupedData(filtered, ByCategory, baselineByChannel)
      <==> exists x :: x in filtered && x.categoryCode == ITEM_CATEGORIES[k].code
  {
    KeyedGroupsSpec(filtered, ITEM_CATEGORIES, CategoryKey(), k);
  }

  /**
   * Grouped by channel: a channel's group is shown exactly when its rows have a non-zero total or
   * its baseline has a non-zero amount; it is dropped when neither holds.
   */
  lemma ChannelGroupsSpec(filtered: seq<SalesInputRow>, baselineByChannel: seq<BaselineEntry>, c: nat)
    requires c < |CHANNELS|
    ensures Group(CHANNELS[c].code, CHANNELS[c].name, Having(filtered, ChannelKey(), CHANNELS[c].code))
        in GroupedData(filtered, ByChannel, baselineByChannel)
      <==> HasData(Having(filtered, ChannelKey(), CHANNELS[c].code)) ||
           HasBaseline(BaselineFor(baselineByChannel, CHANNELS[c].code))
  {
    var ys := Map(CHANNELS, ChannelGroupOf(filtered, baselineByChannel));
    var g := Group(CHANNELS[c].code, CHANNELS[c].name, Having(filtered, ChannelKey(), CHANNELS[c].code));
    PresentHas(ys, g);
    if Some(g) in ys {
      var a :| 0 <= a < |ys| && ys[a] == Some(g);
      ChannelCodesDistinct();
      assert CHANNELS[a].code == g.key == CHANNELS[c].code;
      assert Codes(CHANNELS)[a] == Codes(CHANNELS)[c];
      assert a == c;
    }
    assert ys[c] == ChannelCandidate(filtered, baselineByChannel, CHANNELS[c]);
  }

  /** Every channel group is the group of a table channel that is shown, and groups keep the table's order. */
  lemma ChannelGroupsOrder(filtered: seq<SalesInputRow>, baselineByChannel: seq<BaselineEntry>, i: nat, j: nat)
      returns (a: nat, b: nat)
    requires i < j < |GroupedData(filtered, ByChannel, baselineByChannel)|
    ensures a < b < |CHANNELS|
    ensures GroupedData(filtered, ByChannel, baselineByChannel)[i] ==
      Group(CHANNELS[a].code, CHANNELS[a].name, Having(filtered, ChannelKey(), CHANNELS[a].code))
    ensures GroupedData(filtered, ByChannel, baselineByChannel)[j] ==
      Group(CHANNELS[b].code, CHANNELS[b].name, Having(filtered, ChannelKey(), CHANNELS[b].code))
  {
    var ys := Map(CHANNELS, ChannelGroupOf(filtered, baselineByChannel));
    a, b := PresentOrder(ys, i, j);
    assert ys[a] == ChannelCandidate(filtered, baselineByChannel, CHANNELS[a]);
    assert ys[b] == ChannelCandidate(filtered, baselineByChannel, CHANNELS[b]);
  }

  /** Every group of a keyed grouping is the non-empty group of one of the entries. */
  lemma KeyedGroupAt(filtered: seq<SalesInputRow>, entries: seq<CodeName>, key: SalesInputRow -> string, n: nat)
      returns (a: nat)
    requires n < |KeyedGroups(filtered, entries, key)|
    ensures a < |entries|
    ensures KeyedGroups(filtered, entries, key)[n] == Group(entries[a].code, entries[a].name, Having(filtered, key, entries[a].code))
    ensures |KeyedGroups(filtered, entries, key)[n].items| > 0
  {
    a := FilterIndex(Map(entries, GroupOfEntry(filtered, key)), NonEmpty(), n);
  }

  /** Every channel group is the group of a table channel with data or a baseline. */
  lemma ChannelGroupAt(filtered: seq<SalesInputRow>, baselineByChannel: seq<BaselineEntry>, n: nat) returns (a: nat)
    requires n < |GroupedData(filtered, ByChannel, baselineByChannel)|
    ensures a < |CHANNELS|
    ensures GroupedData(filtered, ByChannel, baselineByChannel)[n] ==
      Group(CHANNELS[a].code, CHANNELS[a].name, Having(filtered, ChannelKey(), CHANNELS[a].code))
    ensures HasData(Having(filtered, ChannelKey(), CHANNELS[a].code)) ||
      HasBaseline(BaselineFor(baselineByChannel, CHANNELS[a].code))
  {
    var ys := Map(CHANNELS, ChannelGroupOf(filtered, baselineByChannel));
    a := PresentIndex(ys, n);
    assert ys[a] == ChannelCandidate(filtered, baselineByChannel, CHANNELS[a]);
  }

  /** After `expandAll` every group of the same grouping is shown open. */
  lemma ExpandAllOpensEveryGroup(filtered: seq<SalesInputRow>, groupBy: GroupBy, baselineByChannel: seq<BaselineEntry>, n: nat)
    requires n < |GroupedData(filtered, groupBy, baselineByChannel)|
    ensures IsExpanded(ExpandedKeys(groupBy), groupBy, GroupedData(filtered, groupBy, baselineByChannel)[n].key)
  {
    match groupBy
    case Ungrouped =>
    case ByChannel =>
      var a := ChannelGroupAt(filtered, baselineByChannel, n);
      assert Codes(CHANNELS)[a] in Codes(CHANNELS);
    case BySeason =>
      var a := KeyedGroupAt(filtered, SeasonEntries(), SeasonKey(), n);
      assert SEASONS[a] in SEASONS;
    case ByCategory =>
      var a := KeyedGroupAt(filtered, ITEM_CATEGORIES, CategoryKey(), n);
      assert Codes(ITEM_CATEGORIES)[a] in Codes(ITEM_CATEGORIES);
  }

  // ---------------------------------------------------------------- labels

  function CodeIs(code: string): CodeName -> bool {
    (e: CodeName) => e.code == code
  }

  /** The name of the entry with this code, as a list of at most one part. */
  function NamePart(table: seq<CodeName>, code: string): seq<string> {
    match FindIndex(table, CodeIs(code))
    case Some(i) => [table[i].name]
    case None => []
  }

  /** The parts of a row's label, without the grouped dimension. */
  function LabelParts(input: SalesInputRow, excludeGroupBy: GroupBy): seq<string> {
    (if excludeGroupBy != ByChannel then NamePart(CHANNELS, input.channelCode) else []) +
    (if excludeGroupBy != BySeason then [input.seasonCode] else []) +
    (if excludeGroupBy != ByCategory then NamePart(ITEM_CATEGORIES, input.categoryCode) else [])
  }

  /** `getItemLabel`: channel name, season code and category name, without the grouped dimension. */
  function GetItemLabel(input: SalesInputRow, excludeGroupBy: GroupBy): (r: string)
    ensures excludeGroupBy != BySeason ==> Contains(r, input.seasonCode)
  {
    var parts := LabelParts(input, excludeGroupBy);
    assert excludeGroupBy != BySeason ==> Contains(Join(parts, " / "), input.seasonCode) by {
      if excludeGroupBy != BySeason {
        var k := |if excludeGroupBy != ByChannel then NamePart(CHANNELS, input.channelCode) else []|;
        assert parts[k] == input.seasonCode;
        JoinHasPart(parts, " / ", k);
      }
    }
    Join(parts, " / ")
  }

  /** The entry found for a table's own code is that entry. */
  lemma NamePartAt(table: seq<CodeName>, c: nat)
    requires DistinctTable(table) && c < |table|
    ensures NamePart(table, table[c].code) == [table[c].name]
  {
    var found := FindIndex(table, CodeIs(table[c].code));
    assert found.Some?;
  }

  /** A code the table does not hold contributes no part. */
  lemma NamePartUnknown(table: seq<CodeName>, code: string)
    requires forall i :: 0 <= i < |table| ==> table[i].code != code
    ensures NamePart(table, code) == []
  {
  }

  lemma ChannelNamePart(c: nat)
    requires c < |CHANNELS|
    ensures NamePart(CHANNELS, CHANNELS[c].code) == [CHANNELS[c].name]
  {
    ChannelTableDistinct();
    NamePartAt(CHANNELS, c);
  }

  lemma CategoryNamePart(k: nat)
    requires k < |ITEM_CATEGORIES|
    ensures NamePart(ITEM_CATEGORIES, ITEM_CATEGORIES[k].code) == [ITEM_CATEGORIES[k].name]
  {
    CategoryTableDistinct();
    NamePartAt(ITEM_CATEGORIES, k);
  }

  /** For a row of a known channel and category, the label leaves out exactly the grouped dimension. */
  lemma ItemLabelOfTableRow(input: SalesInputRow, c: nat, k: nat)
    requires c < |CHANNELS| && k < |ITEM_CATEGORIES|
    requires input.channelCode == CHANNELS[c].code && input.categoryCode == ITEM_CATEGORIES[k].code
    ensures GetItemLabel(input, Ungrouped) == CHANNELS[c].name + " / " + input.seasonCode + " / " + ITEM_CATEGORIES[k].name
    ensures GetItemLabel(input, ByChannel) == input.seasonCode + " / " + ITEM_CATEGORIES[k].name
    ensures GetItemLabel(input, BySeason) == CHANNELS[c].name + " / " + ITEM_CATEGORIES[k].name
    ensures GetItemLabel(input, ByCategory) == CHANNELS[c].name + " / " + input.seasonCode
  {
    ChannelNamePart(c);
    CategoryNamePart(k);
    var ch, se, ca := CHANNELS[c].name, input.seasonCode, ITEM_CATEGORIES[k].name;
    assert LabelParts(input, Ungrouped) == [ch, se, ca];
    assert LabelParts(input, ByChannel) == [se, ca];
    assert LabelParts(input, BySeason) == [ch, ca];
    assert LabelParts(input, ByCategory) == [ch, se];
    JoinThree(ch, se, ca, " / ");
    JoinTwo(se, ca, " / ");
    JoinTwo(ch, ca, " / ");
    JoinTwo(ch, se, " / ");
  }

  /** A row whose channel the table does not know gets a label without a channel part. */
  lemma ItemLabelUnknownChannel(input: SalesInputRow, k: nat)
    requires k < |ITEM_CATEGORIES|
    requires forall i :: 0 <= i < |CHANNELS| ==> CHANNELS[i].code != input.channelCode
    requires input.categoryCode == ITEM_CATEGORIES[k].code
    ensures GetItemLabel(input, Ungrouped) == input.seasonCode + " / " + ITEM_CATEGORIES[k].name
  {
    var se, ca := input.seasonCode, ITEM_CATEGORIES[k].name;
    var chPart, caPart := NamePart(CHANNELS, input.channelCode), NamePart(ITEM_CATEGORIES, input.categoryCode);
    NamePartUnknown(CHANNELS, input.channelCode);
    CategoryNamePart(k);
    assert chPart == [] && caPart == [ca];
    assert LabelParts(input, Ungrouped) == [] + [se] + [ca] == [se, ca];
    JoinTwo(input.seasonCode, ITEM_CATEGORIES[k].name, " / ");
  }

  // ---------------------------------------------------------------- totals

  /** `totalSales26S`: the actual sales of the filtered rows. */
  function TotalSales26S(filtered: seq<SalesInputRow>): real {
    Sum(filtered, ActualOf())
  }

  /** The 26S total is the actual-sales total `calculateGroupTotal` gives for the same rows. */
  lemma TotalSalesIsGroupTotal(filtered: seq<SalesInputRow>)
    ensures TotalSales26S(filtered) == CalculateGroupTotal(filtered).actualSalesAmt
  {
  }

  /** `vsChangeRate`: the change against the 25S total in percent, 0 when that total is not positive. */
  function VsChangeRate(totalSales26S: real, season25STotal: real): (r: real)
    ensures season25STotal <= 0.0 ==> r == 0.0
    ensures season25STotal > 0.0 ==> r * season25STotal == (totalSales26S - season25STotal) * 100.0
  {
    var vsChange := totalSales26S - season25STotal;
    if season25STotal > 0.0 then (vsChange / season25STotal) * 100.0 else 0.0
  }

  /** The summed baseline and its discount in percent. */
  datatype BaselineTotals = BaselineTotals(salesTag: real, actual: real, discount: real)

  function BaselineTag(): Baseline -> real {
    (b: Baseline) => b.salesTag
  }

  function BaselineActual(): Baseline -> real {
    (b: Baseline) => b.actual
  }

  /** `Object.values(baselineByChannel)`, in insertion order. */
  function Values(baselineByChannel: seq<BaselineEntry>): seq<Baseline> {
    Map(baselineByChannel, (e: BaselineEntry) => e.baseline)
  }

  /** `baselineTotals` */
  function CalculateBaselineTotals(baselineByChannel: seq<BaselineEntry>): (r: BaselineTotals)
    ensures r.salesTag <= 0.0 ==> r.discount == 0.0
    ensures r.salesTag > 0.0 ==> r.discount * r.salesTag == (r.salesTag - r.actual) * 100.0
    ensures r.salesTag > 0.0 && 0.0 <= r.actual <= r.salesTag ==> 0.0 <= r.discount <= 100.0
  {
    var values := Values(baselineByChannel);
    var salesTag := Sum(values, BaselineTag());
    var actual := Sum(values, BaselineActual());
    var discount := if salesTag > 0.0 then (1.0 - actual / salesTag) * 100.0 else 0.0;
    BaselineTotals(salesTag, actual, discount)
  }

  /** Applying the summed discount to the summed tag amount gives back the summed actual sales. */
  lemma BaselineDiscountRecoversActual(baselineByChannel: seq<BaselineEntry>)
    requires CalculateBaselineTotals(baselineByChannel).salesTag > 0.0
    ensures var t := CalculateBaselineTotals(baselineByChannel);
      t.salesTag * (1.0 - t.discount / 100.0) == t.actual
  {
    var t := CalculateBaselineTotals(baselineByChannel);
    assert t.discount / 100.0 * t.salesTag == t.salesTag - t.actual;
  }
}
