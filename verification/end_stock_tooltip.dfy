/**
 * The end-stock breakdown: entries are split by their ITEM_STD label into item entries, season
 * totals and per-season item entries; items are grouped into clothing, accessories and the rest,
 * and per-season entries are added up by season under their season type (S, N or F).
 */
module EndStockTooltip {
  import opened Wrappers
  import opened JsText
  import opened JsArray

  datatype EndStockItem = EndStockItem(itemStd: string, sesn: string, cyEndStockTagAmt: real, yoy: real)

  /** `item => item.CY_END_STOCK_TAG_AMT` */
  function Amount(): EndStockItem -> real {
    (item: EndStockItem) => item.cyEndStockTagAmt
  }

  /** `items.reduce((sum, item) => sum + item.CY_END_STOCK_TAG_AMT, 0)` */
  function CalculateGroupTotal(items: seq<EndStockItem>): (r: real)
    ensures (forall k :: 0 <= k < |items| ==> items[k].cyEndStockTagAmt >= 0.0) ==> r >= 0.0
    ensures (forall k :: 0 <= k < |items| ==> items[k].cyEndStockTagAmt == 0.0) ==> r == 0.0
    ensures |items| == 1 ==> r == items[0].cyEndStockTagAmt
  {
    assert (forall k :: 0 <= k < |items| ==> items[k].cyEndStockTagAmt >= 0.0) ==> Sum(items, Amount()) >= 0.0 by {
      if forall k :: 0 <= k < |items| ==> items[k].cyEndStockTagAmt >= 0.0 {
        SumNonNegative(items, Amount());
      }
    }
    assert (forall k :: 0 <= k < |items| ==> items[k].cyEndStockTagAmt == 0.0) ==> Sum(items, Amount()) == 0.0 by {
      if forall k :: 0 <= k < |items| ==> items[k].cyEndStockTagAmt == 0.0 {
        SumZero(items, Amount());
      }
    }
    assert |items| == 1 ==> Sum(items, Amount()) == items[0].cyEndStockTagAmt by {
      if |items| == 1 {
        assert items[..0] == [];
      }
    }
    Sum(items, Amount())
  }

  // ---------------------------------------------------------------- the three lists

  datatype Kind = SeasonItemEntry | SeasonEntry | ItemEntry

  /** Which list an entry goes to: the `SEASON_ITEM_` test comes first, then `SEASON_`. */
  function KindOf(item: EndStockItem): (k: Kind)
    ensures k == SeasonItemEntry <==> StartsWith(item.itemStd, "SEASON_ITEM_")
    ensures k == SeasonEntry <==> StartsWith(item.itemStd, "SEASON_") && !StartsWith(item.itemStd, "SEASON_ITEM_")
    ensures k == ItemEntry <==> !StartsWith(item.itemStd, "SEASON_")
  {
    if StartsWith(item.itemStd, "SEASON_ITEM_") then
      assert item.itemStd[..7] == "SEASON_ITEM_"[..7];
      SeasonItemEntry
    else if StartsWith(item.itemStd, "SEASON_") then SeasonEntry
    else ItemEntry
  }

  function KindKey(): EndStockItem -> Kind {
    (item: EndStockItem) => KindOf(item)
  }

  /** The `forEach` that pushes each entry into one of three lists. */
  method SplitData(data: seq<EndStockItem>) returns (items: seq<EndStockItem>, seasons: seq<EndStockItem>, seasonItems: seq<EndStockItem>)
    ensures items == Having(data, KindKey(), ItemEntry)
    ensures seasons == Having(data, KindKey(), SeasonEntry)
    ensures seasonItems == Having(data, KindKey(), SeasonItemEntry)
  {
    items, seasons, seasonItems := [], [], [];
    for i := 0 to |data|
      invariant items == Having(data[..i], KindKey(), ItemEntry)
      invariant seasons == Having(data[..i], KindKey(), SeasonEntry)
      invariant seasonItems == Having(data[..i], KindKey(), SeasonItemEntry)
    {
      var item := data[i];
      assert data[..i + 1] == data[..i] + [item];
      HavingSnoc(data[..i], item, KindKey(), ItemEntry);
      HavingSnoc(data[..i], item, KindKey(), SeasonEntry);
      HavingSnoc(data[..i], item, KindKey(), SeasonItemEntry);
      if StartsWith(item.itemStd, "SEASON_ITEM_") {
        seasonItems := seasonItems + [item];
      } else if StartsWith(item.itemStd, "SEASON_") {
        seasons := seasons + [item];
      } else {
        items := items + [item];
      }
    }
    assert data[..|data|] == data;
  }

  /** Every entry lands in the list of its kind, and the three lists together hold exactly the entries. */
  lemma SplitDataPartition(data: seq<EndStockItem>, item: EndStockItem)
    ensures multiset(Having(data, KindKey(), ItemEntry)) + multiset(Having(data, KindKey(), SeasonEntry)) +
      multiset(Having(data, KindKey(), SeasonItemEntry)) == multiset(data)
    ensures item in data ==> item in Having(data, KindKey(), KindOf(item))
  {
    HavingPartition3(data, KindKey(), ItemEntry, SeasonEntry, SeasonItemEntry);
    if item in data {
      HavingKeeps(data, KindKey(), item);
    }
  }

  // ---------------------------------------------------------------- item groups

  datatype ItemGroup = Clothing | Accessory | OtherItem

  /** '의류' when the label mentions it, 'ACC' for the four accessory labels, else '기타'. */
  function GroupOf(item: EndStockItem): (g: ItemGroup)
    ensures g == Clothing <==> Contains(item.itemStd, "의류")
    ensures g == Accessory <==> !Contains(item.itemStd, "의류") && item.itemStd in ["모자", "신발", "가방", "기타ACC"]
  {
    if Contains(item.itemStd, "의류") then Clothing
    else if item.itemStd == "모자" || item.itemStd == "신발" || item.itemStd == "가방" || item.itemStd == "기타ACC" then Accessory
    else OtherItem
  }

  function GroupKey(): EndStockItem -> ItemGroup {
    (item: EndStockItem) => GroupOf(item)
  }

  /** The `forEach` that pushes each item entry into its group. */
  method ItemGroups(itemData: seq<EndStockItem>) returns (clothing: seq<EndStockItem>, acc: seq<EndStockItem>, other: seq<EndStockItem>)
    ensures clothing == Having(itemData, GroupKey(), Clothing)
    ensures acc == Having(itemData, GroupKey(), Accessory)
    ensures other == Having(itemData, GroupKey(), OtherItem)
  {
    clothing, acc, other := [], [], [];
    for i := 0 to |itemData|
      invariant clothing == Having(itemData[..i], GroupKey(), Clothing)
      invariant acc == Having(itemData[..i], GroupKey(), Accessory)
      invariant other == Having(itemData[..i], GroupKey(), OtherItem)
    {
      var item := itemData[i];
      assert itemData[..i + 1] == itemData[..i] + [item];
      HavingSnoc(itemData[..i], item, GroupKey(), Clothing);
      HavingSnoc(itemData[..i], item, GroupKey(), Accessory);
      HavingSnoc(itemData[..i], item, GroupKey(), OtherItem);
      if Contains(item.itemStd, "의류") {
        clothing := clothing + [item];
      } else if item.itemStd == "모자" || item.itemStd == "신발" || item.itemStd == "가방" || item.itemStd == "기타ACC" {
        acc := acc + [item];
      } else {
        other := other + [item];
      }
    }
    assert itemData[..|itemData|] == itemData;
  }

  /** The three groups partition the item entries. */
  lemma ItemGroupsPartition(itemData: seq<EndStockItem>)
    ensures multiset(Having(itemData, GroupKey(), Clothing)) + multiset(Having(itemData, GroupKey(), Accessory)) +
      multiset(Having(itemData, GroupKey(), OtherItem)) == multiset(itemData)
  {
    HavingPartition3(itemData, GroupKey(), Clothing, Accessory, OtherItem);
  }

  /** The three group totals add up to the total of the item entries. */
  lemma ItemGroupsTotal(itemData: seq<EndStockItem>)
    ensures CalculateGroupTotal(Having(itemData, GroupKey(), Clothing)) +
      CalculateGroupTotal(Having(itemData, GroupKey(), Accessory)) +
      CalculateGroupTotal(Having(itemData, GroupKey(), OtherItem)) == CalculateGroupTotal(itemData)
  {
    ItemGroupSums(itemData);
  }

  /** The sums over the three item groups add up to the sum over all entries. */
  lemma ItemGroupSums(itemData: seq<EndStockItem>)
    ensures Sum(Having(itemData, GroupKey(), Clothing), Amount()) +
      Sum(Having(itemData, GroupKey(), Accessory), Amount()) +
      Sum(Having(itemData, GroupKey(), OtherItem), Amount()) == Sum(itemData, Amount())
  {
    var key, f := GroupKey(), Amount();
    var ks := [Clothing, Accessory, OtherItem];
    SumOverPartition(itemData, key, ks, f);
    assert ks[..2] == [Clothing, Accessory];
    assert SumOver(itemData, key, ks, f) == SumOver(itemData, key, [Clothing, Accessory], f) + Sum(Having(itemData, key, OtherItem), f);
    assert [Clothing, Accessory][..1] == [Clothing];
    assert SumOver(itemData, key, [Clothing, Accessory], f) == SumOver(itemData, key, [Clothing], f) + Sum(Having(itemData, key, Accessory), f);
    assert [Clothing][..0] == [];
    assert SumOver(itemData, key, [Clothing], f) == Sum(Having(itemData, key, Clothing), f);
  }

  // ---------------------------------------------------------------- season groups

  /** Where a per-season entry is added up: its season type and its full season (`23S`). */
  datatype SeasonSlot = SeasonSlot(sesnType: string, fullSeason: string)

  const SEASON_TYPES: seq<string> := ["S", "N", "F"]

  /** `fullSeason.slice(-1).toUpperCase()` */
  function LastUpper(fullSeason: string): (r: string)
    ensures |r| <= 1
  {
    if fullSeason == [] then [] else [UpperChar(fullSeason[|fullSeason| - 1])]
  }

  /**
   * The slot of an entry: the third `_`-separated part of its label, when there is one and its
   * last character, in upper case, is S, N or F.
   */
  function SlotOf(item: EndStockItem): (r: Option<SeasonSlot>)
    ensures |Split(item.itemStd, '_')| < 3 ==> r.None?
    ensures r.Some? ==>
      (r.value.sesnType in SEASON_TYPES && r.value.fullSeason == Split(item.itemStd, '_')[2] &&
       r.value.sesnType == LastUpper(r.value.fullSeason))
  {
    var parts := Split(item.itemStd, '_');
    if |parts| < 3 then None
    else
      var fullSeason := parts[2];
      var sesnType := LastUpper(fullSeason);
      if sesnType == "S" || sesnType == "N" || sesnType == "F" then Some(SeasonSlot(sesnType, fullSeason)) else None
  }

  function SlotKey(): EndStockItem -> Option<SeasonSlot> {
    (item: EndStockItem) => SlotOf(item)
  }

  type SeasonGroups = map<string, map<string, real>>

  /** `{ S: {}, N: {}, F: {} }` */
  function EmptyGroups(): SeasonGroups {
    map["S" := map[], "N" := map[], "F" := map[]]
  }

  predicate HasTypes(groups: SeasonGroups) {
    forall t :: t in SEASON_TYPES ==> t in groups
  }

  /** An amount added to a slot, if there is one. */
  function AddEntry(groups: SeasonGroups, slot: Option<SeasonSlot>, amount: real): (r: SeasonGroups)
    requires HasTypes(groups)
    ensures HasTypes(r)
  {
    match slot
    case None => groups
    case Some(SeasonSlot(t, fs)) =>
      if t in groups then
        var bucket := groups[t];
        var before := if fs in bucket then bucket[fs] else 0.0;
        groups[t := bucket[fs := before + amount]]
      else groups
  }

  /** The season groups of `items`, entry by entry. */
  function Buckets(items: seq<EndStockItem>): (r: SeasonGroups)
    ensures HasTypes(r)
  {
    if items == [] then EmptyGroups() else AddEntry(Buckets(items[..|items| - 1]), SlotOf(items[|items| - 1]), items[|items| - 1].cyEndStockTagAmt)
  }

  /** The `forEach` that adds each per-season entry into `groups[sesnType][fullSeason]`. */
  method SeasonGroupsOf(seasonItemData: seq<EndStockItem>) returns (groups: SeasonGroups)
    ensures groups == Buckets(seasonItemData)
  {
    groups := EmptyGroups();
    for i := 0 to |seasonItemData|
      invariant groups == Buckets(seasonItemData[..i])
    {
      assert seasonItemData[..i + 1][..i] == seasonItemData[..i];
      assert seasonItemData[..i + 1][i] == seasonItemData[i];
      groups := AddSeasonEntry(groups, seasonItemData[i]);
    }
    assert seasonItemData[..|seasonItemData|] == seasonItemData;
  }

  /** The body of that `forEach`: one entry added to the groups. */
  method AddSeasonEntry(groups0: SeasonGroups, item: EndStockItem) returns (groups: SeasonGroups)
    requires HasTypes(groups0)
    ensures groups == AddEntry(groups0, SlotOf(item), item.cyEndStockTagAmt)
  {
    groups := groups0;
    var parts := Split(item.itemStd, '_');
    if |parts| < 3 {
      return;
    }
    var fullSeason := parts[2];
    var sesnType := LastUpper(fullSeason);
    if sesnType == "S" || sesnType == "N" || sesnType == "F" {
      assert SlotOf(item) == Some(SeasonSlot(sesnType, fullSeason));
      ghost var bucket := groups0[sesnType];
      ghost var base := if fullSeason in bucket then bucket[fullSeason] else 0.0;
      if fullSeason !in groups[sesnType] || groups[sesnType][fullSeason] == 0.0 {
        groups := groups[sesnType := groups[sesnType][fullSeason := 0.0]];
      } else {
        assert bucket[fullSeason := base] == bucket;
      }
      assert groups == groups0[sesnType := bucket[fullSeason := base]];
      assert groups[sesnType][fullSeason] == base;
      groups := groups[sesnType := groups[sesnType][fullSeason := groups[sesnType][fullSeason] + item.cyEndStockTagAmt]];
      assert bucket[fullSeason := base][fullSeason := base + item.cyEndStockTagAmt] == bucket[fullSeason := base + item.cyEndStockTagAmt];
    }
  }

  /**
   * Each season type has a group; a full season appears in its type's group exactly when some
   * entry has that slot, and its amount is the sum over those entries.
   */
  lemma BucketsSum(items: seq<EndStockItem>, t: string, fs: string)
    requires t in SEASON_TYPES
    ensures t in Buckets(items)
    ensures fs in Buckets(items)[t] <==> Having(items, SlotKey(), Some(SeasonSlot(t, fs))) != []
    ensures fs in Buckets(items)[t] ==>
      Buckets(items)[t][fs] == CalculateGroupTotal(Having(items, SlotKey(), Some(SeasonSlot(t, fs))))
  {
    BucketAmounts(items, t, fs);
  }

  /** A bucket holds the sum of the amounts of its entries, by induction over the entries. */
  lemma {:induction false} BucketAmounts(items: seq<EndStockItem>, t: string, fs: string)
    requires t in SEASON_TYPES
    ensures t in Buckets(items)
    ensures fs in Buckets(items)[t] <==> Having(items, SlotKey(), Some(SeasonSlot(t, fs))) != []
    ensures fs in Buckets(items)[t] ==>
      Buckets(items)[t][fs] == Sum(Having(items, SlotKey(), Some(SeasonSlot(t, fs))), Amount())
  {
    var slot := Some(SeasonSlot(t, fs));
    if items != [] {
      var init, last := items[..|items| - 1], items[|items| - 1];
      assert items == init + [last];
      BucketAmounts(init, t, fs);
      AddEntryAt(Buckets(init), SlotOf(last), last.cyEndStockTagAmt, t, fs);
      HavingSnoc(init, last, SlotKey(), slot);
      HavingSnocSum(init, last, SlotKey(), slot, Amount());
    }
  }

  /** Adding an amount changes only the amount of its own slot, by that amount. */
  lemma AddEntryAt(groups: SeasonGroups, slot: Option<SeasonSlot>, amount: real, t: string, fs: string)
    requires HasTypes(groups) && t in SEASON_TYPES
    ensures t in AddEntry(groups, slot, amount)
    ensures slot == Some(SeasonSlot(t, fs)) ==>
      fs in AddEntry(groups, slot, amount)[t] &&
      AddEntry(groups, slot, amount)[t][fs] == (if fs in groups[t] then groups[t][fs] else 0.0) + amount
    ensures slot != Some(SeasonSlot(t, fs)) ==>
      (fs in AddEntry(groups, slot, amount)[t] <==> fs in groups[t]) &&
      (fs in groups[t] ==> AddEntry(groups, slot, amount)[t][fs] == groups[t][fs])
  {
  }

  /** Entries whose label splits into fewer than three parts leave the groups as they are. */
  lemma ShortLabelsIgnored(groups: SeasonGroups, item: EndStockItem)
    requires HasTypes(groups)
    requires |Split(item.itemStd, '_')| < 3
    ensures AddEntry(groups, SlotOf(item), item.cyEndStockTagAmt) == groups
  {
  }
}
