/**
 * The operating-expense route: the season window and the same window a year earlier, the
 * classification of the result rows into the total, the brand total and the named items, the
 * roll-up of the "etc" items and the named accessors of the response.
 */
module OperatingExpenseRoute {
  import opened Wrappers
  import opened JsNumber
  import opened SeasonPeriods

  const TOTAL_NAME := "전체"
  const BRAND_TOTAL_NAME := "브랜드 영업비"

  // ---------------------------------------------------------------- windows

  /** The YYYYMM window of the season and the one of the year before. */
  datatype OpexPeriods = OpexPeriods(periodStart: string, periodEnd: string, pyPeriodStart: string, pyPeriodEnd: string)

  /** The route knows two windows only: S, and F for any other type, N included. */
  function OpexSeasonType(seasonType: string): string {
    if seasonType == "S" then "S" else "F"
  }

  /**
   * The four months the route assigns branch by branch: March to August for S, September to
   * the next February otherwise, each also one year earlier.
   */
  method Windows(year: Option<int>, seasonType: string) returns (p: OpexPeriods)
    ensures var cy := CurrentPeriods(year, OpexSeasonType(seasonType));
      p.periodStart == cy.periodStart && p.periodEnd == cy.periodEnd
    ensures var py := CurrentPeriods(Plus(year, -1), OpexSeasonType(seasonType));
      p.pyPeriodStart == py.periodStart && p.pyPeriodEnd == py.periodEnd
  {
    PlusPlus(year, -1, 0);
    PlusPlus(year, -1, 1);
    if seasonType == "S" {
      p := OpexPeriods(Month(year, 0, 3), Month(year, 0, 8), Month(year, -1, 3), Month(year, -1, 8));
    } else {
      p := OpexPeriods(Month(year, 0, 9), Month(year, 1, 2), Month(year, -1, 9), Month(year, 0, 2));
    }
  }

  /** The S window of year `y`, and the F window, as six-digit months. */
  lemma TwoWindows(y: nat)
    requires 10 <= y <= 98
    ensures CurrentPeriods(Some(y), "S").periodStart == Dec(2000 + y) + Pad2(3)
    ensures CurrentPeriods(Some(y), "S").periodEnd == Dec(2000 + y) + Pad2(8)
    ensures CurrentPeriods(Some(y), "F").periodStart == Dec(2000 + y) + Pad2(9)
    ensures CurrentPeriods(Some(y), "F").periodEnd == Dec(2001 + y) + Pad2(2)
  {
    SummerWindow(y);
    FallWindow(y);
  }

  lemma SummerWindow(y: nat)
    requires 10 <= y <= 98
    ensures CurrentPeriods(Some(y), "S").periodStart == Dec(2000 + y) + Pad2(3)
    ensures CurrentPeriods(Some(y), "S").periodEnd == Dec(2000 + y) + Pad2(8)
  {
    var p := CurrentPeriods(Some(y), "S");
    assert p.periodStart == Month(Some(y), 0, 3) && p.periodEnd == Month(Some(y), 0, 8);
    MonthOfYear(y, 0, 3);
    MonthOfYear(y, 0, 8);
  }

  lemma FallWindow(y: nat)
    requires 10 <= y <= 98
    ensures CurrentPeriods(Some(y), "F").periodStart == Dec(2000 + y) + Pad2(9)
    ensures CurrentPeriods(Some(y), "F").periodEnd == Dec(2001 + y) + Pad2(2)
  {
    var p := CurrentPeriods(Some(y), "F");
    assert p.periodStart == Month(Some(y), 0, 9) && p.periodEnd == Month(Some(y), 1, 2);
    MonthOfYear(y, 0, 9);
    MonthOfYear(y, 1, 2);
  }

  /**
   * For the year YY and type `t` of a season code: S reads March to August of 20YY against
   * the same months of 20(YY-1); any other type reads September of 20YY to February of
   * 20(YY+1) against the window a year earlier.
   */
  lemma WindowsOfSeasonYear(yy: nat, t: string)
    requires 11 <= yy <= 98
    ensures var ft := OpexSeasonType(t);
      var cy := CurrentPeriods(Some(yy), ft);
      var py := CurrentPeriods(Plus(Some(yy), -1), ft);
      (t == "S" ==>
         cy.periodStart == Dec(2000 + yy) + Pad2(3) && cy.periodEnd == Dec(2000 + yy) + Pad2(8) &&
         py.periodStart == Dec(1999 + yy) + Pad2(3) && py.periodEnd == Dec(1999 + yy) + Pad2(8)) &&
      (t != "S" ==>
         cy.periodStart == Dec(2000 + yy) + Pad2(9) && cy.periodEnd == Dec(2001 + yy) + Pad2(2) &&
         py.periodStart == Dec(1999 + yy) + Pad2(9) && py.periodEnd == Dec(2000 + yy) + Pad2(2))
  {
    assert Plus(Some(yy), -1) == Some(yy - 1);
    TwoWindows(yy);
    TwoWindows(yy - 1);
  }

  // ---------------------------------------------------------------- rows and items

  /** One result row: the item name, the amounts of the season and the year before, and the YoY. */
  datatype Row = Row(itemName: string, amtCy: real, amtPy: real, yoy: Option<real>)

  /** `{ amt, amtPy, yoy }` */
  datatype Item = Item(amt: real, amtPy: real, yoy: Option<real>)

  const ZERO_ITEM := Item(0.0, 0.0, None)

  function ItemOf(row: Row): Item {
    Item(row.amtCy, row.amtPy, row.yoy)
  }

  /** The names the route keeps apart from the items. */
  predicate IsSummaryName(name: string) {
    name == TOTAL_NAME || name == BRAND_TOTAL_NAME
  }

  predicate HasRowNamed(rows: seq<Row>, name: string) {
    exists i :: 0 <= i < |rows| && rows[i].itemName == name
  }

  /** The item of the last row with the given name, `{0, 0, null}` when there is none. */
  function LastItemNamed(rows: seq<Row>, name: string): (r: Item)
    ensures !HasRowNamed(rows, name) ==> r == ZERO_ITEM
    ensures HasRowNamed(rows, name) ==> exists k :: 0 <= k < |rows| && rows[k].itemName == name && r == ItemOf(rows[k])
  {
    if rows == [] then ZERO_ITEM
    else if rows[|rows| - 1].itemName == name then ItemOf(rows[|rows| - 1])
    else
      var init := rows[..|rows| - 1];
      var r := LastItemNamed(init, name);
      assert HasRowNamed(rows, name) ==> exists k :: 0 <= k < |rows| && rows[k].itemName == name && r == ItemOf(rows[k]) by {
        if HasRowNamed(rows, name) {
          var i :| 0 <= i < |rows| && rows[i].itemName == name;
          assert init[i] == rows[i];
          var k :| 0 <= k < |init| && init[k].itemName == name && r == ItemOf(init[k]);
          assert rows[k] == init[k];
        }
      }
      assert !HasRowNamed(rows, name) ==> !HasRowNamed(init, name) by {
        if HasRowNamed(init, name) {
          var i :| 0 <= i < |init| && init[i].itemName == name;
          assert rows[i] == init[i];
        }
      }
      r
  }

  /** The item of a row with the name and no later row with it. */
  lemma {:induction false} LastItemNamedIsLastRow(rows: seq<Row>, name: string, k: nat)
    requires k < |rows| && rows[k].itemName == name
    requires forall j :: k < j < |rows| ==> rows[j].itemName != name
    ensures LastItemNamed(rows, name) == ItemOf(rows[k])
    decreases |rows|
  {
    if k < |rows| - 1 {
      var init := rows[..|rows| - 1];
      assert init[k] == rows[k];
      LastItemNamedIsLastRow(init, name, k);
    }
  }

  /** Without a row of the name the item is `{0, 0, null}`. */
  lemma {:induction false} NoRowNamed(rows: seq<Row>, name: string)
    requires !HasRowNamed(rows, name)
    ensures LastItemNamed(rows, name) == ZERO_ITEM
    decreases |rows|
  {
    if rows != [] {
      var init := rows[..|rows| - 1];
      assert !HasRowNamed(init, name) by {
        forall i | 0 <= i < |init|
          ensures init[i].itemName != name
        {
          assert init[i] == rows[i];
        }
      }
      assert rows[|rows| - 1].itemName != name;
      NoRowNamed(init, name);
    }
  }

  /** The items dictionary after the rows are written in order, a later row of a name overwriting an earlier one. */
  function ItemsOf(rows: seq<Row>): (r: map<string, Item>)
    ensures forall name :: name in r ==> !IsSummaryName(name) && r[name] == LastItemNamed(rows, name)
  {
    if rows == [] then map[]
    else
      var items := ItemsOf(rows[..|rows| - 1]);
      var row := rows[|rows| - 1];
      if IsSummaryName(row.itemName) then items else items[row.itemName := ItemOf(row)]
  }

  /**
   * A name is a key of the items exactly when it is not a summary name and some row carries
   * it, and its item is the one of the last such row.
   */
  lemma {:induction false} ItemsOfSpec(rows: seq<Row>, name: string)
    ensures name in ItemsOf(rows) <==> !IsSummaryName(name) && HasRowNamed(rows, name)
    ensures name in ItemsOf(rows) ==> ItemsOf(rows)[name] == LastItemNamed(rows, name)
    decreases |rows|
  {
    if rows != [] {
      var init := rows[..|rows| - 1];
      var last := rows[|rows| - 1];
      assert rows == init + [last];
      ItemsOfSpec(init, name);
      if HasRowNamed(init, name) {
        var i :| 0 <= i < |init| && init[i].itemName == name;
        assert rows[i].itemName == name;
      }
      if HasRowNamed(rows, name) && last.itemName != name {
        var i :| 0 <= i < |rows| && rows[i].itemName == name;
        assert init[i].itemName == name;
      }
    }
  }

  /**
   * `rows.forEach`: the '전체' row sets the total, the '브랜드 영업비' row the brand total, and
   * every other row is stored under its name.
   */
  method Classify(rows: seq<Row>) returns (items: map<string, Item>, total: Item, brandTotal: Item)
    ensures items == ItemsOf(rows)
    ensures total == LastItemNamed(rows, TOTAL_NAME)
    ensures brandTotal == LastItemNamed(rows, BRAND_TOTAL_NAME)
  {
    items := map[];
    total := ZERO_ITEM;
    brandTotal := ZERO_ITEM;
    for i := 0 to |rows|
      invariant items == ItemsOf(rows[..i])
      invariant total == LastItemNamed(rows[..i], TOTAL_NAME)
      invariant brandTotal == LastItemNamed(rows[..i], BRAND_TOTAL_NAME)
    {
      var row := rows[i];
      assert rows[..i + 1][..i] == rows[..i];
      if row.itemName == TOTAL_NAME {
        total := ItemOf(row);
      } else if row.itemName == BRAND_TOTAL_NAME {
        brandTotal := ItemOf(row);
      } else {
        items := items[row.itemName := ItemOf(row)];
      }
    }
    assert rows[..|rows|] == rows;
  }

  // ---------------------------------------------------------------- the etc roll-up

  const MAIN_ITEMS: seq<string> := ["인건비", "광고비", "자가임차료", "공통비", "제조간접비"]
  const ETC_ITEMS: seq<string> := ["지급수수료", "VMD/매장보수", "저장품", "샘플비", "감가상각비", "복리비/차량/핸드폰", "여비교통비", "기타"]

  /** `items[name] || { amt: 0, amtPy: 0, yoy: null }` */
  function Lookup(items: map<string, Item>, name: string): Item {
    if name in items then items[name] else ZERO_ITEM
  }

  /** The sum of the season amounts of those names that are keys of the items. */
  function SumAmt(items: map<string, Item>, names: seq<string>): real {
    if names == [] then 0.0
    else
      var name := names[|names| - 1];
      SumAmt(items, names[..|names| - 1]) + (if name in items then items[name].amt else 0.0)
  }

  /** The sum of the prior-year amounts of those names that are keys of the items. */
  function SumAmtPy(items: map<string, Item>, names: seq<string>): real {
    if names == [] then 0.0
    else
      var name := names[|names| - 1];
      SumAmtPy(items, names[..|names| - 1]) + (if name in items then items[name].amtPy else 0.0)
  }

  /** `etcItems.forEach`: the amounts of the etc items that are present, added up. */
  method EtcRollUp(items: map<string, Item>) returns (amt: real, amtPy: real)
    ensures amt == SumAmt(items, ETC_ITEMS) && amtPy == SumAmtPy(items, ETC_ITEMS)
  {
    amt := 0.0;
    amtPy := 0.0;
    for i := 0 to |ETC_ITEMS|
      invariant amt == SumAmt(items, ETC_ITEMS[..i]) && amtPy == SumAmtPy(items, ETC_ITEMS[..i])
    {
      var name := ETC_ITEMS[i];
      assert ETC_ITEMS[..i + 1][..i] == ETC_ITEMS[..i];
      if name in items {
        amt := amt + items[name].amt;
        amtPy := amtPy + items[name].amtPy;
      }
    }
    assert ETC_ITEMS[..|ETC_ITEMS|] == ETC_ITEMS;
  }

  /** The season amounts of the last rows of the names, added up. */
  function RowSumAmt(rows: seq<Row>, names: seq<string>): real {
    if names == [] then 0.0
    else RowSumAmt(rows, names[..|names| - 1]) + LastItemNamed(rows, names[|names| - 1]).amt
  }

  /** The prior-year amounts of the last rows of the names, added up. */
  function RowSumAmtPy(rows: seq<Row>, names: seq<string>): real {
    if names == [] then 0.0
    else RowSumAmtPy(rows, names[..|names| - 1]) + LastItemNamed(rows, names[|names| - 1]).amtPy
  }

  /** The accessor of a name that is not a summary name is the item of the last row with that name, or zeros. */
  lemma AccessorIsLastRow(rows: seq<Row>, name: string)
    requires !IsSummaryName(name)
    ensures Lookup(ItemsOf(rows), name) == LastItemNamed(rows, name)
  {
    ItemsOfSpec(rows, name);
    if name !in ItemsOf(rows) {
      NoRowNamed(rows, name);
    }
  }

  /** Summed over names that are not summary names, the items of the dictionary are the last rows of those names. */
  lemma {:induction false} SumOfItemsIsSumOfRows(rows: seq<Row>, names: seq<string>)
    requires forall i :: 0 <= i < |names| ==> !IsSummaryName(names[i])
    ensures SumAmt(ItemsOf(rows), names) == RowSumAmt(rows, names)
    ensures SumAmtPy(ItemsOf(rows), names) == RowSumAmtPy(rows, names)
    decreases |names|
  {
    if names != [] {
      var init := names[..|names| - 1];
      var name := names[|names| - 1];
      assert forall i :: 0 <= i < |init| ==> init[i] == names[i];
      SumOfItemsIsSumOfRows(rows, init);
      AccessorIsLastRow(rows, name);
    }
  }

  /** No etc item and no main item is named like a summary row. */
  lemma ListedItemsAreNotSummaries()
    ensures forall i :: 0 <= i < |ETC_ITEMS| ==> !IsSummaryName(ETC_ITEMS[i])
    ensures forall i :: 0 <= i < |MAIN_ITEMS| ==> !IsSummaryName(MAIN_ITEMS[i])
  {
    forall i | 0 <= i < |ETC_ITEMS|
      ensures !IsSummaryName(ETC_ITEMS[i])
    {
      assert ETC_ITEMS[i][0] != TOTAL_NAME[0] && ETC_ITEMS[i][0] != BRAND_TOTAL_NAME[0];
    }
    forall i | 0 <= i < |MAIN_ITEMS|
      ensures !IsSummaryName(MAIN_ITEMS[i])
    {
      assert MAIN_ITEMS[i][0] != TOTAL_NAME[0] && MAIN_ITEMS[i][0] != BRAND_TOTAL_NAME[0];
    }
  }

  /** Every main and etc item the response names is the last row of that name. */
  lemma ListedAccessors(rows: seq<Row>)
    ensures forall i :: 0 <= i < |MAIN_ITEMS| ==> Lookup(ItemsOf(rows), MAIN_ITEMS[i]) == LastItemNamed(rows, MAIN_ITEMS[i])
    ensures forall i :: 0 <= i < |ETC_ITEMS| ==> Lookup(ItemsOf(rows), ETC_ITEMS[i]) == LastItemNamed(rows, ETC_ITEMS[i])
  {
    ListedItemsAreNotSummaries();
    forall i | 0 <= i < |MAIN_ITEMS|
      ensures Lookup(ItemsOf(rows), MAIN_ITEMS[i]) == LastItemNamed(rows, MAIN_ITEMS[i])
    {
      AccessorIsLastRow(rows, MAIN_ITEMS[i]);
    }
    forall i | 0 <= i < |ETC_ITEMS|
      ensures Lookup(ItemsOf(rows), ETC_ITEMS[i]) == LastItemNamed(rows, ETC_ITEMS[i])
    {
      AccessorIsLastRow(rows, ETC_ITEMS[i]);
    }
  }

  /** The etc total of the rows is the sum, over the etc items, of the last row of each. */
  lemma EtcTotalOfRows(rows: seq<Row>)
    ensures SumAmt(ItemsOf(rows), ETC_ITEMS) == RowSumAmt(rows, ETC_ITEMS)
    ensures SumAmtPy(ItemsOf(rows), ETC_ITEMS) == RowSumAmtPy(rows, ETC_ITEMS)
  {
    ListedItemsAreNotSummaries();
    SumOfItemsIsSumOfRows(rows, ETC_ITEMS);
  }

  /** `etcTotal.amtPy > 0 ? Math.round(etcTotal.amt / etcTotal.amtPy * 100) : null` */
  function EtcYoy(amt: real, amtPy: real): (r: Option<int>)
    ensures r.Some? <==> amtPy > 0.0
    ensures r.Some? ==> amt / amtPy * 100.0 - 0.5 < r.value as real <= amt / amtPy * 100.0 + 0.5
  {
    if amtPy > 0.0 then Some(Round(amt / amtPy * 100.0)) else None
  }

  // ---------------------------------------------------------------- the response

  datatype Window = Window(start: string, end: string)

  datatype EtcTotal = EtcTotal(amt: real, amtPy: real, yoy: Option<int>)

  datatype EtcItems = EtcItems(commission: Item, vmd: Item, storage: Item, sample: Item, depreciation: Item,
                               welfare: Item, travel: Item, other: Item)

  /** The response body of a successful query. */
  datatype OpexResponse = OpexResponse(
    brandCode: string, season: string, period: Window, pyPeriod: Window, data: seq<Row>,
    items: map<string, Item>, total: Item, brandTotal: Item, etcTotal: EtcTotal,
    hrCost: Item, adExpense: Item, selfRent: Item, commonCost: Item, mfcIndirect: Item, etcItems: EtcItems)

  /** The route's answer to the parameters and the rows the query returned. */
  method OperatingExpense(brandParam: Option<string>, seasonParam: Option<string>, rows: seq<Row>)
    returns (r: OpexResponse)
    ensures var season := Param(seasonParam, DEFAULT_SEASON);
      var t := OpexSeasonType(SeasonType(season));
      var cy := CurrentPeriods(SeasonYear(season), t);
      var py := CurrentPeriods(Plus(SeasonYear(season), -1), t);
      r.brandCode == Param(brandParam, DEFAULT_BRAND) && r.season == season &&
      r.period == Window(cy.periodStart, cy.periodEnd) && r.pyPeriod == Window(py.periodStart, py.periodEnd)
    ensures r.data == rows && r.items == ItemsOf(rows)
    ensures r.total == LastItemNamed(rows, TOTAL_NAME) && r.brandTotal == LastItemNamed(rows, BRAND_TOTAL_NAME)
    ensures r.etcTotal.amt == RowSumAmt(rows, ETC_ITEMS) && r.etcTotal.amtPy == RowSumAmtPy(rows, ETC_ITEMS)
    ensures r.etcTotal.yoy == EtcYoy(r.etcTotal.amt, r.etcTotal.amtPy)
    ensures r.hrCost == LastItemNamed(rows, MAIN_ITEMS[0]) && r.adExpense == LastItemNamed(rows, MAIN_ITEMS[1]) &&
            r.selfRent == LastItemNamed(rows, MAIN_ITEMS[2]) && r.commonCost == LastItemNamed(rows, MAIN_ITEMS[3]) &&
            r.mfcIndirect == LastItemNamed(rows, MAIN_ITEMS[4])
    ensures r.etcItems == EtcItems(
      LastItemNamed(rows, ETC_ITEMS[0]), LastItemNamed(rows, ETC_ITEMS[1]), LastItemNamed(rows, ETC_ITEMS[2]),
      LastItemNamed(rows, ETC_ITEMS[3]), LastItemNamed(rows, ETC_ITEMS[4]), LastItemNamed(rows, ETC_ITEMS[5]),
      LastItemNamed(rows, ETC_ITEMS[6]), LastItemNamed(rows, ETC_ITEMS[7]))
  {
    var brandCode := Param(brandParam, DEFAULT_BRAND);
    var season := Param(seasonParam, DEFAULT_SEASON);
    var p := Windows(SeasonYear(season), SeasonType(season));
    var items, total, brandTotal := Classify(rows);
    var amt, amtPy := EtcRollUp(items);
    EtcTotalOfRows(rows);
    ListedAccessors(rows);
    r := OpexResponse(
      brandCode, season, Window(p.periodStart, p.periodEnd), Window(p.pyPeriodStart, p.pyPeriodEnd), rows,
      items, total, brandTotal, EtcTotal(amt, amtPy, EtcYoy(amt, amtPy)),
      Lookup(items, MAIN_ITEMS[0]), Lookup(items, MAIN_ITEMS[1]), Lookup(items, MAIN_ITEMS[2]),
      Lookup(items, MAIN_ITEMS[3]), Lookup(items, MAIN_ITEMS[4]),
      EtcItems(Lookup(items, ETC_ITEMS[0]), Lookup(items, ETC_ITEMS[1]), Lookup(items, ETC_ITEMS[2]),
               Lookup(items, ETC_ITEMS[3]), Lookup(items, ETC_ITEMS[4]), Lookup(items, ETC_ITEMS[5]),
               Lookup(items, ETC_ITEMS[6]), Lookup(items, ETC_ITEMS[7])));
  }
}
