/**
 * The 26S sales-plan data model: the fixed channel, season and category tables, the row and
 * scenario records, the tag-price / discount / actual-sales arithmetic, the lookups that turn
 * what a user typed into a table code, and the generator of an empty scenario.
 * Amounts are thousand-won values, written as reals.
 */
module Plan26S {
  import opened Wrappers
  import opened JsText
  import opened JsNumber
  import opened JsArray

  /** An entry of a code table: its code and its display name. */
  datatype CodeName = CodeName(code: string, name: string)

  const CHANNELS: seq<CodeName> := [
    CodeName("RF", "RF"),
    CodeName("DEPT", "백화점"),
    CodeName("FLAG", "플래그쉽"),
    CodeName("WHOLE", "사입"),
    CodeName("DF", "면세점"),
    CodeName("AGENCY", "대리점"),
    CodeName("DIRECT_STREET", "직영(가두)"),
    CodeName("ONLINE_PARTNER", "온라인(제휴)"),
    CodeName("ONLINE_DIRECT", "온라인(직)"),
    CodeName("OUTLET_DIRECT", "아울렛(직)")
  ]

  /** Season codes: two year digits and the season letter (S spring/summer, F fall/winter, N). */
  const SEASONS: seq<string> := [
    "22N", "22S", "23F", "23N", "24F", "24N", "24S", "25F", "25N", "25S",
    "26F", "26N", "26S", "21S", "19F", "20F", "21F", "22F", "23S", "20S"
  ]

  const ITEM_CATEGORIES: seq<CodeName> := [
    CodeName("HEAD", "모자"),
    CodeName("SHOES", "신발"),
    CodeName("BAG", "가방"),
    CodeName("EQ", "기타악세"),
    CodeName("WEAR", "의류")
  ]

  /** One planned sales figure: a (channel, season, category) cell of the plan. */
  datatype SalesInputRow = SalesInputRow(
    id: string,
    channelCode: string,
    seasonCode: string,
    categoryCode: string,
    salesTagAmt: real,
    discountRate: real,
    actualSalesAmt: real)

  datatype Scenario26S = Scenario26S(
    id: string,
    name: string,
    createdAt: string,
    updatedAt: string,
    brandCode: string,
    salesInputs: seq<SalesInputRow>,
    orderAmount: real,
    targetMU: real,
    adExpense: real,
    headcount: real,
    hrCostPerPerson: real)

  const NEW_SCENARIO_NAME: string := "새 시나리오"

  // ---------------------------------------------------------------- amounts

  /** Actual sales from tag sales and a discount in percent, rounded to a whole amount. */
  function CalculateActualSales(salesTag: real, discountRate: real): (r: real)
    ensures r == r.Floor as real
    ensures salesTag * (1.0 - discountRate / 100.0) - 0.5 < r <= salesTag * (1.0 - discountRate / 100.0) + 0.5
  {
    Round(salesTag * (1.0 - discountRate / 100.0)) as real
  }

  /** The discount in percent that turns tag sales into actual sales, to one decimal; 0 without tag sales. */
  function CalculateDiscountRate(salesTag: real, actualSales: real): (r: real)
    ensures salesTag == 0.0 ==> r == 0.0
    ensures salesTag != 0.0 ==>
      var exact := (1.0 - actualSales / salesTag) * 100.0;
      (r * 10.0) == (r * 10.0).Floor as real && exact - 0.05 < r <= exact + 0.05
  {
    if salesTag == 0.0 then 0.0
    else Round((1.0 - actualSales / salesTag) * 100.0 * 10.0) as real / 10.0
  }

  /** Without a discount the actual sales of a whole tag amount are that amount. */
  lemma ActualSalesUndiscounted(salesTag: int)
    ensures CalculateActualSales(salesTag as real, 0.0) == salesTag as real
  {
    RoundOfInt(salesTag);
  }

  /** A discount rate computed from a whole actual amount gives back that amount, up to rounding. */
  lemma DiscountRateRecoversActual(salesTag: real, actualSales: int)
    requires salesTag > 0.0
    ensures var d := CalculateDiscountRate(salesTag, actualSales as real);
      var back := salesTag * (1.0 - d / 100.0);
      actualSales as real - salesTag / 2000.0 <= back < actualSales as real + salesTag / 2000.0
  {
    var exact := (1.0 - actualSales as real / salesTag) * 100.0;
    var d := CalculateDiscountRate(salesTag, actualSales as real);
    assert exact - 0.05 < d <= exact + 0.05;
    assert salesTag * (1.0 - exact / 100.0) == actualSales as real;
    assert salesTag * (1.0 - d / 100.0) == actualSales as real + salesTag * (exact - d) / 100.0;
    var err := exact - d;
    assert -0.05 <= err < 0.05;
    assert salesTag * err < salesTag * 0.05;
    assert salesTag * err >= salesTag * -0.05;
    assert salesTag * err / 100.0 < salesTag / 2000.0;
    assert salesTag * err / 100.0 >= -salesTag / 2000.0;
    var back := salesTag * (1.0 - d / 100.0);
    assert back == actualSales as real + salesTag * err / 100.0;
    assert back < actualSales as real + salesTag / 2000.0;
  }

  // ---------------------------------------------------------------- lookups

  /** `!value` in JavaScript for a text cell: absent or the empty string. */
  predicate Blank(value: Option<string>) {
    value.None? || value.value == ""
  }

  /** `key.toLowerCase() === v.toLowerCase()` */
  predicate Matches(key: string, v: string) {
    Lower(key) == Lower(v)
  }

  /** No two entries share a code or a name, and no code reads as another entry's name, ignoring case. */
  predicate DistinctTable(t: seq<CodeName>) {
    forall i, j :: 0 <= i < |t| && 0 <= j < |t| && i != j ==>
      !Matches(t[i].code, t[j].code) && !Matches(t[i].name, t[j].name) && !Matches(t[i].code, t[j].name)
  }

  /**
   * Look a typed value up in a code table: trim it, then take the first entry whose code equals it
   * ignoring case, else the first entry whose name does, else nothing.
   */
  function LookupCode(table: seq<CodeName>, value: Option<string>): (r: Option<string>)
    requires DistinctTable(table)
    ensures Blank(value) ==> r == None
    ensures !Blank(value) ==> forall i :: 0 <= i < |table| && Matches(table[i].code, Trim(value.value)) ==>
      r == Some(table[i].code)
    ensures !Blank(value) ==> forall i :: 0 <= i < |table| && Matches(table[i].name, Trim(value.value)) ==>
      r == Some(table[i].code)
    ensures r.Some? ==> exists i :: (0 <= i < |table| && r.value == table[i].code &&
      (Matches(table[i].code, Trim(value.value)) || Matches(table[i].name, Trim(value.value))))
  {
    if Blank(value) then None
    else
      var v := Trim(value.value);
      match FindIndex(table, (e: CodeName) => Matches(e.code, v))
      case Some(i) => Some(table[i].code)
      case None =>
        match FindIndex(table, (e: CodeName) => Matches(e.name, v))
        case Some(i) => Some(table[i].code)
        case None => None
  }

  /** The codes of a table, in table order. */
  function Codes(t: seq<CodeName>): (r: seq<string>)
    ensures |r| == |t| && forall i :: 0 <= i < |t| ==> r[i] == t[i].code
  {
    if t == [] then [] else Codes(t[..|t| - 1]) + [t[|t| - 1].code]
  }

  /** The channel code for a channel code or channel name, typed with any case and surrounding space. */
  function GetChannelCode(value: Option<string>): (r: Option<string>)
    ensures Blank(value) ==> r == None
    ensures !Blank(value) ==> forall i :: 0 <= i < |CHANNELS| && Matches(CHANNELS[i].code, Trim(value.value)) ==>
      r == Some(CHANNELS[i].code)
    ensures !Blank(value) ==> forall i :: 0 <= i < |CHANNELS| && Matches(CHANNELS[i].name, Trim(value.value)) ==>
      r == Some(CHANNELS[i].code)
    ensures r.Some? ==> exists i :: (0 <= i < |CHANNELS| && r.value == CHANNELS[i].code &&
      (Matches(CHANNELS[i].code, Trim(value.value)) || Matches(CHANNELS[i].name, Trim(value.value))))
  {
    ChannelTableDistinct();
    LookupCode(CHANNELS, value)
  }

  /** The category code for a category code or category name, typed with any case and surrounding space. */
  function GetCategoryCode(value: Option<string>): (r: Option<string>)
    ensures Blank(value) ==> r == None
    ensures !Blank(value) ==> forall i :: 0 <= i < |ITEM_CATEGORIES| && Matches(ITEM_CATEGORIES[i].code, Trim(value.value)) ==>
      r == Some(ITEM_CATEGORIES[i].code)
    ensures !Blank(value) ==> forall i :: 0 <= i < |ITEM_CATEGORIES| && Matches(ITEM_CATEGORIES[i].name, Trim(value.value)) ==>
      r == Some(ITEM_CATEGORIES[i].code)
    ensures r.Some? ==> exists i :: (0 <= i < |ITEM_CATEGORIES| && r.value == ITEM_CATEGORIES[i].code &&
      (Matches(ITEM_CATEGORIES[i].code, Trim(value.value)) || Matches(ITEM_CATEGORIES[i].name, Trim(value.value))))
  {
    CategoryTableDistinct();
    LookupCode(ITEM_CATEGORIES, value)
  }

  /** The season code equal to the trimmed, upper-cased value, if there is one. */
  function GetSeasonCode(value: Option<string>): (r: Option<string>)
    ensures Blank(value) ==> r == None
    ensures !Blank(value) ==> (r.Some? <==> Upper(Trim(value.value)) in SEASONS)
    ensures r.Some? ==> r.value in SEASONS && r.value == Upper(Trim(value.value))
  {
    if Blank(value) then None
    else
      var v := Upper(Trim(value.value));
      SeasonsUpperCase();
      match FindIndex(SEASONS, (s: string) => Upper(s) == v)
      case Some(i) => Some(SEASONS[i])
      case None => None
  }

  /** Every table entry is found by its own code and by its own name. */
  lemma LookupFindsEntry(table: seq<CodeName>, i: int)
    requires DistinctTable(table) && 0 <= i < |table|
    requires table[i].code != "" && NoEdgeSpace(table[i].code)
    requires table[i].name != "" && NoEdgeSpace(table[i].name)
    ensures LookupCode(table, Some(table[i].code)) == Some(table[i].code)
    ensures LookupCode(table, Some(table[i].name)) == Some(table[i].code)
  {
    TrimOfTrimmed(table[i].code);
    TrimOfTrimmed(table[i].name);
  }

  lemma ChannelLookupComplete(i: int)
    requires 0 <= i < |CHANNELS|
    ensures GetChannelCode(Some(CHANNELS[i].code)) == Some(CHANNELS[i].code)
    ensures GetChannelCode(Some(CHANNELS[i].name)) == Some(CHANNELS[i].code)
  {
    ChannelTableDistinct();
    LookupFindsEntry(CHANNELS, i);
  }

  lemma CategoryLookupComplete(i: int)
    requires 0 <= i < |ITEM_CATEGORIES|
    ensures GetCategoryCode(Some(ITEM_CATEGORIES[i].code)) == Some(ITEM_CATEGORIES[i].code)
    ensures GetCategoryCode(Some(ITEM_CATEGORIES[i].name)) == Some(ITEM_CATEGORIES[i].code)
  {
    CategoryTableDistinct();
    LookupFindsEntry(ITEM_CATEGORIES, i);
  }

  lemma SeasonLookupComplete(i: int)
    requires 0 <= i < |SEASONS|
    ensures GetSeasonCode(Some(SEASONS[i])) == Some(SEASONS[i])
  {
    var x := SEASONS[i];
    SeasonsUpperCase();
    SeasonsTrimmed();
    TrimOfTrimmed(x);
    assert Upper(Trim(x)) == x;
  }

  // ---------------------------------------------------------------- the tables are well formed

  /** Two strings that differ in length or, ignoring case, in one of their first two units. */
  predicate Apart(a: string, b: string) {
    |a| != |b| ||
    (|a| > 0 && LowerChar(a[0]) != LowerChar(b[0])) ||
    (|a| > 1 && LowerChar(a[1]) != LowerChar(b[1]))
  }

  lemma ApartNotMatching(a: string, b: string)
    requires Apart(a, b)
    ensures !Matches(a, b) && a != b
  {
    if |a| == |b| && |a| > 0 {
      assert Lower(a)[0] == LowerChar(a[0]) && Lower(b)[0] == LowerChar(b[0]);
      if |a| > 1 {
        assert Lower(a)[1] == LowerChar(a[1]) && Lower(b)[1] == LowerChar(b[1]);
      }
    }
  }

  predicate ApartTable(t: seq<CodeName>) {
    (forall i, j :: 0 <= i < j < |t| ==> Apart(t[i].code, t[j].code)) &&
    (forall i, j :: 0 <= i < j < |t| ==> Apart(t[i].name, t[j].name)) &&
    (forall i, j :: 0 <= i < |t| && 0 <= j < |t| && i != j ==> Apart(t[i].code, t[j].name))
  }

  lemma ApartTableDistinct(t: seq<CodeName>)
    requires ApartTable(t)
    ensures DistinctTable(t)
  {
    forall i, j | 0 <= i < |t| && 0 <= j < |t| && i != j
      ensures !Matches(t[i].code, t[j].code) && !Matches(t[i].name, t[j].name) && !Matches(t[i].code, t[j].name)
    {
      var lo, hi := if i < j then i else j, if i < j then j else i;
      ApartNotMatching(t[lo].code, t[hi].code);
      ApartNotMatching(t[lo].name, t[hi].name);
      ApartNotMatching(t[i].code, t[j].name);
    }
  }

  /** The channel table has distinct codes and names, ignoring case, so every lookup result is unique. */
  lemma ChannelTableDistinct()
    ensures DistinctTable(CHANNELS)
  {
    var t := CHANNELS;
    ChannelCodesApart();
    ChannelNamesApart();
    ChannelCodeNameApart(0, 5);
    ChannelCodeNameApart(5, 10);
    assert ApartTable(t);
    ApartTableDistinct(t);
  }

  lemma ChannelCodesApart()
    ensures forall i, j :: 0 <= i < j < |CHANNELS| ==> Apart(CHANNELS[i].code, CHANNELS[j].code)
  {
    var t := CHANNELS;
    assert forall i, j :: 0 <= i < j < |t| ==> Apart(t[i].code, t[j].code);
  }

  lemma ChannelNamesApart()
    ensures forall i, j :: 0 <= i < j < |CHANNELS| ==> Apart(CHANNELS[i].name, CHANNELS[j].name)
  {
    var t := CHANNELS;
    assert forall i, j :: 0 <= i < 5 && i < j < |t| ==> Apart(t[i].name, t[j].name);
    assert forall i, j :: 5 <= i < j < |t| ==> Apart(t[i].name, t[j].name);
  }

  /** The codes of the channels `lo` to `hi - 1` are apart from every other channel's name. */
  lemma ChannelCodeNameApart(lo: nat, hi: nat)
    requires (lo, hi) == (0, 5) || (lo, hi) == (5, 10)
    ensures forall i, j :: lo <= i < hi && 0 <= j < |CHANNELS| && i != j ==> Apart(CHANNELS[i].code, CHANNELS[j].name)
  {
    var t := CHANNELS;
    if lo == 0 {
      assert forall i, j :: 0 <= i < 5 && 0 <= j < |t| && i != j ==> Apart(t[i].code, t[j].name);
    } else {
      assert forall i, j :: 5 <= i < 10 && 0 <= j < |t| && i != j ==> Apart(t[i].code, t[j].name);
    }
  }

  lemma CategoryTableDistinct()
    ensures DistinctTable(ITEM_CATEGORIES)
  {
    var t := ITEM_CATEGORIES;
    CategoryCodesApart();
    CategoryNamesApart();
    CategoryCodeNameApart();
    assert ApartTable(t);
    ApartTableDistinct(t);
  }

  lemma CategoryCodesApart()
    ensures forall i, j :: 0 <= i < j < |ITEM_CATEGORIES| ==> Apart(ITEM_CATEGORIES[i].code, ITEM_CATEGORIES[j].code)
  {
    var t := ITEM_CATEGORIES;
    assert forall i, j :: 0 <= i < j < |t| ==> Apart(t[i].code, t[j].code);
  }

  lemma CategoryCodeNameApart()
    ensures forall i, j :: 0 <= i < |ITEM_CATEGORIES| && 0 <= j < |ITEM_CATEGORIES| && i != j ==>
      Apart(ITEM_CATEGORIES[i].code, ITEM_CATEGORIES[j].name)
  {
    var t := ITEM_CATEGORIES;
    assert forall i, j :: 0 <= i < |t| && 0 <= j < |t| && i != j ==> Apart(t[i].code, t[j].name);
  }

  lemma CategoryNamesApart()
    ensures forall i, j :: 0 <= i < j < |ITEM_CATEGORIES| ==> Apart(ITEM_CATEGORIES[i].name, ITEM_CATEGORIES[j].name)
  {
    var t := ITEM_CATEGORIES;
    assert forall i, j :: 0 <= i < j < |t| ==> Apart(t[i].name, t[j].name);
  }

  /** Every season code is upper case already. */
  lemma SeasonsUpperCase()
    ensures forall i :: 0 <= i < |SEASONS| ==> Upper(SEASONS[i]) == SEASONS[i]
  {
    forall i | 0 <= i < |SEASONS| ensures Upper(SEASONS[i]) == SEASONS[i] {
      var s := SEASONS[i];
      assert |s| == 3;
      assert UpperChar(s[0]) == s[0] && UpperChar(s[1]) == s[1] && UpperChar(s[2]) == s[2];
    }
  }

  /** No season code has white space at its edges. */
  lemma SeasonsTrimmed()
    ensures forall i :: 0 <= i < |SEASONS| ==> NoEdgeSpace(SEASONS[i])
  {
    forall i | 0 <= i < |SEASONS| ensures NoEdgeSpace(SEASONS[i]) {
      var s := SEASONS[i];
      assert |s| == 3 && !IsJsSpace(s[0]) && !IsJsSpace(s[2]);
    }
  }

  /** The season table has no duplicates. */
  lemma SeasonsDistinct()
    ensures forall i, j :: 0 <= i < j < |SEASONS| ==> SEASONS[i] != SEASONS[j]
  {
    forall i, j | 0 <= i < j < |SEASONS| ensures SEASONS[i] != SEASONS[j] {
      var a, b := SEASONS[i], SEASONS[j];
      assert a[0] != b[0] || a[1] != b[1] || a[2] != b[2];
    }
  }

  // ---------------------------------------------------------------- the empty scenario

  /** Position of the (channel, season, category) row in the generator's channel-major order. */
  function Pos(c: nat, s: nat, k: nat): nat {
    c * 100 + s * 5 + k
  }

  /** The channel, season and category a grid position encodes. */
  function ChannelOf(n: nat): nat { n / 100 }
  function SeasonOf(n: nat): nat { n % 100 / 5 }
  function CategoryOf(n: nat): nat { n % 100 % 5 }

  const GRID_SIZE := 1000

  /** The row the generator emits at position `n`: numbered n + 1, for the triple `n` encodes, all amounts zero. */
  function GridRow(n: nat): SalesInputRow
    requires n < GRID_SIZE
  {
    SalesInputRow("row-" + Dec(n + 1), CHANNELS[ChannelOf(n)].code, SEASONS[SeasonOf(n)],
                  ITEM_CATEGORIES[CategoryOf(n)].code, 0.0, 0.0, 0.0)
  }

  function GridRows(): nat --> SalesInputRow {
    (n: nat) requires n < GRID_SIZE => GridRow(n)
  }

  /** `rows` is the generator's output: the row of every position, and nothing else. */
  ghost predicate EmptyGrid(rows: seq<SalesInputRow>) {
    |rows| == GRID_SIZE && Tabulates(rows, GridRows())
  }

  /** The row at the position of a triple is that triple's row. */
  lemma GridRowOf(c: nat, s: nat, k: nat)
    requires c < |CHANNELS| && s < |SEASONS| && k < |ITEM_CATEGORIES|
    ensures Pos(c, s, k) < GRID_SIZE
    ensures GridRow(Pos(c, s, k)) == SalesInputRow("row-" + Dec(Pos(c, s, k) + 1), CHANNELS[c].code, SEASONS[s],
                                                   ITEM_CATEGORIES[k].code, 0.0, 0.0, 0.0)
  {
    PosInjective(c, s, k);
  }

  /** Everything about a newly created scenario except its name. */
  ghost predicate FreshScenario(sc: Scenario26S, brandCode: string, now: nat, isoNow: string) {
    sc.id == "scenario-" + Dec(now) &&
    sc.createdAt == isoNow && sc.updatedAt == isoNow && sc.brandCode == brandCode &&
    sc.orderAmount == 0.0 && sc.targetMU == 250.0 && sc.adExpense == 0.0 &&
    sc.headcount == 0.0 && sc.hrCostPerPerson == 0.0 &&
    EmptyGrid(sc.salesInputs)
  }

  /**
   * A new scenario for a brand: one zero row per (channel, season, category) triple, numbered
   * row-1, row-2, ... in channel-major order, a target mark-up of 250 and no costs.
   * `now` is the clock in milliseconds and `isoNow` its ISO text.
   */
  method CreateEmptyScenario(brandCode: string, now: nat, isoNow: string) returns (sc: Scenario26S)
    ensures FreshScenario(sc, brandCode, now, isoNow) && sc.name == NEW_SCENARIO_NAME
  {
    var inputs: seq<SalesInputRow> := [];
    var id := 1;
    for c := 0 to |CHANNELS|
      invariant |inputs| == c * 100 && id == |inputs| + 1 && Tabulates(inputs, GridRows())
    {
      for s := 0 to |SEASONS|
        invariant |inputs| == c * 100 + s * 5 && id == |inputs| + 1 && Tabulates(inputs, GridRows())
      {
        for k := 0 to |ITEM_CATEGORIES|
          invariant |inputs| == Pos(c, s, k) && id == |inputs| + 1 && Tabulates(inputs, GridRows())
        {
          GridRowOf(c, s, k);
          var row := SalesInputRow("row-" + Dec(id), CHANNELS[c].code, SEASONS[s], ITEM_CATEGORIES[k].code, 0.0, 0.0, 0.0);
          TabulatesPush(inputs, row, GridRows());
          inputs := inputs + [row];
          id := id + 1;
        }
      }
    }
    sc := Scenario26S("scenario-" + Dec(now), NEW_SCENARIO_NAME, isoNow, isoNow, brandCode, inputs,
                      0.0, 250.0, 0.0, 0.0, 0.0);
  }

  lemma PosDecode(n: nat)
    ensures SeasonOf(n) < 20 && CategoryOf(n) < 5
    ensures Pos(ChannelOf(n), SeasonOf(n), CategoryOf(n)) == n
  {
    var r := n % 100;
    assert n == n / 100 * 100 + r;
    assert r == r / 5 * 5 + r % 5;
  }

  lemma PosInjective(c: nat, s: nat, k: nat)
    requires s < 20 && k < 5
    ensures ChannelOf(Pos(c, s, k)) == c && SeasonOf(Pos(c, s, k)) == s && CategoryOf(Pos(c, s, k)) == k
  {
    var n := Pos(c, s, k);
    assert s * 5 + k < 100;
    assert n / 100 == c && n % 100 == s * 5 + k;
  }

  /** The generated rows are all zero and numbered from 1 in order. */
  lemma GridAmountsZero(rows: seq<SalesInputRow>, n: nat)
    requires EmptyGrid(rows) && n < |rows|
    ensures rows[n].salesTagAmt == 0.0 && rows[n].discountRate == 0.0 && rows[n].actualSalesAmt == 0.0
    ensures rows[n].id == "row-" + Dec(n + 1)
  {
  }

  /** The generated row ids are pairwise distinct. */
  lemma GridIdsDistinct(rows: seq<SalesInputRow>, m: nat, n: nat)
    requires EmptyGrid(rows) && m < |rows| && n < |rows|
    requires rows[m].id == rows[n].id
    ensures m == n
  {
    GridAmountsZero(rows, m);
    GridAmountsZero(rows, n);
    RowIdInjective(m + 1, n + 1);
  }

  /** Two row numbers with the same `row-` id are the same number. */
  lemma RowIdInjective(a: nat, b: nat)
    requires "row-" + Dec(a) == "row-" + Dec(b)
    ensures a == b
  {
    var prefix := "row-";
    assert (prefix + Dec(a))[|prefix|..] == Dec(a) && (prefix + Dec(b))[|prefix|..] == Dec(b);
    DecInjective(a, b);
  }

  /** Each (channel, season, category) triple of the tables has exactly one row, at its position. */
  lemma GridTripleUnique(rows: seq<SalesInputRow>, c: nat, s: nat, k: nat, n: nat)
    requires EmptyGrid(rows) && n < |rows|
    requires c < |CHANNELS| && s < |SEASONS| && k < |ITEM_CATEGORIES|
    ensures rows[Pos(c, s, k)].channelCode == CHANNELS[c].code
    ensures rows[Pos(c, s, k)].seasonCode == SEASONS[s]
    ensures rows[Pos(c, s, k)].categoryCode == ITEM_CATEGORIES[k].code
    ensures (rows[n].channelCode == CHANNELS[c].code && rows[n].seasonCode == SEASONS[s] &&
             rows[n].categoryCode == ITEM_CATEGORIES[k].code) ==> n == Pos(c, s, k)
  {
    PosInjective(c, s, k);
    if rows[n].channelCode == CHANNELS[c].code && rows[n].seasonCode == SEASONS[s] &&
       rows[n].categoryCode == ITEM_CATEGORIES[k].code {
      var c', s', k' := ChannelOf(n), SeasonOf(n), CategoryOf(n);
      PosDecode(n);
      ChannelTableDistinct();
      CategoryTableDistinct();
      SeasonsDistinct();
      assert c' == c by {
        assert Matches(CHANNELS[c'].code, CHANNELS[c].code);
      }
      assert k' == k by {
        assert Matches(ITEM_CATEGORIES[k'].code, ITEM_CATEGORIES[k].code);
      }
      assert s' == s;
    }
  }
}
