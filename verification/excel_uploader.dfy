/**
 * Spreadsheet upload of a 26S sales plan: the parser that checks each sheet row and turns it into
 * a plan row, and the template of one zero row per (channel, season, category) triple.
 * A sheet row is what the sheet reader gives for one line: the text cells by column header and
 * the three amount cells.
 */
module ExcelUploader {
  import opened Wrappers
  import opened JsNumber
  import opened JsArray
  import opened Plan26S

  /** An amount cell: absent, a number (or text reading as one), or text that reads as NaN. */
  datatype NumCell = Missing | Num(value: real) | Junk

  /** One sheet row: the text cells by header, and the tag, discount and actual-sales cells. */
  datatype RawRow = RawRow(text: map<string, string>, salesTag: NumCell, discount: NumCell, actualSales: NumCell)

  datatype ValidationResult = ValidationResult(isValid: bool, errors: seq<string>, parsedData: seq<SalesInputRow>)

  /** The headers accepted for each text column, in the order they are tried. */
  const SEASON_KEYS: seq<string> := ["시즌", "시즌구분", "시즌 코드", "시즌코드", "Season", "season"]
  const CHANNEL_KEYS: seq<string> := ["채널", "Channel", "channel"]
  const CATEGORY_KEYS: seq<string> := ["카테고리", "Category", "category"]

  const CHANNEL_ERROR: string := "유효하지 않은 채널명"
  const SEASON_ERROR: string := "유효하지 않은 시즌"
  const CATEGORY_ERROR: string := "유효하지 않은 카테고리"

  /** The first row number: line 1 holds the headers. */
  const FIRST_ROW: nat := 2

  // ---------------------------------------------------------------- cells

  /** `a ?? b ?? ...`: the cell under the first header that is present. */
  function FirstPresent(cells: map<string, string>, keys: seq<string>): (r: Option<string>)
    ensures r.None? <==> forall i :: 0 <= i < |keys| ==> keys[i] !in cells
    ensures r.Some? ==> exists i :: (0 <= i < |keys| && keys[i] in cells && r.value == cells[keys[i]] &&
                                     forall j :: 0 <= j < i ==> keys[j] !in cells)
  {
    match FindIndex(keys, (k: string) => k in cells)
    case Some(i) => Some(cells[keys[i]])
    case None => None
  }

  function SeasonRaw(row: RawRow): Option<string> { FirstPresent(row.text, SEASON_KEYS) }
  function ChannelRaw(row: RawRow): Option<string> { FirstPresent(row.text, CHANNEL_KEYS) }
  function CategoryRaw(row: RawRow): Option<string> { FirstPresent(row.text, CATEGORY_KEYS) }

  /** `Number(cell || 0)`, with NaN as `None`. */
  function NumberOrZero(c: NumCell): Option<real> {
    match c
    case Missing => Some(0.0)
    case Num(x) => Some(x)
    case Junk => None
  }

  /** `Number(cell) || 0`: NaN and absent cells read as 0. */
  function NumberElseZero(c: NumCell): real {
    match c
    case Num(x) => x
    case _ => 0.0
  }

  /** `Number(cell)`, with NaN as `None`. */
  function NumberOf(c: NumCell): Option<real> {
    match c
    case Num(x) => Some(x)
    case _ => None
  }

  /** The sum of the three amount cells, NaN (`None`) when one of them is not a number. */
  function NumericSum(row: RawRow): (r: Option<real>)
    ensures r.Some? <==> row.salesTag != Junk && row.discount != Junk && row.actualSales != Junk
  {
    match (NumberOrZero(row.salesTag), NumberOrZero(row.discount), NumberOrZero(row.actualSales))
    case (Some(a), Some(b), Some(c)) => Some(a + b + c)
    case _ => None
  }

  /** A row with no channel, season or category text and amounts adding up to zero is skipped. */
  function IsBlankRow(row: RawRow): (b: bool)
    ensures b ==> row.salesTag != Junk && row.discount != Junk && row.actualSales != Junk
    ensures (Blank(ChannelRaw(row)) && Blank(SeasonRaw(row)) && Blank(CategoryRaw(row)) &&
             row.salesTag == Missing && row.discount == Missing && row.actualSales == Missing) ==> b
  {
    Blank(ChannelRaw(row)) && Blank(SeasonRaw(row)) && Blank(CategoryRaw(row)) && NumericSum(row) == Some(0.0)
  }

  /** The actual sales of a row: the cell when it is a non-zero number, else computed from tag and discount. */
  function ActualFor(row: RawRow): (r: real)
    ensures NumberOf(row.actualSales).Some? && NumberOf(row.actualSales).value != 0.0 ==>
      r == NumberOf(row.actualSales).value
    ensures NumberOf(row.actualSales).None? || NumberOf(row.actualSales).value == 0.0 ==>
      r == CalculateActualSales(NumberElseZero(row.salesTag), NumberElseZero(row.discount))
  {
    match NumberOf(row.actualSales)
    case Some(x) =>
      if x == 0.0 then CalculateActualSales(NumberElseZero(row.salesTag), NumberElseZero(row.discount)) else x
    case None => CalculateActualSales(NumberElseZero(row.salesTag), NumberElseZero(row.discount))
  }

  // ---------------------------------------------------------------- one row

  /** `${rowNum}행: <what> "<raw ?? ''>"` */
  function ErrorLine(rowNum: nat, what: string, raw: Option<string>): (r: string)
    ensures StartsWithRowNumber(r, rowNum)
  {
    var p := Dec(rowNum) + "행: ";
    var line := p + (what + " \"" + raw.GetOr("") + "\"");
    assert line[..|p|] == p;
    line
  }

  /** The three lookups of a row: channel, season and category code. */
  datatype Lookups = Lookups(channel: Option<string>, season: Option<string>, category: Option<string>)

  function LookupsOf(row: RawRow): Lookups {
    Lookups(GetChannelCode(ChannelRaw(row)), GetSeasonCode(SeasonRaw(row)), GetCategoryCode(CategoryRaw(row)))
  }

  /** `errors.push(line)` when `failed`. */
  function PushIf(errors: seq<string>, failed: bool, line: string): seq<string> {
    if failed then errors + [line] else errors
  }

  /** One error per failed lookup, in channel, season, category order; none for a skipped row. */
  function RowErrors(row: RawRow, rowNum: nat): (r: seq<string>)
    ensures IsBlankRow(row) ==> r == []
    ensures !IsBlankRow(row) ==> (|r| ==
      (if LookupsOf(row).channel.None? then 1 else 0) +
      (if LookupsOf(row).season.None? then 1 else 0) +
      (if LookupsOf(row).category.None? then 1 else 0))
  {
    if IsBlankRow(row) then []
    else
      var l := LookupsOf(row);
      PushIf(PushIf(PushIf([], l.channel.None?, ErrorLine(rowNum, CHANNEL_ERROR, ChannelRaw(row))),
                    l.season.None?, ErrorLine(rowNum, SEASON_ERROR, SeasonRaw(row))),
             l.category.None?, ErrorLine(rowNum, CATEGORY_ERROR, CategoryRaw(row)))
  }

  /** Every error line of a row starts with that row's number. */
  lemma RowErrorsHeaded(row: RawRow, rowNum: nat)
    ensures AllHeaded(RowErrors(row, rowNum), rowNum)
  {
    if !IsBlankRow(row) {
      var l := LookupsOf(row);
      var e1 := PushIf([], l.channel.None?, ErrorLine(rowNum, CHANNEL_ERROR, ChannelRaw(row)));
      var e2 := PushIf(e1, l.season.None?, ErrorLine(rowNum, SEASON_ERROR, SeasonRaw(row)));
      PushIfHeaded([], l.channel.None?, ErrorLine(rowNum, CHANNEL_ERROR, ChannelRaw(row)), rowNum);
      PushIfHeaded(e1, l.season.None?, ErrorLine(rowNum, SEASON_ERROR, SeasonRaw(row)), rowNum);
      PushIfHeaded(e2, l.category.None?, ErrorLine(rowNum, CATEGORY_ERROR, CategoryRaw(row)), rowNum);
    }
  }

  /** Pushing a headed line keeps every line headed. */
  lemma PushIfHeaded(errors: seq<string>, failed: bool, line: string, rowNum: nat)
    requires AllHeaded(errors, rowNum) && StartsWithRowNumber(line, rowNum)
    ensures AllHeaded(PushIf(errors, failed, line), rowNum)
  {
    if failed {
      AllHeadedAppend(errors, [line], rowNum);
    }
  }

  /** An error line names its row number first. */
  predicate StartsWithRowNumber(line: string, rowNum: nat) {
    var p := Dec(rowNum) + "행: ";
    |p| <= |line| && line[..|p|] == p
  }

  /** Every line names row `rowNum` first. */
  predicate AllHeaded(lines: seq<string>, rowNum: nat) {
    forall k :: 0 <= k < |lines| ==> StartsWithRowNumber(lines[k], rowNum)
  }

  lemma AllHeadedAppend(a: seq<string>, b: seq<string>, rowNum: nat)
    requires AllHeaded(a, rowNum) && AllHeaded(b, rowNum)
    ensures AllHeaded(a + b, rowNum)
  {
    forall k | 0 <= k < |a + b|
      ensures StartsWithRowNumber((a + b)[k], rowNum)
    {
      if k < |a| {
        assert (a + b)[k] == a[k];
      } else {
        assert (a + b)[k] == b[k - |a|];
      }
    }
  }

  /** True when `input` is in the (channel, season, category) cell given. */
  predicate SameCell(input: SalesInputRow, c: string, s: string, k: string) {
    input.channelCode == c && input.seasonCode == s && input.categoryCode == k
  }

  /** The id of the first current input in the same cell when it is not empty, else a new one. */
  function RowIdFor(current: seq<SalesInputRow>, c: string, s: string, k: string, now: nat, rowNum: nat): (id: string)
    ensures forall j :: (0 <= j < |current| && SameCell(current[j], c, s, k) &&
                         (forall i :: 0 <= i < j ==> !SameCell(current[i], c, s, k)) && current[j].id != "") ==>
      id == current[j].id
    ensures (forall j :: 0 <= j < |current| ==> !SameCell(current[j], c, s, k)) ==>
      id == "row-" + Dec(now) + "-" + Dec(rowNum)
  {
    match FindIndex(current, (input: SalesInputRow) => SameCell(input, c, s, k))
    case Some(j) => if current[j].id != "" then current[j].id else "row-" + Dec(now) + "-" + Dec(rowNum)
    case None => "row-" + Dec(now) + "-" + Dec(rowNum)
  }

  /** The plan row a sheet row becomes: only when it is not skipped and all three lookups succeed. */
  function RowParsed(row: RawRow, rowNum: nat, current: seq<SalesInputRow>, now: nat): (r: Option<SalesInputRow>)
    ensures r.Some? <==> (!IsBlankRow(row) && LookupsOf(row).channel.Some? &&
                          LookupsOf(row).season.Some? && LookupsOf(row).category.Some?)
    ensures r.Some? ==>
      r.value.channelCode == LookupsOf(row).channel.value &&
      r.value.seasonCode == LookupsOf(row).season.value &&
      r.value.categoryCode == LookupsOf(row).category.value &&
      r.value.salesTagAmt == NumberElseZero(row.salesTag) &&
      r.value.discountRate == NumberElseZero(row.discount) &&
      r.value.actualSalesAmt == ActualFor(row) &&
      r.value.id == RowIdFor(current, r.value.channelCode, r.value.seasonCode, r.value.categoryCode, now, rowNum)
  {
    if IsBlankRow(row) then None
    else
      match LookupsOf(row)
      case Lookups(Some(c), Some(s), Some(k)) =>
        Some(SalesInputRow(RowIdFor(current, c, s, k, now, rowNum), c, s, k,
                           NumberElseZero(row.salesTag), NumberElseZero(row.discount), ActualFor(row)))
      case _ => None
  }

  /** A row that is not skipped and whose three lookups succeed becomes the plan row of those codes. */
  lemma RowParsedFound(row: RawRow, rowNum: nat, current: seq<SalesInputRow>, now: nat, c: string, s: string, k: string)
    requires !IsBlankRow(row) && LookupsOf(row) == Lookups(Some(c), Some(s), Some(k))
    ensures RowParsed(row, rowNum, current, now) ==
      Some(SalesInputRow(RowIdFor(current, c, s, k, now, rowNum), c, s, k,
                         NumberElseZero(row.salesTag), NumberElseZero(row.discount), ActualFor(row)))
  {
  }

  /** A row is turned into a plan row exactly when it is not skipped and has no error. */
  lemma RowParsedIffNoErrors(row: RawRow, rowNum: nat, current: seq<SalesInputRow>, now: nat)
    ensures RowParsed(row, rowNum, current, now).Some? <==> !IsBlankRow(row) && RowErrors(row, rowNum) == []
  {
  }

  /** The row's channel, season and category are codes of the tables. */
  predicate HasTableCodes(p: SalesInputRow) {
    p.channelCode in Codes(CHANNELS) && p.seasonCode in SEASONS && p.categoryCode in Codes(ITEM_CATEGORIES)
  }

  /** Every plan row made from a sheet row has a channel, season and category of the tables. */
  lemma RowParsedValid(row: RawRow, rowNum: nat, current: seq<SalesInputRow>, now: nat)
    requires RowParsed(row, rowNum, current, now).Some?
    ensures HasTableCodes(RowParsed(row, rowNum, current, now).value)
  {
    var p := RowParsed(row, rowNum, current, now).value;
    var ci :| 0 <= ci < |CHANNELS| && p.channelCode == CHANNELS[ci].code;
    assert Codes(CHANNELS)[ci] == p.channelCode;
    var ki :| 0 <= ki < |ITEM_CATEGORIES| && p.categoryCode == ITEM_CATEGORIES[ki].code;
    assert Codes(ITEM_CATEGORIES)[ki] == p.categoryCode;
  }

  // ---------------------------------------------------------------- all rows

  /** The errors of `rows`, the first of which is sheet row `first`. */
  function ErrorsFrom(rows: seq<RawRow>, first: nat): seq<string> {
    FlatMapNumbered(rows, first, RowErrors)
  }

  /** What one sheet row adds to the plan rows: its plan row, if it has one. */
  function ParseStep(current: seq<SalesInputRow>, now: nat): (RawRow, nat) -> seq<SalesInputRow> {
    (row: RawRow, rowNum: nat) => RowParsed(row, rowNum, current, now).ToSeq()
  }

  /** The plan rows made from `rows`, the first of which is sheet row `first`. */
  function ParsedFrom(rows: seq<RawRow>, first: nat, current: seq<SalesInputRow>, now: nat): seq<SalesInputRow> {
    FlatMapNumbered(rows, first, ParseStep(current, now))
  }

  /**
   * The body of the parser's loop for one sheet row: whether it is skipped, the errors it gives
   * and the plan row it becomes.
   */
  method CheckRow(row: RawRow, rowNum: nat, currentInputs: seq<SalesInputRow>, now: nat)
    returns (skip: bool, rowErrors: seq<string>, parsed: Option<SalesInputRow>)
    ensures skip == IsBlankRow(row)
    ensures rowErrors == RowErrors(row, rowNum)
    ensures parsed == RowParsed(row, rowNum, currentInputs, now)
  {
    var seasonRaw := SeasonRaw(row);
    var channelRaw := ChannelRaw(row);
    var categoryRaw := CategoryRaw(row);
    var numericSum := NumericSum(row);
    if Blank(channelRaw) && Blank(seasonRaw) && Blank(categoryRaw) && numericSum == Some(0.0) {
      return true, [], None;
    }
    skip := false;
    var channelCode := GetChannelCode(channelRaw);
    var seasonCode := GetSeasonCode(seasonRaw);
    var categoryCode := GetCategoryCode(categoryRaw);
    assert LookupsOf(row) == Lookups(channelCode, seasonCode, categoryCode);
    rowErrors := [];
    if channelCode.None? {
      rowErrors := rowErrors + [ErrorLine(rowNum, CHANNEL_ERROR, channelRaw)];
    }
    if seasonCode.None? {
      rowErrors := rowErrors + [ErrorLine(rowNum, SEASON_ERROR, seasonRaw)];
    }
    if categoryCode.None? {
      rowErrors := rowErrors + [ErrorLine(rowNum, CATEGORY_ERROR, categoryRaw)];
    }
    var salesTagAmt := NumberElseZero(row.salesTag);
    var discountRate := NumberElseZero(row.discount);
    var actualSalesAmt := NumberOf(row.actualSales);
    var actual: real;
    if actualSalesAmt.None? || actualSalesAmt.value == 0.0 {
      actual := CalculateActualSales(salesTagAmt, discountRate);
    } else {
      actual := actualSalesAmt.value;
    }
    if channelCode.Some? && seasonCode.Some? && categoryCode.Some? {
      var id := RowIdFor(currentInputs, channelCode.value, seasonCode.value, categoryCode.value, now, rowNum);
      parsed := Some(SalesInputRow(id, channelCode.value, seasonCode.value, categoryCode.value,
                                   salesTagAmt, discountRate, actual));
    } else {
      parsed := None;
    }
  }

  /** What sheet row `i` adds to the errors and the plan rows of the rows before it. */
  lemma LoopStep(rawData: seq<RawRow>, i: nat, rowNum: nat, current: seq<SalesInputRow>, now: nat)
    requires i < |rawData| && rowNum == FIRST_ROW + i
    ensures ErrorsFrom(rawData[..i + 1], FIRST_ROW) == ErrorsFrom(rawData[..i], FIRST_ROW) + RowErrors(rawData[i], rowNum)
    ensures ParsedFrom(rawData[..i + 1], FIRST_ROW, current, now) ==
      ParsedFrom(rawData[..i], FIRST_ROW, current, now) + RowParsed(rawData[i], rowNum, current, now).ToSeq()
  {
    assert rawData[..i + 1] == rawData[..i] + [rawData[i]];
    FlatMapNumberedSnoc(rawData[..i], rawData[i], FIRST_ROW, rowNum, RowErrors);
    FlatMapNumberedSnoc(rawData[..i], rawData[i], FIRST_ROW, rowNum, ParseStep(current, now));
  }

  /**
   * Check every sheet row, numbering them from 2 (skipped rows too), collect one error per failed
   * lookup and the plan rows of the rows whose lookups all succeed.
   */
  method ValidateAndParse(rawData: seq<RawRow>, currentInputs: seq<SalesInputRow>, now: nat) returns (result: ValidationResult)
    ensures result.errors == ErrorsFrom(rawData, FIRST_ROW)
    ensures result.parsedData == ParsedFrom(rawData, FIRST_ROW, currentInputs, now)
    ensures result.isValid <==> result.errors == []
  {
    var errors: seq<string> := [];
    var parsedData: seq<SalesInputRow> := [];
    var rowNum: nat := FIRST_ROW;
    for i := 0 to |rawData|
      invariant rowNum == FIRST_ROW + i
      invariant errors == ErrorsFrom(rawData[..i], FIRST_ROW)
      invariant parsedData == ParsedFrom(rawData[..i], FIRST_ROW, currentInputs, now)
    {
      var row := rawData[i];
      LoopStep(rawData, i, rowNum, currentInputs, now);
      var skip, rowErrors, parsed := CheckRow(row, rowNum, currentInputs, now);
      if !skip {
        errors := errors + rowErrors;
        parsedData := parsedData + parsed.ToSeq();
      }
      rowNum := rowNum + 1;
    }
    assert rawData[..|rawData|] == rawData;
    result := ValidationResult(|errors| == 0, errors, parsedData);
  }

  /** The parser returns at most one plan row per sheet row. */
  lemma ParsedBounded(rows: seq<RawRow>, first: nat, current: seq<SalesInputRow>, now: nat)
    ensures |ParsedFrom(rows, first, current, now)| <= |rows|
  {
    FlatMapNumberedBounded(rows, first, ParseStep(current, now), 1);
  }

  /** Every plan row the parser returns has a channel, season and category of the tables. */
  lemma ParsedRowsValid(rows: seq<RawRow>, first: nat, current: seq<SalesInputRow>, now: nat)
    ensures forall j :: 0 <= j < |ParsedFrom(rows, first, current, now)| ==>
      HasTableCodes(ParsedFrom(rows, first, current, now)[j])
  {
    var f := ParseStep(current, now);
    forall k | 0 <= k < |rows|
      ensures All(f(rows[k], first + k), HasTableCodes)
    {
      ParseStepValid(rows[k], first + k, current, now);
    }
    FlatMapNumberedAll(rows, first, f, HasTableCodes);
  }

  /** One parse step yields only rows with table codes. */
  lemma ParseStepValid(row: RawRow, rowNum: nat, current: seq<SalesInputRow>, now: nat)
    ensures All(ParseStep(current, now)(row, rowNum), HasTableCodes)
  {
    var p := RowParsed(row, rowNum, current, now);
    assert ParseStep(current, now)(row, rowNum) == p.ToSeq();
    if p.Some? {
      RowParsedValid(row, rowNum, current, now);
      assert HasTableCodes(p.value);
    }
  }

  /** The upload is valid exactly when every row is skipped or passes all three lookups. */
  lemma ValidIffEveryRowClean(rows: seq<RawRow>, first: nat)
    ensures ErrorsFrom(rows, first) == [] <==> forall k :: 0 <= k < |rows| ==> RowErrors(rows[k], first + k) == []
  {
    FlatMapNumberedEmpty(rows, first, RowErrors);
  }

  /** Without errors, every row that is not skipped becomes a plan row. */
  lemma NoErrorsParsesAll(rows: seq<RawRow>, first: nat, current: seq<SalesInputRow>, now: nat)
    requires ErrorsFrom(rows, first) == []
    requires forall k :: 0 <= k < |rows| ==> !IsBlankRow(rows[k])
    ensures |ParsedFrom(rows, first, current, now)| == |rows|
  {
    ValidIffEveryRowClean(rows, first);
    var f := ParseStep(current, now);
    forall k | 0 <= k < |rows|
      ensures |f(rows[k], first + k)| == 1
    {
      ParseStepOne(rows[k], first + k, current, now);
    }
    FlatMapNumberedOneEach(rows, first, f);
  }

  /** One parse step of a clean row that is not skipped yields exactly one row. */
  lemma ParseStepOne(row: RawRow, rowNum: nat, current: seq<SalesInputRow>, now: nat)
    requires !IsBlankRow(row) && RowErrors(row, rowNum) == []
    ensures |ParseStep(current, now)(row, rowNum)| == 1
  {
    RowParsedIffNoErrors(row, rowNum, current, now);
  }

  /** Each sheet row gives at most three errors. */
  lemma ErrorsBounded(rows: seq<RawRow>, first: nat)
    ensures |ErrorsFrom(rows, first)| <= 3 * |rows|
  {
    FlatMapNumberedBounded(rows, first, RowErrors, 3);
  }

  // ---------------------------------------------------------------- template

  /** A template line: channel name, season code, category name and three zero amounts. */
  datatype TemplateRow = TemplateRow(channel: string, season: string, category: string,
                                     salesTag: real, discount: real, actualSales: real)

  function TemplateRowFor(c: nat, s: nat, k: nat): TemplateRow
    requires c < |CHANNELS| && s < |SEASONS| && k < |ITEM_CATEGORIES|
  {
    TemplateRow(CHANNELS[c].name, SEASONS[s], ITEM_CATEGORIES[k].name, 0.0, 0.0, 0.0)
  }

  /** Line `n` of the template: the line of the triple position `n` encodes. */
  function TemplateLine(n: nat): TemplateRow
    requires n < GRID_SIZE
  {
    TemplateRowFor(ChannelOf(n), SeasonOf(n), CategoryOf(n))
  }

  function TemplateLines(): nat --> TemplateRow {
    (n: nat) requires n < GRID_SIZE => TemplateLine(n)
  }

  /** `rows` is the whole template: one line per position of the grid. */
  ghost predicate TemplateGrid(rows: seq<TemplateRow>) {
    |rows| == GRID_SIZE && Tabulates(rows, TemplateLines())
  }

  /** The line at the position of a triple is that triple's line. */
  lemma TemplateLineOf(c: nat, s: nat, k: nat)
    requires c < |CHANNELS| && s < |SEASONS| && k < |ITEM_CATEGORIES|
    ensures Pos(c, s, k) < GRID_SIZE && TemplateLine(Pos(c, s, k)) == TemplateRowFor(c, s, k)
  {
    PosInjective(c, s, k);
  }

  /** The template: one zero line per (channel, season, category) triple, channel-major. */
  method TemplateData() returns (rows: seq<TemplateRow>)
    ensures TemplateGrid(rows)
  {
    rows := [];
    for c := 0 to |CHANNELS|
      invariant |rows| == c * 100 && Tabulates(rows, TemplateLines())
    {
      for s := 0 to |SEASONS|
        invariant |rows| == c * 100 + s * 5 && Tabulates(rows, TemplateLines())
      {
        for k := 0 to |ITEM_CATEGORIES|
          invariant |rows| == Pos(c, s, k) && Tabulates(rows, TemplateLines())
        {
          TemplateLineOf(c, s, k);
          var line := TemplateRow(CHANNELS[c].name, SEASONS[s], ITEM_CATEGORIES[k].name, 0.0, 0.0, 0.0);
          TabulatesPush(rows, line, TemplateLines());
          rows := rows + [line];
        }
      }
    }
  }

  /** How the sheet reader gives a template line back. */
  function AsRaw(t: TemplateRow): RawRow {
    RawRow(map["채널" := t.channel, "시즌" := t.season, "카테고리" := t.category],
           Num(t.salesTag), Num(t.discount), Num(t.actualSales))
  }

  function AsRawRows(rows: seq<TemplateRow>): (r: seq<RawRow>)
    ensures |r| == |rows| && forall n :: 0 <= n < |rows| ==> r[n] == AsRaw(rows[n])
  {
    if rows == [] then [] else AsRawRows(rows[..|rows| - 1]) + [AsRaw(rows[|rows| - 1])]
  }

  /** The sheet reader gives a template line's three texts back under their first headers. */
  lemma TemplateRowTexts(c: nat, s: nat, k: nat)
    requires c < |CHANNELS| && s < |SEASONS| && k < |ITEM_CATEGORIES|
    ensures var raw := AsRaw(TemplateRowFor(c, s, k));
      ChannelRaw(raw) == Some(CHANNELS[c].name) && SeasonRaw(raw) == Some(SEASONS[s]) &&
      CategoryRaw(raw) == Some(ITEM_CATEGORIES[k].name)
  {
    var raw := AsRaw(TemplateRowFor(c, s, k));
    assert CHANNEL_KEYS[0] in raw.text;
    assert SEASON_KEYS[0] in raw.text;
    assert CATEGORY_KEYS[0] in raw.text;
  }

  /** The three lookups of a template line find its own triple. */
  lemma TemplateRowLookups(c: nat, s: nat, k: nat)
    requires c < |CHANNELS| && s < |SEASONS| && k < |ITEM_CATEGORIES|
    ensures var raw := AsRaw(TemplateRowFor(c, s, k));
      !IsBlankRow(raw) &&
      LookupsOf(raw) == Lookups(Some(CHANNELS[c].code), Some(SEASONS[s]), Some(ITEM_CATEGORIES[k].code))
  {
    TemplateRowTexts(c, s, k);
    ChannelLookupComplete(c);
    SeasonLookupComplete(s);
    CategoryLookupComplete(k);
  }

  /** A template line gives no error. */
  lemma TemplateRowNoErrors(c: nat, s: nat, k: nat, rowNum: nat)
    requires c < |CHANNELS| && s < |SEASONS| && k < |ITEM_CATEGORIES|
    ensures RowErrors(AsRaw(TemplateRowFor(c, s, k)), rowNum) == []
  {
    TemplateRowLookups(c, s, k);
  }

  /** In the rows of an empty scenario, the first row of a triple is the one at its position, so its id is kept. */
  lemma GridRowIdKept(grid: seq<SalesInputRow>, c: nat, s: nat, k: nat, now: nat, rowNum: nat)
    requires EmptyGrid(grid)
    requires c < |CHANNELS| && s < |SEASONS| && k < |ITEM_CATEGORIES|
    ensures Pos(c, s, k) < |grid|
    ensures RowIdFor(grid, CHANNELS[c].code, SEASONS[s], ITEM_CATEGORIES[k].code, now, rowNum) == grid[Pos(c, s, k)].id
  {
    var n := Pos(c, s, k);
    var cc, sc, kc := CHANNELS[c].code, SEASONS[s], ITEM_CATEGORIES[k].code;
    GridAmountsZero(grid, n);
    GridTripleUnique(grid, c, s, k, n);
    assert SameCell(grid[n], cc, sc, kc);
    forall i | 0 <= i < n
      ensures !SameCell(grid[i], cc, sc, kc)
    {
      GridTripleUnique(grid, c, s, k, i);
    }
    assert grid[n].id != "";
  }

  /** Against the rows of an empty scenario, a template line parses into that scenario's row of its triple. */
  lemma TemplateRowParses(c: nat, s: nat, k: nat, rowNum: nat, grid: seq<SalesInputRow>, now: nat)
    requires c < |CHANNELS| && s < |SEASONS| && k < |ITEM_CATEGORIES|
    requires EmptyGrid(grid)
    ensures Pos(c, s, k) < |grid|
    ensures RowParsed(AsRaw(TemplateRowFor(c, s, k)), rowNum, grid, now) == Some(grid[Pos(c, s, k)])
  {
    var raw := AsRaw(TemplateRowFor(c, s, k));
    var n := Pos(c, s, k);
    var cc, sc, kc := CHANNELS[c].code, SEASONS[s], ITEM_CATEGORIES[k].code;
    TemplateRowLookups(c, s, k);
    RowParsedFound(raw, rowNum, grid, now, cc, sc, kc);
    GridRowIdKept(grid, c, s, k, now, rowNum);
    GridTripleUnique(grid, c, s, k, n);
    GridAmountsZero(grid, n);
    ActualSalesUndiscounted(0);
    assert grid[n] == SalesInputRow(grid[n].id, cc, sc, kc, 0.0, 0.0, 0.0);
  }

  /** Line `n` of the template is the line of the triple `n` encodes. */
  lemma TemplateLineTriple(rows: seq<TemplateRow>, n: nat)
    requires TemplateGrid(rows) && n < |rows|
    ensures ChannelOf(n) < |CHANNELS| && SeasonOf(n) < |SEASONS| && CategoryOf(n) < |ITEM_CATEGORIES|
    ensures Pos(ChannelOf(n), SeasonOf(n), CategoryOf(n)) == n
    ensures rows[n] == TemplateRowFor(ChannelOf(n), SeasonOf(n), CategoryOf(n))
  {
    PosDecode(n);
    assert rows[n] == TemplateLines()(n);
  }

  /** Line `n` of the template, read back as any sheet row, gives no error. */
  lemma TemplateLineClean(rows: seq<TemplateRow>, n: nat, rowNum: nat)
    requires TemplateGrid(rows) && n < |rows|
    ensures RowErrors(AsRaw(rows[n]), rowNum) == []
  {
    TemplateLineTriple(rows, n);
    TemplateRowNoErrors(ChannelOf(n), SeasonOf(n), CategoryOf(n), rowNum);
  }

  /** Line `n` of the template, read back as sheet row `FIRST_ROW + n`, gives row `n` of the grid. */
  lemma TemplateLineParses(rows: seq<TemplateRow>, grid: seq<SalesInputRow>, now: nat, n: nat)
    requires TemplateGrid(rows) && EmptyGrid(grid) && n < |rows|
    ensures RowParsed(AsRaw(rows[n]), FIRST_ROW + n, grid, now) == Some(grid[n])
  {
    TemplateLineTriple(rows, n);
    TemplateRowParses(ChannelOf(n), SeasonOf(n), CategoryOf(n), FIRST_ROW + n, grid, now);
  }

  /** Uploading the template gives no error. */
  lemma TemplateUploadClean(rows: seq<TemplateRow>)
    requires TemplateGrid(rows)
    ensures ErrorsFrom(AsRawRows(rows), FIRST_ROW) == []
  {
    var raw := AsRawRows(rows);
    forall n | 0 <= n < |raw|
      ensures RowErrors(raw[n], FIRST_ROW + n) == []
    {
      TemplateLineClean(rows, n, FIRST_ROW + n);
    }
    ValidIffEveryRowClean(raw, FIRST_ROW);
  }

  /** Uploading the template against the rows of an empty scenario gives back exactly those rows, ids included. */
  lemma TemplateRoundTrip(rows: seq<TemplateRow>, grid: seq<SalesInputRow>, now: nat)
    requires TemplateGrid(rows) && EmptyGrid(grid)
    ensures ParsedFrom(AsRawRows(rows), FIRST_ROW, grid, now) == grid
  {
    var raw := AsRawRows(rows);
    var f := ParseStep(grid, now);
    forall n | 0 <= n < |raw|
      ensures f(raw[n], FIRST_ROW + n) == [grid[n]]
    {
      TemplateLineStep(rows, grid, now, n);
    }
    FlatMapNumberedSingletons(raw, FIRST_ROW, f, grid);
  }

  /** One parse step of template line `n` yields row `n` of the grid. */
  lemma TemplateLineStep(rows: seq<TemplateRow>, grid: seq<SalesInputRow>, now: nat, n: nat)
    requires TemplateGrid(rows) && EmptyGrid(grid) && n < |rows|
    ensures ParseStep(grid, now)(AsRawRows(rows)[n], FIRST_ROW + n) == [grid[n]]
  {
    TemplateLineParses(rows, grid, now, n);
    assert AsRawRows(rows)[n] == AsRaw(rows[n]);
  }
}
