/**
 * The checks that guard spreadsheet uploads and downloads: the container signature of a buffer,
 * the checks on an uploaded file, the shape and formula checks on a parsed workbook, and the
 * sanitising of the file and sheet names of a download.
 */
module XlsxSecurity {
  import opened Wrappers
  import opened JsText
  import opened JsArray

  newtype Byte = b: int | 0 <= b < 256

  // ---------------------------------------------------------------- options

  /** The options a caller may pass; `None` is a property the caller left out. */
  datatype SecureReadOptions = SecureReadOptions(
    maxFileSize: Option<int>,
    maxSheets: Option<int>,
    maxRows: Option<int>,
    maxCols: Option<int>,
    allowFormulas: Option<bool>,
    timeout: Option<int>)

  /** A complete set of limits. */
  datatype Limits = Limits(maxFileSize: int, maxSheets: int, maxRows: int, maxCols: int, allowFormulas: bool, timeout: int)

  const DEFAULT_OPTIONS: Limits := Limits(10 * 1024 * 1024, 10, 10000, 100, false, 30000)

  const NO_OPTIONS: SecureReadOptions := SecureReadOptions(None, None, None, None, None, None)

  /** `{ ...DEFAULT_OPTIONS, ...options }`: every supplied property overrides its default. */
  function Resolve(options: SecureReadOptions): (r: Limits)
    ensures options.maxFileSize.None? ==> r.maxFileSize == 10485760
    ensures options.maxSheets.None? ==> r.maxSheets == 10
    ensures options.maxRows.None? ==> r.maxRows == 10000
    ensures options.maxCols.None? ==> r.maxCols == 100
    ensures options.allowFormulas.None? ==> !r.allowFormulas
    ensures options.maxFileSize.Some? ==> r.maxFileSize == options.maxFileSize.value
    ensures options.maxSheets.Some? ==> r.maxSheets == options.maxSheets.value
    ensures options.maxRows.Some? ==> r.maxRows == options.maxRows.value
    ensures options.maxCols.Some? ==> r.maxCols == options.maxCols.value
    ensures options.allowFormulas.Some? ==> r.allowFormulas == options.allowFormulas.value
  {
    Limits(
      options.maxFileSize.GetOr(DEFAULT_OPTIONS.maxFileSize),
      options.maxSheets.GetOr(DEFAULT_OPTIONS.maxSheets),
      options.maxRows.GetOr(DEFAULT_OPTIONS.maxRows),
      options.maxCols.GetOr(DEFAULT_OPTIONS.maxCols),
      options.allowFormulas.GetOr(DEFAULT_OPTIONS.allowFormulas),
      options.timeout.GetOr(DEFAULT_OPTIONS.timeout))
  }

  /** A complete set of limits passed on as options, as `secureReadFile` passes its own. */
  function Supplied(limits: Limits): SecureReadOptions {
    SecureReadOptions(Some(limits.maxFileSize), Some(limits.maxSheets), Some(limits.maxRows),
      Some(limits.maxCols), Some(limits.allowFormulas), Some(limits.timeout))
  }

  /** Resolving limits that are already complete changes nothing, so merging twice equals merging once. */
  lemma ResolveSupplied(options: SecureReadOptions)
    ensures Resolve(Supplied(Resolve(options))) == Resolve(options)
    ensures Resolve(NO_OPTIONS) == DEFAULT_OPTIONS
  {
  }

  /** The outcome of a validation: valid exactly when no error was collected. */
  datatype Validation<E> = Validation(isValid: bool, errors: seq<E>)

  // ---------------------------------------------------------------- the buffer

  const ZIP_SIGNATURE: seq<Byte> := [0x50, 0x4B]
  const OLE2_SIGNATURE: seq<Byte> := [0xD0, 0xCF, 0x11, 0xE0]

  /** `arr[i]`: the byte at `i`, or `undefined` past the end. */
  function At(arr: seq<Byte>, i: nat): Option<Byte> {
    if i < |arr| then Some(arr[i]) else None
  }

  predicate HasPrefix(arr: seq<Byte>, p: seq<Byte>) {
    |p| <= |arr| && arr[..|p|] == p
  }

  /** `validateMagicNumber`: a ZIP container (.xlsx) or an OLE2 container (.xls). */
  function ValidateMagicNumber(buffer: seq<Byte>): (r: bool)
    ensures r <==> HasPrefix(buffer, ZIP_SIGNATURE) || HasPrefix(buffer, OLE2_SIGNATURE)
  {
    if At(buffer, 0) == Some(0x50) && At(buffer, 1) == Some(0x4B) then
      assert buffer[..2] == [buffer[0], buffer[1]];
      true
    else if At(buffer, 0) == Some(0xD0) && At(buffer, 1) == Some(0xCF) && At(buffer, 2) == Some(0x11) && At(buffer, 3) == Some(0xE0) then
      assert buffer[..4] == [buffer[0], buffer[1], buffer[2], buffer[3]];
      true
    else
      assert |buffer| >= 2 ==> buffer[..2][0] == buffer[0] && buffer[..2][1] == buffer[1];
      assert |buffer| >= 4 ==> (buffer[..4][0] == buffer[0] && buffer[..4][1] == buffer[1] &&
        buffer[..4][2] == buffer[2] && buffer[..4][3] == buffer[3]);
      false
  }

  datatype BufferError = NotAnExcelFile

  /** `validateArrayBuffer`: one error exactly when the signature is wrong. */
  function ValidateArrayBuffer(buffer: seq<Byte>): (r: Validation<BufferError>)
    ensures r.isValid <==> r.errors == []
    ensures r.isValid <==> HasPrefix(buffer, ZIP_SIGNATURE) || HasPrefix(buffer, OLE2_SIGNATURE)
    ensures !r.isValid ==> r.errors == [NotAnExcelFile]
  {
    var errors := if !ValidateMagicNumber(buffer) then [NotAnExcelFile] else [];
    Validation(|errors| == 0, errors)
  }

  // ---------------------------------------------------------------- the uploaded file

  /** What the browser reports about a file: its name, its size in bytes and its MIME type. */
  datatype File = File(name: string, size: int, mimeType: string)

  /** One failed file check; the size error carries the limit in megabytes it reports. */
  datatype FileError = FileTooLarge(maxMegabytes: real) | FileTooSmall | UnsupportedType
    | BadExtension | NameTooLong | DangerousName

  const MIN_FILE_SIZE := 100
  const MAX_NAME_LENGTH := 255

  const VALID_MIME_TYPES: seq<string> := [
    "application/vnd.openxmlformats-officedocument.spreadsheetml.sheet",
    "application/vnd.ms-excel"
  ]

  /** The character class `[<>:"|?*\x00-\x1f]`. */
  predicate IsDangerousChar(c: char) {
    c in "<>:\"|?*" || (c as int) < 0x20
  }

  /** `/[<>:"|?*\x00-\x1f]/.test(s)` */
  function TestDangerous(s: string): (b: bool)
    ensures b <==> exists i :: 0 <= i < |s| && IsDangerousChar(s[i])
  {
    if s == [] then false
    else if IsDangerousChar(s[|s| - 1]) then true
    else
      assert forall i :: 0 <= i < |s| - 1 ==> s[..|s| - 1][i] == s[i];
      TestDangerous(s[..|s| - 1])
  }

  /** `[e]` when the check failed, else nothing. */
  function Check(failed: bool, e: FileError): seq<FileError> {
    if failed then [e] else []
  }

  /** A MIME type was reported and it is not one of the two spreadsheet types. */
  predicate UnsupportedMimeType(mimeType: string) {
    mimeType != "" && mimeType !in VALID_MIME_TYPES
  }

  /** The lower-cased name ends in neither `.xlsx` nor `.xls`. */
  predicate WrongExtension(name: string) {
    !EndsWith(Lower(name), ".xlsx") && !EndsWith(Lower(name), ".xls")
  }

  /** The name holds a dangerous character or `..`. */
  predicate UnsafeName(name: string) {
    TestDangerous(name) || Contains(name, "..")
  }

  /** The limit the size error reports, in megabytes. */
  function MaxMegabytes(opts: Limits): real {
    opts.maxFileSize as real / 1024.0 / 1024.0
  }

  /** Which of the six file checks failed, in the order they run. */
  datatype FileChecks = FileChecks(tooLarge: bool, tooSmall: bool, badType: bool, badExtension: bool,
                                   nameTooLong: bool, unsafeName: bool)

  function RunFileChecks(file: File, opts: Limits): FileChecks {
    FileChecks(file.size > opts.maxFileSize, file.size < MIN_FILE_SIZE, UnsupportedMimeType(file.mimeType),
               WrongExtension(file.name), |file.name| > MAX_NAME_LENGTH, UnsafeName(file.name))
  }

  /** The errors of the failed checks, in the order the checks run. */
  function ErrorsOf(c: FileChecks, maxMegabytes: real): seq<FileError> {
    Check(c.tooLarge, FileTooLarge(maxMegabytes)) +
    Check(c.tooSmall, FileTooSmall) +
    Check(c.badType, UnsupportedType) +
    Check(c.badExtension, BadExtension) +
    Check(c.nameTooLong, NameTooLong) +
    Check(c.unsafeName, DangerousName)
  }

  function FileErrors(file: File, opts: Limits): seq<FileError> {
    ErrorsOf(RunFileChecks(file, opts), MaxMegabytes(opts))
  }

  /** `if (failed) errors.push(e)` */
  method PushIf(errors0: seq<FileError>, failed: bool, e: FileError) returns (errors: seq<FileError>)
    ensures errors == errors0 + Check(failed, e)
  {
    errors := errors0;
    if failed {
      errors := errors + [e];
    }
  }

  /** `validateFile`: one error for each failed check, in the order the checks run. */
  method ValidateFile(file: File, options: SecureReadOptions) returns (r: Validation<FileError>)
    ensures r.errors == FileErrors(file, Resolve(options))
    ensures r.isValid <==> r.errors == []
  {
    var opts := Resolve(options);
    var errors: seq<FileError> := [];
    errors := PushIf(errors, file.size > opts.maxFileSize, FileTooLarge(MaxMegabytes(opts)));
    assert errors == Check(file.size > opts.maxFileSize, FileTooLarge(MaxMegabytes(opts)));
    errors := PushIf(errors, file.size < MIN_FILE_SIZE, FileTooSmall);
    errors := PushIf(errors, UnsupportedMimeType(file.mimeType), UnsupportedType);
    errors := PushIf(errors, WrongExtension(file.name), BadExtension);
    errors := PushIf(errors, |file.name| > MAX_NAME_LENGTH, NameTooLong);
    errors := PushIf(errors, UnsafeName(file.name), DangerousName);
    r := Validation(|errors| == 0, errors);
  }

  /** The check that reports `e` failed (for the size error, with the limit it reports). */
  predicate Reports(c: FileChecks, maxMegabytes: real, e: FileError) {
    match e
    case FileTooLarge(m) => c.tooLarge && m == maxMegabytes
    case FileTooSmall => c.tooSmall
    case UnsupportedType => c.badType
    case BadExtension => c.badExtension
    case NameTooLong => c.nameTooLong
    case DangerousName => c.unsafeName
  }

  lemma CheckHas(failed: bool, e: FileError, x: FileError)
    ensures x in Check(failed, e) <==> failed && x == e
  {
  }

  /** An error is reported exactly when the check that reports it failed. */
  lemma ErrorsOfSpec(c: FileChecks, maxMegabytes: real)
    ensures forall e :: e in ErrorsOf(c, maxMegabytes) <==> Reports(c, maxMegabytes, e)
  {
    forall e
      ensures e in ErrorsOf(c, maxMegabytes) <==> Reports(c, maxMegabytes, e)
    {
      CheckHas(c.tooLarge, FileTooLarge(maxMegabytes), e);
      CheckHas(c.tooSmall, FileTooSmall, e);
      CheckHas(c.badType, UnsupportedType, e);
      CheckHas(c.badExtension, BadExtension, e);
      CheckHas(c.nameTooLong, NameTooLong, e);
      CheckHas(c.unsafeName, DangerousName, e);
    }
  }

  /** A name is unsafe exactly when one of its characters is dangerous or it contains `..`. */
  lemma UnsafeNameIff(name: string)
    ensures UnsafeName(name) <==> (exists i :: 0 <= i < |name| && IsDangerousChar(name[i])) || Contains(name, "..")
  {
  }

  /** The position of each kind of error among the checks. */
  function CheckOrder(e: FileError): nat {
    match e
    case FileTooLarge(_) => 0
    case FileTooSmall => 1
    case UnsupportedType => 2
    case BadExtension => 3
    case NameTooLong => 4
    case DangerousName => 5
  }

  /** Errors whose check positions increase strictly, all before position `k`, at most `k` of them. */
  predicate OrderedBelow(errors: seq<FileError>, k: nat) {
    |errors| <= k &&
    (forall i, j :: 0 <= i < j < |errors| ==> CheckOrder(errors[i]) < CheckOrder(errors[j])) &&
    (forall i :: 0 <= i < |errors| ==> CheckOrder(errors[i]) < k)
  }

  lemma PushOrdered(errors: seq<FileError>, failed: bool, e: FileError)
    requires OrderedBelow(errors, CheckOrder(e))
    ensures OrderedBelow(errors + Check(failed, e), CheckOrder(e) + 1)
  {
  }

  lemma SizeAndTypeOrdered(c: FileChecks, maxMegabytes: real)
    ensures OrderedBelow(Check(c.tooLarge, FileTooLarge(maxMegabytes)) + Check(c.tooSmall, FileTooSmall) +
                         Check(c.badType, UnsupportedType), 3)
  {
    var e0: seq<FileError> := [];
    PushOrdered(e0, c.tooLarge, FileTooLarge(maxMegabytes));
    var e1 := Check(c.tooLarge, FileTooLarge(maxMegabytes));
    assert e0 + e1 == e1;
    PushOrdered(e1, c.tooSmall, FileTooSmall);
    PushOrdered(e1 + Check(c.tooSmall, FileTooSmall), c.badType, UnsupportedType);
  }

  /** No error is reported twice, so there are at most six. */
  lemma ErrorsOfDistinct(c: FileChecks, maxMegabytes: real)
    ensures Distinct(ErrorsOf(c, maxMegabytes))
    ensures |ErrorsOf(c, maxMegabytes)| <= 6
  {
    var e3 := Check(c.tooLarge, FileTooLarge(maxMegabytes)) + Check(c.tooSmall, FileTooSmall) +
              Check(c.badType, UnsupportedType);
    SizeAndTypeOrdered(c, maxMegabytes);
    PushOrdered(e3, c.badExtension, BadExtension);
    var e4 := e3 + Check(c.badExtension, BadExtension);
    PushOrdered(e4, c.nameTooLong, NameTooLong);
    var e5 := e4 + Check(c.nameTooLong, NameTooLong);
    PushOrdered(e5, c.unsafeName, DangerousName);
  }

  /** A file passes exactly when it is within both size limits, of an allowed type, extension and name length, and its name is clean. */
  lemma FileValidIff(file: File, opts: Limits)
    ensures FileErrors(file, opts) == [] <==>
      (MIN_FILE_SIZE <= file.size <= opts.maxFileSize && !UnsupportedMimeType(file.mimeType) &&
       !WrongExtension(file.name) && |file.name| <= MAX_NAME_LENGTH && !UnsafeName(file.name))
  {
  }

  // ---------------------------------------------------------------- the workbook

  /** A decoded `!ref` range: first and last row, first and last column. */
  datatype Range = Range(startRow: int, startCol: int, endRow: int, endCol: int)

  /** The range of the reference `A1`. */
  const A1: Range := Range(0, 0, 0, 0)

  /** One key of a sheet object, in iteration order, with the formula of its cell if any. */
  datatype Cell = Cell(address: string, formula: Option<string>)

  /** A sheet: its decoded `!ref` (absent or empty is `None`) and its keys. */
  datatype Sheet = Sheet(ref: Option<Range>, cells: seq<Cell>)

  /** A sheet under the name `SheetNames` lists it by. */
  datatype NamedSheet = NamedSheet(name: string, sheet: Sheet)

  datatype WorkbookError =
    | TooManySheets(maxSheets: int)
    | NoSheets
    | TooManyRows(sheetName: string, maxRows: int)
    | TooManyCols(sheetName: string, maxCols: int)
    | FormulaFound(sheetName: string, cellAddress: string)

  /** `decode_range(sheet['!ref'] || 'A1')` */
  function SheetRange(sheet: Sheet): Range {
    sheet.ref.GetOr(A1)
  }

  function RowCount(range: Range): int {
    range.endRow - range.startRow + 1
  }

  function ColCount(range: Range): int {
    range.endCol - range.startCol + 1
  }

  /** The errors of the sheet-count check. */
  function CountErrors(sheetCount: nat, opts: Limits): seq<WorkbookError> {
    (if sheetCount > opts.maxSheets then [TooManySheets(opts.maxSheets)] else []) +
    (if sheetCount == 0 then [NoSheets] else [])
  }

  /** The errors of one sheet's size check: rows first, then columns. */
  function SpanErrors(ns: NamedSheet, opts: Limits): seq<WorkbookError> {
    var range := SheetRange(ns.sheet);
    (if RowCount(range) > opts.maxRows then [TooManyRows(ns.name, opts.maxRows)] else []) +
    (if ColCount(range) > opts.maxCols then [TooManyCols(ns.name, opts.maxCols)] else [])
  }

  function SpanErrorsOf(opts: Limits): (NamedSheet, nat) -> seq<WorkbookError> {
    (ns: NamedSheet, _: nat) => SpanErrors(ns, opts)
  }

  /** A cell key that is not metadata and whose cell carries a non-empty formula. */
  predicate IsFormulaCell(cell: Cell) {
    !StartsWith(cell.address, "!") && cell.formula.Some? && cell.formula.value != ""
  }

  function FormulaCell(): Cell -> bool {
    (cell: Cell) => IsFormulaCell(cell)
  }

  /** The formula error of one sheet: the first formula cell in key order, or none. */
  function FormulaErrors(ns: NamedSheet): seq<WorkbookError> {
    match FindIndex(ns.sheet.cells, FormulaCell())
    case Some(j) => [FormulaFound(ns.name, ns.sheet.cells[j].address)]
    case None => []
  }

  function FormulaErrorsOf(): (NamedSheet, nat) -> seq<WorkbookError> {
    (ns: NamedSheet, _: nat) => FormulaErrors(ns)
  }

  /** Everything `validateWorkbook` reports, in order: count, then sizes, then formulas. */
  function WorkbookErrors(workbook: seq<NamedSheet>, opts: Limits): seq<WorkbookError> {
    CountErrors(|workbook|, opts) + FlatMapNumbered(workbook, 0, SpanErrorsOf(opts)) +
    (if opts.allowFormulas then [] else FlatMapNumbered(workbook, 0, FormulaErrorsOf()))
  }

  /** The size check of one sheet, appending to the errors so far. */
  method CheckSpan(ns: NamedSheet, opts: Limits, errors0: seq<WorkbookError>) returns (errors: seq<WorkbookError>)
    ensures errors == errors0 + SpanErrors(ns, opts)
  {
    errors := errors0;
    var range := SheetRange(ns.sheet);
    var rowCount := range.endRow - range.startRow + 1;
    var colCount := range.endCol - range.startCol + 1;
    if rowCount > opts.maxRows {
      errors := errors + [TooManyRows(ns.name, opts.maxRows)];
    }
    if colCount > opts.maxCols {
      errors := errors + [TooManyCols(ns.name, opts.maxCols)];
    }
  }

  /** The formula scan of one sheet: skip metadata keys, report the first formula and stop. */
  method ScanFormulas(ns: NamedSheet, errors0: seq<WorkbookError>) returns (errors: seq<WorkbookError>)
    ensures errors == errors0 + FormulaErrors(ns)
  {
    errors := errors0;
    var cells := ns.sheet.cells;
    var j := 0;
    while j < |cells|
      invariant 0 <= j <= |cells|
      invariant errors == errors0
      invariant forall k :: 0 <= k < j ==> !IsFormulaCell(cells[k])
    {
      if StartsWith(cells[j].address, "!") {
        j := j + 1;
        continue;
      }
      var cell := cells[j];
      if cell.formula.Some? && cell.formula.value != "" {
        errors := errors + [FormulaFound(ns.name, cell.address)];
        break;
      }
      j := j + 1;
    }
  }

  /** The size check of every sheet, in `SheetNames` order. */
  method CheckSpans(workbook: seq<NamedSheet>, opts: Limits, errors0: seq<WorkbookError>) returns (errors: seq<WorkbookError>)
    ensures errors == errors0 + FlatMapNumbered(workbook, 0, SpanErrorsOf(opts))
  {
    errors := errors0;
    for i := 0 to |workbook|
      invariant errors == errors0 + FlatMapNumbered(workbook[..i], 0, SpanErrorsOf(opts))
    {
      errors := CheckSpan(workbook[i], opts, errors);
      FlatMapNumberedSnoc(workbook[..i], workbook[i], 0, i, SpanErrorsOf(opts));
      assert workbook[..i + 1] == workbook[..i] + [workbook[i]];
    }
    assert workbook[..|workbook|] == workbook;
  }

  /** The formula scan of every sheet, in `SheetNames` order. */
  method ScanAllFormulas(workbook: seq<NamedSheet>, errors0: seq<WorkbookError>) returns (errors: seq<WorkbookError>)
    ensures errors == errors0 + FlatMapNumbered(workbook, 0, FormulaErrorsOf())
  {
    errors := errors0;
    for i := 0 to |workbook|
      invariant errors == errors0 + FlatMapNumbered(workbook[..i], 0, FormulaErrorsOf())
    {
      errors := ScanFormulas(workbook[i], errors);
      FlatMapNumberedSnoc(workbook[..i], workbook[i], 0, i, FormulaErrorsOf());
      assert workbook[..i + 1] == workbook[..i] + [workbook[i]];
    }
    assert workbook[..|workbook|] == workbook;
  }

  /** `validateWorkbook` */
  method ValidateWorkbook(workbook: seq<NamedSheet>, options: SecureReadOptions) returns (r: Validation<WorkbookError>)
    ensures r.errors == WorkbookErrors(workbook, Resolve(options))
    ensures r.isValid <==> r.errors == []
  {
    var opts := Resolve(options);
    var errors: seq<WorkbookError> := [];
    if |workbook| > opts.maxSheets {
      errors := errors + [TooManySheets(opts.maxSheets)];
    }
    if |workbook| == 0 {
      errors := errors + [NoSheets];
    }
    assert errors == CountErrors(|workbook|, opts);
    errors := CheckSpans(workbook, opts, errors);
    if !opts.allowFormulas {
      errors := ScanAllFormulas(workbook, errors);
    }
    r := Validation(|errors| == 0, errors);
  }

  /** A sheet within both limits. */
  predicate WithinLimits(ns: NamedSheet, opts: Limits) {
    RowCount(SheetRange(ns.sheet)) <= opts.maxRows && ColCount(SheetRange(ns.sheet)) <= opts.maxCols
  }

  /** A sheet without a formula cell. */
  predicate FormulaFree(ns: NamedSheet) {
    forall k :: 0 <= k < |ns.sheet.cells| ==> !IsFormulaCell(ns.sheet.cells[k])
  }

  /**
   * A workbook passes exactly when it has between one and `maxSheets` sheets, every sheet is
   * within the row and column limits, and, unless formulas are allowed, no sheet has a formula.
   */
  lemma WorkbookValidIff(workbook: seq<NamedSheet>, opts: Limits)
    ensures WorkbookErrors(workbook, opts) == [] <==>
      (1 <= |workbook| <= opts.maxSheets &&
       (forall i :: 0 <= i < |workbook| ==> WithinLimits(workbook[i], opts)) &&
       (opts.allowFormulas || forall i :: 0 <= i < |workbook| ==> FormulaFree(workbook[i])))
  {
    SpansCleanIff(workbook, opts);
    FormulasCleanIff(workbook);
    var a, b := CountErrors(|workbook|, opts), FlatMapNumbered(workbook, 0, SpanErrorsOf(opts));
    var c := if opts.allowFormulas then [] else FlatMapNumbered(workbook, 0, FormulaErrorsOf());
    assert a + b + c == [] <==> a == [] && b == [] && c == [];
  }

  /** No sheet gives a size error exactly when every sheet is within the limits. */
  lemma SpansCleanIff(workbook: seq<NamedSheet>, opts: Limits)
    ensures FlatMapNumbered(workbook, 0, SpanErrorsOf(opts)) == [] <==>
      forall i :: 0 <= i < |workbook| ==> WithinLimits(workbook[i], opts)
  {
    FlatMapNumberedEmpty(workbook, 0, SpanErrorsOf(opts));
    assert forall i :: 0 <= i < |workbook| ==> SpanErrorsOf(opts)(workbook[i], 0 + i) == SpanErrors(workbook[i], opts);
  }

  /** No sheet gives a formula error exactly when no sheet has a formula cell. */
  lemma FormulasCleanIff(workbook: seq<NamedSheet>)
    ensures FlatMapNumbered(workbook, 0, FormulaErrorsOf()) == [] <==>
      forall i :: 0 <= i < |workbook| ==> FormulaFree(workbook[i])
  {
    FlatMapNumberedEmpty(workbook, 0, FormulaErrorsOf());
    forall i | 0 <= i < |workbook|
      ensures FormulaErrorsOf()(workbook[i], 0 + i) == [] <==> FormulaFree(workbook[i])
    {
      var ns := workbook[i];
      assert FormulaErrorsOf()(ns, 0 + i) == FormulaErrors(ns);
      assert FormulaErrors(ns) == [] <==> FindIndex(ns.sheet.cells, FormulaCell()).None?;
      assert FormulaFree(ns) <==> forall k :: 0 <= k < |ns.sheet.cells| ==> !FormulaCell()(ns.sheet.cells[k]);
    }
  }

  /** With formulas disallowed, each sheet contributes at most one formula error. */
  lemma FormulaErrorsAtMostOnePerSheet(workbook: seq<NamedSheet>)
    ensures forall i :: 0 <= i < |workbook| ==> |FormulaErrors(workbook[i])| <= 1
    ensures |FlatMapNumbered(workbook, 0, FormulaErrorsOf())| <= |workbook|
  {
    assert forall i :: 0 <= i < |workbook| ==> |FormulaErrorsOf()(workbook[i], 0 + i)| <= 1;
    FlatMapNumberedBounded(workbook, 0, FormulaErrorsOf(), 1);
  }

  /** The formula error of a sheet names the first formula cell, metadata keys skipped. */
  lemma FormulaErrorNamesFirstFormula(ns: NamedSheet, j: nat)
    requires j < |ns.sheet.cells| && IsFormulaCell(ns.sheet.cells[j])
    requires forall k :: 0 <= k < j ==> !IsFormulaCell(ns.sheet.cells[k])
    ensures FormulaErrors(ns) == [FormulaFound(ns.name, ns.sheet.cells[j].address)]
  {
    var found := FindIndex(ns.sheet.cells, FormulaCell());
    assert found.Some? && found.value == j;
  }

  datatype SheetLimitError = RowLimitExceeded(maxRows: int) | ColLimitExceeded(maxCols: int)

  /** The limit check `secureSheetToJson` makes before converting a sheet: rows first. */
  function CheckSheetLimits(sheet: Sheet, options: SecureReadOptions): Option<SheetLimitError> {
    var opts := Resolve(options);
    var range := SheetRange(sheet);
    if RowCount(range) > opts.maxRows then Some(RowLimitExceeded(opts.maxRows))
    else if ColCount(range) > opts.maxCols then Some(ColLimitExceeded(opts.maxCols))
    else None
  }

  /** A sheet passes the conversion check exactly when the workbook check finds no size error for it. */
  lemma SheetLimitsAgree(ns: NamedSheet, options: SecureReadOptions)
    ensures CheckSheetLimits(ns.sheet, options).None? <==> SpanErrors(ns, Resolve(options)) == []
  {
  }

  // ---------------------------------------------------------------- names of a download

  /** No two consecutive dots. */
  predicate NoDotDot(s: string) {
    forall i :: 0 <= i < |s| - 1 ==> !(s[i] == '.' && s[i + 1] == '.')
  }

  /** `s.replace(/\.\./g, '')`: pairs of dots removed left to right, without overlap. */
  function RemoveDotDot(s: string): (r: string)
    ensures |r| <= |s| && (|s| - |r|) % 2 == 0
    decreases |s|
  {
    if |s| >= 2 && s[0] == '.' && s[1] == '.' then RemoveDotDot(s[2..])
    else if s == [] then []
    else [s[0]] + RemoveDotDot(s[1..])
  }

  /** `s.substring(0, n)` */
  function Truncate(s: string, n: nat): (r: string)
    ensures |r| == (if |s| <= n then |s| else n) && r <= s
  {
    if |s| <= n then s else s[..n]
  }

  function NotDangerous(): char -> bool {
    (c: char) => !IsDangerousChar(c)
  }

  const MAX_SAFE_NAME_LENGTH := 200
  const MAX_SHEET_NAME_LENGTH := 31
  const MAX_DATA_ROWS := 10000

  /** The file name of a download: dangerous characters dropped, then `..` pairs, then cut to 200. */
  function SanitizeFileName(filename: string): (r: string)
    ensures |r| <= MAX_SAFE_NAME_LENGTH
    ensures forall i :: 0 <= i < |r| ==> r[i] in filename && !IsDangerousChar(r[i])
  {
    var cleaned := Filter(filename, NotDangerous());
    var undotted := RemoveDotDot(cleaned);
    RemoveDotDotSpec(cleaned);
    var r := Truncate(undotted, MAX_SAFE_NAME_LENGTH);
    assert forall i :: 0 <= i < |r| ==> r[i] == undotted[i] && undotted[i] in cleaned;
    r
  }

  /** A name with no dangerous character, no `..` and at most 200 characters. */
  predicate SafeFileName(s: string) {
    (forall i :: 0 <= i < |s| ==> !IsDangerousChar(s[i])) && NoDotDot(s) && |s| <= MAX_SAFE_NAME_LENGTH
  }

  /**
   * Removing dot pairs leaves no dot pair, keeps only characters of the input, and keeps a
   * leading character that is not a dot in front.
   */
  lemma {:induction false} RemoveDotDotSpec(s: string)
    ensures NoDotDot(RemoveDotDot(s))
    ensures forall i :: 0 <= i < |RemoveDotDot(s)| ==> RemoveDotDot(s)[i] in s
    ensures |s| > 0 && s[0] != '.' ==> |RemoveDotDot(s)| > 0 && RemoveDotDot(s)[0] == s[0]
    decreases |s|
  {
    if |s| >= 2 && s[0] == '.' && s[1] == '.' {
      RemoveDotDotSpec(s[2..]);
      forall i | 0 <= i < |RemoveDotDot(s)| ensures RemoveDotDot(s)[i] in s {
        assert RemoveDotDot(s)[i] in s[2..];
      }
    } else if s != [] {
      var rest := RemoveDotDot(s[1..]);
      RemoveDotDotSpec(s[1..]);
      var r := [s[0]] + rest;
      assert r == RemoveDotDot(s);
      forall i | 0 <= i < |r| - 1 ensures !(r[i] == '.' && r[i + 1] == '.') {
        if i == 0 {
          if s[0] == '.' && |s| >= 2 {
            assert s[1..][0] != '.';
          }
        } else {
          assert r[i] == rest[i - 1] && r[i + 1] == rest[i];
        }
      }
      forall i | 0 <= i < |r| ensures r[i] in s {
        if i > 0 {
          assert r[i] == rest[i - 1];
          assert rest[i - 1] in s[1..];
        }
      }
    }
  }

  /** A string without dot pairs is left as it is. */
  lemma {:induction false} RemoveDotDotKeeps(s: string)
    requires NoDotDot(s)
    ensures RemoveDotDot(s) == s
    decreases |s|
  {
    if s != [] {
      assert NoDotDot(s[1..]);
      RemoveDotDotKeeps(s[1..]);
    }
  }

  /** The sanitised file name is safe. */
  lemma SanitizeFileNameSafe(filename: string)
    ensures SafeFileName(SanitizeFileName(filename))
  {
    var cleaned := Filter(filename, NotDangerous());
    var undotted := RemoveDotDot(cleaned);
    RemoveDotDotSpec(cleaned);
    var r := Truncate(undotted, MAX_SAFE_NAME_LENGTH);
    forall i | 0 <= i < |r| ensures !IsDangerousChar(r[i]) {
      assert r[i] == undotted[i];
      assert undotted[i] in cleaned;
    }
    assert forall i :: 0 <= i < |r| ==> r[i] == undotted[i];
  }

  /** A safe name is its own sanitised form, so sanitising twice equals sanitising once. */
  lemma SanitizeFileNameKeepsSafe(filename: string)
    requires SafeFileName(filename)
    ensures SanitizeFileName(filename) == filename
  {
    FilterAll(filename, NotDangerous());
    RemoveDotDotKeeps(filename);
  }

  lemma SanitizeFileNameIdempotent(filename: string)
    ensures SanitizeFileName(SanitizeFileName(filename)) == SanitizeFileName(filename)
  {
    SanitizeFileNameSafe(filename);
    SanitizeFileNameKeepsSafe(SanitizeFileName(filename));
  }

  /** No dot pair is the same as not containing `..`. */
  lemma NoDotDotNotContains(s: string)
    ensures NoDotDot(s) <==> !Contains(s, "..")
  {
    if !NoDotDot(s) {
      var i :| 0 <= i < |s| - 1 && s[i] == '.' && s[i + 1] == '.';
      assert SliceAt(s, "..", i);
    }
    if Contains(s, "..") {
      var i :| SliceAt(s, "..", i);
      assert s[i..i + 2][0] == s[i] && s[i..i + 2][1] == s[i + 1];
    }
  }

  /** A sanitised name passes the dangerous-name and length checks of an upload. */
  lemma SanitizedNamePassesUploadChecks(filename: string)
    ensures !TestDangerous(SanitizeFileName(filename)) && !Contains(SanitizeFileName(filename), "..")
    ensures |SanitizeFileName(filename)| <= MAX_NAME_LENGTH
  {
    SanitizeFileNameSafe(filename);
    NoDotDotNotContains(SanitizeFileName(filename));
  }

  /** The character class `[\[\]\\\/\?\*:]` that sheet names may not hold. */
  predicate IsSheetNameChar(c: char) {
    c !in "[]\\/?*:"
  }

  function SheetNameChar(): char -> bool {
    (c: char) => IsSheetNameChar(c)
  }

  /** The sheet name of a download: forbidden characters dropped, then cut to 31. */
  function SanitizeSheetName(sheetName: string): (r: string)
    ensures |r| <= MAX_SHEET_NAME_LENGTH
    ensures forall i :: 0 <= i < |r| ==> IsSheetNameChar(r[i])
  {
    var cleaned := Filter(sheetName, SheetNameChar());
    var r := Truncate(cleaned, MAX_SHEET_NAME_LENGTH);
    assert forall i :: 0 <= i < |r| ==> r[i] == cleaned[i];
    r
  }

  /** A sheet name that is already allowed is kept as it is. */
  lemma SanitizeSheetNameKeepsAllowed(sheetName: string)
    requires |sheetName| <= MAX_SHEET_NAME_LENGTH
    requires forall i :: 0 <= i < |sheetName| ==> IsSheetNameChar(sheetName[i])
    ensures SanitizeSheetName(sheetName) == sheetName
  {
    FilterAll(sheetName, SheetNameChar());
  }

  datatype WriteError = NotXlsxName | TooManyDataRows(maxRows: int)

  /** What `secureWriteFile` hands to the writer, or why it throws first. */
  datatype WriteOutcome = Written(fileName: string, sheetName: string, rows: nat) | Rejected(error: WriteError)

  /** `secureWriteFile` up to the write itself: the name checks, then the row limit. */
  function SecureWriteFile(dataLength: nat, filename: string, sheetName: string): (r: WriteOutcome)
    ensures !EndsWith(SanitizeFileName(filename), ".xlsx") ==> r == Rejected(NotXlsxName)
    ensures EndsWith(SanitizeFileName(filename), ".xlsx") && dataLength > MAX_DATA_ROWS ==>
      r == Rejected(TooManyDataRows(MAX_DATA_ROWS))
    ensures r.Written? <==> EndsWith(SanitizeFileName(filename), ".xlsx") && dataLength <= MAX_DATA_ROWS
    ensures r.Written? ==> (SafeFileName(r.fileName) && EndsWith(r.fileName, ".xlsx") &&
      |r.sheetName| <= MAX_SHEET_NAME_LENGTH && r.rows == dataLength)
  {
    var safeFilename := SanitizeFileName(filename);
    if !EndsWith(safeFilename, ".xlsx") then Rejected(NotXlsxName)
    else
      var safeSheetName := SanitizeSheetName(sheetName);
      if dataLength > DEFAULT_OPTIONS.maxRows then Rejected(TooManyDataRows(DEFAULT_OPTIONS.maxRows))
      else
        SanitizeFileNameSafe(filename);
        Written(safeFilename, safeSheetName, dataLength)
  }
}
