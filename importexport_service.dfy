/**
 * The import/export service: reading an upload's headers (with title-row detection), the
 * field summary for the front end, mapping a sheet row to canonical fields and back for the
 * error report, the import entry point, and the three-step export protocol (header
 * extraction, task creation behind an optional approval, materialisation on first download).
 */
module Service {
  import opened Values
  import opened Text
  import opened Entities
  import opened Progress
  import opened QueryExport

  /** The marker a template's title banner carries. */
  const TemplateMarker: string := "导入模板"
  /** `DIRECTORY_SEPARATOR` on the server. */
  const DirectorySeparator: string := "/"

  const UploadFailed: string := "文件上传失败"
  const UploadAbnormal: string := "文件上传异常"
  const TaskMissing: string := "导出任务不存在"
  const TaskNotApproved: string := "导出任务未审核通过"
  const NoApprovalNeeded: string := "无需审核"

  /**
   * What one request sees of the world: the clock (`now()`, `time()` and the `Ymdhi`
   * rendering of `now()`), random strings (`Str::random(8)`, `Str::random(6)`), the uuid,
   * the signed-in user and whether they are a super admin, configuration (system name,
   * storage root, whether exports need approval), and the answers of the storage disk and
   * the approval service.
   */
  datatype Env = Env(
    now: Time, unixTime: nat, stamp: string, rand8: string, rand6: string, uuid: string,
    user: User, superAdmin: bool,
    systemName: string, storageRoot: string, approvalRequired: bool,
    stored: bool, approvalError: Option<string>,
    storeEnd: Time)

  // ================================================================ file names

  /** The client's file name with every ".{ext}" removed and every '-' turned into '_'. */
  function UploadStem(originalName: string, extension: string): string
  {
    ReplaceAll(ReplaceAll(originalName, "." + extension, ""), "-", "_")
  }

  /** `createFilename($file)`. */
  function CreateFilename(originalName: string, extension: string, time: nat, rand6: string): string
  {
    UploadStem(originalName, extension) + "_" + Decimal(time) + "_" + rand6 + "." + extension
  }

  /**
   * A stored upload's name starts with the client's name stripped of its extension and of
   * every dash, and ends with the original extension; a name without the extension and
   * without dashes is kept as it is.
   */
  lemma CreateFilenameShape(originalName: string, extension: string, time: nat, rand6: string)
    ensures var r := CreateFilename(originalName, extension, time, rand6);
            var stem := UploadStem(originalName, extension);
            && r[..|stem|] == stem
            && '-' !in stem
            && |r| > |extension| && r[|r| - |extension| - 1..] == "." + extension
    ensures !Occurs(originalName, "." + extension) && '-' !in originalName
            ==> UploadStem(originalName, extension) == originalName
  {
    ReplaceCharRemoves(ReplaceAll(originalName, "." + extension, ""), '-', "_");
    if !Occurs(originalName, "." + extension) && '-' !in originalName {
      ReplaceAbsent(originalName, "." + extension, "");
      NoCharNoOccurrence(originalName, '-');
      ReplaceAbsent(originalName, "-", "_");
    }
  }

  lemma {:induction false} NoCharNoOccurrence(s: string, c: char)
    requires c !in s
    ensures !Occurs(s, [c])
    decreases |s|
  {
    if |s| > 0 {
      assert s[0] != c;
      NoCharNoOccurrence(s[1..], c);
    }
  }

  /** `exportCreateFileName($task_name)`; a null task name renders as "". */
  function ExportFileName(taskName: Option<string>, time: nat, rand6: string): (r: string)
    ensures var t := taskName.GetOr(""); |r| > |t| + 5 && r[..|t|] == t && r[|t|] == '_'
    ensures r[|r| - 5..] == ".xlsx"
  {
    taskName.GetOr("") + "_" + Decimal(time) + "_" + rand6 + ".xlsx"
  }

  /** The path an export is materialised to, on the private disk. */
  function ExportPath(taskName: Option<string>, time: nat, rand6: string): string
  {
    "export/" + ExportFileName(taskName, time, rand6)
  }

  /** `getFileStoragePath($file_path)`: the private disk's root, the separator, the path. */
  function FileStoragePath(root: string, path: string): (r: string)
    ensures |r| == |root| + 1 + |path| && r[..|root|] == root && r[|root| + 1..] == path
    ensures r[|root|] == '/'
  {
    root + DirectorySeparator + path
  }

  /** An export path is never falsy, so once recorded it is always served as it is. */
  lemma ExportPathTruthy(taskName: Option<string>, time: nat, rand6: string)
    ensures StrTruthy(ExportPath(taskName, time, rand6))
    ensures ExportPath(taskName, time, rand6)[|ExportPath(taskName, time, rand6)| - 5..] == ".xlsx"
  {
    var p := ExportPath(taskName, time, rand6);
    assert p[0] == 'e';
  }

  // ================================================================ title row and headers

  /** `isTemplateContainTitleRow`, given the first cell of the first row and the configured system name. */
  function ContainsTitleRow(firstCell: Header, systemName: string): bool
  {
    if !HeaderTruthy(firstCell) then false
    else if StrTruthy(systemName) then
      Contains(Trim(firstCell.value), systemName) || Contains(Trim(firstCell.value), TemplateMarker)
    else Contains(Trim(firstCell.value), TemplateMarker)
  }

  /**
   * A title row is detected exactly when the first cell is truthy and its trimmed text holds
   * the template marker or, when a system name is configured, the system name.
   */
  lemma TitleRowDecision(firstCell: Header, systemName: string)
    ensures ContainsTitleRow(firstCell, systemName) <==>
      HeaderTruthy(firstCell) &&
      ((exists k :: OccursAt(Trim(firstCell.value), TemplateMarker, k)) ||
       (StrTruthy(systemName) && exists k :: OccursAt(Trim(firstCell.value), systemName, k)))
  {
    if HeaderTruthy(firstCell) {
      ContainsIff(Trim(firstCell.value), TemplateMarker);
      ContainsIff(Trim(firstCell.value), systemName);
    }
  }

  /** The heading row `readHeaders` reads: the second when a title row is present, else the first. */
  function HeadingRow(titleRow: bool): (n: nat)
    ensures n == 1 || n == 2
    ensures titleRow <==> n == 2
  {
    if titleRow then 2 else 1
  }

  /** The first sheet of an upload, as `HeadingRowImport` reads its rows. */
  type Sheet = seq<seq<Header>>

  /** `(new HeadingRowImport($n))->toArray(...)[0][0] ?? []`. */
  function SheetRow(sheet: Sheet, n: nat): seq<Header>
    requires n >= 1
  {
    if n - 1 < |sheet| then sheet[n - 1] else []
  }

  /** `$headings[0][0][0] ?? null` for the first row. */
  function FirstCell(sheet: Sheet): Header
  {
    if |sheet| > 0 && |sheet[0]| > 0 then sheet[0][0] else None
  }

  /** An uploaded file: the client's name and extension, and its first sheet. */
  datatype Upload = Upload(originalName: string, extension: string, sheet: Sheet)

  datatype HeadersRead = HeadersRead(path: string, headers: seq<Header>)

  /** `readHeaders($file)`: store the upload, then read its heading row. */
  function ReadHeaders(upload: Upload, env: Env): Result<HeadersRead>
  {
    if !env.stored then Failure(UploadFailed)
    else
      var path := "import/" + CreateFilename(upload.originalName, upload.extension, env.unixTime, env.rand6);
      var titleRow := ContainsTitleRow(FirstCell(upload.sheet), env.systemName);
      Success(HeadersRead(path, SheetRow(upload.sheet, HeadingRow(titleRow))))
  }

  /**
   * Reading headers fails only when storing fails; otherwise the headers are the sheet's
   * second row when the first cell marks a title row and its first row when it does not,
   * and the stored path keeps the upload's extension.
   */
  lemma ReadHeadersRow(upload: Upload, env: Env)
    ensures ReadHeaders(upload, env).Failure? <==> !env.stored
    ensures ReadHeaders(upload, env).Failure? ==> ReadHeaders(upload, env).error == UploadFailed
    ensures ReadHeaders(upload, env).Success? ==>
      var r := ReadHeaders(upload, env).value;
      var titleRow := ContainsTitleRow(FirstCell(upload.sheet), env.systemName);
      && (titleRow ==> r.headers == (if |upload.sheet| >= 2 then upload.sheet[1] else []))
      && (!titleRow ==> r.headers == (if |upload.sheet| >= 1 then upload.sheet[0] else []))
      && r.path[..7] == "import/"
      && r.path[|r.path| - |upload.extension| - 1..] == "." + upload.extension
  {
    CreateFilenameShape(upload.originalName, upload.extension, env.unixTime, env.rand6);
  }

  // ================================================================ fields and rules

  /** `isset($field['rule']) && Str::contains($field['rule'], 'required')`. */
  predicate RuleRequired(rule: Option<string>) {
    rule.Some? && Contains(rule.value, "required")
  }

  /** `combineFieldsAndRules($fields)`: one `[label, required]` pair per field, in field order. */
  method CombineFieldsAndRules(fields: seq<Field>) returns (result: seq<(string, bool)>)
    ensures |result| == |fields|
    ensures forall i :: 0 <= i < |fields| ==> result[i] == (fields[i].caption, RuleRequired(fields[i].rule))
  {
    result := [];
    for i := 0 to |fields|
      invariant |result| == i
      invariant forall j :: 0 <= j < i ==> result[j] == (fields[j].caption, RuleRequired(fields[j].rule))
    {
      result := result + [(fields[i].caption, RuleRequired(fields[i].rule))];
    }
  }

  /** A field is marked required exactly when it has a rule in which "required" occurs. */
  lemma RuleRequiredIff(rule: Option<string>)
    ensures RuleRequired(rule) <==> rule.Some? && exists k :: OccursAt(rule.value, "required", k)
  {
    if rule.Some? {
      ContainsIff(rule.value, "required");
    }
  }

  // ================================================================ row mapping

  /** `isset($field['type']) && $field['type'] === 'date'`. */
  predicate IsDateField(f: Field) {
    f.fieldType == Some("date")
  }

  /** The value `land_excel_date` leaves in the row: the date, or null. */
  function DateCell(d: Option<CalendarDate>): Value
  {
    if d.Some? then Date(d.value) else Null
  }

  /** The canonical value of one field: the coerced date for a date field, the cell otherwise. */
  function Canonical(f: Field, cell: Value, toDate: Value -> Option<CalendarDate>): Value
  {
    if IsDateField(f) then DateCell(toDate(cell)) else cell
  }

  /** The state of `tidyImportFields`'s loop: the row as coerced so far and the result so far. */
  datatype Tidying = Tidying(row: map<string, Value>, result: map<string, Value>)

  /** One iteration: skip a falsy header, else coerce a date cell in the row and copy it out. */
  function TidyStep(st: Tidying, field: Field, header: Header, toDate: Value -> Option<CalendarDate>): Tidying
  {
    if !HeaderTruthy(header) then st
    else
      var h := header.value;
      var row := if IsDateField(field) then st.row[h := DateCell(toDate(Get(st.row, h)))] else st.row;
      Tidying(row, st.result[field.key := Get(row, h)])
  }

  /** The loop's state after the first `n` fields. */
  function TidyPrefix(fields: seq<Field>, headers: seq<Header>, row: map<string, Value>,
                      toDate: Value -> Option<CalendarDate>, n: nat): Tidying
    requires n <= |fields|
  {
    if n == 0 then Tidying(row, map[])
    else TidyStep(TidyPrefix(fields, headers, row, toDate, n - 1), fields[n - 1], HeaderAt(headers, n - 1), toDate)
  }

  /** What `tidyImportFields($fields, $headers, $row)` returns. */
  function TidiedFields(fields: seq<Field>, headers: seq<Header>, row: map<string, Value>,
                        toDate: Value -> Option<CalendarDate>): map<string, Value>
  {
    TidyPrefix(fields, headers, row, toDate, |fields|).result
  }

  /** The fields `tidyImportFields` keys: those whose header at the same position is truthy. */
  predicate Mapped(fields: seq<Field>, headers: seq<Header>, i: int) {
    0 <= i < |fields| && HeaderTruthy(HeaderAt(headers, i))
  }

  /** The result's keys are exactly the keys of the fields whose header is truthy. */
  lemma {:induction false} TidyKeys(fields: seq<Field>, headers: seq<Header>, row: map<string, Value>,
                                    toDate: Value -> Option<CalendarDate>, n: nat)
    requires n <= |fields|
    ensures forall k :: k in TidyPrefix(fields, headers, row, toDate, n).result <==>
      exists i :: 0 <= i < n && Mapped(fields, headers, i) && fields[i].key == k
  {
    if n > 0 {
      TidyKeys(fields, headers, row, toDate, n - 1);
    }
  }

  /** No two mapped fields share a key. */
  predicate DistinctKeys(fields: seq<Field>, headers: seq<Header>) {
    forall i, j :: 0 <= i < |fields| && 0 <= j < |fields| && i != j && Mapped(fields, headers, i) && Mapped(fields, headers, j) ==>
      fields[i].key != fields[j].key
  }

  /** No two truthy headers are the same. */
  predicate DistinctHeaders(headers: seq<Header>) {
    forall i, j :: 0 <= i < |headers| && 0 <= j < |headers| && i != j && HeaderTruthy(headers[i]) ==> headers[i] != headers[j]
  }

  lemma {:induction false} TidyPrefixValues(fields: seq<Field>, headers: seq<Header>, row: map<string, Value>,
                                            toDate: Value -> Option<CalendarDate>, n: nat)
    requires n <= |fields| && DistinctKeys(fields, headers) && DistinctHeaders(headers)
    ensures var st := TidyPrefix(fields, headers, row, toDate, n);
      && (forall j :: n <= j < |fields| && Mapped(fields, headers, j) ==>
            Get(st.row, HeaderAt(headers, j).value) == Get(row, HeaderAt(headers, j).value))
      && (forall j :: 0 <= j < n && Mapped(fields, headers, j) ==>
            fields[j].key in st.result &&
            st.result[fields[j].key] == Canonical(fields[j], Get(row, HeaderAt(headers, j).value), toDate))
  {
    if n > 0 {
      TidyPrefixValues(fields, headers, row, toDate, n - 1);
      var prev := TidyPrefix(fields, headers, row, toDate, n - 1);
      var st := TidyPrefix(fields, headers, row, toDate, n);
      if Mapped(fields, headers, n - 1) {
        var h := HeaderAt(headers, n - 1).value;
        forall j | n <= j < |fields| && Mapped(fields, headers, j)
          ensures Get(st.row, HeaderAt(headers, j).value) == Get(row, HeaderAt(headers, j).value)
        {
          assert HeaderAt(headers, j) != HeaderAt(headers, n - 1);
        }
        forall j | 0 <= j < n - 1 && Mapped(fields, headers, j)
          ensures st.result[fields[j].key] == prev.result[fields[j].key]
        {
          assert fields[j].key != fields[n - 1].key;
        }
      }
    }
  }

  /**
   * With distinct keys and headers, each mapped field's value is its cell, passed through the
   * date coercion exactly when the field is date-typed; a missing cell is null.
   */
  lemma TidyValues(fields: seq<Field>, headers: seq<Header>, row: map<string, Value>,
                   toDate: Value -> Option<CalendarDate>)
    requires DistinctKeys(fields, headers) && DistinctHeaders(headers)
    ensures forall i :: Mapped(fields, headers, i) ==>
      var cell := Get(row, HeaderAt(headers, i).value);
      && fields[i].key in TidiedFields(fields, headers, row, toDate)
      && TidiedFields(fields, headers, row, toDate)[fields[i].key] == (if IsDateField(fields[i]) then DateCell(toDate(cell)) else cell)
  {
    TidyPrefixValues(fields, headers, row, toDate, |fields|);
  }

  /** `tidyImportFields($fields, $headers, $row)`, with `land_excel_date` as `toDate`. */
  method TidyImportFields(fields: seq<Field>, headers: seq<Header>, row: map<string, Value>,
                          toDate: Value -> Option<CalendarDate>) returns (result: map<string, Value>)
    ensures result == TidiedFields(fields, headers, row, toDate)
    ensures forall k :: k in result <==> exists i :: Mapped(fields, headers, i) && fields[i].key == k
  {
    var r := row;
    result := map[];
    for i := 0 to |fields|
      invariant Tidying(r, result) == TidyPrefix(fields, headers, row, toDate, i)
    {
      var header := if i < |headers| then headers[i] else None;
      if !HeaderTruthy(header) {
        continue;
      }
      var h := header.value;
      if IsDateField(fields[i]) {
        r := r[h := DateCell(toDate(if h in r then r[h] else Null))];
      }
      result := result[fields[i].key := if h in r then r[h] else Null];
    }
    TidyKeys(fields, headers, row, toDate, |fields|);
  }

  // ================================================================ back to the upload's form

  /** The state of `tidyImportOriginContent`'s loop. */
  datatype Restoring = Restoring(row: map<string, Value>, cells: seq<Value>)

  /** `$fields[$index] ?? null`. */
  function FieldAt(fields: seq<Field>, index: nat): Option<Field>
  {
    if index < |fields| then Some(fields[index]) else None
  }

  /**
   * One iteration for the header at `index`: a date field's value becomes its `Y-m-d` text
   * (null when empty; PHP raises on a non-empty value that is no date), then the field's
   * value is appended. A header with no field reads `$row[null]`, which PHP reads as `$row['']`.
   */
  function RestoreStep(st: Restoring, field: Option<Field>): (r: Result<Restoring>)
    ensures var key := if field.Some? then field.value.key else ""; var v := Get(st.row, key);
      r.Failure? <==> field.Some? && IsDateField(field.value) && !Empty(v) && !v.Date?
    ensures var key := if field.Some? then field.value.key else "";
      r.Success? ==>
        && |r.value.cells| == |st.cells| + 1 && r.value.cells[..|st.cells|] == st.cells
        && r.value.cells[|st.cells|] == Get(r.value.row, key)
        && forall k :: k != key ==> Get(r.value.row, k) == Get(st.row, k)
    ensures var key := if field.Some? then field.value.key else ""; var v := Get(st.row, key);
      r.Success? ==>
        Get(r.value.row, key) ==
          (if field.Some? && IsDateField(field.value) then (if Empty(v) then Null else Str(DateYmd(v.date))) else v)
  {
    var key := if field.Some? then field.value.key else "";
    if field.Some? && IsDateField(field.value) then
      var v := Get(st.row, key);
      if Empty(v) then
        var row := st.row[key := Null];
        Success(Restoring(row, st.cells + [Get(row, key)]))
      else if v.Date? then
        var row := st.row[key := Str(DateYmd(v.date))];
        Success(Restoring(row, st.cells + [Get(row, key)]))
      else Failure("Call to a member function format() on a non-object")
    else Success(Restoring(st.row, st.cells + [Get(st.row, key)]))
  }

  function RestorePrefix(fields: seq<Field>, headers: seq<Header>, row: map<string, Value>, n: nat): Result<Restoring>
    requires n <= |headers|
  {
    if n == 0 then Success(Restoring(row, []))
    else match RestorePrefix(fields, headers, row, n - 1)
      case Failure(e) => Failure(e)
      case Success(st) => RestoreStep(st, FieldAt(fields, n - 1))
  }

  /** What `tidyImportOriginContent($fields, $headers, $row)` returns, or the error it raises. */
  function OriginContent(fields: seq<Field>, headers: seq<Header>, row: map<string, Value>): Result<seq<Value>>
  {
    match RestorePrefix(fields, headers, row, |headers|)
    case Failure(e) => Failure(e)
    case Success(st) => Success(st.cells)
  }

  lemma {:induction false} RestorePrefixLength(fields: seq<Field>, headers: seq<Header>, row: map<string, Value>, n: nat)
    requires n <= |headers|
    ensures RestorePrefix(fields, headers, row, n).Success? ==> |RestorePrefix(fields, headers, row, n).value.cells| == n
  {
    if n > 0 {
      RestorePrefixLength(fields, headers, row, n - 1);
    }
  }

  /** Once a step raises, the whole loop raises the same error. */
  lemma {:induction false} RestoreFailurePersists(fields: seq<Field>, headers: seq<Header>, row: map<string, Value>,
                                                  m: nat, n: nat)
    requires m <= n <= |headers|
    requires RestorePrefix(fields, headers, row, m).Failure?
    ensures RestorePrefix(fields, headers, row, n) == RestorePrefix(fields, headers, row, m)
    decreases n - m
  {
    if m < n {
      RestoreFailurePersists(fields, headers, row, m + 1, n);
    }
  }

  /** `tidyImportOriginContent`: one value per header, in header order, or the error PHP raises. */
  method TidyImportOriginContent(fields: seq<Field>, headers: seq<Header>, row: map<string, Value>)
    returns (result: Result<seq<Value>>)
    ensures result == OriginContent(fields, headers, row)
    ensures result.Success? ==> |result.value| == |headers|
  {
    var r := row;
    var cells := [];
    for i := 0 to |headers|
      invariant RestorePrefix(fields, headers, row, i) == Success(Restoring(r, cells))
    {
      var field := if i < |fields| then Some(fields[i]) else None;
      var key := if field.Some? then field.value.key else "";
      if field.Some? && IsDateField(field.value) {
        var v := if key in r then r[key] else Null;
        if !Truthy(v) {
          r := r[key := Null];
        } else if v.Date? {
          r := r[key := Str(DateYmd(v.date))];
        } else {
          RestoreFailurePersists(fields, headers, row, i + 1, |headers|);
          return Failure("Call to a member function format() on a non-object");
        }
      }
      cells := cells + [if key in r then r[key] else Null];
    }
    RestorePrefixLength(fields, headers, row, |headers|);
    return Success(cells);
  }

  /**
   * A date cell the front end shows as it was uploaded: an empty cell that the coercion
   * turns into null, or a `Y-m-d` text that it turns into that very date.
   */
  predicate DisplaysAsDate(cell: Value, toDate: Value -> Option<CalendarDate>) {
    (Empty(cell) && toDate(cell).None?) ||
    (cell.Str? && Truthy(cell) && toDate(cell).Some? && DateYmd(toDate(cell).value) == cell.s)
  }

  /** What the error report shows for a cell of the upload: the cell, with an empty date as null. */
  function Shown(f: Field, cell: Value): Value
  {
    if IsDateField(f) && Empty(cell) then Null else cell
  }

  /** The headers all name columns, and a field stands at every header's position. */
  predicate AlignedUpload(fields: seq<Field>, headers: seq<Header>) {
    |headers| <= |fields| && forall i :: 0 <= i < |headers| ==> HeaderTruthy(headers[i])
  }

  /** One restoring step over a canonical value gives back the cell the upload showed. */
  lemma RestoreStepShown(st: Restoring, f: Field, cell: Value, toDate: Value -> Option<CalendarDate>)
    requires Get(st.row, f.key) == Canonical(f, cell, toDate)
    requires IsDateField(f) ==> DisplaysAsDate(cell, toDate)
    ensures RestoreStep(st, Some(f)).Success?
    ensures RestoreStep(st, Some(f)).value.cells == st.cells + [Shown(f, cell)]
    ensures forall k :: k != f.key ==> Get(RestoreStep(st, Some(f)).value.row, k) == Get(st.row, k)
  {
  }

  /** Keys of the fields standing at the headers' positions are distinct. */
  predicate DistinctLeadingKeys(fields: seq<Field>, n: nat)
    requires n <= |fields|
  {
    forall i, j :: 0 <= i < n && 0 <= j < n && i != j ==> fields[i].key != fields[j].key
  }

  lemma {:induction false} RestoreCanonical(fields: seq<Field>, headers: seq<Header>, canonical: map<string, Value>,
                                            cells: seq<Value>, toDate: Value -> Option<CalendarDate>, n: nat)
    requires n <= |headers| == |cells| <= |fields|
    requires DistinctLeadingKeys(fields, |headers|)
    requires forall i :: 0 <= i < |headers| ==> Get(canonical, fields[i].key) == Canonical(fields[i], cells[i], toDate)
    requires forall i :: 0 <= i < |headers| && IsDateField(fields[i]) ==> DisplaysAsDate(cells[i], toDate)
    ensures var res := RestorePrefix(fields, headers, canonical, n);
      && res.Success?
      && |res.value.cells| == n
      && (forall i :: 0 <= i < n ==> res.value.cells[i] == Shown(fields[i], cells[i]))
      && (forall j :: n <= j < |headers| ==> Get(res.value.row, fields[j].key) == Get(canonical, fields[j].key))
  {
    if n > 0 {
      RestoreCanonical(fields, headers, canonical, cells, toDate, n - 1);
      var st := RestorePrefix(fields, headers, canonical, n - 1).value;
      assert FieldAt(fields, n - 1) == Some(fields[n - 1]);
      RestoreStepShown(st, fields[n - 1], cells[n - 1], toDate);
      forall j | n <= j < |headers| ensures fields[j].key != fields[n - 1].key {
      }
    }
  }

  /**
   * Round trip: for an upload whose headers all name columns, with distinct headers and field
   * keys and date cells shown in `Y-m-d` form, mapping a row to canonical fields and then back
   * for the error report gives the uploaded cells, one per header in header order.
   */
  lemma OriginContentRestoresUpload(fields: seq<Field>, headers: seq<Header>, row: map<string, Value>,
                                    toDate: Value -> Option<CalendarDate>)
    requires AlignedUpload(fields, headers) && DistinctHeaders(headers) && DistinctKeys(fields, headers)
    requires forall i :: 0 <= i < |headers| && IsDateField(fields[i]) ==> DisplaysAsDate(Get(row, headers[i].value), toDate)
    ensures var back := OriginContent(fields, headers, TidiedFields(fields, headers, row, toDate));
      && back.Success? && |back.value| == |headers|
      && forall i :: 0 <= i < |headers| ==> back.value[i] == Shown(fields[i], Get(row, headers[i].value))
  {
    var canonical := TidiedFields(fields, headers, row, toDate);
    var cells := seq(|headers|, i requires 0 <= i < |headers| => Get(row, headers[i].value));
    TidyValues(fields, headers, row, toDate);
    forall i | 0 <= i < |headers|
      ensures Get(canonical, fields[i].key) == Canonical(fields[i], cells[i], toDate)
    {
      assert Mapped(fields, headers, i) && HeaderAt(headers, i) == headers[i];
    }
    forall i, j | 0 <= i < |headers| && 0 <= j < |headers| && i != j
      ensures fields[i].key != fields[j].key
    {
      assert Mapped(fields, headers, i) && Mapped(fields, headers, j);
    }
    RestoreCanonical(fields, headers, canonical, cells, toDate, |headers|);
  }

  // ================================================================ import

  /** The task title: the caller's title, `now()->format('Ymdhi')` and `Str::random(8)`. */
  function TaskTitle(title: string, env: Env): (r: string)
    ensures |r| == |title| + |env.stamp| + |env.rand8| + 2
    ensures r[..|title|] == title && r[|title|] == '_' && r[|title| + 1..|title| + 1 + |env.stamp|] == env.stamp
    ensures r[|title| + 1 + |env.stamp|] == '_' && r[|r| - |env.rand8|..] == env.rand8
  {
    title + "_" + env.stamp + "_" + env.rand8
  }

  /** The parts of the import request the service reads: `file`, `path` and `headers`. */
  datatype ImportRequest = ImportRequest(file: Option<Upload>, path: Input<string>, headers: Input<seq<Header>>)

  datatype ImportReply =
    | UploadRead(path: string, headers: seq<Header>, fields: seq<(string, bool)>)
    | ImportQueued(taskId: string)

  /**
   * `import(...)`: an uploaded file is stored and its headers are returned with the field
   * summary; otherwise a truthy `path` creates a pending import record and queues the
   * importer; otherwise the request is rejected.
   */
  method Import(title: string, importerClass: string, fields: seq<Field>, req: ImportRequest, env: Env)
    returns (reply: Result<ImportReply>, record: TransferRecord?)
    ensures req.file.Some? ==> record == null
    ensures req.file.Some? && ReadHeaders(req.file.value, env).Failure? ==> reply == Failure(UploadFailed)
    ensures req.file.Some? && ReadHeaders(req.file.value, env).Success? ==>
      var read := ReadHeaders(req.file.value, env).value;
      && reply.Success? && reply.value.UploadRead?
      && reply.value.path == read.path && reply.value.headers == read.headers
      && |reply.value.fields| == |fields|
      && forall i :: 0 <= i < |fields| ==> reply.value.fields[i] == (fields[i].caption, RuleRequired(fields[i].rule))
    ensures req.file.None? && req.path.Given? && StrTruthy(req.path.value) ==>
      && reply == Success(ImportQueued(env.uuid))
      && record != null && fresh(record)
      && record.taskId == env.uuid && record.taskName == Some(TaskTitle(title, env))
      && record.className == Some(importerClass) && record.creatorId == env.user.id
      && record.recordType == TypeImport && record.status == Some(StatusPending)
      && record.filePath == Some(req.path.value) && record.properties == None
    ensures req.file.None? && !(req.path.Given? && StrTruthy(req.path.value)) ==>
      reply == Failure(UploadAbnormal) && record == null
  {
    record := null;
    if req.file.Some? {
      var read := ReadHeaders(req.file.value, env);
      if read.Failure? {
        return Failure(read.error), null;
      }
      var summary := CombineFieldsAndRules(fields);
      return Success(UploadRead(read.value.path, read.value.headers, summary)), null;
    } else if req.path.Given? && StrTruthy(req.path.value) {
      record := new TransferRecord(env.uuid, Some(TaskTitle(title, env)), env.user.id, TypeImport,
                                   Some(importerClass), StatusPending, Some(req.path.value), None);
      return Success(ImportQueued(env.uuid)), record;
    }
    return Failure(UploadAbnormal), null;
  }

  // ================================================================ export protocol

  /** The parts of the export request the service reads. */
  datatype ExportRequest = ExportRequest(fields: Input<seq<string>>, taskId: Input<string>,
                                         mode: Input<string>, params: Input<Params>)

  /** `request('fields', false)` is truthy: a non-empty list. */
  predicate FieldsTruthy(fields: Input<seq<string>>) {
    fields.Given? && |fields.value| > 0
  }

  /** `request('task_id', false)` is truthy. */
  predicate TaskIdTruthy(taskId: Input<string>) {
    taskId.Given? && StrTruthy(taskId.value)
  }

  /** The step of the protocol an export request asks for. */
  datatype ExportStep = ExtractHeaders | CreateTask | DownloadFile(taskId: string) | UnknownTask

  /** `export(...)`'s dispatch. */
  function ExportDispatch(req: ExportRequest): ExportStep
  {
    if !FieldsTruthy(req.fields) && !TaskIdTruthy(req.taskId) then ExtractHeaders
    else if req.fields.Exists() then CreateTask
    else if TaskIdTruthy(req.taskId) then DownloadFile(req.taskId.value)
    else UnknownTask
  }

  /**
   * Headers are extracted when neither fields nor a task id is truthy; a task is created
   * whenever `fields` is present and the request is not a header request, even beside a
   * task id; a download needs a truthy task id and no `fields` key. The final rejection
   * ('导出任务不存在') is unreachable.
   */
  lemma ExportDispatchCases(req: ExportRequest)
    ensures ExportDispatch(req) == ExtractHeaders <==> !FieldsTruthy(req.fields) && !TaskIdTruthy(req.taskId)
    ensures ExportDispatch(req) == CreateTask <==>
      req.fields.Exists() && (FieldsTruthy(req.fields) || TaskIdTruthy(req.taskId))
    ensures ExportDispatch(req).DownloadFile? <==> req.fields.Absent? && TaskIdTruthy(req.taskId)
    ensures ExportDispatch(req).DownloadFile? ==> ExportDispatch(req).taskId == req.taskId.value
    ensures ExportDispatch(req) != UnknownTask
  {
  }

  /** `exportExtractHeaders`: the headings of an exporter built with no record. */
  function ExportExtractHeaders(blankMappingKeys: seq<string>): (h: seq<string>)
    ensures h == blankMappingKeys
  {
    Headings(ConfigOf(None).fields, blankMappingKeys)
  }

  /** `request('x')` stored in JSON: an absent parameter is stored as null. */
  function Stored<T>(i: Input<T>): Input<T>
  {
    if i.Absent? then Nil else i
  }

  /** The `properties` a new export task records: mode (default ''), requested fields and params. */
  function TaskProperties(req: ExportRequest): Properties
  {
    Properties(if req.mode.Absent? then Given("") else req.mode, Stored(req.fields), Absent, Stored(req.params))
  }

  /**
   * An exporter built over a freshly created task exports the requested fields (none when
   * they are null), with the requested params and mode, defaults where they are missing.
   */
  lemma CreatedTaskConfiguresExporter(req: ExportRequest)
    ensures ConfigOf(Some(TaskProperties(req))) ==
      Config(req.fields.Coalesce([]), req.params.Coalesce(IdList([])), req.mode.Coalesce(""))
  {
  }

  /**
   * The approval decision at task creation: with approval required, the approval service's
   * error (when truthy) or a pending status; without, an approved status.
   */
  function ApprovalAtCreation(approvalRequired: bool, approvalError: Option<string>): (r: Result<ApprovalStatus>)
    ensures r.Failure? <==> approvalRequired && approvalError.Some? && StrTruthy(approvalError.value)
    ensures r.Failure? ==> r.error == approvalError.value
    ensures r.Success? ==> (r.value == Pending <==> approvalRequired) && (r.value == Approved <==> !approvalRequired)
  {
    if approvalRequired then
      if approvalError.Some? && StrTruthy(approvalError.value) then Failure(approvalError.value)
      else Success(Pending)
    else Success(Approved)
  }

  datatype CreatedTask = CreatedTask(taskId: string, approvalStatus: Option<ApprovalStatus>)

  /**
   * `exportCreateTask`: a pending export record always exists afterwards; its approval
   * fields follow the approval decision (left unset when the approval service fails).
   */
  method ExportCreateTask(title: string, exporterClass: string, req: ExportRequest, env: Env)
    returns (reply: Result<CreatedTask>, record: TransferRecord)
    ensures fresh(record)
    ensures record.taskId == env.uuid && record.taskName == Some(TaskTitle(title, env))
    ensures record.creatorId == env.user.id && record.className == Some(exporterClass)
    ensures record.recordType == TypeExport && record.status == Some(StatusPending)
    ensures record.properties == Some(TaskProperties(req)) && record.filePath == None
    ensures var decision := ApprovalAtCreation(env.approvalRequired, env.approvalError);
      && (decision.Failure? ==> reply == Failure(decision.error) && record.approvalStatus == None)
      && (decision.Success? ==> reply == Success(CreatedTask(env.uuid, Some(decision.value)))
                                && record.approvalStatus == Some(decision.value))
    ensures env.approvalRequired ==> record.approvalComment == None && record.approvalAt == None
    ensures !env.approvalRequired ==>
      record.approvalComment == Some(NoApprovalNeeded) && record.approvalAt == Some(env.now)
  {
    record := new TransferRecord(env.uuid, Some(TaskTitle(title, env)), env.user.id, TypeExport,
                                 Some(exporterClass), StatusPending, None, Some(TaskProperties(req)));
    if env.approvalRequired {
      if env.approvalError.Some? && StrTruthy(env.approvalError.value) {
        return Failure(env.approvalError.value), record;
      }
      record.approvalStatus := Some(Pending);
    } else {
      record.approvalStatus := Some(Approved);
      record.approvalComment := Some(NoApprovalNeeded);
      record.approvalAt := Some(env.now);
    }
    reply := Success(CreatedTask(env.uuid, record.approvalStatus));
  }

  /** What a permitted download does: serve the recorded file, or materialise a new one. */
  datatype DownloadPlan = Serve(path: string) | Materialize(path: string)

  /**
   * The download gate, in the source's order: a missing record, then an unapproved task for
   * a caller who is not a super admin, then an already recorded file; `freshPath` is the
   * path a materialisation would use.
   */
  function DownloadGate(found: bool, approval: Option<ApprovalStatus>, superAdmin: bool,
                        filePath: Option<string>, freshPath: string): (r: Result<DownloadPlan>)
    ensures !found ==> r == Failure(TaskMissing)
    ensures found && approval != Some(Approved) && !superAdmin ==> r == Failure(TaskNotApproved)
    ensures r.Success? <==> found && (approval == Some(Approved) || superAdmin)
    ensures r.Success? ==> (r.value.Serve? <==> filePath.Some? && StrTruthy(filePath.value))
    ensures r.Success? && r.value.Serve? ==> r.value.path == filePath.value
    ensures r.Success? && r.value.Materialize? ==> r.value.path == freshPath
  {
    if !found then Failure(TaskMissing)
    else if approval != Some(Approved) && !superAdmin then Failure(TaskNotApproved)
    else if filePath.Some? && StrTruthy(filePath.value) then Success(Serve(filePath.value))
    else Success(Materialize(freshPath))
  }

  /**
   * Download is idempotent: a permitted first download materialises to a path, and every
   * later one with the same permission serves that path, whatever fresh path it would use.
   */
  lemma DownloadIdempotent(approval: Option<ApprovalStatus>, superAdmin: bool, taskName: Option<string>,
                           first: Env, later: Env)
    ensures var p := ExportPath(taskName, first.unixTime, first.rand6);
      var q := ExportPath(taskName, later.unixTime, later.rand6);
      DownloadGate(true, approval, superAdmin, None, p).Success? ==>
        && DownloadGate(true, approval, superAdmin, None, p) == Success(Materialize(p))
        && DownloadGate(true, approval, superAdmin, Some(p), q) == Success(Serve(p))
  {
    ExportPathTruthy(taskName, first.unixTime, first.rand6);
  }

  /**
   * Approval gating: a task created without approval can be downloaded by anyone; one that
   * needed approval (and is still pending) only by a super admin.
   */
  lemma ApprovalGatesDownload(approvalRequired: bool, approvalError: Option<string>, superAdmin: bool,
                              filePath: Option<string>, freshPath: string)
    requires ApprovalAtCreation(approvalRequired, approvalError).Success?
    ensures var status := Some(ApprovalAtCreation(approvalRequired, approvalError).value);
      DownloadGate(true, status, superAdmin, filePath, freshPath).Success? <==> !approvalRequired || superAdmin
    ensures var status := Some(ApprovalAtCreation(approvalRequired, approvalError).value);
      approvalRequired && !superAdmin ==> DownloadGate(true, status, superAdmin, filePath, freshPath) == Failure(TaskNotApproved)
  {
  }

  /**
   * The answer of one download, the columns of the in-memory record after it, and the
   * columns of the saved row, which is what the next lookup by task id finds.
   */
  datatype Download = Download(result: Result<string>, after: Columns, saved: Columns)

  /**
   * The effect of `exportDownloadFile` on a found record with columns `before`. Materialising
   * stages the fresh path on the in-memory record, then `store` fires the exporter's
   * events: a mode with no query raises in `beforeExport` before any `update`, so the path
   * stays staged in memory and the saved row is as it was; otherwise the record passes
   * through processing to done, with the query's count (`count`, the database's answer for
   * a plan), the start at `env.now` and the end at `env.storeEnd`, and each `update` saves
   * the staged path with it.
   */
  function DownloadEffect(before: Columns, env: Env, count: QueryPlan -> nat): (d: Download)
    ensures d.after.approvalStatus == before.approvalStatus && d.after.properties == before.properties
    ensures d.result.Success? ==> d.after.filePath == Some(d.result.value)
    ensures d.result.Success? ==> d.saved == d.after
    ensures d.result.Failure? ==> d.saved == before
  {
    var gate := DownloadGate(true, before.approvalStatus, env.superAdmin, before.filePath,
                             ExportPath(before.taskName, env.unixTime, env.rand6));
    if gate.Failure? then Download(Failure(gate.error), before, before)
    else if gate.value.Serve? then Download(Success(gate.value.path), before, before)
    else
      var path := gate.value.path;
      var staged := before.(filePath := Some(path));
      var plan := Query(ConfigOf(before.properties));
      if plan == NoQuery then Download(Failure(CountOnNull), staged, before)
      else
        var n := count(plan);
        var done := staged.(status := Some(StatusDone), startedAt := Some(env.now), totalCount := Some(n),
                            endedAt := Some(env.storeEnd), duration := Some(Duration(env.now, env.storeEnd)));
        Download(Success(path), done, done)
  }

  /**
   * Download is idempotent at the level of the saved row: once a download succeeded, a
   * later one by a caller with the same permission serves the same path and changes
   * nothing, whatever its clock and random string.
   */
  lemma DownloadEffectIdempotent(before: Columns, env: Env, later: Env, count: QueryPlan -> nat)
    requires DownloadEffect(before, env, count).result.Success?
    requires later.superAdmin == env.superAdmin
    ensures var d := DownloadEffect(before, env, count);
      DownloadEffect(d.saved, later, count) == Download(d.result, d.saved, d.saved)
  {
    var d := DownloadEffect(before, env, count);
    var gate := DownloadGate(true, before.approvalStatus, env.superAdmin, before.filePath,
                             ExportPath(before.taskName, env.unixTime, env.rand6));
    if gate.value.Materialize? {
      ExportPathTruthy(before.taskName, env.unixTime, env.rand6);
    }
  }

  /**
   * A failed download saves nothing, so a retry by a caller with the same permission finds
   * the row as it was and fails the same way, whatever its clock and random string; in
   * particular a no-query mode fails again rather than serving a file that was never written.
   */
  lemma FailedDownloadRetriesFail(before: Columns, env: Env, later: Env, count: QueryPlan -> nat)
    requires DownloadEffect(before, env, count).result.Failure?
    requires later.superAdmin == env.superAdmin
    ensures var d := DownloadEffect(before, env, count);
      && d.saved == before
      && DownloadEffect(d.saved, later, count).result == d.result
      && DownloadEffect(d.saved, later, count).saved == d.saved
  {
  }

  /**
   * A task created without a mode stores mode '' and has no query, so once it passes the
   * gate and has no file yet, its download raises in `beforeExport`.
   */
  lemma ModelessTaskDownloadFails(before: Columns, env: Env, count: QueryPlan -> nat, req: ExportRequest)
    requires req.mode.Absent? && before.properties == Some(TaskProperties(req))
    requires before.approvalStatus == Some(Approved) && before.filePath == None
    ensures DownloadEffect(before, env, count) ==
      Download(Failure(CountOnNull), before.(filePath := Some(ExportPath(before.taskName, env.unixTime, env.rand6))), before)
  {
    assert ConfigOf(Some(TaskProperties(req))).mode == "";
  }

  /**
   * `exportDownloadFile($task_id)`: the gate decides; serving changes nothing and runs no
   * exporter; materialising records the new path on the record first, then builds the
   * exporter over the record and runs `store`, whose events are the exporter's own
   * `beforeExport` and `afterSheet`; the spreadsheet engine writing the rows between them
   * is not modelled. `record` is the result of the lookup by task id; a failure of
   * `beforeExport` stands for the exception it raises.
   */
  method ExportDownloadFile(taskId: string, record: TransferRecord?, extraData: map<string, Value>, env: Env,
                            count: QueryPlan -> nat)
    returns (result: Result<string>, exporter: QueryExporter?)
    requires record != null ==> record.taskId == taskId
    modifies record
    ensures record == null ==> result == Failure(TaskMissing) && exporter == null
    ensures record != null ==>
      var gate := DownloadGate(true, old(record.approvalStatus), env.superAdmin, old(record.filePath),
                               ExportPath(old(record.taskName), env.unixTime, env.rand6));
      && (gate.Failure? ==> result == Failure(gate.error) && exporter == null && unchanged(record))
      && (gate.Success? && gate.value.Serve? ==> result == Success(gate.value.path) && exporter == null && unchanged(record))
      && (gate.Success? && gate.value.Materialize? ==>
            && exporter != null && fresh(exporter) && exporter.record == record && exporter.id == taskId
            && exporter.Configuration() == ConfigOf(record.properties)
            && fresh(exporter.progress)
            && exporter.progress.Counts() ==
                 (if exporter.QueryPlanOf() == NoQuery then Counters(None, 0, None, 0, 0)
                  else Counters(Some(count(exporter.QueryPlanOf())), 0, Some(env.now), 0, 1)))
    ensures record != null ==>
      var d := DownloadEffect(old(record.Snapshot()), env, count);
      result == d.result && record.Snapshot() == d.after
  {
    exporter := null;
    if record == null {
      return Failure(TaskMissing), null;
    }
    if record.approvalStatus != Some(Approved) && !env.superAdmin {
      return Failure(TaskNotApproved), null;
    }
    if record.filePath.Some? && StrTruthy(record.filePath.value) {
      return Success(record.filePath.value), null;
    }
    var path := "export/" + ExportFileName(record.taskName, env.unixTime, env.rand6);
    record.filePath := Some(path);
    var progress := new ExportProgressRecorder(taskId);
    exporter := new QueryExporter(taskId, record, extraData, progress);
    var started := exporter.BeforeExport(count, env.now);
    if started.Failure? {
      return Failure(started.error), exporter;
    }
    exporter.AfterSheet(env.storeEnd);
    result := Success(path);
  }

  /** What `export(...)` answers: headings, the created task, or the file to sign a URL for. */
  datatype ExportReply = HeadingsReply(headings: seq<string>) | TaskCreated(task: CreatedTask) | DownloadReady(path: string)

  /**
   * `export(...)`: dispatch on the request's shape. `lookup` is the record the task id finds;
   * the 30-minute signed URL is represented by the path it signs.
   */
  method Export(title: string, exporterClass: string, extraData: map<string, Value>,
                blankMappingKeys: seq<string>, req: ExportRequest, lookup: TransferRecord?, env: Env,
                count: QueryPlan -> nat)
    returns (reply: Result<ExportReply>)
    requires lookup != null && req.taskId.Given? ==> lookup.taskId == req.taskId.value
    modifies lookup
    ensures ExportDispatch(req) == ExtractHeaders ==> reply == Success(HeadingsReply(blankMappingKeys))
    ensures ExportDispatch(req) == CreateTask ==>
      var decision := ApprovalAtCreation(env.approvalRequired, env.approvalError);
      && (decision.Failure? ==> reply == Failure(decision.error))
      && (decision.Success? ==> reply == Success(TaskCreated(CreatedTask(env.uuid, Some(decision.value)))))
    ensures ExportDispatch(req).DownloadFile? && lookup == null ==> reply == Failure(TaskMissing)
    ensures ExportDispatch(req).DownloadFile? && lookup != null ==>
      var gate := DownloadGate(true, old(lookup.approvalStatus), env.superAdmin, old(lookup.filePath),
                               ExportPath(old(lookup.taskName), env.unixTime, env.rand6));
      && (gate.Failure? ==> reply == Failure(gate.error) && unchanged(lookup))
      && (gate.Success? && gate.value.Serve? ==> reply == Success(DownloadReady(gate.value.path)) && unchanged(lookup))
    ensures ExportDispatch(req).DownloadFile? && lookup != null ==>
      var d := DownloadEffect(old(lookup.Snapshot()), env, count);
      && (d.result.Success? ==> reply == Success(DownloadReady(d.result.value)))
      && (d.result.Failure? ==> reply == Failure(d.result.error))
      && lookup.Snapshot() == d.after
    ensures !ExportDispatch(req).DownloadFile? && lookup != null ==> unchanged(lookup)
  {
    var step := ExportDispatch(req);
    if step == ExtractHeaders {
      return Success(HeadingsReply(ExportExtractHeaders(blankMappingKeys)));
    }
    if step == CreateTask {
      var created, _ := ExportCreateTask(title, exporterClass, req, env);
      if created.Failure? {
        return Failure(created.error);
      }
      return Success(TaskCreated(created.value));
    }
    if step.DownloadFile? {
      var path, _ := ExportDownloadFile(step.taskId, lookup, extraData, env, count);
      if path.Failure? {
        return Failure(path.error);
      }
      return Success(DownloadReady(path.value));
    }
    return Failure(TaskMissing);
  }
}
