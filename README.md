# Import/export pipeline of jobsys/importexport-module, modelled in Dafny

This project models the core of the Laravel import/export module, which moves spreadsheet
data between users and the application:

- **Import.** An upload is stored, and its heading row is found; a banner row marked "导入模板"
  (or carrying the system name) moves the headings to row 2. The headers come back together
  with a summary of the fields. A second request, with the stored path, creates a pending
  *transfer record* and starts the *collection importer*. The importer validates every row,
  counts and logs the rows that fail, maps the rows that pass to canonical fields and hands
  them to `store`. It publishes progress under `current_row_{id}`, `error_{id}` and related
  cache keys.
- **Export.** The protocol has three steps on one endpoint:
  1. return the headings;
  2. create a pending export task, approved at once or sent for approval;
  3. on download, materialise the file once (through the *query exporter*), then serve it.
  The exporter reads its fields, params and mode from the record. It picks a query by mode,
  projects each row onto the headings, formats columns, and drives the record pending →
  processing → done.
- **Error report.** An exporter writes failed rows back, with a leading reason column, and
  forces string-typed fields to text.

Each PHP file maps to a module:

| module | file | source |
|---|---|---|
| `Values` | `values.dfy` | PHP values and truthiness, absent and null request inputs, field definitions |
| `Text` | `text.dfy` | `trim`, `Str::contains`, `str_replace`, integer rendering, `gmdate('H:i:s')` and `Y-m-d` |
| `Entities` | `entities.dfy` | `Entities/TransferRecord.php` |
| `Progress` | `progress.dfy` | the cache and the export progress recorder |
| `QueryExport` | `query_exporter.dfy` | `Exporters/QueryExporter.php` |
| `Service` | `importexport_service.dfy` | `Services/ImportexportService.php` |
| `CollectionImport` | `collection_importer.dfy` | `Importers/CollectionImporter.php` |
| `ErrorMessageExport` | `error_message_exporter.dfy` | `Exporters/ImporterErrorMessageExporter.php` |

How the model is built:

- Mutable objects are classes with `modifies` frames: the transfer record, the cache, the
  progress recorder, the query exporter and the collection importer.
- Pure decisions are functions with lemmas.
- Each foreach loop of the source is a method with a loop. The loops of `tidyImportFields`,
  `tidyImportOriginContent`, `extractRules`, `collection` and the query exporter's
  `bindValue` are proved against a recursive specification function. The loops of
  `combineFieldsAndRules` and the error report's `bindValue` are proved against quantified
  postconditions.

The world outside the core becomes parameters:

- `Service.Env` carries the clock, random strings, the uuid, the signed-in user, the
  super-admin flag, configuration, the storage disk's success, the approval service's
  error and the instant the spreadsheet engine finishes writing an export.
- The database's row count for an export query is a function parameter `count`.
- `land_excel_date` is a function parameter `toDate`.
- The Laravel validator is a function parameter giving a row's first error message.
- A subclass's `mappings`, `formats` and blank-model keys are parameters.

## Model

| member | source | states |
|---|---|---|
| Text.TrimIsInnerSlice | Services/ImportexportService.php:39-41 | `trim` returns the slice between the leading and trailing runs of whitespace/NUL/VT, and that slice neither starts nor ends with one |
| Text.ContainsIff | Services/ImportexportService.php:39-41 | `Str::contains` holds iff the needle is non-empty and occurs at some position |
| Text.ReplaceCharRemoves | Services/ImportexportService.php:332 | replacing '-' by '_' leaves no '-' in the name |
| Text.ReplaceAbsent | Services/ImportexportService.php:331-332 | `str_replace` of text that does not occur changes nothing |
| Text.DecimalRoundTrip | Services/ImportexportService.php:335 | the timestamp in a file name is a non-empty digit run that reads back as the timestamp |
| Text.ClockTimeRoundTrip | Exporters/QueryExporter.php:179 | `gmdate('H:i:s', s)` is 8 characters: two digits, ':', two digits, ':', two digits, with hours below 24 and minutes and seconds below 60; it reads back as `s mod 86400` |
| Entities.Vocabulary | Entities/TransferRecord.php:20-25 | the two types differ, the three statuses differ, and the `STATUS_*` constants are exactly pending, processing and done |
| Entities.TransferRecord.constructor | Services/ImportexportService.php:254-266 | a created record holds the given attributes and every other column is null |
| Entities.Constant | Entities/TransferRecord.php:20-25 | specified by `Entities.Vocabulary`: the class constants by name |
| Entities.TransferRecord.Creator | Entities/TransferRecord.php:40-43 | the creator is the user stored under `creator_id`, present iff such a user exists; in a user table keyed by id its id is `creator_id` |
| Entities.TransferRecord.Approver | Entities/TransferRecord.php:45-48 | the approver is the user stored under `approver_id`, present iff one is set and exists; in a user table keyed by id its id is `approver_id` |
| Entities.TransferRecord.Initiator | Entities/TransferRecord.php:56-59 | the initiator is the creator, with the creator's id |
| Entities.TransferRecord.ApproveTodoMessage | Entities/TransferRecord.php:50-54 | specified by `Entities.ApproveTodoMessageShape` |
| Entities.ApproveTodoMessageShape | Entities/TransferRecord.php:50-54 | the to-do text is the creator's name, "（工号：", the work number, "）导出任务：", and the task name, in that order and nothing else; each part sits at its own offsets |
| Progress.ProgressStore.Forever | Importers/CollectionImporter.php:52 | the key maps to the value with no expiry; no other key changes |
| Progress.ProgressStore.PutUntil | Importers/CollectionImporter.php:93 | the key maps to the value with the given expiry; no other key changes |
| Progress.ExportProgressRecorder.SetTotal | Exporters/QueryExporter.php:170 | the total is set; no other counter changes |
| Progress.ExportProgressRecorder.SetStart | Exporters/QueryExporter.php:171 | the start is set to the given time; no other counter changes |
| Progress.ExportProgressRecorder.IncrementProcessed | Exporters/QueryExporter.php:104 | the processed count grows by one; no other counter changes |
| Progress.ExportProgressRecorder.SetFailed | Exporters/QueryExporter.php:199 | the failure flag is set; no other counter changes |
| Progress.ExportProgressRecorder.RefreshTTL | Exporters/QueryExporter.php:181 | one more TTL refresh is counted; no other counter changes |
| Progress.KeyInjective | Importers/CollectionImporter.php:52-64 | different task ids never share a progress key of one prefix |
| QueryExport.ConfigOf | Exporters/QueryExporter.php:47-57 | fields fall back from approved_fields to request_fields to []; params default to [] and mode to ''; a null record gives all defaults |
| QueryExport.QueryExporter.constructor | Exporters/QueryExporter.php:47-57 | the exporter's id, title, record and configuration are those the record's properties determine |
| QueryExport.Query | Exporters/QueryExporter.php:69-79 | specified by `QueryExport.QueryDispatch` |
| QueryExport.QueryDispatch | Exporters/QueryExporter.php:69-79 | a query exists iff the mode is all, page, selection or query; only page/selection restrict by the ids in params; only query passes `newbieQuery` |
| QueryExport.Headings | Exporters/QueryExporter.php:94-97 | the headings are the requested fields when non-empty, else the blank mapping's keys |
| QueryExport.Project | Exporters/QueryExporter.php:105 | a row's cells have one entry per heading: the mapped value under that heading, or null |
| QueryExport.ProjectAppend | Exporters/QueryExporter.php:105 | the projection splits over concatenation of headings |
| QueryExport.QueryExporter.Map | Exporters/QueryExporter.php:102-106 | each call increments the processed counter by exactly one, changes no other recorder counter, and returns the projection onto the headings |
| QueryExport.IndexOf | Exporters/QueryExporter.php:143 | `search` finds the first index holding the key, or nothing iff the key is absent |
| QueryExport.ColumnOf | Exporters/QueryExporter.php:143 | a present key's column is its first position plus one: the heading there is the key and no earlier heading is; an absent key gives column 1 |
| QueryExport.FirstFormat | Exporters/QueryExporter.php:142-148 | the chosen format entry is the first in iteration order whose column matches; none is chosen iff none matches |
| QueryExport.FirstFormatIsFirst | Exporters/QueryExporter.php:142-148 | a matching entry preceded by no match is the one chosen |
| QueryExport.AbsentKeyFormatsFirstColumn | Exporters/QueryExporter.php:143 | a first format key missing from the headings takes over column 1 |
| QueryExport.BindingFor | Exporters/QueryExporter.php:142-150 | specified by `QueryExport.FirstFormat`, `QueryExport.FirstFormatIsFirst` and `QueryExport.AbsentKeyFormatsFirstColumn` |
| QueryExport.QueryExporter.BindValue | Exporters/QueryExporter.php:136-151 | the loop returns the first matching format, and an explicit format is used iff some format key's column is the cell's column |
| QueryExport.Duration | Exporters/QueryExporter.php:179 | the duration text is well-formed `HH:MM:SS` (hours below 24, minutes and seconds below 60) and reads back as the absolute elapsed seconds modulo one day |
| QueryExport.QueryExporter.BeforeExport | Exporters/QueryExporter.php:160-172 | a mode with no query fails with PHP's "count() on null" error and changes nothing; otherwise the query's count becomes total_rows, the record gets status processing, the start time and total_count, the recorder gets the total and the start, and no other column or counter changes |
| QueryExport.QueryExporter.AfterSheet | Exporters/QueryExporter.php:173-182 | status done, end time and the duration from the recorder's start; the TTL is refreshed once; no other column or counter changes |
| QueryExport.QueryExporter.Failed | Exporters/QueryExporter.php:191-200 | corrected handler: status 'failed', end time and the exception's message; recorder failed = 1; no other column or counter changes |
| QueryExport.FailedStatusAsWritten | Exporters/QueryExporter.php:195 | specified by `QueryExport.FailedStatusUndeclared`: resolving `STATUS_FAILED` as written |
| QueryExport.FailedStatusUndeclared | Exporters/QueryExporter.php:195 | the handler as written names an undeclared constant, so it raises; no declared constant is 'failed' |
| Service.CreateFilename | Services/ImportexportService.php:328-338 | specified by `Service.CreateFilenameShape` |
| Service.CreateFilenameShape | Services/ImportexportService.php:328-338 | a stored upload name starts with the name stripped of ".ext" and dashes, contains no '-' in that stem, and ends with ".ext"; a name without either is kept |
| Service.FileStoragePath | Services/ImportexportService.php:350-353 | the storage path is the disk root, then '/', then the path |
| Service.ExportFileName | Services/ImportexportService.php:340-343 | an export file name starts with the task name and '_' and ends in ".xlsx" |
| Service.ExportPathTruthy | Services/ImportexportService.php:313-314 | an export path is never falsy and ends in ".xlsx" |
| Service.ContainsTitleRow | Services/ImportexportService.php:28-42 | specified by `Service.TitleRowDecision` |
| Service.TitleRowDecision | Services/ImportexportService.php:28-42 | a title row is detected iff the first cell is truthy and its trimmed text contains '导入模板' or, with a system name configured, that name |
| Service.HeadingRow | Services/ImportexportService.php:63 | the heading row is 1 or 2, and it is 2 exactly when a title row is present |
| Service.ReadHeaders | Services/ImportexportService.php:49-66 | specified by `Service.ReadHeadersRow` |
| Service.ReadHeadersRow | Services/ImportexportService.php:49-66 | reading fails with '文件上传失败' iff storing fails; otherwise the headers are row 2 when a title row is detected, row 1 otherwise, at an `import/` path keeping the extension |
| Service.CombineFieldsAndRules | Services/ImportexportService.php:73-80 | exactly one [label, required] pair per field, in field order |
| Service.RuleRequiredIff | Services/ImportexportService.php:77 | required iff a rule is set and "required" occurs in it |
| Service.TidyKeys | Services/ImportexportService.php:92-94 | the result keys are exactly the `field` keys of positions whose header exists and is truthy |
| Service.TidyValues | Services/ImportexportService.php:96-105 | with distinct keys and headers, a date field's value is the coerced cell, any other field's value is the cell unchanged, and a missing cell is null |
| Service.TidyImportFields | Services/ImportexportService.php:89-107 | the loop computes the specification and keys exactly the mapped fields |
| Service.RestoreStep | Services/ImportexportService.php:119-129 | one header's step raises exactly for a date field holding a non-empty value that is no date; otherwise it appends one cell, the row's value under the field key, which is null for an empty date, its `Y-m-d` text for a date, and the value itself for any other field; no other key changes |
| Service.RestoreFailurePersists | Services/ImportexportService.php:113-132 | once a step raises, the whole loop raises the same error |
| Service.RestoreStepShown | Services/ImportexportService.php:119-129 | a step on a canonical value succeeds and appends the value as the upload showed it, leaving the other keys alone |
| Service.RestoreCanonical | Services/ImportexportService.php:113-132 | over canonical values with distinct keys, the first n steps succeed and give the first n uploaded cells as shown, leaving later keys untouched |
| Service.TidyImportOriginContent | Services/ImportexportService.php:113-132 | the loop computes the specification, one value per header |
| Service.OriginContentRestoresUpload | Services/ImportexportService.php:89-132 | round trip: mapping a row to canonical fields and back yields the uploaded cells in header order, with empty dates as null |
| Service.TaskTitle | Services/ImportexportService.php:145 | the task title is the title, '_', the time stamp, '_', and the eight random characters |
| Service.Import | Services/ImportexportService.php:142-182 | a file gives its headers and the field summary or the upload error; otherwise a truthy path creates a pending import record titled `title_stamp_rand8` and returns its task id; otherwise '文件上传异常' |
| Service.ExportDispatch | Services/ImportexportService.php:203-220 | specified by `Service.ExportDispatchCases` |
| Service.ExportDispatchCases | Services/ImportexportService.php:203-220 | headers iff neither fields nor task_id is truthy; create iff `fields` is present and not a header request; download iff `fields` is absent and task_id is truthy; the final rejection is unreachable |
| Service.ExportExtractHeaders | Services/ImportexportService.php:229-233 | a record-less exporter's headings are the blank mapping's keys |
| Service.TaskProperties | Services/ImportexportService.php:261-265 | specified by `Service.CreatedTaskConfiguresExporter` |
| Service.CreatedTaskConfiguresExporter | Services/ImportexportService.php:261-265 | the exporter built over a new task exports the requested fields, params and mode, with defaults where absent |
| Service.ExportCreateTask | Services/ImportexportService.php:243-283 | a pending export record always exists; with approval required it is Pending or the approval error is returned (the record stays); otherwise Approved with '无需审核' and approval_at |
| Service.ApprovalAtCreation | Services/ImportexportService.php:268-279 | creation fails iff approval is required and the approval service reports a truthy error, with that error; otherwise the status is Pending iff approval is required and Approved iff it is not |
| Service.DownloadGate | Services/ImportexportService.php:301-315 | a missing task fails first with '导出任务不存在'; an existing task not approved (whatever its status) fails for a caller who is not a super admin with '导出任务未审核通过'; the gate passes iff the task exists and is approved or the caller is a super admin; it serves the recorded path iff that path is truthy, else it materialises the fresh path |
| Service.DownloadEffect | Services/ImportexportService.php:299-325 | a download's answer, the in-memory record's new columns and the saved row: the gate's failure or the served path change nothing; materialising stages the path in memory; a mode with no query then fails with "count() on null" (Exporters/QueryExporter.php:161) before any update, so the saved row keeps its columns; any other mode leaves the record, saved, done with the path, count, start, end and duration; approval status and properties never change |
| Service.DownloadEffectIdempotent | Services/ImportexportService.php:309-310 | after a successful download, a later one on the saved row by a caller with the same permission answers the same path and changes no column |
| Service.FailedDownloadRetriesFail | Services/ImportexportService.php:299-315 | a failed download saves nothing, so a retry on the saved row by a caller with the same permission fails with the same error and still saves nothing |
| Service.ModelessTaskDownloadFails | Services/ImportexportService.php:262 | a task created with no mode stores mode '', so an approved download of it fails in `beforeExport` with the path staged |
| Service.ApprovalGatesDownload | Services/ImportexportService.php:268-307 | a task created without approval downloads for anyone; one created for approval downloads only for a super admin |
| Service.DownloadIdempotent | Services/ImportexportService.php:309-315 | the first permitted download materialises a path; every later one serves that same path |
| Service.ExportDownloadFile | Services/ImportexportService.php:292-326 | checks run in order: missing task, then not approved and not super admin, then existing file_path, and those paths change nothing; otherwise file_path is assigned, a fresh exporter with a fresh recorder is built over the record and its `beforeExport` and `afterSheet` run; the answer and every column afterwards are those of `DownloadEffect`, and the recorder holds the count, the start and one TTL refresh, or nothing when the mode has no query |
| Service.Export | Services/ImportexportService.php:191-221 | the three protocol steps are wired to the dispatch decision; a download answers the `DownloadEffect` result as `DownloadReady` or the failure and leaves the in-memory record with its columns; a gate failure or a served path leaves the record unchanged |
| CollectionImport.RulesOf | Importers/CollectionImporter.php:116-127 | specified by `CollectionImport.RulesOfKeys` and `CollectionImport.RulesOfLastWins` |
| CollectionImport.RulesOfKeys | Importers/CollectionImporter.php:116-127 | rules are keyed exactly by the labels of the fields that have a rule |
| CollectionImport.RulesOfLastWins | Importers/CollectionImporter.php:120-124 | a label takes the rule of the last field with a rule under that label; later fields overwrite earlier ones |
| CollectionImport.CollectionImporter.ExtractRules | Importers/CollectionImporter.php:116-127 | the loop builds those rules and changes no counter |
| CollectionImport.CollectionImporter.constructor | Importers/CollectionImporter.php:40-53 | for a given user: current_row starts at 1 and error_rows at 0; the rules are extracted; `title_{id}` is cached forever |
| CollectionImport.NewCollectionImporter | Importers/CollectionImporter.php:34-53 | a null `imported_by` raises the typed-property TypeError and caches nothing; a given user yields a fresh importer with that user, the extracted rules, counters at 1 and 0, and `title_{id}` cached forever |
| CollectionImport.FailCount | Importers/CollectionImporter.php:61-62 | at most one failure is counted per row |
| CollectionImport.RowKeysDistinct | Importers/CollectionImporter.php:58-64 | a row's three progress keys are distinct |
| CollectionImport.RowStep | Importers/CollectionImporter.php:57-74 | specified by `CollectionImport.RowStepPublishesRow` and `CollectionImport.RowStepOutcome` |
| CollectionImport.RowStepPublishesRow | Importers/CollectionImporter.php:58 | `current_row_{id}` holds the number of the row being processed, written before validation |
| CollectionImport.RowStepOutcome | Importers/CollectionImporter.php:60-73 | a failing row sets the error flag, publishes the new error count, logs its number and first message, and stores nothing; a passing row leaves every key but the row counter, the count and the log alone |
| CollectionImport.RunEffects | Importers/CollectionImporter.php:55-75 | current_row advances by one per row, pass or fail; error_rows never decreases and grows by the failures; `store` gets the canonical passing rows in order; `importLog` gets each failure's row number and message in order |
| CollectionImport.RunCache | Importers/CollectionImporter.php:58-64 | after a chunk the cache holds the last row's number; once a row failed, the error flag is set and the published count is error_rows |
| CollectionImport.AllPassingRun | Importers/CollectionImporter.php:60-73 | a chunk with no failing row leaves the error count, the log and every key but the row counter untouched |
| CollectionImport.CollectionImporter.ProcessRow | Importers/CollectionImporter.php:57-74 | one loop iteration performs exactly one step of the specification |
| CollectionImport.CollectionImporter.Collection | Importers/CollectionImporter.php:55-75 | the loop's effect on counters, stored rows, log and cache is the specification run over the rows |
| CollectionImport.CollectionImporter.BeforeImport | Importers/CollectionImporter.php:85-91 | with a reported count, total_rows = first sheet's count − 1 and start_date are cached; with none, nothing changes |
| CollectionImport.CollectionImporter.AfterImport | Importers/CollectionImporter.php:92-97 | end_date is cached for 60 seconds; the staged file is deleted iff file_path is non-empty |
| ErrorMessageExport.NewErrorReport | Exporters/ImporterErrorMessageExporter.php:21-26 | specified by `ErrorMessageExport.ErrorReportLayout` |
| ErrorMessageExport.Collection | Exporters/ImporterErrorMessageExporter.php:28-31 | specified by `ErrorMessageExport.ErrorReportLayout` |
| ErrorMessageExport.Headings | Exporters/ImporterErrorMessageExporter.php:33-36 | specified by `ErrorMessageExport.ErrorReportLayout` |
| ErrorMessageExport.HeadingRow | Exporters/ImporterErrorMessageExporter.php:38-41 | specified by `ErrorMessageExport.ErrorReportLayout` |
| ErrorMessageExport.ErrorReportLayout | Exporters/ImporterErrorMessageExporter.php:21-41 | the headings are the reason label then the given headers in order (1 + n of them); the rows are returned unchanged; the heading row is 1 |
| ErrorMessageExport.BindValue | Exporters/ImporterErrorMessageExporter.php:50-64 | a cell is forced to a string iff some string-typed field at index i sits in column i+2; otherwise the default binder writes it |

## Left out

- Spreadsheet reading and writing are not modelled. This covers `HeadingRowImport` and the
  reader's row counts, cell writing (`setValueExplicit`), styles and autosize. What the core
  reads from them is a parameter: the first sheet as rows of headers, the reader's row
  counts, and the cell's column as a 1-based index, with `stringFromColumnIndex` read as
  the identity on indices.
- Service.ExportDownloadFile: `store` is modelled only through the exporter's own events.
  `beforeExport` runs first; when it raises, the failure is answered as a `Failure`
  carrying PHP's message, where the source lets the exception escape `export(...)`. Then
  `afterSheet` runs. The rows the engine writes between the two events (`map` per row) are
  not modelled, so the recorder's processed count stays 0, and an error of the engine itself
  is not modelled.
- The clock, `Str::random`, `uuid_create`, storage disks, `temporaryUrl`, `unlink` and
  `set_time_limit` are I/O. They are parameters in `Service.Env`, and a download's signed URL
  is represented by the path it signs.
- `land_excel_date` and Carbon date math are left to oracles. The date coercion is a function
  parameter; `Y-m-d` formatting is written out for calendar dates. Non-date values reaching
  `format()` are reported as PHP's error.
- RestoreStep: a Carbon instant (a `Stamp`) in a date field would format to its date in the
  application's time zone; the model sends it to the error path, because time zones are
  not modelled. The rows `tidyImportFields` produces hold only coerced dates or null in
  date fields, so the round trip is unaffected.
- The approval service, the approvables configuration and `isSuperAdmin` are oracles (an
  error string and booleans in `Service.Env`). The record's `approval_status` is assumed to
  read back as the `ApprovalStatus` enum. That is an assumption about code outside this
  model: the `$casts` of Entities/TransferRecord.php:27-32 do not list `approval_status`, so
  the cast would have to come from the `Approvable` trait or `BaseModel`, which are not part
  of this model. Without it the column reads back as a string, the strict `!==` at
  Services/ImportexportService.php:305 is always true, and only a super admin could download.
- The Laravel validator becomes a function from a row and rules to its first error message.
- A field's `rule` is modelled as a string. Laravel also accepts a rule given as an array of
  rules; `RuleRequired` (`Str::contains` on the rule) and the validator's reading of such a
  rule are not modelled.
- The `Log::info` and `Log::error` calls of the exporter's events and failure handler
  (Exporters/QueryExporter.php:174, 193) are logging I/O and are not modelled.
- `ExportProgressRecorder`'s storage and `importLog` are not part of this model. The recorder
  is a set of counters and the log is a list of calls.
- Queued chunk execution, job chaining (`NotifyUserOfCompletedImport`) and concurrent polling
  are scheduling concerns and are not modelled. The model assumes that successive chunks are
  successive `Collection` calls on one importer. The source queues its chunks
  (`ShouldQueue` with `WithChunkReading`), so each chunk runs on its own unserialised copy of
  the importer, whose row counter and error count start again. The model therefore hides
  how row numbers and error counts behave across chunks.
- The import branch constructs `$importer_class($record, $fields, $headers, $extra_data,
  $storage_path)` (Services/ImportexportService.php:175). The concrete importer class is
  the caller's, and CollectionImporter's empty `store` (Importers/CollectionImporter.php:108)
  suggests a subclass. If that class keeps CollectionImporter's constructor
  `(string $import_id, string $task_title, array $fields, ...)`
  (Importers/CollectionImporter.php:40), then passing the array `$fields` as `$task_title`
  raises a TypeError; `$record` itself would convert to a string for `$import_id`.
  `Service.Import` models up to the record creation; the importer's constructor is modelled
  with its declared signature.
- Service.DownloadEffect: the record objects of `Service.ExportDownloadFile` and
  `Service.Export` are the in-memory model, whose final columns are `after`. The database
  row is not an object of this model; its columns are `saved`. The two differ only when a
  no-query mode raises after `file_path` was assigned (Services/ImportexportService.php:315):
  then the in-memory record holds the staged path, while the saved row keeps `file_path`
  null, and a retry, which looks the row up again, materialises again.
- PHP type errors for non-array values, a null `UploadedFile` extension, or a user without
  `isSuperAdmin` are not modelled.
- Service.Import: it does not model the importer's construction or its queued run. It
  returns the new record's task id, which the source returns when the importer class
  accepts those arguments; under the constructor mismatch described above, the source
  raises before its reply instead.
- `$collection->search` compares loosely in PHP. `QueryExport.IndexOf` uses exact string
  equality, which agrees for non-numeric string keys; PHP 8 compares numeric strings by
  value, so "1" matches "01" there and not here.
- QueryExport.Duration: Carbon's `diffInSeconds` is taken as the absolute difference in whole
  seconds. A missing recorder start is read as the epoch.
- Routes, controllers and the migration are HTTP plumbing and schema; the migration serves
  only as the record's column list.

## Findings

| source | as written | input that shows it | evidently intended | confidence | as-written member | corrected member |
|---|---|---|---|---|---|---|
| Exporters/QueryExporter.php:195 | the failure handler sets `status` to `TransferRecord::STATUS_FAILED`, which Entities/TransferRecord.php:23-25 does not declare | any export job that fails and calls `failed($e)`: PHP raises "Undefined constant" before the update, so the record keeps status processing and the recorder's failure flag is never set | record status 'failed', with ended_at, the error message, and progress failed = 1 | medium; not executed (assumes neither `BaseModel` nor the `Approvable` trait, which are not part of this model, declares `STATUS_FAILED`) | QueryExport.FailedStatusAsWritten, QueryExport.FailedStatusUndeclared | QueryExport.QueryExporter.Failed |
