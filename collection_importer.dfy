/**
 * The collection importer: it validates each row of a chunk against rules extracted from the
 * field definitions, counts and logs the rows that fail, hands the canonical form of the
 * rows that pass to `store`, and publishes its progress to the shared cache.
 */
module CollectionImport {
  import opened Values
  import opened Progress
  import opened Service

  /** `chunkSize()`. */
  const ChunkSize: nat := 1000

  /** Validation rules keyed by field label. */
  type Rules = map<string, string>

  /** The validator: the first error message for a row under some rules, or `None` when it passes. */
  type Validator = (map<string, Value>, Rules) -> Option<string>

  /** The date coercion `land_excel_date`. */
  type DateCoercion = Value -> Option<CalendarDate>

  /** Seconds the `end_date_{id}` entry lives (`now()->addMinute()`). */
  const EndDateTtl: int := 60

  // ================================================================ rules

  /** What `extractRules` builds from the first `n` fields: later labels overwrite earlier ones. */
  function RulesOf(fields: seq<Field>): Rules
  {
    if fields == [] then map[]
    else
      var last := fields[|fields| - 1];
      var earlier := RulesOf(fields[..|fields| - 1]);
      if last.rule.Some? then earlier[last.caption := last.rule.value] else earlier
  }

  /** No later field with a rule has the same label as field `i`. */
  predicate LastWithLabel(fields: seq<Field>, i: int)
    requires 0 <= i < |fields|
  {
    forall j :: i < j < |fields| && fields[j].rule.Some? ==> fields[j].caption != fields[i].caption
  }

  /** The rules are keyed exactly by the labels of the fields that have a rule. */
  lemma {:induction false} RulesOfKeys(fields: seq<Field>)
    ensures forall l :: l in RulesOf(fields) <==> exists i :: 0 <= i < |fields| && fields[i].rule.Some? && fields[i].caption == l
  {
    if fields != [] {
      var init := fields[..|fields| - 1];
      RulesOfKeys(init);
      assert forall i :: 0 <= i < |init| ==> init[i] == fields[i];
    }
  }

  /** Each label carries the rule of the last field with a rule under that label. */
  lemma {:induction false} RulesOfLastWins(fields: seq<Field>, i: nat)
    requires i < |fields| && fields[i].rule.Some? && LastWithLabel(fields, i)
    ensures fields[i].caption in RulesOf(fields) && RulesOf(fields)[fields[i].caption] == fields[i].rule.value
  {
    var last := |fields| - 1;
    if i < last {
      var init := fields[..last];
      assert init[i] == fields[i];
      assert LastWithLabel(init, i) by {
        forall j | i < j < |init| && init[j].rule.Some? ensures init[j].caption != init[i].caption {
          assert init[j] == fields[j];
        }
      }
      RulesOfLastWins(init, i);
      assert fields[last].rule.Some? ==> fields[last].caption != fields[i].caption;
    }
  }

  // ================================================================ the row loop

  /** A call of `importLog($id, $row, $message)`. */
  datatype LogEntry = LogEntry(row: int, message: string)

  /**
   * The importer's observable state: its row counter and error counter, the rows handed to
   * `store` (with `extra`), the log calls and the cache.
   */
  datatype Tally = Tally(currentRow: int, errorRows: nat, stored: seq<map<string, Value>>,
                         log: seq<LogEntry>, cache: map<string, Entry>)

  /** The cache keys of one task. */
  function CurrentRowKey(id: string): string { Key("current_row", id) }
  function ErrorKey(id: string): string { Key("error", id) }
  function ErrorRowsKey(id: string): string { Key("error_rows", id) }

  /** The three keys a row writes are distinct (their prefixes have different lengths). */
  lemma RowKeysDistinct(id: string)
    ensures CurrentRowKey(id) != ErrorKey(id) && CurrentRowKey(id) != ErrorRowsKey(id) && ErrorKey(id) != ErrorRowsKey(id)
  {
    assert |CurrentRowKey(id)| == |id| + 12 && |ErrorKey(id)| == |id| + 6 && |ErrorRowsKey(id)| == |id| + 11;
  }

  /** The importer's fixed inputs: task id, field definitions, headers, rules and the oracles. */
  datatype Setup = Setup(id: string, fields: seq<Field>, headers: seq<Header>, rules: Rules,
                         validate: Validator, toDate: DateCoercion)

  /**
   * One iteration of `collection`: publish the row number, then either count, flag and log
   * a failing row, or store the canonical form of a passing one; the row number advances.
   */
  function RowStep(s: Setup, t: Tally, row: map<string, Value>): Tally
  {
    var cache := t.cache[CurrentRowKey(s.id) := Entry(Int(t.currentRow), None)];
    match s.validate(row, s.rules)
    case Some(message) =>
      var errors := t.errorRows + 1;
      Tally(t.currentRow + 1, errors, t.stored, t.log + [LogEntry(t.currentRow, message)],
            cache[ErrorKey(s.id) := Entry(Bool(true), None)][ErrorRowsKey(s.id) := Entry(Int(errors), None)])
    case None =>
      Tally(t.currentRow + 1, t.errorRows, t.stored + [TidiedFields(s.fields, s.headers, row, s.toDate)], t.log, cache)
  }

  /** `collection($rows)` from state `t`. */
  function Run(s: Setup, t: Tally, rows: seq<map<string, Value>>): Tally
  {
    if rows == [] then t else RowStep(s, Run(s, t, rows[..|rows| - 1]), rows[|rows| - 1])
  }

  predicate Fails(s: Setup, row: map<string, Value>) {
    s.validate(row, s.rules).Some?
  }

  /** How many of the rows fail validation. */
  function FailCount(s: Setup, rows: seq<map<string, Value>>): (n: nat)
    ensures n <= |rows|
  {
    if rows == [] then 0
    else FailCount(s, rows[..|rows| - 1]) + (if Fails(s, rows[|rows| - 1]) then 1 else 0)
  }

  /** The canonical forms of the rows that pass, in input order. */
  function Passed(s: Setup, rows: seq<map<string, Value>>): seq<map<string, Value>>
  {
    if rows == [] then []
    else
      var row := rows[|rows| - 1];
      Passed(s, rows[..|rows| - 1]) + (if Fails(s, row) then [] else [TidiedFields(s.fields, s.headers, row, s.toDate)])
  }

  /** The log calls for the failing rows, numbered from `first`, in input order. */
  function FailureLog(s: Setup, rows: seq<map<string, Value>>, first: int): seq<LogEntry>
  {
    if rows == [] then []
    else
      var row := rows[|rows| - 1];
      FailureLog(s, rows[..|rows| - 1], first) +
        (if Fails(s, row) then [LogEntry(first + |rows| - 1, s.validate(row, s.rules).value)] else [])
  }

  /**
   * Over any rows: the row number advances by one per row, pass or fail; the error count grows
   * by the number of failing rows; `store` receives the canonical forms of the passing rows in
   * order; `importLog` receives each failing row's number and first message in order.
   */
  lemma {:induction false} RunEffects(s: Setup, t: Tally, rows: seq<map<string, Value>>)
    ensures Run(s, t, rows).currentRow == t.currentRow + |rows|
    ensures Run(s, t, rows).errorRows == t.errorRows + FailCount(s, rows)
    ensures Run(s, t, rows).errorRows >= t.errorRows
    ensures Run(s, t, rows).stored == t.stored + Passed(s, rows)
    ensures Run(s, t, rows).log == t.log + FailureLog(s, rows, t.currentRow)
  {
    if rows != [] {
      RunEffects(s, t, rows[..|rows| - 1]);
    }
  }

  /**
   * The row counter publishes the number of the row being processed, before it is validated:
   * after a step, `current_row_{id}` holds the row number the step started with.
   */
  lemma RowStepPublishesRow(s: Setup, t: Tally, row: map<string, Value>)
    ensures RowStep(s, t, row).cache[CurrentRowKey(s.id)] == Entry(Int(t.currentRow), None)
    ensures RowStep(s, t, row).currentRow == t.currentRow + 1
  {
    RowKeysDistinct(s.id);
  }

  /**
   * A failing row sets the error flag and publishes the new error count, logs and stores
   * nothing else; a passing row leaves the error keys, the count and the log as they were.
   */
  lemma RowStepOutcome(s: Setup, t: Tally, row: map<string, Value>)
    ensures Fails(s, row) ==>
      && ErrorKey(s.id) in RowStep(s, t, row).cache && ErrorRowsKey(s.id) in RowStep(s, t, row).cache
      && RowStep(s, t, row).cache[ErrorKey(s.id)] == Entry(Bool(true), None)
      && RowStep(s, t, row).cache[ErrorRowsKey(s.id)] == Entry(Int(t.errorRows + 1), None)
      && RowStep(s, t, row).stored == t.stored
      && RowStep(s, t, row).log == t.log + [LogEntry(t.currentRow, s.validate(row, s.rules).value)]
    ensures !Fails(s, row) ==>
      && RowStep(s, t, row).errorRows == t.errorRows && RowStep(s, t, row).log == t.log
      && (forall k :: k != CurrentRowKey(s.id) && k in t.cache ==> k in RowStep(s, t, row).cache && RowStep(s, t, row).cache[k] == t.cache[k])
      && (forall k :: k != CurrentRowKey(s.id) && k !in t.cache ==> k !in RowStep(s, t, row).cache)
  {
    RowKeysDistinct(s.id);
  }

  /**
   * After a non-empty chunk the cache holds the last row's number; and once a row has
   * failed, the error flag is set and the published error count is the running count.
   */
  lemma {:induction false} RunCache(s: Setup, t: Tally, rows: seq<map<string, Value>>)
    requires rows != []
    ensures Run(s, t, rows).cache[CurrentRowKey(s.id)] == Entry(Int(t.currentRow + |rows| - 1), None)
    ensures FailCount(s, rows) > 0 ==>
      && ErrorKey(s.id) in Run(s, t, rows).cache && ErrorRowsKey(s.id) in Run(s, t, rows).cache
      && Run(s, t, rows).cache[ErrorKey(s.id)] == Entry(Bool(true), None)
      && Run(s, t, rows).cache[ErrorRowsKey(s.id)] == Entry(Int(Run(s, t, rows).errorRows), None)
  {
    var init := rows[..|rows| - 1];
    var prev := Run(s, t, init);
    RunEffects(s, t, init);
    RowStepPublishesRow(s, prev, rows[|rows| - 1]);
    RowStepOutcome(s, prev, rows[|rows| - 1]);
    if init != [] {
      RunCache(s, t, init);
    }
  }

  /** Rows that all pass leave the error count, the log and every key but the row counter untouched. */
  lemma {:induction false} AllPassingRun(s: Setup, t: Tally, rows: seq<map<string, Value>>)
    requires forall i :: 0 <= i < |rows| ==> !Fails(s, rows[i])
    ensures Run(s, t, rows).errorRows == t.errorRows && Run(s, t, rows).log == t.log
    ensures forall k :: k != CurrentRowKey(s.id) && k in t.cache ==> k in Run(s, t, rows).cache && Run(s, t, rows).cache[k] == t.cache[k]
    ensures forall k :: k != CurrentRowKey(s.id) && k !in t.cache ==> k !in Run(s, t, rows).cache
  {
    if rows != [] {
      AllPassingRun(s, t, rows[..|rows| - 1]);
      RowStepOutcome(s, Run(s, t, rows[..|rows| - 1]), rows[|rows| - 1]);
    }
  }

  // ================================================================ the importer

  class CollectionImporter {
    const id: string
    const taskTitle: string
    const fields: seq<Field>
    const headers: seq<Header>
    const extra: map<string, Value>
    const importedBy: User
    const filePath: string
    /** The shared cache the progress is published to. */
    const cache: ProgressStore
    var rules: Rules
    var currentRow: int
    var errorRows: nat
    /** The rows handed to `store`, which does nothing here and is overridden by concrete importers. */
    var stored: seq<map<string, Value>>
    /** The `importLog` calls made so far. */
    var log: seq<LogEntry>

    /** The importer's state as a `Tally`. */
    function State(): Tally
      reads this, cache
    {
      Tally(currentRow, errorRows, stored, log, cache.entries)
    }

    /** The setup `collection` runs with, given the oracles. */
    function SetupWith(validate: Validator, toDate: DateCoercion): Setup
      reads this
    {
      Setup(id, fields, headers, rules, validate, toDate)
    }

    /**
     * The constructor for a given user: extract the rules, and cache the task title forever
     * under `title_{id}`. `NewCollectionImporter` is the entry point that also admits null.
     */
    constructor (id: string, taskTitle: string, fields: seq<Field>, headers: seq<Header>,
                 extra: map<string, Value>, importedBy: User, filePath: string, cache: ProgressStore)
      modifies cache
      ensures this.id == id && this.taskTitle == taskTitle && this.fields == fields && this.headers == headers
      ensures this.extra == extra && this.importedBy == importedBy && this.filePath == filePath && this.cache == cache
      ensures rules == RulesOf(fields)
      ensures currentRow == 1 && errorRows == 0 && stored == [] && log == []
      ensures cache.entries == old(cache.entries)[Key("title", id) := Entry(Str(taskTitle), None)]
    {
      this.id := id;
      this.taskTitle := taskTitle;
      this.fields := fields;
      this.headers := headers;
      this.extra := extra;
      this.importedBy := importedBy;
      this.filePath := filePath;
      this.cache := cache;
      rules := map[];
      currentRow := 1;
      errorRows := 0;
      stored := [];
      log := [];
      new;
      ExtractRules();
      cache.Forever(Key("title", id), Str(taskTitle));
    }

    /** `extractRules()`: rules keyed by label for the fields that have one. */
    method ExtractRules()
      modifies this
      ensures rules == RulesOf(fields)
      ensures currentRow == old(currentRow) && errorRows == old(errorRows)
      ensures stored == old(stored) && log == old(log)
    {
      var r: Rules := map[];
      for i := 0 to |fields|
        invariant r == RulesOf(fields[..i])
      {
        assert fields[..i + 1][..i] == fields[..i];
        if fields[i].rule.Some? {
          r := r[fields[i].caption := fields[i].rule.value];
        }
      }
      assert fields[..|fields|] == fields;
      rules := r;
    }

    /** `collection($rows)`: the row loop, with the validator and the date coercion as oracles. */
    method Collection(rows: seq<map<string, Value>>, validate: Validator, toDate: DateCoercion)
      modifies this, cache
      ensures rules == old(rules)
      ensures State() == Run(SetupWith(validate, toDate), old(State()), rows)
    {
      ghost var t0 := State();
      for i := 0 to |rows|
        invariant rules == old(rules)
        invariant State() == Run(SetupWith(validate, toDate), t0, rows[..i])
      {
        assert rows[..i + 1][..i] == rows[..i];
        ProcessRow(rows[i], validate, toDate);
      }
      assert rows[..|rows|] == rows;
    }

    /** The body of `collection`'s loop for one row. */
    method ProcessRow(row: map<string, Value>, validate: Validator, toDate: DateCoercion)
      modifies this, cache
      ensures rules == old(rules)
      ensures State() == RowStep(SetupWith(validate, toDate), old(State()), row)
    {
      cache.Forever(CurrentRowKey(id), Int(currentRow));
      var message := validate(row, rules);
      if message.Some? {
        errorRows := errorRows + 1;
        cache.Forever(ErrorKey(id), Bool(true));
        cache.Forever(ErrorRowsKey(id), Int(errorRows));
        log := log + [LogEntry(currentRow, message.value)];
        currentRow := currentRow + 1;
        return;
      }
      var data := TidyImportFields(fields, headers, row, toDate);
      stored := stored + [data];
      currentRow := currentRow + 1;
    }

    /**
     * The BeforeImport event: when the reader reports row counts (one per sheet, in order),
     * publish the first sheet's count less its heading row, and the start time.
     */
    method BeforeImport(totalRows: seq<int>, now: Time)
      modifies cache
      ensures totalRows != [] ==>
        cache.entries == old(cache.entries)[Key("total_rows", id) := Entry(Int(totalRows[0] - 1), None)]
                                           [Key("start_date", id) := Entry(Int(now), None)]
      ensures totalRows == [] ==> cache.entries == old(cache.entries)
    {
      if totalRows != [] {
        cache.Forever(Key("total_rows", id), Int(totalRows[0] - 1));
        cache.Forever(Key("start_date", id), Int(now));
      }
    }

    /**
     * The AfterImport event: publish the end time for one minute, and return the staged file
     * to delete when `file_path` is non-empty.
     */
    method AfterImport(now: Time) returns (unlink: Option<string>)
      modifies cache
      ensures cache.entries == old(cache.entries)[Key("end_date", id) := Entry(Stamp(now), Some(now + EndDateTtl))]
      ensures unlink.Some? <==> StrTruthy(filePath)
      ensures unlink.Some? ==> unlink.value == filePath
    {
      cache.PutUntil(Key("end_date", id), Stamp(now), now + EndDateTtl);
      unlink := if StrTruthy(filePath) then Some(filePath) else None;
    }
  }

  /** The TypeError PHP raises when null is assigned to the `User`-typed property. */
  const NullImporter: string := "Cannot assign null to property $imported_by of type User"

  /**
   * `new CollectionImporter(..., $imported_by = null, ...)`: the parameter defaults to null,
   * but the property it is assigned to is typed `User`, so a null user raises before the
   * rules are extracted and the title is cached, and no importer exists.
   */
  method NewCollectionImporter(id: string, taskTitle: string, fields: seq<Field>, headers: seq<Header>,
                               extra: map<string, Value>, importedBy: Option<User>, filePath: string,
                               cache: ProgressStore)
    returns (r: Result<CollectionImporter>)
    modifies cache
    ensures importedBy.None? ==> r == Failure(NullImporter) && cache.entries == old(cache.entries)
    ensures importedBy.Some? ==>
      && r.Success? && fresh(r.value)
      && r.value.importedBy == importedBy.value && r.value.id == id && r.value.taskTitle == taskTitle
      && r.value.fields == fields && r.value.headers == headers && r.value.extra == extra
      && r.value.filePath == filePath && r.value.cache == cache
      && r.value.rules == RulesOf(fields)
      && r.value.currentRow == 1 && r.value.errorRows == 0 && r.value.stored == [] && r.value.log == []
      && cache.entries == old(cache.entries)[Key("title", id) := Entry(Str(taskTitle), None)]
  {
    if importedBy.None? {
      return Failure(NullImporter);
    }
    var importer := new CollectionImporter(id, taskTitle, fields, headers, extra, importedBy.value, filePath, cache);
    r := Success(importer);
  }
}
