/**
 * The query exporter: the configuration it reads from an export record, the query plan the
 * export mode selects, the headings and the per-row projection onto them, the column format
 * lookup, and the status transitions it drives on the record and the progress recorder.
 */
module QueryExport {
  import opened Values
  import opened Text
  import opened Entities
  import opened Progress

  /** `chunkSize()`: rows are read from the query 1000 at a time. */
  const ChunkSize: nat := 1000

  /** The error PHP raises when `query()` gives null and `count()` is called on it. */
  const CountOnNull: string := "Call to a member function count() on null"

  /** `StatusFailed` is what the failure handler evidently means by `STATUS_FAILED`. */
  const StatusFailed: string := "failed"

  /** The exporter's configuration: fields to export, selection parameters and mode. */
  datatype Config = Config(fields: seq<string>, params: Params, mode: string)

  /**
   * The constructor's fallbacks: `approved_fields`, else `request_fields`, else `[]`;
   * `params` defaults to `[]` and `mode` to `''`; a null record or null properties give
   * all defaults.
   */
  function ConfigOf(properties: Option<Properties>): (c: Config)
    ensures properties.None? ==> c == Config([], IdList([]), "")
    ensures properties.Some? ==>
      var p := properties.value;
      && c.fields == (if p.approvedFields.Given? then p.approvedFields.value
                      else if p.requestFields.Given? then p.requestFields.value
                      else [])
      && c.params == p.params.Coalesce(IdList([]))
      && c.mode == p.mode.Coalesce("")
  {
    match properties
    case None => Config([], IdList([]), "")
    case Some(p) =>
      Config(p.approvedFields.Coalesce(p.requestFields.Coalesce([])),
             p.params.Coalesce(IdList([])),
             p.mode.Coalesce(""))
  }

  /**
   * What `query()` asks of the subclass's `prepareQuery` hook: the query for a filter, the
   * same query restricted to the ids in `params`, or no query at all.
   */
  datatype QueryPlan = Prepared(newbieQuery: Filter) | PreparedWhereIdIn(ids: Params) | NoQuery

  /** `$this->params['newbieQuery'] ?? []`. */
  function NewbieQuery(params: Params): Filter
  {
    match params
    case Keyed(Given(f)) => f
    case _ => map[]
  }

  /** `query()`: the mode picks the plan. */
  function Query(c: Config): QueryPlan
  {
    if c.mode == "all" then Prepared(map[])
    else if c.mode == "page" || c.mode == "selection" then PreparedWhereIdIn(c.params)
    else if c.mode == "query" then Prepared(NewbieQuery(c.params))
    else NoQuery
  }

  /** The four modes `query()` knows. */
  predicate KnownMode(mode: string) {
    mode in {"all", "page", "selection", "query"}
  }

  /**
   * A query exists exactly for the four known modes; only `page` and `selection` restrict
   * by id, and only `query` passes a filter, the one under `newbieQuery`.
   */
  lemma QueryDispatch(c: Config)
    ensures Query(c) != NoQuery <==> KnownMode(c.mode)
    ensures Query(c).PreparedWhereIdIn? <==> c.mode == "page" || c.mode == "selection"
    ensures Query(c).PreparedWhereIdIn? ==> Query(c).ids == c.params
    ensures Query(c).Prepared? && Query(c).newbieQuery != map[] ==> c.mode == "query"
    ensures c.mode == "query" ==> Query(c) == Prepared(NewbieQuery(c.params))
    ensures c.mode == "all" ==> Query(c) == Prepared(map[])
  {
  }

  /** `headings()`: the requested fields when filled, else the keys of the blank mapping. */
  function Headings(fields: seq<string>, blankMappingKeys: seq<string>): (h: seq<string>)
    ensures |fields| > 0 ==> h == fields
    ensures |fields| == 0 ==> h == blankMappingKeys
  {
    if |fields| > 0 then fields else blankMappingKeys
  }

  /**
   * The cells `map()` writes for one row: for each heading, the row's mapped value under
   * that key, or null.
   */
  function Project(headings: seq<string>, mapped: map<string, Value>): (cells: seq<Value>)
    ensures |cells| == |headings|
    ensures forall i :: 0 <= i < |headings| ==>
      (headings[i] in mapped ==> cells[i] == mapped[headings[i]]) &&
      (headings[i] !in mapped ==> cells[i] == Null)
  {
    if headings == [] then [] else [Get(mapped, headings[0])] + Project(headings[1..], mapped)
  }

  /** Projecting onto two runs of headings is projecting onto each and joining the cells. */
  lemma {:induction false} ProjectAppend(h1: seq<string>, h2: seq<string>, mapped: map<string, Value>)
    ensures Project(h1 + h2, mapped) == Project(h1, mapped) + Project(h2, mapped)
  {
    if h1 != [] {
      assert (h1 + h2)[1..] == h1[1..] + h2;
      ProjectAppend(h1[1..], h2, mapped);
    }
  }

  /** `$collection->search($key)`: the first index holding the key, if any. */
  function IndexOf(headings: seq<string>, key: string): (r: Option<nat>)
    ensures r.Some? ==> r.value < |headings| && headings[r.value] == key
    ensures r.Some? ==> forall j :: 0 <= j < r.value ==> headings[j] != key
    ensures r.None? ==> key !in headings
  {
    if headings == [] then None
    else if headings[0] == key then Some(0)
    else match IndexOf(headings[1..], key)
      case Some(i) => Some(i + 1)
      case None => None
  }

  /**
   * The column index `bindValue` compares against: the heading's position plus one; a key
   * missing from the headings gives `false + 1`, column 1.
   */
  function ColumnOf(headings: seq<string>, key: string): (col: nat)
    ensures col >= 1
    ensures key in headings ==> col - 1 < |headings| && headings[col - 1] == key
    ensures key in headings ==> forall j :: 0 <= j < col - 1 ==> headings[j] != key
    ensures key !in headings ==> col == 1
  {
    match IndexOf(headings, key)
    case Some(i) => i + 1
    case None => 1
  }

  /** How a cell is written: with an explicit format, or by the default value binder. */
  datatype Binding = Explicit(format: string) | DefaultBinder

  /** The first entry of `formats`, in iteration order, whose column is `column`. */
  function FirstFormat(formats: seq<(string, string)>, headings: seq<string>, column: nat): (r: Option<nat>)
    ensures r.Some? ==> r.value < |formats| && ColumnOf(headings, formats[r.value].0) == column
    ensures r.Some? ==> forall j :: 0 <= j < r.value ==> ColumnOf(headings, formats[j].0) != column
    ensures r.None? ==> forall j :: 0 <= j < |formats| ==> ColumnOf(headings, formats[j].0) != column
  {
    if formats == [] then None
    else if ColumnOf(headings, formats[0].0) == column then Some(0)
    else match FirstFormat(formats[1..], headings, column)
      case Some(i) => Some(i + 1)
      case None => None
  }

  function BindingFor(formats: seq<(string, string)>, headings: seq<string>, column: nat): Binding
  {
    match FirstFormat(formats, headings, column)
    case Some(i) => Explicit(formats[i].1)
    case None => DefaultBinder
  }

  /**
   * When the first format entry's key is absent from the headings, `search` answers false,
   * so that entry takes column 1 and wins there over every later entry.
   */
  lemma AbsentKeyFormatsFirstColumn(formats: seq<(string, string)>, headings: seq<string>)
    requires |formats| > 0 && formats[0].0 !in headings
    ensures BindingFor(formats, headings, 1) == Explicit(formats[0].1)
  {
  }

  /** `gmdate('H:i:s', diff)`, where `diff` is the absolute number of seconds between two instants. */
  function Duration(start: Time, end: Time): (d: string)
    ensures IsClockText(d)
    ensures ClockSeconds(d) == (if end >= start then end - start else start - end) % 86400
  {
    var elapsed: nat := if end >= start then end - start else start - end;
    ClockTimeRoundTrip(elapsed);
    ClockTime(elapsed)
  }

  class QueryExporter {
    const id: string
    const taskTitle: Option<string>
    const record: TransferRecord?
    const extraData: map<string, Value>
    const fields: seq<string>
    const params: Params
    const mode: string
    var totalRows: int
    /** The recorder `new ExportProgressRecorder($this->id)` addresses. */
    const progress: ExportProgressRecorder

    /** `__construct($task_id, ?TransferRecord $record, $extra_data)`. */
    constructor (taskId: string, record: TransferRecord?, extraData: map<string, Value>,
                 progress: ExportProgressRecorder)
      requires progress.id == taskId
      ensures id == taskId && this.record == record && this.extraData == extraData
      ensures this.progress == progress && totalRows == 0
      ensures taskTitle == (if record == null then None else record.taskName)
      ensures Config(fields, params, mode) == ConfigOf(if record == null then None else record.properties)
    {
      id := taskId;
      taskTitle := if record == null then None else record.taskName;
      this.record := record;
      var c := ConfigOf(if record == null then None else record.properties);
      fields, params, mode := c.fields, c.params, c.mode;
      this.extraData := extraData;
      this.progress := progress;
      totalRows := 0;
    }

    function Configuration(): Config
    {
      Config(fields, params, mode)
    }

    /** `query()`. */
    function QueryPlanOf(): QueryPlan
    {
      Query(Configuration())
    }

    /** `headings()`, given the keys the subclass maps on a blank model. */
    function HeadingsOf(blankMappingKeys: seq<string>): seq<string>
    {
      Headings(fields, blankMappingKeys)
    }

    /**
     * `map($row)`: one processed-counter increment, then the row's mapped values projected
     * onto the headings. `mapped` is what the subclass's `mappings($row)` returns.
     */
    method Map(mapped: map<string, Value>, blankMappingKeys: seq<string>) returns (cells: seq<Value>)
      modifies progress
      ensures progress.Counts() == old(progress.Counts()).(processed := old(progress.processed) + 1)
      ensures cells == Project(HeadingsOf(blankMappingKeys), mapped)
    {
      progress.IncrementProcessed();
      cells := Project(HeadingsOf(blankMappingKeys), mapped);
    }

    /**
     * `bindValue($cell, $value)`: the first format whose heading column is the cell's column
     * writes the cell explicitly; otherwise the default binder does. `formats` is the
     * subclass's `formats()` in iteration order (empty when it has none).
     */
    method BindValue(formats: seq<(string, string)>, blankMappingKeys: seq<string>, column: nat)
      returns (b: Binding)
      ensures b == BindingFor(formats, HeadingsOf(blankMappingKeys), column)
      ensures b.Explicit? <==> exists j :: 0 <= j < |formats| && ColumnOf(HeadingsOf(blankMappingKeys), formats[j].0) == column
    {
      var headings := HeadingsOf(blankMappingKeys);
      var i := 0;
      while i < |formats|
        invariant 0 <= i <= |formats|
        invariant forall j :: 0 <= j < i ==> ColumnOf(headings, formats[j].0) != column
      {
        if ColumnOf(headings, formats[i].0) == column {
          FirstFormatIsFirst(formats, headings, column, i);
          return Explicit(formats[i].1);
        }
        i := i + 1;
      }
      return DefaultBinder;
    }

    /**
     * BeforeExport: the row count of the mode's query (`count`, the database's answer for a
     * plan) becomes the total on the record and the recorder, the record moves to processing
     * with its start time, and the recorder's start is set. A mode with no query makes
     * `count()` on null raise before anything is updated.
     */
    method BeforeExport(count: QueryPlan -> nat, now: Time) returns (r: Result<nat>)
      requires record != null
      modifies this, record, progress
      ensures QueryPlanOf() == NoQuery ==>
        && r == Failure(CountOnNull)
        && totalRows == old(totalRows)
        && record.Snapshot() == old(record.Snapshot()) && progress.Counts() == old(progress.Counts())
      ensures QueryPlanOf() != NoQuery ==>
        var n := count(QueryPlanOf());
        && r == Success(n)
        && totalRows == n
        && record.Snapshot() == old(record.Snapshot()).(status := Some(StatusProcessing), startedAt := Some(now), totalCount := Some(n))
        && progress.Counts() == old(progress.Counts()).(total := Some(n), start := Some(now))
    {
      var plan := QueryPlanOf();
      if plan == NoQuery {
        return Failure(CountOnNull);
      }
      var n := count(plan);
      totalRows := n;
      record.status, record.startedAt, record.totalCount := Some(StatusProcessing), Some(now), Some(n);
      progress.SetTotal(n);
      progress.SetStart(now);
      r := Success(n);
    }

    /**
     * AfterSheet: the record is done, with its end time and the `H:i:s` duration since the
     * recorder's start (a missing start reads as the epoch), and the recorder's TTL is refreshed.
     */
    method AfterSheet(now: Time)
      requires record != null
      modifies record, progress
      ensures record.Snapshot() == old(record.Snapshot()).(
        status := Some(StatusDone), endedAt := Some(now),
        duration := Some(Duration(old(progress.start).GetOr(0), now)))
      ensures progress.Counts() == old(progress.Counts()).(ttlRefreshes := old(progress.ttlRefreshes) + 1)
    {
      var start := progress.start.GetOr(0);
      record.status, record.endedAt, record.duration := Some(StatusDone), Some(now), Some(Duration(start, now));
      progress.RefreshTTL();
    }

    /**
     * `failed($exception)` as the source evidently intends it: the record is failed, with
     * its end time and the exception's message, and the recorder's failure flag is 1.
     */
    method Failed(message: string, now: Time)
      requires record != null
      modifies record, progress
      ensures record.Snapshot() == old(record.Snapshot()).(
        status := Some(StatusFailed), endedAt := Some(now), error := Some(message))
      ensures progress.Counts() == old(progress.Counts()).(failed := 1)
    {
      record.status, record.endedAt, record.error := Some(StatusFailed), Some(now), Some(message);
      progress.SetFailed(1);
    }
  }

  /** A matching entry with no match before it is the one `FirstFormat` picks. */
  lemma {:induction false} FirstFormatIsFirst(formats: seq<(string, string)>, headings: seq<string>, column: nat, i: nat)
    requires i < |formats| && ColumnOf(headings, formats[i].0) == column
    requires forall j :: 0 <= j < i ==> ColumnOf(headings, formats[j].0) != column
    ensures FirstFormat(formats, headings, column) == Some(i)
    decreases i
  {
    if i > 0 {
      assert ColumnOf(headings, formats[0].0) != column;
      assert forall j :: 0 <= j < i - 1 ==> formats[1..][j] == formats[j + 1];
      FirstFormatIsFirst(formats[1..], headings, column, i - 1);
    }
  }

  /**
   * The status `failed($exception)` writes, as the source spells it: `TransferRecord::STATUS_FAILED`.
   * The record declares no such constant, so PHP raises an error before the update runs.
   */
  function FailedStatusAsWritten(): Result<string>
  {
    match Constant("STATUS_FAILED")
    case Some(s) => Success(s)
    case None => Failure("Undefined constant TransferRecord::STATUS_FAILED")
  }

  /**
   * The failure handler as written cannot record a failure: the constant it names is
   * not among the declared constants, so resolving it raises, and the `update` that would
   * follow is never reached.
   */
  lemma FailedStatusUndeclared()
    ensures FailedStatusAsWritten().Failure?
    ensures forall name :: Constant(name) != Some(StatusFailed)
    ensures !IsDeclaredStatus(StatusFailed)
  {
  }
}
