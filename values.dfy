/**
 * The values the import/export pipeline passes around: cell and cache values, request
 * parameters that may be absent or null, field specifications and header cells, and PHP's
 * notion of truthiness as the pipeline's `if (!$x)`, `empty()`, `filled()` and `??` use it.
 */
module Values {

  datatype Option<+T> = None | Some(value: T) {
    function GetOr(default: T): T {
      match this
      case Some(v) => v
      case None => default
    }
  }

  datatype Result<+T> = Success(value: T) | Failure(error: string)

  /** Unix time in seconds, standing for a Carbon instant. */
  type Time = int

  /** A calendar date, standing for the Carbon instance `land_excel_date` produces. */
  datatype CalendarDate = CalendarDate(year: nat, month: nat, day: nat)

  /** A scalar cell, row or cache value. */
  datatype Value =
    | Null
    | Bool(b: bool)
    | Int(i: int)
    | Str(s: string)
    | Date(date: CalendarDate)   // a Carbon date coerced from a spreadsheet cell
    | Stamp(at: Time)            // a Carbon instant such as `now()`

  /**
   * A request parameter: missing from the request, present with a null value, or given.
   * `request('k', d)` and `??` treat the first two alike; `request()->exists('k')` does not.
   */
  datatype Input<+T> = Absent | Nil | Given(value: T) {
    predicate Exists() { !Absent? }
    function Coalesce(default: T): T {
      if Given? then value else default
    }
  }

  /** A string is falsy in PHP exactly when it is "" or "0". */
  predicate StrTruthy(s: string) {
    s != "" && s != "0"
  }

  /** PHP truthiness of a scalar; objects (dates, instants) are always truthy. */
  predicate Truthy(v: Value) {
    match v
    case Null => false
    case Bool(b) => b
    case Int(i) => i != 0
    case Str(s) => StrTruthy(s)
    case Date(_) => true
    case Stamp(_) => true
  }

  /** `empty($v)` is the negation of truthiness. */
  predicate Empty(v: Value) {
    !Truthy(v)
  }

  /** `$row[$key] ?? null` on a keyed row. */
  function Get(row: map<string, Value>, key: string): Value
  {
    if key in row then row[key] else Null
  }

  /**
   * One entry of a field specification: `['field' => key, 'label' => caption, 'type' => ...,
   * 'rule' => ...]`; `type` and `rule` are `None` where `isset` is false.
   */
  datatype Field = Field(key: string, caption: string, fieldType: Option<string>, rule: Option<string>)

  /** A header cell of the uploaded sheet, as the front end sends it back; `None` is null. */
  type Header = Option<string>

  /** `!$header` is false for a header cell: it is present, non-null and a truthy string. */
  predicate HeaderTruthy(h: Header) {
    h.Some? && StrTruthy(h.value)
  }

  /** `$headers[$index] ?? null`. */
  function HeaderAt(headers: seq<Header>, index: nat): Header
  {
    if index < |headers| then headers[index] else None
  }

  /** A signed-in user as the record's relations load it (`id`, `name`, `work_num`). */
  datatype User = User(id: int, name: string, workNum: string)
}
