/**
 * The error-report exporter: the rows of a failed import written back with a leading reason
 * column, and string-typed fields forced to text.
 */
module ErrorMessageExport {
  import opened Values

  /** The heading of the reason column. */
  const ReasonHeader: string := "数据异常原因（请调整后重新上传本文件）"

  /** The rows, the field definitions and the headings of one error report. */
  datatype ErrorReport = ErrorReport(rows: seq<seq<Value>>, fields: seq<Field>, headers: seq<Header>)

  /** The constructor: the reason heading goes in front of the upload's headers. */
  function NewErrorReport(rows: seq<seq<Value>>, fields: seq<Field>, headers: seq<Header>): ErrorReport
  {
    ErrorReport(rows, fields, [Some(ReasonHeader)] + headers)
  }

  /** `collection()`. */
  function Collection(report: ErrorReport): seq<seq<Value>>
  {
    report.rows
  }

  /** `headings()`. */
  function Headings(report: ErrorReport): seq<Header>
  {
    report.headers
  }

  /** `headingRow()`. */
  function HeadingRow(report: ErrorReport): nat
  {
    1
  }

  /**
   * The report's layout: the reason heading, then the upload's headers in order, so every
   * upload column moves one to the right; the rows are written as given, under heading row 1.
   */
  lemma ErrorReportLayout(rows: seq<seq<Value>>, fields: seq<Field>, headers: seq<Header>)
    ensures var report := NewErrorReport(rows, fields, headers);
      && |Headings(report)| == 1 + |headers|
      && Headings(report)[0] == Some(ReasonHeader)
      && (forall i :: 0 <= i < |headers| ==> Headings(report)[i + 1] == headers[i])
      && Collection(report) == rows
      && HeadingRow(report) == 1
  {
  }

  /** `isset($field['type']) && $field['type'] === 'string'`. */
  predicate IsStringField(f: Field) {
    f.fieldType == Some("string")
  }

  /** The binder a cell gets: an explicit string, or the default binder. */
  datatype Binding = ExplicitString | DefaultBinder

  /**
   * `bindValue($cell, $value)` for a cell in the 1-based `column`: the field at index `i` is
   * shown in column `i + 2` (behind the reason column); the first string-typed field there
   * forces an explicit string.
   */
  method BindValue(report: ErrorReport, column: nat) returns (b: Binding)
    ensures b == ExplicitString <==>
      exists i :: 0 <= i < |report.fields| && IsStringField(report.fields[i]) && i + 2 == column
  {
    var i := 0;
    while i < |report.fields|
      invariant 0 <= i <= |report.fields|
      invariant forall j :: 0 <= j < i && IsStringField(report.fields[j]) ==> j + 2 != column
    {
      if IsStringField(report.fields[i]) && i + 2 == column {
        return ExplicitString;
      }
      i := i + 1;
    }
    return DefaultBinder;
  }
}
