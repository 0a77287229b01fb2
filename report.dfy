/**
 * Reporting over the accumulated records: the pass/fail tally, the exit
 * status derived from it, and the fixed-width table rows.
 */
module Report {
  import opened Values
  import opened Text
  import opened Records

  /** `sum(1 for r in results if r.success == outcome)`. */
  function CountWhere(results: seq<TestResult>, outcome: bool): (n: nat)
    ensures n <= |results|
    decreases |results|
  {
    if results == [] then 0
    else (if results[0].success == outcome then 1 else 0) + CountWhere(results[1..], outcome)
  }

  /** Every record is either passed or failed, never both. */
  lemma {:induction false} CountsAddUp(results: seq<TestResult>)
    ensures CountWhere(results, true) + CountWhere(results, false) == |results|
    decreases |results|
  {
    if results != [] {
      CountsAddUp(results[1..]);
    }
  }

  /** No failure is counted exactly when every record succeeded. */
  lemma {:induction false} NoFailuresIffAllPassed(results: seq<TestResult>)
    ensures CountWhere(results, false) == 0 <==> forall k :: 0 <= k < |results| ==> results[k].success
    decreases |results|
  {
    if results != [] {
      NoFailuresIffAllPassed(results[1..]);
      assert forall k :: 1 <= k < |results| ==> results[k] == results[1..][k - 1];
    }
  }

  /** Appending one record adds one to exactly one of the two counts. */
  lemma {:induction false} CountAppend(results: seq<TestResult>, r: TestResult, outcome: bool)
    ensures CountWhere(results + [r], outcome)
         == CountWhere(results, outcome) + (if r.success == outcome then 1 else 0)
    decreases |results|
  {
    if results == [] {
      assert [r][1..] == [];
    } else {
      assert (results + [r])[1..] == results[1..] + [r];
      CountAppend(results[1..], r, outcome);
    }
  }

  datatype Tally = Tally(passed: nat, failed: nat, total: nat)

  /** The `(passed, failed, total)` triple `print_summary` returns. */
  function Summarize(results: seq<TestResult>): (t: Tally)
    ensures t.passed + t.failed == t.total == |results|
    ensures t.failed == 0 <==> forall k :: 0 <= k < |results| ==> results[k].success
  {
    CountsAddUp(results);
    NoFailuresIffAllPassed(results);
    Tally(CountWhere(results, true), CountWhere(results, false), |results|)
  }

  /** A new record moves the tally by one, in the column its outcome names. */
  lemma SummarizeAppend(results: seq<TestResult>, r: TestResult)
    ensures var before, after := Summarize(results), Summarize(results + [r]);
      after.total == before.total + 1 &&
      after.passed == before.passed + (if r.success then 1 else 0) &&
      after.failed == before.failed + (if r.success then 0 else 1)
  {
    CountAppend(results, r, true);
    CountAppend(results, r, false);
  }

  /** The process exit status: 1 when some test failed, 0 otherwise. */
  function ExitStatus(results: seq<TestResult>): (code: int)
    ensures code == 0 || code == 1
    ensures code == 0 <==> forall k :: 0 <= k < |results| ==> results[k].success
  {
    if Summarize(results).failed > 0 then 1 else 0
  }

  const ParamWidth: nat := 25
  const ApiWidth: nat := 30
  const StatusWidth: nat := 6
  const NotesWidth: nat := 30
  const Ellipsis: string := "..."

  /** The four cells of one table row, before padding. */
  datatype Cells = Cells(param: string, api: string, status: string, notes: string)

  /** The notes of a row before the final truncation: the value read, the
      original of a write test, "Method OK", or the error cut at 30 with "...". */
  function RawNotes(r: TestResult, show: Value -> string): (notes: string)
    ensures r.success && r.testType == Read ==> notes == show(r.valueRead)
    ensures r.success && r.testType == ReadWrite ==> notes == "Original: " + show(r.valueRead)
    ensures r.success && (r.testType == Method || r.testType == Write) ==> notes == "Method OK"
    ensures !r.success && |r.errorMessage| <= NotesWidth ==> notes == r.errorMessage
    ensures !r.success && |r.errorMessage| > NotesWidth ==>
      |notes| == NotesWidth + |Ellipsis| && notes[..NotesWidth] == r.errorMessage[..NotesWidth] &&
      notes[NotesWidth..] == Ellipsis
  {
    if r.success then
      match r.testType
      case Read => show(r.valueRead)
      case ReadWrite => "Original: " + show(r.valueRead)
      case _ => "Method OK"
    else if |r.errorMessage| > NotesWidth then r.errorMessage[..NotesWidth] + Ellipsis
    else r.errorMessage
  }

  /** The cells of one row. `show` is Python's `str` of a value. */
  function RowCells(r: TestResult, show: Value -> string): (c: Cells)
    ensures |c.param| <= ParamWidth && |c.api| <= ApiWidth && |c.notes| <= NotesWidth
    ensures |c.status| == StatusWidth
    ensures c.status == "[PASS]" <==> r.success
    ensures !r.success ==> c.status == "[FAIL]"
    ensures c.param <= r.parameter && c.api <= r.apiPath
    ensures |r.parameter| <= ParamWidth ==> c.param == r.parameter
    ensures |r.apiPath| <= ApiWidth ==> c.api == r.apiPath
    ensures |r.parameter| > ParamWidth ==> c.param == r.parameter[..ParamWidth]
    ensures |r.apiPath| > ApiWidth ==> c.api == r.apiPath[..ApiWidth]
    ensures c.notes == Take(RawNotes(r, show), NotesWidth)
  {
    var notes := RawNotes(r, show);
    Cells(
      if r.parameter == "" then "" else Take(r.parameter, ParamWidth),
      if r.apiPath == "" then "" else Take(r.apiPath, ApiWidth),
      if r.success then "[PASS]" else "[FAIL]",
      if notes == "" then "" else Take(notes, NotesWidth))
  }

  /** A failed row shows exactly the first 30 characters of the error: the
      "..." appended to a long message is always cut off again. */
  lemma FailedRowNotes(r: TestResult, show: Value -> string)
    requires !r.success
    ensures RowCells(r, show).notes == Take(r.errorMessage, NotesWidth)
  {
  }

  /** A successful method row always reads "Method OK". */
  lemma MethodRowNotes(r: TestResult, show: Value -> string)
    requires r.success && r.testType == Method
    ensures RowCells(r, show).notes == "Method OK"
  {
  }

  /** `f"| {param:25} | {api:30} | {status:6} | {notes:30} |"` for given cells. */
  function FormatRow(c: Cells): (line: string)
    ensures (|c.param| <= ParamWidth && |c.api| <= ApiWidth && |c.status| <= StatusWidth &&
             |c.notes| <= NotesWidth) ==>
      |line| == 104 && line[27..30] == " | " && line[60..63] == " | " && line[69..72] == " | "
    ensures |line| >= 104 && line[..2] == "| " && line[|line| - 2..] == " |"
  {
    "| " + PadRight(c.param, ParamWidth) + " | " + PadRight(c.api, ApiWidth) + " | "
      + PadRight(c.status, StatusWidth) + " | " + PadRight(c.notes, NotesWidth) + " |"
  }

  /** The printed row of one record. */
  function RowLine(r: TestResult, show: Value -> string): (line: string)
    ensures |line| == 2 + ParamWidth + 3 + ApiWidth + 3 + StatusWidth + 3 + NotesWidth + 2
  {
    FormatRow(RowCells(r, show))
  }

  /** Cells within their widths (as `RowCells` guarantees) land in fixed
      columns of the row, each padded with spaces to its width. */
  lemma FormatRowColumns(c: Cells)
    requires |c.param| <= ParamWidth && |c.api| <= ApiWidth
    requires |c.status| == StatusWidth && |c.notes| <= NotesWidth
    ensures var line := FormatRow(c);
      line[2..27] == PadRight(c.param, ParamWidth) && line[27..30] == " | " &&
      line[30..60] == PadRight(c.api, ApiWidth) && line[60..63] == " | " &&
      line[63..69] == c.status && line[69..72] == " | " &&
      line[72..102] == PadRight(c.notes, NotesWidth)
  {
  }

  const TableHeader: string := "| Parameter | API Path | Status | Value/Notes |"
  const TableRule: string := "|-----------|----------|--------|-------------|"

  /** One printed row per record, in record order. */
  function Rows(results: seq<TestResult>, show: Value -> string): (rows: seq<string>)
    ensures |rows| == |results|
    ensures forall k :: 0 <= k < |results| ==> rows[k] == RowLine(results[k], show)
  {
    seq(|results|, k requires 0 <= k < |results| => RowLine(results[k], show))
  }

  /** The table: header, rule, then one row per record in record order. */
  function Table(results: seq<TestResult>, show: Value -> string): (lines: seq<string>)
    ensures |lines| == |results| + 2
    ensures lines[0] == TableHeader && lines[1] == TableRule
    ensures lines[2..] == Rows(results, show)
  {
    [TableHeader, TableRule] + Rows(results, show)
  }
}
