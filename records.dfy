/**
 * The record the harness keeps for each tested parameter, and the notes it
 * writes into it.
 */
module Records {
  import opened Values
  import opened Text

  /** `'read'`, `'write'`, `'read_write'`, `'method'`. No primitive produces `Write`;
      the record admits it all the same. */
  datatype TestType = Read | Write | ReadWrite | Method

  /** One `(value, readback, match)` triple of a write test; a failed step is
      `(value, None, False)`. */
  datatype Attempt = Attempt(attempted: Value, readback: Value, matched: bool)

  /**
   * One test outcome. The fields the dataclass defaults are `NoneVal` for
   * `valueRead`, `None` for `valueWritten`, and the empty string for
   * `errorMessage` and `notes`.
   */
  datatype TestResult = TestResult(
    parameter: string,
    apiPath: string,
    testType: TestType,
    success: bool,
    valueRead: Value,
    valueWritten: Option<seq<Attempt>>,
    errorMessage: string,
    notes: string)

  const TestedPrefix: string := "Tested "
  const TestedSuffix: string := " values"

  /** The note of a completed write test: `f"Tested {n} values"`. */
  function CountNote(n: nat): (s: string)
    ensures TestedPrefix <= s
    ensures |s| == |TestedPrefix| + |NatToString(n)| + |TestedSuffix|
  {
    TestedPrefix + NatToString(n) + TestedSuffix
  }

  /** Recovers the count from a write test's note, if the note has that shape. */
  function ParseCountNote(s: string): Option<nat> {
    var lo, hi := |TestedPrefix|, |s| - |TestedSuffix|;
    if lo < hi && s[..lo] == TestedPrefix && s[hi..] == TestedSuffix && AllDigits(s[lo..hi])
    then Some(ParseNat(s[lo..hi]))
    else None
  }

  /** The note keeps the number of values tested. */
  lemma CountNoteRoundTrip(n: nat)
    ensures ParseCountNote(CountNote(n)) == Some(n)
  {
    var d := NatToString(n);
    var s := CountNote(n);
    var lo, hi := |TestedPrefix|, |s| - |TestedSuffix|;
    assert s[..lo] == TestedPrefix;
    assert s[hi..] == TestedSuffix;
    assert s[lo..hi] == d;
    ParseNatToString(n);
  }

  /** Python's `str` of a tuple whose items render as `repr` gives:
      `()`, `(a,)`, `(a, b, ...)`. */
  function TupleText(items: seq<Value>, repr: Value -> string): (s: string)
    ensures |s| >= 2 && s[0] == '(' && s[|s| - 1] == ')'
  {
    if |items| == 0 then "()"
    else if |items| == 1 then "(" + repr(items[0]) + ",)"
    else "(" + JoinComma(items, repr) + ")"
  }

  function JoinComma(items: seq<Value>, repr: Value -> string): string
    decreases |items|
  {
    if |items| == 0 then ""
    else if |items| == 1 then repr(items[0])
    else repr(items[0]) + ", " + JoinComma(items[1..], repr)
  }

  /** The note of a successful method test: `f"Called with args: {args}"`. */
  function ArgsNote(args: seq<Value>, repr: Value -> string): (s: string)
    ensures "Called with args: (" <= s
  {
    "Called with args: " + TupleText(args, repr)
  }
}
