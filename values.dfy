/**
 * The values a device parameter can hold, the outcome of calling into the
 * device library, and the rule the harness uses to decide whether a value it
 * wrote came back.
 */
module Values {

  /** The kinds of Python value the harness reads from and writes to a device. */
  datatype Value =
    | IntVal(i: int)
    | BoolVal(b: bool)
    | RealVal(r: real)
    | StrVal(s: string)
    | NoneVal

  datatype Option<+T> = None | Some(value: T)

  /** A call into the device library either returns a value or raises; the raised
      exception is kept as the text `str(e)` would give. */
  datatype Outcome<+T> = Ok(value: T) | Fault(msg: string)

  /** Python's bool and int are numbers, like float. */
  predicate IsNumeric(v: Value) {
    v.IntVal? || v.BoolVal? || v.RealVal?
  }

  function AsReal(v: Value): real
    requires IsNumeric(v)
  {
    match v
    case IntVal(i) => i as real
    case BoolVal(b) => if b then 1.0 else 0.0
    case RealVal(x) => x
  }

  /** Python's `==` on the modelled kinds: numbers compare by value across int,
      bool and float (so `True == 1 == 1.0`), strings by content, and None
      equals only None. */
  predicate PyEq(a: Value, b: Value)
    ensures a == b ==> PyEq(a, b)
    ensures a.StrVal? != b.StrVal? ==> !PyEq(a, b)
    ensures a.NoneVal? != b.NoneVal? ==> !PyEq(a, b)
  {
    if IsNumeric(a) && IsNumeric(b) then AsReal(a) == AsReal(b)
    else (a.StrVal? && b.StrVal? && a.s == b.s) || (a.NoneVal? && b.NoneVal?)
  }

  function Abs(x: real): real {
    if x < 0.0 then -x else x
  }

  /**
   * The match flag for a value read back after writing `attempted`. A float
   * that was written matches a readback within 1% of it, or, when it was zero,
   * a readback below 0.01 in size; any other value must compare equal. The
   * float comparison subtracts or takes `abs`, which raises when the readback
   * is not a number: that is a Fault here.
   */
  function Matches(readback: Value, attempted: Value): (m: Outcome<bool>)
    ensures m.Fault? <==> attempted.RealVal? && !IsNumeric(readback)
    ensures !attempted.RealVal? ==> m == Ok(PyEq(readback, attempted))
  {
    if attempted.RealVal? then
      if !IsNumeric(readback) then
        Fault("unsupported operand type(s) for -")
      else if attempted.r != 0.0 then
        Ok(Abs(AsReal(readback) - attempted.r) < 0.01 * Abs(attempted.r))
      else
        Ok(Abs(AsReal(readback)) < 0.01)
    else
      Ok(PyEq(readback, attempted))
  }

  /** The tolerance only ever relaxes equality: a readback equal to the written
      value always matches. */
  lemma ExactReadbackMatches(readback: Value, attempted: Value)
    requires PyEq(readback, attempted)
    ensures Matches(readback, attempted) == Ok(true)
  {
  }

  /** A nonzero float matches exactly the numeric readbacks of the same sign
      whose size is strictly within 1% of it. */
  lemma FloatMatchBounds(readback: Value, t: real)
    requires t != 0.0 && IsNumeric(readback)
    ensures Matches(readback, RealVal(t)) == Ok(true)
        <==> 0.99 * Abs(t) < Abs(AsReal(readback)) < 1.01 * Abs(t) && (t > 0.0) == (AsReal(readback) > 0.0)
  {
  }

  /** A zero float matches exactly the readbacks below 0.01 in size. */
  lemma ZeroFloatMatch(readback: Value)
    requires IsNumeric(readback)
    ensures Matches(readback, RealVal(0.0)) == Ok(Abs(AsReal(readback)) < 0.01)
  {
  }

  /** Worked cases of the match rule, including Python's mixed-kind equality. */
  lemma MatchExamples()
    ensures Matches(RealVal(24000000.0), RealVal(24000000.0)) == Ok(true)
    ensures Matches(RealVal(23000000.0), RealVal(24000000.0)) == Ok(false)
    ensures Matches(RealVal(0.005), RealVal(0.0)) == Ok(true)
    ensures Matches(RealVal(1.0), RealVal(0.0)) == Ok(false)
    ensures Matches(NoneVal, RealVal(1.5)).Fault?
    ensures Matches(RealVal(1000.0), IntVal(1000)) == Ok(true)
    ensures Matches(IntVal(1), BoolVal(true)) == Ok(true)
    ensures Matches(StrVal("1"), IntVal(1)) == Ok(false)
  {
  }
}
