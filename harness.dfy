/**
 * The parameter tester: three test primitives over a device's getters,
 * setters and methods. Each appends exactly one record to an append-only
 * list, and no device fault escapes a primitive. A fault in `test_read`,
 * `test_method` or the first read of `test_write` gives a failed record; a
 * fault in one pass of the write loop gives a `(v, None, False)` triple; a
 * fault in the restoring write is ignored.
 *
 * The device is external. Its state is the type parameter `S`, handed to each
 * primitive and handed back after the calls the primitive made on it.
 */
module Harness {
  import opened Values
  import opened Records

  /** What a setter or a method call does: the device state it leaves behind
      (also when it raises) and what it returned or raised. */
  datatype Effect<S> = Effect(device: S, outcome: Outcome<Value>)

  /** The accessors of one parameter: a property read, which does not change
      the device, and a property write, which may. */
  datatype Accessor<!S> = Accessor(read: S -> Outcome<Value>, write: (S, Value) -> Effect<S>)

  /** The device state after a number of attempts, and their triples in order. */
  datatype Swept<S> = Swept(device: S, attempts: seq<Attempt>)

  /** A write test's record and the device state it leaves. */
  datatype Run<S> = Run(device: S, record: TestResult)

  /**
   * One pass of the write loop for value `v`: set it, read it back and compare.
   * A fault in any of the three steps gives `(v, None, False)`; the device keeps
   * whatever the setter left.
   */
  function Try<S>(acc: Accessor<S>, device: S, v: Value): (t: (S, Attempt))
    ensures t.0 == acc.write(device, v).device
    ensures t.1.attempted == v
    ensures t.1.matched <==>
      acc.write(device, v).outcome.Ok? && acc.read(t.0).Ok? && Matches(acc.read(t.0).value, v) == Ok(true)
    ensures (acc.write(device, v).outcome.Fault? || acc.read(t.0).Fault? ||
             Matches(acc.read(t.0).value, v).Fault?) ==> t.1 == Attempt(v, NoneVal, false)
    ensures acc.write(device, v).outcome.Ok? && acc.read(t.0).Ok? && Matches(acc.read(t.0).value, v).Ok? ==>
      t.1 == Attempt(v, acc.read(t.0).value, Matches(acc.read(t.0).value, v).value)
  {
    var d := acc.write(device, v);
    if d.outcome.Fault? then (d.device, Attempt(v, NoneVal, false))
    else
      var back := acc.read(d.device);
      if back.Fault? then (d.device, Attempt(v, NoneVal, false))
      else
        match Matches(back.value, v)
        case Fault(_) => (d.device, Attempt(v, NoneVal, false))
        case Ok(m) => (d.device, Attempt(v, back.value, m))
  }

  /** The write loop over `values`, in order, starting from `device`. */
  function Sweep<S>(acc: Accessor<S>, device: S, values: seq<Value>): (s: Swept<S>)
    ensures |s.attempts| == |values|
    ensures forall k :: 0 <= k < |values| ==> s.attempts[k].attempted == values[k]
    decreases |values|
  {
    if values == [] then Swept(device, [])
    else
      var prev := Sweep(acc, device, values[..|values| - 1]);
      var t := Try(acc, prev.device, values[|values| - 1]);
      Swept(t.0, prev.attempts + [t.1])
  }

  /** `any(t[2] for t in tested_values)`, as the fold Python performs. */
  function AnyMatched(attempts: seq<Attempt>): (b: bool)
    ensures b ==> attempts != []
    ensures attempts != [] && attempts[0].matched ==> b
    decreases |attempts|
  {
    attempts != [] && (attempts[0].matched || AnyMatched(attempts[1..]))
  }

  /** Overall write success is the OR of the match flags. */
  lemma {:induction false} AnyMatchedIff(attempts: seq<Attempt>)
    ensures AnyMatched(attempts) <==> exists k :: 0 <= k < |attempts| && attempts[k].matched
    decreases |attempts|
  {
    if attempts != [] {
      AnyMatchedIff(attempts[1..]);
      if AnyMatched(attempts[1..]) {
        var k :| 0 <= k < |attempts[1..]| && attempts[1..][k].matched;
        assert attempts[k + 1].matched;
      }
      if exists k :: 0 <= k < |attempts| && attempts[k].matched {
        var k :| 0 <= k < |attempts| && attempts[k].matched;
        if k > 0 {
          assert attempts[1..][k - 1].matched;
        }
      }
    }
  }

  /** The attempts for a prefix of the values are the prefix of the attempts:
      a later value never changes an earlier triple. */
  lemma {:induction false} SweepPrefix<S>(acc: Accessor<S>, device: S, values: seq<Value>, n: nat)
    requires n <= |values|
    ensures Sweep(acc, device, values[..n]).attempts == Sweep(acc, device, values).attempts[..n]
    decreases |values|
  {
    if n < |values| {
      var init := values[..|values| - 1];
      assert init[..n] == values[..n];
      SweepPrefix(acc, device, init, n);
    } else {
      assert values[..n] == values;
    }
  }

  /** The k-th triple is one pass of the loop for the k-th value, on the device
      state the first k passes left. */
  lemma SweepAt<S>(acc: Accessor<S>, device: S, values: seq<Value>, k: nat)
    requires k < |values|
    ensures Sweep(acc, device, values).attempts[k]
         == Try(acc, Sweep(acc, device, values[..k]).device, values[k]).1
  {
    SweepPrefix(acc, device, values, k + 1);
    var pre := values[..k + 1];
    assert pre[..|pre| - 1] == values[..k];
    assert pre[|pre| - 1] == values[k];
  }

  /**
   * The write test as a function of the device state: read the original value;
   * if that raises, record the failure and call nothing else. Otherwise run the
   * loop, write the original back when asked (ignoring a fault), and record
   * success when some value matched.
   */
  function WriteTest<S>(name: string, apiPath: string, acc: Accessor<S>, device: S,
                        values: seq<Value>, restore: bool): (run: Run<S>)
    ensures run.record.parameter == name && run.record.apiPath == apiPath
    ensures run.record.testType == ReadWrite
    ensures run.record.success ==>
      acc.read(device).Ok? && run.record.valueWritten.Some? &&
      exists k :: 0 <= k < |run.record.valueWritten.value| && run.record.valueWritten.value[k].matched
    ensures acc.read(device).Fault? ==> run.device == device && !run.record.success
  {
    match acc.read(device)
    case Fault(e) =>
      Run(device, TestResult(name, apiPath, ReadWrite, false, NoneVal, None, e, ""))
    case Ok(original) =>
      var swept := Sweep(acc, device, values);
      AnyMatchedIff(swept.attempts);
      var final := if restore then acc.write(swept.device, original).device else swept.device;
      Run(final, TestResult(name, apiPath, ReadWrite, AnyMatched(swept.attempts), original,
                            Some(swept.attempts), "", CountNote(|values|)))
  }

  /** When the first read raises, the setter is never called: the device is
      untouched and the record is a failure with no triples. */
  lemma WriteTestInitialFault<S>(name: string, apiPath: string, acc: Accessor<S>, device: S,
                                 values: seq<Value>, restore: bool)
    requires acc.read(device).Fault?
    ensures var run := WriteTest(name, apiPath, acc, device, values, restore);
      run.device == device &&
      run.record == TestResult(name, apiPath, ReadWrite, false, NoneVal, None, acc.read(device).msg, "")
  {
  }

  /**
   * When the first read returns the original value, the record keeps it,
   * holds one triple per value in the order of the values, succeeds exactly
   * when some triple matched, and notes how many values were tested.
   */
  lemma WriteTestRecord<S>(name: string, apiPath: string, acc: Accessor<S>, device: S,
                           values: seq<Value>, restore: bool)
    requires acc.read(device).Ok?
    ensures var r := WriteTest(name, apiPath, acc, device, values, restore).record;
      r.parameter == name && r.apiPath == apiPath && r.testType == ReadWrite &&
      r.valueRead == acc.read(device).value && r.errorMessage == "" &&
      r.valueWritten == Some(Sweep(acc, device, values).attempts) && |r.valueWritten.value| == |values| &&
      (forall k :: 0 <= k < |values| ==> r.valueWritten.value[k].attempted == values[k]) &&
      (r.success <==> exists k :: 0 <= k < |values| && r.valueWritten.value[k].matched) &&
      r.notes == CountNote(|values|) && ParseCountNote(r.notes) == Some(|values|)
  {
    AnyMatchedIff(Sweep(acc, device, values).attempts);
    CountNoteRoundTrip(|values|);
  }

  /** With nothing to test, a write test never succeeds. */
  lemma WriteTestEmpty<S>(name: string, apiPath: string, acc: Accessor<S>, device: S, restore: bool)
    ensures !WriteTest(name, apiPath, acc, device, [], restore).record.success
  {
  }

  /** With restoration on, the last write is of the original value, whether or
      not it raises; with it off, the device stays as the loop left it. */
  lemma WriteTestRestores<S>(name: string, apiPath: string, acc: Accessor<S>, device: S,
                             values: seq<Value>, restore: bool)
    requires acc.read(device).Ok?
    ensures var final := WriteTest(name, apiPath, acc, device, values, restore).device;
      var left := Sweep(acc, device, values).device;
      final == if restore then acc.write(left, acc.read(device).value).device else left
  {
  }

  /** Holds the records of every test run so far, in the order they ran. */
  class ParameterTester {
    var results: seq<TestResult>

    constructor ()
      ensures results == []
    {
      results := [];
    }

    /** Reads a parameter once; a fault becomes a failed record. */
    method TestRead<S>(name: string, apiPath: string, getter: S -> Outcome<Value>, device: S)
      returns (r: TestResult)
      modifies this
      ensures results == old(results) + [r]
      ensures r.parameter == name && r.apiPath == apiPath && r.testType == Read
      ensures r.success <==> getter(device).Ok?
      ensures getter(device).Ok? ==> r.valueRead == getter(device).value && r.errorMessage == ""
      ensures getter(device).Fault? ==> r.valueRead == NoneVal && r.errorMessage == getter(device).msg
      ensures r.valueWritten == None && r.notes == ""
    {
      var got := getter(device);
      match got {
        case Ok(v) =>
          r := TestResult(name, apiPath, Read, true, v, None, "", "");
        case Fault(e) =>
          r := TestResult(name, apiPath, Read, false, NoneVal, None, e, "");
      }
      results := results + [r];
    }

    /** Writes each test value, reads it back and compares, then restores the
        original; every fault is absorbed into the record. */
    method TestWrite<S>(name: string, apiPath: string, acc: Accessor<S>, device: S,
                        values: seq<Value>, restore: bool)
      returns (r: TestResult, device': S)
      modifies this
      ensures results == old(results) + [r]
      ensures r == WriteTest(name, apiPath, acc, device, values, restore).record
      ensures device' == WriteTest(name, apiPath, acc, device, values, restore).device
    {
      var got := acc.read(device);
      if got.Fault? {
        r := TestResult(name, apiPath, ReadWrite, false, NoneVal, None, got.msg, "");
        device' := device;
      } else {
        var original := got.value;
        var d := device;
        var tested: seq<Attempt> := [];
        var i := 0;
        while i < |values|
          invariant 0 <= i <= |values|
          invariant Sweep(acc, device, values[..i]) == Swept(d, tested)
        {
          var v := values[i];
          var written := acc.write(d, v);
          d := written.device;
          if written.outcome.Fault? {
            tested := tested + [Attempt(v, NoneVal, false)];
          } else {
            var readback := acc.read(d);
            if readback.Fault? {
              tested := tested + [Attempt(v, NoneVal, false)];
            } else {
              var m := Matches(readback.value, v);
              if m.Fault? {
                tested := tested + [Attempt(v, NoneVal, false)];
              } else {
                tested := tested + [Attempt(v, readback.value, m.value)];
              }
            }
          }
          assert values[..i + 1][..i] == values[..i];
          i := i + 1;
        }
        assert values[..i] == values;
        if restore {
          var back := acc.write(d, original);
          d := back.device;
        }
        r := TestResult(name, apiPath, ReadWrite, AnyMatched(tested), original, Some(tested),
                        "", CountNote(|values|));
        device' := d;
      }
      results := results + [r];
    }

    /** Calls a device method with arguments; a fault becomes a failed record.
        `repr` is Python's `repr` of an argument. */
    method TestMethod<S>(name: string, apiPath: string, call: (S, seq<Value>) -> Effect<S>,
                         args: seq<Value>, device: S, repr: Value -> string)
      returns (r: TestResult, device': S)
      modifies this
      ensures results == old(results) + [r]
      ensures device' == call(device, args).device
      ensures r.parameter == name && r.apiPath == apiPath && r.testType == Method
      ensures r.success <==> call(device, args).outcome.Ok?
      ensures call(device, args).outcome.Ok? ==>
        r.valueRead == call(device, args).outcome.value && r.errorMessage == "" &&
        r.notes == ArgsNote(args, repr)
      ensures call(device, args).outcome.Fault? ==>
        r.valueRead == NoneVal && r.errorMessage == call(device, args).outcome.msg && r.notes == ""
      ensures r.valueWritten == None
    {
      var effect := call(device, args);
      device' := effect.device;
      match effect.outcome {
        case Ok(v) =>
          r := TestResult(name, apiPath, Method, true, v, None, "", ArgsNote(args, repr));
        case Fault(e) =>
          r := TestResult(name, apiPath, Method, false, NoneVal, None, e, "");
      }
      results := results + [r];
    }
  }
}
