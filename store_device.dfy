/**
 * A store-backed device with one register: reading returns what was last
 * written, and writing stores the value if the device accepts it and raises
 * otherwise. It is the fixture the harness's write and restore behaviour is
 * stated against.
 */
module StoreDevice {
  import opened Values
  import opened Records
  import opened Harness
  import opened Report

  datatype Register = Register(held: Value)

  const Rejected: string := "rejected"

  /** A register that takes every value. */
  predicate AcceptAll(v: Value) {
    true
  }

  function Store(accepts: Value -> bool): Accessor<Register> {
    Accessor(
      (reg: Register) => Ok(reg.held),
      (reg: Register, v: Value) =>
        if accepts(v) then Effect(Register(v), Ok(NoneVal)) else Effect(reg, Fault(Rejected)))
  }

  /** One pass on the register: an accepted value comes back and matches; a
      rejected one leaves the register alone and gives `(v, None, False)`. */
  lemma StoreTry(accepts: Value -> bool, reg: Register, v: Value)
    ensures Try(Store(accepts), reg, v)
         == if accepts(v) then (Register(v), Attempt(v, v, true)) else (reg, Attempt(v, NoneVal, false))
  {
  }

  /** On the register, a triple matches exactly when the device accepted its
      value, and a matched triple read back the value itself. */
  lemma {:induction false} StoreSweep(accepts: Value -> bool, reg: Register, values: seq<Value>)
    ensures var s := Sweep(Store(accepts), reg, values);
      forall k :: 0 <= k < |values| ==>
        s.attempts[k] == if accepts(values[k]) then Attempt(values[k], values[k], true)
                         else Attempt(values[k], NoneVal, false)
    decreases |values|
  {
    if values != [] {
      var init := values[..|values| - 1];
      StoreSweep(accepts, reg, init);
      StoreTry(accepts, Sweep(Store(accepts), reg, init).device, values[|values| - 1]);
    }
  }

  /** A write test on the register succeeds exactly when some test value was accepted. */
  lemma StoreWriteSucceedsIff(name: string, apiPath: string, accepts: Value -> bool, original: Value,
                              values: seq<Value>, restore: bool)
    ensures WriteTest(name, apiPath, Store(accepts), Register(original), values, restore).record.success
        <==> exists k :: 0 <= k < |values| && accepts(values[k])
  {
    StoreSweep(accepts, Register(original), values);
    WriteTestRecord(name, apiPath, Store(accepts), Register(original), values, restore);
  }

  /** With restoration on and the original value acceptable, reading the
      register after the test gives the original back, whatever the test
      values left in it. */
  lemma StoreRestoresOriginal(name: string, apiPath: string, accepts: Value -> bool, original: Value,
                              values: seq<Value>)
    requires accepts(original)
    ensures var run := WriteTest(name, apiPath, Store(accepts), Register(original), values, true);
      Store(accepts).read(run.device) == Ok(original)
  {
  }

  /** Restoration is attempted, not guaranteed: when the device refuses the
      original value, the register keeps the last test value. */
  lemma RestoreRefusedKeepsTestValue()
    ensures var accepts := (v: Value) => v != IntVal(0);
      var run := WriteTest("Baud Rate", "target.baud", Store(accepts), Register(IntVal(0)), [IntVal(7)], true);
      Store(accepts).read(run.device) == Ok(IntVal(7))
  {
  }

  /** Writing 1, 5, 10, 50, 255 to a register holding 1 that accepts everything:
      five matching triples, overall success, and the register reads 1 afterwards. */
  lemma RoundTripScenario()
    ensures var values := [IntVal(1), IntVal(5), IntVal(10), IntVal(50), IntVal(255)];
      var run := WriteTest("Width", "scope.glitch.width", Store(_ => true), Register(IntVal(1)), values, true);
      run.record.success &&
      run.record.valueWritten == Some(seq(5, k requires 0 <= k < 5 => Attempt(values[k], values[k], true))) &&
      Store(_ => true).read(run.device) == Ok(IntVal(1))
  {
    var values := [IntVal(1), IntVal(5), IntVal(10), IntVal(50), IntVal(255)];
    var accepts := (_: Value) => true;
    StoreSweep(accepts, Register(IntVal(1)), values);
    StoreWriteSucceedsIff("Width", "scope.glitch.width", accepts, IntVal(1), values, true);
    assert accepts(values[0]);
    var s := Sweep(Store(accepts), Register(IntVal(1)), values);
    assert s.attempts == seq(5, k requires 0 <= k < 5 => Attempt(values[k], values[k], true));
  }

  /** The tally of two passes followed by one failure. */
  lemma TallyPassPassFail(a: TestResult, b: TestResult, c: TestResult)
    requires a.success && b.success && !c.success
    ensures Summarize([a, b, c]) == Tally(2, 1, 3)
  {
    SummarizeAppend([], a);
    SummarizeAppend([a], b);
    SummarizeAppend([a, b], c);
    assert [a] == [] + [a];
    assert [a, b] == [a] + [b];
    assert [a, b, c] == [a, b] + [c];
  }

  /**
   * A run of all three primitives: a read of the register, a write test on it,
   * and a method that raises "unsupported". Each call appends one record after
   * the earlier ones, the fault ends up as a failed record rather than
   * escaping, and the tally and exit status follow from the three outcomes.
   */
  method Session() returns (tester: ParameterTester)
    ensures fresh(tester)
    ensures |tester.results| == 3
    ensures tester.results[0].testType == Read && tester.results[0].valueRead == IntVal(3)
    ensures tester.results[1].testType == ReadWrite && tester.results[1].success
    ensures tester.results[2] == TestResult("Arm", "scope.arm()", Method, false, NoneVal, None, "unsupported", "")
    ensures Summarize(tester.results) == Tally(2, 1, 3)
    ensures ExitStatus(tester.results) == 1
  {
    tester := new ParameterTester();
    var reg := Register(IntVal(3));
    var store := Store(AcceptAll);
    var first := tester.TestRead("Width", "scope.glitch.width", store.read, reg);
    var second, reg' := tester.TestWrite("Width", "scope.glitch.width", store, reg,
                                         [IntVal(0), IntVal(1000)], true);
    StoreWriteSucceedsIff("Width", "scope.glitch.width", AcceptAll, IntVal(3), [IntVal(0), IntVal(1000)], true);
    assert [IntVal(0), IntVal(1000)][0] == IntVal(0);
    assert second.success;
    var third, reg'' := tester.TestMethod("Arm", "scope.arm()",
                                          (_: Register, _: seq<Value>) => Effect(reg', Fault("unsupported")),
                                          [], reg', _ => "");
    assert tester.results == [first, second, third];
    TallyPassPassFail(first, second, third);
  }
}
