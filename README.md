# Husky parameter test harness, modelled in Dafny

The script `test_husky_parameters.py` exercises the configuration knobs of a
ChipWhisperer Husky capture device through the vendor library. What it decides
for itself is a small generic harness, and this project models that harness:

- `TestResult`, the record kept per tested parameter (`Records`);
- `ParameterTester` with its append-only `results` list and its three test
  primitives `test_read`, `test_write` and `test_method` (`Harness`). No device
  fault escapes a primitive. A fault in `test_read`, in `test_method` or in
  the first read of `test_write` gives a failed record. A fault in one pass of
  the write loop gives a `(v, None, False)` triple. A fault in the restoring
  write is ignored;
- the read-back match rule, exact equality for non-floats and a 1% tolerance
  for floats (`Values`);
- the pass/fail tally of `print_summary`, the exit status derived from it,
  and the cell formatting of `print_parameter_table` (`Report`);
- Python slicing, padding and the decimal rendering of a count (`Text`);
- a store-backed one-register device used as a fixture for the write and
  restore behaviour (`StoreDevice`).

The device is external. Its state is a type parameter `S` that each primitive
receives and hands back after the calls it made. A getter is a function
`S -> Outcome<Value>`: it reads and does not change the device. A setter or a
device method returns an `Effect<S>`: the state it leaves (also when it raises)
and what it returned or raised. An `Exception` raised by a getter, setter or
device method becomes `Fault(str(e))`.
`Value` is int, bool, float (as `real`), str or None, and `PyEq` follows
Python's `==` on these kinds, where `True == 1 == 1.0`.

`test_write` is a method with the source's loop. Its loop invariant ties the
triples built so far to `Sweep`, the same loop as a function. The properties
are proved as lemmas about `Sweep` and `WriteTest`:

- one triple per value, in order;
- a later value never changes an earlier triple;
- success is the OR of the match flags;
- a fault in the first read means the setter is never called;
- restoration writes the original back last.

`print_summary` and `print_parameter_table` are functions over the record list.

Three behaviours of the code are worth stating plainly, because a reader
might expect otherwise:

- Restoration is attempted, not guaranteed. The restoring write's fault is
  ignored, so a device that refuses the original value keeps the last test
  value (`StoreDevice.RestoreRefusedKeepsTestValue`).
- A failed record's error message is `str(e)`, which may be empty. The model
  keeps whatever message the fault carries.
- The status cell is padded to 6 characters, not truncated. Both statuses,
  `[PASS]` and `[FAIL]`, are exactly 6 characters long.

## Model

| member | source | states |
|---|---|---|
| `Values.Matches` | test_husky_parameters.py:103-107 | the match of a readback against a written value faults exactly when a float was written and the readback is not a number; otherwise non-float values match iff Python `==` holds |
| `Values.ExactReadbackMatches` | test_husky_parameters.py:104-107 | a readback equal to the written value always matches, so the float tolerance only relaxes equality |
| `Values.PyEq` | test_husky_parameters.py:107 | Python `==`: identical values are equal; a string never equals a non-string, and None never equals anything but None |
| `Values.FloatMatchBounds` | test_husky_parameters.py:105 | a nonzero float matches a numeric readback iff the readback has the same sign and its size lies strictly between 99% and 101% of the float's |
| `Values.ZeroFloatMatch` | test_husky_parameters.py:105 | a written float zero matches exactly the numeric readbacks below 0.01 in size |
| `Values.MatchExamples` | test_husky_parameters.py:104-107 | 24e6 vs 24e6 matches, 23e6 vs 24e6 does not, 0.005 vs 0 matches, 1.0 vs 0 does not, None vs a float faults, 1000.0 vs 1000 and 1 vs True match, "1" vs 1 does not |
| `Text.Take` | test_husky_parameters.py:590-592 | Python `s[:n]`: a prefix of s of length at most n, s itself when s is no longer than n |
| `Text.PadRight` | test_husky_parameters.py:593 | Python `f"{s:w}"`: s followed by spaces only, length w when s is shorter |
| `Text.NatToString` | test_husky_parameters.py:134 | `str(n)`: a non-empty string of decimal digits without a leading zero |
| `Text.ParseNatToString` | test_husky_parameters.py:134 | reading the decimal rendering of a count back gives the count |
| `Records.CountNote` | test_husky_parameters.py:134 | the write-test note starts with "Tested " and has the length of the prefix, the digits and " values" |
| `Records.CountNoteRoundTrip` | test_husky_parameters.py:134 | the number of values tested can be read back from the note |
| `Records.TupleText` | test_husky_parameters.py:161 | Python's rendering of the argument tuple is enclosed in parentheses |
| `Records.ArgsNote` | test_husky_parameters.py:161 | a method record's note starts with "Called with args: (" |
| `Harness.Try` | test_husky_parameters.py:99-114 | one loop pass: the device keeps what the setter left; the triple names the value; it matches iff set and get both returned and the match rule said yes; a fault in set, get or the match gives `(v, None, False)`; otherwise the triple is `(v, readback, match)` |
| `Harness.Sweep` | test_husky_parameters.py:96-114 | the loop yields exactly one triple per test value, the k-th naming the k-th value |
| `Harness.AnyMatched` | test_husky_parameters.py:125 | `any(...)` is false on no triples and true when the first triple matched |
| `Harness.AnyMatchedIff` | test_husky_parameters.py:125 | `any(...)` over the triples is true iff some triple has its match flag set |
| `Harness.SweepPrefix` | test_husky_parameters.py:98-113 | the triples of a prefix of the values are the prefix of the triples: later values never change earlier triples |
| `Harness.SweepAt` | test_husky_parameters.py:98-114 | the k-th triple is one pass for the k-th value on the device state the first k passes left, so the loop continues after a faulting value |
| `Harness.WriteTest` | test_husky_parameters.py:85-148 | the write test as a function: the record names the parameter and path and has type `read_write`; success implies the first read returned and some triple matched; a faulting first read leaves the device untouched and fails |
| `Harness.WriteTestInitialFault` | test_husky_parameters.py:90-145 | if the initial read faults, the device is untouched (the setter is never called) and the record is a failed `read_write` with the fault's message, no value read and no triples |
| `Harness.WriteTestRecord` | test_husky_parameters.py:124-135 | after a successful initial read the record holds the original value, the triples the loop produced (one per value, in order), success iff some triple matched, no error, and the note `f"Tested {n} values"` for the number n of values, from which n is recovered |
| `Harness.WriteTestEmpty` | test_husky_parameters.py:125 | a write test with no values never succeeds |
| `Harness.WriteTestRestores` | test_husky_parameters.py:116-122 | with restoration on, the final device state is the one the setter leaves when given the original, whether or not it raises; with it off, the state the loop left |
| `Harness.ParameterTester.constructor` | test_husky_parameters.py:49-53 | a new tester has no results |
| `Harness.ParameterTester.TestRead` | test_husky_parameters.py:60-83 | appends exactly the returned record to the results; success iff the getter returned; the value read or the fault message is recorded |
| `Harness.ParameterTester.TestWrite` | test_husky_parameters.py:85-148 | appends exactly the returned record; the record and the final device state are those of `WriteTest`, whose properties the lemmas above state |
| `Harness.ParameterTester.TestMethod` | test_husky_parameters.py:150-175 | appends exactly the returned record; the device is left as the call left it; success iff the call returned; the return value and args note, or the fault message, is recorded |
| `StoreDevice.StoreTry` | test_husky_parameters.py:99-114 | on the register, an accepted value is stored and gives `(v, v, True)`; a rejected one leaves the register and gives `(v, None, False)` |
| `StoreDevice.StoreSweep` | test_husky_parameters.py:96-114 | on the register, the k-th triple is `(v, v, True)` if the k-th value was accepted and `(v, None, False)` otherwise |
| `StoreDevice.StoreWriteSucceedsIff` | test_husky_parameters.py:124-125 | a write test on the register succeeds iff some test value was accepted |
| `StoreDevice.StoreRestoresOriginal` | test_husky_parameters.py:116-122 | with restoration on and an acceptable original, reading the register afterwards gives the original |
| `StoreDevice.RestoreRefusedKeepsTestValue` | test_husky_parameters.py:116-122 | when the device refuses the original, the register keeps the last test value |
| `StoreDevice.RoundTripScenario` | test_husky_parameters.py:85-148 | writing 1, 5, 10, 50, 255 to a register holding 1 gives five matching triples, success, and a final read of 1 |
| `StoreDevice.TallyPassPassFail` | test_husky_parameters.py:536-538 | two passed records followed by a failed one tally as 2 passed, 1 failed, 3 total |
| `StoreDevice.Session` | test_husky_parameters.py:60-175 | a read, a write test and a faulting method give three records in call order; the fault is recorded, not raised; the tally is 2 passed, 1 failed, 3 total and the exit status is 1 |
| `Report.CountWhere` | test_husky_parameters.py:536-537 | a count of passed or failed records never exceeds the number of records |
| `Report.CountsAddUp` | test_husky_parameters.py:536-538 | passed + failed == total |
| `Report.NoFailuresIffAllPassed` | test_husky_parameters.py:537 | the failed count is zero iff every record succeeded |
| `Report.CountAppend` | test_husky_parameters.py:536-537 | appending a record adds one to the count of its outcome and nothing to the other |
| `Report.Summarize` | test_husky_parameters.py:536-538 | the returned `(passed, failed, total)` satisfies passed + failed == total == number of records, and failed == 0 iff every record succeeded |
| `Report.SummarizeAppend` | test_husky_parameters.py:536-538 | one more record moves total by one and exactly one of passed/failed by one, as its outcome says |
| `Report.ExitStatus` | test_husky_parameters.py:682-687 | the exit status is 0 or 1, and 0 iff every record succeeded |
| `Report.RawNotes` | test_husky_parameters.py:579-587 | a successful read row shows `str` of the value read, a successful read_write row "Original: " followed by it, a successful write or method row "Method OK", a failed row shows the error, cut to 30 characters followed by "..." when longer |
| `Report.RowCells` | test_husky_parameters.py:576-592 | the parameter cell is exactly the first 25 characters of the name (all of it when shorter), the API cell the first 30 of the path, the notes the first 30 of the raw notes; the status is exactly 6 characters and "[PASS]" iff the test succeeded, "[FAIL]" otherwise |
| `Report.FailedRowNotes` | test_husky_parameters.py:587-592 | a failed row's notes are exactly the first 30 characters of the error message: the "..." appended to a long message is always cut off |
| `Report.MethodRowNotes` | test_husky_parameters.py:584-585 | a successful method row reads "Method OK" |
| `Report.FormatRow` | test_husky_parameters.py:593 | the row starts with `"\| "` and ends with `" \|"`; when every cell fits its width it is exactly 104 characters with the `" \| "` separators at columns 27, 60 and 69 |
| `Report.RowLine` | test_husky_parameters.py:593 | every row line has the same length, 104 characters |
| `Report.FormatRowColumns` | test_husky_parameters.py:593 | cells within their widths land in fixed columns of the row (2, 30, 63, 72), each padded with spaces to its width and separated by `" \| "` |
| `Report.Rows` | test_husky_parameters.py:576-593 | one printed row per record, the k-th row being the k-th record's |
| `Report.Table` | test_husky_parameters.py:573-593 | the table is the header line, the rule line, then the rows in record order |

## Left out

- The `chipwhisperer` import, the scope and target connections, `default_setup`, the top-level interrupt and fault handling, and disconnection in `main`: hardware I/O through the vendor library.
- The five suite functions: fixed lists of calls into the vendor library. Their only decisions are the skip when no target is connected and the skip on a non-Husky device. The parameters they test mean what the library says they mean.
- All printing: the verbose `log` lines, the banners, the per-record listings in `print_summary`, and the percentages, which use float division. Command-line parsing is left out too.
- `ParameterTester` keeps `scope`, `target` and `verbose`. Here the device state is passed to each primitive instead, and `verbose` only controls logging.
- Getters are modelled as reads that do not change the device. A getter with side effects is not captured.
- Python's `str` and `repr` of a value are function parameters (`show`, `repr`) and are not modelled. The decimal rendering of a count is modelled.
- Only `Exception` is modelled as a fault. A `KeyboardInterrupt` or `SystemExit` raised by the device leaves a primitive with no record appended and, inside the write loop, skips the restore; the restore's bare `except:` swallows even those. Neither path is modelled.
- The verbose `log` calls inside the `try` blocks are taken not to raise. A print that raises would turn a successful read or method call into a failed record, and in the write loop would append a second `(v, None, False)` triple for a value already recorded, so the source's one-triple-per-value only holds when logging does not fail.
- Floats are mathematical reals. IEEE-754 rounding, NaN and infinities are not modelled.
- `Records.TupleText`: Python's exact tuple rendering depends on `repr`, which is a parameter. Only the parentheses are stated.
