# utest in Dafny

A model of the engine of **utest**, a single-header C unit-testing
framework (`utest.h`), together with proofs of what that engine promises.

utest runs *fixtures*. A fixture is an array of test entries, each a name, a
test function, a file and a line, ended by an entry whose function is null,
plus four optional hooks (fixture setup and teardown, test setup and
teardown). `utest_run_fixture` resets the run counters, calls the fixture
setup, then for every entry makes it the current test, counts it, calls the
test setup, runs the test through `utest_run_test`, calls the test teardown
and reports the verdict to the result handler; it ends with the fixture
teardown and answers FAILED when any test failed. An assertion that fails
calls `utest_fail`, which formats its text into the run state's message
buffer and `longjmp`s back to `utest_run_test`, so nothing after it in the
test runs. Two handler slots, one for results and one for `utest_print`,
hold the built-in handlers after `utest_init` and can be replaced and reset.

The model is organised as follows:

- `basics.dfy` (`Basics`) holds optional values, pointers as addresses (0 is
  null), the C `int` range, and the `%i` and `%016x` renderings.
- `assertions.dfy` (`Assertions`) holds every assertion function and macro
  as a function that returns an `Outcome`. `Pass` is a normal return.
  `Fail(text)` is the text `utest_fail` writes before it jumps. It also
  models the C casts of the `TEST_ASSERT_EQUAL_<T>` macros, and `strcmp` and
  `_stricmp`.
- `entries.dfy` (`Entries`) holds test entries, fixtures and the null
  terminator. A test body is a sequence of statements: assertions, calls to
  `utest_print` and `utest_set_user`, and other statements. This module says
  which statements run: all of them, or those up to the first failure.
- `reporting.dfy` (`Reporting`) holds the built-in result and print
  handlers and the console lines they write.
- `engine.dfy` (`Engine`) specifies the engine in two ways:
  - Pure functions give the state, console and call trace after one
    statement, one body, one test and a whole fixture.
  - The class `Runtime` holds the two globals, `g_utest_state` as `state`
    and `g_utest_cfg` as `cfg`, plus the console and a ghost trace of the
    calls the engine makes into hooks, test bodies and handlers. Its
    methods (`Init`, the handler setters, `Print`, `Fail`, `RunTest`,
    `RunFixture`, …) are proved to do exactly what those functions say.
- `properties.dfy` (`Properties`) proves what the runner promises about the
  counters and the verdict, the message buffer, the order and number of hook
  and handler calls, the statements that run after a failure, and the
  console.
- `scenarios.dfy` (`Scenarios`) holds client programs:
  - running with the built-in handlers;
  - replacing handlers, then resetting them;
  - a round trip through the user pointer;
  - the last message of a run;
  - a fixture of three tests whose second fails.

The model follows three details of the code that are easy to misread:

- `utest_run_fixture` sets `current_test` and increments `run_count`
  *before* it calls the test setup (`utest.h:322-328`), not after: each
  t_setup and t_teardown call in the trace carries the current test and the
  run count that hook finds in the globals.
- The null check appends the caller's message after a single space
  (`"Value null. Expected non-null. %s"`, `utest.h:399-421`), not after
  `" - "` like the other assertions.
- The integer macros are named for a width, but the 64-bit ones narrow
  further, to the 32 bits of an `int` parameter. The assertions a test body
  makes use the macros as written. See Findings.

## Model

| member | source | states |
|---|---|---|
| Assertions.AssertIntegerEqual | utest.h:374-388 | passes exactly when the two C ints are equal; the failure text names both values and appends ` - message` only when a message is given |
| Assertions.Wrap | utest.h:191 | a C cast to a type with modulus m keeps the value's residue modulo m and lands in the signed or unsigned range of that type |
| Assertions.ToCInt | utest.h:145 | passing a value to a `signed` parameter keeps its residue modulo 2^32 |
| Assertions.AssertEqualAsWritten | utest.h:191-228 | the `TEST_ASSERT_EQUAL_<T>` macros as written: pass exactly when the operands agree modulo 2^32 for INT64/UINT64 and modulo 2^width of T for the other types; the failure text prints each operand as the C int it becomes after the cast to T |
| Assertions.WideCastComparison | utest.h:198-204 | after a 64-bit cast and the `int` parameter, two operands are equal exactly when they agree modulo 2^32 |
| Assertions.NarrowCastComparison | utest.h:194-203 | after a cast of at most 32 bits and the `int` parameter, two operands are equal exactly when they agree modulo 2^width of T |
| Assertions.LowHalfSurvives | utest.h:191 | two values that agree modulo 2^64 also agree modulo 2^32 |
| Assertions.Int64AssertAcceptsDifferentValues | utest.h:198 | for every x in [0, 2^32), `TEST_ASSERT_EQUAL_INT64(x, x + 2^32)` passes although the two int64 values differ, and the corrected assertion fails |
| Assertions.AsWrittenExamples | utest.h:191-200 | as the source runs them, `TEST_ASSERT_EQUAL_INT64(0, 0x100000000)` passes and `TEST_ASSERT_EQUAL_UINT(0xFFFFFFFF, 0)` gives `utest_assert_integer_equal` the int -1 to compare and print |
| Assertions.AssertEqual | utest.h:191-228 | corrected integer macros: pass exactly when the operands agree modulo 2^width of T; the failure text prints 64-bit operands in full and the others as the source does |
| Assertions.NarrowAssertAgrees | utest.h:194-203 | for every type of at most 32 bits, the macros as written and the corrected ones give the same outcome: same verdict and same failure text |
| Assertions.AssertPointerEqual | utest.h:470-485 | passes exactly when the addresses are equal; the failure text prints both addresses as `0x%016x` |
| Assertions.AssertNull | utest.h:390-424 | passes exactly when the pointer's nullity is the one asked for; each direction fails with its own text, with the caller's message after a space |
| Assertions.ToLower | utest.h:447 | ASCII case folding: maps A–Z to a–z and leaves every other character alone |
| Assertions.StrCompareZeroIff | utest.h:447-454 | on C strings, the comparison answers 0 exactly when the strings are equal, after folding for `_stricmp` |
| Assertions.IgnoreCaseWeaker | utest.h:443-468 | two strings that `strcmp` calls equal are also equal to `_stricmp` |
| Assertions.AssertStringEqual | utest.h:443-468 | passes exactly when the comparison answers 0, that is, on C strings, when they are equal (or equal ignoring case); the failure text names both strings and the optional message |
| Assertions.FooAndFoo | utest.h:233-237 | `TEST_ASSERT_EQUAL_NOCASE_STRING("Foo", "foo")` passes and `TEST_ASSERT_EQUAL_STRING("Foo", "foo")` fails with its text |
| Assertions.AssertExpr | utest.h:188 | `TEST_ASSERT` fails exactly when the expression is false, with the text `Expression is false` |
| Assertions.AssertMessage | utest.h:186-188 | `TEST_ASSERT_MESSAGE` fails exactly when the expression is false, with the caller's text |
| Assertions.Evaluate | utest.h:178-237 | every assertion macro, as written, passes exactly when its match condition holds (integer equality at the width the macro actually compares, at most 32 bits; equal addresses; the nullity asked for; equal C strings; a true expression); `TEST_ASSERT` fails with `Expression is false`, `TEST_ASSERT_MESSAGE` with its caller's text, and `TEST_FAIL_MESSAGE` always fails with its text |
| Entries.TestCount | utest.h:263-266 | the runner visits the entries before the first one whose function is null, and no more than there are |
| Entries.TestCountVisitsTests | utest.h:320 | every visited entry has a test function |
| Entries.TestCountNext | utest.h:320 | the loop guard holds only below the number of visited entries |
| Entries.TestCountExit | utest.h:320 | the runner's loop stops exactly after the visited entries |
| Entries.Assertion | utest.h:186-237 | the statement an assertion macro contributes calls `utest_fail` exactly when the check's match condition does not hold, and then with that assertion's failure text |
| Entries.FirstAbortIsFirst | utest.h:487-498 | no statement before it fails, and the statement at it does |
| Entries.FirstAbortAt | utest.h:357-369 | up to the first failure, a statement fails exactly when it is the first failure |
| Entries.BodyOutcomeMeaning | utest.h:357-369 | a test succeeds exactly when no statement calls `utest_fail`; otherwise it fails with a failing statement's text |
| Entries.ExecutedShape | utest.h:357-369 | the statements that run are a prefix of the body: all of it for a passing test, otherwise up to and including the first failure |
| Reporting.DefaultResultLines | utest.h:500-508 | the built-in result handler prints nothing for a success and exactly the line `<file>(<line>): Test failed: '<name>': <message>\r\n` for a failure |
| Reporting.ResultOutput | utest.h:500-508 | the result handler writes at most one line, and writes one exactly when it is the built-in handler and the test failed; that line is `<file>(<line>): Test failed: '<name>': <message>\r\n` |
| Reporting.PrintOutput | utest.h:299-305 | `utest_print` writes at most one line and only through the built-in handler; with the built-in handler and a current test, that line is `<file>(<line>): '<name>': <message>\r\n` for the current test |
| Engine.AfterStepsFrame | utest.h:487-498 | a test body changes no counter and neither current pointer; the message buffer changes only when something fails |
| Engine.BodyRunState | utest.h:357-369 | after a body the buffer holds its first failure's text, or what it held before when the body passed; only the buffer and the user pointer change |
| Engine.EntryCounts | utest.h:322-346 | one pass of the loop counts one run and exactly one pass or one failure, by the test's verdict, and makes the test current |
| Engine.StateAfterCounts | utest.h:320-347 | after n tests, run_count grew by n, pass_count by the passing tests, fail_count by the failing ones; the current test is the last one run |
| Engine.Runtime.constructor | utest.h:289-290 | before `utest_init` the globals are zero and both handler slots are null |
| Engine.Runtime.Init | utest.h:292-297 | `utest_init` zeroes the whole run state and installs both built-in handlers |
| Engine.Runtime.SetResultFunc | utest.h:527-530 | replaces the result handler only |
| Engine.Runtime.SetPrintFunc | utest.h:532-535 | replaces the print handler only |
| Engine.Runtime.ResetResultFunc | utest.h:537-540 | puts back the built-in result handler, leaving the print handler alone |
| Engine.Runtime.ResetPrintFunc | utest.h:542-545 | puts back the built-in print handler, leaving the result handler alone |
| Engine.Runtime.GetUser | utest.h:517-520 | returns the stored user pointer |
| Engine.Runtime.SetUser | utest.h:522-525 | stores the user pointer and changes nothing else |
| Engine.Runtime.LastMsg | utest.h:547-550 | returns the message buffer |
| Engine.Runtime.Print | utest.h:299-305 | calls the print handler with the current test when one is installed; only the built-in one writes to the console |
| Engine.Runtime.Fail | utest.h:487-498 | `utest_fail` writes its text into the message buffer and changes nothing else in the state |
| Engine.Runtime.Perform | utest.h:178-237 | one statement: an assertion answers its verdict and writes a failure's text into the buffer; a print calls the handler |
| Engine.Runtime.RunTest | utest.h:357-369 | `utest_run_test` answers FAILED exactly when a statement fails; the statements after the first failure do not run; the state, trace and console are those of the executed prefix |
| Engine.Runtime.RunEntry | utest.h:322-346 | one pass of the loop, entered with run_count equal to the number of tests already run: counts the test, makes it current, calls t_setup and t_teardown with the test current and run_count counting it, calls the test, counts the verdict, and reports it with the buffer's text for a failure and no text for a success |
| Engine.Runtime.Report | utest.h:337-346 | the result handler is called once with the verdict and message; only the built-in one prints |
| Engine.Runtime.RunEntries | utest.h:320-347 | needs a result handler only when some entry is visited; the loop visits the entries up to the first null test function; the state, trace and console are those of the visited tests, in order |
| Engine.Runtime.RunFixture | utest.h:307-355 | needs a result handler only when the fixture has a test to run; run_count is the number of visited entries, and pass_count and fail_count count the passing and failing tests; the verdict is FAILED exactly when fail_count is non-zero; the trace and console are the fixture's, so f_setup is called only after the counters are zeroed and the fixture made current, and f_teardown sees the final counters |
| Properties.CountsAddUp | utest.h:337-346 | every test that runs is counted exactly once, as passed or as failed |
| Properties.NoFailuresIff | utest.h:337-346 | fail_count is 0 exactly when every test run passed |
| Properties.FixtureVerdict | utest.h:354 | the fixture's verdict is FAILED exactly when some visited test failed |
| Properties.TestPassesIff | utest.h:357-369 | a test passes exactly when none of its statements calls `utest_fail` |
| Properties.MessageAfterTests | utest.h:337-346 | after the loop, the message buffer holds the last failed test's text; passing tests do not clear it |
| Properties.NoLastFailure | utest.h:547-550 | when no test failed, the buffer keeps its earlier contents |
| Properties.ResultsAppend | utest.h:337-346 | the result-handler calls of two consecutive stretches are those of the first followed by those of the second |
| Properties.NoResults | utest.h:337-346 | a stretch with no result-handler call lists none |
| Properties.ResultsOfCollect | utest.h:320-347 | when every test makes exactly one result-handler call, the run's calls are those, test by test |
| Properties.BodyEvents | utest.h:357-369 | a test body's events are only its statements and its print-handler calls |
| Properties.BlockShape | utest.h:322-346 | a test's calls end with its one result-handler call; nothing before it calls the result handler |
| Properties.EachTestReports | utest.h:337-346 | each test makes exactly one result-handler call, with its own verdict |
| Properties.TestsResults | utest.h:320-347 | the result-handler calls of the first n tests are the n reports, in declaration order |
| Properties.FixtureResults | utest.h:315-352 | the fixture hooks make no result-handler call |
| Properties.ResultsInOrder | utest.h:307-355 | the result handler is called once per visited test, in declaration order, with that test's verdict and, for a failure, its text |
| Properties.TestHooksBracket | utest.h:322-346 | t_setup and t_teardown for test i find test i current and run_count at i + 1, so the test is made current and counted before t_setup; t_setup comes right before the test function; t_teardown comes after the body and right before the result handler, even for a failed test |
| Properties.BlockHasNoFixtureHooks | utest.h:322-346 | no test calls f_setup or f_teardown, whatever state they would see |
| Properties.TestsHaveNoFixtureHooks | utest.h:320-347 | no test of the run calls f_setup or f_teardown |
| Properties.FixtureHooksBracket | utest.h:315-352 | f_setup runs once, first, and finds the fixture current and the three counters zero; f_teardown runs once, last, and finds the fixture still current and the final counters; each only when present |
| Properties.BlockCalls | utest.h:322-346 | a test calls t_setup, the test function and t_teardown as often as its own block names them |
| Properties.BlockSetupCount | utest.h:325-328 | test k calls t_setup once, seeing test k current and run_count k + 1, when the hook is present, and makes no other t_setup call |
| Properties.BlockTeardownCount | utest.h:332-335 | test k calls t_teardown once, seeing test k current and run_count k + 1, when the hook is present, and makes no other t_teardown call |
| Properties.BlockRunCount | utest.h:330 | test k calls the function of test i once exactly when k is i |
| Properties.FixtureCount | utest.h:315-352 | the fixture hooks add no call other than themselves: every other call appears as often in the fixture as in its tests |
| Properties.TestsSetupCount | utest.h:325-328 | over the visited tests, t_setup is called once for each visited test i, seeing test i current and run_count i + 1, when the hook is present; there is no other t_setup call |
| Properties.TestsTeardownCount | utest.h:332-335 | over the visited tests, t_teardown is called once for each visited test i, seeing test i current and run_count i + 1, when the hook is present; there is no other t_teardown call |
| Properties.TestsRunCount | utest.h:320-330 | over the visited tests, the function of test i is called once exactly when i is visited |
| Properties.TestSetupOncePerTest | utest.h:325-328 | t_setup runs exactly once for every visited test when present, with that test current and counted, and never otherwise |
| Properties.TestTeardownOncePerTest | utest.h:332-335 | t_teardown runs exactly once for every visited test when present, including failed tests, with that test still current, and never otherwise |
| Properties.EachTestRunsOnce | utest.h:320-330 | the runner calls the function of every visited entry exactly once, and never that of an entry it does not visit |
| Properties.RanExactly | utest.h:357-369 | statement j appears in the trace of the statements that ran exactly when j is among them |
| Properties.NothingRunsAfterFailure | utest.h:357-369 | statement j of a body runs exactly when no earlier statement called `utest_fail` |
| Properties.SilentPrinter | utest.h:299-305 | a body prints nothing to the console unless the built-in print handler is installed and one of its statements calls `utest_print` |
| Properties.TestConsoleOnlyOnFailure | utest.h:500-508 | with the built-in result handler, and either another print handler or no `utest_print` among the statements that run, a test writes one failure line when it fails and nothing when it passes |
| Properties.ConsoleOnlyOnFailure | utest.h:500-508 | with the built-in result handler, and either another print handler or no `utest_print` that runs, the console of the first n tests holds exactly the failure lines of the failed tests, in order |
| Properties.FixtureConsoleOnlyOnFailure | utest.h:500-508 | under the same condition, a whole fixture's console is one failure line per failed test, in order, as many lines as failed tests |
| Properties.FailureLinesLength | utest.h:500-508 | a test contributes one failure line when it failed and none when it passed |
| Properties.FailureLinesCount | utest.h:500-508 | there are as many failure lines as failed tests |
| Properties.ReplacedHandlersPrintNothing | utest.h:527-535 | with neither built-in handler installed, running tests prints nothing |
| Scenarios.DefaultHandlers | utest.h:500-508 | after `utest_init`, a fixture whose tests do not print shows exactly one failure line per failed test, in order |
| Scenarios.ReplacedHandlers | utest.h:527-535 | after replacing both handlers, a fixture run prints nothing |
| Scenarios.ResetResultHandler | utest.h:537-540 | after resetting a replaced result handler, the output is again one default-format line per failed test, in order |
| Scenarios.UserRoundTrip | utest.h:517-525 | `utest_get_user` gives back what `utest_set_user` stored |
| Scenarios.LastMessageOfRun | utest.h:547-550 | after `utest_init` and a fixture run, `utest_last_msg` is the last failure's text, empty when every test passed; the verdict is FAILED exactly when a test failed |
| Scenarios.SecondOfThreeFails | utest.h:307-355 | three tests whose second fails: run_count 3, pass_count 2, fail_count 1, verdict FAILED, and the second test's text in the buffer |

## Left out

- `utest_assert_float_equal` and the FLOAT/DOUBLE macros: floating point is
  not modelled.
- `TEST_INCONCLUSIVE`: it calls `utest_inconclusive`, which `utest.h` never
  defines.
- `TEST_FAIL` (`utest_fail(0)`): a null format string is undefined
  behaviour in C, so only `TEST_FAIL_MESSAGE` is modelled.
- Assertions.AssertEqualAsWritten: casts each operand as a whole value. The
  typed macros of utest.h:191-228 write `(type)expected` and `(type)actual`
  without parentheses around the argument, so for an argument such as
  `x + 1` the C cast applies only to its first term (`(uint8_t)x + 1`). With
  `uint8_t x = 255`, `TEST_ASSERT_EQUAL_UINT8(0, x + 1)` fails in C with
  actual 256, while the model passes it. Only arguments that are a single
  term, or are written in parentheses, are modelled.
- `TEST_ASSERT_MESSAGE` and `TEST_FAIL_MESSAGE` pass the caller's text to
  `utest_fail` as a printf format. The model treats it as literal text, so
  a text containing `%` is not modelled.
- The message buffer's 512-byte capacity (`UTEST_MSG_BUFFER_SIZE`) is not
  modelled: truncation by `vsnprintf_s`, and overflow by `vsprintf`.
- `UTEST_MAX_TESTS_PER_FIXTURE` is not modelled. A fixture's entries are an
  unbounded sequence, and the run stops at the first null test function or
  at the end of the sequence.
- `setjmp`/`longjmp` are not modelled. A failure is the `Outcome` value, and
  a test body is a sequence of statements whose first failure ends it. A
  failure raised inside a hook, or outside `utest_run_test`, is undefined in
  the source and is not modelled: hooks never fail.
- The contents of hooks and test bodies are left out. Hooks are known only
  by identity. A body is known by its assertions and its `utest_print` and
  `utest_set_user` calls; every other statement is `Other`, which changes no
  framework state.
- A hook or test body that calls back into the framework in any other way is
  not modelled: `utest_set_result_func`, `utest_set_print_func`,
  `utest_reset_result_func`, `utest_reset_print_func` or `utest_init` in the
  middle of a fixture, or a nested `utest_run_test` or `utest_run_fixture`.
  Such calls would change the handlers or the counters while the loop runs,
  and the contracts of Engine.Runtime.RunTest, Engine.Runtime.RunEntries and
  Engine.Runtime.RunFixture assume the handlers and counters are changed only
  by the runner itself.
- Output is a sequence of console lines. `printf` itself, and stdout
  buffering, are not modelled.
- Engine.Runtime.RunFixture and Engine.Runtime.RunEntries require a non-null
  result handler only when the fixture has at least one test to run, and
  Engine.Runtime.Report always does, because the source calls it without
  checking. Running a fixture with at least one test while the result handler
  is null (for instance before `utest_init`) is undefined behaviour and is
  not modelled.
- Engine.Runtime.Print and Engine.Runtime.RunTest require a current test
  whenever the built-in print handler would print: for RunTest, when a
  `utest_print` statement among those that run meets the built-in handler.
  That handler dereferences `current_test`, which is null before the first
  fixture.
- Assertions.Wrap assumes two's complement: a cast to a signed type of a
  value out of its range keeps the value's residue. C before C23 leaves
  that conversion implementation-defined.
- Assertions.AssertPointerEqual prints the whole address. Passing a pointer
  to `%016x` is undefined in C, and on 64-bit targets it usually prints the
  low 32 bits.
- Assertions.StrCompare and Assertions.ToLower compare character codes as
  Dafny characters: the signedness of `char` and locale-dependent
  `_stricmp` folding beyond ASCII are not modelled.
- The user pointer is an opaque address. The framework never dereferences
  it.

## Findings

| source | as written | input that shows it | evidently intended | confidence | as-written member | corrected member |
|---|---|---|---|---|---|---|
| utest.h:191, utest.h:198, utest.h:204, utest.h:374 | `TEST_ASSERT_EQUAL_INT64`/`UINT64` cast both operands to 64 bits, then pass them to the `signed` (32-bit) parameters of `utest_assert_integer_equal`, so only the low 32 bits are compared and printed | `TEST_ASSERT_EQUAL_INT64(0, 0x100000000)` passes although 0 != 2^32 | compare, and print, the operands at 64 bits | not executed | Assertions.AssertEqualAsWritten, Assertions.Int64AssertAcceptsDifferentValues | Assertions.AssertEqual |

Test bodies run the macros as written (Assertions.Evaluate), so the model
keeps the source's behaviour. Assertions.AssertEqual stands beside them as
the correction, and Assertions.NarrowAssertAgrees shows that the two differ
only for the 64-bit types.
