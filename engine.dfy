/** The test execution engine: the run state and configuration
    (`g_utest_state`, `g_utest_cfg`), the test runner and the fixture runner.

    Besides the state the source keeps, the model records a ghost trace of
    every call the engine makes into code it does not own (hooks, test
    bodies, handlers), in order. The pure functions below say what that
    trace, the console, and the state are after running one body, one test
    of a fixture and a whole fixture; the methods are proved to produce
    exactly that. */
module Engine {
  import opened Basics
  import opened Assertions
  import opened Entries
  import opened Reporting

  datatype Event =
    // the fixture's f_setup and f_teardown, with the current_fixture,
    // run_count, pass_count and fail_count they find in `g_utest_state`
    | FixtureSetup(fixture: Option<Fixture>, ran: int, passed: int, failed: int)
    | FixtureTeardown(fixture: Option<Fixture>, ran: int, passed: int, failed: int)
    | Enter(index: nat)             // current_test := &tests[index]; run_count++
    // the fixture's t_setup and t_teardown for tests[index], with the
    // current_test and run_count they find in `g_utest_state`
    | TestSetup(index: nat, current: Option<TestEntry>, runs: nat)
    | TestTeardown(index: nat, current: Option<TestEntry>, runs: nat)
    | Run(index: nat)               // `utest_run_test` calls test `index`'s function
    | Ran(step: nat)                // statement `step` of the running body
    | PrintCall(test: Option<TestEntry>, text: string)                      // the print handler
    | ResultCall(index: nat, kind: ResultKind, message: Option<string>)    // the result handler

  /** A hook call, when the hook is present. */
  function Hook(hook: Option<HookId>, e: Event): seq<Event>
  {
    if hook.Some? then [e] else []
  }

  /** `utest_state`, the run state. The saved jump context is not
      modelled: a failure is an outcome value. */
  datatype State = State(
    userState: Address,
    runCount: int,
    passCount: int,
    failCount: int,
    currentFixture: Option<Fixture>,
    currentTest: Option<TestEntry>,
    msgBuffer: string)

  /** The run state as `memset` leaves it: everything zero or null, and an
      empty message. */
  const ZeroState: State := State(Null, 0, 0, 0, None, None, "")

  /** `utest_cfg`, the two reporting handler slots. */
  datatype Config = Config(resultFunc: Callback, printFunc: Callback)

  /*------------------------------------------------------------------------
     One statement, and the first k statements of a body
   ------------------------------------------------------------------------*/

  /** The calls statement `k` makes: the statement itself, then the print
      handler when it prints and a handler is installed. */
  function StepEvents(s: Step, k: nat, printer: Callback, current: Option<TestEntry>): seq<Event>
  {
    [Ran(k)] + (if s.Message? && printer != NoCallback then [PrintCall(current, s.message)] else [])
  }

  /** The console lines a statement makes appear. */
  function StepLines(s: Step, printer: Callback, current: Option<TestEntry>): seq<string>
  {
    if s.Message? then PrintOutput(printer, current, s.message) else []
  }

  /** What a statement does to the run state: a failing assertion writes its
      text into the message buffer, `utest_set_user` sets the user pointer. */
  function StepEffect(s: Step, st: State): State
  {
    match s
    case Assert(o) => if o.Fail? then st.(msgBuffer := o.message) else st
    case SetUser(p) => st.(userState := p)
    case _ => st
  }

  /** The events of running the statements `steps`, in order. */
  function BodyTrace(steps: seq<Step>, printer: Callback, current: Option<TestEntry>): seq<Event>
  {
    if steps == [] then []
    else
      var k := |steps| - 1;
      BodyTrace(steps[..k], printer, current) + StepEvents(steps[k], k, printer, current)
  }

  /** The console lines of running the statements `steps`. */
  function BodyConsole(steps: seq<Step>, printer: Callback, current: Option<TestEntry>): seq<string>
  {
    if steps == [] then []
    else
      var k := |steps| - 1;
      BodyConsole(steps[..k], printer, current) + StepLines(steps[k], printer, current)
  }

  /** The run state after the statements `steps`. */
  function AfterSteps(steps: seq<Step>, st: State): State
  {
    if steps == [] then st
    else
      var k := |steps| - 1;
      StepEffect(steps[k], AfterSteps(steps[..k], st))
  }

  /** Running one more statement extends each view by that statement's
      contribution. */
  lemma PrefixStep(body: seq<Step>, k: nat, printer: Callback, current: Option<TestEntry>, st: State)
    requires k < |body|
    ensures BodyTrace(body[..k + 1], printer, current)
      == BodyTrace(body[..k], printer, current) + StepEvents(body[k], k, printer, current)
    ensures BodyConsole(body[..k + 1], printer, current)
      == BodyConsole(body[..k], printer, current) + StepLines(body[k], printer, current)
    ensures AfterSteps(body[..k + 1], st) == StepEffect(body[k], AfterSteps(body[..k], st))
  {
    assert body[..k + 1][..k] == body[..k];
  }

  lemma Append<T>(a: seq<T>, b: seq<T>, c: seq<T>)
    ensures a + b + c == a + (b + c)
  {
  }

  /** Statements change only the message buffer and the user pointer; the
      buffer changes only when an assertion fails. */
  lemma {:induction false} AfterStepsFrame(steps: seq<Step>, st: State)
    ensures AfterSteps(steps, st).runCount == st.runCount
    ensures AfterSteps(steps, st).passCount == st.passCount && AfterSteps(steps, st).failCount == st.failCount
    ensures AfterSteps(steps, st).currentFixture == st.currentFixture && AfterSteps(steps, st).currentTest == st.currentTest
    ensures (forall j :: 0 <= j < |steps| ==> !Aborts(steps[j])) ==> AfterSteps(steps, st).msgBuffer == st.msgBuffer
  {
    if steps != [] {
      var k := |steps| - 1;
      AfterStepsFrame(steps[..k], st);
      assert forall j :: 0 <= j < k ==> steps[..k][j] == steps[j];
    }
  }

  /** Running a body leaves its first failure's text in the message buffer,
      and leaves the buffer alone when the body passes. */
  lemma BodyRunState(body: seq<Step>, st: State)
    ensures AfterSteps(Executed(body), st).(msgBuffer := st.msgBuffer, userState := st.userState) == st
    ensures BodyOutcome(body).Pass? ==> AfterSteps(Executed(body), st).msgBuffer == st.msgBuffer
    ensures BodyOutcome(body).Fail? ==> AfterSteps(Executed(body), st).msgBuffer == BodyOutcome(body).message
  {
    var run := Executed(body);
    ExecutedShape(body);
    AfterStepsFrame(run, st);
    if BodyOutcome(body).Pass? {
      BodyOutcomeMeaning(body);
    } else {
      var k := |run| - 1;
      AfterStepsFrame(run[..k], st);
      assert forall j :: 0 <= j < k ==> run[..k][j] == run[j];
      assert AfterSteps(run, st) == StepEffect(run[k], AfterSteps(run[..k], st));
    }
  }

  function MessageOf(o: Outcome): Option<string>
  {
    if o.Fail? then Some(o.message) else None
  }

  /*------------------------------------------------------------------------
     One test of a fixture, and the first n tests
   ------------------------------------------------------------------------*/

  function TestOutcome(fx: Fixture, i: nat): Outcome
    requires i < |fx.tests|
  {
    BodyOutcome(BodyOf(fx.tests[i]))
  }

  /** The t_setup call of the i-th pass of the fixture runner's loop: the
      test is already current and already counted. */
  function SetupEvent(fx: Fixture, i: nat): Event
    requires i < |fx.tests|
  {
    TestSetup(i, Some(fx.tests[i]), i + 1)
  }

  /** The t_teardown call of the i-th pass: the test is still current. */
  function TeardownEvent(fx: Fixture, i: nat): Event
    requires i < |fx.tests|
  {
    TestTeardown(i, Some(fx.tests[i]), i + 1)
  }

  /** Everything the runner calls for `tests[i]`, in order. */
  function TestBlock(fx: Fixture, i: nat, printer: Callback): seq<Event>
    requires i < |fx.tests|
  {
    var t := fx.tests[i];
    var o := TestOutcome(fx, i);
    [Enter(i)] + Hook(fx.tSetup, SetupEvent(fx, i))
      + [Run(i)] + BodyTrace(Executed(BodyOf(t)), printer, Some(t))
      + Hook(fx.tTeardown, TeardownEvent(fx, i))
      + [ResultCall(i, KindOf(o), MessageOf(o))]
  }

  function TestConsole(fx: Fixture, i: nat, printer: Callback, reporter: Callback): seq<string>
    requires i < |fx.tests|
  {
    var t := fx.tests[i];
    var o := TestOutcome(fx, i);
    BodyConsole(Executed(BodyOf(t)), printer, Some(t)) + ResultOutput(reporter, t, KindOf(o), MessageOf(o))
  }

  /** `part(0) + part(1) + ... + part(n - 1)`. */
  function Collect<T>(n: nat, part: nat -> seq<T>): seq<T>
  {
    if n == 0 then [] else Collect(n - 1, part) + part(n - 1)
  }

  function TestsTrace(fx: Fixture, n: nat, printer: Callback): seq<Event>
    requires n <= |fx.tests|
  {
    Collect(n, (i: nat) => if i < |fx.tests| then TestBlock(fx, i, printer) else [])
  }

  function TestsConsole(fx: Fixture, n: nat, printer: Callback, reporter: Callback): seq<string>
    requires n <= |fx.tests|
  {
    Collect(n, (i: nat) => if i < |fx.tests| then TestConsole(fx, i, printer, reporter) else [])
  }

  /** How many of the first n tests pass, and how many fail. */
  function Passes(fx: Fixture, n: nat): nat
    requires n <= |fx.tests|
  {
    if n == 0 then 0 else Passes(fx, n - 1) + (if TestOutcome(fx, n - 1).Pass? then 1 else 0)
  }

  function Failures(fx: Fixture, n: nat): nat
    requires n <= |fx.tests|
  {
    if n == 0 then 0 else Failures(fx, n - 1) + (if TestOutcome(fx, n - 1).Fail? then 1 else 0)
  }

  /** What one pass of the fixture runner's loop does to the run state. */
  function EntryEffect(fx: Fixture, i: nat, s: State): State
    requires i < |fx.tests|
  {
    var t := fx.tests[i];
    var ran := AfterSteps(Executed(BodyOf(t)), s.(currentTest := Some(t), runCount := s.runCount + 1));
    if TestOutcome(fx, i).Pass? then ran.(passCount := ran.passCount + 1) else ran.(failCount := ran.failCount + 1)
  }

  /** The run state after the first n tests, from `s`. */
  function StateAfter(fx: Fixture, n: nat, s: State): State
    requires n <= |fx.tests|
  {
    if n == 0 then s else EntryEffect(fx, n - 1, StateAfter(fx, n - 1, s))
  }

  /** The fixture runner's counters count the tests it ran, those that
      passed and those that failed; the current test is the last one run. */
  lemma {:induction false} StateAfterCounts(fx: Fixture, n: nat, s: State)
    requires n <= |fx.tests|
    ensures StateAfter(fx, n, s).runCount == s.runCount + n
    ensures StateAfter(fx, n, s).passCount == s.passCount + Passes(fx, n)
    ensures StateAfter(fx, n, s).failCount == s.failCount + Failures(fx, n)
    ensures StateAfter(fx, n, s).currentFixture == s.currentFixture
    ensures StateAfter(fx, n, s).currentTest == if n == 0 then s.currentTest else Some(fx.tests[n - 1])
  {
    if n > 0 {
      StateAfterCounts(fx, n - 1, s);
      EntryCounts(fx, n - 1, StateAfter(fx, n - 1, s));
    }
  }

  /** One pass counts one run and one pass or one failure, and makes the
      test current. */
  lemma EntryCounts(fx: Fixture, i: nat, s: State)
    requires i < |fx.tests|
    ensures EntryEffect(fx, i, s).runCount == s.runCount + 1
    ensures EntryEffect(fx, i, s).passCount == s.passCount + (if TestOutcome(fx, i).Pass? then 1 else 0)
    ensures EntryEffect(fx, i, s).failCount == s.failCount + (if TestOutcome(fx, i).Fail? then 1 else 0)
    ensures EntryEffect(fx, i, s).currentFixture == s.currentFixture
    ensures EntryEffect(fx, i, s).currentTest == Some(fx.tests[i])
  {
    var t := fx.tests[i];
    AfterStepsFrame(Executed(BodyOf(t)), s.(currentTest := Some(t), runCount := s.runCount + 1));
  }

  /** The state the fixture runner starts its loop from: counters zeroed
      and the fixture made current. */
  function Started(s: State, fx: Fixture): State
  {
    s.(runCount := 0, passCount := 0, failCount := 0, currentFixture := Some(fx))
  }

  /*------------------------------------------------------------------------
     A whole fixture
   ------------------------------------------------------------------------*/

  /** What f_setup finds: the fixture current and every counter zero. */
  function FixtureSetupEvent(fx: Fixture): Event
  {
    FixtureSetup(Some(fx), 0, 0, 0)
  }

  /** What f_teardown finds: the fixture still current, and the counters
      of all the tests run. */
  function FixtureTeardownEvent(fx: Fixture): Event
  {
    var n := TestCount(fx.tests);
    FixtureTeardown(Some(fx), n, Passes(fx, n), Failures(fx, n))
  }

  function FixtureTrace(fx: Fixture, printer: Callback): seq<Event>
  {
    Hook(fx.fSetup, FixtureSetupEvent(fx)) + TestsTrace(fx, TestCount(fx.tests), printer)
      + Hook(fx.fTeardown, FixtureTeardownEvent(fx))
  }

  function FixtureConsole(fx: Fixture, printer: Callback, reporter: Callback): seq<string>
  {
    TestsConsole(fx, TestCount(fx.tests), printer, reporter)
  }

  /** The two globals of the framework, `g_utest_state` and `g_utest_cfg`,
      with the console the built-in handlers print to and the ghost trace of
      calls into hooks, test bodies and handlers. */
  class Runtime {
    var state: State
    var cfg: Config
    var console: seq<string>
    ghost var trace: seq<Event>

    /** The globals before `utest_init`: zero-initialised, so both handler
        slots are null. */
    constructor ()
      ensures state == ZeroState && cfg == Config(NoCallback, NoCallback)
      ensures console == [] && trace == []
    {
      state := ZeroState;
      cfg := Config(NoCallback, NoCallback);
      console, trace := [], [];
    }

    /** `utest_init`: clears the whole run state and installs both default
        handlers. */
    method Init()
      modifies this`state, this`cfg
      ensures state == ZeroState
      ensures cfg == Config(Builtin, Builtin)
    {
      state := ZeroState;
      cfg := Config(Builtin, Builtin);
    }

    method SetResultFunc(handler: Callback)
      modifies this`cfg
      ensures cfg == old(cfg).(resultFunc := handler)
    {
      cfg := cfg.(resultFunc := handler);
    }

    method SetPrintFunc(handler: Callback)
      modifies this`cfg
      ensures cfg == old(cfg).(printFunc := handler)
    {
      cfg := cfg.(printFunc := handler);
    }

    method ResetResultFunc()
      modifies this`cfg
      ensures cfg == old(cfg).(resultFunc := Builtin)
    {
      cfg := cfg.(resultFunc := Builtin);
    }

    method ResetPrintFunc()
      modifies this`cfg
      ensures cfg == old(cfg).(printFunc := Builtin)
    {
      cfg := cfg.(printFunc := Builtin);
    }

    method GetUser() returns (user: Address)
      ensures user == state.userState
    {
      user := state.userState;
    }

    method SetUser(user: Address)
      modifies this`state
      ensures state == old(state).(userState := user)
    {
      state := state.(userState := user);
    }

    /** `utest_last_msg`: the text the most recent failure wrote. */
    method LastMsg() returns (text: string)
      ensures text == state.msgBuffer
    {
      text := state.msgBuffer;
    }

    /** `utest_print`: calls the print handler, if there is one, with the
        current test; the built-in handler dereferences that test. */
    method Print(message: string)
      requires cfg.printFunc.Builtin? ==> state.currentTest.Some?
      modifies this`console, this`trace
      ensures trace == old(trace) + (if cfg.printFunc != NoCallback then [PrintCall(state.currentTest, message)] else [])
      ensures console == old(console) + PrintOutput(cfg.printFunc, state.currentTest, message)
    {
      if cfg.printFunc != NoCallback {
        trace := trace + [PrintCall(state.currentTest, message)];
        if cfg.printFunc.Builtin? {
          console := console + [DefaultPrintLine(state.currentTest.value, message)];
        }
      }
    }

    /** The write half of `utest_fail`: the formatted text goes into the
        message buffer. The jump back to the test runner is the caller
        leaving the body. */
    method Fail(text: string)
      modifies this`state
      ensures state == old(state).(msgBuffer := text)
    {
      state := state.(msgBuffer := text);
    }

    /** Runs one statement of a test body. */
    method Perform(s: Step, k: nat) returns (o: Outcome)
      requires s.Message? && cfg.printFunc.Builtin? ==> state.currentTest.Some?
      modifies this`state, this`console, this`trace
      ensures o == (if s.Assert? then s.verdict else Pass)
      ensures state == StepEffect(s, old(state))
      ensures state.currentTest == old(state).currentTest
      ensures trace == old(trace) + StepEvents(s, k, cfg.printFunc, state.currentTest)
      ensures console == old(console) + StepLines(s, cfg.printFunc, state.currentTest)
    {
      trace := trace + [Ran(k)];
      o := Pass;
      match s {
        case Assert(v) =>
          o := v;
          if o.Fail? {
            Fail(o.message);
          }
        case Message(m) =>
          Print(m);
        case SetUser(p) =>
          SetUser(p);
        case Other =>
      }
    }

    /** `utest_run_test`: runs the body until it ends or a statement calls
        `utest_fail`; no statement after the failing one runs. */
    method RunTest(test: TestEntry, ghost index: nat) returns (r: ResultKind)
      requires test.test.Some?
      requires Prints(Executed(test.test.value)) && cfg.printFunc.Builtin? ==> state.currentTest.Some?
      modifies this`state, this`console, this`trace
      ensures r == KindOf(BodyOutcome(test.test.value))
      ensures state == AfterSteps(Executed(test.test.value), old(state))
      ensures trace == old(trace) + [Run(index)] + BodyTrace(Executed(test.test.value), cfg.printFunc, old(state).currentTest)
      ensures console == old(console) + BodyConsole(Executed(test.test.value), cfg.printFunc, old(state).currentTest)
    {
      var body := test.test.value;
      ghost var current := state.currentTest;
      ghost var printer := cfg.printFunc;
      ghost var st0, out0 := state, console;
      trace := trace + [Run(index)];
      ghost var started := trace;
      var outcome := Pass;
      var k := 0;
      while k < |body| && outcome.Pass?
        invariant 0 <= k <= |body| && cfg.printFunc == printer
        invariant outcome.Pass? ==> k <= FirstAbort(body)
        invariant outcome.Fail? ==> k == FirstAbort(body) + 1 && outcome == BodyOutcome(body)
        invariant state == AfterSteps(body[..k], st0) && state.currentTest == current
        invariant trace == started + BodyTrace(body[..k], printer, current)
        invariant console == out0 + BodyConsole(body[..k], printer, current)
        decreases |body| - k
      {
        assert body[k].Message? ==> Prints(Executed(body)) by {
          if body[k].Message? {
            assert Executed(body)[k] == body[k];
          }
        }
        PrefixStep(body, k, printer, current, st0);
        FirstAbortAt(body, k);
        Append(started, BodyTrace(body[..k], printer, current), StepEvents(body[k], k, printer, current));
        Append(out0, BodyConsole(body[..k], printer, current), StepLines(body[k], printer, current));
        outcome := Perform(body[k], k);
        k := k + 1;
      }
      assert body[..k] == Executed(body);
      r := KindOf(outcome);
    }

    /** One pass of the fixture runner's loop, for `tests[n]`: make it the
        current test and count it, then t_setup, the test, t_teardown, and
        the result handler, given the message buffer when the test failed. */
    method RunEntry(fx: Fixture, n: nat) returns (result: ResultKind)
      requires n < |fx.tests| && fx.tests[n].test.Some?
      requires cfg.resultFunc != NoCallback
      requires state.runCount == n
      modifies this`state, this`console, this`trace
      ensures result == KindOf(TestOutcome(fx, n))
      ensures state == EntryEffect(fx, n, old(state))
      ensures trace == old(trace) + TestBlock(fx, n, cfg.printFunc)
      ensures console == old(console) + TestConsole(fx, n, cfg.printFunc, cfg.resultFunc)
    {
      var test := fx.tests[n];
      ghost var start, out0 := trace, console;
      ghost var printer := cfg.printFunc;
      state := state.(currentTest := Some(test), runCount := state.runCount + 1);
      ghost var entered := state;
      ghost var block := [Enter(n)] + Hook(fx.tSetup, TestSetup(n, state.currentTest, state.runCount));
      trace := trace + block;
      result := RunTest(test, n);
      BodyRunState(test.test.value, entered);
      ghost var body := BodyTrace(Executed(BodyOf(test)), printer, Some(test));
      Append(start, block, [Run(n)]);
      Append(start, block + [Run(n)], body);
      block := block + [Run(n)] + body;
      ghost var teardown := Hook(fx.tTeardown, TestTeardown(n, state.currentTest, state.runCount));
      Append(start, block, teardown);
      trace := trace + teardown;
      block := block + teardown;
      var message := if result == Success then None else Some(state.msgBuffer);
      if result == Success {
        state := state.(passCount := state.passCount + 1);
      } else {
        state := state.(failCount := state.failCount + 1);
      }
      assert message == MessageOf(TestOutcome(fx, n));
      assert state == EntryEffect(fx, n, old(state));
      assert block + [ResultCall(n, result, message)] == TestBlock(fx, n, printer);
      Append(start, block, [ResultCall(n, result, message)]);
      ghost var lines := BodyConsole(Executed(BodyOf(test)), printer, Some(test));
      assert console == out0 + lines;
      Append(out0, lines, ResultOutput(cfg.resultFunc, test, result, message));
      Report(n, test, result, message);
    }

    /** Calls the result handler, which the source calls without a null
        check. */
    method Report(index: nat, test: TestEntry, result: ResultKind, message: Option<string>)
      requires cfg.resultFunc != NoCallback
      requires result == Failed ==> message.Some?
      modifies this`console, this`trace
      ensures trace == old(trace) + [ResultCall(index, result, message)]
      ensures console == old(console) + ResultOutput(cfg.resultFunc, test, result, message)
    {
      trace := trace + [ResultCall(index, result, message)];
      if cfg.resultFunc.Builtin? {
        console := console + DefaultResultLines(test, result, message);
      }
    }

    /** `utest_run_fixture`. */
    method RunFixture(fx: Fixture) returns (r: ResultKind)
      requires TestCount(fx.tests) > 0 ==> cfg.resultFunc != NoCallback
      modifies this`state, this`console, this`trace
      ensures state == StateAfter(fx, TestCount(fx.tests), Started(old(state), fx))
      ensures state.runCount == TestCount(fx.tests)
      ensures state.passCount == Passes(fx, TestCount(fx.tests))
      ensures state.failCount == Failures(fx, TestCount(fx.tests))
      ensures state.currentFixture == Some(fx)
      ensures r == (if state.failCount != 0 then Failed else Success)
      ensures trace == old(trace) + FixtureTrace(fx, cfg.printFunc)
      ensures console == old(console) + FixtureConsole(fx, cfg.printFunc, cfg.resultFunc)
    {
      state := state.(runCount := 0, passCount := 0, failCount := 0, currentFixture := Some(fx));
      ghost var pre := Hook(fx.fSetup, FixtureSetup(state.currentFixture, state.runCount, state.passCount, state.failCount));
      trace := trace + pre;
      RunEntries(fx);
      StateAfterCounts(fx, TestCount(fx.tests), Started(old(state), fx));
      ghost var post := Hook(fx.fTeardown, FixtureTeardown(state.currentFixture, state.runCount, state.passCount, state.failCount));
      Append(old(trace), pre, TestsTrace(fx, TestCount(fx.tests), cfg.printFunc));
      Append(old(trace), pre + TestsTrace(fx, TestCount(fx.tests), cfg.printFunc), post);
      trace := trace + post;
      r := if state.failCount != 0 then Failed else Success;
    }

    /** The loop of `utest_run_fixture`: one pass per entry, up to the first
        entry whose test function is null. */
    method RunEntries(fx: Fixture)
      requires TestCount(fx.tests) > 0 ==> cfg.resultFunc != NoCallback
      requires state.runCount == 0
      modifies this`state, this`console, this`trace
      ensures state == StateAfter(fx, TestCount(fx.tests), old(state))
      ensures trace == old(trace) + TestsTrace(fx, TestCount(fx.tests), cfg.printFunc)
      ensures console == old(console) + TestsConsole(fx, TestCount(fx.tests), cfg.printFunc, cfg.resultFunc)
    {
      ghost var printer, reporter := cfg.printFunc, cfg.resultFunc;
      ghost var st0, trace0, out0 := state, trace, console;
      var n: nat := 0;
      while n < |fx.tests| && fx.tests[n].test.Some?
        invariant n <= TestCount(fx.tests) && cfg.printFunc == printer && cfg.resultFunc == reporter
        invariant state == StateAfter(fx, n, st0) && state.runCount == n
        invariant trace == trace0 + TestsTrace(fx, n, printer)
        invariant console == out0 + TestsConsole(fx, n, printer, reporter)
      {
        Append(trace0, TestsTrace(fx, n, printer), TestBlock(fx, n, printer));
        Append(out0, TestsConsole(fx, n, printer, reporter), TestConsole(fx, n, printer, reporter));
        TestCountNext(fx.tests, n);
        assert reporter != NoCallback;
        ghost var before := state;
        var _ := RunEntry(fx, n);
        EntryCounts(fx, n, before);
        n := n + 1;
      }
      TestCountExit(fx.tests, n);
    }
  }
}
