/** What the fixture runner promises, stated over the functions that
    specify it: the counters, the verdict, the order of the calls it makes,
    the console the built-in handlers write, and the message buffer. */
module Properties {
  import opened Basics
  import opened Assertions
  import opened Entries
  import opened Reporting
  import opened Engine

  /*------------------------------------------------------------------------
     Counters and verdict
   ------------------------------------------------------------------------*/

  /** Every test that runs either passes or fails. */
  lemma {:induction false} CountsAddUp(fx: Fixture, n: nat)
    requires n <= |fx.tests|
    ensures Passes(fx, n) + Failures(fx, n) == n
  {
    if n > 0 {
      CountsAddUp(fx, n - 1);
    }
  }

  /** No failure is counted exactly when every test passed. */
  lemma {:induction false} NoFailuresIff(fx: Fixture, n: nat)
    requires n <= |fx.tests|
    ensures Failures(fx, n) == 0 <==> forall i :: 0 <= i < n ==> TestOutcome(fx, i).Pass?
  {
    if n > 0 {
      NoFailuresIff(fx, n - 1);
    }
  }

  /** The fixture runner answers FAILED exactly when some test it ran
      failed. */
  lemma FixtureVerdict(fx: Fixture)
    ensures (if Failures(fx, TestCount(fx.tests)) != 0 then Failed else Success) == Failed
      <==> exists i :: 0 <= i < TestCount(fx.tests) && TestOutcome(fx, i).Fail?
  {
    NoFailuresIff(fx, TestCount(fx.tests));
  }

  /** A test passes exactly when none of its statements calls `utest_fail`. */
  lemma TestPassesIff(fx: Fixture, i: nat)
    requires i < |fx.tests|
    ensures TestOutcome(fx, i).Pass? <==> forall j :: 0 <= j < |BodyOf(fx.tests[i])| ==> !Aborts(BodyOf(fx.tests[i])[j])
  {
    BodyOutcomeMeaning(BodyOf(fx.tests[i]));
  }

  /*------------------------------------------------------------------------
     The message buffer
   ------------------------------------------------------------------------*/

  /** The text of the last failure among the first n tests, or `buffer`
      when none of them failed. */
  function LastFailure(fx: Fixture, n: nat, buffer: string): string
    requires n <= |fx.tests|
  {
    if n == 0 then buffer
    else if TestOutcome(fx, n - 1).Fail? then TestOutcome(fx, n - 1).message
    else LastFailure(fx, n - 1, buffer)
  }

  /** After the fixture runner, `utest_last_msg` gives the last failure's
      text; a passing test does not clear it. */
  lemma {:induction false} MessageAfterTests(fx: Fixture, n: nat, s: State)
    requires n <= |fx.tests|
    ensures StateAfter(fx, n, s).msgBuffer == LastFailure(fx, n, s.msgBuffer)
  {
    if n > 0 {
      MessageAfterTests(fx, n - 1, s);
      var before := StateAfter(fx, n - 1, s);
      var t := fx.tests[n - 1];
      BodyRunState(BodyOf(t), before.(currentTest := Some(t), runCount := before.runCount + 1));
    }
  }

  /** When none of the first n tests failed, the buffer is left as it was. */
  lemma {:induction false} NoLastFailure(fx: Fixture, n: nat, buffer: string)
    requires n <= |fx.tests|
    requires forall i :: 0 <= i < n ==> TestOutcome(fx, i).Pass?
    ensures LastFailure(fx, n, buffer) == buffer
  {
    if n > 0 {
      NoLastFailure(fx, n - 1, buffer);
    }
  }

  /*------------------------------------------------------------------------
     Runs of consecutive tests
   ------------------------------------------------------------------------*/

  /** Runs whose parts agree are equal. */
  lemma {:induction false} CollectPointwise<T>(n: nat, f: nat -> seq<T>, g: nat -> seq<T>)
    requires forall i :: 0 <= i < n ==> f(i) == g(i)
    ensures Collect(n, f) == Collect(n, g)
  {
    if n > 0 {
      CollectPointwise(n - 1, f, g);
    }
  }

  /** A run of empty parts is empty. */
  lemma {:induction false} CollectEmpty<T>(n: nat, f: nat -> seq<T>)
    requires forall i :: 0 <= i < n ==> f(i) == []
    ensures Collect(n, f) == []
  {
    if n > 0 {
      CollectEmpty(n - 1, f);
    }
  }

  /** An element no part holds is not in the run. */
  lemma {:induction false} CollectNotIn<T>(n: nat, f: nat -> seq<T>, x: T)
    requires forall i :: 0 <= i < n ==> x !in f(i)
    ensures x !in Collect(n, f)
  {
    if n > 0 {
      CollectNotIn(n - 1, f, x);
    }
  }

  /** An element that only part i holds, c times, is c times in the run when
      part i is in it. */
  lemma {:induction false} CollectOnce<T>(n: nat, f: nat -> seq<T>, x: T, i: nat, c: nat)
    requires forall j :: 0 <= j < n ==> multiset(f(j))[x] == if j == i then c else 0
    ensures multiset(Collect(n, f))[x] == if i < n then c else 0
  {
    if n > 0 {
      CollectOnce(n - 1, f, x, i, c);
    }
  }

  /** The length of a run is the running total of its parts' lengths. */
  lemma {:induction false} CollectLength<T>(n: nat, f: nat -> seq<T>, total: nat -> nat)
    requires total(0) == 0
    requires forall i :: 0 <= i < n ==> total(i + 1) == total(i) + |f(i)|
    ensures |Collect(n, f)| == total(n)
  {
    if n > 0 {
      CollectLength(n - 1, f, total);
    }
  }

  /*------------------------------------------------------------------------
     The order of calls
   ------------------------------------------------------------------------*/

  /** The result-handler calls of a trace, in order. */
  function Results(tr: seq<Event>): seq<Event>
  {
    if |tr| == 0 then []
    else
      var k := |tr| - 1;
      Results(tr[..k]) + (if tr[k].ResultCall? then [tr[k]] else [])
  }

  lemma {:induction false} ResultsAppend(a: seq<Event>, b: seq<Event>)
    ensures Results(a + b) == Results(a) + Results(b)
  {
    if b != [] {
      var k := |b| - 1;
      var ab := a + b;
      assert ab[..|ab| - 1] == a + b[..k];
      assert ab[|ab| - 1] == b[k];
      ResultsAppend(a, b[..k]);
      var last := if b[k].ResultCall? then [b[k]] else [];
      assert Results(b) == Results(b[..k]) + last;
      Append(Results(a), Results(b[..k]), last);
    } else {
      assert a + b == a;
    }
  }

  /** A trace without result-handler calls has none to list. */
  lemma {:induction false} NoResults(tr: seq<Event>)
    requires forall j :: 0 <= j < |tr| ==> !tr[j].ResultCall?
    ensures Results(tr) == []
  {
    if tr != [] {
      NoResults(tr[..|tr| - 1]);
    }
  }

  /** The result-handler calls of a run of parts that make one call each
      are those calls, part by part. */
  lemma {:induction false} ResultsOfCollect(n: nat, f: nat -> seq<Event>, calls: seq<Event>)
    requires |calls| == n
    requires forall i :: 0 <= i < n ==> Results(f(i)) == [calls[i]]
    ensures Results(Collect(n, f)) == calls
  {
    if n > 0 {
      ResultsOfCollect(n - 1, f, calls[..n - 1]);
      ResultsAppend(Collect(n - 1, f), f(n - 1));
      assert calls == calls[..n - 1] + [calls[n - 1]];
    }
  }

  /** What a body contributes to the trace: the statements it runs and the
      print-handler calls they make. */
  lemma {:induction false} BodyEvents(steps: seq<Step>, printer: Callback, current: Option<TestEntry>)
    ensures forall j :: 0 <= j < |BodyTrace(steps, printer, current)| ==>
      BodyTrace(steps, printer, current)[j].Ran? || BodyTrace(steps, printer, current)[j].PrintCall?
  {
    if steps != [] {
      BodyEvents(steps[..|steps| - 1], printer, current);
    }
  }

  /** The result-handler call the runner makes for test i. */
  function ResultEvent(fx: Fixture, i: nat): Event
    requires i < |fx.tests|
  {
    ResultCall(i, KindOf(TestOutcome(fx, i)), MessageOf(TestOutcome(fx, i)))
  }

  /** Everything the runner calls for test i before the result handler. */
  function BeforeReport(fx: Fixture, i: nat, printer: Callback): seq<Event>
    requires i < |fx.tests|
  {
    var t := fx.tests[i];
    [Enter(i)] + Hook(fx.tSetup, SetupEvent(fx, i)) + [Run(i)] + BodyTrace(Executed(BodyOf(t)), printer, Some(t))
      + Hook(fx.tTeardown, TeardownEvent(fx, i))
  }

  /** A test's calls end with its one result-handler call; the body and the
      hooks come before it. */
  lemma BlockShape(fx: Fixture, i: nat, printer: Callback)
    requires i < |fx.tests|
    ensures TestBlock(fx, i, printer) == BeforeReport(fx, i, printer) + [ResultEvent(fx, i)]
    ensures forall j :: 0 <= j < |BeforeReport(fx, i, printer)| ==> !BeforeReport(fx, i, printer)[j].ResultCall?
    ensures Results(TestBlock(fx, i, printer)) == [ResultEvent(fx, i)]
  {
    var t := fx.tests[i];
    BodyEvents(Executed(BodyOf(t)), printer, Some(t));
    NoResults(BeforeReport(fx, i, printer));
    ResultsAppend(BeforeReport(fx, i, printer), [ResultEvent(fx, i)]);
    assert [ResultEvent(fx, i)][..0] == [];
  }

  lemma EachTestReports(fx: Fixture, n: nat, printer: Callback)
    requires n <= |fx.tests|
    ensures forall i :: 0 <= i < n ==> Results(TestBlock(fx, i, printer)) == [ResultEvent(fx, i)]
  {
    forall i | 0 <= i < n
      ensures Results(TestBlock(fx, i, printer)) == [ResultEvent(fx, i)]
    {
      BlockShape(fx, i, printer);
    }
  }

  lemma TestsResults(fx: Fixture, n: nat, printer: Callback)
    requires n <= |fx.tests|
    ensures Results(TestsTrace(fx, n, printer)) == seq(n, i requires 0 <= i < n => ResultEvent(fx, i))
  {
    EachTestReports(fx, n, printer);
    ResultsOfCollect(n, (i: nat) => if i < |fx.tests| then TestBlock(fx, i, printer) else [],
      seq(n, i requires 0 <= i < n => ResultEvent(fx, i)));
  }

  /** The fixture hooks make no result-handler call. */
  lemma FixtureResults(fx: Fixture, printer: Callback)
    ensures Results(FixtureTrace(fx, printer)) == Results(TestsTrace(fx, TestCount(fx.tests), printer))
  {
    var pre, tests, post := Hook(fx.fSetup, FixtureSetupEvent(fx)), TestsTrace(fx, TestCount(fx.tests), printer),
      Hook(fx.fTeardown, FixtureTeardownEvent(fx));
    NoResults(pre);
    NoResults(post);
    ResultsAppend(pre, tests);
    ResultsAppend(pre + tests, post);
  }

  /** The result handler is called once for every test the runner visits,
      in order, with that test's verdict and, for a failure, its text. */
  lemma ResultsInOrder(fx: Fixture, printer: Callback)
    ensures |Results(FixtureTrace(fx, printer))| == TestCount(fx.tests)
    ensures forall i :: 0 <= i < TestCount(fx.tests) ==> Results(FixtureTrace(fx, printer))[i] == ResultEvent(fx, i)
  {
    FixtureResults(fx, printer);
    TestsResults(fx, TestCount(fx.tests), printer);
  }

  /** A test's calls start with t_setup, which already finds the test
      current and counted in run_count, then the test function; t_teardown
      comes after the body and right before the result handler, whether or
      not the test failed, and still finds the test current. */
  lemma TestHooksBracket(fx: Fixture, i: nat, printer: Callback)
    requires i < |fx.tests|
    ensures TestBlock(fx, i, printer)[0] == Enter(i)
    ensures fx.tSetup.Some? ==>
      TestBlock(fx, i, printer)[1] == TestSetup(i, Some(fx.tests[i]), i + 1) && TestBlock(fx, i, printer)[2] == Run(i)
    ensures fx.tSetup.None? ==> TestBlock(fx, i, printer)[1] == Run(i)
    ensures fx.tTeardown.Some? ==>
      TestBlock(fx, i, printer)[|TestBlock(fx, i, printer)| - 2] == TestTeardown(i, Some(fx.tests[i]), i + 1)
    ensures TestBlock(fx, i, printer)[|TestBlock(fx, i, printer)| - 1] == ResultEvent(fx, i)
  {
    var t := fx.tests[i];
    var body := BodyTrace(Executed(BodyOf(t)), printer, Some(t));
    var a, b := Hook(fx.tSetup, SetupEvent(fx, i)), Hook(fx.tTeardown, TeardownEvent(fx, i));
    assert TestBlock(fx, i, printer) == [Enter(i)] + a + [Run(i)] + body + b + [ResultEvent(fx, i)];
  }

  /** No test calls a fixture hook. */
  lemma BlockHasNoFixtureHooks(fx: Fixture, i: nat, printer: Callback, x: Event)
    requires i < |fx.tests| && (x.FixtureSetup? || x.FixtureTeardown?)
    ensures x !in TestBlock(fx, i, printer)
  {
    var t := fx.tests[i];
    BodyEvents(Executed(BodyOf(t)), printer, Some(t));
  }

  /** No test of the run calls a fixture hook. */
  lemma TestsHaveNoFixtureHooks(fx: Fixture, printer: Callback, x: Event)
    requires x.FixtureSetup? || x.FixtureTeardown?
    ensures x !in TestsTrace(fx, TestCount(fx.tests), printer)
  {
    var n := TestCount(fx.tests);
    var f := (i: nat) => if i < |fx.tests| then TestBlock(fx, i, printer) else [];
    forall i | 0 <= i < n
      ensures x !in f(i)
    {
      BlockHasNoFixtureHooks(fx, i, printer, x);
    }
    CollectNotIn(n, f, x);
  }

  /** f_setup runs once, before anything else, and finds the fixture
      current and every counter zeroed; f_teardown runs once, after
      everything else, and finds the fixture still current and the counters
      of all the tests run. Each runs only when the fixture has one. */
  lemma FixtureHooksBracket(fx: Fixture, printer: Callback, x: Event)
    requires x.FixtureSetup? || x.FixtureTeardown?
    ensures x.FixtureSetup? ==>
      (multiset(FixtureTrace(fx, printer))[x] == if fx.fSetup.Some? && x == FixtureSetup(Some(fx), 0, 0, 0) then 1 else 0)
    ensures x.FixtureTeardown? ==>
      (multiset(FixtureTrace(fx, printer))[x]
       == if fx.fTeardown.Some? && x == FixtureTeardown(Some(fx), TestCount(fx.tests),
         Passes(fx, TestCount(fx.tests)), Failures(fx, TestCount(fx.tests))) then 1 else 0)
    ensures fx.fSetup.Some? ==> FixtureTrace(fx, printer)[0] == FixtureSetup(Some(fx), 0, 0, 0)
    ensures fx.fTeardown.Some? ==>
      (FixtureTrace(fx, printer)[|FixtureTrace(fx, printer)| - 1]
       == FixtureTeardown(Some(fx), TestCount(fx.tests), Passes(fx, TestCount(fx.tests)), Failures(fx, TestCount(fx.tests))))
  {
    var pre, tests, post := Hook(fx.fSetup, FixtureSetupEvent(fx)), TestsTrace(fx, TestCount(fx.tests), printer),
      Hook(fx.fTeardown, FixtureTeardownEvent(fx));
    TestsHaveNoFixtureHooks(fx, printer, x);
    assert multiset(tests)[x] == 0;
    HookCount(fx.fSetup, FixtureSetupEvent(fx), x);
    HookCount(fx.fTeardown, FixtureTeardownEvent(fx), x);
    assert FixtureTrace(fx, printer) == pre + tests + post;
  }

  /** The calls test i makes to the test hooks and the test function. */
  lemma BlockCalls(fx: Fixture, i: nat, printer: Callback, x: Event)
    requires i < |fx.tests| && (x.TestSetup? || x.TestTeardown? || x.Run?)
    ensures multiset(TestBlock(fx, i, printer))[x]
      == multiset(Hook(fx.tSetup, SetupEvent(fx, i)))[x] + multiset([Run(i)])[x] + multiset(Hook(fx.tTeardown, TeardownEvent(fx, i)))[x]
  {
    var t := fx.tests[i];
    var body := BodyTrace(Executed(BodyOf(t)), printer, Some(t));
    var a, b := Hook(fx.tSetup, SetupEvent(fx, i)), Hook(fx.tTeardown, TeardownEvent(fx, i));
    var r := ResultEvent(fx, i);
    BodyEvents(Executed(BodyOf(t)), printer, Some(t));
    assert x !in body;
    assert TestBlock(fx, i, printer) == [Enter(i)] + a + [Run(i)] + body + b + [r];
    assert multiset([Enter(i)])[x] == 0 && multiset([r])[x] == 0;
  }

  /** An optional hook contributes its call once when present. */
  lemma HookCount(hook: Option<HookId>, e: Event, x: Event)
    ensures multiset(Hook(hook, e))[x] == if hook.Some? && x == e then 1 else 0
  {
  }

  lemma BlockSetupCount(fx: Fixture, k: nat, printer: Callback, x: Event)
    requires k < |fx.tests| && x.TestSetup?
    ensures multiset(TestBlock(fx, k, printer))[x] == if x == SetupEvent(fx, k) && fx.tSetup.Some? then 1 else 0
  {
    BlockCalls(fx, k, printer, x);
    HookCount(fx.tSetup, SetupEvent(fx, k), x);
    HookCount(fx.tTeardown, TeardownEvent(fx, k), x);
  }

  lemma BlockTeardownCount(fx: Fixture, k: nat, printer: Callback, x: Event)
    requires k < |fx.tests| && x.TestTeardown?
    ensures multiset(TestBlock(fx, k, printer))[x] == if x == TeardownEvent(fx, k) && fx.tTeardown.Some? then 1 else 0
  {
    BlockCalls(fx, k, printer, x);
    HookCount(fx.tSetup, SetupEvent(fx, k), x);
    HookCount(fx.tTeardown, TeardownEvent(fx, k), x);
  }

  lemma BlockRunCount(fx: Fixture, k: nat, printer: Callback, i: nat)
    requires k < |fx.tests|
    ensures multiset(TestBlock(fx, k, printer))[Run(i)] == if k == i then 1 else 0
  {
    BlockCalls(fx, k, printer, Run(i));
    HookCount(fx.tSetup, SetupEvent(fx, k), Run(i));
    HookCount(fx.tTeardown, TeardownEvent(fx, k), Run(i));
  }

  /** The fixture hooks add nothing else to the fixture's calls. */
  lemma FixtureCount(fx: Fixture, printer: Callback, x: Event)
    requires !x.FixtureSetup? && !x.FixtureTeardown?
    ensures multiset(FixtureTrace(fx, printer))[x] == multiset(TestsTrace(fx, TestCount(fx.tests), printer))[x]
  {
    var pre, tests, post := Hook(fx.fSetup, FixtureSetupEvent(fx)), TestsTrace(fx, TestCount(fx.tests), printer),
      Hook(fx.fTeardown, FixtureTeardownEvent(fx));
    assert FixtureTrace(fx, printer) == pre + tests + post;
    assert multiset(pre)[x] == 0 && multiset(post)[x] == 0;
  }

  lemma TestsSetupCount(fx: Fixture, printer: Callback, x: Event)
    requires x.TestSetup?
    ensures multiset(TestsTrace(fx, TestCount(fx.tests), printer))[x]
      == if x.index < TestCount(fx.tests) && fx.tSetup.Some? && x == SetupEvent(fx, x.index) then 1 else 0
  {
    var n, i := TestCount(fx.tests), x.index;
    var f := (k: nat) => if k < |fx.tests| then TestBlock(fx, k, printer) else [];
    var c := if i < |fx.tests| && fx.tSetup.Some? && x == SetupEvent(fx, i) then 1 else 0;
    forall k | 0 <= k < n
      ensures multiset(f(k))[x] == if k == i then c else 0
    {
      BlockSetupCount(fx, k, printer, x);
    }
    CollectOnce(n, f, x, i, c);
  }

  lemma TestsTeardownCount(fx: Fixture, printer: Callback, x: Event)
    requires x.TestTeardown?
    ensures multiset(TestsTrace(fx, TestCount(fx.tests), printer))[x]
      == if x.index < TestCount(fx.tests) && fx.tTeardown.Some? && x == TeardownEvent(fx, x.index) then 1 else 0
  {
    var n, i := TestCount(fx.tests), x.index;
    var f := (k: nat) => if k < |fx.tests| then TestBlock(fx, k, printer) else [];
    var c := if i < |fx.tests| && fx.tTeardown.Some? && x == TeardownEvent(fx, i) then 1 else 0;
    forall k | 0 <= k < n
      ensures multiset(f(k))[x] == if k == i then c else 0
    {
      BlockTeardownCount(fx, k, printer, x);
    }
    CollectOnce(n, f, x, i, c);
  }

  lemma TestsRunCount(fx: Fixture, printer: Callback, i: nat)
    ensures multiset(TestsTrace(fx, TestCount(fx.tests), printer))[Run(i)] == if i < TestCount(fx.tests) then 1 else 0
  {
    var n := TestCount(fx.tests);
    var f := (k: nat) => if k < |fx.tests| then TestBlock(fx, k, printer) else [];
    forall k | 0 <= k < n
      ensures multiset(f(k))[Run(i)] == if k == i then 1 else 0
    {
      BlockRunCount(fx, k, printer, i);
    }
    CollectOnce(n, f, Run(i), i, 1);
  }

  /** t_setup runs once for every test the runner visits, when the fixture
      has one, finding that test current and already counted; there is no
      other t_setup call. */
  lemma TestSetupOncePerTest(fx: Fixture, printer: Callback, x: Event)
    requires x.TestSetup?
    ensures multiset(FixtureTrace(fx, printer))[x]
      == if x.index < TestCount(fx.tests) && fx.tSetup.Some? && x == TestSetup(x.index, Some(fx.tests[x.index]), x.index + 1)
         then 1 else 0
  {
    TestsSetupCount(fx, printer, x);
    FixtureCount(fx, printer, x);
    if x.index < TestCount(fx.tests) {
      assert SetupEvent(fx, x.index) == TestSetup(x.index, Some(fx.tests[x.index]), x.index + 1);
    }
  }

  /** t_teardown likewise runs once for every visited test, failed or not,
      with that test still current. */
  lemma TestTeardownOncePerTest(fx: Fixture, printer: Callback, x: Event)
    requires x.TestTeardown?
    ensures multiset(FixtureTrace(fx, printer))[x]
      == if x.index < TestCount(fx.tests) && fx.tTeardown.Some? && x == TestTeardown(x.index, Some(fx.tests[x.index]), x.index + 1)
         then 1 else 0
  {
    TestsTeardownCount(fx, printer, x);
    FixtureCount(fx, printer, x);
    if x.index < TestCount(fx.tests) {
      assert TeardownEvent(fx, x.index) == TestTeardown(x.index, Some(fx.tests[x.index]), x.index + 1);
    }
  }

  /** The runner calls the function of every visited entry once, and no
      other test function. */
  lemma EachTestRunsOnce(fx: Fixture, printer: Callback, i: nat)
    ensures multiset(FixtureTrace(fx, printer))[Run(i)] == if i < TestCount(fx.tests) then 1 else 0
  {
    TestsRunCount(fx, printer, i);
    FixtureCount(fx, printer, Run(i));
  }

  /*------------------------------------------------------------------------
     Statements after a failure do not run
   ------------------------------------------------------------------------*/

  lemma {:induction false} RanExactly(steps: seq<Step>, printer: Callback, current: Option<TestEntry>, j: nat)
    ensures Ran(j) in BodyTrace(steps, printer, current) <==> j < |steps|
  {
    if steps != [] {
      var k := |steps| - 1;
      RanExactly(steps[..k], printer, current, j);
    }
  }

  /** Statement j of a body runs exactly when no earlier statement called
      `utest_fail`. */
  lemma NothingRunsAfterFailure(body: seq<Step>, printer: Callback, current: Option<TestEntry>, j: nat)
    ensures Ran(j) in BodyTrace(Executed(body), printer, current)
      <==> j < |body| && forall i :: 0 <= i < j ==> !Aborts(body[i])
  {
    RanExactly(Executed(body), printer, current, j);
    FirstAbortIsFirst(body);
    ExecutedShape(body);
  }

  /*------------------------------------------------------------------------
     The console
   ------------------------------------------------------------------------*/

  /** Statements put nothing on the console unless the built-in print
      handler is installed and one of them calls `utest_print`. */
  lemma {:induction false} SilentPrinter(steps: seq<Step>, printer: Callback, current: Option<TestEntry>)
    requires !printer.Builtin? || !Prints(steps)
    ensures BodyConsole(steps, printer, current) == []
  {
    if steps != [] {
      SilentPrinter(steps[..|steps| - 1], printer, current);
    }
  }

  /** The line the built-in result handler prints for a failed test i. */
  function FailureLine(fx: Fixture, i: nat): string
    requires i < |fx.tests| && TestOutcome(fx, i).Fail?
  {
    var t := fx.tests[i];
    Location(t) + "Test failed: '" + t.name + "': " + TestOutcome(fx, i).message + "\r\n"
  }

  /** One line for a failed test, none for a passing one. */
  function FailureLines(fx: Fixture, i: nat): seq<string>
  {
    if i < |fx.tests| && TestOutcome(fx, i).Fail? then [FailureLine(fx, i)] else []
  }

  /** The built-in result handler prints a line for test i exactly when it
      failed; the body adds nothing when the print handler is not the
      built-in one or none of its statements that run prints. */
  lemma TestConsoleOnlyOnFailure(fx: Fixture, i: nat, printer: Callback)
    requires i < |fx.tests|
    requires !printer.Builtin? || !Prints(Executed(BodyOf(fx.tests[i])))
    ensures TestConsole(fx, i, printer, Builtin) == FailureLines(fx, i)
  {
    var t := fx.tests[i];
    SilentPrinter(Executed(BodyOf(t)), printer, Some(t));
  }

  /** With the built-in result handler, and either another print handler
      or no test that calls `utest_print`, the console holds one line per
      failed test, in order, and nothing for a passing one. */
  lemma ConsoleOnlyOnFailure(fx: Fixture, n: nat, printer: Callback)
    requires n <= |fx.tests|
    requires !printer.Builtin? || forall i :: 0 <= i < n ==> !Prints(Executed(BodyOf(fx.tests[i])))
    ensures TestsConsole(fx, n, printer, Builtin) == Collect(n, (i: nat) => FailureLines(fx, i))
  {
    var f := (i: nat) => if i < |fx.tests| then TestConsole(fx, i, printer, Builtin) else [];
    forall i | 0 <= i < n
      ensures f(i) == FailureLines(fx, i)
    {
      TestConsoleOnlyOnFailure(fx, i, printer);
    }
    CollectPointwise(n, f, (i: nat) => FailureLines(fx, i));
  }

  /** A whole fixture's console under the built-in result handler: one
      line per failed test, in order, as many lines as failed tests. */
  lemma FixtureConsoleOnlyOnFailure(fx: Fixture, printer: Callback)
    requires !printer.Builtin? || forall i :: 0 <= i < TestCount(fx.tests) ==> !Prints(Executed(BodyOf(fx.tests[i])))
    ensures FixtureConsole(fx, printer, Builtin) == Collect(TestCount(fx.tests), (i: nat) => FailureLines(fx, i))
    ensures |FixtureConsole(fx, printer, Builtin)| == Failures(fx, TestCount(fx.tests))
  {
    ConsoleOnlyOnFailure(fx, TestCount(fx.tests), printer);
    FailureLinesCount(fx, TestCount(fx.tests));
  }

  lemma FailureLinesLength(fx: Fixture, i: nat)
    requires i < |fx.tests|
    ensures |FailureLines(fx, i)| == if TestOutcome(fx, i).Fail? then 1 else 0
  {
  }

  /** There are as many failure lines as failed tests. */
  lemma FailureLinesCount(fx: Fixture, n: nat)
    requires n <= |fx.tests|
    ensures |Collect(n, (i: nat) => FailureLines(fx, i))| == Failures(fx, n)
  {
    var total := (k: nat) => if k <= |fx.tests| then Failures(fx, k) else 0;
    forall i | 0 <= i < n
      ensures total(i + 1) == total(i) + |FailureLines(fx, i)|
    {
      FailureLinesLength(fx, i);
    }
    CollectLength(n, (i: nat) => FailureLines(fx, i), total);
  }

  /** With no built-in handler installed the framework prints nothing. */
  lemma ReplacedHandlersPrintNothing(fx: Fixture, n: nat, printer: Callback, reporter: Callback)
    requires n <= |fx.tests| && !printer.Builtin? && !reporter.Builtin?
    ensures TestsConsole(fx, n, printer, reporter) == []
  {
    var f := (i: nat) => if i < |fx.tests| then TestConsole(fx, i, printer, reporter) else [];
    forall i | 0 <= i < n
      ensures f(i) == []
    {
      var t := fx.tests[i];
      SilentPrinter(Executed(BodyOf(t)), printer, Some(t));
    }
    CollectEmpty(n, f);
  }

}
