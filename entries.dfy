/** What the engine runs: test entries, fixtures, and test bodies.

    A test function is modelled by its body, a sequence of statements; the
    statements the framework can observe are its assertions, its calls to
    `utest_print` and `utest_set_user`. Everything else a body does is an
    opaque `Other` statement. */
module Entries {
  import opened Basics
  import opened Assertions

  /** One statement of a test body. An assertion is known by the verdict
      its assertion function reaches: `Pass` when it returns, `Fail` when it
      calls `utest_fail` with the failure text. */
  datatype Step =
    | Assert(verdict: Outcome)  // an assertion macro
    | Message(message: string)  // TEST_MESSAGE, that is `utest_print`
    | SetUser(state: Address)   // `utest_set_user`
    | Other                     // any statement the framework does not see

  /** `utest_entry`. `test` is the test function; `None` is the null
      function of the entry that ends a fixture's array. */
  datatype TestEntry = TestEntry(name: string, test: Option<seq<Step>>, file: string, line: int)

  /** An optional hook is known only by its identity; hooks never fail. */
  type HookId = nat

  /** `utest_fixture`: its hooks and its array of entries. */
  datatype Fixture = Fixture(
    name: string,
    fSetup: Option<HookId>,
    fTeardown: Option<HookId>,
    tSetup: Option<HookId>,
    tTeardown: Option<HookId>,
    tests: seq<TestEntry>)

  /** `utest_test_result`: SUCCESS is 0 and FAILED is -1 in the source. */
  datatype ResultKind = Success | Failed

  /** A handler slot of `utest_cfg`: null, the framework's own function, or
      one installed by the test author. */
  datatype Callback = NoCallback | Builtin | Installed(id: nat)

  /** The body of an entry, empty for the terminating entry. */
  function BodyOf(t: TestEntry): seq<Step>
  {
    if t.test.Some? then t.test.value else []
  }

  /** The number of entries the runner visits: those before the first entry
      whose test function is null. */
  function TestCount(tests: seq<TestEntry>): (n: nat)
    ensures n <= |tests|
    ensures n < |tests| ==> tests[n].test.None?
  {
    if tests == [] || tests[0].test.None? then 0 else 1 + TestCount(tests[1..])
  }

  /** Every entry the runner visits has a test function. */
  lemma {:induction false} TestCountVisitsTests(tests: seq<TestEntry>)
    ensures forall i :: 0 <= i < TestCount(tests) ==> tests[i].test.Some?
  {
    if tests != [] && tests[0].test.Some? {
      TestCountVisitsTests(tests[1..]);
      assert forall i :: 1 <= i < TestCount(tests) ==> tests[i] == tests[1..][i - 1];
    }
  }

  /** The runner's loop guard: an entry before the terminator is followed
      by another entry or the terminator. */
  lemma TestCountNext(tests: seq<TestEntry>, n: nat)
    requires n <= TestCount(tests) && n < |tests| && tests[n].test.Some?
    ensures n + 1 <= TestCount(tests)
  {
  }

  /** The runner's loop stops exactly at `TestCount`. */
  lemma TestCountExit(tests: seq<TestEntry>, n: nat)
    requires n <= TestCount(tests) && (n == |tests| || tests[n].test.None?)
    ensures n == TestCount(tests)
  {
    TestCountVisitsTests(tests);
  }

  /*------------------------------------------------------------------------
     Running one body: the fail protocol as an outcome
   ------------------------------------------------------------------------*/

  /** The statement an assertion macro contributes to a body: it calls
      `utest_fail`, with the assertion's failure text, exactly when the
      check's match condition does not hold, and otherwise returns. */
  function Assertion(c: Check): (s: Step)
    ensures s.Assert?
    ensures WellFormed(c) ==> (Aborts(s) <==> !Satisfied(c))
    ensures Aborts(s) ==> s.verdict == Evaluate(c)
  {
    Assert(Evaluate(c))
  }

  /** A statement that calls `utest_fail`. */
  predicate Aborts(s: Step)
  {
    s.Assert? && s.verdict.Fail?
  }

  /** The index of the first statement that calls `utest_fail`, or the
      length of the body when none does. */
  function FirstAbort(body: seq<Step>): (k: nat)
    ensures k <= |body|
  {
    if body == [] || Aborts(body[0]) then 0 else 1 + FirstAbort(body[1..])
  }

  /** No statement before `FirstAbort` fails, and the one at it does. */
  lemma {:induction false} FirstAbortIsFirst(body: seq<Step>)
    ensures forall j :: 0 <= j < FirstAbort(body) ==> !Aborts(body[j])
    ensures FirstAbort(body) < |body| ==> Aborts(body[FirstAbort(body)])
  {
    if body != [] && !Aborts(body[0]) {
      FirstAbortIsFirst(body[1..]);
      forall j | 0 <= j < FirstAbort(body)
        ensures !Aborts(body[j])
      {
        if j > 0 {
          assert body[j] == body[1..][j - 1];
        }
      }
    }
  }

  /** The statement-by-statement view the test runner's loop takes: a
      statement at or before the first failure fails exactly when it is the
      first failure. */
  lemma {:induction false} FirstAbortAt(body: seq<Step>, k: nat)
    requires k < |body| && k <= FirstAbort(body)
    ensures Aborts(body[k]) <==> k == FirstAbort(body)
  {
    if k > 0 {
      FirstAbortAt(body[1..], k - 1);
      assert body[1..][k - 1] == body[k];
    }
  }

  /** How a body ends: normally, or with the text of its first failure
      (the statement at `FirstAbort`, when there is one, is an assertion). */
  function BodyOutcome(body: seq<Step>): Outcome
  {
    var k := FirstAbort(body);
    if k < |body| && body[k].Assert? then body[k].verdict else Pass
  }

  /** A body ends normally exactly when none of its statements fails;
      otherwise with the text of a failing statement. */
  lemma BodyOutcomeMeaning(body: seq<Step>)
    ensures BodyOutcome(body).Pass? <==> forall j :: 0 <= j < |body| ==> !Aborts(body[j])
    ensures BodyOutcome(body).Fail? ==>
      exists j :: 0 <= j < |body| && Aborts(body[j]) && BodyOutcome(body) == body[j].verdict
  {
    FirstAbortIsFirst(body);
  }

  /** The statements that run: all of them, or those up to and including
      the one that calls `utest_fail`. */
  function Executed(body: seq<Step>): seq<Step>
  {
    var k := FirstAbort(body);
    if k < |body| then body[..k + 1] else body
  }

  /** What runs is a prefix of the body; all of it when the body passes, and
      otherwise it stops right after the first failure, whose text is the
      body's outcome. */
  lemma ExecutedShape(body: seq<Step>)
    ensures Executed(body) <= body
    ensures BodyOutcome(body).Pass? ==> Executed(body) == body
    ensures BodyOutcome(body).Fail? ==>
      var run := Executed(body);
      |run| == FirstAbort(body) + 1 && Aborts(run[|run| - 1]) && BodyOutcome(body) == run[|run| - 1].verdict
      && forall j :: 0 <= j < |run| - 1 ==> !Aborts(run[j])
  {
    FirstAbortIsFirst(body);
  }

  function KindOf(o: Outcome): ResultKind
  {
    if o.Pass? then Success else Failed
  }

  /** Whether a body prints through `utest_print`. */
  predicate Prints(body: seq<Step>)
  {
    exists k :: 0 <= k < |body| && body[k].Message?
  }
}
