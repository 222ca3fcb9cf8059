/** Client programs of the framework: what a harness that calls
    `utest_init`, installs or resets handlers and runs a fixture observes. */
module Scenarios {
  import opened Basics
  import opened Assertions
  import opened Entries
  import opened Engine
  import opened Properties

  /** Replacing both handlers silences the framework. */
  method ReplacedHandlers(fx: Fixture) returns (out: seq<string>)
    ensures out == []
  {
    var rt := new Runtime();
    rt.Init();
    rt.SetPrintFunc(Installed(1));
    rt.SetResultFunc(Installed(2));
    assert rt.console == [];
    assert rt.cfg == Config(Installed(2), Installed(1));
    var _ := rt.RunFixture(fx);
    out := rt.console;
    TestCountVisitsTests(fx.tests);
    ReplacedHandlersPrintNothing(fx, TestCount(fx.tests), Installed(1), Installed(2));
  }

  /** Resetting a replaced result handler brings back the built-in one: one
      line per failed test, in order, and nothing for a test that passed. */
  method ResetResultHandler(fx: Fixture) returns (out: seq<string>, failed: nat)
    ensures failed == Failures(fx, TestCount(fx.tests))
    ensures |out| == failed
    ensures out == Collect(TestCount(fx.tests), (i: nat) => FailureLines(fx, i))
  {
    var rt := new Runtime();
    rt.Init();
    rt.SetPrintFunc(Installed(1));
    rt.SetResultFunc(Installed(2));
    rt.ResetResultFunc();
    assert rt.cfg == Config(Builtin, Installed(1)) && rt.console == [];
    var _ := rt.RunFixture(fx);
    out, failed := rt.console, rt.state.failCount;
    FixtureConsoleOnlyOnFailure(fx, Installed(1));
  }

  /** With both built-in handlers, a fixture whose tests do not print shows
      one line per failed test, in order, and nothing else. */
  method DefaultHandlers(fx: Fixture) returns (out: seq<string>)
    ensures (forall i :: 0 <= i < TestCount(fx.tests) ==> !Prints(Executed(BodyOf(fx.tests[i])))) ==>
      out == Collect(TestCount(fx.tests), (i: nat) => FailureLines(fx, i))
  {
    var rt := new Runtime();
    rt.Init();
    assert rt.cfg == Config(Builtin, Builtin) && rt.console == [];
    var _ := rt.RunFixture(fx);
    out := rt.console;
    if forall i :: 0 <= i < TestCount(fx.tests) ==> !Prints(Executed(BodyOf(fx.tests[i]))) {
      FixtureConsoleOnlyOnFailure(fx, Builtin);
    }
  }

  /** `utest_get_user` gives back what `utest_set_user` stored. */
  method UserRoundTrip(user: Address) returns (back: Address)
    ensures back == user
  {
    var rt := new Runtime();
    rt.Init();
    rt.SetUser(user);
    back := rt.GetUser();
  }

  /** After `utest_init` and one fixture, `utest_last_msg` is the text of
      the last failed test, or empty when every test passed; the verdict is
      FAILED exactly when some test failed. */
  method LastMessageOfRun(fx: Fixture) returns (verdict: ResultKind, last: string)
    ensures last == LastFailure(fx, TestCount(fx.tests), "")
    ensures verdict == Failed <==> exists i :: 0 <= i < TestCount(fx.tests) && TestOutcome(fx, i).Fail?
    ensures (forall i :: 0 <= i < TestCount(fx.tests) ==> TestOutcome(fx, i).Pass?) ==> last == ""
  {
    var rt := new Runtime();
    rt.Init();
    verdict := rt.RunFixture(fx);
    TestCountVisitsTests(fx.tests);
    MessageAfterTests(fx, TestCount(fx.tests), Started(ZeroState, fx));
    FixtureVerdict(fx);
    if forall i :: 0 <= i < TestCount(fx.tests) ==> TestOutcome(fx, i).Pass? {
      NoLastFailure(fx, TestCount(fx.tests), "");
    }
    last := rt.LastMsg();
  }

  /** A fixture of three tests whose second one fails: three tests run, two
      pass, one fails, the verdict is FAILED, and the last message is the
      failing test's. */
  method SecondOfThreeFails() returns (verdict: ResultKind, runs: int, passes: int, failures: int, last: string)
    ensures verdict == Failed
    ensures runs == 3 && passes == 2 && failures == 1
    ensures last == "second"
  {
    var tests := [
      TestEntry("first", Some([Other]), "t.c", 10),
      TestEntry("second", Some([Assertion(Holds(false, "second")), Other]), "t.c", 11),
      TestEntry("third", Some([Other]), "t.c", 12),
      TestEntry("", None, "", 0)];
    var fx := Fixture("three", None, None, None, None, tests);
    assert TestCount(tests[3..]) == 0;
    assert TestCount(tests[2..]) == 1 by { assert tests[2..][1..] == tests[3..]; }
    assert TestCount(tests[1..]) == 2 by { assert tests[1..][1..] == tests[2..]; }
    assert TestCount(tests) == 3;
    assert TestOutcome(fx, 0) == Pass && TestOutcome(fx, 2) == Pass by {
      assert FirstAbort([Other]) == 1 by { assert [Other][1..] == []; }
    }
    assert TestOutcome(fx, 1) == Fail("second") by {
      assert Aborts(BodyOf(tests[1])[0]);
    }
    assert Failures(fx, 3) == 1 && Passes(fx, 3) == 2;
    assert LastFailure(fx, 3, "") == "second";
    MessageAfterTests(fx, 3, Started(ZeroState, fx));
    var rt := new Runtime();
    rt.Init();
    assert rt.cfg == Config(Builtin, Builtin) && rt.state == ZeroState;
    verdict := rt.RunFixture(fx);
    runs, passes, failures := rt.state.runCount, rt.state.passCount, rt.state.failCount;
    last := rt.LastMsg();
  }
}
