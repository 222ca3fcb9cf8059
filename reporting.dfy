/** The framework's own reporting handlers, `utest_test_result_func` and
    `utest_test_print_func`. Their console output is a sequence of lines. */
module Reporting {
  import opened Basics
  import opened Entries

  /** The `<file>(<line>): ` prefix both handlers print. */
  function Location(test: TestEntry): string
  {
    test.file + "(" + IntText(test.line) + "): "
  }

  /** `utest_test_result_func`: one line for a failed test, nothing for a
      successful one. */
  function DefaultResultLines(test: TestEntry, result: ResultKind, message: Option<string>): (out: seq<string>)
    requires result == Failed ==> message.Some?
    ensures result == Success <==> out == []
    ensures result == Failed ==>
      |out| == 1 && out[0] == Location(test) + "Test failed: '" + test.name + "': " + message.value + "\r\n"
  {
    if result == Failed then [Location(test) + "Test failed: '" + test.name + "': " + message.value + "\r\n"] else []
  }

  /** `utest_test_print_func`: always one line. */
  function DefaultPrintLine(test: TestEntry, message: string): string
  {
    Location(test) + "'" + test.name + "': " + message + "\r\n"
  }

  /** What a result handler call writes to the console: a line exactly
      when the built-in handler is told of a failure, and then the failure
      line naming the test and its message. */
  function ResultOutput(handler: Callback, test: TestEntry, result: ResultKind, message: Option<string>): (out: seq<string>)
    requires result == Failed ==> message.Some?
    ensures |out| <= 1
    ensures out != [] <==> handler.Builtin? && result == Failed
    ensures out != [] ==> out[0] == Location(test) + "Test failed: '" + test.name + "': " + message.value + "\r\n"
  {
    if handler.Builtin? then DefaultResultLines(test, result, message) else []
  }

  /** What `utest_print` writes to the console: at most one line, only
      through the built-in handler, and then the message tagged with the
      current test's location and name. */
  function PrintOutput(handler: Callback, current: Option<TestEntry>, message: string): (out: seq<string>)
    ensures |out| <= 1
    ensures out != [] ==> handler.Builtin?
    ensures handler.Builtin? && current.Some? ==>
      out == [Location(current.value) + "'" + current.value.name + "': " + message + "\r\n"]
  {
    if handler.Builtin? && current.Some? then [DefaultPrintLine(current.value, message)] else []
  }
}
