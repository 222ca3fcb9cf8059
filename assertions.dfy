/** The assertion library and the fail protocol.

    In the C source an assertion either returns, or calls `utest_fail`, which
    formats a message into the run state's buffer and jumps back to the test
    runner without returning. Here that jump is an `Outcome` value: `Pass`
    for a normal return, `Fail(text)` for the text `utest_fail` would have
    written. */
module Assertions {
  import opened Basics

  datatype Outcome = Pass | Fail(message: string)

  /** What an assertion appends to its failure text: ` - <message>` when the
      caller gave a non-null message, nothing otherwise. */
  function Note(message: Option<string>): string
  {
    match message
    case None => ""
    case Some(m) => " - " + m
  }

  /*------------------------------------------------------------------------
     Integer equality
   ------------------------------------------------------------------------*/

  /** `utest_assert_integer_equal`: both operands already are C ints. */
  function AssertIntegerEqual(expected: CInt, actual: CInt, message: Option<string>): (r: Outcome)
    ensures r.Pass? <==> expected == actual
    ensures r.Fail? ==> (r.message ==
      "Values not equal. Expected [" + IntText(expected) + "], Actual [" + IntText(actual) + "]" + Note(message))
  {
    if expected == actual then Pass
    else Fail("Values not equal. Expected [" + IntText(expected) + "], Actual [" + IntText(actual) + "]" + Note(message))
  }

  /** The integer types named by the `TEST_ASSERT_EQUAL_<T>` macros. */
  datatype IntType = Int | Int8 | Int16 | Int32 | Int64 | UInt | UInt8 | UInt16 | UInt32 | UInt64
  {
    function Modulus(): (m: nat)
      ensures m >= 256
    {
      match this
      case Int8 | UInt8 => 0x100
      case Int16 | UInt16 => 0x1_0000
      case Int | Int32 | UInt | UInt32 => 0x1_0000_0000
      case Int64 | UInt64 => 0x1_0000_0000_0000_0000
    }

    predicate IsSigned()
    {
      this in {Int, Int8, Int16, Int32, Int64}
    }

    /** The width the macro for this type actually compares at: its own,
        but never more than the 32 bits of a C `int`. */
    function ComparedModulus(): (m: nat)
      ensures m >= 256
    {
      if this in {Int64, UInt64} then 0x1_0000_0000 else Modulus()
    }
  }

  /** Two's-complement conversion of `x` to an integer type whose values are
      taken modulo `m`: the representative of `x` modulo `m` in the type's
      range. */
  function Wrap(x: int, m: nat, signed: bool): (r: int)
    requires m >= 2 && m % 2 == 0
    ensures signed ==> -(m / 2) <= r < m / 2
    ensures !signed ==> 0 <= r < m
    ensures r % m == x % m
  {
    var low := x % m;
    ModOfSmall(low, m);
    if signed && low >= m / 2 then (ModShift(low - m, m); low - m) else low
  }

  lemma ModOfSmall(a: int, m: int)
    requires m > 0 && 0 <= a < m
    ensures a % m == a
  {
  }

  lemma ModShift(a: int, m: int)
    requires m > 0 && -m <= a < 0
    ensures a % m == a + m
  {
    var q, r := a / m, a % m;
    assert a == q * m + r;
  }

  lemma ZeroMultiple(j: int, m: int)
    requires m > 0 && -m < j * m < m
    ensures j == 0
  {
  }

  /** Adding a multiple of `m` does not change the residue modulo `m`. */
  lemma MultipleShift(r: int, k: int, m: int)
    requires m > 0
    ensures (k * m + r) % m == r % m
  {
    var q1, r1 := (k * m + r) / m, (k * m + r) % m;
    var q2, r2 := r / m, r % m;
    assert k * m + r == q1 * m + r1;
    assert r == q2 * m + r2;
    assert (k + q2 - q1) * m == r1 - r2;
    ZeroMultiple(k + q2 - q1, m);
  }

  /** The C cast `(T)x`, for an operand whose value is the integer `x`. */
  function Cast(t: IntType, x: int): (r: int)
  {
    Wrap(x, t.Modulus(), t.IsSigned())
  }

  /** The implicit conversion to a C `signed int` parameter. */
  function ToCInt(x: int): (r: CInt)
    ensures r % 0x1_0000_0000 == x % 0x1_0000_0000
  {
    Wrap(x, 0x1_0000_0000, true)
  }

  /** `TEST_ASSERT_EQUAL_<T>[_MESSAGE]` AS WRITTEN: both operands are cast to
      `T` and then passed through the `signed int` parameters of
      `utest_assert_integer_equal`, so 64-bit operands lose their upper half
      and are printed as that low half. */
  function AssertEqualAsWritten(t: IntType, expected: int, actual: int, message: Option<string>): (r: Outcome)
    ensures r.Pass? <==> expected % t.ComparedModulus() == actual % t.ComparedModulus()
    ensures r.Fail? ==> (r.message ==
      "Values not equal. Expected [" + IntText(ToCInt(Cast(t, expected))) + "], Actual ["
      + IntText(ToCInt(Cast(t, actual))) + "]" + Note(message))
  {
    if t in {Int64, UInt64} then
      WideCastComparison(t, expected, actual);
      AssertIntegerEqual(ToCInt(Cast(t, expected)), ToCInt(Cast(t, actual)), message)
    else
      NarrowCastComparison(t, expected, actual);
      AssertIntegerEqual(ToCInt(Cast(t, expected)), ToCInt(Cast(t, actual)), message)
  }

  /** Through a 64-bit cast and then an `int` parameter, two operands become
      equal exactly when they agree in their low 32 bits. */
  lemma {:induction false} WideCastComparison(t: IntType, expected: int, actual: int)
    requires t in {Int64, UInt64}
    ensures ToCInt(Cast(t, expected)) == ToCInt(Cast(t, actual)) <==>
      expected % 0x1_0000_0000 == actual % 0x1_0000_0000
  {
    var ce, ca := Cast(t, expected), Cast(t, actual);
    LowHalfSurvives(ce, expected);
    LowHalfSurvives(ca, actual);
  }

  /** Through a cast of at most 32 bits and then an `int` parameter, two
      operands become equal exactly when they agree modulo the type's range:
      the parameter loses nothing. */
  lemma {:induction false} NarrowCastComparison(t: IntType, expected: int, actual: int)
    requires t !in {Int64, UInt64}
    ensures ToCInt(Cast(t, expected)) == ToCInt(Cast(t, actual)) <==>
      expected % t.Modulus() == actual % t.Modulus()
  {
    var ce, ca := Cast(t, expected), Cast(t, actual);
    if ce != ca {
      assert -0x1_0000_0000 < ce - ca < 0x1_0000_0000;
      assert ToCInt(ce) != ToCInt(ca) by {
        var q, p := ce / 0x1_0000_0000, ca / 0x1_0000_0000;
        assert ce == q * 0x1_0000_0000 + ce % 0x1_0000_0000;
        assert ca == p * 0x1_0000_0000 + ca % 0x1_0000_0000;
      }
    }
  }

  /** Two values congruent modulo 2^64 are congruent modulo 2^32. */
  lemma LowHalfSurvives(c: int, x: int)
    requires c % 0x1_0000_0000_0000_0000 == x % 0x1_0000_0000_0000_0000
    ensures c % 0x1_0000_0000 == x % 0x1_0000_0000
  {
    var r := x % 0x1_0000_0000_0000_0000;
    var qc, qx := c / 0x1_0000_0000_0000_0000, x / 0x1_0000_0000_0000_0000;
    assert c == (qc * 0x1_0000_0000) * 0x1_0000_0000 + r;
    assert x == (qx * 0x1_0000_0000) * 0x1_0000_0000 + r;
    MultipleShift(r, qc * 0x1_0000_0000, 0x1_0000_0000);
    MultipleShift(r, qx * 0x1_0000_0000, 0x1_0000_0000);
  }

  /** The counterexample: `TEST_ASSERT_EQUAL_INT64(x, x + 0x100000000)`
      passes for every x in [0, 2^32), `TEST_ASSERT_EQUAL_INT64(0,
      0x100000000)` among them, although the two 64-bit values differ and
      the intended comparison rejects them. */
  lemma Int64AssertAcceptsDifferentValues(x: int)
    requires 0 <= x < 0x1_0000_0000
    ensures Cast(Int64, x) == x && Cast(Int64, x + 0x1_0000_0000) == x + 0x1_0000_0000
    ensures AssertEqualAsWritten(Int64, x, x + 0x1_0000_0000, None).Pass?
    ensures AssertEqual(Int64, x, x + 0x1_0000_0000, None).Fail?
  {
    ModOfSmall(x, 0x1_0000_0000_0000_0000);
    ModOfSmall(x + 0x1_0000_0000, 0x1_0000_0000_0000_0000);
    MultipleShift(x, 1, 0x1_0000_0000);
  }

  /** Two assertions as the source runs them: `TEST_ASSERT_EQUAL_INT64(0,
      0x100000000)` passes, and `TEST_ASSERT_EQUAL_UINT(0xFFFFFFFF, 0)`
      hands `utest_assert_integer_equal` the `int` -1, which its failure
      text prints as -1. */
  lemma AsWrittenExamples()
    ensures Evaluate(EqualInt(Int64, 0, 0x1_0000_0000, None)) == Pass
    ensures Evaluate(EqualInt(UInt, 0xFFFF_FFFF, 0, None)) == AssertIntegerEqual(-1, 0, None)
  {
    Int64AssertAcceptsDifferentValues(0);
    ModOfSmall(0xFFFF_FFFF, 0x1_0000_0000);
    ModOfSmall(0, 0x1_0000_0000);
    assert Cast(UInt, 0xFFFF_FFFF) == 0xFFFF_FFFF && ToCInt(0xFFFF_FFFF) == -1;
    assert Cast(UInt, 0) == 0 && ToCInt(0) == 0;
  }

  /** How the intended assertion prints an operand: as the source does for
      the types of at most 32 bits (through an `int`, so `UINT32` values of
      2^31 and more print negative), and at full width for the 64-bit ones. */
  function Shown(t: IntType, x: int): int
  {
    if t in {Int64, UInt64} then Cast(t, x) else ToCInt(Cast(t, x))
  }

  /** `TEST_ASSERT_EQUAL_<T>[_MESSAGE]` as evidently intended: the operands
      are compared at the full width of `T`. */
  function AssertEqual(t: IntType, expected: int, actual: int, message: Option<string>): (r: Outcome)
    ensures r.Pass? <==> expected % t.Modulus() == actual % t.Modulus()
    ensures r.Fail? ==> (r.message ==
      "Values not equal. Expected [" + IntText(Shown(t, expected)) + "], Actual [" + IntText(Shown(t, actual)) + "]" + Note(message))
  {
    if Cast(t, expected) == Cast(t, actual) then Pass
    else Fail("Values not equal. Expected [" + IntText(Shown(t, expected)) + "], Actual [" + IntText(Shown(t, actual)) + "]" + Note(message))
  }

  /** For every type of at most 32 bits the source and the intended
      assertion agree: same verdict, same text. */
  lemma {:induction false} NarrowAssertAgrees(t: IntType, expected: int, actual: int, message: Option<string>)
    requires t !in {Int64, UInt64}
    ensures AssertEqualAsWritten(t, expected, actual, message) == AssertEqual(t, expected, actual, message)
  {
  }

  /*------------------------------------------------------------------------
     Pointer equality and the null check
   ------------------------------------------------------------------------*/

  /** `utest_assert_pointer_equal`. */
  function AssertPointerEqual(expected: Address, actual: Address, message: Option<string>): (r: Outcome)
    ensures r.Pass? <==> expected == actual
    ensures r.Fail? ==> (r.message ==
      "Pointers not equal. Expected [0x" + PaddedHex(expected) + "], Actual [0x" + PaddedHex(actual) + "]" + Note(message))
  {
    if expected == actual then Pass
    else Fail("Pointers not equal. Expected [0x" + PaddedHex(expected) + "], Actual [0x" + PaddedHex(actual) + "]" + Note(message))
  }

  /** The null check appends its caller message after a single space. */
  function NullNote(message: Option<string>): string
  {
    match message
    case None => ""
    case Some(m) => " " + m
  }

  /** `utest_assert_null`: `expectNull` selects the direction, and the
      failure text names it. */
  function AssertNull(actual: Address, expectNull: bool, message: Option<string>): (r: Outcome)
    ensures r.Pass? <==> (actual == Null) == expectNull
    ensures r.Fail? && expectNull ==> r.message == "Value non-null. Expected null." + NullNote(message)
    ensures r.Fail? && !expectNull ==> r.message == "Value null. Expected non-null." + NullNote(message)
  {
    if expectNull then
      if actual == Null then Pass else Fail("Value non-null. Expected null." + NullNote(message))
    else
      if actual != Null then Pass else Fail("Value null. Expected non-null." + NullNote(message))
  }

  /*------------------------------------------------------------------------
     Strings
   ------------------------------------------------------------------------*/

  /** ASCII `tolower` in the C locale. */
  function ToLower(c: char): (r: char)
    ensures ('A' <= c <= 'Z') ==> r as int == c as int + 32
    ensures !('A' <= c <= 'Z') ==> r == c
  {
    if 'A' <= c <= 'Z' then (c as int + 32) as char else c
  }

  /** The character code at position `i` of a C string, 0 past its end
      (the terminator). */
  function CodeAt(s: string, i: nat, ignoreCase: bool): int
  {
    if i < |s| then (if ignoreCase then ToLower(s[i]) else s[i]) as int else 0
  }

  /** `strcmp` (`ignoreCase` false) and `_stricmp` (`ignoreCase` true): walk
      both strings until the codes differ or the terminator is reached;
      returns the sign of the difference. */
  function StrCompare(s: string, t: string, ignoreCase: bool): (r: int)
    ensures -1 <= r <= 1
    decreases |s|
  {
    var c, d := CodeAt(s, 0, ignoreCase), CodeAt(t, 0, ignoreCase);
    if c != d then (if c < d then -1 else 1)
    else if c == 0 then 0
    else StrCompare(s[1..], t[1..], ignoreCase)
  }

  predicate NoNul(s: string)
  {
    forall i :: 0 <= i < |s| ==> s[i] != '\0'
  }

  /** The string each comparison looks at: itself, or its ASCII lower-case form. */
  function Folded(s: string, ignoreCase: bool): (r: string)
    ensures |r| == |s|
  {
    if ignoreCase then seq(|s|, i requires 0 <= i < |s| => ToLower(s[i])) else s
  }

  /** On C strings (no interior NUL) the walk reports equality exactly when
      the strings are equal, or equal after case folding. */
  lemma {:induction false} StrCompareZeroIff(s: string, t: string, ignoreCase: bool)
    requires NoNul(s) && NoNul(t)
    ensures StrCompare(s, t, ignoreCase) == 0 <==> Folded(s, ignoreCase) == Folded(t, ignoreCase)
    decreases |s|
  {
    var c, d := CodeAt(s, 0, ignoreCase), CodeAt(t, 0, ignoreCase);
    var fs, ft := Folded(s, ignoreCase), Folded(t, ignoreCase);
    if |s| > 0 {
      assert fs[0] == (if ignoreCase then ToLower(s[0]) else s[0]);
      assert c == fs[0] as int;
    }
    if |t| > 0 {
      assert ft[0] == (if ignoreCase then ToLower(t[0]) else t[0]);
      assert d == ft[0] as int;
    }
    if |s| > 0 && |t| > 0 {
      assert c != 0 && d != 0;
      if c == d {
        StrCompareZeroIff(s[1..], t[1..], ignoreCase);
        assert Folded(s[1..], ignoreCase) == fs[1..];
        assert Folded(t[1..], ignoreCase) == ft[1..];
        assert fs == [fs[0]] + fs[1..];
        assert ft == [ft[0]] + ft[1..];
      } else {
        assert fs[0] != ft[0];
      }
    } else if |s| > 0 {
      assert c != 0 && d == 0;
    } else if |t| > 0 {
      assert c == 0 && d != 0;
    }
  }

  /** Folding never separates equal strings. */
  lemma {:induction false} IgnoreCaseWeaker(s: string, t: string)
    requires NoNul(s) && NoNul(t)
    requires StrCompare(s, t, false) == 0
    ensures StrCompare(s, t, true) == 0
  {
    StrCompareZeroIff(s, t, false);
    StrCompareZeroIff(s, t, true);
  }

  /** `utest_assert_string_equal`. */
  function AssertStringEqual(expected: string, actual: string, message: Option<string>, ignoreCase: bool): (r: Outcome)
    ensures r.Pass? <==> StrCompare(expected, actual, ignoreCase) == 0
    ensures NoNul(expected) && NoNul(actual) ==>
      (r.Pass? <==> Folded(expected, ignoreCase) == Folded(actual, ignoreCase))
    ensures r.Fail? ==> (r.message ==
      "Strings not equal. Expected [" + expected + "], Actual [" + actual + "]" + Note(message))
  {
    assert NoNul(expected) && NoNul(actual) ==>
      (StrCompare(expected, actual, ignoreCase) == 0 <==> Folded(expected, ignoreCase) == Folded(actual, ignoreCase)) by {
      if NoNul(expected) && NoNul(actual) {
        StrCompareZeroIff(expected, actual, ignoreCase);
      }
    }
    if StrCompare(expected, actual, ignoreCase) == 0 then Pass
    else Fail("Strings not equal. Expected [" + expected + "], Actual [" + actual + "]" + Note(message))
  }

  lemma FooAndFoo()
    ensures AssertStringEqual("Foo", "foo", None, true) == Pass
    ensures AssertStringEqual("Foo", "foo", None, false) == Fail("Strings not equal. Expected [Foo], Actual [foo]")
  {
    assert StrCompare("Foo", "foo", false) != 0;
    assert "Foo"[1..] == "oo" && "foo"[1..] == "oo";
    assert "oo"[1..] == "o" && "o"[1..] == "";
    assert StrCompare("Foo", "foo", true) == 0;
  }

  /*------------------------------------------------------------------------
     Boolean assertions, and the checks a test body may make
   ------------------------------------------------------------------------*/

  /** The text `TEST_ASSERT` fails with. */
  const ExpressionIsFalse: string := "Expression is false"

  /** `TEST_ASSERT(expr)`: fails with a fixed text. */
  function AssertExpr(condition: bool): (r: Outcome)
    ensures r.Pass? <==> condition
    ensures r.Fail? ==> r.message == ExpressionIsFalse
  {
    AssertMessage(condition, ExpressionIsFalse)
  }

  /** `TEST_ASSERT_MESSAGE(expr, message)`: the message becomes the whole
      failure text. */
  function AssertMessage(condition: bool, message: string): (r: Outcome)
    ensures r.Pass? <==> condition
    ensures r.Fail? ==> r.message == message
  {
    if !condition then Fail(message) else Pass
  }

  /** One assertion made by a test body: the macro used and its operands. */
  datatype Check =
    | EqualInt(ty: IntType, expected: int, actual: int, message: Option<string>)   // TEST_ASSERT_EQUAL_<T>[_MESSAGE]
    | EqualPtr(expectedPtr: Address, actualPtr: Address, message: Option<string>)  // TEST_ASSERT_EQUAL_PTR[_MESSAGE]
    | IsNull(value: Address, expectNull: bool, message: Option<string>)            // TEST_ASSERT_[NOT_]NULL[_MESSAGE]
    | EqualString(expectedText: string, actualText: string, message: Option<string>, ignoreCase: bool)
    | Expr(exprHolds: bool)                                                        // TEST_ASSERT
    | Holds(condition: bool, text: string)                                         // TEST_ASSERT_MESSAGE
    | Unconditional(text: string)                                                  // TEST_FAIL_MESSAGE

  /** The match condition of each assertion, stated independently of how
      the assertion functions decide it; an integer check compares at the
      width the source's macros actually compare at. */
  predicate Satisfied(c: Check)
  {
    match c
    case EqualInt(t, e, a, _) => e % t.ComparedModulus() == a % t.ComparedModulus()
    case EqualPtr(e, a, _) => e == a
    case IsNull(v, expectNull, _) => (v == Null) == expectNull
    case EqualString(e, a, _, ignoreCase) => Folded(e, ignoreCase) == Folded(a, ignoreCase)
    case Expr(b) => b
    case Holds(b, _) => b
    case Unconditional(_) => false
  }

  /** The strings a string check compares are C strings. */
  predicate WellFormed(c: Check)
  {
    c.EqualString? ==> NoNul(c.expectedText) && NoNul(c.actualText)
  }

  /** Running one assertion as the source does: it passes exactly when its
      match condition holds; TEST_ASSERT reports a fixed text,
      TEST_ASSERT_MESSAGE its caller's text, and TEST_FAIL_MESSAGE always
      fails. */
  function Evaluate(c: Check): (r: Outcome)
    ensures WellFormed(c) ==> (r.Pass? <==> Satisfied(c))
    ensures c.Expr? && r.Fail? ==> r.message == ExpressionIsFalse
    ensures c.Holds? && r.Fail? ==> r.message == c.text
    ensures c.Unconditional? ==> r == Fail(c.text)
  {
    match c
    case EqualInt(t, e, a, m) => AssertEqualAsWritten(t, e, a, m)
    case EqualPtr(e, a, m) => AssertPointerEqual(e, a, m)
    case IsNull(v, expectNull, m) => AssertNull(v, expectNull, m)
    case EqualString(e, a, m, ignoreCase) => AssertStringEqual(e, a, m, ignoreCase)
    case Expr(b) => AssertExpr(b)
    case Holds(b, text) => AssertMessage(b, text)
    case Unconditional(text) => Fail(text)
  }
}
