/**
 * The older function-result macros, which apply one function to an input
 * and look inside the `Result` it returns: `assert_fn_ok_gt` compares the
 * `Ok` payload of `f(a)` with an expression, the panic-only
 * `assert_fn_ok_ge` compares the `Ok` payloads of `f(left)` and
 * `f(right)`, and `assume_fn_err_string_ge` compares the `to_string()` of
 * the `Err` payloads of `f(left)` and `f(right)` and returns `Ok(true)`.
 */
module FnOkLegacy {
  import opened Outcome
  import opened Order
  import opened Render
  import opened Results
  import FnOk

  // ---------------------------------------------------------------------
  // assert_fn_ok_gt: the `Ok` payload of `f(a)` against an expression `b`

  function FnOkGtExprHeader(): string {
    ShortHeader("assertion", "assert_fn_ok_gt", "left_function, left_input, right_expr")
  }

  /** The header and the five fields both failures start with. */
  function FnOkGtExprFields(functionLabel: string, aLabel: string, aDebug: string, bLabel: string, bDebug: string): string {
    FnOkGtExprHeader()
    + Line(" left_function label", functionLabel)
    + Line("    left_input label", aLabel)
    + Line("    left_input debug", aDebug)
    + Line("    right_expr label", bLabel)
    + Line("    right_expr debug", bDebug)
  }

  /** `f(a)` is not `Ok`: the whole result ends the diagnostic. */
  function FnOkGtExprNotOkDiagnostic(functionLabel: string, aLabel: string, aDebug: string, bLabel: string, bDebug: string,
                                     leftResult: string): string {
    FnOkGtExprFields(functionLabel, aLabel, aDebug, bLabel, bDebug)
    + Last("         left result", leftResult)
  }

  /** `f(a)` is `Ok` but its payload is not greater than `b`. */
  function FnOkGtExprDiagnostic(functionLabel: string, aLabel: string, aDebug: string, bLabel: string, bDebug: string,
                                left: string, right: string): string {
    FnOkGtExprFields(functionLabel, aLabel, aDebug, bLabel, bDebug)
    + Line("                left", left)
    + Last("               right", right)
  }

  /** `assert_fn_ok_gt_as_result!(function, a, b)`: only the left side is a `Result` to unwrap. */
  function AssertFnOkGtExprAsResult<A, Y, E>(functionLabel: string, f: A -> Result<Y, E>, aLabel: string, a: A,
                                             bLabel: string, b: Y, cmp: (Y, Y) -> Ordering,
                                             showA: A -> string, showY: Y -> string, showE: E -> string)
    : (r: Result<(), string>)
    ensures r.Ok? <==> f(a).Ok? && Gt(cmp, f(a).value, b)
    ensures f(a).Err? ==>
      r == Err(FnOkGtExprNotOkDiagnostic(functionLabel, aLabel, showA(a), bLabel, showY(b), ResultDebug(showY, showE, f(a))))
    ensures f(a).Ok? && !Gt(cmp, f(a).value, b) ==>
      r == Err(FnOkGtExprDiagnostic(functionLabel, aLabel, showA(a), bLabel, showY(b), showY(f(a).value), showY(b)))
  {
    var aResult := f(a);
    if !aResult.Ok? then
      Err(FnOkGtExprNotOkDiagnostic(functionLabel, aLabel, showA(a), bLabel, showY(b), ResultDebug(showY, showE, aResult)))
    else
      var aOk := aResult.value;
      if Gt(cmp, aOk, b) then Ok(())
      else Err(FnOkGtExprDiagnostic(functionLabel, aLabel, showA(a), bLabel, showY(b), showY(aOk), showY(b)))
  }

  /** `assert_fn_ok_gt!(function, a, b)` and `assert_fn_ok_gt!(function, a, b, message)`. */
  function AssertFnOkGtExpr<A, Y, E>(functionLabel: string, f: A -> Result<Y, E>, aLabel: string, a: A,
                                     bLabel: string, b: Y, cmp: (Y, Y) -> Ordering,
                                     showA: A -> string, showY: Y -> string, showE: E -> string,
                                     message: Option<string>): (o: Outcome<()>)
    ensures o.Returned? <==> f(a).Ok? && Gt(cmp, f(a).value, b)
    ensures o.Panicked? ==> o.message == if message.Some? then message.value
      else AssertFnOkGtExprAsResult(functionLabel, f, aLabel, a, bLabel, b, cmp, showA, showY, showE).error
  {
    Escalate(AssertFnOkGtExprAsResult(functionLabel, f, aLabel, a, bLabel, b, cmp, showA, showY, showE), message)
  }

  /**
   * Comparing with an expression is comparing with a function that always
   * returns `Ok` of it: the two spellings of `assert_fn_ok_gt` accept the
   * same operands.
   */
  lemma FnOkGtExprAgreesWithFnOkGt<A, B, Y, E>(functionLabel: string, f: A -> Result<Y, E>, aLabel: string, a: A,
                                               bLabel: string, b: Y, gLabel: string, g: B -> Result<Y, E>, y: B,
                                               cmp: (Y, Y) -> Ordering,
                                               showA: A -> string, showB: B -> string, showY: Y -> string, showE: E -> string)
    requires g(y) == Ok(b)
    ensures AssertFnOkGtExprAsResult(functionLabel, f, aLabel, a, bLabel, b, cmp, showA, showY, showE).Ok?
        == FnOk.AssertFnOkGtAsResult(functionLabel, f, aLabel, a, gLabel, g, bLabel, y, cmp, showA, showB, showY, showE).Ok?
  {
    assert FnOk.BothOk(f(a), g(y)) <==> f(a).Ok?;
  }

  // ---------------------------------------------------------------------
  // assert_fn_ok_ge: panic-only, one function on two inputs

  function FnOkGeHeader(): string {
    PlainHeader("assertion", "assert_fn_ok_ge", "fn, left, right")
  }

  /** An output is not `Ok`: the diagnostic shows the two `is_ok()` flags. */
  function FnOkGeNotOkDiagnostic(leftInput: string, rightInput: string, leftIsOk: bool, rightIsOk: bool): string {
    FnOkGeHeader()
    + PlainLine("  left input", leftInput) + PlainLine(" right input", rightInput)
    + PlainLine("  left output is_ok()", BoolToString(leftIsOk)) + Last(" right output is_ok()", BoolToString(rightIsOk))
  }

  /** Both outputs are `Ok` and the left payload is less than the right. */
  function FnOkGeDiagnostic(leftInput: string, rightInput: string, leftOutput: string, rightOutput: string): string {
    FnOkGeHeader()
    + PlainLine("  left input", leftInput) + PlainLine(" right input", rightInput)
    + PlainLine("  left output", leftOutput) + Last(" right output", rightOutput)
  }

  /** `assert_fn_ok_ge!(function, left, right)` and its custom-message arm, which panics with `{:?}` of the message. */
  function AssertFnOkGe<A, Y, E>(f: A -> Result<Y, E>, left: A, right: A, cmp: (Y, Y) -> Ordering,
                                 showA: A -> string, showY: Y -> string, message: Option<string>): (o: Outcome<()>)
    ensures o.Returned? <==> FnOk.BothOk(f(left), f(right)) && Ge(cmp, f(left).value, f(right).value)
    ensures o.Panicked? && message.Some? ==> o.message == DebugStr(message.value)
    ensures message.None? && !FnOk.BothOk(f(left), f(right)) ==>
      o == Panicked(FnOkGeNotOkDiagnostic(showA(left), showA(right), f(left).Ok?, f(right).Ok?))
    ensures message.None? && FnOk.BothOk(f(left), f(right)) && !Ge(cmp, f(left).value, f(right).value) ==>
      o == Panicked(FnOkGeDiagnostic(showA(left), showA(right), showY(f(left).value), showY(f(right).value)))
  {
    var leftResult := f(left);
    var rightResult := f(right);
    if !leftResult.Ok? || !rightResult.Ok? then
      Panicked(DebugPanic(message, FnOkGeNotOkDiagnostic(showA(left), showA(right), leftResult.Ok?, rightResult.Ok?)))
    else
      var leftOk := leftResult.value;
      var rightOk := rightResult.value;
      if Ge(cmp, leftOk, rightOk) then Returned(())
      else Panicked(DebugPanic(message, FnOkGeDiagnostic(showA(left), showA(right), showY(leftOk), showY(rightOk))))
  }

  /** Under a total order, one of the two orders of inputs passes whenever both outputs are `Ok`. */
  lemma FnOkGeEitherWay<A, Y(!new), E>(f: A -> Result<Y, E>, left: A, right: A, cmp: (Y, Y) -> Ordering,
                                       showA: A -> string, showY: Y -> string, message: Option<string>)
    requires IsTotalOrder(cmp)
    requires FnOk.BothOk(f(left), f(right))
    ensures AssertFnOkGe(f, left, right, cmp, showA, showY, message).Returned?
         || AssertFnOkGe(f, right, left, cmp, showA, showY, message).Returned?
  {
    Converse(cmp, f(left).value, f(right).value);
  }

  /** A payload that `assert_fn_ok_gt` finds greater than `f(right)`'s passes `assert_fn_ok_ge` too. */
  lemma FnOkGtExprImpliesFnOkGe<A, Y, E>(f: A -> Result<Y, E>, left: A, right: A, cmp: (Y, Y) -> Ordering,
                                         showA: A -> string, showY: Y -> string, showE: E -> string, message: Option<string>)
    requires f(right).Ok?
    requires AssertFnOkGtExprAsResult("f", f, "left", left, "right", f(right).value, cmp, showA, showY, showE).Ok?
    ensures AssertFnOkGe(f, left, right, cmp, showA, showY, message).Returned?
  {
  }

  // ---------------------------------------------------------------------
  // assume_fn_err_string_ge: `Ok(true)` or `Err`, on the `Err` payloads' strings

  function ErrStringGeHeader(): string {
    PlainHeader("assumption", "assume_fn_err_string_ge", "fn, left, right")
  }

  /** An output is not `Err`: the diagnostic shows the two `is_err()` flags. */
  function ErrStringGeNotErrDiagnostic(leftInput: string, rightInput: string, leftIsErr: bool, rightIsErr: bool): string {
    ErrStringGeHeader()
    + PlainLine("  left input", leftInput) + PlainLine(" right input", rightInput)
    + PlainLine("  left output is_err()", BoolToString(leftIsErr)) + Last(" right output is_err()", BoolToString(rightIsErr))
  }

  /** Both outputs are `Err` and the left string is less than the right; the strings appear as `{:?}`. */
  function ErrStringGeDiagnostic(leftInput: string, rightInput: string, leftOutput: string, rightOutput: string): string {
    ErrStringGeHeader()
    + PlainLine("  left input", leftInput) + PlainLine(" right input", rightInput)
    + PlainLine("  left output", DebugStr(leftOutput)) + Last(" right output", DebugStr(rightOutput))
  }

  predicate BothErr<Y, E>(a: Result<Y, E>, b: Result<Y, E>) {
    a.Err? && b.Err?
  }

  /**
   * `assume_fn_err_string_ge!(function, left, right)` and its custom-message
   * arm, which returns the message itself as the error.  `display` is the
   * `to_string()` of the error type; the strings compare lexicographically.
   */
  function AssumeFnErrStringGe<A, Y, E>(f: A -> Result<Y, E>, left: A, right: A, display: E -> string,
                                        showA: A -> string, message: Option<string>): (r: Result<bool, string>)
    ensures r.Ok? <==> BothErr(f(left), f(right)) && Ge(LexCmp, display(f(left).error), display(f(right).error))
    ensures r.Ok? ==> r.value
    ensures r.Err? && message.Some? ==> r.error == message.value
    ensures message.None? && !BothErr(f(left), f(right)) ==>
      r == Err(ErrStringGeNotErrDiagnostic(showA(left), showA(right), f(left).Err?, f(right).Err?))
    ensures message.None? && BothErr(f(left), f(right)) && !Ge(LexCmp, display(f(left).error), display(f(right).error)) ==>
      r == Err(ErrStringGeDiagnostic(showA(left), showA(right), display(f(left).error), display(f(right).error)))
  {
    var leftResult := f(left);
    var rightResult := f(right);
    if !leftResult.Err? || !rightResult.Err? then
      Err(if message.Some? then message.value
          else ErrStringGeNotErrDiagnostic(showA(left), showA(right), leftResult.Err?, rightResult.Err?))
    else
      var leftString := display(leftResult.error);
      var rightString := display(rightResult.error);
      if Ge(LexCmp, leftString, rightString) then Ok(true)
      else Err(if message.Some? then message.value
               else ErrStringGeDiagnostic(showA(left), showA(right), leftString, rightString))
  }

  /** `String` ordering is total, so one of the two orders of inputs holds whenever both outputs are `Err`. */
  lemma ErrStringGeEitherWay<A, Y, E>(f: A -> Result<Y, E>, left: A, right: A, display: E -> string,
                                      showA: A -> string, message: Option<string>)
    requires BothErr(f(left), f(right))
    ensures AssumeFnErrStringGe(f, left, right, display, showA, message).Ok?
         || AssumeFnErrStringGe(f, right, left, display, showA, message).Ok?
  {
    LexCmpAntisymmetric(display(f(left).error), display(f(right).error));
  }

  // ---------------------------------------------------------------------
  // The test expectations

  /** The tests' `example_digit_to_string`: a digit as a string, anything else out of range. */
  function DigitToString(i: int): Result<string, string> {
    if 0 <= i <= 9 then Ok(IntToString(i)) else Err(IntToString(i) + " is out of range")
  }

  /** `i32::from_str` on the one-digit strings the tests parse. */
  function FromStr(s: string): Result<int, ()> {
    if |s| == 1 && '0' <= s[0] <= '9' then Ok(s[0] as int - '0' as int) else Err(())
  }

  /** The tests' `f`, whose error is `{:?}` of its input. */
  function ErrOfInput(i: int): Result<bool, string> {
    Err(IntToString(i))
  }

  function Same(s: string): string {
    s
  }

  lemma QuotedDigits()
    ensures DebugStr("1") == "\"1\"" && DebugStr("2") == "\"2\""
  {
    assert Escape("1") == "1";
    assert Escape("2") == "2";
  }

  lemma FnOkGtExprExamples()
    ensures AssertFnOkGtExprAsResult("example_digit_to_string", DigitToString, "a", 2, "b", "1", LexCmp, IntToString, DebugStr, DebugStr)
         == Ok(())
    ensures AssertFnOkGtExprAsResult("example_digit_to_string", DigitToString, "a", 1, "b", "1", LexCmp, IntToString, DebugStr, DebugStr)
         == Err(FnOkGtExprDiagnostic("example_digit_to_string", "a", "1", "b", "\"1\"", "\"1\"", "\"1\""))
    ensures AssertFnOkGtExprAsResult("example_digit_to_string", DigitToString, "a", 1, "b", "2", LexCmp, IntToString, DebugStr, DebugStr)
         == Err(FnOkGtExprDiagnostic("example_digit_to_string", "a", "1", "b", "\"2\"", "\"1\"", "\"2\""))
  {
    SmallIntToString();
    QuotedDigits();
  }

  lemma DigitFunctionLine()
    ensures Line(" left_function label", "example_digit_to_string") == " left_function label: `example_digit_to_string`,\n"
  {
  }

  lemma FnOkGtExprEqDiagnosticText()
    ensures FnOkGtExprDiagnostic("example_digit_to_string", "a", "1", "b", "\"1\"", "\"1\"", "\"1\"") ==
      ShortHeader("assertion", "assert_fn_ok_gt", "left_function, left_input, right_expr")
      + " left_function label: `example_digit_to_string`,\n"
      + "    left_input label: `a`,\n" + "    left_input debug: `1`,\n"
      + "    right_expr label: `b`,\n" + "    right_expr debug: `\"1\"`,\n"
      + "                left: `\"1\"`,\n" + "               right: `\"1\"`"
  {
    DigitFunctionLine();
    assert Line("    left_input label", "a") == "    left_input label: `a`,\n";
    assert Line("    left_input debug", "1") == "    left_input debug: `1`,\n";
    assert Line("    right_expr label", "b") == "    right_expr label: `b`,\n";
    assert Line("    right_expr debug", "\"1\"") == "    right_expr debug: `\"1\"`,\n";
    assert Line("                left", "\"1\"") == "                left: `\"1\"`,\n";
    assert Last("               right", "\"1\"") == "               right: `\"1\"`";
  }

  lemma FnOkGtExprLtDiagnosticText()
    ensures FnOkGtExprDiagnostic("example_digit_to_string", "a", "1", "b", "\"2\"", "\"1\"", "\"2\"") ==
      ShortHeader("assertion", "assert_fn_ok_gt", "left_function, left_input, right_expr")
      + " left_function label: `example_digit_to_string`,\n"
      + "    left_input label: `a`,\n" + "    left_input debug: `1`,\n"
      + "    right_expr label: `b`,\n" + "    right_expr debug: `\"2\"`,\n"
      + "                left: `\"1\"`,\n" + "               right: `\"2\"`"
  {
    DigitFunctionLine();
    assert Line("    left_input label", "a") == "    left_input label: `a`,\n";
    assert Line("    left_input debug", "1") == "    left_input debug: `1`,\n";
    assert Line("    right_expr label", "b") == "    right_expr label: `b`,\n";
    assert Line("    right_expr debug", "\"2\"") == "    right_expr debug: `\"2\"`,\n";
    assert Line("                left", "\"1\"") == "                left: `\"1\"`,\n";
    assert Last("               right", "\"2\"") == "               right: `\"2\"`";
  }

  lemma FnOkGeExamples()
    ensures AssertFnOkGe(FromStr, "2", "1", IntCmp, DebugStr, IntToString, None) == Returned(())
    ensures AssertFnOkGe(FromStr, "1", "1", IntCmp, DebugStr, IntToString, None) == Returned(())
    ensures AssertFnOkGe(FromStr, "1", "2", IntCmp, DebugStr, IntToString, None)
         == Panicked(FnOkGeDiagnostic("\"1\"", "\"2\"", "1", "2"))
    ensures AssertFnOkGe(FromStr, "2", "1", IntCmp, DebugStr, IntToString, Some("message")) == Returned(())
    ensures AssertFnOkGe(FromStr, "1", "2", IntCmp, DebugStr, IntToString, Some("message")) == Panicked("\"message\"")
  {
    SmallIntToString();
    QuotedDigits();
    QuotedMessage();
  }

  lemma FnOkGeDiagnosticText()
    ensures FnOkGeDiagnostic("\"1\"", "\"2\"", "1", "2") ==
      PlainHeader("assertion", "assert_fn_ok_ge", "fn, left, right")
      + "  left input: `\"1\"`\n" + " right input: `\"2\"`\n"
      + "  left output: `1`\n" + " right output: `2`"
  {
    assert PlainLine("  left input", "\"1\"") == "  left input: `\"1\"`\n";
    assert PlainLine(" right input", "\"2\"") == " right input: `\"2\"`\n";
    assert PlainLine("  left output", "1") == "  left output: `1`\n";
    assert Last(" right output", "2") == " right output: `2`";
  }

  lemma ErrStringGeExamples()
    ensures AssumeFnErrStringGe(ErrOfInput, 2, 1, Same, IntToString, None) == Ok(true)
    ensures AssumeFnErrStringGe(ErrOfInput, 1, 1, Same, IntToString, None) == Ok(true)
    ensures AssumeFnErrStringGe(ErrOfInput, 1, 2, Same, IntToString, None) == Err(ErrStringGeDiagnostic("1", "2", "1", "2"))
    ensures AssumeFnErrStringGe(ErrOfInput, 2, 1, Same, IntToString, Some("message")) == Ok(true)
    ensures AssumeFnErrStringGe(ErrOfInput, 1, 2, Same, IntToString, Some("message")) == Err("message")
  {
    SmallIntToString();
  }

  lemma ErrStringGeDiagnosticText()
    ensures ErrStringGeDiagnostic("1", "2", "1", "2") ==
      PlainHeader("assumption", "assume_fn_err_string_ge", "fn, left, right")
      + "  left input: `1`\n" + " right input: `2`\n"
      + "  left output: `\"1\"`\n" + " right output: `\"2\"`"
  {
    QuotedDigits();
    assert PlainLine("  left input", "1") == "  left input: `1`\n";
    assert PlainLine(" right input", "2") == " right input: `2`\n";
    assert PlainLine("  left output", "\"1\"") == "  left output: `\"1\"`\n";
    assert Last(" right output", "\"2\"") == " right output: `\"2\"`";
  }
}
