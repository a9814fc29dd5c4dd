/**
 * The oldest function-output macros: one function applied to two inputs,
 * the outputs compared.  They have no `*_as_result` tier: `assert_f_le`,
 * `assert_fn_le` and `assert_fn_ge` panic directly, and `assertable_f_ne`
 * returns a `Result` directly.  Their custom-message arm differs from the
 * modern one: the panicking forms panic with `{:?}` of the message (so a
 * string message appears quoted), and `assertable_f_ne` returns the message
 * itself as the error.  The function field of the diagnostic is
 * `{:?}` of `stringify!(function)`, so it too appears quoted.
 */
module FnLegacy {
  import opened Outcome
  import opened Order
  import opened Render

  /**
   * The diagnostic of `assert_f_le` and `assert_fn_le`, which have a function
   * field: `functionDebug` is `{:?}` of the function's name.
   */
  function FunctionDiagnostic(header: string, functionDebug: string, leftInput: string, rightInput: string,
                              leftOutput: string, rightOutput: string): string {
    header
    + Line("     function", functionDebug)
    + Line("   left input", leftInput)
    + Line("  right input", rightInput)
    + Line("  left output", leftOutput)
    + Last(" right output", rightOutput)
  }

  // ---------------------------------------------------------------------
  // assert_f_le

  function FLeHeader(): string {
    ShortHeader("assertion", "assert_f_le", "function, left, right")
  }

  /** `assert_f_le!(function, left, right)` and `assert_f_le!(function, left, right, message)`. */
  function AssertFLe<A, Y>(functionLabel: string, f: A -> Y, left: A, right: A,
                           cmp: (Y, Y) -> Ordering, showA: A -> string, showY: Y -> string,
                           message: Option<string>): (o: Outcome<()>)
    ensures o.Returned? <==> Le(cmp, f(left), f(right))
    ensures o.Panicked? ==> o.message == DebugPanic(message,
      FunctionDiagnostic(FLeHeader(), DebugStr(functionLabel), showA(left), showA(right), showY(f(left)), showY(f(right))))
  {
    var leftOutput := f(left);
    var rightOutput := f(right);
    if Le(cmp, leftOutput, rightOutput) then Returned(())
    else if message.Some? then Panicked(DebugStr(message.value))
    else Panicked(FunctionDiagnostic(FLeHeader(), DebugStr(functionLabel), showA(left), showA(right), showY(leftOutput), showY(rightOutput)))
  }

  // ---------------------------------------------------------------------
  // assert_fn_le

  function FnLeHeader(): string {
    ShortHeader("assertion", "assert_fn_le", "function, left, right")
  }

  /** `assert_fn_le!(function, a, b)` and `assert_fn_le!(function, a, b, message)`. */
  function AssertFnLe<A, Y>(functionLabel: string, f: A -> Y, a: A, b: A,
                            cmp: (Y, Y) -> Ordering, showA: A -> string, showY: Y -> string,
                            message: Option<string>): (o: Outcome<()>)
    ensures o.Returned? <==> Le(cmp, f(a), f(b))
    ensures o.Panicked? ==> o.message == DebugPanic(message,
      FunctionDiagnostic(FnLeHeader(), DebugStr(functionLabel), showA(a), showA(b), showY(f(a)), showY(f(b))))
  {
    var aOutput := f(a);
    var bOutput := f(b);
    if Le(cmp, aOutput, bOutput) then Returned(())
    else if message.Some? then Panicked(DebugStr(message.value))
    else Panicked(FunctionDiagnostic(FnLeHeader(), DebugStr(functionLabel), showA(a), showA(b), showY(aOutput), showY(bOutput)))
  }

  /** The two spellings decide alike; with a custom message they are indistinguishable. */
  lemma FLeAgreesWithFnLe<A, Y>(functionLabel: string, f: A -> Y, left: A, right: A,
                                cmp: (Y, Y) -> Ordering, showA: A -> string, showY: Y -> string, message: Option<string>)
    ensures AssertFLe(functionLabel, f, left, right, cmp, showA, showY, message).Returned?
        == AssertFnLe(functionLabel, f, left, right, cmp, showA, showY, message).Returned?
    ensures message.Some? ==>
      AssertFLe(functionLabel, f, left, right, cmp, showA, showY, message)
      == AssertFnLe(functionLabel, f, left, right, cmp, showA, showY, message)
  {
  }

  // ---------------------------------------------------------------------
  // assert_fn_ge

  function FnGeDiagnostic(leftInput: string, rightInput: string, leftOutput: string, rightOutput: string): string {
    ShortHeader("assertion", "assert_fn_ge", "fn, left, right")
    + Line("   left input", leftInput)
    + Line("  right input", rightInput)
    + Line("  left output", leftOutput)
    + Last(" right output", rightOutput)
  }

  /** `assert_fn_ge!(function, left, right)` and `assert_fn_ge!(function, left, right, message)`. */
  function AssertFnGe<A, Y>(f: A -> Y, left: A, right: A, cmp: (Y, Y) -> Ordering,
                            showA: A -> string, showY: Y -> string, message: Option<string>): (o: Outcome<()>)
    ensures o.Returned? <==> Ge(cmp, f(left), f(right))
    ensures o.Panicked? ==> o.message == DebugPanic(message,
      FnGeDiagnostic(showA(left), showA(right), showY(f(left)), showY(f(right))))
  {
    var leftOutput := f(left);
    var rightOutput := f(right);
    if Ge(cmp, leftOutput, rightOutput) then Returned(())
    else if message.Some? then Panicked(DebugStr(message.value))
    else Panicked(FnGeDiagnostic(showA(left), showA(right), showY(leftOutput), showY(rightOutput)))
  }

  /** Under a total order, `assert_fn_ge!(f, a, b)` passes exactly when `assert_fn_le!(f, b, a)` does. */
  lemma FnGeIsFnLeSwapped<A, Y(!new)>(functionLabel: string, f: A -> Y, a: A, b: A, cmp: (Y, Y) -> Ordering,
                                      showA: A -> string, showY: Y -> string, message: Option<string>)
    requires IsTotalOrder(cmp)
    ensures AssertFnGe(f, a, b, cmp, showA, showY, message).Returned?
        == AssertFnLe(functionLabel, f, b, a, cmp, showA, showY, message).Returned?
  {
    Converse(cmp, f(a), f(b));
  }

  /** Under a total order, of `assert_fn_le!(f, a, b)` and `assert_fn_ge!(f, a, b)` at least one passes. */
  lemma FnLeOrFnGe<A, Y(!new)>(functionLabel: string, f: A -> Y, a: A, b: A, cmp: (Y, Y) -> Ordering,
                               showA: A -> string, showY: Y -> string, message: Option<string>)
    requires IsTotalOrder(cmp)
    ensures AssertFnLe(functionLabel, f, a, b, cmp, showA, showY, message).Returned?
         || AssertFnGe(f, a, b, cmp, showA, showY, message).Returned?
  {
    assert cmp(f(a), f(b)) == Less ==> cmp(f(b), f(a)) == Greater;
  }

  // ---------------------------------------------------------------------
  // assertable_f_ne

  function FNeDiagnostic(leftInput: string, rightInput: string, leftOutput: string, rightOutput: string): string {
    ShortHeader("assertable", "assertable_f_ne", "function, left, right")
    + Line("   left input", leftInput)
    + Line("  right input", rightInput)
    + Line("  left output", leftOutput)
    + Last(" right output", rightOutput)
  }

  /** `assertable_f_ne!(function, left, right)` and `assertable_f_ne!(function, left, right, message)`. */
  function AssertableFNe<A, Y(==)>(f: A -> Y, left: A, right: A, showA: A -> string, showY: Y -> string,
                                   message: Option<string>): (r: Result<(), string>)
    ensures r.Ok? <==> f(left) != f(right)
    ensures r.Err? && message.Some? ==> r.error == message.value
    ensures r.Err? && message.None? ==>
      r.error == FNeDiagnostic(showA(left), showA(right), showY(f(left)), showY(f(right)))
  {
    var leftOutput := f(left);
    var rightOutput := f(right);
    if leftOutput != rightOutput then Ok(())
    else if message.Some? then Err(message.value)
    else Err(FNeDiagnostic(showA(left), showA(right), showY(leftOutput), showY(rightOutput)))
  }

  /** Under a total order, `assertable_f_ne` fails exactly when both `assert_fn_le` and `assert_fn_ge` pass. */
  lemma FNeFailsIffLeAndGe<A, Y(!new)>(functionLabel: string, f: A -> Y, left: A, right: A, cmp: (Y, Y) -> Ordering,
                                        showA: A -> string, showY: Y -> string, message: Option<string>)
    requires IsTotalOrder(cmp)
    ensures AssertableFNe(f, left, right, showA, showY, message).Err?
        <==> (AssertFnLe(functionLabel, f, left, right, cmp, showA, showY, message).Returned?
              && AssertFnGe(f, left, right, cmp, showA, showY, message).Returned?)
  {
    GeIsGtOrEq(cmp, f(left), f(right));
  }

  // ---------------------------------------------------------------------
  // The test expectations, with `i32::abs` on small inputs

  function Abs(i: int): int {
    if i < 0 then -i else i
  }

  /** `{:?}` of the test's `stringify!(i32::abs)`. */
  lemma QuotedFunction()
    ensures DebugStr("i32::abs") == "\"i32::abs\""
  {
    assert forall i :: 0 <= i < |"i32::abs"| ==> !Special("i32::abs"[i]);
    DebugStrOfPlain("i32::abs");
  }

  lemma FLeExamples()
    ensures AssertFLe("i32::abs", Abs, 1, -2, IntCmp, IntToString, IntToString, None) == Returned(())
    ensures AssertFLe("i32::abs", Abs, 1, -1, IntCmp, IntToString, IntToString, None) == Returned(())
    ensures AssertFLe("i32::abs", Abs, -2, 1, IntCmp, IntToString, IntToString, None)
         == Panicked(FunctionDiagnostic(FLeHeader(), "\"i32::abs\"", "-2", "1", "2", "1"))
    ensures AssertFLe("i32::abs", Abs, -2, 1, IntCmp, IntToString, IntToString, Some("message")) == Panicked("\"message\"")
  {
    SmallIntToString();
    QuotedFunction();
    QuotedMessage();
  }

  lemma FLeDiagnosticText()
    ensures FunctionDiagnostic(FLeHeader(), "\"i32::abs\"", "-2", "1", "2", "1") ==
      ShortHeader("assertion", "assert_f_le", "function, left, right")
      + "     function: `\"i32::abs\"`,\n" + "   left input: `-2`,\n" + "  right input: `1`,\n"
      + "  left output: `2`,\n" + " right output: `1`"
  {
    assert Line("     function", "\"i32::abs\"") == "     function: `\"i32::abs\"`,\n";
    assert Line("   left input", "-2") == "   left input: `-2`,\n";
    assert Line("  right input", "1") == "  right input: `1`,\n";
    assert Line("  left output", "2") == "  left output: `2`,\n";
    assert Last(" right output", "1") == " right output: `1`";
  }

  lemma FnLeExamples()
    ensures AssertFnLe("i32::abs", Abs, 1, -2, IntCmp, IntToString, IntToString, None) == Returned(())
    ensures AssertFnLe("i32::abs", Abs, 1, -1, IntCmp, IntToString, IntToString, Some("message")) == Returned(())
    ensures AssertFnLe("i32::abs", Abs, -2, 1, IntCmp, IntToString, IntToString, None)
         == Panicked(FunctionDiagnostic(FnLeHeader(), "\"i32::abs\"", "-2", "1", "2", "1"))
    ensures AssertFnLe("i32::abs", Abs, -2, 1, IntCmp, IntToString, IntToString, Some("message")) == Panicked("\"message\"")
  {
    SmallIntToString();
    QuotedFunction();
    QuotedMessage();
  }

  lemma FnLeDiagnosticText()
    ensures FunctionDiagnostic(FnLeHeader(), "\"i32::abs\"", "-2", "1", "2", "1") ==
      ShortHeader("assertion", "assert_fn_le", "function, left, right")
      + "     function: `\"i32::abs\"`,\n" + "   left input: `-2`,\n" + "  right input: `1`,\n"
      + "  left output: `2`,\n" + " right output: `1`"
  {
    assert Line("     function", "\"i32::abs\"") == "     function: `\"i32::abs\"`,\n";
    assert Line("   left input", "-2") == "   left input: `-2`,\n";
    assert Line("  right input", "1") == "  right input: `1`,\n";
    assert Line("  left output", "2") == "  left output: `2`,\n";
    assert Last(" right output", "1") == " right output: `1`";
  }

  lemma FnGeExamples()
    ensures AssertFnGe(Abs, -2, 1, IntCmp, IntToString, IntToString, None) == Returned(())
    ensures AssertFnGe(Abs, 1, -1, IntCmp, IntToString, IntToString, Some("message")) == Returned(())
    ensures AssertFnGe(Abs, 1, -2, IntCmp, IntToString, IntToString, None) == Panicked(FnGeDiagnostic("1", "-2", "1", "2"))
    ensures AssertFnGe(Abs, 1, -2, IntCmp, IntToString, IntToString, Some("message")) == Panicked("\"message\"")
  {
    SmallIntToString();
    QuotedMessage();
  }

  lemma FnGeDiagnosticText()
    ensures FnGeDiagnostic("1", "-2", "1", "2") ==
      ShortHeader("assertion", "assert_fn_ge", "fn, left, right")
      + "   left input: `1`,\n" + "  right input: `-2`,\n" + "  left output: `1`,\n" + " right output: `2`"
  {
    assert Line("   left input", "1") == "   left input: `1`,\n";
    assert Line("  right input", "-2") == "  right input: `-2`,\n";
    assert Line("  left output", "1") == "  left output: `1`,\n";
    assert Last(" right output", "2") == " right output: `2`";
  }

  lemma FNeExamples()
    ensures AssertableFNe(Abs, 1, -2, IntToString, IntToString, None) == Ok(())
    ensures AssertableFNe(Abs, 1, -1, IntToString, IntToString, None) == Err(FNeDiagnostic("1", "-1", "1", "1"))
    ensures AssertableFNe(Abs, 1, -2, IntToString, IntToString, Some("message")) == Ok(())
    ensures AssertableFNe(Abs, 1, -1, IntToString, IntToString, Some("message")) == Err("message")
  {
    SmallIntToString();
  }

  lemma FNeDiagnosticText()
    ensures FNeDiagnostic("1", "-1", "1", "1") ==
      ShortHeader("assertable", "assertable_f_ne", "function, left, right")
      + "   left input: `1`,\n" + "  right input: `-1`,\n" + "  left output: `1`,\n" + " right output: `1`"
  {
    assert Line("   left input", "1") == "   left input: `1`,\n";
    assert Line("  right input", "-1") == "  right input: `-1`,\n";
    assert Line("  left output", "1") == "  left output: `1`,\n";
    assert Last(" right output", "1") == " right output: `1`";
  }
}
