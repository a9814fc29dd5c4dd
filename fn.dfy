/**
 * The function-output families: each calls one or two functions and
 * compares the outputs.  In arity 1 each function takes one input; in
 * arity 0 the functions take none.  Rust's `PartialOrd` on the outputs is a
 * comparison function `cmp`; the functions, the inputs and the renderings
 * are parameters.
 */
module Fn {
  import opened Outcome
  import opened Order
  import opened Render

  // ---------------------------------------------------------------------
  // assert_fn_le2

  function FnLe2Diagnostic(aFunction: string, aParamLabel: string, aParamDebug: string,
                           bFunction: string, bParamLabel: string, bParamDebug: string,
                           a: string, b: string): string {
    Header("assert_fn_le2", "a_function, a_param, b_function, b_param", "9.0.0")
    + Line(" a_function label", aFunction)
    + Line("    a_param label", aParamLabel)
    + Line("    a_param debug", aParamDebug)
    + Line(" b_function label", bFunction)
    + Line("    b_param label", bParamLabel)
    + Line("    b_param debug", bParamDebug)
    + Line("                a", a)
    + Last("                b", b)
  }

  function FnLe2Arity0Diagnostic(aFunction: string, bFunction: string, a: string, b: string): string {
    Header("assert_fn_le2", "a_function, b_function", "9.0.0")
    + Line(" a_function label", aFunction)
    + Line(" b_function label", bFunction)
    + Line("                a", a)
    + Last("                b", b)
  }

  /** `assert_fn_le2_as_result!(a_function, a_param, b_function, b_param)`: on success, both outputs. */
  function AssertFnLe2AsResult<A, B, Y>(aFunction: string, f: A -> Y, aParamLabel: string, x: A,
                                        bFunction: string, g: B -> Y, bParamLabel: string, y: B,
                                        cmp: (Y, Y) -> Ordering, showA: A -> string, showB: B -> string, showY: Y -> string)
    : (r: Result<(Y, Y), string>)
    ensures r.Ok? <==> Le(cmp, f(x), g(y))
    ensures r.Ok? ==> r.value == (f(x), g(y))
    ensures r.Err? ==> r.error == FnLe2Diagnostic(aFunction, aParamLabel, showA(x), bFunction, bParamLabel, showB(y),
                                                  showY(f(x)), showY(g(y)))
  {
    var a := f(x);
    var b := g(y);
    if Le(cmp, a, b) then Ok((a, b))
    else Err(FnLe2Diagnostic(aFunction, aParamLabel, showA(x), bFunction, bParamLabel, showB(y), showY(a), showY(b)))
  }

  /** `assert_fn_le2_as_result!(a_function, b_function)`. */
  function AssertFnLe2Arity0AsResult<Y>(aFunction: string, f: () -> Y, bFunction: string, g: () -> Y,
                                        cmp: (Y, Y) -> Ordering, showY: Y -> string): (r: Result<(Y, Y), string>)
    ensures r.Ok? <==> Le(cmp, f(), g())
    ensures r.Ok? ==> r.value == (f(), g())
    ensures r.Err? ==> r.error == FnLe2Arity0Diagnostic(aFunction, bFunction, showY(f()), showY(g()))
  {
    var a := f();
    var b := g();
    if Le(cmp, a, b) then Ok((a, b))
    else Err(FnLe2Arity0Diagnostic(aFunction, bFunction, showY(a), showY(b)))
  }

  /** `assert_fn_le2!(...)` in arity 1, with or without a custom message: evaluates to both outputs. */
  function AssertFnLe2<A, B, Y>(aFunction: string, f: A -> Y, aParamLabel: string, x: A,
                                bFunction: string, g: B -> Y, bParamLabel: string, y: B,
                                cmp: (Y, Y) -> Ordering, showA: A -> string, showB: B -> string, showY: Y -> string,
                                message: Option<string>): (o: Outcome<(Y, Y)>)
    ensures o.Returned? <==> Le(cmp, f(x), g(y))
    ensures o.Returned? ==> o.value == (f(x), g(y))
    ensures o.Panicked? ==> o.message == if message.Some? then message.value
                                         else FnLe2Diagnostic(aFunction, aParamLabel, showA(x), bFunction, bParamLabel, showB(y),
                                                              showY(f(x)), showY(g(y)))
  {
    Escalate(AssertFnLe2AsResult(aFunction, f, aParamLabel, x, bFunction, g, bParamLabel, y, cmp, showA, showB, showY), message)
  }

  /** `assert_fn_le2!(a_function, b_function)`, with or without a custom message. */
  function AssertFnLe2Arity0<Y>(aFunction: string, f: () -> Y, bFunction: string, g: () -> Y,
                                cmp: (Y, Y) -> Ordering, showY: Y -> string, message: Option<string>): (o: Outcome<(Y, Y)>)
    ensures o.Returned? <==> Le(cmp, f(), g())
    ensures o.Returned? ==> o.value == (f(), g())
    ensures o.Panicked? ==> o.message == if message.Some? then message.value
                                         else FnLe2Arity0Diagnostic(aFunction, bFunction, showY(f()), showY(g()))
  {
    Escalate(AssertFnLe2Arity0AsResult(aFunction, f, bFunction, g, cmp, showY), message)
  }

  /** Arity 0 is arity 1 with the inputs ignored: both accept the same outputs and return the same pair. */
  lemma FnLe2Arity0AgreesWithArity1<A, B, Y>(aFunction: string, f: () -> Y, bFunction: string, g: () -> Y,
                                             x: A, y: B, cmp: (Y, Y) -> Ordering,
                                             showA: A -> string, showB: B -> string, showY: Y -> string)
    ensures AssertFnLe2Arity0AsResult(aFunction, f, bFunction, g, cmp, showY).Ok?
        == AssertFnLe2AsResult(aFunction, (_: A) => f(), "", x, bFunction, (_: B) => g(), "", y, cmp, showA, showB, showY).Ok?
    ensures AssertFnLe2Arity0AsResult(aFunction, f, bFunction, g, cmp, showY).Ok? ==>
      AssertFnLe2Arity0AsResult(aFunction, f, bFunction, g, cmp, showY)
      == AssertFnLe2AsResult(aFunction, (_: A) => f(), "", x, bFunction, (_: B) => g(), "", y, cmp, showA, showB, showY)
  {
  }

  // ---------------------------------------------------------------------
  // assert_fn_ne

  function FnNeDiagnostic(aFunction: string, aInputLabel: string, aInputDebug: string,
                          bFunction: string, bInputLabel: string, bInputDebug: string,
                          left: string, right: string): string {
    ShortHeader("assertion", "assert_fn_ne", "left_function, left_input, right_function, right_input")
    + Line("  left_function label", aFunction)
    + Line("     left_input label", aInputLabel)
    + Line("     left_input debug", aInputDebug)
    + Line(" right_function label", bFunction)
    + Line("    right_input label", bInputLabel)
    + Line("    right_input debug", bInputDebug)
    + Line("                 left", left)
    + Last("                right", right)
  }

  function FnNeArity0Diagnostic(aFunction: string, bFunction: string, left: string, right: string): string {
    ShortHeader("assertion", "assert_fn_ne", "left_function, right_function")
    + Line("  left_function label", aFunction)
    + Line(" right_function label", bFunction)
    + Line("                 left", left)
    + Last("                right", right)
  }

  /** `assert_fn_ne_as_result!(left_function, left_input, right_function, right_input)`. */
  function AssertFnNeAsResult<A, B, Y(==)>(aFunction: string, f: A -> Y, aInputLabel: string, x: A,
                                           bFunction: string, g: B -> Y, bInputLabel: string, y: B,
                                           showA: A -> string, showB: B -> string, showY: Y -> string)
    : (r: Result<(), string>)
    ensures r.Ok? <==> f(x) != g(y)
    ensures r.Err? ==> r.error == FnNeDiagnostic(aFunction, aInputLabel, showA(x), bFunction, bInputLabel, showB(y),
                                                 showY(f(x)), showY(g(y)))
  {
    var aOutput := f(x);
    var bOutput := g(y);
    if aOutput != bOutput then Ok(())
    else Err(FnNeDiagnostic(aFunction, aInputLabel, showA(x), bFunction, bInputLabel, showB(y), showY(aOutput), showY(bOutput)))
  }

  /** `assert_fn_ne_as_result!(left_function, right_function)`. */
  function AssertFnNeArity0AsResult<Y(==)>(aFunction: string, f: () -> Y, bFunction: string, g: () -> Y, showY: Y -> string)
    : (r: Result<(), string>)
    ensures r.Ok? <==> f() != g()
    ensures r.Err? ==> r.error == FnNeArity0Diagnostic(aFunction, bFunction, showY(f()), showY(g()))
  {
    var aOutput := f();
    var bOutput := g();
    if aOutput != bOutput then Ok(())
    else Err(FnNeArity0Diagnostic(aFunction, bFunction, showY(aOutput), showY(bOutput)))
  }

  /**
   * `assert_fn_ne!(left_function, left_input, right_function, right_input)`,
   * with or without a custom message, as the arm is meant to behave.  The
   * macro as written lists its arity-0 arms first; see `Dispatch`.
   */
  function AssertFnNe<A, B, Y(==)>(aFunction: string, f: A -> Y, aInputLabel: string, x: A,
                                   bFunction: string, g: B -> Y, bInputLabel: string, y: B,
                                   showA: A -> string, showB: B -> string, showY: Y -> string,
                                   message: Option<string>): (o: Outcome<()>)
    ensures o.Returned? <==> f(x) != g(y)
    ensures o.Panicked? ==> o.message == if message.Some? then message.value
                                         else FnNeDiagnostic(aFunction, aInputLabel, showA(x), bFunction, bInputLabel, showB(y),
                                                             showY(f(x)), showY(g(y)))
  {
    Escalate(AssertFnNeAsResult(aFunction, f, aInputLabel, x, bFunction, g, bInputLabel, y, showA, showB, showY), message)
  }

  /** `assert_fn_ne!(left_function, right_function)`, with or without a custom message. */
  function AssertFnNeArity0<Y(==)>(aFunction: string, f: () -> Y, bFunction: string, g: () -> Y, showY: Y -> string,
                                   message: Option<string>): (o: Outcome<()>)
    ensures o.Returned? <==> f() != g()
    ensures o.Panicked? ==> o.message == if message.Some? then message.value
                                         else FnNeArity0Diagnostic(aFunction, bFunction, showY(f()), showY(g()))
  {
    Escalate(AssertFnNeArity0AsResult(aFunction, f, bFunction, g, showY), message)
  }

  /** `debug_assert_fn_ne!(...)` in arity 1. */
  function DebugAssertFnNe<A, B, Y(==)>(debugAssertions: bool, aFunction: string, f: A -> Y, aInputLabel: string, x: A,
                                        bFunction: string, g: B -> Y, bInputLabel: string, y: B,
                                        showA: A -> string, showB: B -> string, showY: Y -> string,
                                        message: Option<string>): (o: Outcome<()>)
    ensures !debugAssertions ==> o == Returned(())
    ensures debugAssertions ==> (o.Returned? <==> f(x) != g(y))
    ensures debugAssertions && o.Panicked? ==>
      o.message == if message.Some? then message.value
                   else FnNeDiagnostic(aFunction, aInputLabel, showA(x), bFunction, bInputLabel, showB(y), showY(f(x)), showY(g(y)))
  {
    Gate(debugAssertions, () => AssertFnNe(aFunction, f, aInputLabel, x, bFunction, g, bInputLabel, y, showA, showB, showY, message))
  }

  /** `debug_assert_fn_ne!(...)` in arity 0. */
  function DebugAssertFnNeArity0<Y(==)>(debugAssertions: bool, aFunction: string, f: () -> Y, bFunction: string, g: () -> Y,
                                        showY: Y -> string, message: Option<string>): (o: Outcome<()>)
    ensures !debugAssertions ==> o == Returned(())
    ensures debugAssertions ==> (o.Returned? <==> f() != g())
    ensures debugAssertions && o.Panicked? ==>
      o.message == if message.Some? then message.value else FnNeArity0Diagnostic(aFunction, bFunction, showY(f()), showY(g()))
  {
    Gate(debugAssertions, () => AssertFnNeArity0(aFunction, f, bFunction, g, showY, message))
  }

  /** Under a total order, outputs that `assert_fn_ne` rejects are equal, so `assert_fn_le2` accepts them. */
  lemma FnNeFailureImpliesLe2<A, B, Y(!new)>(aFunction: string, f: A -> Y, aLabel: string, x: A,
                                             bFunction: string, g: B -> Y, bLabel: string, y: B, cmp: (Y, Y) -> Ordering,
                                             showA: A -> string, showB: B -> string, showY: Y -> string)
    requires IsTotalOrder(cmp)
    requires AssertFnNeAsResult(aFunction, f, aLabel, x, bFunction, g, bLabel, y, showA, showB, showY).Err?
    ensures AssertFnLe2AsResult(aFunction, f, aLabel, x, bFunction, g, bLabel, y, cmp, showA, showB, showY) == Ok((f(x), f(x)))
  {
    assert cmp(f(x), g(y)) == Equal;
  }

  // ---------------------------------------------------------------------
  // assert_fn_le_other: one function, two inputs

  function FnLeOtherDiagnostic(pairFunction: string, aInputLabel: string, aInputDebug: string,
                               bInputLabel: string, bInputDebug: string, left: string, right: string): string {
    ShortHeader("assertion", "assert_fn_le_other", "pair_function, left_input, right_input")
    + Line(" pair_function label", pairFunction)
    + Line("    left_input label", aInputLabel)
    + Line("    left_input debug", aInputDebug)
    + Line("   right_input label", bInputLabel)
    + Line("   right_input debug", bInputDebug)
    + Line("                left", left)
    + Last("               right", right)
  }

  /** `assert_fn_le_other_as_result!(pair_function, left_input, right_input)`. */
  function AssertFnLeOtherAsResult<A, Y>(pairFunction: string, f: A -> Y, aInputLabel: string, x: A, bInputLabel: string, y: A,
                                         cmp: (Y, Y) -> Ordering, showA: A -> string, showY: Y -> string)
    : (r: Result<(), string>)
    ensures r.Ok? <==> Le(cmp, f(x), f(y))
    ensures r.Err? ==> r.error == FnLeOtherDiagnostic(pairFunction, aInputLabel, showA(x), bInputLabel, showA(y), showY(f(x)), showY(f(y)))
  {
    var aOutput := f(x);
    var bOutput := f(y);
    if Le(cmp, aOutput, bOutput) then Ok(())
    else Err(FnLeOtherDiagnostic(pairFunction, aInputLabel, showA(x), bInputLabel, showA(y), showY(aOutput), showY(bOutput)))
  }

  /** `assert_fn_le_other!(pair_function, left_input, right_input)`, with or without a custom message. */
  function AssertFnLeOther<A, Y>(pairFunction: string, f: A -> Y, aInputLabel: string, x: A, bInputLabel: string, y: A,
                                 cmp: (Y, Y) -> Ordering, showA: A -> string, showY: Y -> string,
                                 message: Option<string>): (o: Outcome<()>)
    ensures o.Returned? <==> Le(cmp, f(x), f(y))
    ensures o.Panicked? ==> o.message == if message.Some? then message.value
                                         else FnLeOtherDiagnostic(pairFunction, aInputLabel, showA(x), bInputLabel, showA(y),
                                                                  showY(f(x)), showY(f(y)))
  {
    Escalate(AssertFnLeOtherAsResult(pairFunction, f, aInputLabel, x, bInputLabel, y, cmp, showA, showY), message)
  }

  /** `assert_fn_le_other!(f, a, b)` passes exactly when `assert_fn_le2!(f, a, f, b)` does. */
  lemma FnLeOtherIsLe2WithOneFunction<A, Y>(pairFunction: string, f: A -> Y, aLabel: string, x: A, bLabel: string, y: A,
                                            cmp: (Y, Y) -> Ordering, showA: A -> string, showY: Y -> string)
    ensures AssertFnLeOtherAsResult(pairFunction, f, aLabel, x, bLabel, y, cmp, showA, showY).Ok?
        == AssertFnLe2AsResult(pairFunction, f, aLabel, x, pairFunction, f, bLabel, y, cmp, showA, showA, showY).Ok?
  {
  }

  // ---------------------------------------------------------------------
  // The test expectations

  /** `i8::abs` and `i32::abs` away from the type's minimum. */
  function Abs(i: int): int {
    if i < 0 then -i else i
  }

  function Identity(i: int): int {
    i
  }

  function One(): int {
    1
  }

  function Two(): int {
    2
  }

  lemma FnLe2Examples()
    ensures AssertFnLe2AsResult("f", Identity, "a", 1, "g", Identity, "b", 2, IntCmp, IntToString, IntToString, IntToString) == Ok((1, 2))
    ensures AssertFnLe2AsResult("f", Identity, "a", 1, "g", Identity, "b", 1, IntCmp, IntToString, IntToString, IntToString) == Ok((1, 1))
    ensures AssertFnLe2AsResult("f", Identity, "a", 2, "g", Identity, "b", 1, IntCmp, IntToString, IntToString, IntToString)
         == Err(FnLe2Diagnostic("f", "a", "2", "g", "b", "1", "2", "1"))
    ensures AssertFnLe2AsResult("i8::abs", Abs, "a", -2, "i8::abs", Abs, "b", 1, IntCmp, IntToString, IntToString, IntToString)
         == Err(FnLe2Diagnostic("i8::abs", "a", "-2", "i8::abs", "b", "1", "2", "1"))
  {
    SmallIntToString();
  }

  lemma FnLe2Arity0Examples()
    ensures AssertFnLe2Arity0AsResult("f", One, "g", Two, IntCmp, IntToString) == Ok((1, 2))
    ensures AssertFnLe2Arity0AsResult("f", One, "f", One, IntCmp, IntToString) == Ok((1, 1))
    ensures AssertFnLe2Arity0AsResult("g", Two, "f", One, IntCmp, IntToString) == Err(FnLe2Arity0Diagnostic("g", "f", "2", "1"))
  {
    SmallIntToString();
  }

  lemma FnLe2DiagnosticText()
    ensures FnLe2Diagnostic("i8::abs", "a", "-2", "i8::abs", "b", "1", "2", "1") ==
      Header("assert_fn_le2", "a_function, a_param, b_function, b_param", "9.0.0")
      + " a_function label: `i8::abs`,\n"
      + "    a_param label: `a`,\n"
      + "    a_param debug: `-2`,\n"
      + " b_function label: `i8::abs`,\n"
      + "    b_param label: `b`,\n"
      + "    b_param debug: `1`,\n"
      + "                a: `2`,\n"
      + "                b: `1`"
  {
    assert Line(" a_function label", "i8::abs") == " a_function label: `i8::abs`,\n";
    assert Line("    a_param label", "a") == "    a_param label: `a`,\n";
    assert Line("    a_param debug", "-2") == "    a_param debug: `-2`,\n";
    assert Line(" b_function label", "i8::abs") == " b_function label: `i8::abs`,\n";
    assert Line("    b_param label", "b") == "    b_param label: `b`,\n";
    assert Line("    b_param debug", "1") == "    b_param debug: `1`,\n";
    assert Line("                a", "2") == "                a: `2`,\n";
    assert Last("                b", "1") == "                b: `1`";
  }

  /** The text the arity-1 `test_gt` expects, for `f(2)` against `g(1)`. */
  lemma FnLe2GtDiagnosticText()
    ensures FnLe2Diagnostic("f", "a", "2", "g", "b", "1", "2", "1") ==
      Header("assert_fn_le2", "a_function, a_param, b_function, b_param", "9.0.0")
      + " a_function label: `f`,\n"
      + "    a_param label: `a`,\n"
      + "    a_param debug: `2`,\n"
      + " b_function label: `g`,\n"
      + "    b_param label: `b`,\n"
      + "    b_param debug: `1`,\n"
      + "                a: `2`,\n"
      + "                b: `1`"
  {
    assert Line(" a_function label", "f") == " a_function label: `f`,\n";
    assert Line("    a_param label", "a") == "    a_param label: `a`,\n";
    assert Line("    a_param debug", "2") == "    a_param debug: `2`,\n";
    assert Line(" b_function label", "g") == " b_function label: `g`,\n";
    assert Line("    b_param label", "b") == "    b_param label: `b`,\n";
    assert Line("    b_param debug", "1") == "    b_param debug: `1`,\n";
    assert Line("                a", "2") == "                a: `2`,\n";
    assert Last("                b", "1") == "                b: `1`";
  }

  lemma FnLe2Arity0DiagnosticText()
    ensures FnLe2Arity0Diagnostic("g", "f", "2", "1") ==
      Header("assert_fn_le2", "a_function, b_function", "9.0.0")
      + " a_function label: `g`,\n"
      + " b_function label: `f`,\n"
      + "                a: `2`,\n"
      + "                b: `1`"
  {
    assert Line(" a_function label", "g") == " a_function label: `g`,\n";
    assert Line(" b_function label", "f") == " b_function label: `f`,\n";
    assert Line("                a", "2") == "                a: `2`,\n";
    assert Last("                b", "1") == "                b: `1`";
  }

  lemma FnNeExamples()
    ensures AssertFnNeArity0AsResult("one", One, "two", Two, IntToString) == Ok(())
    ensures AssertFnNeArity0AsResult("one", One, "one", One, IntToString) == Err(FnNeArity0Diagnostic("one", "one", "1", "1"))
    ensures AssertFnNeAsResult("i32::abs", Abs, "a", -1, "i32::abs", Abs, "b", 2, IntToString, IntToString, IntToString) == Ok(())
    ensures AssertFnNeAsResult("i32::abs", Abs, "a", -1, "i32::abs", Abs, "b", 1, IntToString, IntToString, IntToString)
         == Err(FnNeDiagnostic("i32::abs", "a", "-1", "i32::abs", "b", "1", "1", "1"))
  {
    SmallIntToString();
  }

  lemma FnNeArity0DiagnosticText()
    ensures FnNeArity0Diagnostic("one", "one", "1", "1") ==
      ShortHeader("assertion", "assert_fn_ne", "left_function, right_function")
      + "  left_function label: `one`,\n"
      + " right_function label: `one`,\n"
      + "                 left: `1`,\n"
      + "                right: `1`"
  {
    assert Line("  left_function label", "one") == "  left_function label: `one`,\n";
    assert Line(" right_function label", "one") == " right_function label: `one`,\n";
    assert Line("                 left", "1") == "                 left: `1`,\n";
    assert Last("                right", "1") == "                right: `1`";
  }

  lemma FnNeDiagnosticText()
    ensures FnNeDiagnostic("i32::abs", "a", "-1", "i32::abs", "b", "1", "1", "1") ==
      ShortHeader("assertion", "assert_fn_ne", "left_function, left_input, right_function, right_input")
      + "  left_function label: `i32::abs`,\n"
      + "     left_input label: `a`,\n"
      + "     left_input debug: `-1`,\n"
      + " right_function label: `i32::abs`,\n"
      + "    right_input label: `b`,\n"
      + "    right_input debug: `1`,\n"
      + "                 left: `1`,\n"
      + "                right: `1`"
  {
    assert Line("  left_function label", "i32::abs") == "  left_function label: `i32::abs`,\n";
    assert Line("     left_input label", "a") == "     left_input label: `a`,\n";
    assert Line("     left_input debug", "-1") == "     left_input debug: `-1`,\n";
    assert Line(" right_function label", "i32::abs") == " right_function label: `i32::abs`,\n";
    assert Line("    right_input label", "b") == "    right_input label: `b`,\n";
    assert Line("    right_input debug", "1") == "    right_input debug: `1`,\n";
    assert Line("                 left", "1") == "                 left: `1`,\n";
    assert Last("                right", "1") == "                right: `1`";
  }

  lemma FnLeOtherExamples()
    ensures AssertFnLeOtherAsResult("i32::abs", Abs, "a", 1, "b", -2, IntCmp, IntToString, IntToString) == Ok(())
    ensures AssertFnLeOtherAsResult("i32::abs", Abs, "a", 1, "b", -1, IntCmp, IntToString, IntToString) == Ok(())
    ensures AssertFnLeOtherAsResult("i32::abs", Abs, "a", -2, "b", 1, IntCmp, IntToString, IntToString)
         == Err(FnLeOtherDiagnostic("i32::abs", "a", "-2", "b", "1", "2", "1"))
  {
    SmallIntToString();
  }

  lemma FnLeOtherDiagnosticText()
    ensures FnLeOtherDiagnostic("i32::abs", "a", "-2", "b", "1", "2", "1") ==
      ShortHeader("assertion", "assert_fn_le_other", "pair_function, left_input, right_input")
      + " pair_function label: `i32::abs`,\n"
      + "    left_input label: `a`,\n"
      + "    left_input debug: `-2`,\n"
      + "   right_input label: `b`,\n"
      + "   right_input debug: `1`,\n"
      + "                left: `2`,\n"
      + "               right: `1`"
  {
    assert Line(" pair_function label", "i32::abs") == " pair_function label: `i32::abs`,\n";
    assert Line("    left_input label", "a") == "    left_input label: `a`,\n";
    assert Line("    left_input debug", "-2") == "    left_input debug: `-2`,\n";
    assert Line("   right_input label", "b") == "   right_input label: `b`,\n";
    assert Line("   right_input debug", "1") == "   right_input debug: `1`,\n";
    assert Line("                left", "2") == "                left: `2`,\n";
    assert Last("               right", "1") == "               right: `1`";
  }
}
