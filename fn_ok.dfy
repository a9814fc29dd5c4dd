/**
 * The function-`Ok` families: each calls two functions returning `Result`,
 * requires both results to be `Ok`, and then compares the two payloads.  A
 * result that is not `Ok` gives a diagnostic showing both whole results,
 * under a header that names the `assert_fn_err_*` macro (as the source
 * writes it); a wrong comparison gives the diagnostic showing the payloads.
 * In arity 1 each function takes one parameter; in arity 0 none.
 */
module FnOk {
  import opened Outcome
  import opened Order
  import opened Render
  import opened Results

  predicate BothOk<Y, E>(a: Result<Y, E>, b: Result<Y, E>) {
    a.Ok? && b.Ok?
  }

  /** The fields of arity 1 in `assert_fn_ok_ne2` and `assert_fn_ok_ne`. */
  function ParamDiagnostic(header: string, aFunction: string, aParamLabel: string, aParamDebug: string,
                           bFunction: string, bParamLabel: string, bParamDebug: string, a: string, b: string): string {
    header
    + Line(" a_function label", aFunction)
    + Line("    a_param label", aParamLabel)
    + Line("    a_param debug", aParamDebug)
    + Line(" b_function label", bFunction)
    + Line("    b_param label", bParamLabel)
    + Line("    b_param debug", bParamDebug)
    + Line("                a", a)
    + Last("                b", b)
  }

  /** The fields of arity 0 in `assert_fn_ok_ne2` and `assert_fn_ok_ne`. */
  function FunctionsDiagnostic(header: string, aFunction: string, bFunction: string, a: string, b: string): string {
    header
    + Line(" a_function label", aFunction)
    + Line(" b_function label", bFunction)
    + Line("                a", a)
    + Last("                b", b)
  }

  /** The fields of arity 1 in `assert_fn_ok_gt`. */
  function LeftRightDiagnostic(header: string, aFunction: string, aParamLabel: string, aParamDebug: string,
                               bFunction: string, bParamLabel: string, bParamDebug: string, left: string, right: string): string {
    header
    + Line("  left_function label", aFunction)
    + Line("     left_param label", aParamLabel)
    + Line("     left_param debug", aParamDebug)
    + Line(" right_function label", bFunction)
    + Line("    right_param label", bParamLabel)
    + Line("    right_param debug", bParamDebug)
    + Line("                 left", left)
    + Last("                right", right)
  }

  /** The fields of arity 0 in `assert_fn_ok_gt`. */
  function LeftRightFunctionsDiagnostic(header: string, aFunction: string, bFunction: string, left: string, right: string): string {
    header
    + Line("  left_function label", aFunction)
    + Line(" right_function label", bFunction)
    + Line("                 left", left)
    + Last("                right", right)
  }

  // ---------------------------------------------------------------------
  // assert_fn_ok_ne2

  function FnOkNe2Header(): string {
    Header("assert_fn_ok_ne2", "a_function, a_param, b_function, b_param", "9.0.0")
  }

  function FnErrNe2Header(): string {
    Header("assert_fn_err_ne2", "a_function, a_param, b_function, b_param", "9.0.0")
  }

  function FnOkNe2Arity0Header(): string {
    Header("assert_fn_ok_ne2", "a_function, b_function", "9.0.0")
  }

  function FnErrNe2Arity0Header(): string {
    Header("assert_fn_err_ne2", "a_function, b_function", "9.0.0")
  }

  /** `assert_fn_ok_ne2_as_result!(a_function, a_param, b_function, b_param)`: on success, both payloads. */
  function AssertFnOkNe2AsResult<A, B, Y(==), E>(aFunction: string, f: A -> Result<Y, E>, aParamLabel: string, x: A,
                                                 bFunction: string, g: B -> Result<Y, E>, bParamLabel: string, y: B,
                                                 showA: A -> string, showB: B -> string, showY: Y -> string, showE: E -> string)
    : (r: Result<(Y, Y), string>)
    ensures r.Ok? <==> BothOk(f(x), g(y)) && f(x).value != g(y).value
    ensures r.Ok? ==> r.value == (f(x).value, g(y).value)
    ensures BothOk(f(x), g(y)) && f(x).value == g(y).value ==>
      r == Err(ParamDiagnostic(FnOkNe2Header(), aFunction, aParamLabel, showA(x), bFunction, bParamLabel, showB(y),
                               showY(f(x).value), showY(g(y).value)))
    ensures !BothOk(f(x), g(y)) ==>
      r == Err(ParamDiagnostic(FnErrNe2Header(), aFunction, aParamLabel, showA(x), bFunction, bParamLabel, showB(y),
                               ResultDebug(showY, showE, f(x)), ResultDebug(showY, showE, g(y))))
  {
    match (f(x), g(y))
    case (Ok(a), Ok(b)) =>
      if a != b then Ok((a, b))
      else Err(ParamDiagnostic(FnOkNe2Header(), aFunction, aParamLabel, showA(x), bFunction, bParamLabel, showB(y), showY(a), showY(b)))
    case (a, b) =>
      Err(ParamDiagnostic(FnErrNe2Header(), aFunction, aParamLabel, showA(x), bFunction, bParamLabel, showB(y),
                          ResultDebug(showY, showE, a), ResultDebug(showY, showE, b)))
  }

  /** `assert_fn_ok_ne2_as_result!(a_function, b_function)`. */
  function AssertFnOkNe2Arity0AsResult<Y(==), E>(aFunction: string, f: () -> Result<Y, E>, bFunction: string, g: () -> Result<Y, E>,
                                                 showY: Y -> string, showE: E -> string): (r: Result<(Y, Y), string>)
    ensures r.Ok? <==> BothOk(f(), g()) && f().value != g().value
    ensures r.Ok? ==> r.value == (f().value, g().value)
    ensures BothOk(f(), g()) && f().value == g().value ==>
      r == Err(FunctionsDiagnostic(FnOkNe2Arity0Header(), aFunction, bFunction, showY(f().value), showY(g().value)))
    ensures !BothOk(f(), g()) ==>
      r == Err(FunctionsDiagnostic(FnErrNe2Arity0Header(), aFunction, bFunction, ResultDebug(showY, showE, f()), ResultDebug(showY, showE, g())))
  {
    match (f(), g())
    case (Ok(a), Ok(b)) =>
      if a != b then Ok((a, b))
      else Err(FunctionsDiagnostic(FnOkNe2Arity0Header(), aFunction, bFunction, showY(a), showY(b)))
    case (a, b) =>
      Err(FunctionsDiagnostic(FnErrNe2Arity0Header(), aFunction, bFunction, ResultDebug(showY, showE, a), ResultDebug(showY, showE, b)))
  }

  /** `assert_fn_ok_ne2!(...)` in arity 1, with or without a custom message: evaluates to both payloads. */
  function AssertFnOkNe2<A, B, Y(==), E>(aFunction: string, f: A -> Result<Y, E>, aParamLabel: string, x: A,
                                         bFunction: string, g: B -> Result<Y, E>, bParamLabel: string, y: B,
                                         showA: A -> string, showB: B -> string, showY: Y -> string, showE: E -> string,
                                         message: Option<string>): (o: Outcome<(Y, Y)>)
    ensures o.Returned? <==> BothOk(f(x), g(y)) && f(x).value != g(y).value
    ensures o.Returned? ==> o.value == (f(x).value, g(y).value)
    ensures o.Panicked? ==> o.message == if message.Some? then message.value
      else AssertFnOkNe2AsResult(aFunction, f, aParamLabel, x, bFunction, g, bParamLabel, y, showA, showB, showY, showE).error
  {
    Escalate(AssertFnOkNe2AsResult(aFunction, f, aParamLabel, x, bFunction, g, bParamLabel, y, showA, showB, showY, showE), message)
  }

  /** `assert_fn_ok_ne2!(a_function, b_function)`, with or without a custom message. */
  function AssertFnOkNe2Arity0<Y(==), E>(aFunction: string, f: () -> Result<Y, E>, bFunction: string, g: () -> Result<Y, E>,
                                         showY: Y -> string, showE: E -> string, message: Option<string>): (o: Outcome<(Y, Y)>)
    ensures o.Returned? <==> BothOk(f(), g()) && f().value != g().value
    ensures o.Returned? ==> o.value == (f().value, g().value)
    ensures o.Panicked? ==> o.message == if message.Some? then message.value
      else AssertFnOkNe2Arity0AsResult(aFunction, f, bFunction, g, showY, showE).error
  {
    Escalate(AssertFnOkNe2Arity0AsResult(aFunction, f, bFunction, g, showY, showE), message)
  }

  // ---------------------------------------------------------------------
  // assert_fn_ok_ne (its URL carries the crate's version, a parameter here)

  function FnOkNeHeader(version: string): string {
    Header("assert_fn_ok_ne", "a_function, a_param, b_function, b_param", version)
  }

  function FnErrNeHeader(version: string): string {
    Header("assert_fn_err_ne", "a_function, a_param, b_function, b_param", version)
  }

  function FnOkNeArity0Header(version: string): string {
    Header("assert_fn_ok_ne", "a_function, b_function", version)
  }

  function FnErrNeArity0Header(version: string): string {
    Header("assert_fn_err_ne", "a_function, b_function", version)
  }

  /** `assert_fn_ok_ne_as_result!(a_function, a_param, b_function, b_param)`. */
  function AssertFnOkNeAsResult<A, B, Y(==), E>(version: string, aFunction: string, f: A -> Result<Y, E>, aParamLabel: string, x: A,
                                                bFunction: string, g: B -> Result<Y, E>, bParamLabel: string, y: B,
                                                showA: A -> string, showB: B -> string, showY: Y -> string, showE: E -> string)
    : (r: Result<(), string>)
    ensures r.Ok? <==> BothOk(f(x), g(y)) && f(x).value != g(y).value
    ensures BothOk(f(x), g(y)) && f(x).value == g(y).value ==>
      r == Err(ParamDiagnostic(FnOkNeHeader(version), aFunction, aParamLabel, showA(x), bFunction, bParamLabel, showB(y),
                               showY(f(x).value), showY(g(y).value)))
    ensures !BothOk(f(x), g(y)) ==>
      r == Err(ParamDiagnostic(FnErrNeHeader(version), aFunction, aParamLabel, showA(x), bFunction, bParamLabel, showB(y),
                               ResultDebug(showY, showE, f(x)), ResultDebug(showY, showE, g(y))))
  {
    var aResult := f(x);
    var bResult := g(y);
    if !aResult.Ok? || !bResult.Ok? then
      Err(ParamDiagnostic(FnErrNeHeader(version), aFunction, aParamLabel, showA(x), bFunction, bParamLabel, showB(y),
                          ResultDebug(showY, showE, aResult), ResultDebug(showY, showE, bResult)))
    else
      var aOk := aResult.value;
      var bOk := bResult.value;
      if aOk != bOk then Ok(())
      else Err(ParamDiagnostic(FnOkNeHeader(version), aFunction, aParamLabel, showA(x), bFunction, bParamLabel, showB(y), showY(aOk), showY(bOk)))
  }

  /** `assert_fn_ok_ne_as_result!(a_function, b_function)`. */
  function AssertFnOkNeArity0AsResult<Y(==), E>(version: string, aFunction: string, f: () -> Result<Y, E>,
                                                bFunction: string, g: () -> Result<Y, E>,
                                                showY: Y -> string, showE: E -> string): (r: Result<(), string>)
    ensures r.Ok? <==> BothOk(f(), g()) && f().value != g().value
    ensures BothOk(f(), g()) && f().value == g().value ==>
      r == Err(FunctionsDiagnostic(FnOkNeArity0Header(version), aFunction, bFunction, showY(f().value), showY(g().value)))
    ensures !BothOk(f(), g()) ==>
      r == Err(FunctionsDiagnostic(FnErrNeArity0Header(version), aFunction, bFunction,
                                   ResultDebug(showY, showE, f()), ResultDebug(showY, showE, g())))
  {
    var aResult := f();
    var bResult := g();
    if !aResult.Ok? || !bResult.Ok? then
      Err(FunctionsDiagnostic(FnErrNeArity0Header(version), aFunction, bFunction,
                              ResultDebug(showY, showE, aResult), ResultDebug(showY, showE, bResult)))
    else
      var aOk := aResult.value;
      var bOk := bResult.value;
      if aOk != bOk then Ok(())
      else Err(FunctionsDiagnostic(FnOkNeArity0Header(version), aFunction, bFunction, showY(aOk), showY(bOk)))
  }

  /** `assert_fn_ok_ne!(...)` in arity 1, with or without a custom message. */
  function AssertFnOkNe<A, B, Y(==), E>(version: string, aFunction: string, f: A -> Result<Y, E>, aParamLabel: string, x: A,
                                        bFunction: string, g: B -> Result<Y, E>, bParamLabel: string, y: B,
                                        showA: A -> string, showB: B -> string, showY: Y -> string, showE: E -> string,
                                        message: Option<string>): (o: Outcome<()>)
    ensures o.Returned? <==> BothOk(f(x), g(y)) && f(x).value != g(y).value
    ensures o.Panicked? ==> o.message == if message.Some? then message.value
      else AssertFnOkNeAsResult(version, aFunction, f, aParamLabel, x, bFunction, g, bParamLabel, y, showA, showB, showY, showE).error
  {
    Escalate(AssertFnOkNeAsResult(version, aFunction, f, aParamLabel, x, bFunction, g, bParamLabel, y, showA, showB, showY, showE), message)
  }

  /** `assert_fn_ok_ne!(a_function, b_function)`, with or without a custom message. */
  function AssertFnOkNeArity0<Y(==), E>(version: string, aFunction: string, f: () -> Result<Y, E>,
                                        bFunction: string, g: () -> Result<Y, E>,
                                        showY: Y -> string, showE: E -> string, message: Option<string>): (o: Outcome<()>)
    ensures o.Returned? <==> BothOk(f(), g()) && f().value != g().value
    ensures o.Panicked? ==> o.message == if message.Some? then message.value
      else AssertFnOkNeArity0AsResult(version, aFunction, f, bFunction, g, showY, showE).error
  {
    Escalate(AssertFnOkNeArity0AsResult(version, aFunction, f, bFunction, g, showY, showE), message)
  }

  /** `assert_fn_ok_ne` accepts exactly what `assert_fn_ok_ne2` accepts, and fails on the same side of the `Ok` test. */
  lemma FnOkNeAgreesWithFnOkNe2<A, B, Y, E>(version: string, aFunction: string, f: A -> Result<Y, E>, aParamLabel: string, x: A,
                                                bFunction: string, g: B -> Result<Y, E>, bParamLabel: string, y: B,
                                                showA: A -> string, showB: B -> string, showY: Y -> string, showE: E -> string)
    ensures AssertFnOkNeAsResult(version, aFunction, f, aParamLabel, x, bFunction, g, bParamLabel, y, showA, showB, showY, showE).Ok?
        == AssertFnOkNe2AsResult(aFunction, f, aParamLabel, x, bFunction, g, bParamLabel, y, showA, showB, showY, showE).Ok?
  {
  }

  // ---------------------------------------------------------------------
  // assert_fn_ok_gt

  function FnOkGtHeader(): string {
    ShortHeader("assertion", "assert_fn_ok_gt", "left_function, left_param, right_function, right_param")
  }

  function FnErrGtHeader(): string {
    ShortHeader("assertion", "assert_fn_err_gt", "left_function, left_param, right_function, right_param")
  }

  function FnOkGtArity0Header(): string {
    ShortHeader("assertion", "assert_fn_ok_gt", "left_function, right_function")
  }

  function FnErrGtArity0Header(): string {
    ShortHeader("assertion", "assert_fn_err_gt", "left_function, right_function")
  }

  /** `assert_fn_ok_gt_as_result!(a_function, a_param, b_function, b_param)`. */
  function AssertFnOkGtAsResult<A, B, Y, E>(aFunction: string, f: A -> Result<Y, E>, aParamLabel: string, x: A,
                                            bFunction: string, g: B -> Result<Y, E>, bParamLabel: string, y: B,
                                            cmp: (Y, Y) -> Ordering,
                                            showA: A -> string, showB: B -> string, showY: Y -> string, showE: E -> string)
    : (r: Result<(), string>)
    ensures r.Ok? <==> BothOk(f(x), g(y)) && Gt(cmp, f(x).value, g(y).value)
    ensures BothOk(f(x), g(y)) && !Gt(cmp, f(x).value, g(y).value) ==>
      r == Err(LeftRightDiagnostic(FnOkGtHeader(), aFunction, aParamLabel, showA(x), bFunction, bParamLabel, showB(y),
                                   showY(f(x).value), showY(g(y).value)))
    ensures !BothOk(f(x), g(y)) ==>
      r == Err(LeftRightDiagnostic(FnErrGtHeader(), aFunction, aParamLabel, showA(x), bFunction, bParamLabel, showB(y),
                                   ResultDebug(showY, showE, f(x)), ResultDebug(showY, showE, g(y))))
  {
    var aResult := f(x);
    var bResult := g(y);
    if !aResult.Ok? || !bResult.Ok? then
      Err(LeftRightDiagnostic(FnErrGtHeader(), aFunction, aParamLabel, showA(x), bFunction, bParamLabel, showB(y),
                              ResultDebug(showY, showE, aResult), ResultDebug(showY, showE, bResult)))
    else
      var aOk := aResult.value;
      var bOk := bResult.value;
      if Gt(cmp, aOk, bOk) then Ok(())
      else Err(LeftRightDiagnostic(FnOkGtHeader(), aFunction, aParamLabel, showA(x), bFunction, bParamLabel, showB(y), showY(aOk), showY(bOk)))
  }

  /** `assert_fn_ok_gt_as_result!(a_function, b_function)`. */
  function AssertFnOkGtArity0AsResult<Y, E>(aFunction: string, f: () -> Result<Y, E>, bFunction: string, g: () -> Result<Y, E>,
                                            cmp: (Y, Y) -> Ordering, showY: Y -> string, showE: E -> string): (r: Result<(), string>)
    ensures r.Ok? <==> BothOk(f(), g()) && Gt(cmp, f().value, g().value)
    ensures BothOk(f(), g()) && !Gt(cmp, f().value, g().value) ==>
      r == Err(LeftRightFunctionsDiagnostic(FnOkGtArity0Header(), aFunction, bFunction, showY(f().value), showY(g().value)))
    ensures !BothOk(f(), g()) ==>
      r == Err(LeftRightFunctionsDiagnostic(FnErrGtArity0Header(), aFunction, bFunction,
                                            ResultDebug(showY, showE, f()), ResultDebug(showY, showE, g())))
  {
    var aResult := f();
    var bResult := g();
    if !aResult.Ok? || !bResult.Ok? then
      Err(LeftRightFunctionsDiagnostic(FnErrGtArity0Header(), aFunction, bFunction,
                                       ResultDebug(showY, showE, aResult), ResultDebug(showY, showE, bResult)))
    else
      var aOk := aResult.value;
      var bOk := bResult.value;
      if Gt(cmp, aOk, bOk) then Ok(())
      else Err(LeftRightFunctionsDiagnostic(FnOkGtArity0Header(), aFunction, bFunction, showY(aOk), showY(bOk)))
  }

  /** `assert_fn_ok_gt!(...)` in arity 1, with or without a custom message. */
  function AssertFnOkGt<A, B, Y, E>(aFunction: string, f: A -> Result<Y, E>, aParamLabel: string, x: A,
                                    bFunction: string, g: B -> Result<Y, E>, bParamLabel: string, y: B,
                                    cmp: (Y, Y) -> Ordering,
                                    showA: A -> string, showB: B -> string, showY: Y -> string, showE: E -> string,
                                    message: Option<string>): (o: Outcome<()>)
    ensures o.Returned? <==> BothOk(f(x), g(y)) && Gt(cmp, f(x).value, g(y).value)
    ensures o.Panicked? ==> o.message == if message.Some? then message.value
      else AssertFnOkGtAsResult(aFunction, f, aParamLabel, x, bFunction, g, bParamLabel, y, cmp, showA, showB, showY, showE).error
  {
    Escalate(AssertFnOkGtAsResult(aFunction, f, aParamLabel, x, bFunction, g, bParamLabel, y, cmp, showA, showB, showY, showE), message)
  }

  /** `assert_fn_ok_gt!(a_function, b_function)`, with or without a custom message. */
  function AssertFnOkGtArity0<Y, E>(aFunction: string, f: () -> Result<Y, E>, bFunction: string, g: () -> Result<Y, E>,
                                    cmp: (Y, Y) -> Ordering, showY: Y -> string, showE: E -> string,
                                    message: Option<string>): (o: Outcome<()>)
    ensures o.Returned? <==> BothOk(f(), g()) && Gt(cmp, f().value, g().value)
    ensures o.Panicked? ==> o.message == if message.Some? then message.value
      else AssertFnOkGtArity0AsResult(aFunction, f, bFunction, g, cmp, showY, showE).error
  {
    Escalate(AssertFnOkGtArity0AsResult(aFunction, f, bFunction, g, cmp, showY, showE), message)
  }

  /** Under a total order, `Ok` payloads that `assert_fn_ok_gt` accepts are different, so `assert_fn_ok_ne` accepts them too. */
  lemma FnOkGtImpliesFnOkNe<A, B, Y(!new), E>(version: string, aFunction: string, f: A -> Result<Y, E>, aParamLabel: string, x: A,
                                              bFunction: string, g: B -> Result<Y, E>, bParamLabel: string, y: B,
                                              cmp: (Y, Y) -> Ordering,
                                              showA: A -> string, showB: B -> string, showY: Y -> string, showE: E -> string)
    requires IsTotalOrder(cmp)
    requires AssertFnOkGtAsResult(aFunction, f, aParamLabel, x, bFunction, g, bParamLabel, y, cmp, showA, showB, showY, showE).Ok?
    ensures AssertFnOkNeAsResult(version, aFunction, f, aParamLabel, x, bFunction, g, bParamLabel, y, showA, showB, showY, showE).Ok?
  {
    assert cmp(f(x).value, g(y).value) != Equal;
  }

  /** Under a total order, `assert_fn_ok_gt` never accepts both an ordering of two calls and its reverse. */
  lemma FnOkGtAsymmetric<A, Y(!new), E>(aFunction: string, f: A -> Result<Y, E>, aParamLabel: string, x: A,
                                        bFunction: string, g: A -> Result<Y, E>, bParamLabel: string, y: A,
                                        cmp: (Y, Y) -> Ordering, showA: A -> string, showY: Y -> string, showE: E -> string)
    requires IsTotalOrder(cmp)
    ensures !(AssertFnOkGtAsResult(aFunction, f, aParamLabel, x, bFunction, g, bParamLabel, y, cmp, showA, showA, showY, showE).Ok?
              && AssertFnOkGtAsResult(bFunction, g, bParamLabel, y, aFunction, f, aParamLabel, x, cmp, showA, showA, showY, showE).Ok?)
  {
    if BothOk(f(x), g(y)) {
      assert cmp(f(x).value, g(y).value) == Greater ==> cmp(g(y).value, f(x).value) == Less;
    }
  }

  /** Arity 0 is arity 1 with the parameters ignored. */
  lemma FnOkGtArity0AgreesWithArity1<A, B, Y, E>(aFunction: string, f: () -> Result<Y, E>, bFunction: string, g: () -> Result<Y, E>,
                                                 x: A, y: B, cmp: (Y, Y) -> Ordering,
                                                 showA: A -> string, showB: B -> string, showY: Y -> string, showE: E -> string)
    ensures AssertFnOkGtArity0AsResult(aFunction, f, bFunction, g, cmp, showY, showE).Ok?
        == AssertFnOkGtAsResult(aFunction, (_: A) => f(), "", x, bFunction, (_: B) => g(), "", y, cmp, showA, showB, showY, showE).Ok?
  {
  }

  /** A call that is not `Ok` fails all three families, each with its `assert_fn_err_*` diagnostic. */
  lemma NotOkFailsEveryComparison<A, B, Y, E>(version: string, aFunction: string, f: A -> Result<Y, E>, aParamLabel: string, x: A,
                                                  bFunction: string, g: B -> Result<Y, E>, bParamLabel: string, y: B,
                                                  cmp: (Y, Y) -> Ordering,
                                                  showA: A -> string, showB: B -> string, showY: Y -> string, showE: E -> string)
    requires f(x).Err? || g(y).Err?
    ensures AssertFnOkNe2AsResult(aFunction, f, aParamLabel, x, bFunction, g, bParamLabel, y, showA, showB, showY, showE).Err?
    ensures AssertFnOkNeAsResult(version, aFunction, f, aParamLabel, x, bFunction, g, bParamLabel, y, showA, showB, showY, showE).Err?
    ensures AssertFnOkGtAsResult(aFunction, f, aParamLabel, x, bFunction, g, bParamLabel, y, cmp, showA, showB, showY, showE).Err?
  {
    assert !BothOk(f(x), g(y));
  }

  // ---------------------------------------------------------------------
  // The test expectations: `f` and `g` wrap their `i8` parameter in `Ok`

  function OkOf(i: int): Result<int, int> {
    Ok(i)
  }

  function ErrOf(i: int): Result<int, int> {
    Err(i)
  }

  function OkOne(): Result<int, int> {
    Ok(1)
  }

  function OkTwo(): Result<int, int> {
    Ok(2)
  }

  lemma FnOkNe2Examples()
    ensures AssertFnOkNe2AsResult("f", OkOf, "a", 1, "g", OkOf, "b", 2, IntToString, IntToString, IntToString, IntToString) == Ok((1, 2))
    ensures AssertFnOkNe2AsResult("f", OkOf, "a", 1, "g", OkOf, "b", 1, IntToString, IntToString, IntToString, IntToString)
         == Err(ParamDiagnostic(FnOkNe2Header(), "f", "a", "1", "g", "b", "1", "1", "1"))
    ensures AssertFnOkNe2Arity0AsResult("f", OkOne, "g", OkTwo, IntToString, IntToString) == Ok((1, 2))
    ensures AssertFnOkNe2Arity0AsResult("f", OkOne, "f", OkOne, IntToString, IntToString)
         == Err(FunctionsDiagnostic(FnOkNe2Arity0Header(), "f", "f", "1", "1"))
  {
    SmallIntToString();
  }

  /** A call that returns `Err` is shown whole, under the `assert_fn_err_ne2` header. */
  lemma FnOkNe2NotOkExample()
    ensures AssertFnOkNe2AsResult("f", ErrOf, "a", 1, "g", OkOf, "b", 1, IntToString, IntToString, IntToString, IntToString)
         == Err(ParamDiagnostic(FnErrNe2Header(), "f", "a", "1", "g", "b", "1", "Err(1)", "Ok(1)"))
  {
    SmallIntToString();
    ResultRenderings();
  }

  lemma FnOkNe2DiagnosticText()
    ensures ParamDiagnostic(FnOkNe2Header(), "f", "a", "1", "g", "b", "1", "1", "1") ==
      Header("assert_fn_ok_ne2", "a_function, a_param, b_function, b_param", "9.0.0")
      + " a_function label: `f`,\n" + "    a_param label: `a`,\n" + "    a_param debug: `1`,\n"
      + " b_function label: `g`,\n" + "    b_param label: `b`,\n" + "    b_param debug: `1`,\n"
      + "                a: `1`,\n" + "                b: `1`"
  {
    assert Line(" a_function label", "f") == " a_function label: `f`,\n";
    assert Line("    a_param label", "a") == "    a_param label: `a`,\n";
    assert Line("    a_param debug", "1") == "    a_param debug: `1`,\n";
    assert Line(" b_function label", "g") == " b_function label: `g`,\n";
    assert Line("    b_param label", "b") == "    b_param label: `b`,\n";
    assert Line("    b_param debug", "1") == "    b_param debug: `1`,\n";
    assert Line("                a", "1") == "                a: `1`,\n";
    assert Last("                b", "1") == "                b: `1`";
  }

  lemma FnOkNe2Arity0DiagnosticText()
    ensures FunctionsDiagnostic(FnOkNe2Arity0Header(), "f", "f", "1", "1") ==
      Header("assert_fn_ok_ne2", "a_function, b_function", "9.0.0")
      + " a_function label: `f`,\n" + " b_function label: `f`,\n"
      + "                a: `1`,\n" + "                b: `1`"
  {
    assert Line(" a_function label", "f") == " a_function label: `f`,\n";
    assert Line(" b_function label", "f") == " b_function label: `f`,\n";
    assert Line("                a", "1") == "                a: `1`,\n";
    assert Last("                b", "1") == "                b: `1`";
  }

  lemma FnOkNeExamples(version: string)
    ensures AssertFnOkNeAsResult(version, "f", OkOf, "a", 1, "g", OkOf, "b", 2, IntToString, IntToString, IntToString, IntToString) == Ok(())
    ensures AssertFnOkNeAsResult(version, "f", OkOf, "a", 1, "g", OkOf, "b", 1, IntToString, IntToString, IntToString, IntToString)
         == Err(ParamDiagnostic(FnOkNeHeader(version), "f", "a", "1", "g", "b", "1", "1", "1"))
    ensures AssertFnOkNeArity0AsResult(version, "f", OkOne, "g", OkTwo, IntToString, IntToString) == Ok(())
    ensures AssertFnOkNeArity0AsResult(version, "f", OkOne, "f", OkOne, IntToString, IntToString)
         == Err(FunctionsDiagnostic(FnOkNeArity0Header(version), "f", "f", "1", "1"))
  {
    SmallIntToString();
  }

  lemma FnOkNeDiagnosticText(version: string)
    ensures ParamDiagnostic(FnOkNeHeader(version), "f", "a", "1", "g", "b", "1", "1", "1") ==
      Header("assert_fn_ok_ne", "a_function, a_param, b_function, b_param", version)
      + " a_function label: `f`,\n" + "    a_param label: `a`,\n" + "    a_param debug: `1`,\n"
      + " b_function label: `g`,\n" + "    b_param label: `b`,\n" + "    b_param debug: `1`,\n"
      + "                a: `1`,\n" + "                b: `1`"
  {
    assert Line(" a_function label", "f") == " a_function label: `f`,\n";
    assert Line("    a_param label", "a") == "    a_param label: `a`,\n";
    assert Line("    a_param debug", "1") == "    a_param debug: `1`,\n";
    assert Line(" b_function label", "g") == " b_function label: `g`,\n";
    assert Line("    b_param label", "b") == "    b_param label: `b`,\n";
    assert Line("    b_param debug", "1") == "    b_param debug: `1`,\n";
    assert Line("                a", "1") == "                a: `1`,\n";
    assert Last("                b", "1") == "                b: `1`";
  }

  lemma FnOkNeArity0DiagnosticText(version: string)
    ensures FunctionsDiagnostic(FnOkNeArity0Header(version), "f", "f", "1", "1") ==
      Header("assert_fn_ok_ne", "a_function, b_function", version)
      + " a_function label: `f`,\n" + " b_function label: `f`,\n"
      + "                a: `1`,\n" + "                b: `1`"
  {
    assert Line(" a_function label", "f") == " a_function label: `f`,\n";
    assert Line(" b_function label", "f") == " b_function label: `f`,\n";
    assert Line("                a", "1") == "                a: `1`,\n";
    assert Last("                b", "1") == "                b: `1`";
  }

  lemma FnOkGtExamples()
    ensures AssertFnOkGtAsResult("f", OkOf, "a", 2, "g", OkOf, "b", 1, IntCmp, IntToString, IntToString, IntToString, IntToString) == Ok(())
    ensures AssertFnOkGtAsResult("f", OkOf, "a", 1, "g", OkOf, "b", 1, IntCmp, IntToString, IntToString, IntToString, IntToString)
         == Err(LeftRightDiagnostic(FnOkGtHeader(), "f", "a", "1", "g", "b", "1", "1", "1"))
    ensures AssertFnOkGtAsResult("f", OkOf, "a", 1, "g", OkOf, "b", 2, IntCmp, IntToString, IntToString, IntToString, IntToString)
         == Err(LeftRightDiagnostic(FnOkGtHeader(), "f", "a", "1", "g", "b", "2", "1", "2"))
  {
    SmallIntToString();
  }

  lemma FnOkGtArity0Examples()
    ensures AssertFnOkGtArity0AsResult("g", OkTwo, "f", OkOne, IntCmp, IntToString, IntToString) == Ok(())
    ensures AssertFnOkGtArity0AsResult("f", OkOne, "f", OkOne, IntCmp, IntToString, IntToString)
         == Err(LeftRightFunctionsDiagnostic(FnOkGtArity0Header(), "f", "f", "1", "1"))
    ensures AssertFnOkGtArity0AsResult("f", OkOne, "g", OkTwo, IntCmp, IntToString, IntToString)
         == Err(LeftRightFunctionsDiagnostic(FnOkGtArity0Header(), "f", "g", "1", "2"))
  {
    SmallIntToString();
  }

  lemma FnOkGtEqDiagnosticText()
    ensures LeftRightDiagnostic(FnOkGtHeader(), "f", "a", "1", "g", "b", "1", "1", "1") ==
      ShortHeader("assertion", "assert_fn_ok_gt", "left_function, left_param, right_function, right_param")
      + "  left_function label: `f`,\n" + "     left_param label: `a`,\n" + "     left_param debug: `1`,\n"
      + " right_function label: `g`,\n" + "    right_param label: `b`,\n" + "    right_param debug: `1`,\n"
      + "                 left: `1`,\n" + "                right: `1`"
  {
    assert Line("  left_function label", "f") == "  left_function label: `f`,\n";
    assert Line("     left_param label", "a") == "     left_param label: `a`,\n";
    assert Line("     left_param debug", "1") == "     left_param debug: `1`,\n";
    assert Line(" right_function label", "g") == " right_function label: `g`,\n";
    assert Line("    right_param label", "b") == "    right_param label: `b`,\n";
    assert Line("    right_param debug", "1") == "    right_param debug: `1`,\n";
    assert Line("                 left", "1") == "                 left: `1`,\n";
    assert Last("                right", "1") == "                right: `1`";
  }

  lemma FnOkGtLtDiagnosticText()
    ensures LeftRightDiagnostic(FnOkGtHeader(), "f", "a", "1", "g", "b", "2", "1", "2") ==
      ShortHeader("assertion", "assert_fn_ok_gt", "left_function, left_param, right_function, right_param")
      + "  left_function label: `f`,\n" + "     left_param label: `a`,\n" + "     left_param debug: `1`,\n"
      + " right_function label: `g`,\n" + "    right_param label: `b`,\n" + "    right_param debug: `2`,\n"
      + "                 left: `1`,\n" + "                right: `2`"
  {
    assert Line("  left_function label", "f") == "  left_function label: `f`,\n";
    assert Line("     left_param label", "a") == "     left_param label: `a`,\n";
    assert Line("     left_param debug", "1") == "     left_param debug: `1`,\n";
    assert Line(" right_function label", "g") == " right_function label: `g`,\n";
    assert Line("    right_param label", "b") == "    right_param label: `b`,\n";
    assert Line("    right_param debug", "2") == "    right_param debug: `2`,\n";
    assert Line("                 left", "1") == "                 left: `1`,\n";
    assert Last("                right", "2") == "                right: `2`";
  }

  lemma FnOkGtArity0EqDiagnosticText()
    ensures LeftRightFunctionsDiagnostic(FnOkGtArity0Header(), "f", "f", "1", "1") ==
      ShortHeader("assertion", "assert_fn_ok_gt", "left_function, right_function")
      + "  left_function label: `f`,\n" + " right_function label: `f`,\n"
      + "                 left: `1`,\n" + "                right: `1`"
  {
    assert Line("  left_function label", "f") == "  left_function label: `f`,\n";
    assert Line(" right_function label", "f") == " right_function label: `f`,\n";
    assert Line("                 left", "1") == "                 left: `1`,\n";
    assert Last("                right", "1") == "                right: `1`";
  }

  lemma FnOkGtArity0LtDiagnosticText()
    ensures LeftRightFunctionsDiagnostic(FnOkGtArity0Header(), "f", "g", "1", "2") ==
      ShortHeader("assertion", "assert_fn_ok_gt", "left_function, right_function")
      + "  left_function label: `f`,\n" + " right_function label: `g`,\n"
      + "                 left: `1`,\n" + "                right: `2`"
  {
    assert Line("  left_function label", "f") == "  left_function label: `f`,\n";
    assert Line(" right_function label", "g") == " right_function label: `g`,\n";
    assert Line("                 left", "1") == "                 left: `1`,\n";
    assert Last("                right", "2") == "                right: `2`";
  }
}
