/**
 * The `Result` families.  Those that compare a payload have the two
 * failure modes of the `Option` families: the variant is wrong (only label
 * and debug lines), or it is right and the payload compares wrongly (an
 * `a inner` line too).
 */
module Results {
  import opened Outcome
  import opened Render

  /** `{:?}` of a `Result`, given `{:?}` of both payload types. */
  function ResultDebug<T, E>(showOk: T -> string, showErr: E -> string, r: Result<T, E>): string {
    match r
    case Ok(v) => "Ok(" + showOk(v) + ")"
    case Err(e) => "Err(" + showErr(e) + ")"
  }

  /** `{:?}` of `()`. */
  function UnitDebug(u: ()): string {
    "()"
  }

  /** The shape of every label/debug diagnostic of this module: header, then the fields. */
  function InnerDiagnostic(header: string, aLabel: string, aDebug: string, aInner: string, bLabel: string, bDebug: string): string {
    header
    + Line(" a label", aLabel) + Line(" a debug", aDebug) + Line(" a inner", aInner)
    + Line(" b label", bLabel) + Last(" b debug", bDebug)
  }

  function PairDiagnostic(header: string, aLabel: string, aDebug: string, bLabel: string, bDebug: string): string {
    header
    + Line(" a label", aLabel) + Line(" a debug", aDebug)
    + Line(" b label", bLabel) + Last(" b debug", bDebug)
  }

  // ---------------------------------------------------------------------
  // assert_ok_ne_expr

  function OkNeExprHeader(): string {
    Header("assert_ok_ne_expr", "a, b", "8.12.0")
  }

  /** `assert_ok_ne_expr_as_result!(a, b)`: `a` is `Ok(x)` and `x != b`. */
  function AssertOkNeExprAsResult<T(==), E>(aLabel: string, a: Result<T, E>, bLabel: string, b: T,
                                            showOk: T -> string, showErr: E -> string): (r: Result<(), string>)
    ensures r.Ok? <==> a.Ok? && a.value != b
    ensures a.Ok? && a.value == b ==>
      r == Err(InnerDiagnostic(OkNeExprHeader(), aLabel, ResultDebug(showOk, showErr, a), showOk(a.value), bLabel, showOk(b)))
    ensures a.Err? ==> r == Err(PairDiagnostic(OkNeExprHeader(), aLabel, ResultDebug(showOk, showErr, a), bLabel, showOk(b)))
  {
    match a
    case Ok(aInner) =>
      if aInner != b then Ok(())
      else Err(InnerDiagnostic(OkNeExprHeader(), aLabel, ResultDebug(showOk, showErr, a), showOk(aInner), bLabel, showOk(b)))
    case _ => Err(PairDiagnostic(OkNeExprHeader(), aLabel, ResultDebug(showOk, showErr, a), bLabel, showOk(b)))
  }

  /** `assert_ok_ne_expr!(a, b)` and `assert_ok_ne_expr!(a, b, message)`. */
  function AssertOkNeExpr<T(==), E>(aLabel: string, a: Result<T, E>, bLabel: string, b: T,
                                    showOk: T -> string, showErr: E -> string, message: Option<string>): (o: Outcome<()>)
    ensures o.Returned? <==> a.Ok? && a.value != b
    ensures o.Panicked? ==> o.message == if message.Some? then message.value
                                         else AssertOkNeExprAsResult(aLabel, a, bLabel, b, showOk, showErr).error
  {
    Escalate(AssertOkNeExprAsResult(aLabel, a, bLabel, b, showOk, showErr), message)
  }

  // ---------------------------------------------------------------------
  // assert_err_eq_x

  function ErrEqXHeader(): string {
    Header("assert_err_eq_x", "a, b", "9.2.0")
  }

  /** `assert_err_eq_x_as_result!(a, b)`: `a` is `Err(e)` and `e == b`; the payload `e` is returned. */
  function AssertErrEqXAsResult<T, E(==)>(aLabel: string, a: Result<T, E>, bLabel: string, b: E,
                                          showOk: T -> string, showErr: E -> string): (r: Result<E, string>)
    ensures r.Ok? <==> a.Err? && a.error == b
    ensures r.Ok? ==> r.value == a.error
    ensures a.Err? && a.error != b ==>
      r == Err(InnerDiagnostic(ErrEqXHeader(), aLabel, ResultDebug(showOk, showErr, a), showErr(a.error), bLabel, showErr(b)))
    ensures a.Ok? ==> r == Err(PairDiagnostic(ErrEqXHeader(), aLabel, ResultDebug(showOk, showErr, a), bLabel, showErr(b)))
  {
    match a
    case Err(a1) =>
      if a1 == b then Ok(a1)
      else Err(InnerDiagnostic(ErrEqXHeader(), aLabel, ResultDebug(showOk, showErr, a), showErr(a1), bLabel, showErr(b)))
    case _ => Err(PairDiagnostic(ErrEqXHeader(), aLabel, ResultDebug(showOk, showErr, a), bLabel, showErr(b)))
  }

  /** `assert_err_eq_x!(a, b)` and `assert_err_eq_x!(a, b, message)`: evaluates to the `Err` payload. */
  function AssertErrEqX<T, E(==)>(aLabel: string, a: Result<T, E>, bLabel: string, b: E,
                                  showOk: T -> string, showErr: E -> string, message: Option<string>): (o: Outcome<E>)
    ensures o.Returned? <==> a.Err? && a.error == b
    ensures o.Returned? ==> o.value == a.error
    ensures o.Panicked? ==> o.message == if message.Some? then message.value
                                         else AssertErrEqXAsResult(aLabel, a, bLabel, b, showOk, showErr).error
  {
    Escalate(AssertErrEqXAsResult(aLabel, a, bLabel, b, showOk, showErr), message)
  }

  // ---------------------------------------------------------------------
  // assert_err

  function ErrHeader(): string {
    Header("assert_err", "a", "8.10.1")
  }

  function ErrDiagnostic(aLabel: string, aDebug: string): string {
    ErrHeader() + Line(" a label", aLabel) + Last(" a debug", aDebug)
  }

  /** `assert_err_as_result!(a)`: any `Err`, whatever its payload. */
  function AssertErrAsResult<T, E>(aLabel: string, a: Result<T, E>, showOk: T -> string, showErr: E -> string)
    : (r: Result<(), string>)
    ensures r.Ok? <==> a.Err?
    ensures r.Err? ==> r.error == ErrDiagnostic(aLabel, ResultDebug(showOk, showErr, a))
  {
    match a
    case Err(_) => Ok(())
    case _ => Err(ErrDiagnostic(aLabel, ResultDebug(showOk, showErr, a)))
  }

  /** `assert_err!(a)` and `assert_err!(a, message)`. */
  function AssertErr<T, E>(aLabel: string, a: Result<T, E>, showOk: T -> string, showErr: E -> string,
                           message: Option<string>): (o: Outcome<()>)
    ensures o.Returned? <==> a.Err?
    ensures o.Panicked? ==> o.message == if message.Some? then message.value
                                         else ErrDiagnostic(aLabel, ResultDebug(showOk, showErr, a))
  {
    Escalate(AssertErrAsResult(aLabel, a, showOk, showErr), message)
  }

  /** `debug_assert_err!(...)`. */
  function DebugAssertErr<T, E>(debugAssertions: bool, aLabel: string, a: Result<T, E>, showOk: T -> string,
                                showErr: E -> string, message: Option<string>): (o: Outcome<()>)
    ensures !debugAssertions ==> o == Returned(())
    ensures debugAssertions ==> (o.Returned? <==> a.Err?)
    ensures debugAssertions && o.Panicked? ==>
      o.message == if message.Some? then message.value else ErrDiagnostic(aLabel, ResultDebug(showOk, showErr, a))
  {
    Gate(debugAssertions, () => AssertErr(aLabel, a, showOk, showErr, message))
  }

  // ---------------------------------------------------------------------
  // assert_result_ok (no documentation URL line)

  function ResultOkDiagnostic(aLabel: string, aDebug: string): string {
    ShortHeader("assertion", "assert_result_ok", "a") + Line(" a label", aLabel) + Last(" a debug", aDebug)
  }

  /** `assert_result_ok_as_result!(a)`: any `Ok`. */
  function AssertResultOkAsResult<T, E>(aLabel: string, a: Result<T, E>, showOk: T -> string, showErr: E -> string)
    : (r: Result<(), string>)
    ensures r.Ok? <==> a.Ok?
    ensures r.Err? ==> r.error == ResultOkDiagnostic(aLabel, ResultDebug(showOk, showErr, a))
  {
    match a
    case Ok(_) => Ok(())
    case _ => Err(ResultOkDiagnostic(aLabel, ResultDebug(showOk, showErr, a)))
  }

  /** `assert_result_ok!(a)` and `assert_result_ok!(a, message)`. */
  function AssertResultOk<T, E>(aLabel: string, a: Result<T, E>, showOk: T -> string, showErr: E -> string,
                                message: Option<string>): (o: Outcome<()>)
    ensures o.Returned? <==> a.Ok?
    ensures o.Panicked? ==> o.message == if message.Some? then message.value
                                         else ResultOkDiagnostic(aLabel, ResultDebug(showOk, showErr, a))
  {
    Escalate(AssertResultOkAsResult(aLabel, a, showOk, showErr), message)
  }

  // ---------------------------------------------------------------------
  // Relations between the families

  /** Every `Result` passes exactly one of `assert_err` and `assert_result_ok`. */
  lemma ErrAndResultOkComplementary<T, E>(aLabel: string, a: Result<T, E>, showOk: T -> string, showErr: E -> string)
    ensures AssertErrAsResult(aLabel, a, showOk, showErr).Ok? != AssertResultOkAsResult(aLabel, a, showOk, showErr).Ok?
  {
  }

  /** Passing `assert_err_eq_x` implies passing `assert_err`. */
  lemma ErrEqXImpliesErr<T, E>(aLabel: string, a: Result<T, E>, bLabel: string, b: E, showOk: T -> string, showErr: E -> string)
    requires AssertErrEqXAsResult(aLabel, a, bLabel, b, showOk, showErr).Ok?
    ensures AssertErrAsResult(aLabel, a, showOk, showErr).Ok?
  {
  }

  /** Passing `assert_ok_ne_expr` implies passing `assert_result_ok`. */
  lemma OkNeExprImpliesResultOk<T, E>(aLabel: string, a: Result<T, E>, bLabel: string, b: T, showOk: T -> string, showErr: E -> string)
    requires AssertOkNeExprAsResult(aLabel, a, bLabel, b, showOk, showErr).Ok?
    ensures AssertResultOkAsResult(aLabel, a, showOk, showErr).Ok?
  {
  }

  // ---------------------------------------------------------------------
  // The test expectations, on `Result<i8, i8>` (or `Result<(), i8>`) operands labelled `a` and `b`

  lemma ResultRenderings()
    ensures ResultDebug(IntToString, IntToString, Ok(1)) == "Ok(1)"
    ensures ResultDebug(IntToString, IntToString, Err(1)) == "Err(1)"
    ensures ResultDebug(UnitDebug, IntToString, Ok(())) == "Ok(())"
    ensures ResultDebug(UnitDebug, IntToString, Err(1)) == "Err(1)"
  {
    SmallIntToString();
  }

  lemma OkNeExprExamples()
    ensures AssertOkNeExprAsResult("a", Ok(1), "b", 2, IntToString, IntToString) == Ok(())
    ensures AssertOkNeExprAsResult("a", Ok(1), "b", 1, IntToString, IntToString)
         == Err(InnerDiagnostic(OkNeExprHeader(), "a", "Ok(1)", "1", "b", "1"))
    ensures AssertOkNeExprAsResult("a", Err(1), "b", 2, IntToString, IntToString)
         == Err(PairDiagnostic(OkNeExprHeader(), "a", "Err(1)", "b", "2"))
  {
    ResultRenderings();
    SmallIntToString();
  }

  lemma OkNeExprDiagnosticText()
    ensures InnerDiagnostic(OkNeExprHeader(), "a", "Ok(1)", "1", "b", "1") ==
      Header("assert_ok_ne_expr", "a, b", "8.12.0")
      + " a label: `a`,\n" + " a debug: `Ok(1)`,\n" + " a inner: `1`,\n"
      + " b label: `b`,\n" + " b debug: `1`"
  {
    assert Line(" a label", "a") == " a label: `a`,\n";
    assert Line(" a debug", "Ok(1)") == " a debug: `Ok(1)`,\n";
    assert Line(" a inner", "1") == " a inner: `1`,\n";
    assert Line(" b label", "b") == " b label: `b`,\n";
    assert Last(" b debug", "1") == " b debug: `1`";
  }

  lemma OkNeExprNotOkDiagnosticText()
    ensures PairDiagnostic(OkNeExprHeader(), "a", "Err(1)", "b", "2") ==
      Header("assert_ok_ne_expr", "a, b", "8.12.0")
      + " a label: `a`,\n" + " a debug: `Err(1)`,\n"
      + " b label: `b`,\n" + " b debug: `2`"
  {
    assert Line(" a label", "a") == " a label: `a`,\n";
    assert Line(" a debug", "Err(1)") == " a debug: `Err(1)`,\n";
    assert Line(" b label", "b") == " b label: `b`,\n";
    assert Last(" b debug", "2") == " b debug: `2`";
  }

  lemma ErrEqXExamples()
    ensures AssertErrEqXAsResult("a", Err(1), "b", 1, IntToString, IntToString) == Ok(1)
    ensures AssertErrEqXAsResult("a", Err(1), "b", 2, IntToString, IntToString)
         == Err(InnerDiagnostic(ErrEqXHeader(), "a", "Err(1)", "1", "b", "2"))
    ensures AssertErrEqXAsResult("a", Ok(1), "b", 1, IntToString, IntToString)
         == Err(PairDiagnostic(ErrEqXHeader(), "a", "Ok(1)", "b", "1"))
  {
    ResultRenderings();
    SmallIntToString();
  }

  lemma ErrEqXDiagnosticText()
    ensures InnerDiagnostic(ErrEqXHeader(), "a", "Err(1)", "1", "b", "2") ==
      Header("assert_err_eq_x", "a, b", "9.2.0")
      + " a label: `a`,\n" + " a debug: `Err(1)`,\n" + " a inner: `1`,\n"
      + " b label: `b`,\n" + " b debug: `2`"
  {
    assert Line(" a label", "a") == " a label: `a`,\n";
    assert Line(" a debug", "Err(1)") == " a debug: `Err(1)`,\n";
    assert Line(" a inner", "1") == " a inner: `1`,\n";
    assert Line(" b label", "b") == " b label: `b`,\n";
    assert Last(" b debug", "2") == " b debug: `2`";
  }

  lemma ErrEqXNotErrDiagnosticText()
    ensures PairDiagnostic(ErrEqXHeader(), "a", "Ok(1)", "b", "1") ==
      Header("assert_err_eq_x", "a, b", "9.2.0")
      + " a label: `a`,\n" + " a debug: `Ok(1)`,\n"
      + " b label: `b`,\n" + " b debug: `1`"
  {
    assert Line(" a label", "a") == " a label: `a`,\n";
    assert Line(" a debug", "Ok(1)") == " a debug: `Ok(1)`,\n";
    assert Line(" b label", "b") == " b label: `b`,\n";
    assert Last(" b debug", "1") == " b debug: `1`";
  }

  lemma ErrExamples()
    ensures AssertErrAsResult("a", Err(1), UnitDebug, IntToString) == Ok(())
    ensures AssertErrAsResult("a", Ok(()), UnitDebug, IntToString) == Err(ErrDiagnostic("a", "Ok(())"))
    ensures ErrDiagnostic("a", "Ok(())") ==
      Header("assert_err", "a", "8.10.1")
      + " a label: `a`,\n" + " a debug: `Ok(())`"
  {
    ResultRenderings();
    assert Line(" a label", "a") == " a label: `a`,\n";
    assert Last(" a debug", "Ok(())") == " a debug: `Ok(())`";
  }

  lemma ResultOkExamples()
    ensures AssertResultOkAsResult("a", Ok(()), UnitDebug, IntToString) == Ok(())
    ensures AssertResultOkAsResult("a", Err(1), UnitDebug, IntToString) == Err(ResultOkDiagnostic("a", "Err(1)"))
    ensures ResultOkDiagnostic("a", "Err(1)") ==
      ShortHeader("assertion", "assert_result_ok", "a") + " a label: `a`,\n" + " a debug: `Err(1)`"
  {
    ResultRenderings();
    assert Line(" a label", "a") == " a label: `a`,\n";
    assert Last(" a debug", "Err(1)") == " a debug: `Err(1)`";
  }
}
