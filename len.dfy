/**
 * The length families: `a.len()` compared with an expression `b`.  Both
 * are `usize`, so `b` is a `nat`; `len()` is modelled as the length of the
 * operand's sequence of elements (for a `&str`, its bytes).
 */
module Len {
  import opened Outcome
  import opened Render

  function LenDiagnostic(header: string, aLabel: string, aDebug: string, aLen: nat, bLabel: string, b: nat): string {
    header
    + Line(" a label", aLabel) + Line(" a debug", aDebug) + Line(" a.len()", IntToString(aLen))
    + Line(" b label", bLabel) + Last(" b debug", IntToString(b))
  }

  // ---------------------------------------------------------------------
  // assert_len_ge_expr

  /** The URL line carries the crate's own version, `env!("CARGO_PKG_VERSION")`, here a parameter. */
  function LenGeExprHeader(version: string): string {
    Header("assert_len_ge_expr", "a, b", version)
  }

  /** `assert_len_ge_expr_as_result!(a, b)`. */
  function AssertLenGeExprAsResult<T>(version: string, aLabel: string, a: seq<T>, bLabel: string, b: nat,
                                      show: seq<T> -> string): (r: Result<(), string>)
    ensures r.Ok? <==> |a| >= b
    ensures r.Err? ==> r.error == LenDiagnostic(LenGeExprHeader(version), aLabel, show(a), |a|, bLabel, b)
  {
    var aLen := |a|;
    if aLen >= b then Ok(())
    else Err(LenDiagnostic(LenGeExprHeader(version), aLabel, show(a), aLen, bLabel, b))
  }

  /** `assert_len_ge_expr!(a, b)` and `assert_len_ge_expr!(a, b, message)`. */
  function AssertLenGeExpr<T>(version: string, aLabel: string, a: seq<T>, bLabel: string, b: nat,
                              show: seq<T> -> string, message: Option<string>): (o: Outcome<()>)
    ensures o.Returned? <==> |a| >= b
    ensures o.Panicked? ==> o.message == if message.Some? then message.value
                                         else LenDiagnostic(LenGeExprHeader(version), aLabel, show(a), |a|, bLabel, b)
  {
    Escalate(AssertLenGeExprAsResult(version, aLabel, a, bLabel, b, show), message)
  }

  /** `debug_assert_len_ge_expr!(...)`. */
  function DebugAssertLenGeExpr<T>(debugAssertions: bool, version: string, aLabel: string, a: seq<T>, bLabel: string, b: nat,
                                   show: seq<T> -> string, message: Option<string>): (o: Outcome<()>)
    ensures !debugAssertions ==> o == Returned(())
    ensures debugAssertions ==> (o.Returned? <==> |a| >= b)
    ensures debugAssertions && o.Panicked? ==>
      o.message == if message.Some? then message.value
                   else LenDiagnostic(LenGeExprHeader(version), aLabel, show(a), |a|, bLabel, b)
  {
    Gate(debugAssertions, () => AssertLenGeExpr(version, aLabel, a, bLabel, b, show, message))
  }

  // ---------------------------------------------------------------------
  // assert_len_ge_x

  function LenGeXHeader(): string {
    Header("assert_len_ge_x", "a, b", "9.2.0")
  }

  /** `assert_len_ge_x_as_result!(a, b)`: on success, the pair `(a.len(), b)`. */
  function AssertLenGeXAsResult<T>(aLabel: string, a: seq<T>, bLabel: string, b: nat, show: seq<T> -> string)
    : (r: Result<(nat, nat), string>)
    ensures r.Ok? <==> |a| >= b
    ensures r.Ok? ==> r.value == (|a|, b)
    ensures r.Err? ==> r.error == LenDiagnostic(LenGeXHeader(), aLabel, show(a), |a|, bLabel, b)
  {
    var aLen := |a|;
    if aLen >= b then Ok((aLen, b))
    else Err(LenDiagnostic(LenGeXHeader(), aLabel, show(a), aLen, bLabel, b))
  }

  /** `assert_len_ge_x!(a, b)` and `assert_len_ge_x!(a, b, message)`: evaluates to `(a.len(), b)`. */
  function AssertLenGeX<T>(aLabel: string, a: seq<T>, bLabel: string, b: nat, show: seq<T> -> string,
                           message: Option<string>): (o: Outcome<(nat, nat)>)
    ensures o.Returned? <==> |a| >= b
    ensures o.Returned? ==> o.value == (|a|, b)
    ensures o.Panicked? ==> o.message == if message.Some? then message.value
                                         else LenDiagnostic(LenGeXHeader(), aLabel, show(a), |a|, bLabel, b)
  {
    Escalate(AssertLenGeXAsResult(aLabel, a, bLabel, b, show), message)
  }

  /** The two spellings accept the same operands and differ only in the payload and the header. */
  lemma LenGeExprAgreesWithLenGeX<T>(version: string, aLabel: string, a: seq<T>, bLabel: string, b: nat, show: seq<T> -> string)
    ensures AssertLenGeExprAsResult(version, aLabel, a, bLabel, b, show).Ok? == AssertLenGeXAsResult(aLabel, a, bLabel, b, show).Ok?
  {
  }

  /** A bound that passes keeps passing when lowered, and when the operand grows. */
  lemma LenGeMonotone<T>(aLabel: string, a: seq<T>, a2: seq<T>, bLabel: string, b: nat, b2: nat, show: seq<T> -> string)
    requires AssertLenGeXAsResult(aLabel, a, bLabel, b, show).Ok?
    requires |a2| >= |a| && b2 <= b
    ensures AssertLenGeXAsResult(aLabel, a2, bLabel, b2, show).Ok?
  {
  }

  // ---------------------------------------------------------------------
  // The test expectations: `a` is a `&str`, `b` an integer

  lemma StrRenderings()
    ensures DebugStr("x") == "\"x\"" && DebugStr("xx") == "\"xx\""
  {
    assert Escape("x") == "x";
    assert Escape("xx") == "x" + Escape("x");
  }

  lemma LenGeExprExamples(version: string)
    ensures AssertLenGeExprAsResult(version, "a", "xx", "b", 1, DebugStr) == Ok(())
    ensures AssertLenGeExprAsResult(version, "a", "x", "b", 1, DebugStr) == Ok(())
    ensures AssertLenGeExprAsResult(version, "a", "x", "b", 2, DebugStr)
         == Err(LenDiagnostic(LenGeExprHeader(version), "a", "\"x\"", 1, "b", 2))
  {
    StrRenderings();
  }

  lemma LenGeExprDiagnosticText(version: string)
    ensures LenDiagnostic(LenGeExprHeader(version), "a", "\"x\"", 1, "b", 2) ==
      LenGeExprHeader(version)
      + " a label: `a`,\n" + " a debug: `\"x\"`,\n" + " a.len(): `1`,\n"
      + " b label: `b`,\n" + " b debug: `2`"
  {
    SmallIntToString();
    assert Line(" a label", "a") == " a label: `a`,\n";
    assert Line(" a debug", "\"x\"") == " a debug: `\"x\"`,\n";
    assert Line(" a.len()", "1") == " a.len(): `1`,\n";
    assert Line(" b label", "b") == " b label: `b`,\n";
    assert Last(" b debug", "2") == " b debug: `2`";
  }

  lemma LenGeXExamples()
    ensures AssertLenGeXAsResult("a", "xx", "b", 1, DebugStr) == Ok((2, 1))
    ensures AssertLenGeXAsResult("a", "x", "b", 1, DebugStr) == Ok((1, 1))
    ensures AssertLenGeXAsResult("a", "x", "b", 2, DebugStr) == Err(LenDiagnostic(LenGeXHeader(), "a", "\"x\"", 1, "b", 2))
  {
    StrRenderings();
  }

  lemma LenGeXDiagnosticText()
    ensures LenDiagnostic(LenGeXHeader(), "a", "\"x\"", 1, "b", 2) ==
      LenGeXHeader()
      + " a label: `a`,\n" + " a debug: `\"x\"`,\n" + " a.len(): `1`,\n"
      + " b label: `b`,\n" + " b debug: `2`"
  {
    SmallIntToString();
    assert Line(" a label", "a") == " a label: `a`,\n";
    assert Line(" a debug", "\"x\"") == " a debug: `\"x\"`,\n";
    assert Line(" a.len()", "1") == " a.len(): `1`,\n";
    assert Line(" b label", "b") == " b label: `b`,\n";
    assert Last(" b debug", "2") == " b debug: `2`";
  }
}
