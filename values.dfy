/**
 * The plain value comparisons in their newer `*_as_result` form, which
 * never panics: `assert_eq_as_result` and `assert_ne_as_result` compare two
 * values with `==` and `!=` and return `Ok(())` or the diagnostic.
 */
module Values {
  import opened Outcome
  import opened Render

  // ---------------------------------------------------------------------
  // assert_eq_as_result

  function EqDiagnostic(aLabel: string, aDebug: string, bLabel: string, bDebug: string): string {
    ShortHeader("assertion", "assert_eq", "a, b")
    + Line(" a label", aLabel) + Line(" a debug", aDebug)
    + Line(" b label", bLabel) + Last(" b debug", bDebug)
  }

  /** `assert_eq_as_result!(a, b)`. */
  function AssertEqAsResult<T(==)>(aLabel: string, a: T, bLabel: string, b: T, show: T -> string): (r: Result<(), string>)
    ensures r.Ok? <==> a == b
    ensures r.Err? ==> r.error == EqDiagnostic(aLabel, show(a), bLabel, show(b))
  {
    if a == b then Ok(()) else Err(EqDiagnostic(aLabel, show(a), bLabel, show(b)))
  }

  // ---------------------------------------------------------------------
  // assert_ne_as_result

  /** The operands appear twice: once beside their labels, once as `left` and `right`. */
  function NeDiagnostic(aLabel: string, aDebug: string, bLabel: string, bDebug: string): string {
    ShortHeader("assertion", "assert_ne", "left, right")
    + Line("  left label", aLabel) + Line("  left debug", aDebug)
    + Line(" right label", bLabel) + Line(" right debug", bDebug)
    + Line("        left", aDebug) + Last("       right", bDebug)
  }

  /** `assert_ne_as_result!(a, b)`. */
  function AssertNeAsResult<T(==)>(aLabel: string, a: T, bLabel: string, b: T, show: T -> string): (r: Result<(), string>)
    ensures r.Ok? <==> a != b
    ensures r.Err? ==> r.error == NeDiagnostic(aLabel, show(a), bLabel, show(b))
  {
    if a != b then Ok(()) else Err(NeDiagnostic(aLabel, show(a), bLabel, show(b)))
  }

  /** Exactly one of `assert_eq_as_result` and `assert_ne_as_result` accepts any two values. */
  lemma EqAndNeComplementary<T>(aLabel: string, a: T, bLabel: string, b: T, show: T -> string)
    ensures AssertEqAsResult(aLabel, a, bLabel, b, show).Ok? != AssertNeAsResult(aLabel, a, bLabel, b, show).Ok?
  {
  }

  // ---------------------------------------------------------------------
  // The test expectations, on `i32` operands labelled `a` and `b`

  lemma EqExamples()
    ensures AssertEqAsResult("a", 1, "b", 1, IntToString) == Ok(())
    ensures AssertEqAsResult("a", 1, "b", 2, IntToString) == Err(EqDiagnostic("a", "1", "b", "2"))
  {
    SmallIntToString();
  }

  lemma EqDiagnosticText()
    ensures EqDiagnostic("a", "1", "b", "2") ==
      ShortHeader("assertion", "assert_eq", "a, b")
      + " a label: `a`,\n" + " a debug: `1`,\n" + " b label: `b`,\n" + " b debug: `2`"
  {
    assert Line(" a label", "a") == " a label: `a`,\n";
    assert Line(" a debug", "1") == " a debug: `1`,\n";
    assert Line(" b label", "b") == " b label: `b`,\n";
    assert Last(" b debug", "2") == " b debug: `2`";
  }

  lemma NeExamples()
    ensures AssertNeAsResult("a", 1, "b", 2, IntToString) == Ok(())
    ensures AssertNeAsResult("a", 1, "b", 1, IntToString) == Err(NeDiagnostic("a", "1", "b", "1"))
  {
    SmallIntToString();
  }

  lemma NeDiagnosticText()
    ensures NeDiagnostic("a", "1", "b", "1") ==
      ShortHeader("assertion", "assert_ne", "left, right")
      + "  left label: `a`,\n" + "  left debug: `1`,\n"
      + " right label: `b`,\n" + " right debug: `1`,\n"
      + "        left: `1`,\n" + "       right: `1`"
  {
    assert Line("  left label", "a") == "  left label: `a`,\n";
    assert Line("  left debug", "1") == "  left debug: `1`,\n";
    assert Line(" right label", "b") == " right label: `b`,\n";
    assert Line(" right debug", "1") == " right debug: `1`,\n";
    assert Line("        left", "1") == "        left: `1`,\n";
    assert Last("       right", "1") == "       right: `1`";
  }
}
