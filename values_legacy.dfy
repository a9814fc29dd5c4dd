/**
 * The oldest plain value comparisons, each a single macro with a
 * custom-message arm: `assertable_ne` returns a `Result` (the message
 * itself is the error), `assure_io_eq` returns `Ok(bool)` and never an
 * error, and `assert_le` panics (with `{:?}` of the message).
 */
module ValuesLegacy {
  import opened Outcome
  import opened Order
  import opened Render
  import Values

  // ---------------------------------------------------------------------
  // assertable_ne

  function AssertableNeDiagnostic(leftDebug: string, rightDebug: string): string {
    ShortHeader("assertable", "assertable_ne", "left, right")
    + Line("  left", leftDebug) + Last(" right", rightDebug)
  }

  /** `assertable_ne!(left, right)` and `assertable_ne!(left, right, message)`. */
  function AssertableNe<T(==)>(left: T, right: T, show: T -> string, message: Option<string>): (r: Result<(), string>)
    ensures r.Ok? <==> left != right
    ensures r.Err? ==> r.error == if message.Some? then message.value else AssertableNeDiagnostic(show(left), show(right))
  {
    if left != right then Ok(())
    else if message.Some? then Err(message.value)
    else Err(AssertableNeDiagnostic(show(left), show(right)))
  }

  /** `assertable_ne` accepts exactly what the newer `assert_ne_as_result` accepts. */
  lemma AssertableNeAgreesWithAssertNe<T>(aLabel: string, left: T, bLabel: string, right: T, show: T -> string,
                                          message: Option<string>)
    ensures AssertableNe(left, right, show, message).Ok? == Values.AssertNeAsResult(aLabel, left, bLabel, right, show).Ok?
  {
  }

  // ---------------------------------------------------------------------
  // assure_io_eq

  /** `assure_io_eq!(left, right)` and `assure_io_eq!(left, right, message)`: the message is ignored. */
  function AssureIoEq<T(==)>(left: T, right: T, message: Option<string>): (r: Result<bool, string>)
    ensures r.Ok?
    ensures r.value <==> left == right
  {
    if left == right then Ok(true) else Ok(false)
  }

  /** `assure_io_eq` reports as a flag what `assert_eq_as_result` reports as `Ok` or `Err`. */
  lemma AssureIoEqAgreesWithAssertEq<T>(aLabel: string, left: T, bLabel: string, right: T, show: T -> string,
                                        message: Option<string>)
    ensures AssureIoEq(left, right, message) == Ok(Values.AssertEqAsResult(aLabel, left, bLabel, right, show).Ok?)
  {
  }

  // ---------------------------------------------------------------------
  // assert_le

  function LeDiagnostic(leftDebug: string, rightDebug: string): string {
    PlainHeader("assertion", "assert_le", "left, right")
    + PlainLine("  left", leftDebug) + Last(" right", rightDebug)
  }

  /** `assert_le!(left, right)` and `assert_le!(left, right, message)`. */
  function AssertLe<T>(left: T, right: T, cmp: (T, T) -> Ordering, show: T -> string, message: Option<string>): (o: Outcome<()>)
    ensures o.Returned? <==> Le(cmp, left, right)
    ensures o.Panicked? ==> o.message == DebugPanic(message, LeDiagnostic(show(left), show(right)))
  {
    if Le(cmp, left, right) then Returned(())
    else Panicked(DebugPanic(message, LeDiagnostic(show(left), show(right))))
  }

  /** Under a total order, one of the two orders of any two values passes `assert_le`. */
  lemma LeEitherWay<T(!new)>(left: T, right: T, cmp: (T, T) -> Ordering, show: T -> string, message: Option<string>)
    requires IsTotalOrder(cmp)
    ensures AssertLe(left, right, cmp, show, message).Returned? || AssertLe(right, left, cmp, show, message).Returned?
  {
    Converse(cmp, right, left);
  }

  // ---------------------------------------------------------------------
  // The test expectations, on integers

  lemma AssertableNeExamples()
    ensures AssertableNe(1, 2, IntToString, None) == Ok(())
    ensures AssertableNe(1, 1, IntToString, None) == Err(AssertableNeDiagnostic("1", "1"))
    ensures AssertableNe(1, 2, IntToString, Some("message")) == Ok(())
    ensures AssertableNe(1, 1, IntToString, Some("message")) == Err("message")
  {
    SmallIntToString();
  }

  lemma AssertableNeDiagnosticText()
    ensures AssertableNeDiagnostic("1", "1") ==
      ShortHeader("assertable", "assertable_ne", "left, right") + "  left: `1`,\n" + " right: `1`"
  {
    assert Line("  left", "1") == "  left: `1`,\n";
    assert Last(" right", "1") == " right: `1`";
  }

  lemma AssureIoEqExamples()
    ensures AssureIoEq(1, 1, None) == Ok(true)
    ensures AssureIoEq(1, 2, None) == Ok(false)
    ensures AssureIoEq(1, 1, Some("message")) == Ok(true)
    ensures AssureIoEq(1, 2, Some("message")) == Ok(false)
  {
  }

  lemma LeExamples()
    ensures AssertLe(1, 2, IntCmp, IntToString, None) == Returned(())
    ensures AssertLe(2, 1, IntCmp, IntToString, None) == Panicked(LeDiagnostic("2", "1"))
    ensures AssertLe(1, 2, IntCmp, IntToString, Some("message")) == Returned(())
    ensures AssertLe(2, 1, IntCmp, IntToString, Some("message")) == Panicked("\"message\"")
  {
    SmallIntToString();
    QuotedMessage();
  }

  lemma LeDiagnosticText()
    ensures LeDiagnostic("2", "1") == PlainHeader("assertion", "assert_le", "left, right") + "  left: `2`\n" + " right: `1`"
  {
    assert PlainLine("  left", "2") == "  left: `2`\n";
    assert Last(" right", "1") == " right: `1`";
  }
}
