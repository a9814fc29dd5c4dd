/**
 * The `Option` families.  Each has two failure modes with two diagnostic
 * shapes: an operand is `None` (the diagnostic has only the label and debug
 * lines), or both are `Some` but the inner values compare wrongly (the
 * diagnostic also shows the inner values).
 */
module Options {
  import opened Outcome
  import opened Render

  /** `{:?}` of an `Option`, given `{:?}` of its payload type. */
  function OptionDebug<T>(show: T -> string, o: Option<T>): string {
    match o
    case None => "None"
    case Some(v) => "Some(" + show(v) + ")"
  }

  /** Both operands are `Some`. */
  predicate BothSome<T>(a: Option<T>, b: Option<T>) {
    a.Some? && b.Some?
  }

  // ---------------------------------------------------------------------
  // assert_some_ne

  function SomeNeHeader(): string {
    Header("assert_some_ne", "a, b", "8.13.0")
  }

  /** Both `Some` and equal: the inner values are shown. */
  function SomeNeDiagnostic(aLabel: string, aDebug: string, aInner: string,
                            bLabel: string, bDebug: string, bInner: string): string {
    SomeNeHeader()
    + Line(" a label", aLabel) + Line(" a debug", aDebug) + Line(" a inner", aInner)
    + Line(" b label", bLabel) + Line(" b debug", bDebug) + Last(" b inner", bInner)
  }

  /** An operand is `None`: only labels and debug renderings. */
  function SomeNeNotSomeDiagnostic(aLabel: string, aDebug: string, bLabel: string, bDebug: string): string {
    SomeNeHeader()
    + Line(" a label", aLabel) + Line(" a debug", aDebug)
    + Line(" b label", bLabel) + Last(" b debug", bDebug)
  }

  /** `assert_some_ne_as_result!(a, b)`. */
  function AssertSomeNeAsResult<T(==)>(aLabel: string, a: Option<T>, bLabel: string, b: Option<T>, show: T -> string)
    : (r: Result<(), string>)
    ensures r.Ok? <==> BothSome(a, b) && a.value != b.value
    ensures BothSome(a, b) && a.value == b.value ==>
      r == Err(SomeNeDiagnostic(aLabel, OptionDebug(show, a), show(a.value), bLabel, OptionDebug(show, b), show(b.value)))
    ensures !BothSome(a, b) ==> r == Err(SomeNeNotSomeDiagnostic(aLabel, OptionDebug(show, a), bLabel, OptionDebug(show, b)))
  {
    match (a, b)
    case (Some(aInner), Some(bInner)) =>
      if aInner != bInner then Ok(())
      else Err(SomeNeDiagnostic(aLabel, OptionDebug(show, a), show(aInner), bLabel, OptionDebug(show, b), show(bInner)))
    case _ => Err(SomeNeNotSomeDiagnostic(aLabel, OptionDebug(show, a), bLabel, OptionDebug(show, b)))
  }

  /** `assert_some_ne!(a, b)` and `assert_some_ne!(a, b, message)`. */
  function AssertSomeNe<T(==)>(aLabel: string, a: Option<T>, bLabel: string, b: Option<T>, show: T -> string,
                               message: Option<string>): (o: Outcome<()>)
    ensures o.Returned? <==> BothSome(a, b) && a.value != b.value
    ensures o.Panicked? ==> o.message == if message.Some? then message.value
                                         else AssertSomeNeAsResult(aLabel, a, bLabel, b, show).error
  {
    Escalate(AssertSomeNeAsResult(aLabel, a, bLabel, b, show), message)
  }

  /** `debug_assert_some_ne!(...)`. */
  function DebugAssertSomeNe<T(==)>(debugAssertions: bool, aLabel: string, a: Option<T>, bLabel: string, b: Option<T>,
                                    show: T -> string, message: Option<string>): (o: Outcome<()>)
    ensures !debugAssertions ==> o == Returned(())
    ensures debugAssertions ==> (o.Returned? <==> BothSome(a, b) && a.value != b.value)
    ensures debugAssertions && o.Panicked? ==>
      o.message == if message.Some? then message.value else AssertSomeNeAsResult(aLabel, a, bLabel, b, show).error
  {
    Gate(debugAssertions, () => AssertSomeNe(aLabel, a, bLabel, b, show, message))
  }

  // ---------------------------------------------------------------------
  // assert_option_some_eq and assert_option_some_ne (no documentation URL line)

  /** Both `Some` but compared wrongly: the inner values end the diagnostic as `a` and `b`. */
  function OptionSomeDiagnostic(name: string, aLabel: string, aDebug: string, bLabel: string, bDebug: string,
                                aInner: string, bInner: string): string {
    ShortHeader("assertion", name, "a, b")
    + Line(" a label", aLabel) + Line(" a debug", aDebug)
    + Line(" b label", bLabel) + Line(" b debug", bDebug)
    + Line("       a", aInner) + Last("       b", bInner)
  }

  /** An operand is `None`. */
  function OptionNotSomeDiagnostic(name: string, aLabel: string, aDebug: string, bLabel: string, bDebug: string): string {
    ShortHeader("assertion", name, "a, b")
    + Line(" a label", aLabel) + Line(" a debug", aDebug)
    + Line(" b label", bLabel) + Last(" b debug", bDebug)
  }

  /** `assert_option_some_eq_as_result!(a, b)`. */
  function AssertOptionSomeEqAsResult<T(==)>(aLabel: string, a: Option<T>, bLabel: string, b: Option<T>, show: T -> string)
    : (r: Result<(), string>)
    ensures r.Ok? <==> BothSome(a, b) && a.value == b.value
    ensures BothSome(a, b) && a.value != b.value ==>
      r == Err(OptionSomeDiagnostic("assert_option_some_eq", aLabel, OptionDebug(show, a), bLabel, OptionDebug(show, b),
                                    show(a.value), show(b.value)))
    ensures !BothSome(a, b) ==>
      r == Err(OptionNotSomeDiagnostic("assert_option_some_eq", aLabel, OptionDebug(show, a), bLabel, OptionDebug(show, b)))
  {
    match (a, b)
    case (Some(x), Some(y)) =>
      if x == y then Ok(())
      else Err(OptionSomeDiagnostic("assert_option_some_eq", aLabel, OptionDebug(show, a), bLabel, OptionDebug(show, b),
                                    show(x), show(y)))
    case _ => Err(OptionNotSomeDiagnostic("assert_option_some_eq", aLabel, OptionDebug(show, a), bLabel, OptionDebug(show, b)))
  }

  /** `assert_option_some_eq!(a, b)` and `assert_option_some_eq!(a, b, message)`. */
  function AssertOptionSomeEq<T(==)>(aLabel: string, a: Option<T>, bLabel: string, b: Option<T>, show: T -> string,
                                     message: Option<string>): (o: Outcome<()>)
    ensures o.Returned? <==> BothSome(a, b) && a.value == b.value
    ensures o.Panicked? ==> o.message == if message.Some? then message.value
                                         else AssertOptionSomeEqAsResult(aLabel, a, bLabel, b, show).error
  {
    Escalate(AssertOptionSomeEqAsResult(aLabel, a, bLabel, b, show), message)
  }

  /**
   * `assert_option_some_ne_as_result!(a, b)`: written as an `is_some` test
   * followed by `unwrap`, with the same two failure shapes.
   */
  function AssertOptionSomeNeAsResult<T(==)>(aLabel: string, a: Option<T>, bLabel: string, b: Option<T>, show: T -> string)
    : (r: Result<(), string>)
    ensures r.Ok? <==> BothSome(a, b) && a.value != b.value
    ensures BothSome(a, b) && a.value == b.value ==>
      r == Err(OptionSomeDiagnostic("assert_option_some_ne", aLabel, OptionDebug(show, a), bLabel, OptionDebug(show, b),
                                    show(a.value), show(b.value)))
    ensures !BothSome(a, b) ==>
      r == Err(OptionNotSomeDiagnostic("assert_option_some_ne", aLabel, OptionDebug(show, a), bLabel, OptionDebug(show, b)))
  {
    if !a.Some? || !b.Some? then
      Err(OptionNotSomeDiagnostic("assert_option_some_ne", aLabel, OptionDebug(show, a), bLabel, OptionDebug(show, b)))
    else
      var x := a.value;
      var y := b.value;
      if x != y then Ok(())
      else Err(OptionSomeDiagnostic("assert_option_some_ne", aLabel, OptionDebug(show, a), bLabel, OptionDebug(show, b),
                                    show(x), show(y)))
  }

  /** `assert_option_some_ne!(a, b)` and `assert_option_some_ne!(a, b, message)`. */
  function AssertOptionSomeNe<T(==)>(aLabel: string, a: Option<T>, bLabel: string, b: Option<T>, show: T -> string,
                                     message: Option<string>): (o: Outcome<()>)
    ensures o.Returned? <==> BothSome(a, b) && a.value != b.value
    ensures o.Panicked? ==> o.message == if message.Some? then message.value
                                         else AssertOptionSomeNeAsResult(aLabel, a, bLabel, b, show).error
  {
    Escalate(AssertOptionSomeNeAsResult(aLabel, a, bLabel, b, show), message)
  }

  // ---------------------------------------------------------------------
  // Relations between the families

  /** On two `Some` operands exactly one of `assert_option_some_eq` and `assert_option_some_ne` passes. */
  lemma OptionSomeEqNeComplementary<T>(aLabel: string, a: Option<T>, bLabel: string, b: Option<T>, show: T -> string)
    requires BothSome(a, b)
    ensures AssertOptionSomeEqAsResult(aLabel, a, bLabel, b, show).Ok?
        != AssertOptionSomeNeAsResult(aLabel, a, bLabel, b, show).Ok?
  {
  }

  /** A `None` operand fails all three comparisons, whatever the other operand is. */
  lemma NoneFailsEveryComparison<T>(aLabel: string, a: Option<T>, bLabel: string, b: Option<T>, show: T -> string)
    requires a.None? || b.None?
    ensures AssertSomeNeAsResult(aLabel, a, bLabel, b, show).Err?
    ensures AssertOptionSomeEqAsResult(aLabel, a, bLabel, b, show).Err?
    ensures AssertOptionSomeNeAsResult(aLabel, a, bLabel, b, show).Err?
  {
  }

  /** `assert_some_ne` and `assert_option_some_ne` accept the same operands. */
  lemma SomeNeAgreesWithOptionSomeNe<T>(aLabel: string, a: Option<T>, bLabel: string, b: Option<T>, show: T -> string)
    ensures AssertSomeNeAsResult(aLabel, a, bLabel, b, show).Ok?
        == AssertOptionSomeNeAsResult(aLabel, a, bLabel, b, show).Ok?
  {
  }

  // ---------------------------------------------------------------------
  // The test expectations, on `Option<i8>` operands labelled `a` and `b`

  lemma OptionRenderings()
    ensures OptionDebug(IntToString, Some(1)) == "Some(1)"
    ensures OptionDebug(IntToString, Some(2)) == "Some(2)"
    ensures OptionDebug(IntToString, None) == "None"
  {
    SmallIntToString();
  }

  lemma SomeNeExamples()
    ensures AssertSomeNeAsResult("a", Some(1), "b", Some(2), IntToString) == Ok(())
    ensures AssertSomeNeAsResult("a", Some(1), "b", Some(1), IntToString)
         == Err(SomeNeDiagnostic("a", "Some(1)", "1", "b", "Some(1)", "1"))
    ensures AssertSomeNeAsResult("a", None, "b", Some(1), IntToString)
         == Err(SomeNeNotSomeDiagnostic("a", "None", "b", "Some(1)"))
  {
    OptionRenderings();
    SmallIntToString();
  }

  lemma SomeNeDiagnosticText()
    ensures SomeNeDiagnostic("a", "Some(1)", "1", "b", "Some(1)", "1") ==
      Header("assert_some_ne", "a, b", "8.13.0")
      + " a label: `a`,\n" + " a debug: `Some(1)`,\n" + " a inner: `1`,\n"
      + " b label: `b`,\n" + " b debug: `Some(1)`,\n" + " b inner: `1`"
  {
    assert Line(" a label", "a") == " a label: `a`,\n";
    assert Line(" a debug", "Some(1)") == " a debug: `Some(1)`,\n";
    assert Line(" a inner", "1") == " a inner: `1`,\n";
    assert Line(" b label", "b") == " b label: `b`,\n";
    assert Line(" b debug", "Some(1)") == " b debug: `Some(1)`,\n";
    assert Last(" b inner", "1") == " b inner: `1`";
  }

  lemma SomeNeNotSomeDiagnosticText()
    ensures SomeNeNotSomeDiagnostic("a", "None", "b", "Some(1)") ==
      Header("assert_some_ne", "a, b", "8.13.0")
      + " a label: `a`,\n" + " a debug: `None`,\n"
      + " b label: `b`,\n" + " b debug: `Some(1)`"
  {
    assert Line(" a label", "a") == " a label: `a`,\n";
    assert Line(" a debug", "None") == " a debug: `None`,\n";
    assert Line(" b label", "b") == " b label: `b`,\n";
    assert Last(" b debug", "Some(1)") == " b debug: `Some(1)`";
  }

  lemma OptionSomeExamples()
    ensures AssertOptionSomeEqAsResult("a", Some(1), "b", Some(1), IntToString) == Ok(())
    ensures AssertOptionSomeEqAsResult("a", Some(1), "b", Some(2), IntToString)
         == Err(OptionSomeDiagnostic("assert_option_some_eq", "a", "Some(1)", "b", "Some(2)", "1", "2"))
    ensures AssertOptionSomeEqAsResult("a", Some(1), "b", None, IntToString)
         == Err(OptionNotSomeDiagnostic("assert_option_some_eq", "a", "Some(1)", "b", "None"))
    ensures AssertOptionSomeNeAsResult("a", Some(1), "b", Some(2), IntToString) == Ok(())
    ensures AssertOptionSomeNeAsResult("a", Some(1), "b", Some(1), IntToString)
         == Err(OptionSomeDiagnostic("assert_option_some_ne", "a", "Some(1)", "b", "Some(1)", "1", "1"))
    ensures AssertOptionSomeNeAsResult("a", Some(1), "b", None, IntToString)
         == Err(OptionNotSomeDiagnostic("assert_option_some_ne", "a", "Some(1)", "b", "None"))
  {
    OptionRenderings();
    SmallIntToString();
  }

  lemma OptionSomeEqDiagnosticText()
    ensures OptionSomeDiagnostic("assert_option_some_eq", "a", "Some(1)", "b", "Some(2)", "1", "2") ==
      ShortHeader("assertion", "assert_option_some_eq", "a, b")
      + " a label: `a`,\n" + " a debug: `Some(1)`,\n"
      + " b label: `b`,\n" + " b debug: `Some(2)`,\n"
      + "       a: `1`,\n" + "       b: `2`"
  {
    assert Line(" a label", "a") == " a label: `a`,\n";
    assert Line(" a debug", "Some(1)") == " a debug: `Some(1)`,\n";
    assert Line(" b label", "b") == " b label: `b`,\n";
    assert Line(" b debug", "Some(2)") == " b debug: `Some(2)`,\n";
    assert Line("       a", "1") == "       a: `1`,\n";
    assert Last("       b", "2") == "       b: `2`";
  }

  lemma OptionSomeEqNotSomeDiagnosticText()
    ensures OptionNotSomeDiagnostic("assert_option_some_eq", "a", "Some(1)", "b", "None") ==
      ShortHeader("assertion", "assert_option_some_eq", "a, b")
      + " a label: `a`,\n" + " a debug: `Some(1)`,\n"
      + " b label: `b`,\n" + " b debug: `None`"
  {
    assert Line(" a label", "a") == " a label: `a`,\n";
    assert Line(" a debug", "Some(1)") == " a debug: `Some(1)`,\n";
    assert Line(" b label", "b") == " b label: `b`,\n";
    assert Last(" b debug", "None") == " b debug: `None`";
  }

  lemma OptionSomeNeDiagnosticText()
    ensures OptionSomeDiagnostic("assert_option_some_ne", "a", "Some(1)", "b", "Some(1)", "1", "1") ==
      ShortHeader("assertion", "assert_option_some_ne", "a, b")
      + " a label: `a`,\n" + " a debug: `Some(1)`,\n"
      + " b label: `b`,\n" + " b debug: `Some(1)`,\n"
      + "       a: `1`,\n" + "       b: `1`"
  {
    assert Line(" a label", "a") == " a label: `a`,\n";
    assert Line(" a debug", "Some(1)") == " a debug: `Some(1)`,\n";
    assert Line(" b label", "b") == " b label: `b`,\n";
    assert Line(" b debug", "Some(1)") == " b debug: `Some(1)`,\n";
    assert Line("       a", "1") == "       a: `1`,\n";
    assert Last("       b", "1") == "       b: `1`";
  }

  lemma OptionSomeNeNotSomeDiagnosticText()
    ensures OptionNotSomeDiagnostic("assert_option_some_ne", "a", "Some(1)", "b", "None") ==
      ShortHeader("assertion", "assert_option_some_ne", "a, b")
      + " a label: `a`,\n" + " a debug: `Some(1)`,\n"
      + " b label: `b`,\n" + " b debug: `None`"
  {
    assert Line(" a label", "a") == " a label: `a`,\n";
    assert Line(" a debug", "Some(1)") == " a debug: `Some(1)`,\n";
    assert Line(" b label", "b") == " b label: `b`,\n";
    assert Last(" b debug", "None") == " b debug: `None`";
  }
}
