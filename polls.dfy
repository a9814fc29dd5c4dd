/**
 * The `Poll` families: both operands must be `Ready`, and then their
 * payloads are compared.  A `Pending` operand gives the short diagnostic,
 * a wrong comparison the one with `a inner` and `b inner` lines.
 */
module Polls {
  import opened Outcome
  import opened Render

  /** `{:?}` of a `Poll`, given `{:?}` of its payload type. */
  function PollDebug<T>(show: T -> string, p: Poll<T>): string {
    match p
    case Ready(v) => "Ready(" + show(v) + ")"
    case Pending => "Pending"
  }

  predicate BothReady<T>(a: Poll<T>, b: Poll<T>) {
    a.Ready? && b.Ready?
  }

  /** Both `Ready`, compared wrongly. */
  function InnersDiagnostic(header: string, aLabel: string, aDebug: string, aInner: string,
                            bLabel: string, bDebug: string, bInner: string): string {
    header
    + Line(" a label", aLabel) + Line(" a debug", aDebug) + Line(" a inner", aInner)
    + Line(" b label", bLabel) + Line(" b debug", bDebug) + Last(" b inner", bInner)
  }

  /** An operand is `Pending`. */
  function NotReadyDiagnostic(header: string, aLabel: string, aDebug: string, bLabel: string, bDebug: string): string {
    header
    + Line(" a label", aLabel) + Line(" a debug", aDebug)
    + Line(" b label", bLabel) + Last(" b debug", bDebug)
  }

  // ---------------------------------------------------------------------
  // assert_ready_eq2

  function ReadyEq2Header(): string {
    Header("assert_ready_eq2", "a, b", "9.0.0")
  }

  /** `assert_ready_eq2_as_result!(a, b)`: on success, the two payloads. */
  function AssertReadyEq2AsResult<T(==)>(aLabel: string, a: Poll<T>, bLabel: string, b: Poll<T>, show: T -> string)
    : (r: Result<(T, T), string>)
    ensures r.Ok? <==> BothReady(a, b) && a.value == b.value
    ensures r.Ok? ==> r.value == (a.value, b.value)
    ensures BothReady(a, b) && a.value != b.value ==>
      r == Err(InnersDiagnostic(ReadyEq2Header(), aLabel, PollDebug(show, a), show(a.value), bLabel, PollDebug(show, b), show(b.value)))
    ensures !BothReady(a, b) ==> r == Err(NotReadyDiagnostic(ReadyEq2Header(), aLabel, PollDebug(show, a), bLabel, PollDebug(show, b)))
  {
    match (a, b)
    case (Ready(a1), Ready(b1)) =>
      if a1 == b1 then Ok((a1, b1))
      else Err(InnersDiagnostic(ReadyEq2Header(), aLabel, PollDebug(show, a), show(a1), bLabel, PollDebug(show, b), show(b1)))
    case _ => Err(NotReadyDiagnostic(ReadyEq2Header(), aLabel, PollDebug(show, a), bLabel, PollDebug(show, b)))
  }

  /** `assert_ready_eq2!(a, b)` and `assert_ready_eq2!(a, b, message)`: evaluates to the payload pair. */
  function AssertReadyEq2<T(==)>(aLabel: string, a: Poll<T>, bLabel: string, b: Poll<T>, show: T -> string,
                                 message: Option<string>): (o: Outcome<(T, T)>)
    ensures o.Returned? <==> BothReady(a, b) && a.value == b.value
    ensures o.Returned? ==> o.value == (a.value, b.value)
    ensures o.Panicked? ==> o.message == if message.Some? then message.value
                                         else AssertReadyEq2AsResult(aLabel, a, bLabel, b, show).error
  {
    Escalate(AssertReadyEq2AsResult(aLabel, a, bLabel, b, show), message)
  }

  // ---------------------------------------------------------------------
  // assert_poll_ready_ne (deprecated in favour of assert_ready_ne)

  function PollReadyNeHeader(): string {
    Header("assert_poll_ready_ne", "a, b", "8.7.0")
  }

  /** `assert_poll_ready_ne_as_result!(a, b)`. */
  function AssertPollReadyNeAsResult<T(==)>(aLabel: string, a: Poll<T>, bLabel: string, b: Poll<T>, show: T -> string)
    : (r: Result<(), string>)
    ensures r.Ok? <==> BothReady(a, b) && a.value != b.value
    ensures BothReady(a, b) && a.value == b.value ==>
      r == Err(InnersDiagnostic(PollReadyNeHeader(), aLabel, PollDebug(show, a), show(a.value), bLabel, PollDebug(show, b), show(b.value)))
    ensures !BothReady(a, b) ==> r == Err(NotReadyDiagnostic(PollReadyNeHeader(), aLabel, PollDebug(show, a), bLabel, PollDebug(show, b)))
  {
    match (a, b)
    case (Ready(aInner), Ready(bInner)) =>
      if aInner != bInner then Ok(())
      else Err(InnersDiagnostic(PollReadyNeHeader(), aLabel, PollDebug(show, a), show(aInner), bLabel, PollDebug(show, b), show(bInner)))
    case _ => Err(NotReadyDiagnostic(PollReadyNeHeader(), aLabel, PollDebug(show, a), bLabel, PollDebug(show, b)))
  }

  /** `assert_poll_ready_ne!(a, b)` and `assert_poll_ready_ne!(a, b, message)`. */
  function AssertPollReadyNe<T(==)>(aLabel: string, a: Poll<T>, bLabel: string, b: Poll<T>, show: T -> string,
                                    message: Option<string>): (o: Outcome<()>)
    ensures o.Returned? <==> BothReady(a, b) && a.value != b.value
    ensures o.Panicked? ==> o.message == if message.Some? then message.value
                                         else AssertPollReadyNeAsResult(aLabel, a, bLabel, b, show).error
  {
    Escalate(AssertPollReadyNeAsResult(aLabel, a, bLabel, b, show), message)
  }

  /** On two `Ready` operands exactly one of the two families passes; a `Pending` operand fails both. */
  lemma ReadyEq2AndPollReadyNeComplementary<T>(aLabel: string, a: Poll<T>, bLabel: string, b: Poll<T>, show: T -> string)
    ensures BothReady(a, b) ==>
      AssertReadyEq2AsResult(aLabel, a, bLabel, b, show).Ok? != AssertPollReadyNeAsResult(aLabel, a, bLabel, b, show).Ok?
    ensures !BothReady(a, b) ==>
      AssertReadyEq2AsResult(aLabel, a, bLabel, b, show).Err? && AssertPollReadyNeAsResult(aLabel, a, bLabel, b, show).Err?
  {
  }

  // ---------------------------------------------------------------------
  // The test expectations, on `Poll<i8>` operands labelled `a` and `b`

  lemma PollRenderings()
    ensures PollDebug(IntToString, Ready(1)) == "Ready(1)"
    ensures PollDebug(IntToString, Ready(2)) == "Ready(2)"
    ensures PollDebug(IntToString, Pending) == "Pending"
  {
    SmallIntToString();
  }

  lemma ReadyEq2Examples()
    ensures AssertReadyEq2AsResult("a", Ready(1), "b", Ready(1), IntToString) == Ok((1, 1))
    ensures AssertReadyEq2AsResult("a", Ready(1), "b", Ready(2), IntToString)
         == Err(InnersDiagnostic(ReadyEq2Header(), "a", "Ready(1)", "1", "b", "Ready(2)", "2"))
    ensures AssertReadyEq2AsResult("a", Pending, "b", Ready(1), IntToString)
         == Err(NotReadyDiagnostic(ReadyEq2Header(), "a", "Pending", "b", "Ready(1)"))
  {
    PollRenderings();
    SmallIntToString();
  }

  lemma ReadyEq2DiagnosticText()
    ensures InnersDiagnostic(ReadyEq2Header(), "a", "Ready(1)", "1", "b", "Ready(2)", "2") ==
      ReadyEq2Header()
      + " a label: `a`,\n" + " a debug: `Ready(1)`,\n" + " a inner: `1`,\n"
      + " b label: `b`,\n" + " b debug: `Ready(2)`,\n" + " b inner: `2`"
  {
    assert Line(" a label", "a") == " a label: `a`,\n";
    assert Line(" a debug", "Ready(1)") == " a debug: `Ready(1)`,\n";
    assert Line(" a inner", "1") == " a inner: `1`,\n";
    assert Line(" b label", "b") == " b label: `b`,\n";
    assert Line(" b debug", "Ready(2)") == " b debug: `Ready(2)`,\n";
    assert Last(" b inner", "2") == " b inner: `2`";
  }

  lemma ReadyEq2NotReadyDiagnosticText()
    ensures NotReadyDiagnostic(ReadyEq2Header(), "a", "Pending", "b", "Ready(1)") ==
      ReadyEq2Header()
      + " a label: `a`,\n" + " a debug: `Pending`,\n"
      + " b label: `b`,\n" + " b debug: `Ready(1)`"
  {
    assert Line(" a label", "a") == " a label: `a`,\n";
    assert Line(" a debug", "Pending") == " a debug: `Pending`,\n";
    assert Line(" b label", "b") == " b label: `b`,\n";
    assert Last(" b debug", "Ready(1)") == " b debug: `Ready(1)`";
  }

  lemma PollReadyNeExamples()
    ensures AssertPollReadyNeAsResult("a", Ready(1), "b", Ready(2), IntToString) == Ok(())
    ensures AssertPollReadyNeAsResult("a", Ready(1), "b", Ready(1), IntToString)
         == Err(InnersDiagnostic(PollReadyNeHeader(), "a", "Ready(1)", "1", "b", "Ready(1)", "1"))
    ensures AssertPollReadyNeAsResult("a", Ready(1), "b", Pending, IntToString)
         == Err(NotReadyDiagnostic(PollReadyNeHeader(), "a", "Ready(1)", "b", "Pending"))
  {
    PollRenderings();
    SmallIntToString();
  }

  lemma PollReadyNeDiagnosticText()
    ensures InnersDiagnostic(PollReadyNeHeader(), "a", "Ready(1)", "1", "b", "Ready(1)", "1") ==
      PollReadyNeHeader()
      + " a label: `a`,\n" + " a debug: `Ready(1)`,\n" + " a inner: `1`,\n"
      + " b label: `b`,\n" + " b debug: `Ready(1)`,\n" + " b inner: `1`"
  {
    assert Line(" a label", "a") == " a label: `a`,\n";
    assert Line(" a debug", "Ready(1)") == " a debug: `Ready(1)`,\n";
    assert Line(" a inner", "1") == " a inner: `1`,\n";
    assert Line(" b label", "b") == " b label: `b`,\n";
    assert Line(" b debug", "Ready(1)") == " b debug: `Ready(1)`,\n";
    assert Last(" b inner", "1") == " b inner: `1`";
  }

  lemma PollReadyNeNotReadyDiagnosticText()
    ensures NotReadyDiagnostic(PollReadyNeHeader(), "a", "Ready(1)", "b", "Pending") ==
      PollReadyNeHeader()
      + " a label: `a`,\n" + " a debug: `Ready(1)`,\n"
      + " b label: `b`,\n" + " b debug: `Pending`"
  {
    assert Line(" a label", "a") == " a label: `a`,\n";
    assert Line(" a debug", "Ready(1)") == " a debug: `Ready(1)`,\n";
    assert Line(" b label", "b") == " b label: `b`,\n";
    assert Last(" b debug", "Pending") == " b debug: `Pending`";
  }
}
