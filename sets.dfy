/**
 * The set families: each collection is collected into a set (`BTreeSet`
 * or `HashSet`), so order and duplicates are forgotten, and the sets are
 * compared.
 */
module Sets {
  import opened Outcome
  import opened Render

  /** `into_iter().collect()` into a set. */
  function SetOf<T(==)>(s: seq<T>): set<T> {
    set x | x in s
  }

  lemma SetOfMembers<T>(s: seq<T>)
    ensures forall x :: x in SetOf(s) <==> x in s
  {
  }

  // ---------------------------------------------------------------------
  // assert_set_superset_other

  function SupersetOtherDiagnostic(aLabel: string, aDebug: string, bLabel: string, bDebug: string,
                                   aSet: string, bSet: string): string {
    ShortHeader("assertion", "assert_set_superset_other", "left_set, right_set")
    + Line("  left_set label", aLabel)
    + Line("  left_set debug", aDebug)
    + Line(" right_set label", bLabel)
    + Line(" right_set debug", bDebug)
    + Line("            left", aSet)
    + Last("           right", bSet)
  }

  /** Every element of `b` occurs somewhere in `a`. */
  ghost predicate Contains<T>(a: seq<T>, b: seq<T>) {
    forall x :: x in b ==> x in a
  }

  /**
   * `assert_set_superset_other_as_result!(a, b)`: `Ok(())` when the set of
   * `a` includes the set of `b`; otherwise the diagnostic shows the
   * collections as given and the two sets.
   */
  function AssertSetSupersetOtherAsResult<T(==)>(aLabel: string, a: seq<T>, bLabel: string, b: seq<T>,
                                                 show: seq<T> -> string, showSet: set<T> -> string)
    : (r: Result<(), string>)
    ensures r.Ok? <==> Contains(a, b)
    ensures r.Err? ==> r.error == SupersetOtherDiagnostic(aLabel, show(a), bLabel, show(b), showSet(SetOf(a)), showSet(SetOf(b)))
  {
    var aSet := SetOf(a);
    var bSet := SetOf(b);
    SetOfMembers(a);
    SetOfMembers(b);
    if aSet >= bSet then Ok(())
    else Err(SupersetOtherDiagnostic(aLabel, show(a), bLabel, show(b), showSet(aSet), showSet(bSet)))
  }

  function AssertSetSupersetOther<T(==)>(aLabel: string, a: seq<T>, bLabel: string, b: seq<T>,
                                         show: seq<T> -> string, showSet: set<T> -> string, message: Option<string>)
    : (o: Outcome<()>)
    ensures o.Returned? <==> Contains(a, b)
    ensures o.Panicked? ==> o.message == if message.Some? then message.value
                                         else SupersetOtherDiagnostic(aLabel, show(a), bLabel, show(b), showSet(SetOf(a)), showSet(SetOf(b)))
  {
    Escalate(AssertSetSupersetOtherAsResult(aLabel, a, bLabel, b, show, showSet), message)
  }

  function DebugAssertSetSupersetOther<T(==)>(debugAssertions: bool, aLabel: string, a: seq<T>, bLabel: string, b: seq<T>,
                                              show: seq<T> -> string, showSet: set<T> -> string, message: Option<string>)
    : (o: Outcome<()>)
    ensures !debugAssertions ==> o == Returned(())
    ensures debugAssertions ==> (o.Returned? <==> Contains(a, b))
    ensures debugAssertions && o.Panicked? ==> o.message == if message.Some? then message.value
                                                            else SupersetOtherDiagnostic(aLabel, show(a), bLabel, show(b), showSet(SetOf(a)), showSet(SetOf(b)))
  {
    Gate(debugAssertions, () => AssertSetSupersetOther(aLabel, a, bLabel, b, show, showSet, message))
  }

  /** Only the sets matter: reordering or repeating elements does not change whether the check passes. */
  lemma SupersetOtherIgnoresOrderAndDuplicates<T>(aLabel: string, a: seq<T>, a2: seq<T>, bLabel: string, b: seq<T>, b2: seq<T>,
                                                  show: seq<T> -> string, showSet: set<T> -> string)
    requires SetOf(a) == SetOf(a2) && SetOf(b) == SetOf(b2)
    ensures AssertSetSupersetOtherAsResult(aLabel, a, bLabel, b, show, showSet).Ok?
        == AssertSetSupersetOtherAsResult(aLabel, a2, bLabel, b2, show, showSet).Ok?
  {
    assert forall x :: x in a <==> x in SetOf(a);
    assert forall x :: x in a2 <==> x in SetOf(a2);
    assert forall x :: x in b <==> x in SetOf(b);
    assert forall x :: x in b2 <==> x in SetOf(b2);
  }

  lemma SetOfLiterals()
    ensures SetOf([1, 2]) == {1, 2} && SetOf([1, 2, 3]) == {1, 2, 3}
  {
    assert forall x :: x in SetOf([1, 2]) <==> x in {1, 2};
    assert forall x :: x in SetOf([1, 2, 3]) <==> x in {1, 2, 3};
  }

  lemma JoinedLiterals()
    ensures Joined(IntToString, [1, 2]) == "1, 2"
    ensures Joined(IntToString, [1, 2, 3]) == "1, 2, 3"
  {
    assert IntToString(1) == "1" && IntToString(2) == "2" && IntToString(3) == "3";
    assert Joined(IntToString, [2]) == "2";
    assert Joined(IntToString, [3]) == "3";
    assert Joined(IntToString, [2, 3]) == "2, 3";
    assert [1, 2, 3][1..] == [2, 3];
    assert [1, 2][1..] == [2];
  }

  lemma SetRenderings()
    ensures IntSetDebug(SetOf([1, 2])) == "{1, 2}"
    ensures IntSetDebug(SetOf([1, 2, 3])) == "{1, 2, 3}"
    ensures IntSeqDebug([1, 2]) == "[1, 2]" && IntSeqDebug([1, 2, 3]) == "[1, 2, 3]"
  {
    SetOfLiterals();
    AscendingTwo(1, 2);
    AscendingThree(1, 2, 3);
    JoinedLiterals();
  }

  lemma SupersetOtherExamples()
    ensures AssertSetSupersetOtherAsResult("&a", [1, 2, 3], "&b", [1, 2], IntSeqDebug, IntSetDebug) == Ok(())
    ensures AssertSetSupersetOtherAsResult("&a", [1, 2], "&b", [1, 2, 3], IntSeqDebug, IntSetDebug)
         == Err(SupersetOtherDiagnostic("&a", "[1, 2]", "&b", "[1, 2, 3]", "{1, 2}", "{1, 2, 3}"))
  {
    assert 3 in [1, 2, 3] && 3 !in [1, 2];
    SetRenderings();
  }

  lemma SupersetOtherDiagnosticText()
    ensures SupersetOtherDiagnostic("&a", "[1, 2]", "&b", "[1, 2, 3]", "{1, 2}", "{1, 2, 3}") ==
      ShortHeader("assertion", "assert_set_superset_other", "left_set, right_set")
      + "  left_set label: `&a`,\n"
      + "  left_set debug: `[1, 2]`,\n"
      + " right_set label: `&b`,\n"
      + " right_set debug: `[1, 2, 3]`,\n"
      + "            left: `{1, 2}`,\n"
      + "           right: `{1, 2, 3}`"
  {
    assert Line("  left_set label", "&a") == "  left_set label: `&a`,\n";
    assert Line("  left_set debug", "[1, 2]") == "  left_set debug: `[1, 2]`,\n";
    assert Line(" right_set label", "&b") == " right_set label: `&b`,\n";
    assert Line(" right_set debug", "[1, 2, 3]") == " right_set debug: `[1, 2, 3]`,\n";
    assert Line("            left", "{1, 2}") == "            left: `{1, 2}`,\n";
    assert Last("           right", "{1, 2, 3}") == "           right: `{1, 2, 3}`";
  }

  // ---------------------------------------------------------------------
  // assertable_set_subset

  function SetSubsetDiagnostic(left: string, right: string): string {
    ShortHeader("assertable", "assertable_set_subset", "left, right")
    + Line("  left", left)
    + Last(" right", right)
  }

  /**
   * `assertable_set_subset!(left, right)` and, with `message` given,
   * `assertable_set_subset!(left, right, message)`, whose failure is
   * `Err(message)` itself.  The default text shows the collections, not the sets.
   */
  function AssertableSetSubset<T(==)>(left: seq<T>, right: seq<T>, show: seq<T> -> string, message: Option<string>)
    : (r: Result<(), string>)
    ensures r.Ok? <==> Contains(right, left)
    ensures r.Err? && message.None? ==> r.error == SetSubsetDiagnostic(show(left), show(right))
    ensures r.Err? && message.Some? ==> r.error == message.value
  {
    var leftSet := SetOf(left);
    var rightSet := SetOf(right);
    SetOfMembers(left);
    SetOfMembers(right);
    if leftSet <= rightSet then Ok(())
    else if message.Some? then Err(message.value)
    else Err(SetSubsetDiagnostic(show(left), show(right)))
  }

  /** `assertable_set_subset!(l, r)` passes exactly when `assert_set_superset_other!(r, l)` does. */
  lemma SubsetIsConverseOfSuperset<T>(left: seq<T>, right: seq<T>, show: seq<T> -> string, message: Option<string>,
                                      rightLabel: string, leftLabel: string, showSet: set<T> -> string)
    ensures AssertableSetSubset(left, right, show, message).Ok?
        == AssertSetSupersetOtherAsResult(rightLabel, right, leftLabel, left, show, showSet).Ok?
  {
  }

  lemma SetSubsetExamples()
    ensures AssertableSetSubset([1, 2], [1, 2, 3], IntSeqDebug, None) == Ok(())
    ensures AssertableSetSubset([1, 2, 3], [1, 2], IntSeqDebug, None) == Err(SetSubsetDiagnostic("[1, 2, 3]", "[1, 2]"))
    ensures AssertableSetSubset([1, 2], [1, 2, 3], IntSeqDebug, Some("message")) == Ok(())
    ensures AssertableSetSubset([1, 2, 3], [3, 2], IntSeqDebug, Some("message")) == Err("message")
  {
    assert 3 in [1, 2, 3] && 3 !in [1, 2];
    assert 1 in [1, 2, 3] && 1 !in [3, 2];
    SetRenderings();
  }

  lemma SetSubsetDiagnosticText()
    ensures SetSubsetDiagnostic("[1, 2, 3]", "[1, 2]")
         == ShortHeader("assertable", "assertable_set_subset", "left, right") + "  left: `[1, 2, 3]`,\n" + " right: `[1, 2]`"
  {
    assert Line("  left", "[1, 2, 3]") == "  left: `[1, 2, 3]`,\n";
    assert Last(" right", "[1, 2]") == " right: `[1, 2]`";
  }
}
