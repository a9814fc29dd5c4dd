/**
 * The bag (multiset) families.  Each collection is tallied into a count map
 * by a counting loop (`let n = bag.entry(x).or_insert(0); *n += 1;`), and
 * the tallies are compared: superbag, equality, inequality.  The tally of a
 * sequence is `BagOf`, the map from each element to its number of
 * occurrences; comparing tallies is comparing multisets.
 */
module Bag {
  import opened Outcome
  import opened Render

  /** The tally a counting loop builds: each element of `s` mapped to its number of occurrences. */
  function BagOf<T(==)>(s: seq<T>): map<T, nat> {
    map x | x in multiset(s) :: multiset(s)[x]
  }

  /** The count of `x` in a tally, zero when `x` is not a key. */
  function Count<T(==)>(bag: map<T, nat>, x: T): nat {
    if x in bag then bag[x] else 0
  }

  /** One step of the counting loop: `entry(x).or_insert(0)` then `+= 1`. */
  function Bump<T(==)>(bag: map<T, nat>, x: T): map<T, nat> {
    bag[x := Count(bag, x) + 1]
  }

  lemma BagOfSnoc<T>(s: seq<T>, x: T)
    ensures BagOf(s + [x]) == Bump(BagOf(s), x)
  {
    assert multiset(s + [x]) == multiset(s) + multiset{x};
    var l, r := BagOf(s + [x]), Bump(BagOf(s), x);
    assert forall y :: y in l <==> y in r;
    assert forall y :: y in l ==> l[y] == r[y];
  }

  /** The counting loop of every bag macro. */
  method Tally<T(==)>(s: seq<T>) returns (bag: map<T, nat>)
    ensures bag == BagOf(s)
  {
    bag := map[];
    var i := 0;
    while i < |s|
      invariant 0 <= i <= |s|
      invariant bag == BagOf(s[..i])
    {
      assert s[..i + 1] == s[..i] + [s[i]];
      BagOfSnoc(s[..i], s[i]);
      bag := Bump(bag, s[i]);
      i := i + 1;
    }
    assert s[..i] == s;
  }

  /** A key of the tally of `s` is an element of `s`, counted as often as it occurs. */
  lemma BagOfCounts<T>(s: seq<T>, x: T)
    ensures x in BagOf(s) <==> x in s
    ensures Count(BagOf(s), x) == multiset(s)[x]
  {
  }

  /**
   * The `all` closure of `assert_bag_superbag_as_result`.  Every key of
   * `b` must be a key of both tallies, and `a_bag.get_key_value(&key) >=
   * b_bag.get_key_value(&key)`.  Both sides are `Some((key, count))` with the
   * same key, so the comparison falls through to the counts.
   */
  predicate Covers<T(==)>(b: seq<T>, aBag: map<T, nat>, bBag: map<T, nat>) {
    forall i :: 0 <= i < |b| ==> b[i] in aBag && b[i] in bBag && aBag[b[i]] >= bBag[b[i]]
  }

  /** The superbag check accepts exactly when `b` is a sub-multiset of `a`. */
  lemma CoversIffSubMultiset<T>(a: seq<T>, b: seq<T>)
    ensures Covers(b, BagOf(a), BagOf(b)) <==> multiset(b) <= multiset(a)
  {
    if Covers(b, BagOf(a), BagOf(b)) {
      forall x ensures multiset(b)[x] <= multiset(a)[x] {
        if x in b {
          var i :| 0 <= i < |b| && b[i] == x;
          BagOfCounts(a, x);
          BagOfCounts(b, x);
        }
      }
    }
    if multiset(b) <= multiset(a) {
      forall i | 0 <= i < |b|
        ensures b[i] in BagOf(a) && b[i] in BagOf(b) && BagOf(a)[b[i]] >= BagOf(b)[b[i]]
      {
        BagOfCounts(a, b[i]);
        BagOfCounts(b, b[i]);
      }
    }
  }

  /** Equal tallies are equal multisets. */
  lemma BagOfEqIff<T>(a: seq<T>, b: seq<T>)
    ensures BagOf(a) == BagOf(b) <==> multiset(a) == multiset(b)
  {
    if BagOf(a) == BagOf(b) {
      forall x ensures multiset(a)[x] == multiset(b)[x] {
        BagOfCounts(a, x);
        BagOfCounts(b, x);
      }
    }
  }

  // ---------------------------------------------------------------------
  // assert_bag_superbag

  function SuperbagDiagnostic(aLabel: string, aDebug: string, bLabel: string, bDebug: string,
                              aBag: string, bBag: string): string {
    ShortHeader("assertion", "assert_bag_superbag", "a_bag, b_bag")
    + Line(" a label", aLabel)
    + Line(" a debug", aDebug)
    + Line(" b label", bLabel)
    + Line(" b debug", bDebug)
    + Line("       a", aBag)
    + Last("       b", bBag)
  }

  /**
   * What `assert_bag_superbag_as_result!(a, b)` evaluates to: `Ok(())` when
   * `b` is a sub-multiset of `a`, otherwise the diagnostic showing both
   * labels, both collections and both tallies.
   */
  function SuperbagResult<T(==)>(aLabel: string, a: seq<T>, bLabel: string, b: seq<T>,
                                 show: seq<T> -> string, showBag: map<T, nat> -> string): Result<(), string> {
    if multiset(b) <= multiset(a) then Ok(())
    else Err(SuperbagDiagnostic(aLabel, show(a), bLabel, show(b), showBag(BagOf(a)), showBag(BagOf(b))))
  }

  method AssertBagSuperbagAsResult<T(==)>(aLabel: string, a: seq<T>, bLabel: string, b: seq<T>,
                                          show: seq<T> -> string, showBag: map<T, nat> -> string)
    returns (r: Result<(), string>)
    ensures r == SuperbagResult(aLabel, a, bLabel, b, show, showBag)
  {
    var aBag := Tally(a);
    var bBag := Tally(b);
    CoversIffSubMultiset(a, b);
    if Covers(b, aBag, bBag) {
      r := Ok(());
    } else {
      r := Err(SuperbagDiagnostic(aLabel, show(a), bLabel, show(b), showBag(aBag), showBag(bBag)));
    }
  }

  method AssertBagSuperbag<T(==)>(aLabel: string, a: seq<T>, bLabel: string, b: seq<T>,
                                  show: seq<T> -> string, showBag: map<T, nat> -> string, message: Option<string>)
    returns (o: Outcome<()>)
    ensures o.Returned? <==> multiset(b) <= multiset(a)
    ensures o.Panicked? ==> o.message == if message.Some? then message.value
                                         else SuperbagResult(aLabel, a, bLabel, b, show, showBag).error
  {
    var r := AssertBagSuperbagAsResult(aLabel, a, bLabel, b, show, showBag);
    o := Escalate(r, message);
  }

  method DebugAssertBagSuperbag<T(==)>(debugAssertions: bool, aLabel: string, a: seq<T>, bLabel: string, b: seq<T>,
                                       show: seq<T> -> string, showBag: map<T, nat> -> string, message: Option<string>)
    returns (o: Outcome<()>)
    ensures !debugAssertions ==> o == Returned(())
    ensures debugAssertions ==> (o.Returned? <==> multiset(b) <= multiset(a))
    ensures debugAssertions && o.Panicked? ==> o.message == if message.Some? then message.value
                                                            else SuperbagResult(aLabel, a, bLabel, b, show, showBag).error
  {
    if debugAssertions {
      o := AssertBagSuperbag(aLabel, a, bLabel, b, show, showBag, message);
    } else {
      o := Returned(());
    }
  }

  /** The `all` runs over the elements of `b`, so an empty `b` is accepted whatever `a` is. */
  lemma SuperbagAcceptsEmpty<T>(aLabel: string, a: seq<T>, bLabel: string,
                                show: seq<T> -> string, showBag: map<T, nat> -> string)
    ensures SuperbagResult(aLabel, a, bLabel, [], show, showBag) == Ok(())
  {
  }

  lemma TallyOfOnes()
    ensures BagOf([1, 1]) == map[1 := 2]
    ensures BagOf([1, 1, 1]) == map[1 := 3]
  {
    assert forall y :: y in BagOf([1, 1]) <==> y == 1;
    assert forall y :: y in BagOf([1, 1, 1]) <==> y == 1;
  }

  lemma TallyOfTwos()
    ensures BagOf([2, 2]) == map[2 := 2]
  {
    assert forall y :: y in BagOf([2, 2]) <==> y == 2;
  }

  lemma SingleKeyBagDebug(k: int, n: nat)
    ensures IntBagDebug(map[k := n]) == "{" + IntToString(k) + ": " + IntToString(n) + "}"
  {
    assert map[k := n].Keys == {k};
    AscendingOne(k);
  }

  /** The renderings the tests of the bag macros show. */
  lemma BagRenderings()
    ensures IntBagDebug(map[1 := 2]) == "{1: 2}"
    ensures IntBagDebug(map[1 := 3]) == "{1: 3}"
    ensures IntBagDebug(map[2 := 2]) == "{2: 2}"
    ensures IntSeqDebug([1, 1]) == "[1, 1]"
    ensures IntSeqDebug([1, 1, 1]) == "[1, 1, 1]"
    ensures IntSeqDebug([2, 2]) == "[2, 2]"
  {
    SingleKeyBagDebug(1, 2);
    SingleKeyBagDebug(1, 3);
    SingleKeyBagDebug(2, 2);
    assert IntToString(1) == "1" && IntToString(2) == "2" && IntToString(3) == "3";
    assert Joined(IntToString, [1]) == "1";
    assert Joined(IntToString, [2]) == "2";
    assert Joined(IntToString, [1, 1]) == "1, 1";
    assert Joined(IntToString, [1, 1, 1]) == "1, 1, 1";
    assert Joined(IntToString, [2, 2]) == "2, 2";
  }

  lemma SuperbagSuccessExample()
    ensures SuperbagResult("&a", [1, 1, 1], "&b", [1, 1], IntSeqDebug, IntBagDebug) == Ok(())
  {
    assert multiset([1, 1]) <= multiset([1, 1, 1]);
  }

  /** The failing tests: `b` has a key `a` lacks, and `b` holds a key more often than `a`. */
  lemma SuperbagFailureExamples()
    ensures SuperbagResult("&a", [1, 1], "&b", [2, 2], IntSeqDebug, IntBagDebug)
         == Err(SuperbagDiagnostic("&a", "[1, 1]", "&b", "[2, 2]", "{1: 2}", "{2: 2}"))
    ensures SuperbagResult("&a", [1, 1], "&b", [1, 1, 1], IntSeqDebug, IntBagDebug)
         == Err(SuperbagDiagnostic("&a", "[1, 1]", "&b", "[1, 1, 1]", "{1: 2}", "{1: 3}"))
  {
    assert multiset([2, 2])[2] == 2 && multiset([1, 1])[2] == 0;
    assert multiset([1, 1, 1])[1] == 3 && multiset([1, 1])[1] == 2;
    TallyOfOnes();
    TallyOfTwos();
    BagRenderings();
  }

  lemma SuperbagDiagnosticText()
    ensures SuperbagDiagnostic("&a", "[1, 1]", "&b", "[2, 2]", "{1: 2}", "{2: 2}") ==
      ShortHeader("assertion", "assert_bag_superbag", "a_bag, b_bag")
      + " a label: `&a`,\n"
      + " a debug: `[1, 1]`,\n"
      + " b label: `&b`,\n"
      + " b debug: `[2, 2]`,\n"
      + "       a: `{1: 2}`,\n"
      + "       b: `{2: 2}`"
  {
    assert Line(" a label", "&a") == " a label: `&a`,\n";
    assert Line(" a debug", "[1, 1]") == " a debug: `[1, 1]`,\n";
    assert Line(" b label", "&b") == " b label: `&b`,\n";
    assert Line(" b debug", "[2, 2]") == " b debug: `[2, 2]`,\n";
    assert Line("       a", "{1: 2}") == "       a: `{1: 2}`,\n";
    assert Last("       b", "{2: 2}") == "       b: `{2: 2}`";
  }

  lemma SuperbagCountDiagnosticText()
    ensures SuperbagDiagnostic("&a", "[1, 1]", "&b", "[1, 1, 1]", "{1: 2}", "{1: 3}") ==
      ShortHeader("assertion", "assert_bag_superbag", "a_bag, b_bag")
      + " a label: `&a`,\n"
      + " a debug: `[1, 1]`,\n"
      + " b label: `&b`,\n"
      + " b debug: `[1, 1, 1]`,\n"
      + "       a: `{1: 2}`,\n"
      + "       b: `{1: 3}`"
  {
    assert Line(" a label", "&a") == " a label: `&a`,\n";
    assert Line(" a debug", "[1, 1]") == " a debug: `[1, 1]`,\n";
    assert Line(" b label", "&b") == " b label: `&b`,\n";
    assert Line(" b debug", "[1, 1, 1]") == " b debug: `[1, 1, 1]`,\n";
    assert Line("       a", "{1: 2}") == "       a: `{1: 2}`,\n";
    assert Last("       b", "{1: 3}") == "       b: `{1: 3}`";
  }

  // ---------------------------------------------------------------------
  // assert_bag_eq2

  function BagEq2Diagnostic(aLabel: string, aDebug: string, bLabel: string, bDebug: string,
                            aBag: string, bBag: string): string {
    Header("assert_bag_eq2", "a_collection, b_collection", "9.0.0")
    + Line(" a label", aLabel)
    + Line(" a debug", aDebug)
    + Line(" b label", bLabel)
    + Line(" b debug", bDebug)
    + Line("   a bag", aBag)
    + Last("   b bag", bBag)
  }

  /** `assert_bag_eq2_as_result!(a, b)`: both tallies when they are equal, else the diagnostic. */
  function BagEq2Result<T(==)>(aLabel: string, a: seq<T>, bLabel: string, b: seq<T>,
                               show: seq<T> -> string, showBag: map<T, nat> -> string)
    : Result<(map<T, nat>, map<T, nat>), string> {
    if multiset(a) == multiset(b) then Ok((BagOf(a), BagOf(b)))
    else Err(BagEq2Diagnostic(aLabel, show(a), bLabel, show(b), showBag(BagOf(a)), showBag(BagOf(b))))
  }

  method AssertBagEq2AsResult<T(==)>(aLabel: string, a: seq<T>, bLabel: string, b: seq<T>,
                                     show: seq<T> -> string, showBag: map<T, nat> -> string)
    returns (r: Result<(map<T, nat>, map<T, nat>), string>)
    ensures r == BagEq2Result(aLabel, a, bLabel, b, show, showBag)
  {
    var aBag := Tally(a);
    var bBag := Tally(b);
    BagOfEqIff(a, b);
    if aBag == bBag {
      r := Ok((aBag, bBag));
    } else {
      r := Err(BagEq2Diagnostic(aLabel, show(a), bLabel, show(b), showBag(aBag), showBag(bBag)));
    }
  }

  method AssertBagEq2<T(==)>(aLabel: string, a: seq<T>, bLabel: string, b: seq<T>,
                             show: seq<T> -> string, showBag: map<T, nat> -> string, message: Option<string>)
    returns (o: Outcome<(map<T, nat>, map<T, nat>)>)
    ensures o.Returned? <==> multiset(a) == multiset(b)
    ensures o.Returned? ==> o.value == (BagOf(a), BagOf(b)) && o.value.0 == o.value.1
    ensures o.Panicked? ==> o.message == if message.Some? then message.value
                                         else BagEq2Result(aLabel, a, bLabel, b, show, showBag).error
  {
    var r := AssertBagEq2AsResult(aLabel, a, bLabel, b, show, showBag);
    BagOfEqIff(a, b);
    o := Escalate(r, message);
  }

  method DebugAssertBagEq2<T(==)>(debugAssertions: bool, aLabel: string, a: seq<T>, bLabel: string, b: seq<T>,
                                  show: seq<T> -> string, showBag: map<T, nat> -> string, message: Option<string>)
    returns (o: Outcome<()>)
    ensures !debugAssertions ==> o == Returned(())
    ensures debugAssertions ==> (o.Returned? <==> multiset(a) == multiset(b))
    ensures debugAssertions && o.Panicked? ==> o.message == if message.Some? then message.value
                                                            else BagEq2Result(aLabel, a, bLabel, b, show, showBag).error
  {
    if debugAssertions {
      var checked := AssertBagEq2(aLabel, a, bLabel, b, show, showBag, message);
      o := if checked.Returned? then Returned(()) else Panicked(checked.message);
    } else {
      o := Returned(());
    }
  }

  lemma BagEq2Examples()
    ensures BagEq2Result("&a", [1, 1], "&b", [1, 1], IntSeqDebug, IntBagDebug) == Ok((map[1 := 2], map[1 := 2]))
    ensures BagEq2Result("&a", [1, 1], "&b", [1, 1, 1], IntSeqDebug, IntBagDebug)
         == Err(BagEq2Diagnostic("&a", "[1, 1]", "&b", "[1, 1, 1]", "{1: 2}", "{1: 3}"))
  {
    assert multiset([1, 1, 1])[1] == 3 && multiset([1, 1])[1] == 2;
    TallyOfOnes();
    BagRenderings();
  }

  lemma BagEq2DiagnosticText()
    ensures BagEq2Diagnostic("&a", "[1, 1]", "&b", "[1, 1, 1]", "{1: 2}", "{1: 3}") ==
      Header("assert_bag_eq2", "a_collection, b_collection", "9.0.0")
      + " a label: `&a`,\n"
      + " a debug: `[1, 1]`,\n"
      + " b label: `&b`,\n"
      + " b debug: `[1, 1, 1]`,\n"
      + "   a bag: `{1: 2}`,\n"
      + "   b bag: `{1: 3}`"
  {
    assert Line(" a label", "&a") == " a label: `&a`,\n";
    assert Line(" a debug", "[1, 1]") == " a debug: `[1, 1]`,\n";
    assert Line(" b label", "&b") == " b label: `&b`,\n";
    assert Line(" b debug", "[1, 1, 1]") == " b debug: `[1, 1, 1]`,\n";
    assert Line("   a bag", "{1: 2}") == "   a bag: `{1: 2}`,\n";
    assert Last("   b bag", "{1: 3}") == "   b bag: `{1: 3}`";
  }

  // ---------------------------------------------------------------------
  // assert_bag_ne

  /** The shape `msg_with_left_and_right!` gives, as the tests of `assert_bag_ne` pin it. */
  function BagNeDiagnostic(left: string, right: string): string {
    ShortHeader("assertion", "assert_bag_ne", "left, right")
    + Line("  left", left)
    + Last(" right", right)
  }

  /** `assert_bag_ne_as_result!(a, b)`: `Ok(())` when the tallies differ, else both tallies. */
  function BagNeResult<T(==)>(a: seq<T>, b: seq<T>, showBag: map<T, nat> -> string): Result<(), string> {
    if multiset(a) != multiset(b) then Ok(())
    else Err(BagNeDiagnostic(showBag(BagOf(a)), showBag(BagOf(b))))
  }

  method AssertBagNeAsResult<T(==)>(a: seq<T>, b: seq<T>, showBag: map<T, nat> -> string)
    returns (r: Result<(), string>)
    ensures r == BagNeResult(a, b, showBag)
  {
    var aBag := Tally(a);
    var bBag := Tally(b);
    BagOfEqIff(a, b);
    if aBag != bBag {
      r := Ok(());
    } else {
      r := Err(BagNeDiagnostic(showBag(aBag), showBag(bBag)));
    }
  }

  /** In the arm with a message, `panic!($($arg)+)` formats the caller's arguments themselves. */
  method AssertBagNe<T(==)>(a: seq<T>, b: seq<T>, showBag: map<T, nat> -> string, message: Option<string>)
    returns (o: Outcome<()>)
    ensures o.Returned? <==> multiset(a) != multiset(b)
    ensures o.Panicked? ==> o.message == if message.Some? then message.value else BagNeResult(a, b, showBag).error
  {
    var r := AssertBagNeAsResult(a, b, showBag);
    o := Escalate(r, message);
  }

  /** Bag equality and bag inequality split every pair of collections between them. */
  lemma BagEq2AndNeComplementary<T>(aLabel: string, a: seq<T>, bLabel: string, b: seq<T>,
                                    show: seq<T> -> string, showBag: map<T, nat> -> string)
    ensures BagEq2Result(aLabel, a, bLabel, b, show, showBag).Ok? != BagNeResult(a, b, showBag).Ok?
  {
  }

  /** One count differing is enough for the tallies to differ. */
  lemma {:induction false} OneCountMakesBagsDiffer<T>(a: seq<T>, b: seq<T>, x: T, showBag: map<T, nat> -> string)
    requires Count(BagOf(a), x) != Count(BagOf(b), x)
    ensures BagNeResult(a, b, showBag) == Ok(())
  {
    BagOfCounts(a, x);
    BagOfCounts(b, x);
  }

  lemma BagNeExamples()
    ensures BagNeResult([1, 1], [1, 1, 1], IntBagDebug) == Ok(())
    ensures BagNeResult([1, 1], [1, 1], IntBagDebug) == Err(BagNeDiagnostic("{1: 2}", "{1: 2}"))
  {
    assert multiset([1, 1, 1])[1] == 3 && multiset([1, 1])[1] == 2;
    TallyOfOnes();
    BagRenderings();
  }

  lemma BagNeDiagnosticText()
    ensures BagNeDiagnostic("{1: 2}", "{1: 2}") ==
      ShortHeader("assertion", "assert_bag_ne", "left, right")
      + "  left: `{1: 2}`,\n"
      + " right: `{1: 2}`"
  {
    assert Line("  left", "{1: 2}") == "  left: `{1: 2}`,\n";
  }

  // ---------------------------------------------------------------------
  // assure_bag_eq

  /**
   * `assure_bag_eq!(left, right)` and `assure_bag_eq!(left, right, msg)`:
   * both arms build `HashMap` tallies with the same counting loop and answer
   * `Ok(true)` or `Ok(false)`; the message is never used.
   */
  method AssureBagEq<T(==)>(left: seq<T>, right: seq<T>, message: Option<string>)
    returns (r: Result<bool, string>)
    ensures r == Ok(multiset(left) == multiset(right))
  {
    var leftBag := Tally(left);
    var rightBag := Tally(right);
    BagOfEqIff(left, right);
    if leftBag == rightBag {
      r := Ok(true);
    } else {
      r := Ok(false);
    }
  }
}
