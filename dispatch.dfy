/**
 * How a panicking macro with several arities picks its arm.  `macro_rules!`
 * tries the arms in the order they are written and expands the first whose
 * matcher accepts the arguments.  For these macros an argument matters to
 * the matchers only as far as it parses as a `path` fragment (an
 * identifier such as `a`, or a qualified name such as `i32::abs`) or not
 * (a literal, or an expression such as `-1`); an `expr` fragment accepts
 * any argument, and `$($message:tt)+` accepts one or more arguments.
 */
module Dispatch {
  import opened Outcome

  /**
   * A call of the macro, as far as the matchers see it: how many
   * comma-separated arguments it has (a custom message counts as one or
   * more), and whether each of the first three parses as a path.
   */
  datatype Call = Call(count: nat, path0: bool, path1: bool, path2: bool)

  /**
   * The four arms of the panicking macros with arities 0 and 1:
   * `(f, g)`, `(f, g, message..)`, `(f, a, g, b)` and `(f, a, g, b, message..)`.
   */
  datatype Arm = Arity0 | Arity0Message | Arity1 | Arity1Message

  predicate Matches(arm: Arm, c: Call) {
    match arm
    case Arity0 => c.count == 2 && c.path0 && c.path1
    case Arity0Message => c.count >= 3 && c.path0 && c.path1
    case Arity1 => c.count == 4 && c.path0 && c.path2
    case Arity1Message => c.count >= 5 && c.path0 && c.path2
  }

  /** The arm `macro_rules!` expands: the first, in the written order, that matches. */
  function FirstMatch(order: seq<Arm>, c: Call): (r: Option<Arm>)
    ensures r.None? <==> forall i :: 0 <= i < |order| ==> !Matches(order[i], c)
    ensures r.Some? ==> exists i :: 0 <= i < |order| && order[i] == r.value && Matches(order[i], c)
                                    && forall j :: 0 <= j < i ==> !Matches(order[j], c)
  {
    if |order| == 0 then None
    else if Matches(order[0], c) then Some(order[0])
    else
      var r := FirstMatch(order[1..], c);
      assert r.Some? ==> exists i :: 1 <= i < |order| && order[i] == r.value && Matches(order[i], c)
                                     && forall j :: 1 <= j < i ==> !Matches(order[j], c);
      r
  }

  /** The order of the arms of `assert_fn_ne!` as written: arity 0 first. */
  function FnNeArmsAsWritten(): seq<Arm> {
    [Arity0, Arity0Message, Arity1, Arity1Message]
  }

  /** The order of the sibling macros `assert_fn_le2!`, `assert_fn_ok_ne2!` and others: arity 1 first. */
  function ArmsArity1First(): seq<Arm> {
    [Arity1, Arity1Message, Arity0, Arity0Message]
  }

  /** Arms that do not match are passed over: only the rest of the order decides. */
  lemma {:induction false} SkipNonMatching(order: seq<Arm>, c: Call, k: nat)
    requires k <= |order|
    requires forall j :: 0 <= j < k ==> !Matches(order[j], c)
    ensures FirstMatch(order, c) == FirstMatch(order[k..], c)
    decreases k
  {
    if k > 0 {
      assert order[1..][k - 1..] == order[k..];
      SkipNonMatching(order[1..], c, k - 1);
    }
  }

  /**
   * As written, `assert_fn_ne!(f, a, g, b)` with an identifier `a` is taken
   * by the arity-0 message arm: `a` parses as the second function's path
   * and `g, b` become the message.  The expansion calls `f()` and `a()` and
   * passes `g, b` to `panic!("{}", ...)`, where there is one argument too
   * many, so for the documented call `assert_fn_ne!(i32::abs, a, i32::abs, b)`
   * (with `a: i32`, which is not callable, and `i32::abs`, which needs an
   * argument) the expansion does not compile, instead of comparing
   * `f(a)` with `g(b)`.
   */
  lemma AsWrittenTakesArity1CallForArity0(c: Call)
    requires c.count == 4 && c.path0 && c.path1
    ensures FirstMatch(FnNeArmsAsWritten(), c) == Some(Arity0Message)
  {
  }

  /** The documented call itself: four paths, which the arity-1 arm would also accept. */
  lemma AsWrittenDocumentedCall()
    ensures FirstMatch(FnNeArmsAsWritten(), Call(4, true, true, true)) == Some(Arity0Message)
    ensures Matches(Arity1, Call(4, true, true, true))
  {
    AsWrittenTakesArity1CallForArity0(Call(4, true, true, true));
  }

  /** With arity 1 first, every four-argument call with paths in both function positions takes the arity-1 arm. */
  lemma Arity1FirstRoutesArity1Calls(c: Call)
    requires c.count == 4 && c.path0 && c.path2
    ensures FirstMatch(ArmsArity1First(), c) == Some(Arity1)
  {
  }

  /** With a custom message the arity-1 call takes the arity-1 message arm. */
  lemma Arity1FirstRoutesArity1MessageCalls(c: Call)
    requires c.count >= 5 && c.path0 && c.path2
    ensures FirstMatch(ArmsArity1First(), c) == Some(Arity1Message)
  {
  }

  /** Two functions still take the arity-0 arm, in either order. */
  lemma Arity1FirstRoutesArity0Calls(c: Call)
    requires c.count == 2 && c.path0 && c.path1
    ensures FirstMatch(ArmsArity1First(), c) == Some(Arity0)
    ensures FirstMatch(FnNeArmsAsWritten(), c) == Some(Arity0)
  {
    SkipNonMatching(ArmsArity1First(), c, 2);
    assert ArmsArity1First()[2..] == [Arity0, Arity0Message];
  }

  /**
   * Two functions and a message still take the arity-0 message arm unless
   * the message could be read as an input and a function.
   */
  lemma Arity1FirstRoutesArity0MessageCalls(c: Call)
    requires c.count >= 3 && c.path0 && c.path1
    requires !Matches(Arity1, c) && !Matches(Arity1Message, c)
    ensures FirstMatch(ArmsArity1First(), c) == Some(Arity0Message)
  {
    SkipNonMatching(ArmsArity1First(), c, 3);
    assert ArmsArity1First()[3..] == [Arity0Message];
  }
}
