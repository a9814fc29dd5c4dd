/**
 * Rust's `Ord`: a comparison function into `Ordering`, with the operators
 * `<`, `<=`, `>`, `>=` read off it.  Integers compare numerically; `String`
 * compares lexicographically (by UTF-8 bytes, which orders exactly as by
 * code points, so a `seq<char>` compared char by char agrees).
 */
module Order {

  datatype Ordering = Less | Equal | Greater

  /** The laws `Ord` demands of `cmp`. */
  ghost predicate IsTotalOrder<T(!new)>(cmp: (T, T) -> Ordering) {
    && (forall x, y :: cmp(x, y) == Equal <==> x == y)
    && (forall x, y :: cmp(x, y) == Less <==> cmp(y, x) == Greater)
    && (forall x, y, z :: cmp(x, y) == Less && cmp(y, z) == Less ==> cmp(x, z) == Less)
  }

  predicate Lt<T>(cmp: (T, T) -> Ordering, a: T, b: T) { cmp(a, b) == Less }
  predicate Le<T>(cmp: (T, T) -> Ordering, a: T, b: T) { cmp(a, b) != Greater }
  predicate Gt<T>(cmp: (T, T) -> Ordering, a: T, b: T) { cmp(a, b) == Greater }
  predicate Ge<T>(cmp: (T, T) -> Ordering, a: T, b: T) { cmp(a, b) != Less }

  function IntCmp(a: int, b: int): Ordering {
    if a < b then Less else if a == b then Equal else Greater
  }

  /** `Ord for str`: the first differing character decides, otherwise the shorter is less. */
  function LexCmp(s: string, t: string): (c: Ordering)
    ensures c == Equal <==> s == t
  {
    if |s| == 0 then (if |t| == 0 then Equal else Less)
    else if |t| == 0 then Greater
    else if s[0] < t[0] then Less
    else if s[0] > t[0] then Greater
    else
      var c := LexCmp(s[1..], t[1..]);
      assert s == [s[0]] + s[1..] && t == [t[0]] + t[1..];
      c
  }

  lemma IntCmpIsTotalOrder()
    ensures IsTotalOrder(IntCmp)
  {
  }

  lemma {:induction false} LexCmpAntisymmetric(s: string, t: string)
    ensures LexCmp(s, t) == Less <==> LexCmp(t, s) == Greater
    decreases |s|
  {
    if |s| > 0 && |t| > 0 && s[0] == t[0] {
      LexCmpAntisymmetric(s[1..], t[1..]);
    }
  }

  lemma {:induction false} LexCmpTransitive(s: string, t: string, u: string)
    requires LexCmp(s, t) == Less && LexCmp(t, u) == Less
    ensures LexCmp(s, u) == Less
    decreases |s|
  {
    if |s| > 0 && |t| > 0 && |u| > 0 && s[0] == t[0] && t[0] == u[0] {
      LexCmpTransitive(s[1..], t[1..], u[1..]);
    }
  }

  /** Rust's `String` ordering is a total order, so `>=` is the converse of `<=`. */
  lemma LexCmpIsTotalOrder()
    ensures IsTotalOrder(LexCmp)
  {
    forall s: string, t: string ensures LexCmp(s, t) == Less <==> LexCmp(t, s) == Greater {
      LexCmpAntisymmetric(s, t);
    }
    forall s: string, t: string, u: string | LexCmp(s, t) == Less && LexCmp(t, u) == Less
      ensures LexCmp(s, u) == Less
    {
      LexCmpTransitive(s, t, u);
    }
  }

  /** Under a total order, `a >= b` is `b <= a` and `a > b` is `b < a`. */
  lemma Converse<T(!new)>(cmp: (T, T) -> Ordering, a: T, b: T)
    requires IsTotalOrder(cmp)
    ensures Ge(cmp, a, b) <==> Le(cmp, b, a)
    ensures Gt(cmp, a, b) <==> Lt(cmp, b, a)
  {
  }

  /** Under a total order, `a >= b` holds exactly when `a > b` or `a == b`. */
  lemma GeIsGtOrEq<T(!new)>(cmp: (T, T) -> Ordering, a: T, b: T)
    requires IsTotalOrder(cmp)
    ensures Ge(cmp, a, b) <==> Gt(cmp, a, b) || a == b
  {
  }
}
