/**
 * The text the diagnostics are made of.  A diagnostic is a header line, an
 * optional documentation URL line, then one line per field, each
 * `<padded name>: \`<value>\``, the lines separated by ",\n" (or by "\n" in
 * the oldest macros).  Values come from `{:?}` (Debug) or `{}` (Display)
 * renderings; the families take the renderings of their operands as
 * function parameters, and the concrete renderings below are only what the
 * literal test expectations need: integers, strings, slices, and the
 * sorted `BTreeMap`/`BTreeSet` of integers.
 */
module Render {
  import opened Outcome

  /**
   * The two header lines of the newer diagnostics: the failed macro call,
   * then the URL of its documentation for the crate version that wrote it.
   */
  function Header(name: string, args: string, version: string): string {
    "assertion failed: `" + name + "!(" + args + ")`\n"
    + "https://docs.rs/assertables/" + version + "/assertables/macro." + name + ".html\n"
  }

  /** The header line of the oldest diagnostics, which name the macro without its `!`. */
  function PlainHeader(kind: string, name: string, args: string): string {
    kind + " failed: `" + name + "(" + args + ")`\n"
  }

  /** The one header line of the older diagnostics, which have no URL; `kind` is "assertion" or "assertable". */
  function ShortHeader(kind: string, name: string, args: string): string {
    kind + " failed: `" + name + "!(" + args + ")`\n"
  }

  /** A field line followed by the ",\n" that separates it from the next. */
  function Line(name: string, value: string): string {
    name + ": `" + value + "`,\n"
  }

  /** The last field line, with nothing after it. */
  function Last(name: string, value: string): string {
    name + ": `" + value + "`"
  }

  /** A field line in the oldest macros, which separate lines by "\n" alone. */
  function PlainLine(name: string, value: string): string {
    name + ": `" + value + "`\n"
  }

  function Digit(d: nat): char
    requires d < 10
  {
    "0123456789"[d]
  }

  /** Decimal digits of `n`, most significant first. */
  function NatToString(n: nat): string
    decreases n
  {
    if n < 10 then [Digit(n)] else NatToString(n / 10) + [Digit(n % 10)]
  }

  /** `{:?}` and `{}` of an integer. */
  function IntToString(i: int): string {
    if i < 0 then "-" + NatToString(-i) else NatToString(i)
  }

  /** The integer renderings the literal test expectations use. */
  lemma SmallIntToString()
    ensures IntToString(0) == "0" && IntToString(1) == "1" && IntToString(2) == "2" && IntToString(3) == "3"
    ensures IntToString(-1) == "-1" && IntToString(-2) == "-2"
  {
    assert NatToString(1) == "1" && NatToString(2) == "2";
  }

  /** `{:?}` of a `bool`. */
  function BoolToString(b: bool): string {
    if b then "true" else "false"
  }

  /** The escapes `str::escape_debug` applies to the characters it escapes with a backslash. */
  function EscapeChar(c: char): string {
    if c == '"' then "\\\""
    else if c == '\\' then "\\\\"
    else if c == '\n' then "\\n"
    else if c == '\r' then "\\r"
    else if c == '\t' then "\\t"
    else if c == '\0' then "\\0"
    else [c]
  }

  function Escape(s: string): string
    decreases |s|
  {
    if |s| == 0 then "" else EscapeChar(s[0]) + Escape(s[1..])
  }

  /** `{:?}` of a `&str` or `String`: quoted, with the escapes above. */
  function DebugStr(s: string): string {
    "\"" + Escape(s) + "\""
  }

  /** The characters `EscapeChar` escapes; it leaves every other character as it is. */
  predicate Special(c: char) {
    c == '"' || c == '\\' || c == '\n' || c == '\r' || c == '\t' || c == '\0'
  }

  /** A string without characters to escape is quoted as it stands. */
  lemma {:induction false} DebugStrOfPlain(s: string)
    requires forall i :: 0 <= i < |s| ==> !Special(s[i])
    ensures Escape(s) == s && DebugStr(s) == "\"" + s + "\""
    decreases |s|
  {
    if |s| > 0 {
      DebugStrOfPlain(s[1..]);
      assert Escape(s) == [s[0]] + s[1..];
      assert [s[0]] + s[1..] == s;
    }
  }

  /** What the oldest panicking forms panic with: the diagnostic, or `{:?}` of the custom message. */
  function DebugPanic(message: Option<string>, diagnostic: string): string {
    if message.Some? then DebugStr(message.value) else diagnostic
  }

  /** `{:?}` of the tests' custom message. */
  lemma QuotedMessage()
    ensures DebugStr("message") == "\"message\""
  {
    assert forall i :: 0 <= i < |"message"| ==> !Special("message"[i]);
    DebugStrOfPlain("message");
  }

  /** The items rendered by `show`, separated by ", ". */
  function Joined<T>(show: T -> string, s: seq<T>): string
    decreases |s|
  {
    if |s| == 0 then ""
    else if |s| == 1 then show(s[0])
    else show(s[0]) + ", " + Joined(show, s[1..])
  }

  /** `{:?}` of a slice, array or `Vec`. */
  function SeqDebug<T>(show: T -> string, s: seq<T>): string {
    "[" + Joined(show, s) + "]"
  }

  /** `{:?}` of an integer slice. */
  function IntSeqDebug(s: seq<int>): string {
    SeqDebug(IntToString, s)
  }

  lemma NoMemberMeansEmpty(s: set<int>)
    ensures (forall m :: m !in s) ==> s == {}
  {
    if forall m :: m !in s {
      assert forall m :: m in s <==> m in {};
    }
  }

  lemma {:induction false} HasLeast(s: set<int>)
    requires s != {}
    ensures exists m :: m in s && forall x :: x in s ==> m <= x
    decreases |s|
  {
    NoMemberMeansEmpty(s);
    var y :| y in s;
    NoMemberMeansEmpty(s - {y});
    if s - {y} == {} {
      forall x | x in s ensures y <= x { assert x == y || x in s - {y}; }
    } else {
      HasLeast(s - {y});
      var m :| m in s - {y} && forall x :: x in s - {y} ==> m <= x;
      if y < m {
        forall x | x in s ensures y <= x { assert x == y || x in s - {y}; }
      } else {
        forall x | x in s ensures m <= x { assert x == y || x in s - {y}; }
      }
    }
  }

  /** The elements of `s` in ascending order: the iteration order of a `BTreeSet` or `BTreeMap`. */
  ghost function Ascending(s: set<int>): seq<int>
    decreases |s|
  {
    if s == {} then []
    else
      HasLeast(s);
      var m :| m in s && forall x :: x in s ==> m <= x;
      [m] + Ascending(s - {m})
  }

  /** Unfolds `Ascending` once, for a known least element. */
  lemma AscendingFrom(s: set<int>, m: int)
    requires m in s && forall x :: x in s ==> m <= x
    ensures Ascending(s) == [m] + Ascending(s - {m})
  {
  }

  lemma AscendingOne(x: int)
    ensures Ascending({x}) == [x]
  {
    AscendingFrom({x}, x);
    assert {x} - {x} == {};
  }

  lemma AscendingTwo(x: int, y: int)
    requires x < y
    ensures Ascending({x, y}) == [x, y]
  {
    AscendingFrom({x, y}, x);
    assert {x, y} - {x} == {y};
    AscendingOne(y);
  }

  lemma AscendingThree(x: int, y: int, z: int)
    requires x < y < z
    ensures Ascending({x, y, z}) == [x, y, z]
  {
    AscendingFrom({x, y, z}, x);
    assert {x, y, z} - {x} == {y, z};
    AscendingTwo(y, z);
  }

  /** `{:?}` of a `BTreeSet` of integers: `{1, 2}`. */
  ghost function IntSetDebug(s: set<int>): string {
    "{" + Joined(IntToString, Ascending(s)) + "}"
  }

  /** `key: count` for each key in `keys`, separated by ", ". */
  function Entries(m: map<int, nat>, keys: seq<int>): string
    decreases |keys|
  {
    if |keys| == 0 then ""
    else
      var entry := IntToString(keys[0]) + ": " + IntToString(if keys[0] in m then m[keys[0]] else 0);
      if |keys| == 1 then entry else entry + ", " + Entries(m, keys[1..])
  }

  /** `{:?}` of a `BTreeMap` tally of integers: `{1: 2}`. */
  ghost function IntBagDebug(m: map<int, nat>): string {
    "{" + Entries(m, Ascending(m.Keys)) + "}"
  }
}
