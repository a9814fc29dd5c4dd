# A verified model of the assertables assertion macros

`assertables` is a Rust crate of assertion macros. Each family of macros
compares its operands in a fixed way:

- bags, which are multisets counted into tally maps;
- sets;
- the payloads inside `Option`, `Result` and `Poll`;
- the outputs of functions;
- lengths;
- plain values.

Most families come in three tiers:

- `*_as_result` returns `Ok(payload)` or `Err(diagnostic)`;
- the panicking form unwraps that result, panicking with the diagnostic or with the caller's custom message;
- `debug_*` runs the panicking form only when `cfg!(debug_assertions)` holds.

Older families have one tier:

- `assertable_*` returns `Err(message)`;
- `assure_*` returns `Ok(bool)` and never `Err`;
- `assume_*` returns `Ok(true)` or `Err`;
- the oldest `assert_*` forms panic directly, with the `{:?}` rendering of a custom message.

The project models the decision procedure of each family, the payload it
returns, and the exact shape of its diagnostic text. The text is built
field by field from:

- the label of each operand, which is its `stringify!` text;
- the `{:?}` rendering of each operand, taken as a `show` function parameter;
- the computed values.

The modules follow the crate's families:

| module | file | what it models |
|---|---|---|
| `Outcome` | outcome.dfy | `Option`, `Result`, `Poll`; a panic as the value `Panicked(message)`; escalation of a result by a panicking form (`Escalate`); the `debug_*` gate (`Gate`) |
| `Order` | order.dfy | `Ord` as a comparison into `Ordering`; `<`, `<=`, `>`, `>=` derived from it; integer order and the lexicographic order of strings, proved total |
| `Render` | render.dfy | the field lines of diagnostics, headers, `Display`/`{:?}` of integers, booleans, strings, slices, `BTreeSet` and `BTreeMap` tallies |
| `Bag` | bag.dfy | `assert_bag_superbag`, `assert_bag_eq2`, `assert_bag_ne`, `assure_bag_eq`: the counting loops are a `Tally` method proved equal to the multiset of the input |
| `Sets` | sets.dfy | `assert_set_superset_other`, `assertable_set_subset` |
| `Options` | options.dfy | `assert_some_ne`, `assert_option_some_eq`, `assert_option_some_ne` |
| `Results` | results.dfy | `assert_ok_ne_expr`, `assert_err_eq_x`, `assert_err`, `assert_result_ok` |
| `Polls` | polls.dfy | `assert_ready_eq2`, `assert_poll_ready_ne` |
| `Len` | len.dfy | `assert_len_ge_expr`, `assert_len_ge_x` |
| `Fn` | fn.dfy | `assert_fn_le2`, `assert_fn_ne`, `assert_fn_le_other` |
| `FnLegacy` | fn_legacy.dfy | `assert_f_le`, `assert_fn_le`, `assert_fn_ge`, `assertable_f_ne` |
| `FnOk` | fn_ok.dfy | `assert_fn_ok_ne2`, `assert_fn_ok_ne`, `assert_fn_ok_gt` (both arities) |
| `FnOkLegacy` | fn_ok_legacy.dfy | `assert_fn_ok_gt` against an expression, `assert_fn_ok_ge`, `assume_fn_err_string_ge` |
| `Values` | values.dfy | `assert_eq_as_result`, `assert_ne_as_result` |
| `ValuesLegacy` | values_legacy.dfy | `assertable_ne`, `assure_io_eq`, `assert_le` |
| `Dispatch` | dispatch.dfy | how `macro_rules!` picks an arm of `assert_fn_ne!`, and why the written arm order misroutes an arity-1 call |

Every family's operation has a **partner** lemma:

- a complementary family (`assert_err` against `assert_result_ok`, `assert_bag_eq2` against `assert_bag_ne`, the `eq` forms against the `ne` forms);
- an implied family (`assert_err_eq_x` implies `assert_err`; `assert_fn_ok_gt` implies `assert_fn_ok_ne`);
- an independent definition, such as multisets or sets of the inputs;
- or the same question asked another way (`assert_fn_ge` is `assert_fn_le` with the inputs swapped).

Each test in the crate that pins an exact string has a lemma that states that
string. The lemma checks the string line by line against the diagnostic function.

Inputs the model takes as parameters are listed under "## Left out".

## Model

| member | source | states |
|---|---|---|
| Outcome.Escalate | src/assert_err.rs:142-155 | a panicking form returns exactly when the result is `Ok`, with its payload; otherwise it panics with the diagnostic, or with exactly the custom message when one is given |
| Outcome.Gate | src/assert_err.rs:189-194 | a `debug_*` form returns `()` without checking when `debug_assertions` is off; when it is on, it returns exactly when the check returns, and panics with the check's message |
| Outcome.CustomMessageDiscardsDiagnostic | src/assert_bag/assert_bag_eq2.rs:176-189 | with a custom message, which diagnostic was generated makes no difference to the panic |
| Outcome.EscalateInjective | src/assert_err.rs:142-148 | without a custom message the panicking form loses nothing: its outcome determines the result |
| Order.LexCmp | src/assume_fn_err_string_ge.rs:35-43 | string comparison is `Equal` exactly for equal strings |
| Order.IntCmpIsTotalOrder | src/assert_le.rs:30-31 | integer comparison is a total order |
| Order.LexCmpAntisymmetric | src/assert_fn_ok_gt.rs:71-73 | `s < t` as strings iff `t > s` |
| Order.LexCmpTransitive | src/assert_fn_ok_gt.rs:71-73 | string `<` is transitive |
| Order.LexCmpIsTotalOrder | src/assume_fn_err_string_ge.rs:35-43 | the lexicographic order of strings is a total order |
| Order.Converse | src/assert_fn_ge.rs:35-42 | for a total order, `a >= b` iff `b <= a`, and `a > b` iff `b < a` |
| Order.GeIsGtOrEq | src/assert_fn_ok_ge.rs:35-41 | for a total order, `a >= b` iff `a > b` or `a == b` |
| Render.SmallIntToString | src/assert_fn_ne.rs:126-145 | the `Display` of the integers the tests use (`0`..`3`, `-1`, `-2`) |
| Render.DebugStrOfPlain | src/assert_len/assert_len_ge_x.rs:98-114 | `{:?}` of a string with nothing to escape is that string in double quotes |
| Render.QuotedMessage | src/assert_le.rs:84-90 | `{:?}` of the tests' custom message is `"\"message\""` |
| Bag.BagOfSnoc | src/assert_bag/assert_bag_superbag.rs:49-56 | counting one more element adds one to that element's tally, inserting it at 1 when absent |
| Bag.Tally | src/assert_bag/assert_bag_superbag.rs:49-56 | the counting loop (`entry(x).or_insert(0)`, `*n += 1`) produces the tally of the whole input |
| Bag.BagOfCounts | src/assert_bag/assert_bag_superbag.rs:45-56 | a key is in the tally exactly when it occurs in the input, and its count is the number of its occurrences |
| Bag.CoversIffSubMultiset | src/assert_bag/assert_bag_superbag.rs:57-63 | the `all` over `b` (each key of `b` in `a` with a count at least as high) holds iff `multiset(b) <= multiset(a)` |
| Bag.BagOfEqIff | src/assert_bag/assert_bag_eq2.rs:50-54 | two tallies are equal iff the inputs are equal as multisets |
| Bag.AssertBagSuperbagAsResult | src/assert_bag/assert_bag_superbag.rs:41-85 | tallies both inputs with the counting loop; `Ok(())` iff `b` is a sub-multiset of `a`, otherwise `Err` with both labels, both renderings and both tallies |
| Bag.AssertBagSuperbag | src/assert_bag/assert_bag_superbag.rs:232-245 | returns iff `multiset(b) <= multiset(a)`; otherwise panics with the diagnostic or exactly the custom message |
| Bag.DebugAssertBagSuperbag | src/assert_bag/assert_bag_superbag.rs:276-282 | gated on `debug_assertions`; when on, as `assert_bag_superbag` |
| Bag.SuperbagAcceptsEmpty | src/assert_bag/assert_bag_superbag.rs:57-62 | an empty `b` is always accepted |
| Bag.TallyOfOnes | src/assert_bag/assert_bag_superbag.rs:90-136 | the tallies of `[1, 1]` and `[1, 1, 1]` are `{1: 2}` and `{1: 3}` |
| Bag.TallyOfTwos | src/assert_bag/assert_bag_superbag.rs:99-116 | the tally of `[2, 2]` is `{2: 2}` |
| Bag.SingleKeyBagDebug | src/assert_bag/assert_bag_superbag.rs:99-116 | `{:?}` of a one-key tally is `{key: count}` |
| Bag.BagRenderings | src/assert_bag/assert_bag_superbag.rs:99-136 | the renderings `{1: 2}`, `{1: 3}`, `{2: 2}`, `[1, 1]`, `[1, 1, 1]`, `[2, 2]` the tests expect |
| Bag.SuperbagSuccessExample | src/assert_bag/assert_bag_superbag.rs:90-96 | `[1, 1, 1]` is a superbag of `[1, 1]` |
| Bag.SuperbagFailureExamples | src/assert_bag/assert_bag_superbag.rs:99-136 | a missing key (`[2, 2]`) and an excessive count (`[1, 1, 1]`) both fail, with tallies `{1: 2}`/`{2: 2}` and `{1: 2}`/`{1: 3}` in the text |
| Bag.SuperbagDiagnosticText | src/assert_bag/assert_bag_superbag.rs:99-116 | the exact text for the missing key |
| Bag.SuperbagCountDiagnosticText | src/assert_bag/assert_bag_superbag.rs:119-136 | the exact text for the excessive count |
| Bag.AssertBagEq2AsResult | src/assert_bag/assert_bag_eq2.rs:46-79 | `Ok((a_bag, b_bag))` iff the tallies are equal, otherwise `Err` with fields in the order header, URL, a label, a debug, b label, b debug, a bag, b bag |
| Bag.AssertBagEq2 | src/assert_bag/assert_bag_eq2.rs:176-189 | returns the two equal tallies iff `multiset(a) == multiset(b)`; otherwise panics with the diagnostic or exactly the custom message |
| Bag.DebugAssertBagEq2 | src/assert_bag/assert_bag_eq2.rs:223-228 | gated on `debug_assertions`; when on, checks multiset equality |
| Bag.BagEq2Examples | src/assert_bag/assert_bag_eq2.rs:86-114 | `[1, 1]` vs `[1, 1]` returns `({1: 2}, {1: 2})`; `[1, 1]` vs `[1, 1, 1]` fails with tallies `{1: 2}` and `{1: 3}` |
| Bag.BagEq2DiagnosticText | src/assert_bag/assert_bag_eq2.rs:97-114 | the exact failure text |
| Bag.AssertBagNeAsResult | src/assert_bag_ne.rs:40-62 | tallies both inputs; `Ok(())` iff the tallies differ, otherwise `Err` showing both tallies |
| Bag.AssertBagNe | src/assert_bag_ne.rs:130-143 | returns iff `multiset(a) != multiset(b)`; otherwise panics with the diagnostic or the custom message |
| Bag.BagEq2AndNeComplementary | src/assert_bag_ne.rs:54-58 | `assert_bag_ne` succeeds exactly when `assert_bag_eq2` fails |
| Bag.OneCountMakesBagsDiffer | src/assert_bag_ne.rs:54-58 | a difference in one element's count is enough for `assert_bag_ne` to succeed |
| Bag.BagNeExamples | src/assert_bag_ne.rs:68-88 | `[1, 1]` vs `[1, 1, 1]` is `Ok`; `[1, 1]` vs `[1, 1]` is `Err` showing `{1: 2}` twice |
| Bag.BagNeDiagnosticText | src/assert_bag_ne.rs:76-88 | the exact failure text |
| Bag.AssureBagEq | src/assure_bag_eq.rs:30-73 | both arms tally with HashMaps and return `Ok(true)` iff the inputs are equal as multisets, otherwise `Ok(false)`; never `Err`; the message is ignored |
| Sets.SetOfMembers | src/assert_set_superset_other.rs:55-56 | collecting into a set keeps exactly the elements of the input |
| Sets.AssertSetSupersetOtherAsResult | src/assert_set_superset_other.rs:51-79 | `Ok(())` iff every element of `b` occurs in `a`; otherwise `Err` showing the original collections and both sets |
| Sets.AssertSetSupersetOther | src/assert_set_superset_other.rs:165-178 | returns iff `set(a) ⊇ set(b)`; otherwise panics with the diagnostic or exactly the custom message |
| Sets.DebugAssertSetSupersetOther | src/assert_set_superset_other.rs:209-214 | gated on `debug_assertions`; when on, checks the superset |
| Sets.SupersetOtherIgnoresOrderAndDuplicates | src/assert_set_superset_other.rs:55-58 | inputs with the same elements, in any order and with any duplicates, give the same verdict |
| Sets.SetRenderings | src/assert_set_superset_other.rs:94-111 | the renderings `{1, 2}`, `{1, 2, 3}`, `[1, 2]`, `[1, 2, 3]` the test expects |
| Sets.SupersetOtherExamples | src/assert_set_superset_other.rs:85-111 | `[1, 2, 3]` vs `[1, 2]` is `Ok`; `[1, 2]` vs `[1, 2, 3]` fails showing `{1, 2}` and `{1, 2, 3}` |
| Sets.SupersetOtherDiagnosticText | src/assert_set_superset_other.rs:94-111 | the exact failure text |
| Sets.AssertableSetSubset | src/assertable_set_subset.rs:35-62 | `Ok(())` iff `set(left) ⊆ set(right)`; otherwise `Err` showing the original collections, or exactly `Err(message)` in the message arm |
| Sets.SubsetIsConverseOfSuperset | src/assertable_set_subset.rs:39-43 | `assertable_set_subset(left, right)` succeeds exactly when `assert_set_superset_other(right, left)` does |
| Sets.SetSubsetExamples | src/assertable_set_subset.rs:68-109 | `[1, 2]` ⊆ `[1, 2, 3]` passes in both arms; `[1, 2, 3]` vs `[1, 2]` fails with the rendered collections, or with the message |
| Sets.SetSubsetDiagnosticText | src/assertable_set_subset.rs:79-87 | the exact failure text |
| Options.AssertSomeNeAsResult | src/assert_some/assert_some_ne.rs:50-88 | `Ok(())` iff both are `Some` and the inner values differ; equal `Some`s give an `Err` with inner lines; a `None` gives an `Err` with label and debug lines only |
| Options.AssertSomeNe | src/assert_some/assert_some_ne.rs:205-218 | returns iff both are `Some` and differ; otherwise panics with the diagnostic or the custom message |
| Options.DebugAssertSomeNe | src/assert_some/assert_some_ne.rs:252-257 | gated on `debug_assertions`; when on, as `assert_some_ne` |
| Options.AssertOptionSomeEqAsResult | src/assert_option/assert_option_some_eq.rs:42-77 | `Ok(())` iff both are `Some` and equal; unequal `Some`s give an `Err` ending with the inner values; a `None` gives the four label/debug lines |
| Options.AssertOptionSomeEq | src/assert_option/assert_option_some_eq.rs:183-196 | returns iff both are `Some` and equal; otherwise panics with the diagnostic or the custom message |
| Options.AssertOptionSomeNeAsResult | src/assert_option/assert_option_some_ne.rs:43-79 | a `None` gives an `Err` without inner values; with both `Some`, `Ok(())` iff the unwrapped values differ, otherwise an `Err` with them |
| Options.AssertOptionSomeNe | src/assert_option/assert_option_some_ne.rs:188-201 | returns iff both are `Some` and differ; otherwise panics with the diagnostic or the custom message |
| Options.OptionSomeEqNeComplementary | src/assert_option/assert_option_some_ne.rs:58-62 | for two `Some`s, exactly one of `assert_option_some_eq` and `assert_option_some_ne` succeeds |
| Options.NoneFailsEveryComparison | src/assert_option/assert_option_some_ne.rs:43-56 | a `None` operand makes all three option comparisons fail |
| Options.SomeNeAgreesWithOptionSomeNe | src/assert_some/assert_some_ne.rs:50-53 | `assert_some_ne` and `assert_option_some_ne` give the same verdict |
| Options.OptionRenderings | src/assert_some/assert_some_ne.rs:108-145 | the renderings `Some(1)`, `Some(2)`, `None` |
| Options.SomeNeExamples | src/assert_some/assert_some_ne.rs:108-145 | `Some(1)` vs `Some(2)` passes; `Some(1)` vs `Some(1)` and `None` vs `Some(1)` fail with the two diagnostic shapes |
| Options.SomeNeDiagnosticText | src/assert_some/assert_some_ne.rs:108-126 | the exact text with inner lines |
| Options.SomeNeNotSomeDiagnosticText | src/assert_some/assert_some_ne.rs:129-145 | the exact text without inner lines |
| Options.OptionSomeExamples | src/assert_option/assert_option_some_eq.rs:94-129 | pass and fail cases of `assert_option_some_eq` and `assert_option_some_ne` with their diagnostics |
| Options.OptionSomeEqDiagnosticText | src/assert_option/assert_option_some_eq.rs:94-111 | the exact text for unequal `Some`s |
| Options.OptionSomeEqNotSomeDiagnosticText | src/assert_option/assert_option_some_eq.rs:114-129 | the exact text for a `None` |
| Options.OptionSomeNeDiagnosticText | src/assert_option/assert_option_some_ne.rs:99-116 | the exact text for equal `Some`s |
| Options.OptionSomeNeNotSomeDiagnosticText | src/assert_option/assert_option_some_ne.rs:119-134 | the exact text for a `None` |
| Results.AssertOkNeExprAsResult | src/assert_ok/assert_ok_ne_expr.rs:49-87 | `Ok(())` iff `a` is `Ok(x)` with `x != b`; `Ok(b)` gives an `Err` with an inner line; `Err(_)` gives an `Err` without one |
| Results.AssertOkNeExpr | src/assert_ok/assert_ok_ne_expr.rs:199-212 | returns iff `a` is `Ok(x)` with `x != b`; otherwise panics with the diagnostic or the custom message |
| Results.AssertErrEqXAsResult | src/assert_err/assert_err_eq_x.rs:48-89 | `Ok(a1)`, returning the payload, iff `a` is `Err(a1)` with `a1 == b`; otherwise an `Err` with or without the inner line |
| Results.AssertErrEqX | src/assert_err/assert_err_eq_x.rs:199-211 | returns `a1` iff `a` is `Err(a1)` with `a1 == b`; otherwise panics with the diagnostic or only the custom message |
| Results.AssertErrAsResult | src/assert_err.rs:48-63 | `Ok(())` iff `a` is `Err(_)`; otherwise `Err` with header, URL, label and debug lines |
| Results.AssertErr | src/assert_err.rs:142-155 | returns iff `a` is `Err(_)`; otherwise panics with the diagnostic or the custom message |
| Results.DebugAssertErr | src/assert_err.rs:189-194 | gated on `debug_assertions`; when on, as `assert_err` |
| Results.AssertResultOkAsResult | src/assert_result/assert_result_ok.rs:43-55 | `Ok(())` iff the value is `Ok(_)`; otherwise a three-line `Err` with no URL line |
| Results.AssertResultOk | src/assert_result/assert_result_ok.rs:129-142 | returns iff the value is `Ok(_)`; otherwise panics with the diagnostic or the custom message |
| Results.ErrAndResultOkComplementary | src/assert_result/assert_result_ok.rs:43-45 | exactly one of `assert_err` and `assert_result_ok` succeeds on any result |
| Results.ErrEqXImpliesErr | src/assert_err/assert_err_eq_x.rs:48-51 | when `assert_err_eq_x` succeeds, so does `assert_err` |
| Results.OkNeExprImpliesResultOk | src/assert_ok/assert_ok_ne_expr.rs:49-53 | when `assert_ok_ne_expr` succeeds, so does `assert_result_ok` |
| Results.ResultRenderings | src/assert_err/assert_err_eq_x.rs:107-141 | the renderings `Ok(1)`, `Err(1)`, `Ok(())` |
| Results.OkNeExprExamples | src/assert_ok/assert_ok_ne_expr.rs:106-142 | `Ok(1)` vs `2` passes; `Ok(1)` vs `1` and `Err(1)` vs `2` fail with the two diagnostic shapes |
| Results.OkNeExprDiagnosticText | src/assert_ok/assert_ok_ne_expr.rs:106-123 | the exact text with the inner line |
| Results.OkNeExprNotOkDiagnosticText | src/assert_ok/assert_ok_ne_expr.rs:126-142 | the exact text without it |
| Results.ErrEqXExamples | src/assert_err/assert_err_eq_x.rs:99-141 | `Err(1)` vs `1` returns `Ok(1)`; `Err(1)` vs `2` and `Ok(1)` vs `1` fail with the two shapes |
| Results.ErrEqXDiagnosticText | src/assert_err/assert_err_eq_x.rs:107-123 | the exact text with the inner line |
| Results.ErrEqXNotErrDiagnosticText | src/assert_err/assert_err_eq_x.rs:126-141 | the exact text without it |
| Results.ErrExamples | src/assert_err.rs:80-94 | `Err(1)` passes; `Ok(())` fails with the exact text |
| Results.ResultOkExamples | src/assert_result/assert_result_ok.rs:67-86 | `Ok(())` passes; `Err(1)` fails with the exact three-line text |
| Polls.AssertReadyEq2AsResult | src/assert_ready/assert_ready_eq2.rs:52-94 | `Ok((a1, b1))` iff both are `Ready` with equal values; unequal values give an `Err` with inner lines; a `Pending` gives one without |
| Polls.AssertReadyEq2 | src/assert_ready/assert_ready_eq2.rs:212-225 | returns the pair iff both are `Ready` and equal; otherwise panics with the diagnostic or the custom message |
| Polls.AssertPollReadyNeAsResult | src/assert_poll/assert_poll_ready_ne.rs:47-86 | `Ok(())` iff both are `Ready` with differing values; equal values give an `Err` with inner lines; a `Pending` gives one with label and debug lines only |
| Polls.AssertPollReadyNe | src/assert_poll/assert_poll_ready_ne.rs:203-216 | returns iff both are `Ready` and differ; otherwise panics with the diagnostic or the custom message |
| Polls.ReadyEq2AndPollReadyNeComplementary | src/assert_poll/assert_poll_ready_ne.rs:47-49 | for two `Ready`s exactly one of the eq and ne checks succeeds; with a `Pending` both fail |
| Polls.PollRenderings | src/assert_ready/assert_ready_eq2.rs:116-151 | the renderings `Ready(1)`, `Ready(2)`, `Pending` |
| Polls.ReadyEq2Examples | src/assert_ready/assert_ready_eq2.rs:108-151 | `Ready(1)` vs `Ready(1)` returns `(1, 1)`; unequal and `Pending` cases fail with the two shapes |
| Polls.ReadyEq2DiagnosticText | src/assert_ready/assert_ready_eq2.rs:116-133 | the exact text with inner lines |
| Polls.ReadyEq2NotReadyDiagnosticText | src/assert_ready/assert_ready_eq2.rs:136-151 | the exact text without them |
| Polls.PollReadyNeExamples | src/assert_poll/assert_poll_ready_ne.rs:99-144 | `Ready(1)` vs `Ready(2)` passes; equal and `Pending` cases fail with the two shapes |
| Polls.PollReadyNeDiagnosticText | src/assert_poll/assert_poll_ready_ne.rs:107-125 | the exact text with inner lines |
| Polls.PollReadyNeNotReadyDiagnosticText | src/assert_poll/assert_poll_ready_ne.rs:128-144 | the exact text without them |
| Len.AssertLenGeExprAsResult | src/assert_len/assert_len_ge_expr.rs:50-69 | `Ok(())` iff `a.len() >= b`; otherwise `Err` with an `a.len()` line between a debug and b label |
| Len.AssertLenGeExpr | src/assert_len/assert_len_ge_expr.rs:171-184 | returns iff `a.len() >= b`; otherwise panics with the diagnostic or the custom message |
| Len.DebugAssertLenGeExpr | src/assert_len/assert_len_ge_expr.rs:218-223 | gated on `debug_assertions` |
| Len.AssertLenGeXAsResult | src/assert_len/assert_len_ge_x.rs:50-69 | `Ok((a.len(), b))` iff `a.len() >= b`; otherwise the `Err` text |
| Len.AssertLenGeX | src/assert_len/assert_len_ge_x.rs:172-185 | returns the pair iff `a.len() >= b`; a custom message replaces the diagnostic |
| Len.LenGeExprAgreesWithLenGeX | src/assert_len/assert_len_ge_x.rs:50-52 | the two length families give the same verdict |
| Len.LenGeMonotone | src/assert_len/assert_len_ge_x.rs:50-52 | a longer collection, or a smaller bound, keeps a passing check passing |
| Len.StrRenderings | src/assert_len/assert_len_ge_x.rs:98-114 | `{:?}` of `"x"` and `"xx"` |
| Len.LenGeExprExamples | src/assert_len/assert_len_ge_expr.rs:80-113 | lengths 2 vs 1 and 1 vs 1 pass; 1 vs 2 fails |
| Len.LenGeExprDiagnosticText | src/assert_len/assert_len_ge_expr.rs:96-113 | the exact failure text |
| Len.LenGeXExamples | src/assert_len/assert_len_ge_x.rs:82-114 | `"xx"` vs 1 gives `Ok((2, 1))`; `"x"` vs 1 gives `Ok((1, 1))`; `"x"` vs 2 fails |
| Len.LenGeXDiagnosticText | src/assert_len/assert_len_ge_x.rs:98-114 | the exact failure text |
| Fn.AssertFnLe2AsResult | src/assert_fn/assert_fn_le2.rs:50-88 | `Ok((f(x), g(y)))` iff `f(x) <= g(y)`; otherwise `Err` listing both function labels, param labels and debug values, and both outputs |
| Fn.AssertFnLe2Arity0AsResult | src/assert_fn/assert_fn_le2.rs:89-115 | the same for `f()` and `g()`, without param lines |
| Fn.AssertFnLe2 | src/assert_fn/assert_fn_le2.rs:276-291 | returns the pair iff `f(x) <= g(y)`; a custom message replaces the diagnostic |
| Fn.AssertFnLe2Arity0 | src/assert_fn/assert_fn_le2.rs:292-307 | returns the pair iff `f() <= g()`; a custom message replaces the diagnostic |
| Fn.FnLe2Arity0AgreesWithArity1 | src/assert_fn/assert_fn_le2.rs:89-115 | arity 0 decides and returns as arity 1 does on functions that ignore their input |
| Fn.AssertFnNeAsResult | src/assert_fn_ne.rs:46-75 | `Ok(())` iff `f(a) != g(b)`; otherwise `Err` with function, input and output lines |
| Fn.AssertFnNeArity0AsResult | src/assert_fn_ne.rs:22-45 | `Ok(())` iff `f() != g()`; otherwise `Err` with function and output lines |
| Fn.AssertFnNe | src/assert_fn_ne.rs:219-231 | returns iff `f(a) != g(b)`; otherwise panics with the diagnostic or the custom message (the intended arity-1 routing; see "## Findings") |
| Fn.AssertFnNeArity0 | src/assert_fn_ne.rs:203-215 | returns iff `f() != g()`; otherwise panics with the diagnostic or the custom message |
| Fn.DebugAssertFnNe | src/assert_fn_ne.rs:264-270 | gated on `debug_assertions`; when on, as `assert_fn_ne` |
| Fn.DebugAssertFnNeArity0 | src/assert_fn_ne.rs:264-270 | gated on `debug_assertions`; when on, as the arity-0 `assert_fn_ne` |
| Fn.FnNeFailureImpliesLe2 | src/assert_fn_ne.rs:48-74 | when `assert_fn_ne` fails, the outputs are equal, so `assert_fn_le2` succeeds with the pair of them |
| Fn.AssertFnLeOtherAsResult | src/assert_fn_le_other.rs:50-76 | one function on both inputs; `Ok(())` iff `f(a) <= f(b)`; otherwise the `Err` text |
| Fn.AssertFnLeOther | src/assert_fn_le_other.rs:170-183 | returns iff `f(a) <= f(b)`; otherwise panics with the diagnostic or the custom message |
| Fn.FnLeOtherIsLe2WithOneFunction | src/assert_fn_le_other.rs:51-55 | `assert_fn_le_other` decides as `assert_fn_le2` with the same function twice |
| Fn.FnLe2Examples | src/assert_fn/assert_fn_le2.rs:134-169 | lt and eq pass with the pair; gt fails; `abs(-2)` vs `abs(1)` fails with the documented values |
| Fn.FnLe2Arity0Examples | src/assert_fn/assert_fn_le2.rs:183-208 | lt and eq pass; gt fails |
| Fn.FnLe2DiagnosticText | src/assert_fn/assert_fn_le2.rs:234-263 | the exact documented panic text |
| Fn.FnLe2GtDiagnosticText | src/assert_fn/assert_fn_le2.rs:150-169 | the exact `Err` text of the arity-1 `test_gt`, `f(2)` against `g(1)`, line by line |
| Fn.FnLe2Arity0DiagnosticText | src/assert_fn/assert_fn_le2.rs:195-208 | the exact arity-0 failure text |
| Fn.FnNeExamples | src/assert_fn_ne.rs:92-145 | different outputs pass; equal outputs fail, in both arities |
| Fn.FnNeArity0DiagnosticText | src/assert_fn_ne.rs:99-112 | the exact arity-0 failure text |
| Fn.FnNeDiagnosticText | src/assert_fn_ne.rs:126-145 | the exact text for `abs(-1)` vs `abs(1)` |
| Fn.FnLeOtherExamples | src/assert_fn_le_other.rs:82-118 | `abs(1) <= abs(-2)` and `abs(1) <= abs(-1)` pass; `abs(-2)` vs `abs(1)` fails |
| Fn.FnLeOtherDiagnosticText | src/assert_fn_le_other.rs:100-118 | the exact failure text |
| FnLegacy.AssertFLe | src/assert_f_le.rs:35-54 | returns iff `f(left) <= f(right)`; otherwise panics with the function name `{:?}`-quoted, inputs and outputs, or with `{:?}` of the custom message |
| FnLegacy.AssertFnLe | src/assert_fn_le.rs:35-54 | returns iff `f(a) <= f(b)`; otherwise panics with the same text under its own header, or with `{:?}` of the custom message |
| FnLegacy.FLeAgreesWithFnLe | src/assert_fn_le.rs:36-43 | `assert_f_le` and `assert_fn_le` give the same verdict, and the same panic when a message is given |
| FnLegacy.AssertFnGe | src/assert_fn_ge.rs:34-53 | returns iff `f(left) >= f(right)`; otherwise panics with input and output lines and no function line, or with `{:?}` of the custom message |
| FnLegacy.FnGeIsFnLeSwapped | src/assert_fn_ge.rs:35-42 | `assert_fn_ge(a, b)` returns exactly when `assert_fn_le(b, a)` does |
| FnLegacy.FnLeOrFnGe | src/assert_fn_ge.rs:35-42 | for a total order, at least one of `assert_fn_le` and `assert_fn_ge` returns |
| FnLegacy.AssertableFNe | src/assertable_f_ne.rs:31-50 | `Ok(())` iff `f(left) != f(right)`; otherwise the `Err` text, or exactly `Err(message)` |
| FnLegacy.FNeFailsIffLeAndGe | src/assertable_f_ne.rs:32-39 | `assertable_f_ne` fails exactly when both `assert_fn_le` and `assert_fn_ge` return |
| FnLegacy.QuotedFunction | src/assert_f_le.rs:76-81 | `{:?}` of the label `i32::abs` is `"\"i32::abs\""` |
| FnLegacy.FLeExamples | src/assert_f_le.rs:60-105 | lt and eq return; gt panics with the text, or with `"message"` quoted |
| FnLegacy.FLeDiagnosticText | src/assert_f_le.rs:76-81 | the exact panic text |
| FnLegacy.FnLeExamples | src/assert_fn_le.rs:60-105 | lt and eq return in both arms; gt panics with the text or the quoted message |
| FnLegacy.FnLeDiagnosticText | src/assert_fn_le.rs:76-81 | the exact panic text |
| FnLegacy.FnGeExamples | src/assert_fn_ge.rs:59-116 | gt and eq return in both arms; lt panics with the text or the quoted message |
| FnLegacy.FnGeDiagnosticText | src/assert_fn_ge.rs:80-86 | the exact panic text |
| FnLegacy.FNeExamples | src/assertable_f_ne.rs:56-97 | different outputs pass in both arms; equal ones give the text or `Err("message")` |
| FnLegacy.FNeDiagnosticText | src/assertable_f_ne.rs:67-75 | the exact `Err` text |
| FnOk.AssertFnOkNe2AsResult | src/assert_fn_ok/assert_fn_ok_ne2.rs:54-123 | `Ok((a, b))` iff both results are `Ok` and the payloads differ; equal payloads give the `assert_fn_ok_ne2` text; a non-`Ok` gives the text headed `assert_fn_err_ne2` with the whole results |
| FnOk.AssertFnOkNe2Arity0AsResult | src/assert_fn_ok/assert_fn_ok_ne2.rs:124-173 | the same for `f()` and `g()`, without param lines |
| FnOk.AssertFnOkNe2 | src/assert_fn_ok/assert_fn_ok_ne2.rs:326-341 | returns the pair iff both are `Ok` and differ; a custom message replaces the diagnostic |
| FnOk.AssertFnOkNe2Arity0 | src/assert_fn_ok/assert_fn_ok_ne2.rs:342-356 | the same for arity 0 |
| FnOk.AssertFnOkNeAsResult | src/assert_fn_ok/assert_fn_ok_ne.rs:54-119 | a non-`Ok` gives the text headed `assert_fn_err_ne`; with both `Ok`, `Ok(())` iff the payloads differ, otherwise the `assert_fn_ok_ne` text |
| FnOk.AssertFnOkNeArity0AsResult | src/assert_fn_ok/assert_fn_ok_ne.rs:120-165 | the same decision on `f()` and `g()` |
| FnOk.AssertFnOkNe | src/assert_fn_ok/assert_fn_ok_ne.rs:320-335 | returns iff both are `Ok` and differ; otherwise panics with the diagnostic or the custom message |
| FnOk.AssertFnOkNeArity0 | src/assert_fn_ok/assert_fn_ok_ne.rs:336-350 | the same for arity 0 |
| FnOk.FnOkNeAgreesWithFnOkNe2 | src/assert_fn_ok/assert_fn_ok_ne.rs:87-90 | `assert_fn_ok_ne` and `assert_fn_ok_ne2` give the same verdict |
| FnOk.AssertFnOkGtAsResult | src/assert_fn_ok/assert_fn_ok_gt.rs:48-103 | a non-`Ok` gives the text headed `assert_fn_err_gt`; with both `Ok`, `Ok(())` iff `a > b`, otherwise the left/right text |
| FnOk.AssertFnOkGtArity0AsResult | src/assert_fn_ok/assert_fn_ok_gt.rs:104-147 | the same on `f()` and `g()` |
| FnOk.AssertFnOkGt | src/assert_fn_ok/assert_fn_ok_gt.rs:328-343 | returns iff both are `Ok` and `a > b`; otherwise panics with the diagnostic or the custom message |
| FnOk.AssertFnOkGtArity0 | src/assert_fn_ok/assert_fn_ok_gt.rs:344-359 | the same for arity 0 |
| FnOk.FnOkGtImpliesFnOkNe | src/assert_fn_ok/assert_fn_ok_gt.rs:76-79 | for a total order, when `assert_fn_ok_gt` succeeds so does `assert_fn_ok_ne` |
| FnOk.FnOkGtAsymmetric | src/assert_fn_ok/assert_fn_ok_gt.rs:76-79 | `assert_fn_ok_gt(f, x, g, y)` and `assert_fn_ok_gt(g, y, f, x)` never both succeed |
| FnOk.FnOkGtArity0AgreesWithArity1 | src/assert_fn_ok/assert_fn_ok_gt.rs:104-147 | arity 0 decides as arity 1 on functions that ignore their input |
| FnOk.NotOkFailsEveryComparison | src/assert_fn_ok/assert_fn_ok_ne.rs:63-85 | a non-`Ok` result makes `assert_fn_ok_ne2`, `assert_fn_ok_ne` and `assert_fn_ok_gt` all fail |
| FnOk.FnOkNe2Examples | src/assert_fn_ok/assert_fn_ok_ne2.rs:192-252 | different payloads return the pair; equal ones fail, in both arities |
| FnOk.FnOkNe2NotOkExample | src/assert_fn_ok/assert_fn_ok_ne2.rs:93-117 | an `Err` result gives the `assert_fn_err_ne2` text with the whole results |
| FnOk.FnOkNe2DiagnosticText | src/assert_fn_ok/assert_fn_ok_ne2.rs:200-219 | the exact arity-1 text |
| FnOk.FnOkNe2Arity0DiagnosticText | src/assert_fn_ok/assert_fn_ok_ne2.rs:233-252 | the exact arity-0 text |
| FnOk.FnOkNeExamples | src/assert_fn_ok/assert_fn_ok_ne.rs:184-246 | different payloads pass; equal ones fail, in both arities |
| FnOk.FnOkNeDiagnosticText | src/assert_fn_ok/assert_fn_ok_ne.rs:192-212 | the exact arity-1 text |
| FnOk.FnOkNeArity0DiagnosticText | src/assert_fn_ok/assert_fn_ok_ne.rs:232-246 | the exact arity-0 text |
| FnOk.FnOkGtExamples | src/assert_fn_ok/assert_fn_ok_gt.rs:166-215 | gt passes; eq and lt fail |
| FnOk.FnOkGtArity0Examples | src/assert_fn_ok/assert_fn_ok_gt.rs:229-264 | `(g, f)` passes while `(f, f)` and `(f, g)` fail |
| FnOk.FnOkGtEqDiagnosticText | src/assert_fn_ok/assert_fn_ok_gt.rs:174-193 | the exact eq text |
| FnOk.FnOkGtLtDiagnosticText | src/assert_fn_ok/assert_fn_ok_gt.rs:196-215 | the exact lt text |
| FnOk.FnOkGtArity0EqDiagnosticText | src/assert_fn_ok/assert_fn_ok_gt.rs:235-248 | the exact arity-0 eq text |
| FnOk.FnOkGtArity0LtDiagnosticText | src/assert_fn_ok/assert_fn_ok_gt.rs:251-264 | the exact arity-0 lt text |
| FnOkLegacy.AssertFnOkGtExprAsResult | src/assert_fn_ok_gt.rs:50-95 | a non-`Ok` `f(a)` gives an `Err` ending with a `left result` line; with `Ok(x)`, `Ok(())` iff `x > b`, only the left side being unwrapped |
| FnOkLegacy.AssertFnOkGtExpr | src/assert_fn_ok_gt.rs:209-222 | returns iff `f(a)` is `Ok(x)` with `x > b`; otherwise panics with the diagnostic or the custom message |
| FnOkLegacy.FnOkGtExprAgreesWithFnOkGt | src/assert_fn_ok_gt.rs:71-73 | when `g(y)` is `Ok(b)`, comparing against the expression `b` decides as comparing against the function `g` |
| FnOkLegacy.AssertFnOkGe | src/assert_fn_ok_ge.rs:28-59 | returns iff both outputs are `Ok` and `left >= right`; otherwise panics with the `is_ok()` flags or the input/output lines, or with `{:?}` of the custom message in both failure kinds |
| FnOkLegacy.FnOkGeEitherWay | src/assert_fn_ok_ge.rs:35-41 | for a total order and two `Ok` outputs, `assert_fn_ok_ge` returns one way round or the other |
| FnOkLegacy.FnOkGtExprImpliesFnOkGe | src/assert_fn_ok_ge.rs:35-41 | when `assert_fn_ok_gt` of `f(left)` against the `Ok` payload of `f(right)` succeeds, `assert_fn_ok_ge(f, left, right)` returns |
| FnOkLegacy.AssumeFnErrStringGe | src/assume_fn_err_string_ge.rs:28-63 | `Ok(true)` iff both outputs are `Err` and `left.to_string() >= right.to_string()`; otherwise the `is_err()` text or the compare text, or exactly `Err(message)` in both failure kinds |
| FnOkLegacy.ErrStringGeEitherWay | src/assume_fn_err_string_ge.rs:35-43 | for two `Err` outputs, `assume_fn_err_string_ge` succeeds one way round or the other |
| FnOkLegacy.QuotedDigits | src/assert_fn_ok_gt.rs:117-156 | `{:?}` of `"1"` and `"2"` |
| FnOkLegacy.FnOkGtExprExamples | src/assert_fn_ok_gt.rs:108-156 | `"2"` vs `"1"` passes; `"1"` vs `"1"` and `"1"` vs `"2"` fail, by string order |
| FnOkLegacy.DigitFunctionLine | src/assert_fn_ok_gt.rs:117-136 | the exact `left_function label` line the tests expect |
| FnOkLegacy.FnOkGtExprEqDiagnosticText | src/assert_fn_ok_gt.rs:117-136 | the exact eq text |
| FnOkLegacy.FnOkGtExprLtDiagnosticText | src/assert_fn_ok_gt.rs:138-156 | the exact lt text |
| FnOkLegacy.FnOkGeExamples | src/assert_fn_ok_ge.rs:66-123 | `"2"`/`"1"` and `"1"`/`"1"` pass in both arms; `"1"`/`"2"` panics with the text or the quoted message |
| FnOkLegacy.FnOkGeDiagnosticText | src/assert_fn_ok_ge.rs:88-93 | the exact panic text |
| FnOkLegacy.ErrStringGeExamples | src/assume_fn_err_string_ge.rs:71-134 | gt and eq give `Ok(true)` in both arms; lt gives the text or `Err("message")` |
| FnOkLegacy.ErrStringGeDiagnosticText | src/assume_fn_err_string_ge.rs:93-100 | the exact `Err` text |
| Values.AssertEqAsResult | src/assert_eq.rs:44-68 | never panics; `Ok(())` iff `a == b`, otherwise exactly header, a label, a debug, b label, b debug |
| Values.AssertNeAsResult | src/assert_ne.rs:41-67 | never panics; `Ok(())` iff `a != b`, otherwise the label, debug, left and right lines |
| Values.EqAndNeComplementary | src/assert_ne.rs:45-47 | exactly one of `assert_eq_as_result` and `assert_ne_as_result` succeeds |
| Values.EqExamples | src/assert_eq.rs:74-97 | `1` vs `1` is `Ok`; `1` vs `2` fails |
| Values.EqDiagnosticText | src/assert_eq.rs:82-97 | the exact failure text |
| Values.NeExamples | src/assert_ne.rs:73-100 | `1` vs `2` is `Ok`; `1` vs `1` fails |
| Values.NeDiagnosticText | src/assert_ne.rs:84-100 | the exact failure text |
| ValuesLegacy.AssertableNe | src/assertable_ne.rs:30-51 | `Ok(())` iff `left != right`; otherwise the `Err` text, or exactly `Err(message)` |
| ValuesLegacy.AssertableNeAgreesWithAssertNe | src/assertable_ne.rs:33-35 | `assertable_ne` and `assert_ne_as_result` give the same verdict |
| ValuesLegacy.AssureIoEq | src/assure_io_eq.rs:28-51 | `Ok(true)` iff equal, else `Ok(false)`; no path is `Err`; the message arm gives the same |
| ValuesLegacy.AssureIoEqAgreesWithAssertEq | src/assure_io_eq.rs:32-36 | the boolean is exactly `assert_eq_as_result`'s verdict |
| ValuesLegacy.AssertLe | src/assert_le.rs:26-49 | returns iff `left <= right`; otherwise panics with the left/right text, or with `{:?}` of the custom message |
| ValuesLegacy.LeEitherWay | src/assert_le.rs:30-31 | for a total order, `assert_le` returns one way round or the other |
| ValuesLegacy.AssertableNeExamples | src/assertable_ne.rs:58-99 | `1` vs `2` passes in both arms; `1` vs `1` gives the text or `Err("message")` |
| ValuesLegacy.AssertableNeDiagnosticText | src/assertable_ne.rs:69-77 | the exact `Err` text |
| ValuesLegacy.AssureIoEqExamples | src/assure_io_eq.rs:57-102 | `1, 1` gives `Ok(true)` and `1, 2` gives `Ok(false)`, with and without a message |
| ValuesLegacy.LeExamples | src/assert_le.rs:54-90 | `1 <= 2` returns in both arms; `2` vs `1` panics with the text or the quoted message |
| ValuesLegacy.LeDiagnosticText | src/assert_le.rs:65-71 | the exact panic text |
| Dispatch.FirstMatch | src/assert_fn_ne.rs:199-233 | `macro_rules!` expands the first arm, in written order, that matches; there is none iff no arm matches |
| Dispatch.SkipNonMatching | src/assert_fn_ne.rs:199-233 | arms that do not match can be dropped from the front of the order without changing the choice |
| Dispatch.AsWrittenTakesArity1CallForArity0 | src/assert_fn_ne.rs:210-215 | with the arms as written, a four-argument call whose first two arguments are paths is taken by the arity-0 message arm |
| Dispatch.AsWrittenDocumentedCall | src/assert_fn_ne.rs:163-172 | the documented call `assert_fn_ne!(i32::abs, a, i32::abs, b)` is taken by the arity-0 message arm, though the arity-1 arm matches it |
| Dispatch.Arity1FirstRoutesArity1Calls | src/assert_fn/assert_fn_le2.rs:274-306 | with arity 1 first, as the sibling macros order their arms, such a call takes the arity-1 arm |
| Dispatch.Arity1FirstRoutesArity1MessageCalls | src/assert_fn/assert_fn_le2.rs:274-306 | with five or more arguments, it takes the arity-1 message arm |
| Dispatch.Arity1FirstRoutesArity0Calls | src/assert_fn/assert_fn_le2.rs:292-307 | a two-function call takes the arity-0 arm in either order |
| Dispatch.Arity1FirstRoutesArity0MessageCalls | src/assert_fn/assert_fn_le2.rs:292-307 | a two-function call with a message that cannot be read as input and function takes the arity-0 message arm |

## Left out

- Rust's `{:?}` and `Display` rendering of operands is an abstract `show` parameter. Exact renderings such as `{1: 2}`, `Some(1)` or `"x"` are defined only for the values the tests use (integers, strings, integer slices, sets and tallies).
- The `stringify!` labels, the `env!("CARGO_PKG_VERSION")` in the URL line and `cfg!(debug_assertions)` are parameters.
- Operands are already-evaluated values. The macros re-evaluate their operand expressions, for example src/assert_err/assert_err_eq_x.rs:48,65. The model does not claim that an operand is evaluated once.
- A panic is the returned value `Panicked(message)`. Unwinding and `catch_unwind` are not modelled.
- A custom message is one string, the message as formatted. The `format!`-style arguments of `$($message:tt)+` are not modelled.
- Integers are unbounded. `i8::abs` and `i32::abs` of the minimum value overflow in Rust, and no test reaches that case.
- Comparisons are total orders given as a `cmp` function. Rust's `PartialOrd` on types without a total order, such as floating point, is not modelled.
- `len()` is the length of the sequence. For a `&str` Rust counts UTF-8 bytes, and the tests use only ASCII.
- The tallies of `assert_bag_eq2` come from `assert_bag_impl_prep!`, which is not part of this model. They are modelled by the same counting loop as `assert_bag_superbag`. The rendering for `msg_with_left_and_right!` is not part of this model either.
- Sets are Dafny sets. The iteration order of a `BTreeSet` is modelled only where it is printed (`IntSetDebug`), and `HashSet` order is never printed.
- `assert_fn_le2`, `assert_fn_ok_*` and `assert_len_ge_x` have `debug_*` forms. These are the same `Gate` over the panicking form, and the model writes this out only for the families whose debug forms are named.
- The test stand-ins are as small as the tests. The parsing function behind `assert_fn_ok_ge` and `assert_fn_ok_gt` accepts single digits only.
- FnOkLegacy.AssumeFnErrStringGe: the doc comment of `assume_fn_err_string_ge` shows the header as `(left, right)`, while the code writes `(fn, left, right)`. The model follows the code.
- FnOkLegacy.AssumeFnErrStringGe: the doc title of `assume_fn_err_string_ge` (src/assume_fn_err_string_ge.rs:1) says "is not equal to", while the code compares with `>=`. The model follows the code.
- Dispatch: macro arguments are seen only as paths or not-paths, with a count. The matcher's error on a fragment that starts to parse and then fails is not modelled.
- Process, command, file-system and reader families are out of scope. Their substance is process spawning, I/O and regular expressions.
- `src/assert_poll/assert_poll_ready_eq2.rs` only forwards to `assert_ready_eq2`. `src/lib.rs` and the `mod.rs` files hold documentation and module lists only.

## Findings

| source | as written | input that shows it | evidently intended | confidence | as-written member | corrected member |
|---|---|---|---|---|---|---|
| src/assert_fn_ne.rs:199-233 | the arity-0 arms of `assert_fn_ne!` come before the arity-1 arms, and `($a_function:path, $b_function:path, $($message:tt)+)` also accepts `(f, a, g, b)` whenever `a` is a path | `assert_fn_ne!(i32::abs, a, i32::abs, b)`, the documented call at src/assert_fn_ne.rs:161-172: it is taken by the arity-0 message arm, whose expansion calls `i32::abs()` and `a()` and passes `i32::abs, b` to `panic!("{}", ...)`; since `i32::abs` needs an argument, `a: i32` is not callable and the format string has one argument too many, the documented example does not compile | the arity-1 arms first, as in `assert_fn_le2!` (src/assert_fn/assert_fn_le2.rs:274-306) and `assert_fn_ok_ne2!`, so that the call compares `i32::abs(a)` with `i32::abs(b)` | medium; not executed | Dispatch.AsWrittenTakesArity1CallForArity0 | Dispatch.Arity1FirstRoutesArity1Calls |

The panicking functions `Fn.AssertFnNe` and `Fn.AssertFnNeArity0` model the
corrected routing. An arity-1 call reaches the arity-1 check.
