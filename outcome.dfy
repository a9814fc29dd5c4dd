/**
 * The shapes every assertion macro works with: the standard library's
 * Option, Result and Poll as operands, and the three-tier outcome protocol
 * shared by all families.
 *
 * Tier 1, `*_as_result`, yields a `Result<P, string>`: `Ok(payload)` or
 * `Err(diagnostic)`.  Tier 2, the panicking form, unwraps it: it evaluates
 * to the payload, or panics with the diagnostic, or, when the caller gave a
 * custom message, with exactly that message.  Tier 3, `debug_*`, runs tier 2
 * only when `cfg!(debug_assertions)` holds.  A panic is modelled as the
 * returned value `Panicked(message)`.
 */
module Outcome {

  datatype Option<T> = None | Some(value: T)

  datatype Result<T, E> = Ok(value: T) | Err(error: E)

  /** `std::task::Poll`. */
  datatype Poll<T> = Ready(value: T) | Pending

  /** What evaluating a panicking macro amounts to. */
  datatype Outcome<T> = Returned(value: T) | Panicked(message: string)

  /**
   * The body shared by every panicking form:
   *   match $as_result { Ok(x) => x, Err(err) => panic!("{}", err) }
   * and, in the arm with a custom message,
   *   match $as_result { Ok(x) => x, Err(_err) => panic!("{}", $($message)+) }.
   * `message` is `Some(text)` for the second arm, `text` being the message
   * as formatted.
   */
  function Escalate<T>(r: Result<T, string>, message: Option<string>): (o: Outcome<T>)
    ensures o.Returned? <==> r.Ok?
    ensures r.Ok? ==> o.value == r.value
    ensures r.Err? && message.None? ==> o.message == r.error
    ensures r.Err? && message.Some? ==> o.message == message.value
  {
    match r
    case Ok(x) => Returned(x)
    case Err(err) => if message.Some? then Panicked(message.value) else Panicked(err)
  }

  /**
   * Every `debug_*` form: `if cfg!(debug_assertions) { assert_x!(...); }`.
   * The check is passed unevaluated, so when the flag is off it is not run
   * at all; the statement's own value is always `()`.
   */
  function Gate<T>(debugAssertions: bool, check: () -> Outcome<T>): (o: Outcome<()>)
    ensures !debugAssertions ==> o == Returned(())
    ensures debugAssertions ==> (o.Returned? <==> check().Returned?)
    ensures debugAssertions && o.Panicked? ==> o.message == check().message
  {
    if debugAssertions then
      match check()
      case Returned(_) => Returned(())
      case Panicked(m) => Panicked(m)
    else Returned(())
  }

  /** The custom message replaces the diagnostic: which diagnostic was built does not matter. */
  lemma CustomMessageDiscardsDiagnostic<T>(d1: string, d2: string, text: string)
    ensures Escalate<T>(Err(d1), Some(text)) == Escalate<T>(Err(d2), Some(text)) == Panicked(text)
  {
  }

  /** Escalation loses nothing: the outcome determines the result again, when no custom message is given. */
  lemma EscalateInjective<T>(r1: Result<T, string>, r2: Result<T, string>)
    requires Escalate(r1, None) == Escalate(r2, None)
    ensures r1 == r2
  {
  }
}
