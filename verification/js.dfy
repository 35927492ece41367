/**
 * The few JavaScript runtime behaviours the modelled code relies on:
 * properties that may be `undefined`, truthiness tests, and the string
 * conversion performed by `+` when one operand is a string.
 */
module Js {

  /** A property that may hold `undefined`. */
  datatype Opt<+T> = Undefined | Defined(value: T) {

    /** `x || fallback` where `x` is an object (a Set or an Array): objects are
        truthy even when empty, so only `undefined` is replaced. */
    function OrElse(fallback: T): T {
      match this
      case Defined(v) => v
      case Undefined => fallback
    }
  }

  /** Truthiness of a `string | undefined`: `undefined` and `""` are falsy. */
  predicate IsTruthy(s: Opt<string>) {
    s.Defined? && s.value != ""
  }

  /** The text a `string | undefined` operand contributes to a string `+`. */
  function ToJsString(s: Opt<string>): string {
    match s
    case Defined(v) => v
    case Undefined => "undefined"
  }
}
