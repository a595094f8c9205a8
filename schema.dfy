/** What every schema shares: the validator shape (`trait Schema`), the standard-library behaviour the
    validators rely on, and the in-order application of same-type transforms. */
module Schema {
  import opened Values
  import opened Errors

  /** Standard-library behaviour the validators call but this model does not define:
      `str::parse::<f64>`, `n as f64` for an `i64`, `f64::to_string`, and `{:?}` of an error map. */
  datatype Host = Host(
    parseFloat: string -> Option<Float64>,
    floatOfInt: Int64 -> Float64,
    showFloat: Float64 -> string,
    debugErrors: ErrorMapDebug)

  /** `Schema::validate` for a schema whose `Output` is `O`: a boxed trait object or a generic
      schema parameter is represented by its validate function. */
  type Validator<!O> = (Value, Host) -> ValidationResult<O>

  /** The transforms of a schema applied to `x` in the order they were added (a left fold). */
  function ApplyAll<T>(transforms: seq<T -> T>, x: T): T
    decreases |transforms|
  {
    if |transforms| == 0 then x else ApplyAll(transforms[1..], transforms[0](x))
  }

  /** A transform added last runs last. */
  lemma {:induction false} ApplyAllAppend<T>(transforms: seq<T -> T>, f: T -> T, x: T)
    ensures ApplyAll(transforms + [f], x) == f(ApplyAll(transforms, x))
    decreases |transforms|
  {
    if |transforms| > 0 {
      assert (transforms + [f])[1..] == transforms[1..] + [f];
      ApplyAllAppend(transforms[1..], f, transforms[0](x));
    }
  }

  /** Running two lists of transforms one after the other is running their concatenation. */
  lemma {:induction false} ApplyAllConcat<T>(first: seq<T -> T>, second: seq<T -> T>, x: T)
    ensures ApplyAll(first + second, x) == ApplyAll(second, ApplyAll(first, x))
    decreases |first|
  {
    if |first| == 0 {
      assert first + second == second;
    } else {
      assert (first + second)[1..] == first[1..] + second;
      ApplyAllConcat(first[1..], second, first[0](x));
    }
  }
}
