/** The boolean schema: a `bool` validator with optional truthiness coercion and a list of
    bool -> bool transforms. */
module Booleans {
  import opened Values
  import opened Errors
  import opened Schema
  import Strings
  import Numbers

  /** The label this schema reports for the type of any rejected input: the standard library's
      name for `bool`, whatever the input's actual type. */
  const TypeLabel: string := "bool"

  /** The types the coercion rule knows about. */
  predicate Coercible(v: Value) {
    v.Int? || v.Float? || v.Str? || v.OptBool? || v.VecBool? || v.VecInt? || v.VecStr?
  }

  /** The truthiness of a coercible value, one rule per type: non-zero numbers (either zero of
      f64 counts as zero, NaN does not), non-empty strings and vectors, and `Some` are true. */
  function Truthy(v: Value): bool
    requires Coercible(v)
  {
    match v
    case Int(n) => n != 0
    case Float(x) => !IsZero(x)
    case Str(s) => |s| > 0
    case OptBool(o) => o.Some?
    case VecBool(bs) => |bs| > 0
    case VecInt(ns) => |ns| > 0
    case VecStr(ss) => |ss| > 0
  }

  datatype BooleanSchema = BooleanSchema(
    coerce: bool,
    errorConfig: Option<ErrorConfig>,
    transforms: seq<bool -> bool>)
  {
    static function New(coerce: bool): (s: BooleanSchema)
      ensures s.coerce == coerce && s.errorConfig == None && s.transforms == []
    {
      BooleanSchema(coerce, None, [])
    }

    function SetMessage(code: string, message: string): (s: BooleanSchema)
      ensures s.coerce == coerce && s.transforms == transforms
      ensures s.errorConfig == Some(ErrorConfig(code, message))
    {
      this.(errorConfig := Some(ErrorConfig(code, message)))
    }

    /** Adds `f` after every transform already registered. */
    function Transform(f: bool -> bool): (s: BooleanSchema)
      ensures s.coerce == coerce && s.errorConfig == errorConfig
      ensures s.transforms == transforms + [f]
      ensures forall b :: s.Apply(b) == f(Apply(b))
    {
      var s := this.(transforms := transforms + [f]);
      forall b ensures s.Apply(b) == f(Apply(b)) {
        ApplyAllAppend(transforms, f, b);
      }
      s
    }

    /** What the registered transforms compute, in registration order. */
    function Apply(b: bool): bool {
      ApplyAll(transforms, b)
    }

    /** `apply_transforms`: runs the transforms one at a time, each on the previous one's result. */
    method ApplyTransforms(value: bool) returns (r: bool)
      ensures r == Apply(value)
    {
      r := value;
      for i := 0 to |transforms|
        invariant r == ApplyAll(transforms[..i], value)
      {
        ApplyAllAppend(transforms[..i], transforms[i], value);
        assert transforms[..i + 1] == transforms[..i] + [transforms[i]];
        r := transforms[i](r);
      }
      assert transforms[..|transforms|] == transforms;
    }

    /** The coercion step alone: a bool as is; with coercion the truthiness of a coercible value. */
    function Coerced(v: Value, h: Host): (r: ValidationResult<bool>)
      ensures r.Ok? <==> v.Bool? || (coerce && Coercible(v))
      ensures v.Bool? ==> r == Ok(v.b)
      ensures !v.Bool? && coerce && Coercible(v) ==> r == Ok(Truthy(v))
      ensures r.Err? && !coerce ==> r.error.errorType == Type("Boolean", TypeLabel)
      ensures r.Err? && coerce ==> r.error.errorType == Coercion(TypeLabel, "Boolean")
      ensures r.Err? ==> r.error == Errors.New(r.error.errorType, errorConfig, h.debugErrors)
    {
      if v.Bool? then
        Ok(v.b)
      else if coerce then
        if v.Int? then Ok(v.i != 0)
        else if v.Float? then Ok(!IsZero(v.f))
        else if v.Str? then Ok(|v.s| > 0)
        else if v.OptBool? then Ok(v.optBool.Some?)
        else if v.VecBool? then Ok(|v.bools| > 0)
        else if v.VecInt? then Ok(|v.ints| > 0)
        else if v.VecStr? then Ok(|v.strs| > 0)
        else Err(Errors.New(Coercion(TypeLabel, "Boolean"), errorConfig, h.debugErrors))
      else
        Err(Errors.New(Type("Boolean", TypeLabel), errorConfig, h.debugErrors))
    }

    /** Coercion, then the transforms on success; an error skips the transforms. `Apply` is what
        the loop in `ApplyTransforms` is proved to compute. */
    function Validate(v: Value, h: Host): (r: ValidationResult<bool>)
      ensures r.Ok? <==> v.Bool? || (coerce && Coercible(v))
      ensures r.Ok? ==> r.value == Apply(Coerced(v, h).value)
      ensures r.Err? ==> r.error == Coerced(v, h).error
    {
      Coerced(v, h).Map(Apply)
    }
  }

  /** A transform added last runs on the output of every earlier one. */
  lemma TransformRunsLast(s: BooleanSchema, f: bool -> bool, v: Value, h: Host)
    ensures s.Transform(f).Validate(v, h) == s.Validate(v, h).Map(f)
  {
  }

  /** Negating twice gives back the schema's own answer on every input. */
  lemma DoubleNegationIsIdentity(s: BooleanSchema, v: Value, h: Host)
    ensures s.Transform(b => !b).Transform(b => !b).Validate(v, h) == s.Validate(v, h)
  {
    TransformRunsLast(s, b => !b, v, h);
    TransformRunsLast(s.Transform(b => !b), b => !b, v, h);
  }

  /** Coercion only widens what is accepted, with the same output on inputs accepted anyway. */
  lemma CoercionOnlyWidens(s: BooleanSchema, v: Value, h: Host)
    ensures s.(coerce := false).Validate(v, h).Ok? ==>
            s.(coerce := true).Validate(v, h) == s.(coerce := false).Validate(v, h)
  {
  }

  /** Truthiness looks only at emptiness for text: the string "false" (in any case) coerces to
      true, and only the empty string to false. */
  lemma StringTruthinessIgnoresContent(s: string, h: Host)
    ensures BooleanSchema.New(true).Validate(Str(s), h) == Ok(s != "")
    ensures BooleanSchema.New(true).Validate(Str("false"), h) == Ok(true)
  {
  }

  /** A bool coerced to a number and back comes out unchanged (1.0 is non-zero, 0.0 is zero). */
  lemma NumberRoundTrip(b: bool, h: Host)
    ensures Numbers.NumberSchema.New(true).Validate(Bool(b), h) == Ok(if b then One else Zero)
    ensures BooleanSchema.New(true).Validate(Float(if b then One else Zero), h) == Ok(b)
  {
  }

  /** A bool coerced to a string and back does not round-trip: `false` becomes "false", which is
      non-empty and so coerces to true. */
  lemma StringRoundTripLosesFalse(h: Host)
    ensures Strings.StringSchema.New(true).Validate(Bool(false), h) == Ok("false")
    ensures BooleanSchema.New(true).Validate(Str("false"), h) == Ok(true)
  {
  }
}
