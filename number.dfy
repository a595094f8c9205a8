/** The number schema: an `f64` validator with optional coercion and a list of f64 -> f64
    transforms. */
module Numbers {
  import opened Values
  import opened Errors
  import opened Schema

  /** The label this schema reports for the type of any rejected input: the standard library's
      name for `f64`, whatever the input's actual type. */
  const TypeLabel: string := "f64"

  /** Inputs accepted before any transform runs. */
  predicate Accepts(coerce: bool, v: Value, h: Host) {
    v.Float? || (coerce && (v.Int? || (v.Str? && h.parseFloat(v.s).Some?) || v.Bool?))
  }

  datatype NumberSchema = NumberSchema(
    coerce: bool,
    errorConfig: Option<ErrorConfig>,
    transforms: seq<Float64 -> Float64>)
  {
    static function New(coerce: bool): (s: NumberSchema)
      ensures s.coerce == coerce && s.errorConfig == None && s.transforms == []
    {
      NumberSchema(coerce, None, [])
    }

    function SetMessage(code: string, message: string): (s: NumberSchema)
      ensures s.coerce == coerce && s.transforms == transforms
      ensures s.errorConfig == Some(ErrorConfig(code, message))
    {
      this.(errorConfig := Some(ErrorConfig(code, message)))
    }

    /** Adds `f` after every transform already registered. */
    function Transform(f: Float64 -> Float64): (s: NumberSchema)
      ensures s.coerce == coerce && s.errorConfig == errorConfig
      ensures s.transforms == transforms + [f]
      ensures forall x :: s.Apply(x) == f(Apply(x))
    {
      var s := this.(transforms := transforms + [f]);
      forall x ensures s.Apply(x) == f(Apply(x)) {
        ApplyAllAppend(transforms, f, x);
      }
      s
    }

    /** What the registered transforms compute, in registration order. */
    function Apply(x: Float64): Float64 {
      ApplyAll(transforms, x)
    }

    /** `apply_transforms`: runs the transforms one at a time, each on the previous one's result. */
    method ApplyTransforms(value: Float64) returns (r: Float64)
      ensures r == Apply(value)
    {
      r := value;
      for i := 0 to |transforms|
        invariant r == ApplyAll(transforms[..i], value)
      {
        ApplyAllAppend(transforms[..i], transforms[i], value);
        assert transforms[..i + 1] == transforms[..i] + [transforms[i]];
        r := transforms[i](r);
      }
      assert transforms[..|transforms|] == transforms;
    }

    /** The coercion step alone: an f64 as is; with coercion an i64 by `as f64`, a String by
        `parse::<f64>` and a bool as 1.0 or 0.0. */
    function Coerced(v: Value, h: Host): (r: ValidationResult<Float64>)
      ensures r.Ok? <==> Accepts(coerce, v, h)
      ensures v.Float? ==> r == Ok(v.f)
      ensures !v.Float? && coerce && v.Int? ==> r == Ok(h.floatOfInt(v.i))
      ensures !v.Float? && coerce && v.Str? && r.Ok? ==> Some(r.value) == h.parseFloat(v.s)
      ensures !v.Float? && coerce && v.Bool? ==> r == Ok(if v.b then One else Zero)
      ensures r.Err? && !coerce ==> r.error.errorType == Type("Number", TypeLabel)
      ensures r.Err? && coerce && v.Str? ==> r.error.errorType == Coercion("String", "Number")
      ensures r.Err? && coerce && !v.Str? ==> r.error.errorType == Coercion(TypeLabel, "Number")
      ensures r.Err? ==> r.error == Errors.New(r.error.errorType, errorConfig, h.debugErrors)
    {
      if v.Float? then
        Ok(v.f)
      else if coerce then
        if v.Int? then
          Ok(h.floatOfInt(v.i))
        else if v.Str? then
          match h.parseFloat(v.s)
          case Some(x) => Ok(x)
          case None => Err(Errors.New(Coercion("String", "Number"), errorConfig, h.debugErrors))
        else if v.Bool? then
          Ok(if v.b then One else Zero)
        else
          Err(Errors.New(Coercion(TypeLabel, "Number"), errorConfig, h.debugErrors))
      else
        Err(Errors.New(Type("Number", TypeLabel), errorConfig, h.debugErrors))
    }

    /** Coercion, then the transforms on success; an error skips the transforms. `Apply` is what
        the loop in `ApplyTransforms` is proved to compute. */
    function Validate(v: Value, h: Host): (r: ValidationResult<Float64>)
      ensures r.Ok? <==> Accepts(coerce, v, h)
      ensures r.Ok? ==> r.value == Apply(Coerced(v, h).value)
      ensures r.Err? ==> r.error == Coerced(v, h).error
    {
      Coerced(v, h).Map(Apply)
    }
  }

  /** A transform added last runs on the output of every earlier one. */
  lemma TransformRunsLast(s: NumberSchema, f: Float64 -> Float64, v: Value, h: Host)
    ensures s.Transform(f).Validate(v, h) == s.Validate(v, h).Map(f)
  {
  }

  /** Without transforms an f64 comes back bit for bit, and 1.0/0.0 stand for true/false. */
  lemma NoTransformsIdentity(coerce: bool, x: Float64, b: bool, h: Host)
    ensures NumberSchema.New(coerce).Validate(Float(x), h) == Ok(x)
    ensures NumberSchema.New(true).Validate(Bool(b), h) == Ok(if b then One else Zero)
  {
  }

  /** Coercion only widens what is accepted, with the same output on inputs accepted anyway. */
  lemma CoercionOnlyWidens(s: NumberSchema, v: Value, h: Host)
    ensures s.(coerce := false).Validate(v, h).Ok? ==>
            s.(coerce := true).Validate(v, h) == s.(coerce := false).Validate(v, h)
  {
  }

  /** Every rejection names `f64` as the type it got, so a rejected i64, bool or map are
      indistinguishable by their error. */
  lemma RejectionHidesInputType(s: NumberSchema, v: Value, w: Value, h: Host)
    requires !v.Str? && !w.Str?
    requires s.Validate(v, h).Err? && s.Validate(w, h).Err?
    ensures s.Validate(v, h).error == s.Validate(w, h).error
  {
  }

  /** The custom message replaces the default for every rejection, including a failed parse. */
  lemma SetMessageCoversParseFailure(code: string, message: string, text: string, h: Host)
    requires h.parseFloat(text).None?
    ensures var r := NumberSchema.New(true).SetMessage(code, message).Validate(Str(text), h);
            r.Err? && r.error.code == code && r.error.message == message &&
            r.error.errorType == Coercion("String", "Number")
  {
  }
}
