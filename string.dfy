/** The string schema and its type-changing transform chain. */
module Strings {
  import opened Values
  import opened Decimal
  import opened Errors
  import opened Schema

  /** The label the string schema reports for an input's type. */
  function TypeName(v: Value): (name: string)
    ensures name in {"String", "Integer", "Float", "Boolean", "Unknown"}
    ensures name == "String" <==> v.Str?
    ensures name == "Integer" <==> v.Int?
    ensures name == "Float" <==> v.Float?
    ensures name == "Boolean" <==> v.Bool?
    ensures name == "Unknown" <==> !(v.Str? || v.Int? || v.Float? || v.Bool?)
  {
    if v.Str? then "String"
    else if v.Int? then "Integer"
    else if v.Float? then "Float"
    else if v.Bool? then "Boolean"
    else "Unknown"
  }

  /** Inputs the string schema accepts: a String always, and with coercion an i64, f64 or bool. */
  predicate Accepts(coerce: bool, v: Value) {
    v.Str? || (coerce && (v.Int? || v.Float? || v.Bool?))
  }

  datatype StringSchema = StringSchema(coerce: bool, errorConfig: Option<ErrorConfig>)
  {
    static function New(coerce: bool): (s: StringSchema)
      ensures s.coerce == coerce && s.errorConfig == None
    {
      StringSchema(coerce, None)
    }

    function SetMessage(code: string, message: string): (s: StringSchema)
      ensures s.coerce == coerce
      ensures s.errorConfig == Some(ErrorConfig(code, message))
    {
      this.(errorConfig := Some(ErrorConfig(code, message)))
    }

    /** Starts a transform chain whose output is `f` of the validated string. */
    function Transform<T>(f: string -> T): (t: TransformedSchema<T>)
      ensures t.schema == this
      ensures forall v, h :: t.Validate(v, h) == Validate(v, h).Map(f)
    {
      TransformedSchema(this, f)
    }

    /** A String comes back unchanged; with coercion an i64 becomes its decimal text, a bool
        "true" or "false" and an f64 its `to_string`; everything else is a Type error (no
        coercion) or a Coercion error (coercion), built with this schema's error config. */
    function Validate(v: Value, h: Host): (r: ValidationResult<string>)
      ensures r.Ok? <==> Accepts(coerce, v)
      ensures v.Str? ==> r == Ok(v.s)
      ensures !v.Str? && coerce && v.Int? ==>
              r.Ok? && CanonicalInt(r.value) && ParseInt(r.value) == Some(v.i as int)
      ensures !v.Str? && coerce && v.Bool? ==> r.Ok? && ParseBool(r.value) == Some(v.b)
      ensures !v.Str? && coerce && v.Float? ==> r == Ok(h.showFloat(v.f))
      ensures r.Err? && !coerce ==> r.error.errorType == Type("String", TypeName(v))
      ensures r.Err? && coerce ==> r.error.errorType == Coercion(TypeName(v), "String")
      ensures r.Err? ==> TypeName(v) != "String"
      ensures r.Err? ==> r.error == Errors.New(r.error.errorType, errorConfig, h.debugErrors)
    {
      if v.Str? then
        Ok(v.s)
      else if coerce then
        if v.Int? then
          IntToStringRoundTrip(v.i as int);
          Ok(IntToString(v.i as int))
        else if v.Float? then
          Ok(h.showFloat(v.f))
        else if v.Bool? then
          BoolToStringRoundTrip(v.b);
          Ok(BoolToString(v.b))
        else
          Err(Errors.New(Coercion(TypeName(v), "String"), errorConfig, h.debugErrors))
      else
        Err(Errors.New(Type("String", TypeName(v)), errorConfig, h.debugErrors))
    }
  }

  /** A string schema followed by a chain of transforms, possibly changing the output type at each
      step. The chain is one composed function from the validated string to the current output
      type `T`, so the downcast to `T` that the erased representation performs cannot fail. */
  datatype TransformedSchema<T> = TransformedSchema(schema: StringSchema, transform: string -> T)
  {
    /** Extends the chain: `g` runs after every earlier transform. */
    function Transform<U>(g: T -> U): (t: TransformedSchema<U>)
      ensures t.schema == schema
      ensures forall s :: t.transform(s) == g(transform(s))
    {
      TransformedSchema(schema, s => g(transform(s)))
    }

    /** Sets the error config of the underlying string schema; the chain is kept. */
    function SetMessage(code: string, message: string): (t: TransformedSchema<T>)
      ensures t.schema == schema.SetMessage(code, message)
      ensures forall s :: t.transform(s) == transform(s)
    {
      TransformedSchema(schema.SetMessage(code, message), transform)
    }

    /** The string step first; the chain runs only on its success and an error is returned
        untouched. */
    function Validate(v: Value, h: Host): (r: ValidationResult<T>)
      ensures r.Ok? <==> schema.Validate(v, h).Ok?
      ensures r.Ok? ==> r.value == transform(schema.Validate(v, h).value)
      ensures r.Err? ==> r.error == schema.Validate(v, h).error
    {
      schema.Validate(v, h).Map(transform)
    }
  }

  /** `.transform(f).transform(g)` yields `g(f(s))` of the validated string `s`. */
  lemma TransformChainComposes<T, U>(s: StringSchema, f: string -> T, g: T -> U, v: Value, h: Host)
    ensures s.Transform(f).Transform(g).Validate(v, h) == s.Validate(v, h).Map(x => g(f(x)))
  {
  }

  /** After `set_message`, every failure of the chain carries the configured code and message. */
  lemma SetMessageCoversChain<T>(t: TransformedSchema<T>, code: string, message: string, v: Value, h: Host)
    ensures t.SetMessage(code, message).Validate(v, h).Err? <==> !Accepts(t.schema.coerce, v)
    ensures var r := t.SetMessage(code, message).Validate(v, h);
            r.Err? ==> r.error.code == code && r.error.message == message
  {
  }

  /** Coercion only widens what is accepted: an input accepted without coercion is accepted with
      it, with the same output. */
  lemma CoercionOnlyWidens(config: Option<ErrorConfig>, v: Value, h: Host)
    ensures StringSchema(false, config).Validate(v, h).Ok? ==>
            StringSchema(true, config).Validate(v, h) == StringSchema(false, config).Validate(v, h)
  {
  }

  /** Validating an output again, without coercion, gives it back unchanged. */
  lemma OutputRevalidates(s: StringSchema, v: Value, h: Host)
    requires s.Validate(v, h).Ok?
    ensures StringSchema.New(false).Validate(Str(s.Validate(v, h).value), h) == s.Validate(v, h)
  {
  }
}
