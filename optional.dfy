/** The optional wrapper: accepts an absent value or whatever the inner schema accepts. */
module Optionals {
  import opened Values
  import opened Errors
  import opened Schema
  import Strings
  import Numbers
  import Booleans

  /** An inner schema with output `O`, and `downcast_ref::<Option<O>>` on an input, which lets an
      already-typed option through. */
  datatype OptionalSchema<!O> = OptionalSchema(schema: Validator<O>, downcastOutput: Value -> Option<Option<O>>)
  {
    static function New(schema: Validator<O>, downcastOutput: Value -> Option<Option<O>>): (s: OptionalSchema<O>)
      ensures s.schema == schema && s.downcastOutput == downcastOutput
    {
      OptionalSchema(schema, downcastOutput)
    }

    /** Applies `f` to the whole optional result. */
    function Transform<T>(f: Option<O> -> T): (t: TransformedOptionalSchema<O, T>)
      ensures t.schema == this && t.transform == f
    {
      TransformedOptionalSchema(this, f)
    }

    /** Four cases, tried in order: `Option<()>` (None is absent, Some an error that ignores any
        configured message); an `Option<O>`, returned as is; an `Option<Box<dyn Any>>`, whose
        payload goes to the inner schema; anything else, which goes to the inner schema as it is. */
    function Validate(v: Value, h: Host): (r: ValidationResult<Option<O>>)
      ensures v == OptUnit(false) ==> r == Ok(None)
      ensures v == OptUnit(true) ==> r == Err(Errors.New(Type("Option", "Unknown"), None, h.debugErrors))
      ensures !v.OptUnit? && downcastOutput(v).Some? ==> r == Ok(downcastOutput(v).value)
      ensures !v.OptUnit? && downcastOutput(v).None? && v == OptAny(None) ==> r == Ok(None)
      ensures !v.OptUnit? && downcastOutput(v).None? && v.OptAny? && v.optAny.Some? ==>
              r == schema(v.optAny.value, h).Map(o => Some(o))
      ensures !v.OptUnit? && downcastOutput(v).None? && !v.OptAny? ==> r == schema(v, h).Map(o => Some(o))
      ensures r.Ok? && r.value.Some? && !v.OptUnit? && downcastOutput(v).None? ==>
              schema(if v.OptAny? then v.optAny.value else v, h) == Ok(r.value.value)
    {
      if v.OptUnit? then
        if !v.isSome then Ok(None)
        else Err(Errors.New(Type("Option", "Unknown"), None, h.debugErrors))
      else if downcastOutput(v).Some? then
        Ok(downcastOutput(v).value)
      else if v.OptAny? then
        match v.optAny
        case None => Ok(None)
        case Some(boxed) => schema(boxed, h).Map(o => Some(o))
      else
        schema(v, h).Map(o => Some(o))
    }
  }

  /** An optional schema followed by one function of the whole `Option` result. */
  datatype TransformedOptionalSchema<!O, T> = TransformedOptionalSchema(schema: OptionalSchema<O>, transform: Option<O> -> T)
  {
    /** The transform sees `None` as well as `Some`, and never runs on an error. */
    function Validate(v: Value, h: Host): (r: ValidationResult<T>)
      ensures r.Ok? <==> schema.Validate(v, h).Ok?
      ensures r.Ok? ==> r.value == transform(schema.Validate(v, h).value)
      ensures r.Err? ==> r.error == schema.Validate(v, h).error
    {
      schema.Validate(v, h).Map(transform)
    }
  }

  /** `Option<String>`, `Option<f64>` and `Option<bool>` on an input. */
  function DowncastOptStr(v: Value): Option<Option<string>> {
    if v.OptStr? then Some(v.optStr) else None
  }

  function DowncastOptFloat(v: Value): Option<Option<Float64>> {
    if v.OptFloat? then Some(v.optFloat) else None
  }

  function DowncastOptBool(v: Value): Option<Option<bool>> {
    if v.OptBool? then Some(v.optBool) else None
  }

  /** Optional wrappers around the three primitive schemas. */
  function OptionalString(s: Strings.StringSchema): (o: OptionalSchema<string>)
    ensures forall v: Value, h: Host :: !v.OptUnit? && !v.OptStr? && !v.OptAny? ==>
            o.Validate(v, h) == s.Validate(v, h).Map(x => Some(x))
  {
    OptionalSchema.New((v, h) => s.Validate(v, h), DowncastOptStr)
  }

  function OptionalNumber(s: Numbers.NumberSchema): (o: OptionalSchema<Float64>)
    ensures forall v: Value, h: Host :: !v.OptUnit? && !v.OptFloat? && !v.OptAny? ==>
            o.Validate(v, h) == s.Validate(v, h).Map(x => Some(x))
  {
    OptionalSchema.New((v, h) => s.Validate(v, h), DowncastOptFloat)
  }

  function OptionalBoolean(s: Booleans.BooleanSchema): (o: OptionalSchema<bool>)
    ensures forall v: Value, h: Host :: !v.OptUnit? && !v.OptBool? && !v.OptAny? ==>
            o.Validate(v, h) == s.Validate(v, h).Map(x => Some(x))
  {
    OptionalSchema.New((v, h) => s.Validate(v, h), DowncastOptBool)
  }

  /** The wrapper never loses what the inner schema accepts: a bare value the inner schema accepts
      comes back wrapped in `Some`, and an inner error is passed on unchanged. */
  lemma {:induction false} WrapsInnerResult<O>(s: OptionalSchema<O>, v: Value, h: Host)
    requires !v.OptUnit? && !v.OptAny? && s.downcastOutput(v).None?
    ensures s.Validate(v, h).Ok? <==> s.schema(v, h).Ok?
    ensures s.Validate(v, h).Ok? ==> s.Validate(v, h).value == Some(s.schema(v, h).value)
    ensures s.Validate(v, h).Err? ==> s.Validate(v, h).error == s.schema(v, h).error
  {
  }

  /** Absence is accepted whatever the inner schema is, in both of its untyped spellings. */
  lemma AbsentIsAccepted<O>(s: OptionalSchema<O>, h: Host)
    ensures s.Validate(OptUnit(false), h) == Ok(None)
    ensures s.downcastOutput(OptAny(None)).None? ==> s.Validate(OptAny(None), h) == Ok(None)
  {
  }

  /** An already-typed `Option<f64>` bypasses the inner schema: its checks and transforms do not
      run. */
  lemma TypedOptionBypassesInner(s: Numbers.NumberSchema, x: Option<Float64>, h: Host)
    ensures OptionalNumber(s).Validate(OptFloat(x), h) == Ok(x)
  {
  }

  /** A boxed payload is validated like a bare one. */
  lemma BoxedPayloadMatchesBare(s: Strings.StringSchema, v: Value, h: Host)
    requires !v.OptUnit? && !v.OptStr? && !v.OptAny?
    ensures OptionalString(s).Validate(OptAny(Some(v)), h) == OptionalString(s).Validate(v, h)
  {
  }

  /** `Option<()>::Some(())` fails with a default `Type` error even after a custom message was
      set on the inner schema. */
  lemma SomeUnitIgnoresInnerConfig(s: Strings.StringSchema, code: string, message: string, h: Host)
    ensures var r := OptionalString(s.SetMessage(code, message)).Validate(OptUnit(true), h);
            r.Err? && r.error.code == "TYPE_ERROR" && r.error.message == "Type error: expected Option, got Unknown"
  {
  }

  /** Transforming an optional string into its optional length, with the inner rejection intact. */
  lemma TransformSeesWholeOption(s: Strings.StringSchema, h: Host)
    ensures var t := OptionalString(s).Transform((o: Option<string>) => if o.Some? then Some(|o.value|) else None);
            t.Validate(OptStr(Some("hello")), h) == Ok(Some(5)) &&
            t.Validate(OptStr(None), h) == Ok(None) &&
            (s.Validate(Unit, h).Err? ==> t.Validate(Unit, h) == Err(s.Validate(Unit, h).error))
  {
  }
}
