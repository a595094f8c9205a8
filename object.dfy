/** The object schema: validates a string-keyed map of boxed values field by field, collecting
    every field's error instead of stopping at the first. */
module Objects {
  import opened Values
  import opened Decimal
  import opened Errors
  import opened Schema
  import Strings
  import Numbers
  import Booleans

  /** The label the object schema reports for an input's type. */
  function TypeName(v: Value): (name: string)
    ensures name == "Object" <==> v.Map?
    ensures name == "Unknown" <==> !v.Map?
  {
    if v.Map? then "Object" else "Unknown"
  }

  /** A field schema with its output boxed as a `dyn Any`, so that fields of different output
      types can share one map. */
  datatype AnySchema<!O> = AnySchema(schema: Validator<O>, boxOutput: O -> Value)
  {
    function Validate(v: Value, h: Host): (r: ValidationResult<Value>)
      ensures r.Ok? <==> schema(v, h).Ok?
      ensures r.Ok? ==> r.value == boxOutput(schema(v, h).value)
      ensures r.Err? ==> r.error == schema(v, h).error
    {
      schema(v, h).Map(boxOutput)
    }
  }

  /** The coercion target a field gets from its name alone. */
  function TargetType(name: string): (target: string)
    ensures target == "String" <==> name == "name"
    ensures target == "Number" <==> name == "age"
    ensures target == "Boolean" <==> name == "is_active"
    ensures target == "Unknown" <==> name !in {"name", "age", "is_active"}
  {
    if name == "name" then "String"
    else if name == "age" then "Number"
    else if name == "is_active" then "Boolean"
    else "Unknown"
  }

  /** Without coercion a field value is copied if it is a String, i64, f64 or bool, and replaced
      by unit otherwise. */
  function WrapValue(v: Value): (w: Value)
    ensures w == v || w == Unit
    ensures w == v <==> v.Str? || v.Int? || v.Float? || v.Bool? || v.Unit?
  {
    if v.Str? || v.Int? || v.Float? || v.Bool? then v else Unit
  }

  function AsciiLower(c: char): char {
    if 'A' <= c <= 'Z' then (c as int + 32) as char else c
  }

  /** `s.to_lowercase() == t` for an all-lower-case ASCII `t` such as "false". No character outside
      ASCII lower-cases to any of the letters f, a, l, s or e, so comparing ASCII-folded characters
      decides that comparison exactly. */
  predicate LowerEquals(s: string, t: string) {
    |s| == |t| && forall i | 0 <= i < |s| :: AsciiLower(s[i]) == t[i]
  }

  /** The string rule of the Boolean target: non-empty, not "false" in any letter case, not "0". */
  predicate StringTruth(s: string) {
    s != "" && !LowerEquals(s, "false") && s != "0"
  }

  /** Converts a field value towards the target type; anything the table does not cover becomes
      unit, which the field's own schema then rejects. */
  function CoerceToType(v: Value, target: string, h: Host): (w: Value)
    ensures w.Unit? || (target == "String" && w.Str?) || (target == "Number" && w.Float?) ||
            (target == "Boolean" && w.Bool?)
    ensures target == "String" && v.Str? ==> w == v
    ensures target == "String" && v.Int? ==> w.Str? && CanonicalInt(w.s) && ParseInt(w.s) == Some(v.i as int)
    ensures target == "String" && v.Float? ==> w == Str(h.showFloat(v.f))
    ensures target == "String" && v.Bool? ==> w.Str? && ParseBool(w.s) == Some(v.b)
    ensures target == "Number" && v.Str? ==> w == (if h.parseFloat(v.s).Some? then Float(h.parseFloat(v.s).value) else Unit)
    ensures target == "Number" && v.Int? ==> w == Float(h.floatOfInt(v.i))
    ensures target == "Number" && v.Float? ==> w == v
    ensures target == "Number" && v.Bool? ==> w == Float(if v.b then One else Zero)
    ensures target == "Boolean" && v.Str? ==> w == Bool(StringTruth(v.s))
    ensures target == "Boolean" && v.Int? ==> w == Bool(v.i != 0)
    ensures target == "Boolean" && v.Float? ==> w == Bool(!IsZero(v.f))
    ensures target == "Boolean" && v.Bool? ==> w == v
    ensures !(v.Str? || v.Int? || v.Float? || v.Bool?) ==> w == Unit
    ensures target !in {"String", "Number", "Boolean"} ==> w == Unit
  {
    if target == "String" then
      if v.Int? then
        IntToStringRoundTrip(v.i as int);
        Str(IntToString(v.i as int))
      else if v.Float? then Str(h.showFloat(v.f))
      else if v.Bool? then
        BoolToStringRoundTrip(v.b);
        Str(BoolToString(v.b))
      else if v.Str? then v
      else Unit
    else if target == "Number" then
      if v.Str? then
        match h.parseFloat(v.s)
        case Some(x) => Float(x)
        case None => Unit
      else if v.Int? then Float(h.floatOfInt(v.i))
      else if v.Float? then v
      else if v.Bool? then Float(if v.b then One else Zero)
      else Unit
    else if target == "Boolean" then
      if v.Str? then Bool(StringTruth(v.s))
      else if v.Int? then Bool(v.i != 0)
      else if v.Float? then Bool(!IsZero(v.f))
      else if v.Bool? then v
      else Unit
    else
      Unit
  }

  /** The outputs of the fields whose outcome is a success. */
  function SuccessesOf(outcomes: map<string, ValidationResult<Value>>): map<string, Value> {
    map k | k in outcomes && outcomes[k].Ok? :: outcomes[k].value
  }

  /** The errors of the fields whose outcome is a failure. */
  function FailuresOf(outcomes: map<string, ValidationResult<Value>>): map<string, ValidationError> {
    map k | k in outcomes && outcomes[k].Err? :: outcomes[k].error
  }

  /** Recording one more outcome adds its output, if it is a success, and nothing else. */
  lemma SuccessesOfStep(outcomes: map<string, ValidationResult<Value>>, name: string, r: ValidationResult<Value>)
    requires name !in outcomes
    ensures SuccessesOf(outcomes[name := r]) ==
            (if r.Ok? then SuccessesOf(outcomes)[name := r.value] else SuccessesOf(outcomes))
  {
  }

  /** Recording one more outcome adds its error, if it is a failure, and nothing else. */
  lemma FailuresOfStep(outcomes: map<string, ValidationResult<Value>>, name: string, r: ValidationResult<Value>)
    requires name !in outcomes
    ensures FailuresOf(outcomes[name := r]) ==
            (if r.Err? then FailuresOf(outcomes)[name := r.error] else FailuresOf(outcomes))
  {
  }

  datatype ObjectSchema = ObjectSchema(
    coerce: bool,
    errorConfig: Option<ErrorConfig>,
    fields: map<string, Validator<Value>>)
  {
    static function New(coerce: bool): (s: ObjectSchema)
      ensures s.coerce == coerce && s.errorConfig == None && s.fields == map[]
    {
      ObjectSchema(coerce, None, map[])
    }

    /** Declares (or re-declares) field `name`; every other declared field is kept. */
    function Field<O>(name: string, schema: Validator<O>, boxOutput: O -> Value): (s: ObjectSchema)
      ensures s.coerce == coerce && s.errorConfig == errorConfig
      ensures s.fields.Keys == fields.Keys + {name}
      ensures forall k :: k in fields && k != name ==> s.fields[k] == fields[k]
      ensures forall v: Value, h: Host :: s.fields[name](v, h) == AnySchema(schema, boxOutput).Validate(v, h)
    {
      var boxed := AnySchema(schema, boxOutput);
      this.(fields := fields[name := (v, h) => boxed.Validate(v, h)])
    }

    function SetMessage(code: string, message: string): (s: ObjectSchema)
      ensures s.coerce == coerce && s.fields == fields
      ensures s.errorConfig == Some(ErrorConfig(code, message))
    {
      this.(errorConfig := Some(ErrorConfig(code, message)))
    }

    function Transform<T>(f: map<string, Value> -> T): (t: TransformedObjectSchema<T>)
      ensures t.schema == this && t.transform == f
    {
      TransformedObjectSchema(this, f)
    }

    /** What a declared field's schema is given for the raw value `raw`. */
    function FieldInput(name: string, raw: Value, h: Host): (w: Value)
      ensures coerce ==> w == CoerceToType(raw, TargetType(name), h)
      ensures !coerce ==> w == WrapValue(raw)
    {
      if coerce then CoerceToType(raw, TargetType(name), h) else WrapValue(raw)
    }

    /** The result recorded for one declared field: a `Missing` error (with the object's config)
        when the input lacks it, otherwise the field schema's verdict on its input. */
    function FieldOutcome(m: map<string, Value>, name: string, h: Host): (r: ValidationResult<Value>)
      requires name in fields
      ensures name !in m ==> r == Err(Errors.New(Missing(name), errorConfig, h.debugErrors))
      ensures name in m ==> r == fields[name](FieldInput(name, m[name], h), h)
    {
      if name in m then fields[name](FieldInput(name, m[name], h), h)
      else Err(Errors.New(Missing(name), errorConfig, h.debugErrors))
    }

    /** The outcome of each field in `names`. */
    function OutcomesOver(m: map<string, Value>, names: set<string>, h: Host): (o: map<string, ValidationResult<Value>>)
      requires names <= fields.Keys
      ensures o.Keys == names
    {
      map k | k in names :: FieldOutcome(m, k, h)
    }

    /** Visiting one more field adds its outcome and nothing else. */
    lemma OutcomesOverStep(m: map<string, Value>, done: set<string>, name: string, h: Host)
      requires done <= fields.Keys && name in fields && name !in done
      ensures OutcomesOver(m, done + {name}, h) == OutcomesOver(m, done, h)[name := FieldOutcome(m, name, h)]
    {
    }

    /** The outcome of every declared field. */
    function Outcomes(m: map<string, Value>, h: Host): (o: map<string, ValidationResult<Value>>)
      ensures o.Keys == fields.Keys
      ensures forall k | k in o :: o[k] == FieldOutcome(m, k, h)
    {
      OutcomesOver(m, fields.Keys, h)
    }

    function Successes(m: map<string, Value>, h: Host): map<string, Value> {
      SuccessesOf(Outcomes(m, h))
    }

    function Failures(m: map<string, Value>, h: Host): map<string, ValidationError> {
      FailuresOf(Outcomes(m, h))
    }

    /** The field loop: visits every declared field once, in no particular order, recording each
        outcome in one of two maps and never stopping early. */
    method CollectFields(m: map<string, Value>, h: Host) returns (validated: map<string, Value>, errors: map<string, ValidationError>)
      ensures validated == Successes(m, h)
      ensures errors == Failures(m, h)
    {
      validated := map[];
      errors := map[];
      var remaining := fields.Keys;
      while remaining != {}
        invariant remaining <= fields.Keys
        invariant validated == SuccessesOf(OutcomesOver(m, fields.Keys - remaining, h))
        invariant errors == FailuresOf(OutcomesOver(m, fields.Keys - remaining, h))
        decreases remaining
      {
        var name :| name in remaining;
        ghost var done := fields.Keys - remaining;
        OutcomesOverStep(m, done, name, h);
        SuccessesOfStep(OutcomesOver(m, done, h), name, FieldOutcome(m, name, h));
        FailuresOfStep(OutcomesOver(m, done, h), name, FieldOutcome(m, name, h));
        if name in m {
          var wrapped := if coerce then CoerceToType(m[name], TargetType(name), h) else WrapValue(m[name]);
          assert wrapped == FieldInput(name, m[name], h);
          var result := fields[name](wrapped, h);
          if result.Ok? {
            validated := validated[name := result.value];
          } else {
            errors := errors[name := result.error];
          }
        } else {
          errors := errors[name := Errors.New(Missing(name), errorConfig, h.debugErrors)];
        }
        remaining := remaining - {name};
        assert fields.Keys - remaining == done + {name};
      }
    }

    /** A non-map input is a `Type` error; otherwise the result is the map of every field's output
        if no field failed, and one `Object` error holding every field's error if any did.
        `Successes` and `Failures` are the two maps the loop in `CollectFields` is proved to build. */
    function Validate(v: Value, h: Host): (r: ValidationResult<map<string, Value>>)
      ensures !v.Map? ==> r == Err(Errors.New(Type("Object", TypeName(v)), errorConfig, h.debugErrors))
      ensures v.Map? ==> (r.Ok? <==> Failures(v.entries, h) == map[])
      ensures v.Map? && r.Ok? ==> r.value == Successes(v.entries, h)
      ensures v.Map? && r.Err? ==> r.error == Errors.New(Object(Failures(v.entries, h)), errorConfig, h.debugErrors)
    {
      if !v.Map? then
        Err(Errors.New(Type("Object", TypeName(v)), errorConfig, h.debugErrors))
      else
        var errors := Failures(v.entries, h);
        if errors != map[] then Err(Errors.New(Object(errors), errorConfig, h.debugErrors))
        else Ok(Successes(v.entries, h))
    }
  }

  /** An object schema followed by a function of its success map. */
  datatype TransformedObjectSchema<T> = TransformedObjectSchema(schema: ObjectSchema, transform: map<string, Value> -> T)
  {
    function Validate(v: Value, h: Host): (r: ValidationResult<T>)
      ensures r.Ok? <==> schema.Validate(v, h).Ok?
      ensures r.Ok? ==> r.value == transform(schema.Validate(v, h).value)
      ensures r.Err? ==> r.error == schema.Validate(v, h).error
    {
      schema.Validate(v, h).Map(transform)
    }
  }

  /** Every declared field lands in exactly one of the two maps, and nothing else does. */
  lemma FieldsPartition(s: ObjectSchema, m: map<string, Value>, h: Host)
    ensures s.Successes(m, h).Keys !! s.Failures(m, h).Keys
    ensures s.Successes(m, h).Keys + s.Failures(m, h).Keys == s.fields.Keys
  {
  }

  /** The object is accepted exactly when every declared field's outcome is a success. */
  lemma AcceptedIffAllFieldsPass(s: ObjectSchema, m: map<string, Value>, h: Host)
    ensures s.Validate(Map(m), h).Ok? <==> forall k | k in s.fields :: s.FieldOutcome(m, k, h).Ok?
  {
    if !s.Validate(Map(m), h).Ok? {
      var k :| k in s.Failures(m, h);
      assert s.FieldOutcome(m, k, h).Err?;
    } else {
      forall k | k in s.fields ensures s.FieldOutcome(m, k, h).Ok? {
        assert k !in s.Failures(m, h);
      }
    }
  }

  /** When every declared field fails, the `Object` error lists every declared field. */
  lemma AllFieldsFailReported(s: ObjectSchema, m: map<string, Value>, h: Host)
    requires s.fields != map[]
    requires forall k | k in s.fields :: s.FieldOutcome(m, k, h).Err?
    ensures s.Validate(Map(m), h).Err?
    ensures s.Failures(m, h).Keys == s.fields.Keys
  {
    FieldsPartition(s, m, h);
    var k :| k in s.fields;
    assert k in s.Failures(m, h);
  }

  /** A declared field the input lacks is reported as `Missing`, with the object's own config. */
  lemma MissingFieldRecorded(s: ObjectSchema, m: map<string, Value>, name: string, h: Host)
    requires name in s.fields && name !in m
    ensures s.Validate(Map(m), h).Err?
    ensures s.Failures(m, h)[name] == Errors.New(Missing(name), s.errorConfig, h.debugErrors)
  {
    assert name in s.Failures(m, h);
  }

  /** A successful result has exactly the declared fields as keys. */
  lemma {:induction false} SuccessCoversDeclaredFields(s: ObjectSchema, m: map<string, Value>, h: Host)
    requires s.Validate(Map(m), h).Ok?
    ensures s.Validate(Map(m), h).value.Keys == s.fields.Keys
    ensures s.fields.Keys <= m.Keys
  {
    FieldsPartition(s, m, h);
    assert forall k | k in s.fields && k !in m :: k in s.Failures(m, h);
  }

  /** Input keys that are not declared fields have no effect on the result. */
  lemma {:induction false} UndeclaredKeysIgnored(s: ObjectSchema, m: map<string, Value>, extra: map<string, Value>, h: Host)
    requires extra.Keys !! s.fields.Keys
    ensures s.Validate(Map(m + extra), h) == s.Validate(Map(m - extra.Keys), h)
  {
    var a := m + extra;
    var b := m - extra.Keys;
    forall k | k in s.fields
      ensures s.FieldOutcome(a, k, h) == s.FieldOutcome(b, k, h)
    {
      assert k !in extra;
      assert k in a <==> k in b;
    }
    assert s.Outcomes(a, h) == s.Outcomes(b, h);
  }

  /** With coercion on, a field whose name is not one of the three known names is given unit,
      whatever its value was. */
  lemma CoercedUnknownFieldIsUnit(s: ObjectSchema, m: map<string, Value>, name: string, h: Host)
    requires s.coerce && name in s.fields && name in m && name !in {"name", "age", "is_active"}
    ensures s.FieldOutcome(m, name, h) == s.fields[name](Unit, h)
  {
  }

  /** The Number target converts exactly what a coercing number schema converts, to the same
      value, and gives unit where that schema fails. */
  lemma NumberTargetMatchesNumberSchema(v: Value, h: Host)
    ensures var c := Numbers.NumberSchema.New(true).Coerced(v, h);
            CoerceToType(v, "Number", h) == (if c.Ok? then Float(c.value) else Unit)
  {
  }

  /** The String target converts exactly what a coercing string schema converts. */
  lemma StringTargetMatchesStringSchema(v: Value, h: Host)
    ensures var c := Strings.StringSchema.New(true).Validate(v, h);
            CoerceToType(v, "String", h) == (if c.Ok? then Str(c.value) else Unit)
  {
  }

  /** The Boolean target agrees with a coercing boolean schema on numbers and bools but not on
      strings: "false" (in any case) and "0" are false here and true there. */
  lemma BooleanTargetDiffersOnStrings(h: Host)
    ensures CoerceToType(Str("false"), "Boolean", h) == Bool(false)
    ensures CoerceToType(Str("FALSE"), "Boolean", h) == Bool(false)
    ensures CoerceToType(Str("0"), "Boolean", h) == Bool(false)
    ensures Booleans.BooleanSchema.New(true).Validate(Str("false"), h) == Ok(true)
    ensures Booleans.BooleanSchema.New(true).Validate(Str("0"), h) == Ok(true)
    ensures CoerceToType(VecBool([true]), "Boolean", h) == Unit
  {
    assert !LowerEquals("0", "false");
  }

  /** On an i64, f64 or bool the Boolean target and a coercing boolean schema agree. */
  lemma BooleanTargetMatchesOnScalars(v: Value, h: Host)
    requires v.Int? || v.Float? || v.Bool?
    ensures Booleans.BooleanSchema.New(true).Validate(v, h) == Ok(CoerceToType(v, "Boolean", h).b)
  {
  }

  /** An optional number field never sees the option stored in the map: without coercion any
      `Option<f64>` is replaced by unit before the field schema runs. */
  lemma OptionalFieldValueIsDiscarded(s: ObjectSchema, inner: Validator<Option<Float64>>, x: Option<Float64>, h: Host)
    requires !s.coerce
    ensures var t := s.Field("age", inner, (o: Option<Float64>) => OptFloat(o));
            t.FieldOutcome(map["age" := OptFloat(x)], "age", h) == t.fields["age"](Unit, h)
  {
  }
}
