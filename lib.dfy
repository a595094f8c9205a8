/** The entry point: a builder that threads the `coerce` flag into the schemas it creates. */
module Builder {
  import opened Values
  import opened Decimal
  import Sch = Schema
  import Errors
  import Strings
  import Numbers
  import Booleans
  import Literals
  import Optionals
  import Objects

  datatype SchemaBuilder = SchemaBuilder(coerce: bool)
  {
    static function Default(): (b: SchemaBuilder)
      ensures !b.coerce
    {
      SchemaBuilder(false)
    }

    static function New(): (b: SchemaBuilder)
      ensures b == Default() && !b.coerce
    {
      Default()
    }

    function String(): (s: Strings.StringSchema)
      ensures s.coerce == coerce && s.errorConfig.None?
    {
      Strings.StringSchema.New(coerce)
    }

    function Number(): (s: Numbers.NumberSchema)
      ensures s.coerce == coerce && s.errorConfig.None? && s.transforms == []
    {
      Numbers.NumberSchema.New(coerce)
    }

    function Boolean(): (s: Booleans.BooleanSchema)
      ensures s.coerce == coerce && s.errorConfig.None? && s.transforms == []
    {
      Booleans.BooleanSchema.New(coerce)
    }

    /** The object schema is created without coercion, whatever this builder's flag. */
    function Object(): (s: Objects.ObjectSchema)
      ensures !s.coerce && s.errorConfig.None? && s.fields == map[]
    {
      Objects.ObjectSchema.New(false)
    }

    /** A literal schema takes no flag at all. */
    function Literal<T>(value: T, ty: Literals.LiteralType<T>): (s: Literals.LiteralSchema<T>)
      ensures s.value == value && s.ty == ty && s.errorConfig.None?
    {
      Literals.LiteralSchema.New(value, ty)
    }

    /** A coercing builder, whatever this builder's flag. */
    function Coerce(): (c: CoerceBuilder)
      ensures c.builder.coerce
    {
      CoerceBuilder(SchemaBuilder(true))
    }
  }

  /** A builder whose schemas coerce; every method delegates to the inner builder. */
  datatype CoerceBuilder = CoerceBuilder(builder: SchemaBuilder)
  {
    function String(): (s: Strings.StringSchema)
      ensures s == builder.String()
    {
      builder.String()
    }

    function Number(): (s: Numbers.NumberSchema)
      ensures s == builder.Number()
    {
      builder.Number()
    }

    function Boolean(): (s: Booleans.BooleanSchema)
      ensures s == builder.Boolean()
    {
      builder.Boolean()
    }

    function Object(): (s: Objects.ObjectSchema)
      ensures s == builder.Object()
    {
      builder.Object()
    }
  }

  /** `schema()`: the non-coercing builder. */
  function Schema(): (b: SchemaBuilder)
    ensures !b.coerce && b == SchemaBuilder.New()
  {
    SchemaBuilder.New()
  }

  /** `s.coerce().string()` turns 42 into "42", where `s.string()` rejects it; a coercing number
      schema takes "42" whenever the float parser does. */
  lemma CoerceBuilderExample(h: Sch.Host, x: Float64)
    requires h.parseFloat("42") == Some(x)
    ensures Schema().Coerce().String().Validate(Int(42), h) == Errors.Ok("42")
    ensures Schema().String().Validate(Int(42), h).Err?
    ensures Schema().Coerce().Number().Validate(Str("42"), h) == Errors.Ok(x)
  {
    var r := Schema().Coerce().String().Validate(Int(42), h);
    CanonicalIntIsRendering(r.value, 42);
    assert IntToString(42) == "42" by {
      assert NatToString(42) == NatToString(4) + [DigitChar(2)];
    }
  }

  /** Every schema from a coercing builder coerces, except the object schema. */
  lemma CoerceReachesAllButObject(b: SchemaBuilder)
    ensures b.Coerce().String().coerce && b.Coerce().Number().coerce && b.Coerce().Boolean().coerce
    ensures !b.Coerce().Object().coerce
  {
  }

  /** The three-field user schema that the object documentation builds from non-coercing field
      schemas. */
  function UserSchema(coerce: bool): (s: Objects.ObjectSchema)
    ensures s.coerce == coerce && s.fields.Keys == {"name", "age", "is_active"}
  {
    var s := Schema();
    Objects.ObjectSchema.New(coerce)
      .Field("name", (v, h) => s.String().Validate(v, h), (x: string) => Str(x))
      .Field("age", (v, h) => s.Number().Validate(v, h), (x: Float64) => Float(x))
      .Field("is_active", (v, h) => s.Boolean().Validate(v, h), (b: bool) => Bool(b))
  }

  /** The input of the documented coercion example: an i64 name, a String age and an i64 flag. */
  function CoercionInput(): (m: map<string, Value>)
    ensures m.Keys == {"name", "age", "is_active"}
  {
    map["name" := Int(42), "age" := Str("30"), "is_active" := Int(1)]
  }

  /** Without coercion every field of the example input is rejected by its field schema. */
  lemma UncoercedFieldsFail(h: Sch.Host)
    ensures forall k | k in UserSchema(false).fields :: UserSchema(false).FieldOutcome(CoercionInput(), k, h).Err?
  {
    var s, m := UserSchema(false), CoercionInput();
    assert s.FieldOutcome(m, "name", h).Err?;
    assert s.FieldOutcome(m, "age", h).Err?;
    assert s.FieldOutcome(m, "is_active", h).Err?;
  }

  /** With coercion every field of the example input is converted into what its schema takes. */
  lemma CoercedFieldsPass(h: Sch.Host, x: Float64)
    requires h.parseFloat("30") == Some(x)
    ensures forall k | k in UserSchema(true).fields :: UserSchema(true).FieldOutcome(CoercionInput(), k, h).Ok?
  {
    var s, m := UserSchema(true), CoercionInput();
    assert s.FieldOutcome(m, "name", h).Ok?;
    assert s.FieldOutcome(m, "age", h).Ok?;
    assert s.FieldOutcome(m, "is_active", h).Ok?;
  }

  /** The documented coercion example, `s.coerce().object()` over an i64 name, a String age and an
      i64 flag, as the model reads `object()` (without coercion): every field is rejected. An object
      schema created with coercion on accepts it. */
  lemma ObjectCoercionExample(h: Sch.Host, x: Float64)
    requires h.parseFloat("30") == Some(x)
    ensures Schema().Coerce().Object() == Objects.ObjectSchema.New(false)
    ensures UserSchema(false).Validate(Map(CoercionInput()), h).Err?
    ensures UserSchema(false).Failures(CoercionInput(), h).Keys == {"name", "age", "is_active"}
    ensures UserSchema(true).Validate(Map(CoercionInput()), h).Ok?
  {
    UncoercedFieldsFail(h);
    CoercedFieldsPass(h, x);
    Objects.AllFieldsFailReported(UserSchema(false), CoercionInput(), h);
    Objects.AcceptedIffAllFieldsPass(UserSchema(true), CoercionInput(), h);
  }

  /** An object field declared with an optional number schema rejects `Some(30.0)` and `None`
      alike: the stored option reaches the field's schema as unit. */
  lemma OptionalObjectFieldRejected(h: Sch.Host, o: Option<Float64>)
    ensures var s := Schema();
            var user := s.Object()
              .Field("name", (v, h) => s.String().Validate(v, h), (x: string) => Str(x))
              .Field("age", (v, h) => Optionals.OptionalNumber(s.Number()).Validate(v, h),
                     (x: Option<Float64>) => OptFloat(x))
              .Field("is_active", (v, h) => s.Boolean().Validate(v, h), (b: bool) => Bool(b));
            var input := map["name" := Str("John"), "age" := OptFloat(o), "is_active" := Bool(true)];
            user.Validate(Map(input), h).Err? && "age" in user.Failures(input, h)
  {
    var s := Schema();
    var user := s.Object()
      .Field("name", (v, h) => s.String().Validate(v, h), (x: string) => Str(x))
      .Field("age", (v, h) => Optionals.OptionalNumber(s.Number()).Validate(v, h),
             (x: Option<Float64>) => OptFloat(x))
      .Field("is_active", (v, h) => s.Boolean().Validate(v, h), (b: bool) => Bool(b));
    var input := map["name" := Str("John"), "age" := OptFloat(o), "is_active" := Bool(true)];
    assert user.FieldOutcome(input, "age", h).Err?;
  }
}
