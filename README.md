# schema_validator in Dafny

This project is a Dafny model of the validation core of `schema_validator`, a Rust crate. The crate builds validators ("schemas") with a fluent builder. Each schema checks a dynamically typed value (`&dyn Any`) and returns a typed result or a structured `ValidationError`. What the model covers:

- **Values** (`values.dfy`). The inputs are a closed datatype `Value`, with one variant per concrete Rust type the validators downcast to: `String`, `i64`, `f64`, `bool`, `()`, `usize`, the options and vectors they check, `Option<Box<dyn Any>>`, `Vec<Box<dyn Any>>`, `HashMap<String, Box<dyn Any>>`, and a catch-all for every other type. An `f64` is kept as its 64-bit pattern.
- **Errors** (`error.dfy`). This covers the ten error kinds, the optional `(code, message)` override, and `ValidationError::new` with its default codes and messages.
- **Primitive schemas** (`string.dfy`, `number.dfy`, `boolean.dfy`):
  - Each has its own coercion table, error kinds and type labels.
  - The string schema has a type-changing transform chain.
  - The number and boolean schemas have lists of same-type transforms. These are applied by a loop (`ApplyTransforms`), which is proved equal to a left fold (`Schema.ApplyAll`).
- **The literal schema** (`literal.dfy`). It is generic over the value type's downcast, equality and `{:?}` rendering. The model has instances for `String`, `i64`, `bool` and `f64`; the `f64` instance uses IEEE-754 equality.
- **The optional wrapper** (`optional.dfy`). It has four input cases, tried in order.
- **The object schema** (`object.dfy`):
  - Field declaration, and the per-field coercion by field name (`coerce_to_type`) or copying (`wrap_value`).
  - The loop that visits every declared field and collects every error. The loop (`CollectFields`) is proved to compute the specification maps `Successes` and `Failures`.
- **Cloning of boxed values** (`clone.dfy`). The loop that clones a map is proved against the recursive `CloneBoxed`.
- **The pattern table** (`patterns.dfy`). This covers each pattern's regular-expression source and description, and the reverse lookup `from_regex`.
- **The builder** (`lib.dfy`). This covers `schema()`, `SchemaBuilder` and `CoerceBuilder`.

Schemas are immutable datatypes. Rust's builder methods consume `self` and return an updated schema, so each becomes a function that returns the updated value. An inner schema held as a trait object or a generic parameter is represented by its validate function (`Schema.Validator<O>`).

The following standard-library behaviour is taken as parameters in the record `Schema.Host`, because the model does not define it:

- `str::parse::<f64>`;
- `i64 as f64`;
- `f64::to_string`;
- `{:?}` of the per-field error map.

Likewise, `{:?}` of a `String` and of an `f64` are parameters of the literal instances that need them. Decimal rendering of integers and `bool::to_string` are defined, with parsers that invert them (`decimal.dfy`).

## Model

| member | source | states |
|---|---|---|
| Errors.New | src/error.rs:59-120 | The kind is always recorded as given. An override supplies code and message verbatim; without one, the kind's default code and message apply. |
| Errors.ValidationResult.Map | src/error.rs:123 | `Result::map`: a success becomes `f` of its value, and an error passes through untouched. |
| Errors.DefaultCodeIdentifiesKind | src/error.rs:67-118 | Without an override, two errors have the same code exactly when they have the same kind, or both are `Missing`/`MissingField`. |
| Errors.MissingKindsAgree | src/error.rs:87-111 | `Missing` and `MissingField` give identical code `MISSING_FIELD` and message `Missing required field: '<field>'`. |
| Errors.OverrideHidesKind | src/error.rs:60-65 | With an override, the code and message of any two kinds coincide with the override; only the recorded kind differs. |
| Errors.TypeErrorExample | src/error.rs:68-72 | A default Type error from String to Integer has code `TYPE_ERROR` and message `Type error: expected String, got Integer`. |
| Errors.ObjectMessageEmbedsErrors | src/error.rs:112-116 | An Object error has code `OBJECT_ERROR` and a message that embeds the rendering of every field error. |
| Decimal.NatToString | src/schema/string.rs:140-141 | The decimal text of a number is non-empty, all digits, with no leading zero; it is "0" exactly for zero. |
| Decimal.IntToString | src/schema/string.rs:140-141 | `i64::to_string` is in canonical form (digits without a leading zero, `-` only before a non-zero magnitude), with `-` exactly for a negative value. |
| Decimal.NatToStringRoundTrip | src/schema/string.rs:140-141 | Reading the digits back gives the number. |
| Decimal.IntToStringRoundTrip | src/schema/string.rs:140-141 | An `i64` rendered as text parses back to the same integer. |
| Decimal.IntToStringInjective | src/schema/string.rs:140-141 | Two integers with the same text are equal. |
| Decimal.CanonicalDigitsRoundTrip | src/schema/string.rs:140-141 | Canonical digits are the rendering of the number they denote. |
| Decimal.CanonicalIntIsRendering | src/schema/string.rs:140-141 | A canonical text that reads as `i` is exactly `i`'s rendering, so "canonical and parses to `i`" pins the text down. |
| Decimal.BoolToStringRoundTrip | src/schema/string.rs:144-145 | `true`/`false` rendered as text parse back to themselves. |
| Schema.ApplyAllAppend | src/schema/number.rs:44-57 | A transform added last runs on the result of all earlier ones. |
| Schema.ApplyAllConcat | src/schema/number.rs:52-57 | Running two transform lists in turn equals running their concatenation. |
| Strings.TypeName | src/schema/string.rs:167-173 | `String`, `Integer`, `Float` and `Boolean` exactly for a String, i64, f64 and bool, and `Unknown` exactly for every other type. |
| Strings.StringSchema.New | src/schema/string.rs:22-28 | A new schema has the given coercion flag and no error config. |
| Strings.StringSchema.SetMessage | src/schema/string.rs:30-40 | Sets the config to the given code and message and keeps the flag. |
| Strings.StringSchema.Transform | src/schema/string.rs:42-52 | The resulting chain validates as the schema, then applies `f` to a success. |
| Strings.StringSchema.Validate | src/schema/string.rs:135-164 | Accepts a String (returned unchanged), or, with coercion, an i64 (as canonical decimal text that parses back to it), a bool (as text that parses back to it) or an f64 (its `to_string`). Otherwise it returns a Type error without coercion and a Coercion error with it, using the schema's config. |
| Strings.TransformedSchema.Transform | src/schema/string.rs:62-77 | The new chain is `g` after the old one, on the same string schema. |
| Strings.TransformedSchema.SetMessage | src/schema/string.rs:79-89 | Configures the inner string schema and keeps the chain. |
| Strings.TransformedSchema.Validate | src/schema/string.rs:95-129 | Succeeds exactly when the string step does, with the chain applied; an error is returned untouched. |
| Strings.TransformChainComposes | src/schema/string.rs:62-77 | `.transform(f).transform(g)` yields `g(f(s))`. |
| Strings.SetMessageCoversChain | src/schema/string.rs:79-89 | After `set_message` on a chain, every failure carries the configured code and message. |
| Strings.CoercionOnlyWidens | src/schema/string.rs:135-164 | An input accepted without coercion is accepted with it, with the same output. |
| Strings.OutputRevalidates | src/schema/string.rs:135-139 | An output validated again without coercion comes back unchanged. |
| Numbers.NumberSchema.New | src/schema/number.rs:24-30 | No config and no transforms. |
| Numbers.NumberSchema.SetMessage | src/schema/number.rs:32-42 | Sets the config and keeps flag and transforms. |
| Numbers.NumberSchema.Transform | src/schema/number.rs:44-50 | Appends `f`. The combined transform is `f` after all earlier ones. |
| Numbers.NumberSchema.ApplyTransforms | src/schema/number.rs:52-57 | The loop computes the in-order fold of the transforms. |
| Numbers.NumberSchema.Coerced | src/schema/number.rs:63-97 | The full coercion table: f64 as is; with coercion, an i64 by `as f64`, a parsable String by its parse, and a bool as 1.0/0.0. Errors are Type("Number", "f64") without coercion, Coercion("String", "Number") for an unparsable string, and Coercion("f64", "Number") otherwise. |
| Numbers.NumberSchema.Validate | src/schema/number.rs:63-100 | Accepted exactly when coercible. A success is the transforms applied to the coerced value; an error skips them. |
| Numbers.TransformRunsLast | src/schema/number.rs:44-57 | A transform added last runs on the output of the earlier ones, on every input. |
| Numbers.NoTransformsIdentity | src/schema/number.rs:64-79 | Without transforms an f64 comes back bit for bit, and a bool coerces to 1.0/0.0. |
| Numbers.CoercionOnlyWidens | src/schema/number.rs:63-100 | Coercion only adds accepted inputs; outputs agree where both accept. |
| Numbers.RejectionHidesInputType | src/schema/number.rs:103-105 | Any two rejected non-string inputs give identical errors. |
| Numbers.SetMessageCoversParseFailure | src/schema/number.rs:70-77 | A configured message replaces the default on a failed parse, and the kind is still Coercion. |
| Booleans.BooleanSchema.New | src/schema/boolean.rs:24-30 | No config and no transforms. |
| Booleans.BooleanSchema.SetMessage | src/schema/boolean.rs:32-42 | Sets the config and keeps flag and transforms. |
| Booleans.BooleanSchema.Transform | src/schema/boolean.rs:44-50 | Appends `f`. The combined transform is `f` after all earlier ones. |
| Booleans.BooleanSchema.ApplyTransforms | src/schema/boolean.rs:52-57 | The loop computes the in-order fold of the transforms. |
| Booleans.BooleanSchema.Coerced | src/schema/boolean.rs:63-99 | A bool as is. With coercion: non-zero i64 or f64 (either zero is zero), non-empty String or vector, and `Some` are true. Errors are Type("Boolean", "bool") and Coercion("bool", "Boolean"). |
| Booleans.BooleanSchema.Validate | src/schema/boolean.rs:63-102 | Accepted exactly when a bool or coercible. A success is the transforms applied to the truth value. |
| Booleans.TransformRunsLast | src/schema/boolean.rs:44-57 | A transform added last runs on the output of the earlier ones. |
| Booleans.DoubleNegationIsIdentity | src/schema/boolean.rs:44-57 | Two negation transforms give back the schema's own answer on every input. |
| Booleans.CoercionOnlyWidens | src/schema/boolean.rs:63-102 | Coercion only adds accepted inputs; outputs agree where both accept. |
| Booleans.StringTruthinessIgnoresContent | src/schema/boolean.rs:72-73 | A string coerces to true exactly when non-empty, so "false" gives true. |
| Booleans.NumberRoundTrip | src/schema/boolean.rs:70-71 | A bool coerced to a number and back is unchanged. |
| Booleans.StringRoundTripLosesFalse | src/schema/boolean.rs:72-73 | `false` coerced to a string and back becomes true. |
| Literals.LiteralSchema.New | src/schema/literal.rs:13-18 | Holds the given reference value, with no config. |
| Literals.LiteralSchema.SetMessage | src/schema/literal.rs:40-50 | Sets the config and keeps the value. |
| Literals.LiteralSchema.Validate | src/schema/literal.rs:56-80 | Succeeds exactly when the input has the value's type and equals it, returning the input. Otherwise it is a Literal error, rendering a wrong-typed input as `Any { .. }` and a same-typed one by its own `{:?}`. |
| Literals.StringLiteral | src/schema/literal.rs:56-80 | Downcasts exactly strings, with equality `==`. |
| Literals.IntLiteral | src/schema/literal.rs:56-80 | Downcasts exactly i64s, with equality `==`, rendered in canonical decimal text that parses back. |
| Literals.BoolLiteral | src/schema/literal.rs:56-80 | Downcasts exactly bools, with equality `==`, rendered as text that parses back. |
| Literals.FloatLiteral | src/schema/literal.rs:56-80 | Downcasts exactly f64s, with IEEE-754 equality. |
| Literals.AcceptsExactlyItself | src/schema/literal.rs:56-80 | For a type with plain equality, exactly the reference value is accepted, and it is returned. |
| Literals.StringLiteralAcceptsExactlyItself | src/schema/literal.rs:56-80 | A string literal accepts exactly its string. Every rejection is a `LITERAL_ERROR`. |
| Literals.IntLiteralExample | src/schema/literal.rs:56-80 | Literal 42 accepts 42. Its messages for 43 and for a string are `Literal error: expected 42, got 43` and `... got Any { .. }`. |
| Literals.SetMessageCoversBothFailures | src/schema/literal.rs:40-80 | With a config, both failure paths report the configured code and message. |
| Literals.FloatLiteralEquality | src/schema/literal.rs:56-80 | A NaN literal accepts nothing. A zero literal accepts -0.0 and returns -0.0. |
| Optionals.OptionalSchema.New | src/schema/optional.rs:29-34 | Wraps the given inner schema. |
| Optionals.OptionalSchema.Transform | src/schema/optional.rs:36-47 | Keeps the schema and attaches `f`. |
| Optionals.OptionalSchema.Validate | src/schema/optional.rs:68-98 | Case by case, in order: `Option<()>` None gives `Ok(None)`, and Some gives a default Type("Option", "Unknown") error. An `Option<O>` is returned as is. `Option<Box<dyn Any>>` None gives `Ok(None)`, and Some goes to the inner schema. Anything else goes to the inner schema. |
| Optionals.TransformedOptionalSchema.Validate | src/schema/optional.rs:59-62 | The transform runs on the whole option result and never on an error. |
| Optionals.OptionalString | src/schema/optional.rs:68-98 | A plain input is validated by the string schema, and the result is wrapped in `Some`. |
| Optionals.OptionalNumber | src/schema/optional.rs:68-98 | The same for the number schema. |
| Optionals.OptionalBoolean | src/schema/optional.rs:68-98 | The same for the boolean schema. |
| Optionals.WrapsInnerResult | src/schema/optional.rs:91-97 | On a plain input, accepted iff the inner schema accepts; the output is `Some` of its output and an error is passed on. |
| Optionals.AbsentIsAccepted | src/schema/optional.rs:69-85 | Both untyped spellings of absence are accepted as `None`. |
| Optionals.TypedOptionBypassesInner | src/schema/optional.rs:81-82 | An `Option<f64>` is returned unchanged, without inner checks or transforms. |
| Optionals.BoxedPayloadMatchesBare | src/schema/optional.rs:83-97 | A boxed payload is validated exactly like the bare value. |
| Optionals.SomeUnitIgnoresInnerConfig | src/schema/optional.rs:69-80 | `Some(())` fails with the default `TYPE_ERROR` even if the inner schema has a custom message. |
| Optionals.TransformSeesWholeOption | src/schema/optional.rs:36-62 | A transform of `Option<String>` to its optional length gives `Some(5)` and `None`, and passes the inner rejection on. |
| Objects.TypeName | src/schema/object.rs:379-382 | `Object` exactly for maps, `Unknown` otherwise. |
| Objects.AnySchema.Validate | src/schema/object.rs:296-312 | The inner result with its output boxed; errors unchanged. |
| Objects.TargetType | src/schema/object.rs:236-244 | `name`, `age` and `is_active` map to String, Number and Boolean; every other name maps to Unknown. |
| Objects.WrapValue | src/schema/object.rs:315-327 | A String, i64, f64, bool or unit is copied; anything else becomes unit. |
| Objects.CoerceToType | src/schema/object.rs:329-376 | The full conversion table for each target (an i64 becomes its canonical decimal text), including the Boolean string rule (non-empty, not "false" in any case, not "0"). Untouched types and unknown targets give unit. |
| Objects.SuccessesOfStep | src/schema/object.rs:251-254 | Recording one outcome adds its output only if it is a success. |
| Objects.FailuresOfStep | src/schema/object.rs:251-267 | Recording one outcome adds its error only if it is a failure. |
| Objects.ObjectSchema.New | src/schema/object.rs:105-111 | The given flag, no config and no fields. |
| Objects.ObjectSchema.Field | src/schema/object.rs:131-138 | Adds or replaces one field, keeps every other field, and boxes that schema's output. |
| Objects.ObjectSchema.SetMessage | src/schema/object.rs:158-168 | Sets the config and keeps flag and fields. |
| Objects.ObjectSchema.Transform | src/schema/object.rs:199-209 | Keeps the schema and attaches `f`. |
| Objects.ObjectSchema.FieldInput | src/schema/object.rs:246-250 | A field schema gets the coerced value when coercing, and the wrapped value otherwise. |
| Objects.ObjectSchema.FieldOutcome | src/schema/object.rs:246-267 | A missing field is a Missing error with the object's config. Otherwise the outcome is the field schema's verdict. |
| Objects.ObjectSchema.OutcomesOverStep | src/schema/object.rs:228-268 | Visiting one more field adds exactly its outcome. |
| Objects.ObjectSchema.Outcomes | src/schema/object.rs:228-268 | One outcome per declared field. |
| Objects.ObjectSchema.CollectFields | src/schema/object.rs:228-268 | The loop returns exactly the successes map and the failures map over all declared fields. |
| Objects.ObjectSchema.Validate | src/schema/object.rs:215-278 | A non-map gives Type("Object", label). Otherwise the result is accepted iff no field fails, with every field's output. If any field fails, one Object error holds every field error. |
| Objects.TransformedObjectSchema.Validate | src/schema/object.rs:290-293 | The transform applies to the success map only. |
| Objects.FieldsPartition | src/schema/object.rs:228-268 | Every declared field lands in exactly one of the two maps, and nothing else does. |
| Objects.AcceptedIffAllFieldsPass | src/schema/object.rs:270-277 | The object is accepted exactly when every declared field's outcome is a success. |
| Objects.AllFieldsFailReported | src/schema/object.rs:259-277 | When all fields fail, the error lists every declared field. |
| Objects.MissingFieldRecorded | src/schema/object.rs:259-267 | An absent declared field causes rejection and is reported as Missing with the object's config. |
| Objects.SuccessCoversDeclaredFields | src/schema/object.rs:228-277 | On success, the output keys are exactly the declared fields, all of which were present. |
| Objects.UndeclaredKeysIgnored | src/schema/object.rs:228-268 | Input keys that are not declared fields do not affect the result. |
| Objects.CoercedUnknownFieldIsUnit | src/schema/object.rs:236-244 | When coercing, a field with any other name is given unit. |
| Objects.NumberTargetMatchesNumberSchema | src/schema/object.rs:344-360 | The Number target converts exactly what a coercing number schema converts, to the same value. |
| Objects.StringTargetMatchesStringSchema | src/schema/object.rs:331-343 | The same for the String target and the string schema. |
| Objects.BooleanTargetDiffersOnStrings | src/schema/object.rs:361-363 | "false", "FALSE" and "0" are false here but true for a coercing boolean schema. |
| Objects.BooleanTargetMatchesOnScalars | src/schema/object.rs:361-373 | On i64, f64 and bool the two agree. |
| Objects.OptionalFieldValueIsDiscarded | src/schema/object.rs:315-327 | Without coercion, any `Option<f64>` reaches the field schema as unit. |
| Cloning.CloneBoxed | src/schema/clone.rs:40-62 | A String, f64 or bool is copied; containers keep their shape; anything else becomes unit. |
| Cloning.CloneMap | src/schema/clone.rs:52-57 | The loop produces the same keys, each with its value cloned. |
| Cloning.CloneBoxedMap | src/schema/clone.rs:51-57 | Map cloning by the loop equals the recursive clone. |
| Cloning.CloneString | src/schema/clone.rs:10-14 | Boxes an equal String. |
| Cloning.CloneFloat | src/schema/clone.rs:16-20 | Boxes an equal f64. |
| Cloning.CloneBool | src/schema/clone.rs:22-26 | Boxes an equal bool. |
| Cloning.CloneUSize | src/schema/clone.rs:70-74 | Boxes an equal usize. |
| Cloning.CloneOption | src/schema/clone.rs:28-32 | A boxed option of the same shape, with the payload cloned. |
| Cloning.CloneVec | src/schema/clone.rs:64-68 | A boxed vector of the same length, with each element cloned in order. |
| Cloning.CloneBox | src/schema/clone.rs:34-38 | Delegates to the content's clone. |
| Cloning.CloneExactIff | src/schema/clone.rs:40-62 | Cloning reproduces a value exactly iff the value is built only from String, f64, bool and unit. |
| Cloning.CloneIsExact | src/schema/clone.rs:40-62 | Every clone is built only from reproducible contents. |
| Cloning.CloneIdempotent | src/schema/clone.rs:40-62 | Cloning a clone gives an equal value. |
| Cloning.IntegersInBoxesBecomeUnit | src/schema/clone.rs:40-74 | A boxed i64 or usize is lost, also inside a vector, while the typed usize impl keeps it. |
| Cloning.TypedOptionChangesType | src/schema/clone.rs:28-32 | An `Option<String>` clone is an `Option<Box<dyn Any>>`, not an `Option<String>`. |
| Patterns.Regex | src/schema/patterns.rs:4-31 | Every source is anchored at both ends. |
| Patterns.Description | src/schema/patterns.rs:73-85 | The nine descriptions, verbatim; every one is non-empty. |
| Patterns.Find | src/schema/patterns.rs:88-104 | Finds a candidate whose source is exactly the text, and finds none iff no candidate has it. |
| Patterns.Position | src/schema/patterns.rs:35-54 | Every pattern has a position in the scan order. |
| Patterns.FromRegex | src/schema/patterns.rs:88-104 | Returns a pattern whose source is the text, and `None` iff no pattern has that source. |
| Patterns.AllIsComplete | src/schema/patterns.rs:89-101 | The scan list holds every pattern. |
| Patterns.FindIsFirstHit | src/schema/patterns.rs:88-104 | The scan returns the earliest matching candidate. |
| Patterns.RegexLength | src/schema/patterns.rs:4-31 | The length of each source. |
| Patterns.RegexInjective | src/schema/patterns.rs:4-31 | No two patterns share a source. |
| Patterns.FromRegexRoundTrip | src/schema/patterns.rs:58-104 | Looking up a pattern's own source gives that pattern back. |
| Patterns.FromRegexMissesOtherText | src/schema/patterns.rs:88-104 | A text of a length no source has finds nothing. |
| Patterns.EquivalentDateSourceNotFound | src/schema/patterns.rs:11-12 | The lookup compares text: an equivalent date expression written with `[0-9]` finds nothing. |
| Builder.SchemaBuilder.Default | src/lib.rs:296-300 | The default builder does not coerce. |
| Builder.SchemaBuilder.New | src/lib.rs:304-306 | Equal to the default. |
| Builder.SchemaBuilder.String | src/lib.rs:330-332 | A string schema carrying the builder's flag. |
| Builder.SchemaBuilder.Number | src/lib.rs:351-353 | A number schema carrying the builder's flag, with no transforms. |
| Builder.SchemaBuilder.Boolean | src/lib.rs:372-374 | A boolean schema carrying the builder's flag, with no transforms. |
| Builder.SchemaBuilder.Object | src/lib.rs:409-411 | An object schema without coercion, whatever the builder's flag, as the model reads the call `ObjectSchema::new()`, which passes no flag. |
| Builder.SchemaBuilder.Literal | src/lib.rs:445-450 | A literal schema of the given value. |
| Builder.SchemaBuilder.Coerce | src/lib.rs:472-476 | A builder whose flag is on. |
| Builder.CoerceBuilder.String | src/lib.rs:487-490 | Delegates to the inner builder. |
| Builder.CoerceBuilder.Number | src/lib.rs:492-495 | Delegates to the inner builder. |
| Builder.CoerceBuilder.Boolean | src/lib.rs:497-500 | Delegates to the inner builder. |
| Builder.CoerceBuilder.Object | src/lib.rs:502-505 | Delegates to the inner builder. |
| Builder.Schema | src/lib.rs:526-528 | The non-coercing default builder. |
| Builder.CoerceBuilderExample | src/lib.rs:472-476 | `s.coerce().string()` turns 42 into "42" where `s.string()` rejects it; a coercing number schema reads "42". |
| Builder.CoerceReachesAllButObject | src/lib.rs:481-505 | Every schema from a coercing builder coerces, except the object schema as the model reads `object()`. |
| Builder.UserSchema | src/schema/object.rs:44-48 | Declares exactly the fields `name`, `age` and `is_active`. |
| Builder.UncoercedFieldsFail | src/schema/object.rs:44-55 | Without coercion, each field of the documented coercion input fails. |
| Builder.CoercedFieldsPass | src/schema/object.rs:44-55 | With coercion, each field of that input passes. |
| Builder.ObjectCoercionExample | src/lib.rs:409-411 | As the model reads the call `ObjectSchema::new()`, which does not compile, `s.coerce().object()` has no coercion, so the documented example is rejected on all three fields. An object schema created with coercion, as the documentation intends, accepts it. |
| Builder.OptionalObjectFieldRejected | src/schema/object.rs:315-327 | An object field with an optional number schema rejects both `Some(30.0)` and `None` stored in the map. |

## Left out

- `derive.rs`, `mapping.rs` (`FromFields`, `validate_as`), JSON support and the `Debug` impls of the schemas are not part of this model.
- Regular-expression matching and the `lazy_static` compilation of the patterns: the model keeps each pattern's source text and description, but does not model what the expressions match.
- `str::parse::<f64>`, `i64 as f64` and `f64::to_string` are parameters held in the record `Schema.Host`. The model fixes no float parser, conversion or printer.
- Errors.ObjectMessageEmbedsErrors: `{:?}` of the error map, including `HashMap` iteration order, is a parameter. The message is stated up to that rendering.
- Literals.StringLiteral, Literals.FloatLiteral: `{:?}` of a `String` (quoting, escapes) and of an `f64` are parameters.
- Builder.SchemaBuilder.Object: `ObjectSchema::new()` at `src/lib.rs:410` passes no argument to a constructor that takes the coercion flag, so this call does not compile. Creating the schema without coercion is the model's reading of it. The documentation of `CoerceBuilder::object` (`src/lib.rs:502-503`) promises coercion instead, and `Objects.ObjectSchema.New(true)` gives that behaviour.
- Cloning.CloneMap: map keys are strings. The typed `HashMap<K, V>` impl is generic in the key type `K`, which the model does not cover.
- Objects.ObjectSchema.CollectFields: the order in which the `HashMap` is visited is not modelled. The loop picks any remaining field, and its result is the same for every order.
- Inputs are a closed set of Rust types; every other type is a single `Other` case. No schema distinguishes between such types.
- The `transform` field of `StringSchema` (never read) and the `type_name` helper of `literal.rs` (never called) have no counterpart.
- Length, pattern, email and trimming rules of a string schema, and an `.optional()` builder method, are mentioned in the documentation but absent from the code. Optional schemas are built with `Optionals.OptionalSchema.New`.
- `src/schema/mod.rs` declares only the string, boolean and number submodules, so the crate as written does not compile the object, literal, optional, clone and patterns modules. This model includes them as their files define them.
- Literals.IntLiteral: `i64` has no `CloneAny` impl, so the crate cannot build an `i64` literal. The instance is kept because the crate's documentation uses one.
- Numbers.NumberSchema.ApplyTransforms, Booleans.BooleanSchema.ApplyTransforms: a transform that panics or does not terminate is not modelled; transforms are total functions.

## Code versus tests

Where the code and its tests or documentation disagree, the model follows the code:

- **Boolean coercion of "false".** The boolean schema treats every non-empty string as true, so "false" coerces to true (`Booleans.StringTruthinessIgnoresContent`). `tests/integration_tests.rs:64-65` and `tests/coercion/mod.rs:46-47` expect false. The object schema's Boolean target uses a third rule (`Objects.BooleanTargetDiffersOnStrings`).
- **`object()` passes no flag.** `SchemaBuilder::object` (`src/lib.rs:409-411`) calls `ObjectSchema::new()` with no argument, while `ObjectSchema::new` takes the flag, so the call does not compile as written. The model reads it as an object schema without coercion. Under that reading the documented coercion example in `src/schema/object.rs:40-56` is rejected, while an object schema created with coercion accepts it (`Builder.ObjectCoercionExample`).
- **Object errors as a map.** `ErrorType::Object` is declared with a vector of pairs (`src/error.rs:30`), but the object schema builds it from a `HashMap`. The model keeps the map.
- **Options inside objects.** `wrap_value` replaces an option stored in an object by unit. An optional field therefore rejects `Some(30.0)` and `None` alike (`Builder.OptionalObjectFieldRejected`), unlike `tests/optional.rs:77-120`.
- **Strong password.** The strong-password description promises a lower-case letter and a digit. The expression (`src/schema/patterns.rs`, `Patterns.Regex`) requires an ASCII capital first and at least 7 more characters, each an ASCII letter or digit, `_` or a non-word character; it requires no lower-case letter and no digit.
