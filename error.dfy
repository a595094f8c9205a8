/** The error model: error kinds, the custom (code, message) override and `ValidationError::new`. */
module Errors {
  import opened Values
  import opened Decimal

  /** A (code, message) pair that a schema's `set_message` attaches. */
  datatype ErrorConfig = ErrorConfig(code: string, message: string)

  /** The closed set of failure kinds. `Object` carries the per-field errors of an object schema,
      keyed by field name. */
  datatype ErrorType =
    | Type(expected: string, got: string)
    | Pattern(pattern: string, got: string)
    | MinLength(min: nat, length: nat)
    | MaxLength(max: nat, length: nat)
    | UnknownField(field: string)
    | MissingField(field: string)
    | Literal(expected: string, got: string)
    | Coercion(from: string, to: string)
    | Missing(field: string)
    | Object(errors: map<string, ValidationError>)

  datatype ValidationError = ValidationError(code: string, message: string, errorType: ErrorType)

  /** `ValidationResult<T>`: the outcome of every validator. */
  datatype ValidationResult<+T> = Ok(value: T) | Err(error: ValidationError) {
    /** `Result::map`: applies `f` to a success and passes an error through untouched. */
    function Map<U>(f: T -> U): (r: ValidationResult<U>)
      ensures r.Ok? <==> Ok?
      ensures Ok? ==> r.value == f(value)
      ensures Err? ==> r.error == error
    {
      match this
      case Ok(v) => Ok(f(v))
      case Err(e) => Err(e)
    }
  }

  /** How `{:?}` renders the map of per-field errors. The standard library's rendering (and the
      iteration order of a `HashMap`) is not part of this model, so callers supply it. */
  type ErrorMapDebug = map<string, ValidationError> -> string

  /** The default code of each kind. */
  function DefaultCode(errorType: ErrorType): string {
    match errorType
    case Type(_, _) => "TYPE_ERROR"
    case Pattern(_, _) => "PATTERN_ERROR"
    case MinLength(_, _) => "MIN_LENGTH_ERROR"
    case MaxLength(_, _) => "MAX_LENGTH_ERROR"
    case UnknownField(_) => "UNKNOWN_FIELD"
    case MissingField(_) => "MISSING_FIELD"
    case Literal(_, _) => "LITERAL_ERROR"
    case Coercion(_, _) => "COERCION_ERROR"
    case Missing(_) => "MISSING_FIELD"
    case Object(_) => "OBJECT_ERROR"
  }

  /** The default message of each kind, filled in from the kind's data. */
  function DefaultMessage(errorType: ErrorType, debug: ErrorMapDebug): string {
    match errorType
    case Type(expected, got) => "Type error: expected " + expected + ", got " + got
    case Pattern(pattern, got) => "Pattern error: '" + got + "' does not match pattern '" + pattern + "'"
    case MinLength(min, length) =>
      "Length error: expected at least " + NatToString(min) + " characters, got " + NatToString(length)
    case MaxLength(max, length) =>
      "Length error: expected at most " + NatToString(max) + " characters, got " + NatToString(length)
    case UnknownField(field) => "Unknown field: '" + field + "'"
    case MissingField(field) => "Missing required field: '" + field + "'"
    case Literal(expected, got) => "Literal error: expected " + expected + ", got " + got
    case Coercion(from, to) => "Coercion error: cannot convert " + from + " to " + to
    case Missing(field) => "Missing required field: '" + field + "'"
    case Object(errors) => "Object validation failed: " + debug(errors)
  }

  /** `ValidationError::new`: an override supplies code and message verbatim (even empty ones);
      otherwise the kind's defaults apply. The kind is always recorded as given. */
  function New(errorType: ErrorType, config: Option<ErrorConfig>, debug: ErrorMapDebug): (e: ValidationError)
    ensures e.errorType == errorType
    ensures config.Some? ==> e.code == config.value.code && e.message == config.value.message
    ensures config.None? ==> e.code == DefaultCode(errorType) && e.message == DefaultMessage(errorType, debug)
  {
    match config
    case Some(c) => ValidationError(c.code, c.message, errorType)
    case None => ValidationError(DefaultCode(errorType), DefaultMessage(errorType, debug), errorType)
  }

  /** Position of a kind in the enum declaration. */
  function KindIndex(errorType: ErrorType): nat {
    match errorType
    case Type(_, _) => 0
    case Pattern(_, _) => 1
    case MinLength(_, _) => 2
    case MaxLength(_, _) => 3
    case UnknownField(_) => 4
    case MissingField(_) => 5
    case Literal(_, _) => 6
    case Coercion(_, _) => 7
    case Missing(_) => 8
    case Object(_) => 9
  }

  /** Kinds that share a default code: only `Missing` and `MissingField`. */
  predicate SameDefaultKind(a: ErrorType, b: ErrorType) {
    KindIndex(a) == KindIndex(b) || ((a.Missing? || a.MissingField?) && (b.Missing? || b.MissingField?))
  }

  /** Without an override, the code tells the kind apart, except that `Missing` and `MissingField`
      both report `MISSING_FIELD`. */
  lemma DefaultCodeIdentifiesKind(a: ErrorType, b: ErrorType, debug: ErrorMapDebug)
    ensures New(a, None, debug).code == New(b, None, debug).code <==> SameDefaultKind(a, b)
  {
  }

  /** `Missing` and `MissingField` build the same error text for the same field. */
  lemma MissingKindsAgree(field: string, debug: ErrorMapDebug)
    ensures New(Missing(field), None, debug).code == New(MissingField(field), None, debug).code == "MISSING_FIELD"
    ensures New(Missing(field), None, debug).message == New(MissingField(field), None, debug).message
    ensures New(Missing(field), None, debug).message == "Missing required field: '" + field + "'"
  {
  }

  /** An override erases every difference between two kinds except the recorded kind itself. */
  lemma OverrideHidesKind(a: ErrorType, b: ErrorType, c: ErrorConfig, debug: ErrorMapDebug)
    ensures New(a, Some(c), debug).code == New(b, Some(c), debug).code == c.code
    ensures New(a, Some(c), debug).message == New(b, Some(c), debug).message == c.message
    ensures New(a, Some(c), debug).errorType == a
  {
  }

  /** The documented example: a type error from String to Integer. */
  lemma TypeErrorExample(debug: ErrorMapDebug)
    ensures New(Type("String", "Integer"), None, debug).code == "TYPE_ERROR"
    ensures New(Type("String", "Integer"), None, debug).message == "Type error: expected String, got Integer"
  {
  }

  /** The Object message embeds the rendering of every per-field error. */
  lemma ObjectMessageEmbedsErrors(errors: map<string, ValidationError>, debug: ErrorMapDebug)
    ensures New(Object(errors), None, debug).code == "OBJECT_ERROR"
    ensures New(Object(errors), None, debug).message == "Object validation failed: " + debug(errors)
  {
  }
}
