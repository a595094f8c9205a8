/** The literal schema: accepts exactly one value of one type. */
module Literals {
  import opened Values
  import opened Decimal
  import opened Errors
  import opened Schema

  /** What the literal schema needs of its value type `T`: `downcast_ref::<T>` on an input,
      `PartialEq` and `{:?}`. */
  datatype LiteralType<!T> = LiteralType(
    downcast: Value -> Option<T>,
    equals: (T, T) -> bool,
    debug: T -> string)

  datatype LiteralSchema<!T> = LiteralSchema(value: T, errorConfig: Option<ErrorConfig>, ty: LiteralType<T>)
  {
    static function New(value: T, ty: LiteralType<T>): (s: LiteralSchema<T>)
      ensures s.value == value && s.ty == ty && s.errorConfig == None
    {
      LiteralSchema(value, None, ty)
    }

    function SetMessage(code: string, message: string): (s: LiteralSchema<T>)
      ensures s.value == value && s.ty == ty
      ensures s.errorConfig == Some(ErrorConfig(code, message))
    {
      this.(errorConfig := Some(ErrorConfig(code, message)))
    }

    /** Succeeds iff the input has type `T` and equals the reference value, returning (a copy of)
        the input. Both failures are `Literal` errors: a value of the wrong type is rendered by the
        `dyn Any` formatter, a same-typed value by `T`'s own. */
    function Validate(v: Value, h: Host): (r: ValidationResult<T>)
      ensures r.Ok? <==> ty.downcast(v).Some? && ty.equals(ty.downcast(v).value, value)
      ensures r.Ok? ==> r.value == ty.downcast(v).value
      ensures r.Err? && ty.downcast(v).None? ==> r.error.errorType == Literal(ty.debug(value), AnyDebug)
      ensures r.Err? && ty.downcast(v).Some? ==>
              r.error.errorType == Literal(ty.debug(value), ty.debug(ty.downcast(v).value))
      ensures r.Err? ==> r.error == Errors.New(r.error.errorType, errorConfig, h.debugErrors)
    {
      match ty.downcast(v)
      case None =>
        Err(Errors.New(Literal(ty.debug(value), AnyDebug), errorConfig, h.debugErrors))
      case Some(x) =>
        if ty.equals(x, value) then Ok(x)
        else Err(Errors.New(Literal(ty.debug(value), ty.debug(x)), errorConfig, h.debugErrors))
    }
  }

  /** `String` literals; `{:?}` of a string (quoted, with escapes) is supplied by the caller. */
  function StringLiteral(debugString: string -> string): (ty: LiteralType<string>)
    ensures forall v :: ty.downcast(v).Some? <==> v.Str?
    ensures forall v, s :: ty.downcast(v) == Some(s) ==> v == Str(s)
    ensures forall a, b :: ty.equals(a, b) <==> a == b
  {
    LiteralType((v: Value) => if v.Str? then Some(v.s) else None, (a: string, b: string) => a == b, debugString)
  }

  /** `i64` literals, rendered in decimal. */
  function IntLiteral(): (ty: LiteralType<Int64>)
    ensures forall v :: ty.downcast(v).Some? <==> v.Int?
    ensures forall v, n :: ty.downcast(v) == Some(n) ==> v == Int(n)
    ensures forall a, b :: ty.equals(a, b) <==> a == b
    ensures forall n :: CanonicalInt(ty.debug(n)) && ParseInt(ty.debug(n)) == Some(n as int)
  {
    var ty := LiteralType((v: Value) => if v.Int? then Some(v.i) else None, (a: Int64, b: Int64) => a == b,
                          (n: Int64) => IntToString(n as int));
    forall n: Int64 ensures CanonicalInt(ty.debug(n)) && ParseInt(ty.debug(n)) == Some(n as int) {
      IntToStringRoundTrip(n as int);
    }
    ty
  }

  /** `bool` literals, rendered as "true" or "false". */
  function BoolLiteral(): (ty: LiteralType<bool>)
    ensures forall v :: ty.downcast(v).Some? <==> v.Bool?
    ensures forall v, b :: ty.downcast(v) == Some(b) ==> v == Bool(b)
    ensures forall a, b :: ty.equals(a, b) <==> a == b
    ensures forall b :: ParseBool(ty.debug(b)) == Some(b)
  {
    LiteralType((v: Value) => if v.Bool? then Some(v.b) else None, (a: bool, b: bool) => a == b,
                (b: bool) => BoolToString(b))
  }

  /** A NaN bit pattern: all exponent bits set and a non-zero fraction. */
  predicate IsNaN(x: Float64) {
    x.bits & 0x7FF0_0000_0000_0000 == 0x7FF0_0000_0000_0000 && x.bits & 0x000F_FFFF_FFFF_FFFF != 0
  }

  /** IEEE-754 `==` on f64: NaN equals nothing, +0.0 equals -0.0, otherwise the bits must agree. */
  predicate FloatEquals(a: Float64, b: Float64) {
    !IsNaN(a) && !IsNaN(b) && (a == b || (IsZero(a) && IsZero(b)))
  }

  /** `f64` literals, compared by IEEE-754 `==`; `{:?}` of an f64 is supplied by the caller. */
  function FloatLiteral(debugFloat: Float64 -> string): (ty: LiteralType<Float64>)
    ensures forall v :: ty.downcast(v).Some? <==> v.Float?
    ensures forall v, x :: ty.downcast(v) == Some(x) ==> v == Float(x)
    ensures forall a, b :: ty.equals(a, b) <==> FloatEquals(a, b)
  {
    LiteralType((v: Value) => if v.Float? then Some(v.f) else None, FloatEquals, debugFloat)
  }

  /** For a type whose equality is `==`, the schema accepts exactly the reference value and
      returns it. */
  lemma {:induction false} AcceptsExactlyItself<T>(s: LiteralSchema<T>, box: T -> Value, v: Value, h: Host)
    requires forall a, b :: s.ty.equals(a, b) <==> a == b
    requires forall w, x :: s.ty.downcast(w) == Some(x) ==> w == box(x)
    requires s.ty.downcast(box(s.value)) == Some(s.value)
    ensures s.Validate(v, h).Ok? <==> v == box(s.value)
    ensures s.Validate(v, h).Ok? ==> s.Validate(v, h).value == s.value
  {
    if v == box(s.value) {
      assert s.ty.equals(s.value, s.value);
    }
  }

  /** A string literal accepts exactly its own string; any other string, or any value of another
      type, is a `Literal` error and never a `Type` error. */
  lemma StringLiteralAcceptsExactlyItself(text: string, debugString: string -> string, v: Value, h: Host)
    ensures var r := LiteralSchema.New(text, StringLiteral(debugString)).Validate(v, h);
            (r.Ok? <==> v == Str(text)) && (r.Ok? ==> r.value == text) &&
            (r.Err? ==> r.error.errorType.Literal? && r.error.code == "LITERAL_ERROR")
  {
    AcceptsExactlyItself(LiteralSchema.New(text, StringLiteral(debugString)), s => Str(s), v, h);
  }

  /** The documented rejection of 43 by the literal 42, and of a string by it. */
  lemma IntLiteralExample(h: Host)
    ensures LiteralSchema.New(42, IntLiteral()).Validate(Int(42), h) == Ok(42)
    ensures LiteralSchema.New(42, IntLiteral()).Validate(Int(43), h).error.message ==
            "Literal error: expected 42, got 43"
    ensures LiteralSchema.New(42, IntLiteral()).Validate(Str("42"), h).error.message ==
            "Literal error: expected 42, got Any { .. }"
  {
    var ty := IntLiteral();
    assert ty.debug(42) == "42" by {
      assert NatToString(42) == NatToString(4) + [DigitChar(2)];
    }
    assert ty.debug(43) == "43" by {
      assert NatToString(43) == NatToString(4) + [DigitChar(3)];
    }
  }

  /** A configured literal reports the configured code and message on both failure paths. */
  lemma SetMessageCoversBothFailures<T>(s: LiteralSchema<T>, code: string, message: string, v: Value, h: Host)
    ensures var r := s.SetMessage(code, message).Validate(v, h);
            r.Err? ==> r.error.code == code && r.error.message == message && r.error.errorType.Literal?
  {
  }

  /** A NaN literal accepts nothing, and a zero literal accepts the other zero, returning the
      input's sign rather than its own. */
  lemma FloatLiteralEquality(debugFloat: Float64 -> string, nan: Float64, v: Value, h: Host)
    requires IsNaN(nan)
    ensures LiteralSchema.New(nan, FloatLiteral(debugFloat)).Validate(v, h).Err?
    ensures LiteralSchema.New(Zero, FloatLiteral(debugFloat)).Validate(Float(Float64(0x8000_0000_0000_0000)), h)
            == Ok(Float64(0x8000_0000_0000_0000))
  {
  }
}
