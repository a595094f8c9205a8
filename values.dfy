/** Runtime values: the closed set of types that the validators downcast `&dyn Any` to. */
module Values {

  datatype Option<+T> = None | Some(value: T)

  /** Rust's `i64`. */
  newtype Int64 = x: int | -0x8000_0000_0000_0000 <= x < 0x8000_0000_0000_0000

  /** Rust's `f64`, kept as its IEEE-754 bit pattern. Only the constants 0.0 and 1.0 and the
      comparison `!= 0.0` are defined here; parsing, printing and `as f64` come from `Schema.Host`. */
  datatype Float64 = Float64(bits: bv64)

  const Zero: Float64 := Float64(0)
  const One: Float64 := Float64(0x3FF0_0000_0000_0000)

  /** `x == 0.0` in IEEE-754: true for +0.0 and -0.0, false for every other value, NaN included. */
  predicate IsZero(x: Float64) {
    x.bits & 0x7FFF_FFFF_FFFF_FFFF == 0
  }

  /** A value behind `&dyn Any` (or inside a `Box<dyn Any>`), tagged by its concrete Rust type.
      A payload of `OptAny`, `VecAny` or `Map` is itself a boxed `dyn Any`. */
  datatype Value =
    | Str(s: string)                        // String
    | Int(i: Int64)                         // i64
    | Float(f: Float64)                     // f64
    | Bool(b: bool)                         // bool
    | Unit                                  // ()
    | USize(n: nat)                         // usize
    | OptUnit(isSome: bool)                 // Option<()>
    | OptStr(optStr: Option<string>)        // Option<String>
    | OptFloat(optFloat: Option<Float64>)   // Option<f64>
    | OptBool(optBool: Option<bool>)        // Option<bool>
    | OptAny(optAny: Option<Value>)         // Option<Box<dyn Any>>
    | VecBool(bools: seq<bool>)             // Vec<bool>
    | VecInt(ints: seq<Int64>)              // Vec<i64>
    | VecStr(strs: seq<string>)             // Vec<String>
    | VecAny(items: seq<Value>)             // Vec<Box<dyn Any>>
    | Map(entries: map<string, Value>)      // HashMap<String, Box<dyn Any>>
    | Other(rustType: string)               // a value of any other type

  /** What `format!("{:?}", v)` prints for a `&dyn Any`: the standard library renders every
      `dyn Any` the same way, whatever it holds. */
  const AnyDebug: string := "Any { .. }"
}
