/** Deep copies into a fresh `Box<dyn Any>` (`CloneAny`). */
module Cloning {
  import opened Values

  /** `clone_any` on a `Box<dyn Any>`: a String, f64 or bool is copied; an
      `Option<Box<dyn Any>>`, a `Vec<Box<dyn Any>>` or a `HashMap<String, Box<dyn Any>>` is copied
      with every payload cloned the same way; any other content, i64 and usize included, becomes
      unit. */
  function CloneBoxed(v: Value): (c: Value)
    ensures v.Str? || v.Float? || v.Bool? ==> c == v
    ensures v.OptAny? ==> c.OptAny? && (c.optAny.Some? <==> v.optAny.Some?)
    ensures v.VecAny? ==> c.VecAny? && |c.items| == |v.items|
    ensures v.Map? ==> c.Map? && c.entries.Keys == v.entries.Keys
    ensures !(v.Str? || v.Float? || v.Bool? || v.OptAny? || v.VecAny? || v.Map?) ==> c == Unit
    decreases v
  {
    match v
    case Str(_) => v
    case Float(_) => v
    case Bool(_) => v
    case OptAny(o) => if o.Some? then OptAny(Some(CloneBoxed(o.value))) else OptAny(None)
    case VecAny(items) => VecAny(seq(|items|, i requires 0 <= i < |items| => CloneBoxed(items[i])))
    case Map(entries) => Map(map k | k in entries :: CloneBoxed(entries[k]))
    case _ => Unit
  }

  /** The contents `CloneBoxed` reproduces exactly: String, f64, bool and unit, and the three
      containers when all their payloads are such contents. */
  predicate ClonesExactly(v: Value)
    decreases v
  {
    match v
    case Str(_) => true
    case Float(_) => true
    case Bool(_) => true
    case Unit => true
    case OptAny(o) => o.None? || ClonesExactly(o.value)
    case VecAny(items) => forall i | 0 <= i < |items| :: ClonesExactly(items[i])
    case Map(entries) => forall k | k in entries :: ClonesExactly(entries[k])
    case _ => false
  }

  /** The loop that builds a cloned map: every key is copied and its value cloned. The same loop
      serves a map of boxed values and a map of any cloneable value type. */
  method CloneMap<V>(m: map<string, V>, cloneValue: V -> Value) returns (r: map<string, Value>)
    ensures r.Keys == m.Keys
    ensures forall k | k in m :: r[k] == cloneValue(m[k])
  {
    r := map[];
    var remaining := m.Keys;
    while remaining != {}
      invariant remaining <= m.Keys
      invariant r.Keys == m.Keys - remaining
      invariant forall k | k in r :: r[k] == cloneValue(m[k])
      decreases remaining
    {
      var k :| k in remaining;
      r := r[k := cloneValue(m[k])];
      remaining := remaining - {k};
    }
  }

  /** The map case of `CloneBoxed`, computed by the loop. */
  method CloneBoxedMap(m: map<string, Value>) returns (r: Value)
    ensures r == CloneBoxed(Map(m))
  {
    var entries := CloneMap(m, CloneBoxed);
    r := Map(entries);
  }

  /** The typed impls: a String, f64, bool or usize is boxed as a copy of itself. */
  function CloneString(s: string): (c: Value)
    ensures c.Str? && c.s == s
  {
    Str(s)
  }

  function CloneFloat(x: Float64): (c: Value)
    ensures c.Float? && c.f == x
  {
    Float(x)
  }

  function CloneBool(b: bool): (c: Value)
    ensures c.Bool? && c.b == b
  {
    Bool(b)
  }

  function CloneUSize(n: nat): (c: Value)
    ensures c.USize? && c.n == n
  {
    USize(n)
  }

  /** `Option<T>` clones to an `Option<Box<dyn Any>>` of the same shape, not to an `Option<T>`. */
  function CloneOption<T>(o: Option<T>, cloneValue: T -> Value): (c: Value)
    ensures c.OptAny? && (c.optAny.Some? <==> o.Some?)
    ensures o.Some? ==> c.optAny.value == cloneValue(o.value)
  {
    if o.Some? then OptAny(Some(cloneValue(o.value))) else OptAny(None)
  }

  /** `Vec<T>` clones element by element, in order, to a `Vec<Box<dyn Any>>`. */
  function CloneVec<T>(xs: seq<T>, cloneValue: T -> Value): (c: Value)
    ensures c.VecAny? && |c.items| == |xs|
    ensures forall i | 0 <= i < |xs| :: c.items[i] == cloneValue(xs[i])
  {
    VecAny(seq(|xs|, i requires 0 <= i < |xs| => cloneValue(xs[i])))
  }

  /** `Box<T>` delegates to `T`'s own clone. */
  function CloneBox<T>(x: T, cloneValue: T -> Value): (c: Value)
    ensures c == cloneValue(x)
  {
    cloneValue(x)
  }

  /** Cloning reproduces a value exactly if and only if it is made only of the reproducible
      contents. */
  lemma {:induction false} CloneExactIff(v: Value)
    ensures CloneBoxed(v) == v <==> ClonesExactly(v)
    decreases v
  {
    match v
    case OptAny(o) =>
      if o.Some? {
        CloneExactIff(o.value);
      }
    case VecAny(items) =>
      forall i | 0 <= i < |items| ensures CloneBoxed(items[i]) == items[i] <==> ClonesExactly(items[i]) {
        CloneExactIff(items[i]);
      }
      if ClonesExactly(v) {
        assert CloneBoxed(v).items == items;
      } else {
        var i :| 0 <= i < |items| && !ClonesExactly(items[i]);
        assert CloneBoxed(v).items[i] != items[i];
      }
    case Map(entries) =>
      forall k | k in entries ensures CloneBoxed(entries[k]) == entries[k] <==> ClonesExactly(entries[k]) {
        CloneExactIff(entries[k]);
      }
      if ClonesExactly(v) {
        assert CloneBoxed(v).entries == entries;
      } else {
        var k :| k in entries && !ClonesExactly(entries[k]);
        assert CloneBoxed(v).entries[k] != entries[k];
      }
    case _ =>
  }

  /** Whatever the input, the clone is made only of reproducible contents. */
  lemma {:induction false} CloneIsExact(v: Value)
    ensures ClonesExactly(CloneBoxed(v))
    decreases v
  {
    match v
    case OptAny(o) =>
      if o.Some? {
        CloneIsExact(o.value);
      }
    case VecAny(items) =>
      forall i | 0 <= i < |items| ensures ClonesExactly(CloneBoxed(v).items[i]) {
        CloneIsExact(items[i]);
      }
    case Map(entries) =>
      forall k | k in entries ensures ClonesExactly(CloneBoxed(v).entries[k]) {
        CloneIsExact(entries[k]);
      }
    case _ =>
  }

  /** Cloning a clone gives an equal value. */
  lemma CloneIdempotent(v: Value)
    ensures CloneBoxed(CloneBoxed(v)) == CloneBoxed(v)
  {
    CloneIsExact(v);
    CloneExactIff(CloneBoxed(v));
  }

  /** An i64 or usize inside a box is lost, though the typed usize impl keeps it. */
  lemma IntegersInBoxesBecomeUnit(i: Int64, n: nat)
    ensures CloneBoxed(Int(i)) == Unit
    ensures CloneBoxed(USize(n)) == Unit
    ensures CloneUSize(n) == USize(n)
    ensures CloneBoxed(VecAny([Str("a"), Int(i)])) == VecAny([Str("a"), Unit])
  {
    assert CloneBoxed(VecAny([Str("a"), Int(i)])).items == [Str("a"), Unit];
  }

  /** A typed option comes back as a boxed option: an `Option<String>` clone is no longer an
      `Option<String>`, though its payload survives. */
  lemma TypedOptionChangesType(s: string)
    ensures CloneOption(Some(s), CloneString) == OptAny(Some(Str(s)))
    ensures !CloneOption(Some(s), CloneString).OptStr?
  {
  }
}
