/** Identity of in-flight gauges: structural equality over context, name
    and tags, and a hash combined with unchecked 32-bit arithmetic. */
module GaugeOptions {
  import opened Wrappers

  const TwoTo32: int := 0x1_0000_0000
  const TwoTo31: int := 0x8000_0000

  /** A C# `int`. */
  type Int32 = x: int | -0x8000_0000 <= x < 0x8000_0000

  /** Two's-complement wrap-around of an `unchecked` int computation. */
  function Wrap32(x: int): (r: Int32)
    ensures (r - x) % TwoTo32 == 0
  {
    var m := (x + TwoTo31) % TwoTo32;
    assert m + TwoTo32 * ((x + TwoTo31) / TwoTo32) == x + TwoTo31;
    m - TwoTo31
  }

  type Tags = map<string, string>

  /** The options that name a gauge; the measurement unit is carried but
      plays no part in identity. */
  datatype WavefrontGaugeOptions = WavefrontGaugeOptions(
    context: Option<string>, name: string, tags: Tags, unit: string)

  /** The parts of the options that identity depends on. */
  datatype GaugeKey = GaugeKey(context: Option<string>, name: string, tags: Tags)

  function Key(o: WavefrontGaugeOptions): GaugeKey {
    GaugeKey(o.context, o.name, o.tags)
  }

  /** The argument of `Equals(object)`: null, an object of another runtime
      type, or another gauge options object. */
  datatype Obj = Null | OtherType(typeName: string) | Gauge(options: WavefrontGaugeOptions)

  const NullReference := "NullReferenceException"

  /** `Equals`: false for null and for other runtime types; otherwise the
      receiver's context is dereferenced, so a null context throws. */
  function Equals(self: WavefrontGaugeOptions, obj: Obj): Result<bool, string> {
    match obj
    case Null => Success(false)
    case OtherType(_) => Success(false)
    case Gauge(other) =>
      if self.context.None? then Failure(NullReference)
      else Success(Some(self.context.value) == other.context
                   && self.name == other.name && self.tags == other.tags)
  }

  /** `GetHashCode`, given the hash functions of strings and of tag sets
      (both belong to the runtime and are opaque here). */
  function GetHashCode(o: WavefrontGaugeOptions, hashString: string -> Int32, hashTags: Tags -> Int32): Int32 {
    var h0 := 17;
    var h1 := Wrap32(h0 * 23 + (if o.context.None? then 0 else hashString(o.context.value)));
    var h2 := Wrap32(h1 * 23 + hashString(o.name));
    Wrap32(h2 * 23 + hashTags(o.tags))
  }

  // ---------------------------------------------------------------------

  /** Null and objects of other runtime types are never equal. */
  lemma NotEqualToNullOrOtherType(self: WavefrontGaugeOptions, typeName: string)
    ensures Equals(self, Null) == Success(false)
    ensures Equals(self, OtherType(typeName)) == Success(false)
  {
  }

  /** For a receiver with a context, `Equals` holds exactly when context,
      name and tags agree; the unit never matters. A receiver without a
      context throws. */
  lemma EqualsIffSameKey(self: WavefrontGaugeOptions, other: WavefrontGaugeOptions, unit: string)
    ensures self.context.None? <==> Equals(self, Gauge(other)).Failure?
    ensures self.context.Some? ==>
              (Equals(self, Gauge(other)) == Success(true) <==> Key(self) == Key(other))
    ensures Equals(self, Gauge(other)) == Equals(self, Gauge(other.(unit := unit)))
    ensures Equals(self, Gauge(other)) == Equals(self.(unit := unit), Gauge(other))
  {
  }

  /** Equal options hash alike. */
  lemma EqualImpliesSameHash(a: WavefrontGaugeOptions, b: WavefrontGaugeOptions,
                             hashString: string -> Int32, hashTags: Tags -> Int32)
    requires Equals(a, Gauge(b)) == Success(true)
    ensures GetHashCode(a, hashString, hashTags) == GetHashCode(b, hashString, hashTags)
  {
  }

  /** Numbers congruent modulo 2^32 wrap to the same int. */
  lemma {:induction false} WrapCongruent(x: int, y: int)
    requires (x - y) % TwoTo32 == 0
    ensures Wrap32(x) == Wrap32(y)
  {
    var d := (x - y) / TwoTo32;
    assert x == y + d * TwoTo32;
    assert (x + TwoTo31) == (y + TwoTo31) + d * TwoTo32;
    ModShift(y + TwoTo31, d);
  }

  lemma {:induction false} ModShift(a: int, d: int)
    ensures (a + d * TwoTo32) % TwoTo32 == a % TwoTo32
    decreases if d < 0 then -d else d
  {
    if d > 0 {
      ModShift(a, d - 1);
      assert a + d * TwoTo32 == (a + (d - 1) * TwoTo32) + TwoTo32;
    } else if d < 0 {
      ModShift(a, d + 1);
      assert a + d * TwoTo32 == (a + (d + 1) * TwoTo32) - TwoTo32;
    }
  }

  /** Wrapping an intermediate result does not change the final one. */
  lemma WrapStep(x: int, y: int)
    ensures Wrap32(Wrap32(x) * 23 + y) == Wrap32(x * 23 + y)
  {
    var w := Wrap32(x);
    var d := (w - x) / TwoTo32;
    assert w == x + d * TwoTo32;
    var e := d * 23;
    assert (w * 23 + y) - (x * 23 + y) == e * TwoTo32;
    ModShift(0, e);
    WrapCongruent(w * 23 + y, x * 23 + y);
  }

  /** The hash is ((17·23 + h(Context))·23 + h(Name))·23 + h(Tags) reduced
      to 32 bits, i.e. 17·23³ + 23²·h(Context) + 23·h(Name) + h(Tags); a null
      context contributes 0. */
  lemma HashClosedForm(o: WavefrontGaugeOptions, hashString: string -> Int32, hashTags: Tags -> Int32)
    ensures var c := if o.context.None? then 0 else hashString(o.context.value);
            GetHashCode(o, hashString, hashTags)
            == Wrap32(206839 + 529 * c + 23 * hashString(o.name) + hashTags(o.tags))
  {
    var c := if o.context.None? then 0 else hashString(o.context.value);
    var n := hashString(o.name);
    var t := hashTags(o.tags);
    WrapStep(17 * 23 + c, n);
    WrapStep((17 * 23 + c) * 23 + n, t);
    assert ((17 * 23 + c) * 23 + n) * 23 + t == 206839 + 529 * c + 23 * n + t;
  }
}
