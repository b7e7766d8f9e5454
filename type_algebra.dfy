/**
 * The `JsonSchemaType` flag enumeration: the value of the Schema Object's
 * `type` keyword as a set of primitive kinds, with the two predicates the
 * schema serializer uses to tell a single type from several.
 *
 * The enum declaration is not part of this model. The flags are assumed to be
 * the seven single bits below; `Enum.GetValues` enumerates them in ascending
 * numeric order, which is `Order`. Every value of the 7-bit type is a
 * combination of the named flags, and every such value lies in 0..127, so the
 * 7-bit arithmetic agrees with the 32-bit `int` arithmetic of the source.
 */
module TypeAlgebra {

  datatype Flag = Null | Boolean | Integer | Number | String | Object | Array

  /** The order in which `Enum.GetValues<JsonSchemaType>()` lists the flags. */
  const Order: seq<Flag> := [Null, Boolean, Integer, Number, String, Object, Array]

  type JsonSchemaType = bv7

  /** The numeric value of a single flag. */
  function Bit(f: Flag): JsonSchemaType {
    match f
    case Null => 1
    case Boolean => 2
    case Integer => 4
    case Number => 8
    case String => 16
    case Object => 32
    case Array => 64
  }

  /** `ToIdentifier` of a single flag: the keyword token of the primitive kind. */
  function Identifier(f: Flag): string {
    match f
    case Null => "null"
    case Boolean => "boolean"
    case Integer => "integer"
    case Number => "number"
    case String => "string"
    case Object => "object"
    case Array => "array"
  }

  /** `Enum.HasFlag`: every bit of `f` is set in `t`. */
  predicate HasFlag(t: JsonSchemaType, f: Flag) {
    t & Bit(f) == Bit(f)
  }

  /** `IsPowerOfTwo` of OpenApiSchema. */
  predicate IsPowerOfTwo(x: JsonSchemaType) {
    x != 0 && x & (x - 1) == 0
  }

  /** `HasMultipleTypes` of OpenApiSchema. */
  predicate HasMultipleTypes(t: JsonSchemaType) {
    !IsPowerOfTwo(t) && t != Bit(Null)
  }

  /** The flags of `fs` that are set in `t`, in the order of `fs`. */
  function Filter(fs: seq<Flag>, t: JsonSchemaType): seq<Flag>
    decreases |fs|
  {
    if fs == [] then []
    else Filter(fs[..|fs| - 1], t) + (if HasFlag(t, fs[|fs| - 1]) then [fs[|fs| - 1]] else [])
  }

  /** The flags set in `t` in enumeration order (the LINQ query over `jsonSchemaTypeValues`). */
  function FlagsOf(t: JsonSchemaType): seq<Flag> {
    Filter(Order, t)
  }

  /** The position of a flag in the enumeration order. */
  function Position(f: Flag): nat {
    match f
    case Null => 0
    case Boolean => 1
    case Integer => 2
    case Number => 3
    case String => 4
    case Object => 5
    case Array => 6
  }

  /** Strictly increasing in enumeration order (so also free of duplicates). */
  predicate InEnumerationOrder(fs: seq<Flag>) {
    forall i, j :: 0 <= i < j < |fs| ==> Position(fs[i]) < Position(fs[j])
  }

  /** The number of flags set in `t`. */
  function Count(t: JsonSchemaType): nat {
    (if HasFlag(t, Null) then 1 else 0) + (if HasFlag(t, Boolean) then 1 else 0)
    + (if HasFlag(t, Integer) then 1 else 0) + (if HasFlag(t, Number) then 1 else 0)
    + (if HasFlag(t, String) then 1 else 0) + (if HasFlag(t, Object) then 1 else 0)
    + (if HasFlag(t, Array) then 1 else 0)
  }

  /** `Order` lists each flag at its position. */
  lemma OrderPositions()
    ensures |Order| == 7
    ensures forall i :: 0 <= i < 7 ==> Position(Order[i]) == i
    ensures forall f: Flag :: Order[Position(f)] == f
  {
  }

  /** Filtering keeps exactly the listed flags that are set. */
  lemma {:induction false} FilterMembers(fs: seq<Flag>, t: JsonSchemaType)
    ensures forall f :: f in Filter(fs, t) <==> f in fs && HasFlag(t, f)
    decreases |fs|
  {
    if fs != [] {
      FilterMembers(fs[..|fs| - 1], t);
      var init := fs[..|fs| - 1];
      assert fs == init + [fs[|fs| - 1]];
    }
  }

  /** Filtering a strictly ordered list gives a strictly ordered list. */
  lemma {:induction false} FilterOrdered(fs: seq<Flag>, t: JsonSchemaType)
    requires InEnumerationOrder(fs)
    ensures InEnumerationOrder(Filter(fs, t))
    decreases |fs|
  {
    if fs != [] {
      var init := fs[..|fs| - 1];
      var last := fs[|fs| - 1];
      assert InEnumerationOrder(init);
      FilterOrdered(init, t);
      FilterMembers(init, t);
      var r := Filter(init, t);
      forall i | 0 <= i < |r|
        ensures Position(r[i]) < Position(last)
      {
        assert r[i] in init;
        var k :| 0 <= k < |init| && init[k] == r[i];
      }
    }
  }

  /** The flags of `t` are listed once each, in enumeration order, and are exactly the set flags. */
  lemma FlagsOfIsEnumeration(t: JsonSchemaType)
    ensures forall f :: f in FlagsOf(t) <==> HasFlag(t, f)
    ensures InEnumerationOrder(FlagsOf(t))
    ensures |FlagsOf(t)| == Count(t)
  {
    OrderPositions();
    FilterMembers(Order, t);
    FilterOrdered(Order, t);
    var fs := FlagsOf(t);
    CountEqualsLength(t);
  }

  /** Filtering one more flag at the end adds it when it is set. */
  lemma FilterSnoc(fs: seq<Flag>, f: Flag, t: JsonSchemaType)
    ensures |Filter(fs + [f], t)| == |Filter(fs, t)| + (if HasFlag(t, f) then 1 else 0)
  {
    assert (fs + [f])[..|fs|] == fs;
  }

  /** The length of the enumeration is the number of set flags. */
  lemma CountEqualsLength(t: JsonSchemaType)
    ensures |FlagsOf(t)| == Count(t)
  {
    var p0: seq<Flag> := [];
    var p1 := p0 + [Null];
    var p2 := p1 + [Boolean];
    var p3 := p2 + [Integer];
    var p4 := p3 + [Number];
    var p5 := p4 + [String];
    var p6 := p5 + [Object];
    var p7 := p6 + [Array];
    assert |Filter(p0, t)| == 0;
    FilterSnoc(p0, Null, t);
    FilterSnoc(p1, Boolean, t);
    FilterSnoc(p2, Integer, t);
    FilterSnoc(p3, Number, t);
    FilterSnoc(p4, String, t);
    FilterSnoc(p5, Object, t);
    FilterSnoc(p6, Array, t);
    assert p7 == Order;
  }

  /** A bit pattern is a power of two exactly when one flag is set in it. */
  lemma PowerOfTwoIffOneFlag(t: JsonSchemaType)
    ensures IsPowerOfTwo(t) <==> Count(t) == 1
  {
  }

  /**
   * `HasMultipleTypes` holds exactly when the number of set flags is not one:
   * the empty value and every combination of two or more flags, but no single
   * flag. Its `!= Null` conjunct never decides the result, since Null is
   * itself a single bit.
   */
  lemma HasMultipleTypesIff(t: JsonSchemaType)
    ensures HasMultipleTypes(t) <==> |FlagsOf(t)| != 1
    ensures HasMultipleTypes(t) <==> !IsPowerOfTwo(t)
    ensures HasMultipleTypes(0)
    ensures forall f :: !HasMultipleTypes(Bit(f))
  {
    FlagsOfIsEnumeration(t);
    PowerOfTwoIffOneFlag(t);
  }

  /** The single flag of a power-of-two value. */
  function TheFlag(t: JsonSchemaType): (f: Flag)
    requires IsPowerOfTwo(t)
    ensures Bit(f) == t && FlagsOf(t) == [f]
  {
    FlagsOfIsEnumeration(t);
    PowerOfTwoIffOneFlag(t);
    var f := FlagsOf(t)[0];
    assert f in FlagsOf(t);
    f
  }

  /** `ToIdentifier` of a single-flag value. */
  function ToIdentifier(t: JsonSchemaType): string
    requires IsPowerOfTwo(t)
  {
    Identifier(TheFlag(t))
  }
}
