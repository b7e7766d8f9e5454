/**
 * `SerializeTypeProperty` of OpenApiSchema: how the `type` keyword and the
 * nullability of a schema are written for OpenAPI 2.0 (`x-nullable`
 * extension), OpenAPI 3.0 (the `nullable` field) and OpenAPI 3.1 (`type` as an
 * array of type names, including `"null"`).
 *
 * `TypeMembers` is the specification of what one call appends to the writer;
 * the methods below are proved to append exactly that, and the lemmas state
 * the per-version behaviour.
 */
module TypeProperty {
  import opened Wrappers
  import opened JsonWriter
  import opened TypeAlgebra
  import opened SchemaModel
  import K = OpenApiConstants

  /** `isNullable`: `Nullable`, or the type is exactly Null, or an `x-nullable` extension that is JSON `true`. */
  predicate IsNullable(s: Schema) {
    s.nullable
    || s.schemaType == Some(Bit(Null))
    || LookupExtension(s.extensions, K.NullableExtension) == Some(JsonTrue)
  }

  /** The nullability property of the down-cast: `x-nullable` for 2.0, `nullable` otherwise. */
  function NullableKey(v: SpecVersion): string {
    if v == OpenApi2_0 then K.NullableExtension else K.Nullable
  }

  /** The type names of a list of flags. */
  function Identifiers(fs: seq<Flag>): (ids: seq<string>)
    ensures |ids| == |fs|
    ensures forall i :: 0 <= i < |fs| ==> ids[i] == Identifier(fs[i])
  {
    seq(|fs|, i requires 0 <= i < |fs| => Identifier(fs[i]))
  }

  /** Strings written one by one with `WriteValue`. */
  function StringValues(ss: seq<string>): (vs: seq<Value>)
    ensures |vs| == |ss|
    ensures forall i :: 0 <= i < |ss| ==> vs[i] == JString(ss[i])
  {
    seq(|ss|, i requires 0 <= i < |ss| => JString(ss[i]))
  }

  /** The JSON array of the names of `fs`. */
  function TypeArray(fs: seq<Flag>): Value {
    JArray(StringValues(Identifiers(fs)))
  }

  /** The `type` property carrying one type name. */
  function TypeName(name: string): Member {
    Member(K.Type, JString(name))
  }

  /** What `UpCastSchemaTypeToV31(type)` appends. */
  function UpCastMembers(t: JsonSchemaType): seq<Member> {
    var temporaryType := t | Bit(Null);
    FlagsOfIsEnumeration(temporaryType);
    assert Null in FlagsOf(temporaryType);
    var list := Identifiers(FlagsOf(temporaryType));
    if |list| > 1 then OptionalCollection(K.Type, StringValues(list))
    else StringProperty(K.Type, Some(list[0]))
  }

  /** What the `foreach` over the flags at lines 739-747 appends after visiting `fs`. */
  function NonNullTypeMembers(fs: seq<Flag>, t: JsonSchemaType): seq<Member>
    decreases |fs|
  {
    if fs == [] then []
    else
      var flag := fs[|fs| - 1];
      NonNullTypeMembers(fs[..|fs| - 1], t)
      + (if HasFlag(t, flag) && flag != Null then [TypeName(Identifier(flag))] else [])
  }

  /** What `DowncastTypeArrayToV2OrV3(type, version)` appends. */
  function DowncastMembers(t: JsonSchemaType, v: SpecVersion, nullable: bool): seq<Member> {
    if !HasMultipleTypes(t ^ Bit(Null)) && t & Bit(Null) == Bit(Null) then
      NonNullTypeMembers(Order, t) + (if !nullable then BoolProperty(NullableKey(v), true) else [])
    else if !HasMultipleTypes(t) then
      if t == Bit(Null) then BoolProperty(NullableKey(v), true)
      else StringProperty(K.Type, Some(ToIdentifier(t)))
    else []
  }

  /** The 3.1 list for several types: the set flags, then Null when `Nullable` asks for it and it is missing. */
  function V31TypeList(t: JsonSchemaType, nullable: bool): seq<Flag> {
    var list := FlagsOf(t);
    if nullable && Null !in list then list + [Null] else list
  }

  /** What `SerializeTypeProperty(Type, writer, version)` appends. */
  function TypeMembers(s: Schema, v: SpecVersion): seq<Member> {
    match s.schemaType
    case None =>
      if v == OpenApi3_0 && IsNullable(s) then BoolProperty(K.Nullable, true) else []
    case Some(t) =>
      if !HasMultipleTypes(t) then
        if v == OpenApi3_1 && IsNullable(s) then UpCastMembers(t)
        else if v == OpenApi3_0 && IsNullable(s) && t == Bit(Null) then
          BoolProperty(K.Nullable, true) + StringProperty(K.Type, Some(Identifier(Object)))
        else if v == OpenApi3_0 && IsNullable(s) && t != Bit(Null) then
          BoolProperty(K.Nullable, true) + StringProperty(K.Type, Some(ToIdentifier(t)))
        else StringProperty(K.Type, Some(ToIdentifier(t)))
      else if v == OpenApi2_0 || v == OpenApi3_0 then DowncastMembers(t, v, s.nullable)
      else OptionalCollection(K.Type, StringValues(Identifiers(V31TypeList(t, s.nullable))))
  }

  method SerializeTypeProperty(s: Schema, w: ObjectWriter, v: SpecVersion)
    modifies w
    ensures w.members == old(w.members) + TypeMembers(s, v)
  {
    var isNullable := s.nullable
      || s.schemaType == Some(Bit(Null))
      || LookupExtension(s.extensions, K.NullableExtension) == Some(JsonTrue);
    if s.schemaType.None? {
      if v == OpenApi3_0 && isNullable {
        w.WriteBoolProperty(K.Nullable, true);
      }
    } else if !HasMultipleTypes(s.schemaType.value) {
      var t := s.schemaType.value;
      if v == OpenApi3_1 && isNullable {
        UpCastSchemaTypeToV31(t, w);
      } else if v == OpenApi3_0 && isNullable && t == Bit(Null) {
        w.WriteBoolProperty(K.Nullable, true);
        w.WriteStringProperty(K.Type, Some(Identifier(Object)));
      } else if v == OpenApi3_0 && isNullable && t != Bit(Null) {
        w.WriteBoolProperty(K.Nullable, true);
        w.WriteStringProperty(K.Type, Some(ToIdentifier(t)));
      } else {
        w.WriteStringProperty(K.Type, Some(ToIdentifier(t)));
      }
    } else {
      var t := s.schemaType.value;
      if v == OpenApi2_0 || v == OpenApi3_0 {
        DowncastTypeArrayToV2OrV3(s, t, w, v);
      } else {
        var list := FlagsOf(t);
        if s.nullable && Null !in list {
          list := list + [Null];
        }
        w.WriteOptionalCollection(K.Type, StringValues(Identifiers(list)));
      }
    }
  }

  method UpCastSchemaTypeToV31(t: JsonSchemaType, w: ObjectWriter)
    modifies w
    ensures w.members == old(w.members) + UpCastMembers(t)
  {
    var temporaryType := t | Bit(Null);
    FlagsOfIsEnumeration(temporaryType);
    assert Null in FlagsOf(temporaryType);
    var list := Identifiers(FlagsOf(temporaryType));
    if |list| > 1 {
      w.WriteOptionalCollection(K.Type, StringValues(list));
    } else {
      w.WriteStringProperty(K.Type, Some(list[0]));
    }
  }

  method DowncastTypeArrayToV2OrV3(s: Schema, t: JsonSchemaType, w: ObjectWriter, v: SpecVersion)
    modifies w
    ensures w.members == old(w.members) + DowncastMembers(t, v, s.nullable)
  {
    var nullableProp := if v == OpenApi2_0 then K.NullableExtension else K.Nullable;
    if !HasMultipleTypes(t ^ Bit(Null)) && t & Bit(Null) == Bit(Null) {
      for i := 0 to |Order|
        invariant w.members == old(w.members) + NonNullTypeMembers(Order[..i], t)
      {
        var flag := Order[i];
        assert Order[..i + 1][..i] == Order[..i];
        if HasFlag(t, flag) && flag != Null {
          w.WriteStringProperty(K.Type, Some(Identifier(flag)));
        }
      }
      assert Order[..|Order|] == Order;
      if !s.nullable {
        w.WriteBoolProperty(nullableProp, true);
      }
    } else if !HasMultipleTypes(t) {
      if t == Bit(Null) {
        w.WriteBoolProperty(nullableProp, true);
      } else {
        w.WriteStringProperty(K.Type, Some(ToIdentifier(t)));
      }
    }
  }

  // ---------------------------------------------------------------------------
  // Properties of the type writer
  // ---------------------------------------------------------------------------

  /** `ToIdentifier` of a single flag's value is that flag's name. */
  lemma ToIdentifierOfBit(f: Flag)
    ensures IsPowerOfTwo(Bit(f)) && ToIdentifier(Bit(f)) == Identifier(f)
  {
    var g := TheFlag(Bit(f));
  }

  /**
   * A single non-null type, with `Nullable` false and no `x-nullable: true`
   * extension, is written as one `type` property carrying its name and no
   * nullability property, in every version.
   */
  lemma SingleTypeWrittenAlone(s: Schema, f: Flag, v: SpecVersion)
    requires s.schemaType == Some(Bit(f)) && f != Null
    requires !s.nullable && LookupExtension(s.extensions, K.NullableExtension) != Some(JsonTrue)
    ensures TypeMembers(s, v) == [TypeName(Identifier(f))]
  {
    HasMultipleTypesIff(Bit(f));
    ToIdentifierOfBit(f);
  }

  /** The two flags `f` and `g` (distinct) in enumeration order. */
  function OrderedPair(f: Flag, g: Flag): seq<Flag> {
    if Position(f) < Position(g) then [f, g] else [g, f]
  }

  /** The flags of a non-null flag together with Null are that pair, in enumeration order. */
  lemma FlagsWithNull(f: Flag)
    requires f != Null
    ensures FlagsOf(Bit(f) | Bit(Null)) == OrderedPair(f, Null)
  {
    var t := Bit(f) | Bit(Null);
    FlagsOfIsEnumeration(t);
    var fs := FlagsOf(t);
    assert HasFlag(t, f) && HasFlag(t, Null) && Count(t) == 2;
    assert f in fs && Null in fs && |fs| == 2;
    var i :| 0 <= i < 2 && fs[i] == Null;
    var j :| 0 <= j < 2 && fs[j] == f;
    assert i == 0;
  }

  /**
   * OpenAPI 3.1, one type and nullable: the type is up-cast to `type | Null`.
   * For Null itself the scalar `"null"` is written; for any other type an
   * array of the two names in enumeration order.
   */
  lemma V31NullableSingleType(s: Schema, f: Flag)
    requires s.schemaType == Some(Bit(f)) && IsNullable(s)
    ensures f == Null ==> TypeMembers(s, OpenApi3_1) == [TypeName("null")]
    ensures f != Null ==> TypeMembers(s, OpenApi3_1) == [Member(K.Type, TypeArray(OrderedPair(f, Null)))]
  {
    HasMultipleTypesIff(Bit(f));
    if f == Null {
      assert Bit(f) | Bit(Null) == Bit(Null);
      assert TheFlag(Bit(Null)) == Null;
    } else {
      FlagsWithNull(f);
    }
  }

  /**
   * OpenAPI 3.0, one type and nullable: `nullable: true` is written first and
   * then `type`, whose token is `"object"` when the type is Null.
   */
  lemma V30NullableSingleType(s: Schema, f: Flag)
    requires s.schemaType == Some(Bit(f)) && IsNullable(s)
    ensures TypeMembers(s, OpenApi3_0)
         == [Member(K.Nullable, JBool(true)), TypeName(if f == Null then "object" else Identifier(f))]
  {
    HasMultipleTypesIff(Bit(f));
    ToIdentifierOfBit(f);
  }

  /** With no type at all, only OpenAPI 3.0 writes anything: `nullable: true` when the schema is nullable. */
  lemma NoTypeWritesOnlyNullable(s: Schema, v: SpecVersion)
    requires s.schemaType.None?
    ensures TypeMembers(s, v)
         == if v == OpenApi3_0 && IsNullable(s) then [Member(K.Nullable, JBool(true))] else []
  {
  }

  /**
   * Down-cast to 2.0 or 3.0 of exactly one concrete type plus Null: that one
   * type name is written, then the version's nullability property, but only
   * when `Nullable` is false.
   */
  lemma DowncastOneTypeAndNull(s: Schema, f: Flag, v: SpecVersion)
    requires f != Null && s.schemaType == Some(Bit(f) | Bit(Null))
    requires v == OpenApi2_0 || v == OpenApi3_0
    ensures TypeMembers(s, v)
         == [TypeName(Identifier(f))] + (if s.nullable then [] else [Member(NullableKey(v), JBool(true))])
  {
    var t := Bit(f) | Bit(Null);
    FlagsWithNull(f);
    HasMultipleTypesIff(t);
    assert t ^ Bit(Null) == Bit(f);
    HasMultipleTypesIff(Bit(f));
    ForeachWritesFlagsOf(Order, t);
    assert FlagsOf(t) == [Null, f];
    assert [Null, f][1..] == [f] && [f][1..] == [];
    assert NamesWithoutNull([f]) == [TypeName(Identifier(f))];
    assert NamesWithoutNull([Null, f]) == NamesWithoutNull([f]);
    assert NonNullTypeMembers(Order, t) == [TypeName(Identifier(f))];
  }

  /** The `foreach` writes one `type` property per non-null flag of `fs` set in `t`. */
  lemma {:induction false} ForeachWritesFlagsOf(fs: seq<Flag>, t: JsonSchemaType)
    ensures NonNullTypeMembers(fs, t) == NamesWithoutNull(Filter(fs, t))
    decreases |fs|
  {
    if fs != [] {
      var init, last := fs[..|fs| - 1], fs[|fs| - 1];
      ForeachWritesFlagsOf(init, t);
      if HasFlag(t, last) {
        NamesWithoutNullSnoc(Filter(init, t), last);
      } else {
        assert Filter(fs, t) == Filter(init, t);
      }
    }
  }

  /** One `type` property per non-null flag of `fs`, in order. */
  function NamesWithoutNull(fs: seq<Flag>): seq<Member>
    decreases |fs|
  {
    if fs == [] then []
    else (if fs[0] != Null then [TypeName(Identifier(fs[0]))] else []) + NamesWithoutNull(fs[1..])
  }

  lemma {:induction false} NamesWithoutNullSnoc(fs: seq<Flag>, f: Flag)
    ensures NamesWithoutNull(fs + [f]) == NamesWithoutNull(fs) + (if f != Null then [TypeName(Identifier(f))] else [])
    decreases |fs|
  {
    if fs == [] {
      assert [f][1..] == [];
    } else {
      assert (fs + [f])[1..] == fs[1..] + [f];
      NamesWithoutNullSnoc(fs[1..], f);
    }
  }

  /**
   * Down-cast to 2.0 or 3.0 of any other set of several types (two or more
   * concrete types, or none at all) writes nothing: the `else if` at line 753
   * cannot be taken under the caller's guard at line 648.
   */
  lemma DowncastOtherSetsWriteNothing(s: Schema, t: JsonSchemaType, v: SpecVersion)
    requires s.schemaType == Some(t) && HasMultipleTypes(t)
    requires forall f :: f != Null ==> t != Bit(f) | Bit(Null)
    requires v == OpenApi2_0 || v == OpenApi3_0
    ensures TypeMembers(s, v) == []
  {
    if !HasMultipleTypes(t ^ Bit(Null)) && t & Bit(Null) == Bit(Null) {
      HasMultipleTypesIff(t ^ Bit(Null));
      var g := TheFlag(t ^ Bit(Null));
      assert false;
    }
  }

  /**
   * OpenAPI 3.1 with several types: `type` is the array of the set flags in
   * enumeration order, followed by Null only when `Nullable` is true and Null
   * is not set; the empty list writes nothing.
   */
  lemma V31SeveralTypes(s: Schema, t: JsonSchemaType)
    requires s.schemaType == Some(t) && HasMultipleTypes(t)
    ensures var list, n := V31TypeList(t, s.nullable), |FlagsOf(t)|;
      && TypeMembers(s, OpenApi3_1) == (if list == [] then [] else [Member(K.Type, TypeArray(list))])
      && n == Count(t) && n <= |list|
      && InEnumerationOrder(list[..n])
      && (forall f :: f in list[..n] <==> HasFlag(t, f))
      && list[n..] == (if s.nullable && !HasFlag(t, Null) then [Null] else [])
  {
    FlagsOfIsEnumeration(t);
  }

  /**
   * The nullable single type of OpenAPI 2.0 and 3.0 survives a trip through
   * 3.1: `{f}` marked nullable is written for 3.1 as the array of `f | Null`,
   * and that two-flag value, written back for 2.0 or 3.0 with `Nullable`
   * false, gives `type: f` plus the version's nullability property.
   */
  lemma NullableSingleTypeRoundTrip(up: Schema, down: Schema, f: Flag, v: SpecVersion)
    requires f != Null && up.schemaType == Some(Bit(f)) && IsNullable(up)
    requires down.schemaType == Some(Bit(f) | Bit(Null)) && !down.nullable
    requires v == OpenApi2_0 || v == OpenApi3_0
    ensures TypeMembers(up, OpenApi3_1) == [Member(K.Type, TypeArray(FlagsOf(down.schemaType.value)))]
    ensures TypeMembers(down, v) == [TypeName(Identifier(f)), Member(NullableKey(v), JBool(true))]
  {
    V31NullableSingleType(up, f);
    FlagsWithNull(f);
    DowncastOneTypeAndNull(down, f, v);
  }

  /** The `foreach` writes only `type` properties. */
  lemma {:induction false} NonNullTypeMemberKeys(fs: seq<Flag>, t: JsonSchemaType)
    ensures forall m :: m in NonNullTypeMembers(fs, t) ==> m.key == K.Type
    decreases |fs|
  {
    if fs != [] {
      NonNullTypeMemberKeys(fs[..|fs| - 1], t);
    }
  }

  /**
   * The type writer emits only `type` and the version's nullability property:
   * `x-nullable` for 2.0, `nullable` for 3.0, and none for 3.1.
   */
  lemma TypeMemberKeys(s: Schema, v: SpecVersion)
    ensures forall m :: m in TypeMembers(s, v) ==> m.key == K.Type || (v != OpenApi3_1 && m.key == NullableKey(v))
  {
    if s.schemaType.Some? {
      NonNullTypeMemberKeys(Order, s.schemaType.value);
    }
  }
}
