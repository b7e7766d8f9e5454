/** The usual optional value: `None` stands for a C# `null`. */
module Wrappers {
  datatype Option<+T> = None | Some(value: T)
}

/**
 * The writer the schema serializer talks to (`IOpenApiWriter` and the
 * `WriteProperty` / `WriteOptional*` extension methods), modelled as an
 * append-only log of (key, value) events.
 *
 * One `ObjectWriter` holds the events written between one `WriteStartObject`
 * and its `WriteEndObject`; a nested object is written into a writer of its
 * own and the finished log is embedded in the parent as a `JObject` value.
 * Text production (JSON or YAML formatting) is not part of this model.
 *
 * The writer extension methods are not part of this model either. Their
 * suppression of absent and default values is taken to be: a string, `int?`,
 * `decimal?` or `bool?` property is skipped when null; a `bool` property
 * written with an explicit default (`WriteProperty(name, value, false)`) is
 * skipped when it equals that default, while one written without a default
 * (`WriteProperty(name, value)`) is always written; an optional collection or
 * map is skipped when null or empty; an optional object is skipped when null.
 */
module JsonWriter {
  import opened Wrappers

  /** `OpenApiSpecVersion`: OpenAPI 2.0, 3.0 and 3.1. */
  datatype SpecVersion = OpenApi2_0 | OpenApi3_0 | OpenApi3_1

  /** A JSON node (`JsonNode`) that the core copies and writes but never inspects. */
  datatype JsonNode = JsonNode(token: nat)

  /** A `decimal?` bound, carried as its literal; the core does no arithmetic on it. */
  datatype Decimal = Decimal(literal: string)

  /**
   * An object written by its own serializer, which is not part of this model
   * (the external documentation object, the XML object, the discriminator).
   */
  datatype Element = Element(token: nat)

  /** The value of an extension: an `OpenApiAny` whose node is JSON `true`, or anything else. */
  datatype ExtensionValue = JsonTrue | OtherExtension(node: JsonNode)

  /** One entry of an `Extensions` dictionary, in dictionary order. */
  datatype Extension = Extension(key: string, value: ExtensionValue)

  datatype Value =
    | JString(s: string)
    | JBool(b: bool)
    | JInt(i: int)
    | JDecimal(d: Decimal)
    | JNode(node: JsonNode)
    | JArray(items: seq<Value>)
    | JObject(members: seq<Member>)
      /** `element.SerializeAsV2/V3/V31(writer)` of an element this model does not look into. */
    | JElement(element: Element, version: SpecVersion)

  /** One event of the log: a property name and the value written after it. */
  datatype Member = Member(key: string, value: Value)

  /** Some event of the log carries `key`. */
  predicate HasKey(ms: seq<Member>, key: string) {
    exists m :: m in ms && m.key == key
  }

  /** The events of `ms` that carry `key`, in order. */
  function Occurrences(ms: seq<Member>, key: string): seq<Member>
    decreases |ms|
  {
    if ms == [] then []
    else
      var init := ms[..|ms| - 1];
      assert ms == init + [ms[|ms| - 1]];
      Occurrences(init, key) + (if ms[|ms| - 1].key == key then [ms[|ms| - 1]] else [])
  }

  /** Looking up a key in two logs written one after the other looks it up in each. */
  lemma {:induction false} OccurrencesAppend(a: seq<Member>, b: seq<Member>, key: string)
    ensures Occurrences(a + b, key) == Occurrences(a, key) + Occurrences(b, key)
    decreases |b|
  {
    if b == [] {
      assert a + b == a;
    } else {
      var init := b[..|b| - 1];
      assert (a + b)[..|a + b| - 1] == a + init;
      OccurrencesAppend(a, init, key);
    }
  }

  /** The occurrences of `key` are the events of the log that carry it. */
  lemma {:induction false} OccurrencesMembers(ms: seq<Member>, key: string)
    ensures forall m :: m in Occurrences(ms, key) <==> m in ms && m.key == key
    decreases |ms|
  {
    if ms != [] {
      var init := ms[..|ms| - 1];
      assert ms == init + [ms[|ms| - 1]];
      OccurrencesMembers(init, key);
    }
  }

  /** A key no event carries has no occurrences. */
  lemma NoOccurrences(ms: seq<Member>, key: string)
    requires forall m :: m in ms ==> m.key != key
    ensures Occurrences(ms, key) == []
  {
    OccurrencesMembers(ms, key);
    if Occurrences(ms, key) != [] {
      assert Occurrences(ms, key)[0] in Occurrences(ms, key);
    }
  }

  /** Appending a log without `key` leaves the occurrences of `key` as they were. */
  lemma OccurrencesAppendNone(a: seq<Member>, b: seq<Member>, key: string)
    requires Occurrences(b, key) == []
    ensures Occurrences(a + b, key) == Occurrences(a, key)
  {
    OccurrencesAppend(a, b, key);
  }

  /** A log whose every event carries `key` is its own list of occurrences. */
  lemma {:induction false} OccurrencesAllKey(ms: seq<Member>, key: string)
    requires forall m :: m in ms ==> m.key == key
    ensures Occurrences(ms, key) == ms
    decreases |ms|
  {
    if ms != [] {
      var init := ms[..|ms| - 1];
      assert ms == init + [ms[|ms| - 1]];
      OccurrencesAllKey(init, key);
    }
  }

  /** Appending to a log without `key` gives the occurrences of what is appended. */
  lemma OccurrencesAppendFirst(a: seq<Member>, b: seq<Member>, key: string)
    requires Occurrences(a, key) == []
    ensures Occurrences(a + b, key) == Occurrences(b, key)
  {
    OccurrencesAppend(a, b, key);
  }

  /** Four logs written one after the other, of which at most one is not empty. */
  lemma Pick4(a: seq<Member>, b: seq<Member>, c: seq<Member>, d: seq<Member>)
    ensures b == [] && c == [] && d == [] ==> a + b + c + d == a
    ensures a == [] && c == [] && d == [] ==> a + b + c + d == b
    ensures a == [] && b == [] && d == [] ==> a + b + c + d == c
    ensures a == [] && b == [] && c == [] ==> a + b + c + d == d
    ensures a == [] && b == [] && c == [] && d == [] ==> a + b + c + d == []
  {
  }

  /** Six logs written one after the other, of which at most one is not empty. */
  lemma Pick6(a: seq<Member>, b: seq<Member>, c: seq<Member>, d: seq<Member>, e: seq<Member>, f: seq<Member>)
    ensures a == [] && b == [] && c == [] && e == [] && f == [] ==> a + b + c + d + e + f == d
    ensures a == [] && b == [] && c == [] && d == [] && f == [] ==> a + b + c + d + e + f == e
    ensures a == [] && b == [] && c == [] && d == [] && e == [] ==> a + b + c + d + e + f == f
    ensures a == [] && b == [] && c == [] && d == [] && e == [] && f == [] ==> a + b + c + d + e + f == []
  {
  }

  /** Every event of `ms` carries one of the keys `ks`. */
  predicate KeysIn(ms: seq<Member>, ks: set<string>) {
    forall m :: m in ms ==> m.key in ks
  }

  /** Two logs whose keys come from `ks` make one whose keys come from `ks`. */
  lemma KeysInAppend(a: seq<Member>, b: seq<Member>, ks: set<string>)
    requires KeysIn(a, ks) && KeysIn(b, ks)
    ensures KeysIn(a + b, ks)
  {
  }

  /** A key outside `ks` has no occurrences in a log whose keys come from `ks`. */
  lemma KeyAbsent(ms: seq<Member>, ks: set<string>, key: string)
    requires KeysIn(ms, ks) && key !in ks
    ensures Occurrences(ms, key) == []
  {
    NoOccurrences(ms, key);
  }

  /** What `WriteProperty(name, string)` appends. */
  function StringProperty(key: string, value: Option<string>): seq<Member> {
    if value.Some? then [Member(key, JString(value.value))] else []
  }

  /** What `WriteProperty(name, decimal?)` appends. */
  function DecimalProperty(key: string, value: Option<Decimal>): seq<Member> {
    if value.Some? then [Member(key, JDecimal(value.value))] else []
  }

  /** What `WriteProperty(name, int?)` appends. */
  function IntProperty(key: string, value: Option<int>): seq<Member> {
    if value.Some? then [Member(key, JInt(value.value))] else []
  }

  /** What `WriteProperty(name, bool)` appends: the value, whatever it is. */
  function BoolProperty(key: string, value: bool): seq<Member> {
    [Member(key, JBool(value))]
  }

  /** What `WriteProperty(name, bool, defaultValue)` appends. */
  function FlagProperty(key: string, value: bool, default: bool): seq<Member> {
    if value != default then [Member(key, JBool(value))] else []
  }

  /** What `WriteProperty(name, bool?)` appends. */
  function OptionalFlagProperty(key: string, value: Option<bool>): seq<Member> {
    if value.Some? then [Member(key, JBool(value.value))] else []
  }

  /** What `WriteOptionalCollection(name, elements, ...)` appends, the elements already written. */
  function OptionalCollection(key: string, items: seq<Value>): seq<Member> {
    if items != [] then [Member(key, JArray(items))] else []
  }

  /** What `WriteOptionalMap(name, elements, ...)` appends, the entries already written. */
  function OptionalMap(key: string, entries: seq<Member>): seq<Member> {
    if entries != [] then [Member(key, JObject(entries))] else []
  }

  /** What `WriteOptionalObject(name, value, ...)` appends, the value already written. */
  function OptionalObject(key: string, value: Option<Value>): seq<Member> {
    if value.Some? then [Member(key, value.value)] else []
  }

  /** The written form of one extension value. */
  function ExtensionValueOf(v: ExtensionValue): Value {
    match v
    case JsonTrue => JBool(true)
    case OtherExtension(node) => JNode(node)
  }

  /** What `WriteExtensions(extensions, version)` appends: every entry, in order. */
  function ExtensionMembers(exts: seq<Extension>): seq<Member>
    decreases |exts|
  {
    if exts == [] then []
    else ExtensionMembers(exts[..|exts| - 1])
         + [Member(exts[|exts| - 1].key, ExtensionValueOf(exts[|exts| - 1].value))]
  }

  /** Every extension event carries the key of some extension entry. */
  lemma ExtensionMemberKeysFrom(exts: seq<Extension>)
    ensures forall m :: m in ExtensionMembers(exts) ==> exists e :: e in exts && e.key == m.key
  {
    ExtensionMemberKeys(exts);
    forall m | m in ExtensionMembers(exts)
      ensures exists e :: e in exts && e.key == m.key
    {
      var i :| 0 <= i < |ExtensionMembers(exts)| && ExtensionMembers(exts)[i] == m;
      assert exts[i] in exts;
    }
  }

  /** The extension events are the extension entries, key for key. */
  lemma {:induction false} ExtensionMemberKeys(exts: seq<Extension>)
    ensures |ExtensionMembers(exts)| == |exts|
    ensures forall i :: 0 <= i < |exts| ==> ExtensionMembers(exts)[i].key == exts[i].key
    decreases |exts|
  {
    if exts != [] {
      ExtensionMemberKeys(exts[..|exts| - 1]);
    }
  }

  /** Looking up a key in a log of at most one event. */
  lemma OccurrencesAtMostOne(ms: seq<Member>, key: string)
    requires |ms| <= 1
    ensures Occurrences(ms, key) == if ms != [] && ms[0].key == key then ms else []
  {
    if ms != [] {
      assert ms[..0] == [];
    }
  }

  /** A single-key writer writes nothing under another key, and only its own key under that key. */
  lemma StringKeyed(k: string, value: Option<string>, key: string)
    ensures Occurrences(StringProperty(k, value), key) == if k == key then StringProperty(k, value) else []
  {
    OccurrencesAtMostOne(StringProperty(k, value), key);
  }

  lemma BoolKeyed(k: string, value: bool, key: string)
    ensures Occurrences(BoolProperty(k, value), key) == if k == key then BoolProperty(k, value) else []
  {
    OccurrencesAtMostOne(BoolProperty(k, value), key);
  }

  lemma FlagKeyed(k: string, value: bool, default: bool, key: string)
    ensures Occurrences(FlagProperty(k, value, default), key) == if k == key then FlagProperty(k, value, default) else []
  {
    OccurrencesAtMostOne(FlagProperty(k, value, default), key);
  }

  lemma CollectionKeyed(k: string, items: seq<Value>, key: string)
    ensures Occurrences(OptionalCollection(k, items), key) == if k == key then OptionalCollection(k, items) else []
  {
    OccurrencesAtMostOne(OptionalCollection(k, items), key);
  }

  lemma MapKeyed(k: string, entries: seq<Member>, key: string)
    ensures Occurrences(OptionalMap(k, entries), key) == if k == key then OptionalMap(k, entries) else []
  {
    OccurrencesAtMostOne(OptionalMap(k, entries), key);
  }

  lemma ObjectKeyed(k: string, value: Option<Value>, key: string)
    ensures Occurrences(OptionalObject(k, value), key) == if k == key then OptionalObject(k, value) else []
  {
    OccurrencesAtMostOne(OptionalObject(k, value), key);
  }

  /** Appending in two steps appends the concatenation; lets writers account for one write at a time. */
  lemma AppendAssoc(a: seq<Member>, b: seq<Member>, c: seq<Member>)
    ensures a + (b + c) == (a + b) + c
  {
  }

  /** The event log of one JSON object under construction. */
  class ObjectWriter {
    var members: seq<Member>

    /** `WriteStartObject`: a new, empty object. */
    constructor ()
      ensures members == []
    {
      members := [];
    }

    method WriteStringProperty(key: string, value: Option<string>)
      modifies this
      ensures members == old(members) + StringProperty(key, value)
    {
      if value.Some? {
        members := members + [Member(key, JString(value.value))];
      }
    }

    method WriteDecimalProperty(key: string, value: Option<Decimal>)
      modifies this
      ensures members == old(members) + DecimalProperty(key, value)
    {
      if value.Some? {
        members := members + [Member(key, JDecimal(value.value))];
      }
    }

    method WriteIntProperty(key: string, value: Option<int>)
      modifies this
      ensures members == old(members) + IntProperty(key, value)
    {
      if value.Some? {
        members := members + [Member(key, JInt(value.value))];
      }
    }

    method WriteBoolProperty(key: string, value: bool)
      modifies this
      ensures members == old(members) + BoolProperty(key, value)
    {
      members := members + [Member(key, JBool(value))];
    }

    method WriteFlagProperty(key: string, value: bool, default: bool)
      modifies this
      ensures members == old(members) + FlagProperty(key, value, default)
    {
      if value != default {
        members := members + [Member(key, JBool(value))];
      }
    }

    method WriteOptionalFlagProperty(key: string, value: Option<bool>)
      modifies this
      ensures members == old(members) + OptionalFlagProperty(key, value)
    {
      if value.Some? {
        members := members + [Member(key, JBool(value.value))];
      }
    }

    method WriteOptionalCollection(key: string, items: seq<Value>)
      modifies this
      ensures members == old(members) + OptionalCollection(key, items)
    {
      if items != [] {
        members := members + [Member(key, JArray(items))];
      }
    }

    method WriteOptionalMap(key: string, entries: seq<Member>)
      modifies this
      ensures members == old(members) + OptionalMap(key, entries)
    {
      if entries != [] {
        members := members + [Member(key, JObject(entries))];
      }
    }

    method WriteOptionalObject(key: string, value: Option<Value>)
      modifies this
      ensures members == old(members) + OptionalObject(key, value)
    {
      if value.Some? {
        members := members + [Member(key, value.value)];
      }
    }

    method WriteExtensions(exts: seq<Extension>)
      modifies this
      ensures members == old(members) + ExtensionMembers(exts)
    {
      var i := 0;
      while i < |exts|
        invariant 0 <= i <= |exts|
        invariant members == old(members) + ExtensionMembers(exts[..i])
      {
        assert exts[..i + 1][..i] == exts[..i];
        members := members + [Member(exts[i].key, ExtensionValueOf(exts[i].value))];
        i := i + 1;
      }
      assert exts[..i] == exts;
    }
  }
}
