/**
 * The Schema Object (`OpenApiSchema`) as a finite recursive value.
 *
 * Null collections are modelled as empty sequences: at every place the
 * serializer reads them (`WriteOptionalCollection`, `WriteOptionalMap`, the
 * `AllOf == null || AllOf.Count == 0` tests, `FirstOrDefault` behind `?.`), a
 * null collection and an empty one behave alike. Dictionaries are sequences of
 * entries in enumeration order. Children are inline schemas; schema reference
 * nodes and their own serializer are not part of this model.
 */
module SchemaModel {
  import opened Wrappers
  import opened JsonWriter
  import opened TypeAlgebra

  /** One entry of a name-to-schema dictionary (`Properties`, `PatternProperties`, `Definitions`). */
  datatype Property = Property(name: string, schema: Schema)

  /** The discriminator object; 2.0 output writes only its property name. */
  datatype Discriminator = Discriminator(propertyName: Option<string>, element: Element)

  datatype Schema = Schema(
    // JSON Schema keywords written for 3.1 only
    id: Option<string>,
    dollarSchema: Option<string>,
    comment: Option<string>,
    constValue: Option<string>,
    vocabulary: seq<(string, bool)>,
    definitions: seq<Property>,
    dynamicRef: Option<string>,
    dynamicAnchor: Option<string>,
    v31ExclusiveMaximum: Option<Decimal>,
    v31ExclusiveMinimum: Option<Decimal>,
    unevaluatedProperties: bool,
    examples: seq<JsonNode>,
    patternProperties: seq<Property>,
    // keywords common to all versions
    title: Option<string>,
    multipleOf: Option<Decimal>,
    maximum: Option<Decimal>,
    exclusiveMaximum: Option<bool>,
    minimum: Option<Decimal>,
    exclusiveMinimum: Option<bool>,
    maxLength: Option<int>,
    minLength: Option<int>,
    pattern: Option<string>,
    maxItems: Option<int>,
    minItems: Option<int>,
    uniqueItems: Option<bool>,
    maxProperties: Option<int>,
    minProperties: Option<int>,
    required: seq<string>,
    enumValues: seq<JsonNode>,
    schemaType: Option<JsonSchemaType>,
    nullable: bool,
    allOf: seq<Schema>,
    anyOf: seq<Schema>,
    oneOf: seq<Schema>,
    not: Option<Schema>,
    items: Option<Schema>,
    properties: seq<Property>,
    additionalPropertiesAllowed: bool,
    additionalProperties: Option<Schema>,
    description: Option<string>,
    format: Option<string>,
    default: Option<JsonNode>,
    discriminator: Option<Discriminator>,
    readOnly: bool,
    writeOnly: bool,
    xml: Option<Element>,
    externalDocs: Option<Element>,
    example: Option<JsonNode>,
    deprecated: bool,
    extensions: seq<Extension>,
    unrecognizedKeywords: seq<(string, JsonNode)>
  )

  /** An extension key carries the reserved `x-` prefix. */
  predicate IsExtensionKey(key: string) {
    |key| >= 2 && key[0] == 'x' && key[1] == '-'
  }

  /** Every extension key of the schema carries the reserved prefix. */
  predicate ExtensionKeysReserved(s: Schema) {
    forall e :: e in s.extensions ==> IsExtensionKey(e.key)
  }

  /** The value of the first extension under `key`, as `TryGetValue` finds it. */
  function LookupExtension(exts: seq<Extension>, key: string): (r: Option<ExtensionValue>)
    ensures r.Some? <==> exists e :: e in exts && e.key == key
    ensures r.Some? ==> Extension(key, r.value) in exts
    decreases |exts|
  {
    if exts == [] then None
    else if exts[0].key == key then Some(exts[0].value)
    else
      var r := LookupExtension(exts[1..], key);
      assert forall e :: e in exts ==> e == exts[0] || e in exts[1..];
      r
  }
}

/**
 * The property names the schema serializer writes (`OpenApiConstants`, which
 * is not part of this model; the values are the keywords of the OpenAPI and
 * JSON Schema specifications).
 */
module OpenApiConstants {
  const Id := "$id"
  const DollarSchema := "$schema"
  const Comment := "$comment"
  const Const := "const"
  const Vocabulary := "$vocabulary"
  const Defs := "$defs"
  const DynamicRef := "$dynamicRef"
  const DynamicAnchor := "$dynamicAnchor"
  const V31ExclusiveMaximum := "exclusiveMaximum"
  const V31ExclusiveMinimum := "exclusiveMinimum"
  const UnevaluatedProperties := "unevaluatedProperties"
  const Examples := "examples"
  const PatternProperties := "patternProperties"
  const Title := "title"
  const MultipleOf := "multipleOf"
  const Maximum := "maximum"
  const ExclusiveMaximum := "exclusiveMaximum"
  const Minimum := "minimum"
  const ExclusiveMinimum := "exclusiveMinimum"
  const MaxLength := "maxLength"
  const MinLength := "minLength"
  const Pattern := "pattern"
  const MaxItems := "maxItems"
  const MinItems := "minItems"
  const UniqueItems := "uniqueItems"
  const MaxProperties := "maxProperties"
  const MinProperties := "minProperties"
  const Required := "required"
  const Enum := "enum"
  const Type := "type"
  const Nullable := "nullable"
  const NullableExtension := "x-nullable"
  const AllOf := "allOf"
  const AnyOf := "anyOf"
  const OneOf := "oneOf"
  const Not := "not"
  const Items := "items"
  const Properties := "properties"
  const AdditionalProperties := "additionalProperties"
  const Description := "description"
  const Format := "format"
  const Default := "default"
  const Discriminator := "discriminator"
  const ReadOnly := "readOnly"
  const WriteOnly := "writeOnly"
  const Xml := "xml"
  const ExternalDocs := "externalDocs"
  const Example := "example"
  const Deprecated := "deprecated"
  const UnrecognizedKeywords := "unrecognizedKeywords"
}
