/**
 * The keywords each block of the schema writers can emit, and the facts
 * about them the statements on whole objects rest on: which blocks never
 * write a given keyword, and which keyword sets are disjoint.
 */
module SchemaKeywords {
  import opened JsonWriter
  import opened SchemaModel
  import K = OpenApiConstants

  // ---------------------------------------------------------------------------
  // Keyword sets
  // ---------------------------------------------------------------------------

  const ConstraintKeywords: set<string> :=
    {K.MultipleOf, K.Maximum, K.ExclusiveMaximum, K.Minimum, K.ExclusiveMinimum, K.MaxLength, K.MinLength,
     K.Pattern, K.MaxItems, K.MinItems, K.UniqueItems, K.MaxProperties, K.MinProperties, K.Required, K.Enum}

  const JsonSchemaKeywords: set<string> :=
    {K.Id, K.DollarSchema, K.Comment, K.Const, K.Vocabulary, K.Defs, K.DynamicRef, K.DynamicAnchor,
     K.V31ExclusiveMaximum, K.V31ExclusiveMinimum, K.UnevaluatedProperties, K.Examples, K.PatternProperties}

  const V3ChildKeywords: set<string> :=
    {K.AllOf, K.AnyOf, K.OneOf, K.Not, K.Items, K.Properties, K.AdditionalProperties}

  const V3AnnotationKeywords: set<string> :=
    {K.Description, K.Format, K.Default, K.Discriminator, K.ReadOnly, K.WriteOnly, K.Xml, K.ExternalDocs,
     K.Example, K.Deprecated, K.UnrecognizedKeywords}

  const V2HeadKeywords: set<string> := {K.Type, K.NullableExtension, K.Description, K.Format, K.Title, K.Default}

  const V2ChildKeywords: set<string> := {K.Items, K.AllOf, K.Properties, K.AdditionalProperties}

  const V2AnnotationKeywords: set<string> := {K.Discriminator, K.ReadOnly, K.Xml, K.ExternalDocs, K.Example}

  /** The keywords a 3.0 or 3.1 schema object can carry besides its extensions. */
  function V3Keywords(v: SpecVersion): set<string> {
    (if v == OpenApi3_1 then JsonSchemaKeywords else {K.Nullable})
    + {K.Title, K.Type} + ConstraintKeywords + V3ChildKeywords + V3AnnotationKeywords
  }

  /** The keywords a 2.0 schema object can carry besides its extensions. */
  const V2Keywords: set<string> := V2HeadKeywords + ConstraintKeywords + V2ChildKeywords + V2AnnotationKeywords

  /** The compositions 2.0 lacks: it knows only `allOf`. */
  const V3Compositions: set<string> := {K.AnyOf, K.OneOf, K.Not}

  /** The 3.x annotations 2.0 lacks. */
  const V3OnlyAnnotations: set<string> := {K.Nullable, K.WriteOnly, K.Deprecated, K.UnrecognizedKeywords}


  // ---------------------------------------------------------------------------
  // Where each looked-up keyword can come from
  // ---------------------------------------------------------------------------

  /** The blocks that never write `additionalProperties`. */
  lemma AdditionalPropertiesPlacement()
    ensures K.AdditionalProperties !in ConstraintKeywords
      && K.AdditionalProperties !in JsonSchemaKeywords
      && K.AdditionalProperties !in V3AnnotationKeywords
      && K.AdditionalProperties !in V2HeadKeywords
      && K.AdditionalProperties !in V2AnnotationKeywords
      && K.AdditionalProperties != K.Title
      && K.AdditionalProperties != K.Type
      && K.AdditionalProperties != K.Nullable
      && K.AdditionalProperties != K.NullableExtension
      && !IsExtensionKey(K.AdditionalProperties)
  {
  }

  /** The blocks that never write `allOf`. */
  lemma AllOfPlacement()
    ensures K.AllOf !in ConstraintKeywords
      && K.AllOf !in JsonSchemaKeywords
      && K.AllOf !in V3AnnotationKeywords
      && K.AllOf !in V2HeadKeywords
      && K.AllOf !in V2AnnotationKeywords
      && K.AllOf != K.Title
      && K.AllOf != K.Type
      && K.AllOf != K.Nullable
      && K.AllOf != K.NullableExtension
      && !IsExtensionKey(K.AllOf)
  {
  }

  /** The blocks that never write `properties`. */
  lemma PropertiesPlacement()
    ensures K.Properties !in ConstraintKeywords
      && K.Properties !in JsonSchemaKeywords
      && K.Properties !in V3AnnotationKeywords
      && K.Properties !in V2HeadKeywords
      && K.Properties !in V2AnnotationKeywords
      && K.Properties != K.Title
      && K.Properties != K.Type
      && K.Properties != K.Nullable
      && K.Properties != K.NullableExtension
      && !IsExtensionKey(K.Properties)
  {
  }

  /** The blocks that never write `readOnly`. */
  lemma ReadOnlyPlacement()
    ensures K.ReadOnly !in ConstraintKeywords
      && K.ReadOnly !in JsonSchemaKeywords
      && K.ReadOnly !in V3ChildKeywords
      && K.ReadOnly !in V2HeadKeywords
      && K.ReadOnly !in V2ChildKeywords
      && K.ReadOnly != K.Title
      && K.ReadOnly != K.Type
      && K.ReadOnly != K.Nullable
      && K.ReadOnly != K.NullableExtension
      && !IsExtensionKey(K.ReadOnly)
  {
  }

  /** The blocks that never write `format`. */
  lemma FormatPlacement()
    ensures K.Format !in ConstraintKeywords
      && K.Format !in JsonSchemaKeywords
      && K.Format !in V3ChildKeywords
      && K.Format !in V2ChildKeywords
      && K.Format !in V2AnnotationKeywords
      && K.Format != K.Title
      && K.Format != K.Type
      && K.Format != K.Nullable
      && K.Format != K.NullableExtension
      && !IsExtensionKey(K.Format)
  {
  }

  /** The blocks that never write `type`. */
  lemma TypePlacement()
    ensures K.Type !in ConstraintKeywords
      && K.Type !in JsonSchemaKeywords
      && K.Type !in V3ChildKeywords
      && K.Type !in V3AnnotationKeywords
      && K.Type !in V2ChildKeywords
      && K.Type !in V2AnnotationKeywords
      && K.Type != K.Title
      && K.Type != K.Nullable
      && K.Type != K.NullableExtension
      && !IsExtensionKey(K.Type)
  {
  }

  /** The blocks that never write `nullable`. */
  lemma NullablePlacement()
    ensures K.Nullable !in ConstraintKeywords
      && K.Nullable !in JsonSchemaKeywords
      && K.Nullable !in V3ChildKeywords
      && K.Nullable !in V3AnnotationKeywords
      && K.Nullable !in V2HeadKeywords
      && K.Nullable !in V2ChildKeywords
      && K.Nullable !in V2AnnotationKeywords
      && K.Nullable != K.Title
      && K.Nullable != K.Type
      && K.Nullable != K.NullableExtension
      && !IsExtensionKey(K.Nullable)
  {
  }

  // ---------------------------------------------------------------------------
  // Keywords a version lacks
  // ---------------------------------------------------------------------------

  /** No 2.0 head key is one of `anyOf`, `oneOf` and `not`. */
  lemma CompositionsOutsideHeadV2()
    ensures V3Compositions !! V2HeadKeywords
  {
  }

  /** No 2.0 constraint key is one of `anyOf`, `oneOf` and `not`. */
  lemma CompositionsOutsideConstraintV2()
    ensures V3Compositions !! ConstraintKeywords
  {
  }

  /** No 2.0 child key is one of `anyOf`, `oneOf` and `not`. */
  lemma CompositionsOutsideChildV2()
    ensures V3Compositions !! V2ChildKeywords
  {
  }

  /** No 2.0 annotation key is one of `anyOf`, `oneOf` and `not`. */
  lemma CompositionsOutsideAnnotationV2()
    ensures V3Compositions !! V2AnnotationKeywords
  {
  }

  /** 2.0 knows none of `anyOf`, `oneOf` and `not`. */
  lemma CompositionsOutsideV2()
    ensures V3Compositions !! V2Keywords
  {
    CompositionsOutsideHeadV2();
    CompositionsOutsideConstraintV2();
    CompositionsOutsideChildV2();
    CompositionsOutsideAnnotationV2();
  }

  /** No 2.0 head key is one of the 3.x-only annotations. */
  lemma AnnotationsOutsideHeadV2()
    ensures V3OnlyAnnotations !! V2HeadKeywords
  {
  }

  /** No 2.0 constraint key is one of the 3.x-only annotations. */
  lemma AnnotationsOutsideConstraintV2()
    ensures V3OnlyAnnotations !! ConstraintKeywords
  {
  }

  /** No 2.0 child key is one of the 3.x-only annotations. */
  lemma AnnotationsOutsideChildV2()
    ensures V3OnlyAnnotations !! V2ChildKeywords
  {
  }

  /** No 2.0 annotation key is one of the 3.x-only annotations. */
  lemma AnnotationsOutsideAnnotationV2()
    ensures V3OnlyAnnotations !! V2AnnotationKeywords
  {
  }

  /** 2.0 knows none of the 3.x-only annotations. */
  lemma AnnotationsOutsideV2()
    ensures V3OnlyAnnotations !! V2Keywords
  {
    AnnotationsOutsideHeadV2();
    AnnotationsOutsideConstraintV2();
    AnnotationsOutsideChildV2();
    AnnotationsOutsideAnnotationV2();
  }

  /** No 2.0 head key is one of the JSON Schema keywords bar the exclusive bounds. */
  lemma JsonSchemaOutsideHeadV2()
    ensures (JsonSchemaKeywords - {K.V31ExclusiveMaximum, K.V31ExclusiveMinimum}) !! V2HeadKeywords
  {
  }

  /** No 2.0 constraint key is one of the JSON Schema keywords bar the exclusive bounds. */
  lemma JsonSchemaOutsideConstraintV2()
    ensures (JsonSchemaKeywords - {K.V31ExclusiveMaximum, K.V31ExclusiveMinimum}) !! ConstraintKeywords
  {
  }

  /** No 2.0 child key is one of the JSON Schema keywords bar the exclusive bounds. */
  lemma JsonSchemaOutsideChildV2()
    ensures (JsonSchemaKeywords - {K.V31ExclusiveMaximum, K.V31ExclusiveMinimum}) !! V2ChildKeywords
  {
  }

  /** No 2.0 annotation key is one of the JSON Schema keywords bar the exclusive bounds. */
  lemma JsonSchemaOutsideAnnotationV2()
    ensures (JsonSchemaKeywords - {K.V31ExclusiveMaximum, K.V31ExclusiveMinimum}) !! V2AnnotationKeywords
  {
  }

  /** 2.0 knows none of the JSON Schema keywords bar the exclusive bounds. */
  lemma JsonSchemaOutsideV2()
    ensures (JsonSchemaKeywords - {K.V31ExclusiveMaximum, K.V31ExclusiveMinimum}) !! V2Keywords
  {
    JsonSchemaOutsideHeadV2();
    JsonSchemaOutsideConstraintV2();
    JsonSchemaOutsideChildV2();
    JsonSchemaOutsideAnnotationV2();
  }

  /** No 3.0 scalar key is one of the JSON Schema keywords bar the exclusive bounds. */
  lemma JsonSchemaOutsideScalarV30()
    ensures (JsonSchemaKeywords - {K.V31ExclusiveMaximum, K.V31ExclusiveMinimum}) !! {K.Nullable, K.Title, K.Type}
  {
  }

  /** No 3.0 child key is one of the JSON Schema keywords bar the exclusive bounds. */
  lemma JsonSchemaOutsideChildV30()
    ensures (JsonSchemaKeywords - {K.V31ExclusiveMaximum, K.V31ExclusiveMinimum}) !! V3ChildKeywords
  {
  }

  /** No 3.0 annotation key is one of the JSON Schema keywords bar the exclusive bounds. */
  lemma JsonSchemaOutsideAnnotationV30()
    ensures (JsonSchemaKeywords - {K.V31ExclusiveMaximum, K.V31ExclusiveMinimum}) !! V3AnnotationKeywords
  {
  }

  /** 3.0 knows none of the JSON Schema keywords bar the exclusive bounds. */
  lemma JsonSchemaOutsideV30()
    ensures JsonSchemaKeywords - {K.V31ExclusiveMaximum, K.V31ExclusiveMinimum} !! V3Keywords(OpenApi3_0)
  {
    JsonSchemaOutsideScalarV30();
    JsonSchemaOutsideConstraintV2();
    JsonSchemaOutsideChildV30();
    JsonSchemaOutsideAnnotationV30();
  }

  /** No keyword of the object writers is an extension key. */
  lemma KeywordsNotExtensions()
    ensures forall k :: k in V3Compositions + V3OnlyAnnotations + JsonSchemaKeywords ==> !IsExtensionKey(k)
  {
  }
}
