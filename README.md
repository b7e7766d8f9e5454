# OpenAPI.NET Schema Object writer and reference collector, in Dafny

This project models two parts of OpenAPI.NET.

1. **The Schema Object writer** (`OpenApiSchema`). It covers how a schema's
   `type` and nullability are written for three targets:
   - OpenAPI 2.0, through the `x-nullable` vendor extension;
   - OpenAPI 3.0, through the `nullable` field (section 4.7.24 of OpenAPI 3.0.3);
   - OpenAPI 3.1, where `type` may be an array of type names (section 6.1.1 of
     JSON Schema Validation 2020-12).

   It also covers the key order of whole schema objects for each version:
   the 3.1-only JSON Schema block, the 2.0 `allOf` downgrade of `anyOf`/`oneOf`,
   the parent's `required` set that suppresses `readOnly` in 2.0, and the
   inherited `format`.
2. **The reference collector** (`CopyReferences`). It is a visitor that puts
   every referenceable object it meets into its own components section, one
   identifier-keyed table per kind. The first writer wins. For a schema
   reference node, the node's target is what gets catalogued. On the way, the
   visitor creates the matching tables on a target document's components.

## Layout

| file | module | what it holds |
|---|---|---|
| `json_writer.dfy` | `Wrappers`, `JsonWriter` | `Option`. The writer as an append-only log of (key, value) events: `ObjectWriter` holds the log of one JSON object, and a nested object is a finished log embedded as a `JObject` value. |
| `type_algebra.dfy` | `TypeAlgebra` | `JsonSchemaType` as a 7-bit flag set, its enumeration order, `IsPowerOfTwo` and `HasMultipleTypes`. |
| `schema_model.dfy` | `SchemaModel`, `OpenApiConstants` | The Schema Object as a finite recursive datatype, and the keyword names. |
| `type_property.dfy` | `TypeProperty` | `SerializeTypeProperty`, the up-cast and the down-cast. `TypeMembers` specifies them, and the per-version lemmas are proved about it. |
| `serializer.dfy` | `SchemaSerializer` | `SerializeInternal`, `WriteJsonSchemaKeywords`, `SerializeAsV2` and `WriteFormatProperty`. `V3Members` and `V2Members` give the events of one object, in writing order. |
| `schema_keywords.dfy` | `SchemaKeywords` | The keyword sets each block of the writers can emit. |
| `serializer_properties.dfy` | `SerializerProperties` | What whole objects contain under a given key. |
| `copy_references.dfy` | `CopyReferencesModel` | One visit as a function `Step` on the collector's state, the class `CopyReferences` proved to agree with it, and the lemmas. |

The methods build each object in a writer of their own, and each is proved to
append exactly what its specification function says. The lemmas are stated on
those functions.

Some behaviour the model makes visible:
- The `!= Null` conjunct of `HasMultipleTypes` never decides its result,
  because Null is itself a single bit. The empty type value counts as
  "multiple types".
- A 3.0 schema whose type is one concrete type plus Null, with `Nullable`
  already true, is written with that one `type` and no `nullable` key at all.
  The down-cast leaves the key out so as not to write it twice, and no other
  part of the 3.0 writer writes it (`NullableTypePairV30`).
- Three further facts about the code:
  - unrecognized keywords are written for 3.0 as well as 3.1;
  - the collector catalogues nine kinds of referenceable object;
  - the down-cast of a set of several types writes a `type` only for
    "one concrete type plus Null". Its `else if` branch at
    `src/Microsoft.OpenApi/Models/OpenApiSchema.cs:753` cannot be taken from
    the only caller.

## Model

| member | source | states |
|---|---|---|
| `TypeAlgebra.HasMultipleTypesIff` | src/Microsoft.OpenApi/Models/OpenApiSchema.cs:690-700 | `HasMultipleTypes(t)` holds exactly when `t` is not a power of two, i.e. exactly when the number of set flags is not one. The empty value yields true, every single flag (Null included) yields false, and the `!= Null` conjunct is redundant. |
| `TypeAlgebra.FlagsOfIsEnumeration` | src/Microsoft.OpenApi/Models/OpenApiSchema.cs:678-680 | The flags listed for a type value are exactly its set flags, each once, in enumeration order, and there are as many as there are set bits. |
| `SchemaModel.LookupExtension` | src/Microsoft.OpenApi/Models/OpenApiSchema.cs:637-640 | The extension lookup finds a value exactly when some entry carries the key, and the value found belongs to an entry with that key. |
| `TypeProperty.SerializeTypeProperty` | src/Microsoft.OpenApi/Models/OpenApiSchema.cs:632-688 | Appends to the writer exactly `TypeMembers(s, v)`, the decision table over absent/single/multiple types, version and nullability. |
| `TypeProperty.UpCastSchemaTypeToV31` | src/Microsoft.OpenApi/Models/OpenApiSchema.cs:702-717 | Appends exactly the names of the flags of `type \| Null`: as an array when there are two or more, as a scalar otherwise. |
| `TypeProperty.DowncastTypeArrayToV2OrV3` | src/Microsoft.OpenApi/Models/OpenApiSchema.cs:725-763 | The `foreach` over the enumeration with its loop invariant. Appends exactly `DowncastMembers(t, v, Nullable)`. |
| `TypeProperty.SingleTypeWrittenAlone` | src/Microsoft.OpenApi/Models/OpenApiSchema.cs:635-667 | For one non-null type, with `Nullable` false and no `x-nullable: true` extension, every version writes exactly one `type` event, carrying that type's name, and no nullability key. |
| `TypeProperty.V31NullableSingleType` | src/Microsoft.OpenApi/Models/OpenApiSchema.cs:702-717 | For 3.1, a nullable single type is written as the flags of `type \| Null` in enumeration order: the scalar `"null"` for Null itself, otherwise the two-name array. |
| `TypeProperty.V30NullableSingleType` | src/Microsoft.OpenApi/Models/OpenApiSchema.cs:656-663 | For 3.0, a nullable single type is written as `nullable: true` followed by `type`. The token is `"object"` for Null and the type's own name otherwise. |
| `TypeProperty.NoTypeWritesOnlyNullable` | src/Microsoft.OpenApi/Models/OpenApiSchema.cs:641-647 | With no type, only 3.0 writes anything: `nullable: true`, exactly when the schema is nullable. |
| `TypeProperty.DowncastOneTypeAndNull` | src/Microsoft.OpenApi/Models/OpenApiSchema.cs:737-751 | For 2.0/3.0, one concrete type plus Null is written as that one `type`. It is followed by `x-nullable` (2.0) or `nullable` (3.0) set to true only when `Nullable` is false. |
| `TypeProperty.DowncastOtherSetsWriteNothing` | src/Microsoft.OpenApi/Models/OpenApiSchema.cs:753-763 | For 2.0/3.0, any other multi-type value (two or more concrete types, or the empty value) writes nothing: the `else if` branch is unreachable under the caller's guard. |
| `TypeProperty.V31SeveralTypes` | src/Microsoft.OpenApi/Models/OpenApiSchema.cs:676-686 | For 3.1 with several types, `type` is the array of all set flags in enumeration order. `Null` is appended last only when `Nullable` is true and Null is not set. |
| `TypeProperty.NullableSingleTypeRoundTrip` | src/Microsoft.OpenApi/Models/OpenApiSchema.cs:648-763 | A nullable single concrete type is written for 3.1 as the array of `type \| Null`. That two-flag value, written back for 2.0/3.0, gives the same type plus the version's nullability key. |
| `TypeProperty.TypeMemberKeys` | src/Microsoft.OpenApi/Models/OpenApiSchema.cs:632-688 | The type writer emits only `type` and the version's nullability key: `x-nullable` for 2.0, `nullable` for 3.0, and no nullability key for 3.1. |
| `SchemaSerializer.SerializeInternal` | src/Microsoft.OpenApi/Models/OpenApiSchema.cs:259-391 | Returns the object whose events are `V3Members(s, v)`: the JSON Schema block for 3.1 only, then the common keywords in the source's order, with children written for the same version. |
| `SchemaSerializer.WriteJsonSchemaKeywords` | src/Microsoft.OpenApi/Models/OpenApiSchema.cs:399-414 | Appends exactly the 3.1 JSON Schema keyword block, with `$defs` and `patternProperties` entries written as 3.1. |
| `SchemaSerializer.WriteConstraints` | src/Microsoft.OpenApi/Models/OpenApiSchema.cs:272-315 | Appends exactly the numeric, string, array and object bounds, then `required` and `enum`, each skipped when absent. |
| `SchemaSerializer.WriteV3Children` | src/Microsoft.OpenApi/Models/OpenApiSchema.cs:320-349 | Appends `allOf`, `anyOf`, `oneOf`, `not`, `items`, `properties` and `additionalProperties`. The last is the subschema when allowed, otherwise `false`. |
| `SchemaSerializer.WriteV3Annotations` | src/Microsoft.OpenApi/Models/OpenApiSchema.cs:351-388 | Appends the annotations from `description` to `deprecated`, then the extensions, then the unrecognized keywords when there are any. |
| `SchemaSerializer.WriteOptionalSchema` | src/Microsoft.OpenApi/Models/OpenApiSchema.cs:329-333 | An optional child schema is written for the same version, or not at all. |
| `SchemaSerializer.WriteSchemaList` | src/Microsoft.OpenApi/Models/OpenApiSchema.cs:320-327 | Each schema of a composition list is written for the same version, in list order. |
| `SchemaSerializer.WriteSchemaMap` | src/Microsoft.OpenApi/Models/OpenApiSchema.cs:335-336 | Each entry of a name-to-schema table is written under its name, for the same version, in table order. |
| `SchemaSerializer.SerializeAsV2` | src/Microsoft.OpenApi/Models/OpenApiSchema.cs:495-630 | Returns the object whose events are `V2Members(s, parentRequired, propertyName)`, in the 2.0 key order. |
| `SchemaSerializer.WriteV2Head` | src/Microsoft.OpenApi/Models/OpenApiSchema.cs:504-517 | Appends the 2.0 type events, `description`, the inherited `format`, `title` and `default`. |
| `SchemaSerializer.WriteV2Children` | src/Microsoft.OpenApi/Models/OpenApiSchema.cs:564-604 | Appends `items`, `allOf`, the `allOf` downgrade, `properties` (each written with the parent's `Required` and its own name) and `additionalProperties`. |
| `SchemaSerializer.WriteV2Annotations` | src/Microsoft.OpenApi/Models/OpenApiSchema.cs:606-627 | Appends the discriminator's property name, `readOnly` (unless the parent requires this property), `xml`, `externalDocs`, `example` and the extensions. |
| `SchemaSerializer.WriteFormatProperty` | src/Microsoft.OpenApi/Models/OpenApiSchema.cs:475-486 | Appends `format` carrying `FormatToWrite(s)`, or nothing when there is none. |
| `SchemaSerializer.FormatToWrite` | src/Microsoft.OpenApi/Models/OpenApiSchema.cs:477-483 | The schema's own non-empty `Format` wins. Otherwise it is the first non-empty format in `allOf`, then `anyOf`, then `oneOf`. It is never the empty string. |
| `SchemaSerializer.FirstFormat` | src/Microsoft.OpenApi/Models/OpenApiSchema.cs:480-482 | Returns none exactly when no element has a non-empty format. Otherwise it returns the format of the first element that has one. |
| `SchemaSerializer.WriteAllOfDowngrade` | src/Microsoft.OpenApi/Models/OpenApiSchema.cs:570-582 | Appends exactly the synthesized `allOf` of `AllOfDowngrade(s)`. |
| `SchemaSerializer.WriteOptionalSchemaV2` | src/Microsoft.OpenApi/Models/OpenApiSchema.cs:565 | An optional child is written by the public 2.0 writer: an empty required set and no property name. |
| `SchemaSerializer.WriteSchemaListV2` | src/Microsoft.OpenApi/Models/OpenApiSchema.cs:568 | Each `allOf` element is written by the public 2.0 writer, in order. |
| `SchemaSerializer.WriteFirstSchemaV2` | src/Microsoft.OpenApi/Models/OpenApiSchema.cs:575-580 | `Take(1)`: only the first element of the list is written, and an empty list gives nothing. |
| `SchemaSerializer.WriteSchemaMapV2` | src/Microsoft.OpenApi/Models/OpenApiSchema.cs:585-591 | Each property is written with the parent's `Required` set and its own name. |
| `SerializerProperties.V3Omits` | src/Microsoft.OpenApi/Models/OpenApiSchema.cs:259-391 | A key that is neither a keyword of that 3.x version nor an extension key never appears in that version's output, provided every extension key of the schema starts with `x-`. |
| `SerializerProperties.V2Omits` | src/Microsoft.OpenApi/Models/OpenApiSchema.cs:495-630 | A key that is neither a 2.0 keyword nor an extension key never appears in 2.0 output, provided every extension key of the schema starts with `x-`. |
| `SerializerProperties.V2OmitsCompositions` | src/Microsoft.OpenApi/Models/OpenApiSchema.cs:564-582 | 2.0 output never contains `anyOf`, `oneOf` or `not`, provided every extension key of the schema starts with `x-`. |
| `SerializerProperties.V2OmitsV3Annotations` | src/Microsoft.OpenApi/Models/OpenApiSchema.cs:606-627 | 2.0 output never contains `nullable`, `writeOnly`, `deprecated` or the unrecognized keywords, provided every extension key of the schema starts with `x-`. |
| `SerializerProperties.V2OmitsJsonSchemaKeywords` | src/Microsoft.OpenApi/Models/OpenApiSchema.cs:495-630 | 2.0 output never contains a keyword of the JSON Schema block, except the two exclusive bounds, whose names 2.0 shares, provided every extension key of the schema starts with `x-`. |
| `SerializerProperties.V30OmitsJsonSchemaKeywords` | src/Microsoft.OpenApi/Models/OpenApiSchema.cs:264-267 | 3.0 output never contains a keyword of the JSON Schema block, except the two exclusive bounds, whose names 3.0 shares, provided every extension key of the schema starts with `x-`. |
| `SerializerProperties.V31OmitsNullable` | src/Microsoft.OpenApi/Models/OpenApiSchema.cs:632-688 | Provided every extension key of the schema starts with `x-`, 3.1 output never contains `nullable`: nullability goes into `type`. |
| `SerializerProperties.JsonSchemaBlockLeads31` | src/Microsoft.OpenApi/Models/OpenApiSchema.cs:262-267 | A 3.1 object starts with the whole JSON Schema keyword block. |
| `SerializerProperties.AdditionalPropertiesV3` | src/Microsoft.OpenApi/Models/OpenApiSchema.cs:338-349 | In 3.x output, `additionalProperties` is the subschema when allowed. When not allowed, it is the single event `false`, and the subschema is never written, provided every extension key of the schema starts with `x-`. |
| `SerializerProperties.AdditionalPropertiesV2` | src/Microsoft.OpenApi/Models/OpenApiSchema.cs:593-604 | The same rule holds for 2.0 output, provided every extension key of the schema starts with `x-`. |
| `SerializerProperties.AllOfCases` | src/Microsoft.OpenApi/Models/OpenApiSchema.cs:567-582 | The `allOf` events of the 2.0 subschema block: the own `allOf`, else the first `anyOf` element, else the first `oneOf` element, else nothing. |
| `SerializerProperties.V2AllOfDowngrade` | src/Microsoft.OpenApi/Models/OpenApiSchema.cs:564-582 | A whole 2.0 object has at most one `allOf`. It is the own `allOf` when there is one. Otherwise it holds only the first `anyOf` element, and only when `anyOf` is empty the first `oneOf` element, provided every extension key of the schema starts with `x-`. |
| `SerializerProperties.V2ReadOnly` | src/Microsoft.OpenApi/Models/OpenApiSchema.cs:609-615 | 2.0 output has `readOnly: true` exactly when the schema is read-only and is not a property its parent requires, provided every extension key of the schema starts with `x-`. |
| `SerializerProperties.V2PropertiesWritten` | src/Microsoft.OpenApi/Models/OpenApiSchema.cs:584-591 | The `properties` events of 2.0 output are the one table event, written when there are properties, provided every extension key of the schema starts with `x-`. |
| `SerializerProperties.V2PropertyEntries` | src/Microsoft.OpenApi/Models/OpenApiSchema.cs:585-591 | Entry `i` of the 2.0 `properties` table is property `i`, written with the parent's `Required` and its own name. |
| `SerializerProperties.RequiredPropertyNotReadOnly` | src/Microsoft.OpenApi/Models/OpenApiSchema.cs:585-615 | A property listed in its parent's `required` reaches 2.0 output, through the parent's `properties` table, with no `readOnly`, whatever its own `ReadOnly` says, provided every extension key of the schema starts with `x-`. |
| `SerializerProperties.FormatV3` | src/Microsoft.OpenApi/Models/OpenApiSchema.cs:354-355 | The `format` of 3.x output is the schema's own `Format`, with nothing inherited, provided every extension key of the schema starts with `x-`. |
| `SerializerProperties.FormatV2` | src/Microsoft.OpenApi/Models/OpenApiSchema.cs:510-511 | The `format` of 2.0 output is `FormatToWrite(s)`, the first non-empty format found in order: own, `allOf`, `anyOf`, `oneOf`, provided every extension key of the schema starts with `x-`. |
| `SerializerProperties.TypeEventsV3` | src/Microsoft.OpenApi/Models/OpenApiSchema.cs:317-318 | The `type` and `nullable` events of a whole 3.x object are exactly those of the type writer, provided every extension key of the schema starts with `x-`. |
| `SerializerProperties.TypeEventsV2` | src/Microsoft.OpenApi/Models/OpenApiSchema.cs:504-505 | The `type` events of a whole 2.0 object are exactly those of the type writer, provided every extension key of the schema starts with `x-`. |
| `SerializerProperties.NullableTypePairV30` | src/Microsoft.OpenApi/Models/OpenApiSchema.cs:748-751 | A 3.0 schema typed one concrete type plus Null, with `Nullable` true, has exactly that one `type` and no `nullable` key in its output, provided every extension key of the schema starts with `x-`. |
| `CopyReferencesModel.CopyReferences.constructor` | src/Microsoft.OpenApi/Services/CopyReferences.cs:10-13 | The collector starts with a components section of its own, with every table present and empty. |
| `CopyReferencesModel.CopyReferences.Visit` | src/Microsoft.OpenApi/Services/CopyReferences.cs:19-108 | The new tables and the outcome are `Step(old state, r)`, dispatched by kind, with a schema reference node catalogued through its target. |
| `CopyReferencesModel.CopyReferences.VisitSchema` | src/Microsoft.OpenApi/Services/CopyReferences.cs:121-133 | The new state is `StepSchema(old state, r)`: reference nodes and identified schemas are catalogued, and other schemas are passed over. |
| `CopyReferencesModel.CopyReferences.AddSchemaToComponents` | src/Microsoft.OpenApi/Services/CopyReferences.cs:110-118 | Ensures the target's schema table, then catalogues the schema under `referenceId ?? schema.Reference.Id` unless that id is present. |
| `CopyReferencesModel.CopyReferences.Add` | src/Microsoft.OpenApi/Services/CopyReferences.cs:30-36 | The `ContainsKey`/`Add` pattern of each kind: ensure the target's tables, then add only an absent key. A null key throws after the tables were ensured. |
| `CopyReferencesModel.CopyReferences.EnsureComponentsExist` | src/Microsoft.OpenApi/Services/CopyReferences.cs:135-138 | The target's components exist afterwards. Existing components are kept, and new ones have every table present and empty. |
| `CopyReferencesModel.CopyReferences.EnsureTableExists` | src/Microsoft.OpenApi/Services/CopyReferences.cs:140-183 | `??=`: a table of the target's components is created only when absent, and no table is replaced. |
| `CopyReferencesModel.VisitCatalogues` | src/Microsoft.OpenApi/Services/CopyReferences.cs:21-105 | After a visit of kind K with id `i`, table K contains `i`. It maps to the earlier entry when `i` was present, else to the visited entry. Its keys grow by `i` only, and every other kind's table is unchanged. |
| `CopyReferencesModel.FirstWriterWins` | src/Microsoft.OpenApi/Services/CopyReferences.cs:33-36 | When the id is already present, the collector's tables are left exactly as they were: no overwrite and no merge. |
| `CopyReferencesModel.ReferenceCataloguesTarget` | src/Microsoft.OpenApi/Services/CopyReferences.cs:23-24 | A visit of a schema reference node can add only its target to the schema table, never the node itself. |
| `CopyReferencesModel.NullIdThrows` | src/Microsoft.OpenApi/Services/CopyReferences.cs:110-117 | A visit with a null id throws after ensuring the target's tables and before adding anything. |
| `CopyReferencesModel.TargetTablesEnsured` | src/Microsoft.OpenApi/Services/CopyReferences.cs:135-183 | After a visit, the target's components exist and so do the tables the kind asks for. Existing tables are never replaced, and other tables are untouched. |
| `CopyReferencesModel.RequestBodyEnsuresResponses` | src/Microsoft.OpenApi/Services/CopyReferences.cs:48-56 | Visiting a request body also creates the target's responses table. |
| `CopyReferencesModel.InlineSchemaWithoutReference` | src/Microsoft.OpenApi/Services/CopyReferences.cs:121-133 | `Visit(OpenApiSchema)` on a non-reference schema with no `Reference` changes nothing. The same schema given to `Visit(IOpenApiReferenceable)` throws. |
| `CopyReferencesModel.OtherIgnored` | src/Microsoft.OpenApi/Services/CopyReferences.cs:103-104 | A referenceable object of none of the nine kinds leaves the state alone. |
| `CopyReferencesModel.VisitIdempotent` | src/Microsoft.OpenApi/Services/CopyReferences.cs:19-118 | Visiting the same object twice gives the same state and outcome as visiting it once. |
| `CopyReferencesModel.RunGrows` | src/Microsoft.OpenApi/Services/CopyReferences.cs:19-108 | Over any sequence of visits, catalogued entries are kept and the target's tables are never replaced. |
| `CopyReferencesModel.RunIdempotent` | src/Microsoft.OpenApi/Services/CopyReferences.cs:19-108 | Repeating any sequence of visits leaves the tables and the outcome as the first pass left them. |

## Left out

- Text production (JSON/YAML) is not modelled. The writer is an event log. The `WriteProperty`/`WriteOptional*` extension methods are not part of this model. Their suppression rules are taken as stated at the head of `json_writer.dfy`: a null value is skipped; a `bool` with an explicit default is skipped when equal to it; a `bool` without a default is always written; an empty collection or map is skipped.
- The `JsonSchemaType` declaration is not part of this model. The flags are assumed to be the single bits Null=1, Boolean=2, Integer=4, Number=8, String=16, Object=32, Array=64, with no zero member. `Enum.GetValues` order is then ascending (`TypeAlgebra.Order`). Where "null" falls in a written type array depends on this assumption.
- `OpenApiConstants` is not part of this model. The keyword names are those of the OpenAPI and JSON Schema specifications. `unrecognizedKeywords` is assumed as the name of the passthrough map.
- Opaque values are tokens: `JsonNode` fields (`Default`, `Example`, `Enum`, `Examples`, unrecognized keywords), extension payloads other than JSON `true`, `decimal?` bounds, and the XML, external-docs and discriminator objects (whose own serializers are not part of this model). `Annotations` is not written and is left out.
- Null collections are modelled as empty ones. They behave alike at every use site except `UnrecognizedKeywords.Any()`, which throws on null. That exception is not modelled.
- Children that are not inline `OpenApiSchema` instances (schema reference nodes and other `IOpenApiSchema` implementations, including the line 590 branch) and their serializers are not part of this model. Every child is an inline schema.
- `WriteAsItemsProperties` (the 2.0 parameter-items form), the copy constructor and `JsonNodeCloneHelper` cloning are left out. They only copy fields or write a separate object form, and nothing modelled here depends on them.
- Dictionaries and the `Required` set are sequences in enumeration order. Hash-set order is not modelled.
- The visitor base class (`OpenApiVisitorBase`), its traversal order and its cycle protection are not part of this model. `base.Visit` is an unknown continuation. A walk is modelled as a fold (`Run`) over an arbitrary given sequence of visits, cut short by the first visit that throws. So termination on cyclic documents and "each reachable object exactly once" are not stated.
- Object identity stands for the catalogued objects (`ObjId`), and their content is not modelled. A schema reference node's `Target` is assumed resolved, so a null target being added under an id is not modelled. The node's `Reference` is assumed present, and only its `Id` may be null. With a null `Reference`, line 24 would throw before any table is ensured.
- Exceptions (a null id, a missing `Reference`) are modelled as the `false` outcome of a visit. The exception type is not modelled.
- `OpenApiComponents` is not part of this model. `new OpenApiComponents()` is assumed to create all nine tables, present and empty; the collector's own table insertions at lines 33-116 rely on this.
- `SerializerProperties`: the statements about which keys a whole schema object contains assume that every extension key of the schema starts with `x-` (`ExtensionKeysReserved`). The `Extensions` dictionary of `OpenApiSchema` does not enforce this, and the writer copies every extension key as it is. So an extension keyed `anyOf` or `readOnly` would appear in the output under that key, and these statements do not cover such a schema.
- `CopyReferencesModel.CopyReferences.Valid`: the collector's own components and the target document's components are assumed to be different objects. `Components` is a public field and `_target.Components` can be assigned, so the two could be the same object. Aliasing between them is not modelled.
