/**
 * The reference collector `CopyReferences`: a visitor that copies every
 * referenceable object it meets into a components section of its own, one
 * identifier-keyed table per kind, and on the way makes sure the matching
 * tables exist on the components of a target document.
 *
 * Objects of the document graph are identities (`ObjId`); a table maps a
 * reference id to the identity stored under it. The visitor's state is
 * captured by `State`: its own nine tables (always present) and the target
 * document's components (absent, or nine tables each of which may be null).
 * `Step` says what one visit does to that state; the class `CopyReferences`
 * does it in place and is proved to agree with `Step`.
 */
module CopyReferencesModel {
  import opened Wrappers

  /** The identity of an object of the document graph. */
  type ObjId = nat

  /** One identifier-keyed table of a components section. */
  type Table = map<string, ObjId>

  /** The nine kinds of referenceable object, one table each. */
  datatype Kind = Schemas | Parameters | Responses | RequestBodies | Examples | Headers | Callbacks | Links | SecuritySchemes

  /** The tables of one components section, kind by kind; `None` is a null table. */
  type Tables = map<Kind, Option<Table>>

  /** The `Reference` of a referenceable object; its `Id` may be null. */
  datatype Reference = Reference(id: Option<string>)

  /** What a visit can meet: a schema reference node, a referenceable object of some kind, or anything else. */
  datatype Referenceable =
    | SchemaReference(node: ObjId, referenceId: Option<string>, target: ObjId, targetReference: Option<Reference>)
    | Component(node: ObjId, kind: Kind, reference: Option<Reference>)
    | OtherReferenceable(node: ObjId)

  /** A schema, either a reference node or an inline schema: what `Visit(OpenApiSchema)` accepts. */
  predicate IsSchema(r: Referenceable) {
    r.SchemaReference? || (r.Component? && r.kind == Schemas)
  }

  // ---------------------------------------------------------------------------
  // Tables
  // ---------------------------------------------------------------------------

  /** Every kind has an entry. */
  predicate Complete(t: Tables) {
    forall k :: k in t
  }

  /** A table map with an entry for each of the nine kinds is complete. */
  lemma KindsCovered(m: Tables)
    requires Schemas in m && Parameters in m && Responses in m && RequestBodies in m && Examples in m
    requires Headers in m && Callbacks in m && Links in m && SecuritySchemes in m
    ensures Complete(m)
  {
    forall k: Kind
      ensures k in m
    {
      match k
      case Schemas =>
      case Parameters =>
      case Responses =>
      case RequestBodies =>
      case Examples =>
      case Headers =>
      case Callbacks =>
      case Links =>
      case SecuritySchemes =>
    }
  }

  /** The tables of a components section, given kind by kind. */
  function TablesOf(schemas: Option<Table>, parameters: Option<Table>, responses: Option<Table>, requestBodies: Option<Table>,
                    examples: Option<Table>, headers: Option<Table>, callbacks: Option<Table>, links: Option<Table>,
                    securitySchemes: Option<Table>): (t: Tables)
    ensures Complete(t)
  {
    var m := map[Schemas := schemas, Parameters := parameters, Responses := responses, RequestBodies := requestBodies,
                 Examples := examples, Headers := headers, Callbacks := callbacks, Links := links,
                 SecuritySchemes := securitySchemes];
    KindsCovered(m);
    m
  }

  /** The tables of `new OpenApiComponents()`: all present and empty. */
  function EmptyTables(): (t: Tables)
    ensures Complete(t)
  {
    TablesOf(Some(map[]), Some(map[]), Some(map[]), Some(map[]), Some(map[]), Some(map[]), Some(map[]), Some(map[]),
             Some(map[]))
  }

  /** `Table ??= new Dictionary()` on the table of kind `k`. */
  function EnsureTable(t: Tables, k: Kind): Tables
    requires Complete(t)
  {
    if t[k].Some? then t else t[k := Some(map[])]
  }

  /** The tables a visit of kind `k` makes sure of, in order: a request body also asks for the responses table. */
  function EnsuredKinds(k: Kind): seq<Kind> {
    if k == RequestBodies then [Responses, RequestBodies] else [k]
  }

  /** `EnsureComponentsExist` and then the `Ensure*Exist` helpers of kind `k`, on the target's components. */
  function EnsureTarget(target: Option<Tables>, k: Kind): (t: Tables)
    requires target.Some? ==> Complete(target.value)
    ensures Complete(t)
  {
    var c := if target.Some? then target.value else EmptyTables();
    if k == RequestBodies then EnsureTable(EnsureTable(c, Responses), RequestBodies) else EnsureTable(c, k)
  }

  /** `referenceId ?? schema.Reference.Id`; `None` when the id is null or there is no reference to read it from. */
  function SchemaKey(referenceId: Option<string>, reference: Option<Reference>): Option<string> {
    if referenceId.Some? then referenceId
    else if reference.Some? then reference.value.id
    else None
  }

  /** The table a visit adds to. */
  function KindOf(r: Referenceable): Kind
    requires !r.OtherReferenceable?
  {
    if r.SchemaReference? then Schemas else r.kind
  }

  /** The id a visit catalogues under: a reference node's own id, falling back to its target's. */
  function CatalogueKey(r: Referenceable): Option<string>
    requires !r.OtherReferenceable?
  {
    match r
    case SchemaReference(_, referenceId, _, targetReference) => SchemaKey(referenceId, targetReference)
    case Component(_, _, reference) => SchemaKey(None, reference)
  }

  /** The object a visit catalogues: a reference node's target, any other object itself. */
  function Entry(r: Referenceable): ObjId
    requires !r.OtherReferenceable?
  {
    if r.SchemaReference? then r.target else r.node
  }

  // ---------------------------------------------------------------------------
  // One visit, on values
  // ---------------------------------------------------------------------------

  /** The visitor's own tables and the target document's components. */
  datatype State = State(own: Tables, target: Option<Tables>)

  /** The visitor's own tables all exist; the target's components, when present, have an entry per kind. */
  predicate WellFormed(st: State) {
    Complete(st.own) && (forall k :: st.own[k].Some?) && (st.target.Some? ==> Complete(st.target.value))
  }

  /** `if (!table.ContainsKey(key)) table.Add(key, obj)` on the visitor's table of kind `k`. */
  function AddFirst(own: Tables, k: Kind, key: string, obj: ObjId): Tables
    requires Complete(own) && own[k].Some?
  {
    if key in own[k].value then own else own[k := Some(own[k].value[key := obj])]
  }

  /**
   * Ensure the target's tables of kind `k`, then add `obj` under `key`
   * unless the key is already there. A null key throws (the `bool` is
   * false), after the tables were ensured and before anything was added.
   */
  function Catalogue(st: State, k: Kind, key: Option<string>, obj: ObjId): (res: (State, bool))
    requires WellFormed(st)
    ensures WellFormed(res.0)
  {
    var t := EnsureTarget(st.target, k);
    if key.None? then (State(st.own, Some(t)), false)
    else (State(AddFirst(st.own, k, key.value, obj), Some(t)), true)
  }

  /** `Visit(IOpenApiReferenceable)`: the new state, and whether the visit completed without throwing. */
  function Step(st: State, r: Referenceable): (res: (State, bool))
    requires WellFormed(st)
    ensures WellFormed(res.0)
  {
    if r.OtherReferenceable? then (st, true)
    else Catalogue(st, KindOf(r), CatalogueKey(r), Entry(r))
  }

  /** `Visit(OpenApiSchema)`: an inline schema without a `Reference` is passed over. */
  function StepSchema(st: State, r: Referenceable): (res: (State, bool))
    requires WellFormed(st) && IsSchema(r)
    ensures WellFormed(res.0)
  {
    if r.Component? && r.reference.None? then (st, true) else Step(st, r)
  }

  /** A walk visiting `rs` in order, cut short by the first visit that throws. */
  function Run(st: State, rs: seq<Referenceable>): (res: (State, bool))
    requires WellFormed(st)
    ensures WellFormed(res.0)
    decreases |rs|
  {
    if rs == [] then (st, true)
    else
      var (next, ok) := Step(st, rs[0]);
      if !ok then (next, false) else Run(next, rs[1..])
  }

  // ---------------------------------------------------------------------------
  // What one visit does
  // ---------------------------------------------------------------------------

  /**
   * A visit with an id leaves the id in the table of its kind: mapped to
   * what was there before when the id was already present (first writer
   * wins, nothing is merged), to the visited entry otherwise. Every other
   * table of the visitor is unchanged.
   */
  lemma VisitCatalogues(st: State, r: Referenceable, key: string)
    requires WellFormed(st) && !r.OtherReferenceable? && CatalogueKey(r) == Some(key)
    ensures var (next, ok) := Step(st, r);
      var k := KindOf(r);
      && ok
      && key in next.own[k].value
      && next.own[k].value[key] == (if key in st.own[k].value then st.own[k].value[key] else Entry(r))
      && next.own[k].value.Keys == st.own[k].value.Keys + {key}
      && (forall other :: other in st.own[k].value ==> next.own[k].value[other] == st.own[k].value[other])
      && (forall k' :: k' != k ==> next.own[k'] == st.own[k'])
  {
  }

  /** When the id is already catalogued, the visitor's tables are left exactly as they were. */
  lemma FirstWriterWins(st: State, r: Referenceable, key: string)
    requires WellFormed(st) && !r.OtherReferenceable? && CatalogueKey(r) == Some(key)
    requires key in st.own[KindOf(r)].value
    ensures Step(st, r).0.own == st.own
  {
  }

  /**
   * Visiting a schema reference node catalogues its target, never the node:
   * the only entry a visit can add is the target.
   */
  lemma ReferenceCataloguesTarget(st: State, r: Referenceable)
    requires WellFormed(st) && r.SchemaReference?
    ensures var next := Step(st, r).0;
      forall key :: key in next.own[Schemas].value ==>
        (key in st.own[Schemas].value && next.own[Schemas].value[key] == st.own[Schemas].value[key])
        || next.own[Schemas].value[key] == r.target
  {
  }

  /** A visit whose id is null throws, after ensuring the target's tables and before adding anything. */
  lemma NullIdThrows(st: State, r: Referenceable)
    requires WellFormed(st) && !r.OtherReferenceable? && CatalogueKey(r).None?
    ensures var (next, ok) := Step(st, r);
      !ok && next.own == st.own && next.target == Some(EnsureTarget(st.target, KindOf(r)))
  {
  }

  /**
   * The target's components exist after a visit; the tables the visit's
   * kind asks for exist too; an existing table is never replaced, and no
   * other table is touched.
   */
  lemma TargetTablesEnsured(st: State, r: Referenceable)
    requires WellFormed(st) && !r.OtherReferenceable?
    ensures var next := Step(st, r).0;
      && next.target.Some?
      && (forall k :: k in EnsuredKinds(KindOf(r)) ==> next.target.value[k].Some?)
      && (st.target.Some? ==> forall k :: st.target.value[k].Some? ==> next.target.value[k] == st.target.value[k])
      && (st.target.Some? ==> forall k :: k !in EnsuredKinds(KindOf(r)) ==> next.target.value[k] == st.target.value[k])
  {
  }

  /** Visiting a request body also materialises the target's responses table. */
  lemma RequestBodyEnsuresResponses(st: State, node: ObjId, reference: Option<Reference>)
    requires WellFormed(st)
    ensures var next := Step(st, Component(node, RequestBodies, reference)).0;
      next.target.Some? && next.target.value[Responses].Some? && next.target.value[RequestBodies].Some?
  {
    TargetTablesEnsured(st, Component(node, RequestBodies, reference));
    assert Responses in EnsuredKinds(RequestBodies);
  }

  /**
   * `Visit(OpenApiSchema)` passes over an inline schema without a
   * `Reference`: nothing is added and no table is ensured; the same schema
   * given to `Visit(IOpenApiReferenceable)` throws instead.
   */
  lemma InlineSchemaWithoutReference(st: State, node: ObjId)
    requires WellFormed(st)
    ensures StepSchema(st, Component(node, Schemas, None)) == (st, true)
    ensures !Step(st, Component(node, Schemas, None)).1
  {
  }

  /** Anything that is not a referenceable object of the nine kinds leaves the state alone. */
  lemma OtherIgnored(st: State, node: ObjId)
    requires WellFormed(st)
    ensures Step(st, OtherReferenceable(node)) == (st, true)
  {
  }

  // ---------------------------------------------------------------------------
  // Idempotence
  // ---------------------------------------------------------------------------

  /** The visitor's entries are kept and the target's tables are never replaced from `a` to `b`. */
  predicate Grows(a: State, b: State)
    requires WellFormed(a) && WellFormed(b)
  {
    && (forall k, key :: key in a.own[k].value ==> key in b.own[k].value && b.own[k].value[key] == a.own[k].value[key])
    && (a.target.Some? ==> b.target.Some? && forall k :: a.target.value[k].Some? ==> b.target.value[k] == a.target.value[k])
  }

  lemma GrowsTransitive(a: State, b: State, c: State)
    requires WellFormed(a) && WellFormed(b) && WellFormed(c) && Grows(a, b) && Grows(b, c)
    ensures Grows(a, c)
  {
  }

  /** One visit only grows the state. */
  lemma StepGrows(st: State, r: Referenceable)
    requires WellFormed(st)
    ensures Grows(st, Step(st, r).0)
  {
    if !r.OtherReferenceable? {
      TargetTablesEnsured(st, r);
    }
  }

  /** A walk only grows the state. */
  lemma {:induction false} RunGrows(st: State, rs: seq<Referenceable>)
    requires WellFormed(st)
    ensures Grows(st, Run(st, rs).0)
    decreases |rs|
  {
    if rs != [] {
      var (next, ok) := Step(st, rs[0]);
      StepGrows(st, rs[0]);
      if ok {
        RunGrows(next, rs[1..]);
        GrowsTransitive(st, next, Run(next, rs[1..]).0);
      }
    }
  }

  /** The state already holds everything visiting `r` would put there. */
  predicate Settled(st: State, r: Referenceable)
    requires WellFormed(st)
  {
    !r.OtherReferenceable? ==>
      && st.target.Some?
      && (forall k :: k in EnsuredKinds(KindOf(r)) ==> st.target.value[k].Some?)
      && (CatalogueKey(r).Some? ==> CatalogueKey(r).value in st.own[KindOf(r)].value)
  }

  /** Visiting a settled object changes nothing. */
  lemma SettledStepUnchanged(st: State, r: Referenceable)
    requires WellFormed(st) && Settled(st, r)
    ensures Step(st, r).0 == st
  {
    if !r.OtherReferenceable? {
      var k := KindOf(r);
      assert k in EnsuredKinds(k);
      if k == RequestBodies {
        assert Responses in EnsuredKinds(k);
      }
    }
  }

  /** A visit settles what it visits. */
  lemma StepSettles(st: State, r: Referenceable)
    requires WellFormed(st)
    ensures Settled(Step(st, r).0, r)
  {
    if !r.OtherReferenceable? {
      TargetTablesEnsured(st, r);
      if CatalogueKey(r).Some? {
        VisitCatalogues(st, r, CatalogueKey(r).value);
      }
    }
  }

  /** What is settled stays settled as the state grows. */
  lemma SettledGrows(a: State, b: State, r: Referenceable)
    requires WellFormed(a) && WellFormed(b) && Settled(a, r) && Grows(a, b)
    ensures Settled(b, r)
  {
  }

  /** Visiting the same object twice gives the same state and outcome as visiting it once. */
  lemma VisitIdempotent(st: State, r: Referenceable)
    requires WellFormed(st)
    ensures Step(Step(st, r).0, r) == Step(st, r)
  {
    StepSettles(st, r);
    SettledStepUnchanged(Step(st, r).0, r);
  }

  /** Every visit of a walk, up to the one that throws, is settled by `st`, and the one that throws throws again. */
  predicate SettledFor(st: State, rs: seq<Referenceable>)
    requires WellFormed(st)
    decreases |rs|
  {
    rs != [] ==>
      && Step(st, rs[0]).0 == st
      && (Step(st, rs[0]).1 ==> SettledFor(st, rs[1..]))
  }

  /** A walk over visits settled by `st` changes nothing. */
  lemma {:induction false} SettledRunUnchanged(st: State, rs: seq<Referenceable>)
    requires WellFormed(st) && SettledFor(st, rs)
    ensures Run(st, rs).0 == st
    decreases |rs|
  {
    if rs != [] && Step(st, rs[0]).1 {
      SettledRunUnchanged(st, rs[1..]);
    }
  }

  /** The outcome of a walk over visits settled by `st` does not depend on where it starts growing from. */
  lemma {:induction false} SettledRunOutcome(st: State, u: State, rs: seq<Referenceable>)
    requires WellFormed(st) && WellFormed(u) && SettledFor(u, rs) && Run(st, rs).0 == u
    ensures Run(u, rs).1 == Run(st, rs).1
    decreases |rs|
  {
    if rs != [] {
      var (next, ok) := Step(st, rs[0]);
      if ok {
        assert Run(st, rs) == Run(next, rs[1..]);
        RunGrows(next, rs[1..]);
        StepSettles(st, rs[0]);
        SettledGrows(next, u, rs[0]);
        SettledStepUnchanged(u, rs[0]);
        assert Step(u, rs[0]).1;
        SettledRunOutcome(next, u, rs[1..]);
      } else {
        assert u == next;
        VisitIdempotent(st, rs[0]);
      }
    }
  }

  /** A walk leaves a state that settles it. */
  lemma {:induction false} RunSettles(st: State, rs: seq<Referenceable>)
    requires WellFormed(st)
    ensures SettledFor(Run(st, rs).0, rs)
    decreases |rs|
  {
    if rs != [] {
      var (next, ok) := Step(st, rs[0]);
      var u := Run(st, rs).0;
      if ok {
        RunSettles(next, rs[1..]);
        RunGrows(next, rs[1..]);
        StepSettles(st, rs[0]);
        SettledGrows(next, u, rs[0]);
        SettledStepUnchanged(u, rs[0]);
        assert Step(u, rs[0]).1;
      } else {
        VisitIdempotent(st, rs[0]);
      }
    }
  }

  /** Walking the same visits a second time leaves the tables and the outcome as the first walk left them. */
  lemma {:induction false} RunIdempotent(st: State, rs: seq<Referenceable>)
    requires WellFormed(st)
    ensures Run(Run(st, rs).0, rs) == Run(st, rs)
  {
    var u := Run(st, rs).0;
    RunSettles(st, rs);
    SettledRunUnchanged(u, rs);
    SettledRunOutcome(st, u, rs);
  }

  // ---------------------------------------------------------------------------
  // The objects
  // ---------------------------------------------------------------------------

  /** `OpenApiComponents`: nine tables, each of which may be null. */
  class Components {
    var schemas: Option<Table>
    var parameters: Option<Table>
    var responses: Option<Table>
    var requestBodies: Option<Table>
    var examples: Option<Table>
    var headers: Option<Table>
    var callbacks: Option<Table>
    var links: Option<Table>
    var securitySchemes: Option<Table>

    /** `new OpenApiComponents()`: every table present and empty. */
    constructor ()
      ensures Tables() == EmptyTables()
    {
      schemas, parameters, responses, requestBodies := Some(map[]), Some(map[]), Some(map[]), Some(map[]);
      examples, headers, callbacks, links, securitySchemes := Some(map[]), Some(map[]), Some(map[]), Some(map[]), Some(map[]);
    }

    /** The tables, kind by kind. */
    function Tables(): (t: Tables)
      reads this
      ensures Complete(t)
    {
      TablesOf(schemas, parameters, responses, requestBodies, examples, headers, callbacks, links, securitySchemes)
    }

    /** Assigns the table of kind `k`. */
    method SetTable(k: Kind, t: Option<Table>)
      modifies this
      ensures Tables() == old(Tables())[k := t]
    {
      match k
      case Schemas => schemas := t;
      case Parameters => parameters := t;
      case Responses => responses := t;
      case RequestBodies => requestBodies := t;
      case Examples => examples := t;
      case Headers => headers := t;
      case Callbacks => callbacks := t;
      case Links => links := t;
      case SecuritySchemes => securitySchemes := t;
    }
  }

  /** The document whose components the visitor materialises. */
  class Document {
    var components: Components?

    constructor (components: Components?)
      ensures this.components == components
    {
      this.components := components;
    }
  }

  /** The visitor: the target document and a components section of its own that it fills. */
  class CopyReferences {
    const target: Document
    var components: Components

    /** The visitor's own tables all exist and are not the target's. */
    predicate Valid()
      reads this, components, target
    {
      components != target.components && forall k :: components.Tables()[k].Some?
    }

    /** The state the visits change. */
    function Snapshot(): (st: State)
      reads this, components, target, target.components
      requires Valid()
      ensures WellFormed(st)
    {
      State(components.Tables(), if target.components == null then None else Some(target.components.Tables()))
    }

    constructor (target: Document)
      ensures this.target == target && fresh(components)
      ensures Valid() && components.Tables() == EmptyTables()
    {
      this.target := target;
      components := new Components();
    }

    /** `_target.Components ??= new()`. */
    method EnsureComponentsExist()
      requires Valid()
      modifies target
      ensures Valid()
      ensures target.components != null
      ensures old(target.components) != null ==> target.components == old(target.components)
      ensures old(target.components) == null ==> fresh(target.components) && target.components.Tables() == EmptyTables()
    {
      if target.components == null {
        target.components := new Components();
      }
    }

    /** The `Ensure*Exist` helper of kind `k`: `_target.Components.<table> ??= new Dictionary()`. */
    method EnsureTableExists(k: Kind)
      requires Valid() && target.components != null
      modifies target.components
      ensures Valid()
      ensures target.components.Tables() == EnsureTable(old(target.components.Tables()), k)
    {
      if target.components.Tables()[k].None? {
        target.components.SetTable(k, Some(map[]));
      }
    }

    /** Ensures the tables of kind `k`, then adds `obj` under `key` unless the key is present; `false` when the key is null. */
    method Add(k: Kind, key: Option<string>, obj: ObjId) returns (ok: bool)
      requires Valid()
      modifies components, target, target.components
      ensures Valid()
      ensures (Snapshot(), ok) == Catalogue(old(Snapshot()), k, key, obj)
    {
      ghost var st := Snapshot();
      EnsureComponentsExist();
      if k == RequestBodies {
        EnsureTableExists(Responses);
      }
      EnsureTableExists(k);
      assert target.components.Tables() == EnsureTarget(st.target, k);
      if key.None? {
        ok := false;
      } else {
        var table := components.Tables()[k].value;
        if key.value !in table {
          components.SetTable(k, Some(table[key.value := obj]));
        }
        ok := true;
      }
    }

    /** `AddSchemaToComponents(schema, referenceId)`: catalogues `schema` under `referenceId ?? schema.Reference.Id`. */
    method AddSchemaToComponents(schema: ObjId, schemaReference: Option<Reference>, referenceId: Option<string>) returns (ok: bool)
      requires Valid()
      modifies components, target, target.components
      ensures Valid()
      ensures (Snapshot(), ok) == Catalogue(old(Snapshot()), Schemas, SchemaKey(referenceId, schemaReference), schema)
    {
      ok := Add(Schemas, SchemaKey(referenceId, schemaReference), schema);
    }

    /** `Visit(IOpenApiReferenceable)`; `ok` is false when the visit throws. */
    method Visit(r: Referenceable) returns (ok: bool)
      requires Valid()
      modifies components, target, target.components
      ensures Valid()
      ensures (Snapshot(), ok) == Step(old(Snapshot()), r)
    {
      match r
      case SchemaReference(_, referenceId, schemaTarget, targetReference) =>
        ok := AddSchemaToComponents(schemaTarget, targetReference, referenceId);
      case Component(node, kind, reference) =>
        if kind == Schemas {
          ok := AddSchemaToComponents(node, reference, None);
        } else {
          ok := Add(kind, SchemaKey(None, reference), node);
        }
      case OtherReferenceable(_) =>
        ok := true;
    }

    /** `Visit(OpenApiSchema)`; `ok` is false when the visit throws. */
    method VisitSchema(r: Referenceable) returns (ok: bool)
      requires Valid() && IsSchema(r)
      modifies components, target, target.components
      ensures Valid()
      ensures (Snapshot(), ok) == StepSchema(old(Snapshot()), r)
    {
      if r.SchemaReference? {
        ok := AddSchemaToComponents(r.target, r.targetReference, r.referenceId);
      } else if r.reference.Some? {
        ok := AddSchemaToComponents(r.node, r.reference, None);
      } else {
        ok := true;
      }
    }
  }
}
