/**
 * Turning a loosely specified resource (a request dictionary or a resource
 * model) into the identifier triple `(object_id, resource_type,
 * resource_id)` that permission checks and grants are made on.
 */
module ResourceBuilder {
  import opened Wrappers
  import opened TypeMapper

  /** The resource model of grant and revoke requests; every field is optional. */
  datatype ResourceSpec = ResourceSpec(
    catalog: Option<string>, schema: Option<string>, table: Option<string>,
    column: Option<string>, role: Option<string>, project: Option<string>,
    tenant: Option<string>)

  /** A resource as the builder receives it: a string dictionary or a model. */
  datatype Resource = Dict(entries: map<string, string>) | Model(spec: ResourceSpec)

  /** The six names the builder works from. */
  datatype Fields = Fields(
    catalog: Option<string>, schema: Option<string>, table: Option<string>,
    column: Option<string>, role: Option<string>, project: Option<string>)

  /** Why a resource could not be turned into identifiers. */
  datatype BuildError =
    | CreateSchemaNeedsCatalog
    | CreateTableNeedsCatalogAndSchema
    | ColumnNeedsCatalogSchemaAndTable
    | TableNeedsCatalog
    | SchemaNeedsCatalog
    | NotEnoughInformation

  /** `d.get(nameKey) or d.get(key)`. */
  function DictField(d: map<string, string>, nameKey: string, key: string): (r: Option<string>)
    ensures Truthy(r) <==> Truthy(Get(d, nameKey)) || Truthy(Get(d, key))
    ensures Truthy(Get(d, nameKey)) ==> r == Some(d[nameKey])
    ensures !Truthy(Get(d, nameKey)) ==> r == Get(d, key)
  {
    Or(Get(d, nameKey), Get(d, key))
  }

  /**
   * The six names of a resource. A dictionary is read through the
   * `<x>_name` key first and the bare `<x>` key as fallback; a model is read
   * attribute by attribute, and its tenant is not used.
   */
  function ExtractResourceFields(r: Resource): (f: Fields)
    ensures r.Model? ==> f == Fields(r.spec.catalog, r.spec.schema, r.spec.table,
                                     r.spec.column, r.spec.role, r.spec.project)
    ensures r.Dict? ==> (Truthy(f.schema) <==>
      Truthy(Get(r.entries, "schema_name")) || Truthy(Get(r.entries, "schema")))
  {
    match r
    case Dict(d) =>
      Fields(DictField(d, "catalog_name", "catalog"), DictField(d, "schema_name", "schema"),
             DictField(d, "table_name", "table"), DictField(d, "column_name", "column"),
             DictField(d, "role_name", "role"), DictField(d, "project_name", "project"))
    case Model(s) =>
      Fields(s.catalog, s.schema, s.table, s.column, s.role, s.project)
  }

  /** Identifiers of type `t` for the name `id`, with object id `t:id`. */
  function Scoped(t: string, id: string): (r: Identifiers)
    ensures r.resourceType == t && r.resourceId == id
    ensures ':' !in t ==> WellFormed(r)
  {
    Identifiers(t + ":" + id, t, id)
  }

  /** The API types the builder produces. */
  const ApiTypes: set<string> := {"catalog", "schema", "table", "column", "role", "project"}

  /**
   * The core of `build_resource_identifiers`: the ordered chain of rules of
   * the source, with each failing rule reported by its own error.
   */
  function Build(f: Fields, op: string): (r: Result<Identifiers, BuildError>)
    ensures r.Success? ==> WellFormed(r.value) && r.value.resourceType in ApiTypes
    // a result never names a scope whose ancestors were not all supplied
    ensures r.Success? && r.value.resourceType == "column" ==>
      Truthy(f.catalog) && Truthy(f.schema) && Truthy(f.table) && Truthy(f.column) &&
      r.value.resourceId == f.catalog.value + "." + f.schema.value + "." + f.table.value
                            + "." + f.column.value
    ensures r.Success? && r.value.resourceType == "table" ==>
      Truthy(f.catalog) && Truthy(f.schema) && Truthy(f.table) &&
      r.value.resourceId == f.catalog.value + "." + f.schema.value + "." + f.table.value
    ensures r.Success? && r.value.resourceType == "schema" ==>
      Truthy(f.catalog) && Truthy(f.schema) &&
      r.value.resourceId == f.catalog.value + "." + f.schema.value
    ensures r.Success? && r.value.resourceType == "catalog" ==>
      r.value.resourceId == SystemCatalog ||
      (Truthy(f.catalog) && r.value.resourceId == f.catalog.value)
  {
    if Truthy(f.project) then Success(Scoped("project", f.project.value))
    else if Truthy(f.role) then Success(Scoped("role", f.role.value))
    else if op == "CreateCatalog" ||
            (op == "create" && !Truthy(f.catalog) && !Truthy(f.schema) && !Truthy(f.table)) then
      Success(Scoped("catalog", SystemCatalog))
    else if op == "CreateSchema" then
      if !Truthy(f.catalog) then Failure(CreateSchemaNeedsCatalog)
      else Success(Scoped("catalog", f.catalog.value))
    else if op == "CreateTable" then
      if !Truthy(f.catalog) || !Truthy(f.schema) then Failure(CreateTableNeedsCatalogAndSchema)
      else Success(Scoped("schema", f.catalog.value + "." + f.schema.value))
    else if Truthy(f.column) then
      if !(Truthy(f.catalog) && Truthy(f.schema) && Truthy(f.table)) then
        Failure(ColumnNeedsCatalogSchemaAndTable)
      else
        Success(Scoped("column", f.catalog.value + "." + f.schema.value + "." + f.table.value
                                 + "." + f.column.value))
    else if Truthy(f.catalog) && !Truthy(f.schema) && !Truthy(f.table) then
      Success(Scoped("catalog", f.catalog.value))
    else if Truthy(f.table) && Truthy(f.schema) then
      if !Truthy(f.catalog) then Failure(TableNeedsCatalog)
      else
        Success(Scoped("table", f.catalog.value + "." + f.schema.value + "." + f.table.value))
    else if Truthy(f.schema) then
      if !Truthy(f.catalog) then Failure(SchemaNeedsCatalog)
      else Success(Scoped("schema", f.catalog.value + "." + f.schema.value))
    else Failure(NotEnoughInformation)
  }

  /**
   * `build_resource_identifiers`: a failing rule raises when
   * `raiseOnError` is set and gives `None` otherwise.
   */
  function BuildResourceIdentifiers(resource: Resource, op: string, raiseOnError: bool)
    : (r: Result<Option<Identifiers>, BuildError>)
    ensures r.Failure? <==> raiseOnError && Build(ExtractResourceFields(resource), op).Failure?
    ensures r.Success? && r.value.Some? <==> Build(ExtractResourceFields(resource), op).Success?
    ensures r.Success? && r.value.Some? ==>
      r.value.value == Build(ExtractResourceFields(resource), op).value
  {
    match Build(ExtractResourceFields(resource), op)
    case Success(ids) => Success(Some(ids))
    case Failure(e) => if raiseOnError then Failure(e) else Success(None)
  }

  /** The legacy entry point: only the object id, `None` when nothing can be built. */
  function BuildObjectIdFromResource(d: map<string, string>, op: string): (r: Option<string>)
    ensures r.Some? <==> Build(ExtractResourceFields(Dict(d)), op).Success?
    ensures r.Some? ==> ':' in r.value
  {
    match BuildResourceIdentifiers(Dict(d), op, false)
    case Success(Some(ids)) => Some(ids.objectId)
    case _ => None
  }

  /**
   * `build_fga_resource_identifiers`: the same identifiers with the type
   * renamed for OpenFGA; `None` and errors pass through unchanged.
   */
  function BuildFgaResourceIdentifiers(resource: Resource, op: string, raiseOnError: bool)
    : (r: Result<Option<Identifiers>, BuildError>)
    ensures r.Failure? <==> BuildResourceIdentifiers(resource, op, raiseOnError).Failure?
    ensures r.Failure? ==> r.error == BuildResourceIdentifiers(resource, op, raiseOnError).error
    ensures r.Success? ==> (r.value.Some? <==> Build(ExtractResourceFields(resource), op).Success?)
    ensures r.Success? && r.value.Some? ==>
      var api := Build(ExtractResourceFields(resource), op).value;
      WellFormed(r.value.value) &&
      r.value.value.resourceType == ApiTypeToFgaType(api.resourceType) &&
      r.value.value.resourceId == api.resourceId
  {
    match BuildResourceIdentifiers(resource, op, raiseOnError)
    case Failure(e) => Failure(e)
    case Success(None) => Success(None)
    case Success(Some(ids)) =>
      ConvertKeepsWellFormed(ids);
      Success(Some(ConvertResourceIdentifiersToFga(ids)))
  }

  // ---------------------------------------------------------------------------
  // The rules of the chain, one lemma each
  // ---------------------------------------------------------------------------

  /** A non-empty project wins over every other field and over the operation. */
  lemma ProjectWins(f: Fields, op: string)
    requires Truthy(f.project)
    ensures Build(f, op) == Success(Scoped("project", f.project.value))
  {
  }

  /** Without a project, a role comes next, before any Create* rule. */
  lemma RoleBeforeCreateRules(f: Fields, op: string)
    requires !Truthy(f.project) && Truthy(f.role)
    ensures Build(f, op) == Success(Scoped("role", f.role.value))
  {
  }

  /**
   * CreateCatalog, and the bare `create` relation with no catalog, schema
   * or table, resolve to `catalog:system` whatever catalog is supplied.
   */
  lemma CreateCatalogOnSystem(f: Fields, op: string)
    requires !Truthy(f.project) && !Truthy(f.role)
    requires op == "CreateCatalog" ||
             (op == "create" && !Truthy(f.catalog) && !Truthy(f.schema) && !Truthy(f.table))
    ensures Build(f, op) == Success(Scoped("catalog", "system"))
  {
  }

  /** CreateSchema is authorised on the parent catalog, which it requires. */
  lemma CreateSchemaOnCatalog(f: Fields)
    requires !Truthy(f.project) && !Truthy(f.role)
    ensures !Truthy(f.catalog) ==> Build(f, "CreateSchema") == Failure(CreateSchemaNeedsCatalog)
    ensures Truthy(f.catalog) ==>
      Build(f, "CreateSchema") == Success(Scoped("catalog", f.catalog.value))
  {
  }

  /** CreateTable is authorised on the parent schema, which needs catalog and schema. */
  lemma CreateTableOnSchema(f: Fields)
    requires !Truthy(f.project) && !Truthy(f.role)
    ensures !(Truthy(f.catalog) && Truthy(f.schema)) ==>
      Build(f, "CreateTable") == Failure(CreateTableNeedsCatalogAndSchema)
    ensures Truthy(f.catalog) && Truthy(f.schema) ==>
      Build(f, "CreateTable") ==
        Success(Scoped("schema", f.catalog.value + "." + f.schema.value))
  {
  }

  /** The operations that have a rule of their own before the generic scope rules. */
  predicate GenericOperation(op: string)
  {
    op != "CreateCatalog" && op != "CreateSchema" && op != "CreateTable"
  }

  /**
   * A column needs all its ancestors and then names the column. (A bare
   * column under the `create` relation was already taken by the
   * `catalog:system` rule.)
   */
  lemma ColumnScope(f: Fields, op: string)
    requires !Truthy(f.project) && !Truthy(f.role) && GenericOperation(op) && Truthy(f.column)
    requires op != "create" || Truthy(f.catalog) || Truthy(f.schema) || Truthy(f.table)
    ensures !(Truthy(f.catalog) && Truthy(f.schema) && Truthy(f.table)) ==>
      Build(f, op) == Failure(ColumnNeedsCatalogSchemaAndTable)
    ensures Truthy(f.catalog) && Truthy(f.schema) && Truthy(f.table) ==>
      var id := f.catalog.value + "." + f.schema.value + "." + f.table.value + "." + f.column.value;
      Build(f, op) == Success(Scoped("column", id))
  {
  }

  /** Without a column, the most specific scope whose ancestors are all present is chosen. */
  lemma ScopeSelection(f: Fields, op: string)
    requires !Truthy(f.project) && !Truthy(f.role) && GenericOperation(op) && !Truthy(f.column)
    requires Truthy(f.catalog)
    ensures !Truthy(f.schema) && !Truthy(f.table) ==>
      Build(f, op) == Success(Scoped("catalog", f.catalog.value))
    ensures Truthy(f.schema) && Truthy(f.table) ==>
      var id := f.catalog.value + "." + f.schema.value + "." + f.table.value;
      Build(f, op) == Success(Scoped("table", id))
    ensures Truthy(f.schema) && !Truthy(f.table) ==>
      var id := f.catalog.value + "." + f.schema.value;
      Build(f, op) == Success(Scoped("schema", id))
  {
  }

  /**
   * A missing ancestor is never papered over by a broader scope: table and
   * schema without catalog, schema without catalog, and a table without
   * its schema all fail.
   */
  lemma MissingAncestorsNotPromoted(f: Fields, op: string)
    requires !Truthy(f.project) && !Truthy(f.role) && GenericOperation(op)
    ensures Truthy(f.table) && Truthy(f.schema) && !Truthy(f.catalog) ==> Build(f, op).Failure?
    ensures Truthy(f.schema) && !Truthy(f.catalog) ==> Build(f, op).Failure?
    ensures Truthy(f.table) && !Truthy(f.schema) ==> Build(f, op).Failure?
  {
  }

  /** On a dictionary, the `<x>_name` key is preferred and the bare key is the fallback. */
  lemma DictKeysPreferSuffixed(d: map<string, string>)
    ensures Truthy(Get(d, "catalog_name")) ==> ExtractResourceFields(Dict(d)).catalog == Some(d["catalog_name"])
    ensures !Truthy(Get(d, "catalog_name")) ==> ExtractResourceFields(Dict(d)).catalog == Get(d, "catalog")
    ensures Truthy(Get(d, "schema_name")) ==> ExtractResourceFields(Dict(d)).schema == Some(d["schema_name"])
    ensures !Truthy(Get(d, "schema_name")) ==> ExtractResourceFields(Dict(d)).schema == Get(d, "schema")
    ensures Truthy(Get(d, "table_name")) ==> ExtractResourceFields(Dict(d)).table == Some(d["table_name"])
    ensures !Truthy(Get(d, "table_name")) ==> ExtractResourceFields(Dict(d)).table == Get(d, "table")
  {
  }
}
