/**
 * The legacy object-id builder: the same ordered rules over catalog,
 * schema, table and column as the identifier builder, without the project,
 * role and bare-`create` rules, and with schema-level objects typed
 * `namespace`.
 */
module ObjectBuilder {
  import opened Wrappers
  import opened TypeMapper
  import RB = ResourceBuilder

  /**
   * The type the legacy builder gives to schema-level objects. The constant
   * it imports for this is not defined in the source's constants, so the
   * module as written fails to import; `namespace` is the value assumed here.
   */
  const NamespaceType := "namespace"

  /** The object id `t:id`. */
  function ObjectId(t: string, id: string): string
  {
    t + ":" + id
  }

  /** `build_object_id_from_resource` of the legacy module. */
  function BuildObjectIdFromResource(d: map<string, string>, op: string): (r: Option<string>)
    ensures op == "CreateCatalog" ==> r == Some(ObjectId("catalog", SystemCatalog))
    ensures r.Some? ==> ':' in r.value
  {
    var f := RB.ExtractResourceFields(RB.Dict(d));
    var (c, s, t, col) := (f.catalog, f.schema, f.table, f.column);
    if op == "CreateCatalog" then Some(ObjectId("catalog", SystemCatalog))
    else if op == "CreateSchema" then
      if !Truthy(c) then None else Some(ObjectId("catalog", c.value))
    else if op == "CreateTable" then
      if !Truthy(c) || !Truthy(s) then None
      else Some(ObjectId(NamespaceType, c.value + "." + s.value))
    else if Truthy(col) then
      if !(Truthy(c) && Truthy(s) && Truthy(t)) then None
      else Some(ObjectId("column", c.value + "." + s.value + "." + t.value + "." + col.value))
    else if Truthy(c) && !Truthy(s) && !Truthy(t) then Some(ObjectId("catalog", c.value))
    else if Truthy(t) && Truthy(s) then
      if !Truthy(c) then None else Some(ObjectId("table", c.value + "." + s.value + "." + t.value))
    else if Truthy(s) then
      if !Truthy(c) then None else Some(ObjectId(NamespaceType, c.value + "." + s.value))
    else None
  }

  /** What the legacy builder makes of an identifier-builder result. */
  function AsLegacyObjectId(r: Result<Identifiers, RB.BuildError>): Option<string>
  {
    if r.Failure? then None
    else if r.value.resourceType == "schema" then Some(ObjectId(NamespaceType, r.value.resourceId))
    else Some(r.value.objectId)
  }

  /**
   * On a dictionary without role or project and an operation other than the
   * bare `create` relation, the legacy builder agrees with the identifier
   * builder, except that schema-level ids are typed `namespace`.
   */
  lemma LegacyAgreesWithBuilder(d: map<string, string>, op: string)
    requires !Truthy(RB.ExtractResourceFields(RB.Dict(d)).role)
    requires !Truthy(RB.ExtractResourceFields(RB.Dict(d)).project)
    requires op != "create"
    ensures BuildObjectIdFromResource(d, op)
         == AsLegacyObjectId(RB.Build(RB.ExtractResourceFields(RB.Dict(d)), op))
  {
  }

  /** The Create* rules of the legacy builder. */
  lemma LegacyCreateRules(d: map<string, string>)
    ensures var f := RB.ExtractResourceFields(RB.Dict(d));
      (BuildObjectIdFromResource(d, "CreateSchema").Some? <==> Truthy(f.catalog)) &&
      (BuildObjectIdFromResource(d, "CreateTable").Some? <==> Truthy(f.catalog) && Truthy(f.schema))
    ensures var f := RB.ExtractResourceFields(RB.Dict(d));
      Truthy(f.catalog) && Truthy(f.schema) ==>
        BuildObjectIdFromResource(d, "CreateTable") == Some(ObjectId(NamespaceType, f.catalog.value + "." + f.schema.value))
  {
  }

  /** A column object needs catalog, schema and table. */
  lemma LegacyColumnNeedsAncestors(d: map<string, string>, op: string)
    requires op != "CreateCatalog" && op != "CreateSchema" && op != "CreateTable"
    requires Truthy(RB.ExtractResourceFields(RB.Dict(d)).column)
    ensures var f := RB.ExtractResourceFields(RB.Dict(d));
      BuildObjectIdFromResource(d, op).Some? <==> Truthy(f.catalog) && Truthy(f.schema) && Truthy(f.table)
  {
  }

  /**
   * The two builders part ways on the `create` relation with an empty
   * resource, and on a project field, which only the identifier builder reads.
   */
  lemma LegacyDiffersOnCreateAndProject()
    ensures BuildObjectIdFromResource(map[], "create").None?
    ensures RB.Build(RB.ExtractResourceFields(RB.Dict(map[])), "create").Success?
    ensures BuildObjectIdFromResource(map["project" := "p", "catalog" := "c"], "AccessCatalog")
         == Some("catalog:c")
    ensures RB.Build(RB.ExtractResourceFields(RB.Dict(map["project" := "p", "catalog" := "c"])), "AccessCatalog")
         == Success(RB.Scoped("project", "p"))
  {
    assert ObjectId("catalog", "c") == "catalog:c";
  }
}
