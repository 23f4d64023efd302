/**
 * The validators of the column-mask request bodies: a grant must name a
 * column together with its catalog, schema and table, and a listing must
 * name the table whose masked columns it asks for.
 */
module ColumnMaskSchemas {
  import opened Wrappers
  import RB = ResourceBuilder
  import CMS = ColumnMaskService

  /** Why a column-mask request body was refused. */
  datatype SchemaError =
    | ColumnRequired
    | CatalogSchemaTableRequired
    | TableNamesRequired

  /** The body of a listing: a user, an optional tenant and a string dictionary. */
  datatype ColumnMaskListRequest = ColumnMaskListRequest(
    userId: string, tenantId: Option<string>, resource: map<string, string>)

  /**
   * `ColumnMaskGrant.validate_column_required`: the column is checked
   * first; the grant is accepted unchanged once all four names are present.
   */
  function ValidateColumnRequired(g: CMS.ColumnMaskGrant): (r: Result<CMS.ColumnMaskGrant, SchemaError>)
    ensures !Truthy(g.resource.column) ==> r == Failure(ColumnRequired)
    ensures r.Success? <==>
      Truthy(g.resource.catalog) && Truthy(g.resource.schema) &&
      Truthy(g.resource.table) && Truthy(g.resource.column)
    ensures r.Success? ==> r.value == g
  {
    var s := g.resource;
    if !Truthy(s.column) then Failure(ColumnRequired)
    else if !Truthy(s.catalog) || !Truthy(s.schema) || !Truthy(s.table) then Failure(CatalogSchemaTableRequired)
    else Success(g)
  }

  /**
   * An accepted grant without a project or role has a column object to
   * write its `mask` tuple on: the service does not refuse it.
   */
  lemma AcceptedGrantHasMaskTarget(g: CMS.ColumnMaskGrant)
    requires ValidateColumnRequired(g).Success?
    requires !Truthy(g.resource.project) && !Truthy(g.resource.role)
    ensures CMS.MaskTarget(g.resource).Success?
    ensures CMS.GrantColumnMask(g).Success?
  {
    CMS.GrantObjectIsColumnObject(g);
  }

  /**
   * The validator does not read the project or role fields, so a grant
   * naming a role passes it and is refused by the service afterwards.
   */
  lemma AcceptedRoleGrantRefusedByService(g: CMS.ColumnMaskGrant)
    requires ValidateColumnRequired(g).Success?
    requires Truthy(g.resource.role)
    ensures CMS.MaskTarget(g.resource).Failure?
  {
    CMS.ProjectOrRoleNotAColumn(g.resource);
  }

  /**
   * `ColumnMaskListRequest.validate_resource`: each of catalog, schema and
   * table is read from the `<x>_name` key, falling back to `<x>`, and all
   * three must be non-empty. This mirrors the source's own copy of the
   * row-filter list validator (`RowFilterSchemas.ValidateResource`).
   */
  function ValidateResource(req: ColumnMaskListRequest): (r: Result<ColumnMaskListRequest, SchemaError>)
    ensures r.Success? <==>
      (Truthy(Get(req.resource, "catalog_name")) || Truthy(Get(req.resource, "catalog"))) &&
      (Truthy(Get(req.resource, "schema_name")) || Truthy(Get(req.resource, "schema"))) &&
      (Truthy(Get(req.resource, "table_name")) || Truthy(Get(req.resource, "table")))
    ensures r.Success? ==> r.value == req
    ensures r.Failure? ==> r.error == TableNamesRequired
  {
    var d := req.resource;
    var catalog := Or(Get(d, "catalog_name"), Get(d, "catalog"));
    var schema := Or(Get(d, "schema_name"), Get(d, "schema"));
    var table := Or(Get(d, "table_name"), Get(d, "table"));
    if Truthy(catalog) && Truthy(schema) && Truthy(table) then Success(req)
    else Failure(TableNamesRequired)
  }

  /**
   * The validator reads the dictionary the way the identifier builder does:
   * a listing is accepted exactly when the builder finds a catalog, a
   * schema and a table in it.
   */
  lemma ListValidatorAgreesWithBuilder(req: ColumnMaskListRequest)
    ensures var f := RB.ExtractResourceFields(RB.Dict(req.resource));
      ValidateResource(req).Success? <==> Truthy(f.catalog) && Truthy(f.schema) && Truthy(f.table)
  {
  }

  /** An empty `<x>_name` value falls back to the bare key. */
  lemma EmptySuffixedKeyFallsBack()
    ensures ValidateResource(ColumnMaskListRequest("u", None,
      map["catalog_name" := "", "catalog" := "c", "schema" := "s", "table" := "t"])).Success?
    ensures ValidateResource(ColumnMaskListRequest("u", None,
      map["catalog_name" := "c", "schema_name" := "s", "table" := ""])).Failure?
  {
  }
}
