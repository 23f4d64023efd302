/**
 * The validators of the row-filter request bodies: a policy grant must name
 * a table with its catalog and schema, an attribute and at least one
 * allowed value; a listing must name the table whose policies it asks for.
 */
module RowFilterSchemas {
  import opened Wrappers
  import RB = ResourceBuilder

  /** Why a row-filter request body was refused. */
  datatype SchemaError =
    | TableRequired
    | CatalogSchemaTableRequired
    | AttributeNameRequired
    | AllowedValuesRequired
    | TableNamesRequired

  /** The body of a policy grant. */
  datatype RowFilterPolicyGrant = RowFilterPolicyGrant(
    userId: string, resource: RB.ResourceSpec, attributeName: string, allowedValues: seq<string>)

  /** The body of a policy listing: a user and a string dictionary. */
  datatype RowFilterPolicyListRequest = RowFilterPolicyListRequest(
    userId: string, resource: map<string, string>)

  /**
   * `RowFilterPolicyGrant.validate_table_required`: the checks run table,
   * then catalog/schema/table, then attribute, then values; the first that
   * fails decides the error, and an accepted grant is returned unchanged.
   */
  function ValidateTableRequired(g: RowFilterPolicyGrant): (r: Result<RowFilterPolicyGrant, SchemaError>)
    ensures !Truthy(g.resource.table) ==> r == Failure(TableRequired)
    ensures r.Success? <==>
      Truthy(g.resource.catalog) && Truthy(g.resource.schema) && Truthy(g.resource.table) &&
      g.attributeName != "" && |g.allowedValues| > 0
    ensures r.Success? ==> r.value == g
  {
    var s := g.resource;
    if !Truthy(s.table) then Failure(TableRequired)
    else if !Truthy(s.catalog) || !Truthy(s.schema) || !Truthy(s.table) then Failure(CatalogSchemaTableRequired)
    else if g.attributeName == "" then Failure(AttributeNameRequired)
    else if |g.allowedValues| == 0 then Failure(AllowedValuesRequired)
    else Success(g)
  }

  /**
   * Each error names the first check that fails: a missing catalog or
   * schema is reported before the attribute, and the attribute before the values.
   */
  lemma ErrorOrder(g: RowFilterPolicyGrant)
    ensures ValidateTableRequired(g) == Failure(CatalogSchemaTableRequired) <==>
      Truthy(g.resource.table) && !(Truthy(g.resource.catalog) && Truthy(g.resource.schema))
    ensures ValidateTableRequired(g) == Failure(AttributeNameRequired) <==>
      Truthy(g.resource.catalog) && Truthy(g.resource.schema) && Truthy(g.resource.table) &&
      g.attributeName == ""
    ensures ValidateTableRequired(g) == Failure(AllowedValuesRequired) <==>
      Truthy(g.resource.catalog) && Truthy(g.resource.schema) && Truthy(g.resource.table) &&
      g.attributeName != "" && |g.allowedValues| == 0
  {
  }

  /**
   * An accepted grant names a table the identifier builder can scope: its
   * fields build to the table's identifiers for a reading operation.
   */
  lemma AcceptedGrantNamesTable(g: RowFilterPolicyGrant)
    requires ValidateTableRequired(g).Success?
    requires !Truthy(g.resource.project) && !Truthy(g.resource.role) && !Truthy(g.resource.column)
    ensures var s := g.resource;
      RB.Build(RB.ExtractResourceFields(RB.Model(s)), "select")
        == Success(RB.Scoped("table", s.catalog.value + "." + s.schema.value + "." + s.table.value))
  {
  }

  /**
   * `RowFilterPolicyListRequest.validate_resource`: each of catalog,
   * schema and table is read from the `<x>_name` key, falling back to
   * `<x>`, and all three must be non-empty. The source repeats this
   * validator, unchanged, for column-mask list requests
   * (`ColumnMaskSchemas.ValidateResource`).
   */
  function ValidateResource(req: RowFilterPolicyListRequest): (r: Result<RowFilterPolicyListRequest, SchemaError>)
    ensures r.Success? <==>
      (Truthy(Get(req.resource, "catalog_name")) || Truthy(Get(req.resource, "catalog"))) &&
      (Truthy(Get(req.resource, "schema_name")) || Truthy(Get(req.resource, "schema"))) &&
      (Truthy(Get(req.resource, "table_name")) || Truthy(Get(req.resource, "table")))
    ensures r.Success? ==> r.value == req
    ensures r.Failure? ==> r.error == TableNamesRequired
  {
    var d := req.resource;
    var catalog := Or(Get(d, "catalog_name"), Get(d, "catalog"));
    var schema := Or(Get(d, "schema_name"), Get(d, "schema"));
    var table := Or(Get(d, "table_name"), Get(d, "table"));
    if Truthy(catalog) && Truthy(schema) && Truthy(table) then Success(req)
    else Failure(TableNamesRequired)
  }

  /**
   * A listing is accepted exactly when the identifier builder finds a
   * catalog, a schema and a table in its dictionary.
   */
  lemma ListValidatorAgreesWithBuilder(req: RowFilterPolicyListRequest)
    ensures var f := RB.ExtractResourceFields(RB.Dict(req.resource));
      ValidateResource(req).Success? <==> Truthy(f.catalog) && Truthy(f.schema) && Truthy(f.table)
  {
  }
}
