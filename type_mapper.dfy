/**
 * Renaming between the API's resource types (catalog, schema, table) and
 * the OpenFGA model's types (warehouse, namespace, lakekeeper_table),
 * applied to bare types, to `type:id` object ids and to identifier
 * triples, plus the builders of hierarchical OpenFGA object ids.
 */
module TypeMapper {
  import opened Wrappers
  import opened Strings

  const ApiCatalog := "catalog"
  const ApiSchema := "schema"
  const ApiTable := "table"
  const ApiColumn := "column"
  const ApiProject := "project"

  const FgaWarehouse := "warehouse"
  const FgaNamespace := "namespace"
  const FgaLakekeeperTable := "lakekeeper_table"
  const FgaColumn := "column"
  const FgaProject := "project"

  const SystemCatalog := "system"
  const FgaSystemProject := "00000000-0000-0000-0000-000000000000"

  /** The API types that are renamed on the way to OpenFGA. */
  const RenamedApiTypes: set<string> := {"catalog", "schema", "table"}
  /** The OpenFGA types that are renamed on the way back to the API. */
  const RenamedFgaTypes: set<string> := {"warehouse", "namespace", "lakekeeper_table"}

  /** API type to OpenFGA type; a type without an entry passes through. */
  function ApiTypeToFgaType(t: string): (r: string)
    ensures t !in RenamedApiTypes ==> r == t
    ensures t == ApiCatalog ==> r == FgaWarehouse
    ensures t == ApiSchema ==> r == FgaNamespace
    ensures t == ApiTable ==> r == FgaLakekeeperTable
    ensures ':' !in t ==> ':' !in r
  {
    if t == ApiCatalog then FgaWarehouse
    else if t == ApiSchema then FgaNamespace
    else if t == ApiTable then FgaLakekeeperTable
    else if t == ApiColumn then FgaColumn
    else if t == ApiProject then FgaProject
    else t
  }

  /** OpenFGA type to API type; a type without an entry passes through. */
  function FgaTypeToApiType(t: string): (r: string)
    ensures t !in RenamedFgaTypes ==> r == t
    ensures t == FgaWarehouse ==> r == ApiCatalog
    ensures t == FgaNamespace ==> r == ApiSchema
    ensures t == FgaLakekeeperTable ==> r == ApiTable
    ensures ':' !in t ==> ':' !in r
  {
    if t == FgaWarehouse then ApiCatalog
    else if t == FgaNamespace then ApiSchema
    else if t == FgaLakekeeperTable then ApiTable
    else if t == FgaColumn then ApiColumn
    else if t == FgaProject then ApiProject
    else t
  }

  /**
   * Going to OpenFGA and back is the identity on every type except the
   * three OpenFGA-only names, which would be read back as API names.
   */
  lemma TypeRoundTrip(t: string)
    ensures t !in RenamedFgaTypes ==> FgaTypeToApiType(ApiTypeToFgaType(t)) == t
    ensures t !in RenamedApiTypes ==> ApiTypeToFgaType(FgaTypeToApiType(t)) == t
    ensures t in RenamedFgaTypes ==> FgaTypeToApiType(ApiTypeToFgaType(t)) in RenamedApiTypes
  {
  }

  /** Python's `s.split(":", 1)` on an object id that contains a colon. */
  function SplitObjectId(s: string): (r: (string, string))
    requires ':' in s
    ensures ':' !in r.0
    ensures r.0 + ":" + r.1 == s
  {
    SplitAtFirst(s, ':')
  }

  /** Renames the type part of an object id with `rename`, keeping the id part. */
  function RenameObjectIdType(s: string, rename: string -> string): string
  {
    if s == "" || ':' !in s then s
    else
      var (t, id) := SplitObjectId(s);
      rename(t) + ":" + id
  }

  /** An API object id (`catalog:x`) as an OpenFGA object id (`warehouse:x`). */
  function ApiObjectIdToFga(s: string): (r: string)
    ensures ':' !in s ==> r == s
    ensures ':' in s <==> ':' in r
  {
    RenameObjectIdType(s, ApiTypeToFgaType)
  }

  /** An OpenFGA object id as an API object id. */
  function FgaObjectIdToApi(s: string): (r: string)
    ensures ':' !in s ==> r == s
    ensures ':' in s <==> ':' in r
  {
    RenameObjectIdType(s, FgaTypeToApiType)
  }

  /**
   * On `t:rest` with a colon-free `t`, only the type part is renamed; the id
   * part is kept whole, later colons included.
   */
  lemma ApiObjectIdToFgaParts(t: string, rest: string)
    requires ':' !in t
    ensures ApiObjectIdToFga(t + ":" + rest) == ApiTypeToFgaType(t) + ":" + rest
    ensures FgaObjectIdToApi(t + ":" + rest) == FgaTypeToApiType(t) + ":" + rest
  {
    SplitAtFirstOf(t, ':', rest);
  }

  /**
   * Python's `parse_object_id`: an id without a colon (or `None`) has the
   * empty type; otherwise the text before and after the first colon.
   */
  function ParseObjectId(s: Option<string>): (r: (string, string))
    ensures s.None? ==> r == ("", "")
    ensures s.Some? && ':' !in s.value ==> r == ("", s.value)
    ensures s.Some? && ':' in s.value ==> ':' !in r.0 && r.0 + ":" + r.1 == s.value
  {
    if s.None? || s.value == "" || ':' !in s.value then ("", if s.None? then "" else s.value)
    else SplitObjectId(s.value)
  }

  /** The cut made by `ParseObjectId` on `t:rest` is exactly `t` and `rest`. */
  lemma ParseObjectIdOf(t: string, rest: string)
    requires ':' !in t
    ensures ParseObjectId(Some(t + ":" + rest)) == (t, rest)
  {
    SplitAtFirstOf(t, ':', rest);
  }

  /**
   * Converting an object id to OpenFGA and back gives it back, unless its
   * type part is an OpenFGA-only name.
   */
  lemma ObjectIdRoundTrip(s: string)
    requires ParseObjectId(Some(s)).0 !in RenamedFgaTypes
    ensures FgaObjectIdToApi(ApiObjectIdToFga(s)) == s
  {
    if ':' in s {
      var (t, rest) := SplitObjectId(s);
      ApiObjectIdToFgaParts(t, rest);
      ApiObjectIdToFgaParts(ApiTypeToFgaType(t), rest);
    }
  }

  /** An identifier triple: object id, resource type, resource id. */
  datatype Identifiers = Identifiers(objectId: string, resourceType: string, resourceId: string)

  /** Converts API identifiers to OpenFGA ones; the resource id is never touched. */
  function ConvertResourceIdentifiersToFga(ids: Identifiers): (r: Identifiers)
    ensures r.resourceId == ids.resourceId
    ensures r.resourceType == ApiTypeToFgaType(ids.resourceType)
    ensures r.objectId == ApiObjectIdToFga(ids.objectId)
  {
    Identifiers(ApiObjectIdToFga(ids.objectId), ApiTypeToFgaType(ids.resourceType), ids.resourceId)
  }

  /** Converts OpenFGA identifiers to API ones; the resource id is never touched. */
  function ConvertResourceIdentifiersFromFga(ids: Identifiers): (r: Identifiers)
    ensures r.resourceId == ids.resourceId
    ensures r.resourceType == FgaTypeToApiType(ids.resourceType)
    ensures r.objectId == FgaObjectIdToApi(ids.objectId)
  {
    Identifiers(FgaObjectIdToApi(ids.objectId), FgaTypeToApiType(ids.resourceType), ids.resourceId)
  }

  /** Identifiers whose object id is `resourceType:resourceId`. */
  predicate WellFormed(ids: Identifiers)
  {
    ':' !in ids.resourceType && ids.objectId == ids.resourceType + ":" + ids.resourceId
  }

  /** Conversion to OpenFGA keeps identifiers well formed. */
  lemma ConvertKeepsWellFormed(ids: Identifiers)
    requires WellFormed(ids)
    ensures WellFormed(ConvertResourceIdentifiersToFga(ids))
    ensures WellFormed(ConvertResourceIdentifiersFromFga(ids))
  {
    ApiObjectIdToFgaParts(ids.resourceType, ids.resourceId);
  }

  /** Converting well-formed identifiers with an API type to OpenFGA and back is the identity. */
  lemma ConvertRoundTrip(ids: Identifiers)
    requires WellFormed(ids)
    requires ids.resourceType !in RenamedFgaTypes
    ensures ConvertResourceIdentifiersFromFga(ConvertResourceIdentifiersToFga(ids)) == ids
  {
    ParseObjectIdOf(ids.resourceType, ids.resourceId);
    ObjectIdRoundTrip(ids.objectId);
    TypeRoundTrip(ids.resourceType);
  }

  /** `warehouse:<catalog>` */
  function FgaCatalogObjectId(catalog: string): string
  {
    FgaWarehouse + ":" + catalog
  }

  /** `project:<project>` */
  function FgaProjectObjectId(project: string): string
  {
    FgaProject + ":" + project
  }

  /** `namespace:<catalog>.<schema>` */
  function FgaSchemaObjectId(catalog: string, schema: string): string
  {
    FgaNamespace + ":" + catalog + "." + schema
  }

  /** `lakekeeper_table:<catalog>.<schema>.<table>` */
  function FgaTableObjectId(catalog: string, schema: string, table: string): string
  {
    FgaLakekeeperTable + ":" + catalog + "." + schema + "." + table
  }

  /** `column:<catalog>.<schema>.<table>.<column>` */
  function FgaColumnObjectId(catalog: string, schema: string, table: string, column: string): string
  {
    FgaColumn + ":" + catalog + "." + schema + "." + table + "." + column
  }

  /** The catalog and project builders parse back to their type and name. */
  lemma CatalogObjectIdParts(c: string)
    ensures ParseObjectId(Some(FgaCatalogObjectId(c))) == (FgaWarehouse, c)
    ensures ParseObjectId(Some(FgaProjectObjectId(c))) == (FgaProject, c)
  {
    ParseObjectIdOf(FgaWarehouse, c);
    ParseObjectIdOf(FgaProject, c);
  }

  /** A schema's id part is its catalog's id part, a dot, and the schema name. */
  lemma SchemaObjectIdParts(c: string, s: string)
    ensures ParseObjectId(Some(FgaSchemaObjectId(c, s)))
         == (FgaNamespace, ParseObjectId(Some(FgaCatalogObjectId(c))).1 + "." + s)
  {
    CatalogObjectIdParts(c);
    var id := c + "." + s;
    assert FgaSchemaObjectId(c, s) == FgaNamespace + ":" + id;
    ParseObjectIdOf(FgaNamespace, id);
  }

  /** A table's id part is its schema's id part, a dot, and the table name. */
  lemma TableObjectIdParts(c: string, s: string, t: string)
    ensures ParseObjectId(Some(FgaTableObjectId(c, s, t)))
         == (FgaLakekeeperTable, ParseObjectId(Some(FgaSchemaObjectId(c, s))).1 + "." + t)
  {
    SchemaObjectIdParts(c, s);
    CatalogObjectIdParts(c);
    var id := c + "." + s + "." + t;
    assert FgaTableObjectId(c, s, t) == FgaLakekeeperTable + ":" + id;
    ParseObjectIdOf(FgaLakekeeperTable, id);
  }

  /** A column's id part is its table's id part, a dot, and the column name. */
  lemma ColumnObjectIdParts(c: string, s: string, t: string, col: string)
    ensures ParseObjectId(Some(FgaColumnObjectId(c, s, t, col)))
         == (FgaColumn, ParseObjectId(Some(FgaTableObjectId(c, s, t))).1 + "." + col)
  {
    TableObjectIdParts(c, s, t);
    SchemaObjectIdParts(c, s);
    CatalogObjectIdParts(c);
    var id := c + "." + s + "." + t + "." + col;
    assert FgaColumnObjectId(c, s, t, col) == FgaColumn + ":" + id;
    ParseObjectIdOf(FgaColumn, id);
  }
}
