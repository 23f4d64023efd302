/**
 * The constant table from Trino operation names to OpenFGA relations, and
 * the rule that turns a bare Trino user name into an OpenFGA user.
 */
module OperationMapper {
  import opened Wrappers

  /** The relations the table can produce. */
  const Relations: set<string> :=
    {"select", "describe", "create", "modify", "manage_grants", "mask"}

  /** The operations that have an entry in the table. */
  const MappedOperations: set<string> := {
    "AccessCatalog", "ShowCatalogs", "CreateCatalog", "DropCatalog", "FilterCatalogs",
    "ShowSchemas", "CreateSchema", "DropSchema", "RenameSchema", "SetSchemaAuthorization",
    "FilterSchemas", "CreateTable", "CreateView",
    "ShowTables", "DropTable", "RenameTable", "SetTableComment", "SetTableAuthorization",
    "FilterTables",
    "SelectFromColumns", "InsertIntoTable", "UpdateTableColumns", "DeleteFromTable",
    "TruncateTable",
    "ShowColumns", "FilterColumns", "AddColumn", "DropColumn", "RenameColumn",
    "SetColumnComment",
    "MaskColumn",
    "DropView", "RenameView", "SetViewComment", "RefreshMaterializedView",
    "ExecuteQuery"
  }

  /** The operations whose relation is `create`. */
  const CreateOperations: set<string> :=
    {"CreateCatalog", "CreateSchema", "CreateTable", "CreateView"}

  /**
   * The table lookup: the relation of a listed operation, `None` for any
   * other name (Python's `dict.get`).
   */
  function MapOperationToRelation(op: string): (r: Option<string>)
    ensures r.Some? <==> op in MappedOperations
    ensures r.Some? ==> r.value in Relations
    ensures r == Some("mask") <==> op == "MaskColumn"
    ensures r == Some("create") <==> op in CreateOperations
  {
    match op
    case "AccessCatalog" => Some("select")
    case "ShowCatalogs" => Some("describe")
    case "CreateCatalog" => Some("create")
    case "DropCatalog" => Some("modify")
    case "FilterCatalogs" => Some("describe")
    case "ShowSchemas" => Some("describe")
    case "CreateSchema" => Some("create")
    case "DropSchema" => Some("modify")
    case "RenameSchema" => Some("modify")
    case "SetSchemaAuthorization" => Some("manage_grants")
    case "FilterSchemas" => Some("describe")
    case "CreateTable" => Some("create")
    case "CreateView" => Some("create")
    case "ShowTables" => Some("describe")
    case "DropTable" => Some("modify")
    case "RenameTable" => Some("modify")
    case "SetTableComment" => Some("describe")
    case "SetTableAuthorization" => Some("manage_grants")
    case "FilterTables" => Some("describe")
    case "SelectFromColumns" => Some("select")
    case "InsertIntoTable" => Some("modify")
    case "UpdateTableColumns" => Some("modify")
    case "DeleteFromTable" => Some("modify")
    case "TruncateTable" => Some("modify")
    case "ShowColumns" => Some("describe")
    case "FilterColumns" => Some("describe")
    case "AddColumn" => Some("modify")
    case "DropColumn" => Some("modify")
    case "RenameColumn" => Some("modify")
    case "SetColumnComment" => Some("describe")
    case "MaskColumn" => Some("mask")
    case "DropView" => Some("modify")
    case "RenameView" => Some("modify")
    case "SetViewComment" => Some("describe")
    case "RefreshMaterializedView" => Some("modify")
    case "ExecuteQuery" => Some("describe")
    case _ => None
  }

  /** Operations Trino sends that the table does not list. */
  lemma UnmappedOperations()
    ensures MapOperationToRelation("GetColumnMask").None?
    ensures MapOperationToRelation("GetRowFilters").None?
    ensures MapOperationToRelation("ViewQueryOwnedBy").None?
    ensures MapOperationToRelation("ExecuteFunction").None?
  {
  }

  /** The relations of the operations the permission check treats specially. */
  lemma SpecialOperationRelations()
    ensures MapOperationToRelation("AccessCatalog") == Some("select")
    ensures MapOperationToRelation("ShowSchemas") == Some("describe")
    ensures MapOperationToRelation("ShowTables") == Some("describe")
    ensures MapOperationToRelation("ShowColumns") == Some("describe")
    ensures MapOperationToRelation("SelectFromColumns") == Some("select")
  {
  }

  /**
   * The OpenFGA user for a user id: an id that already names its type
   * (contains ':') is taken as is, a bare name becomes `user:<name>`.
   */
  function BuildUserIdentifier(userId: string): (r: string)
    ensures ':' in r
    ensures ':' in userId ==> r == userId
    ensures ':' !in userId ==> r == "user:" + userId
  {
    if ':' in userId then userId else "user:" + userId
  }

  /** Building a user identifier twice is the same as building it once. */
  lemma BuildUserIdentifierIdempotent(userId: string)
    ensures BuildUserIdentifier(BuildUserIdentifier(userId)) == BuildUserIdentifier(userId)
  {
  }

  /** A bare name is recovered from its identifier by dropping the `user:` prefix. */
  lemma BuildUserIdentifierBareName(userId: string)
    requires ':' !in userId
    ensures "user:" <= BuildUserIdentifier(userId)
    ensures BuildUserIdentifier(userId)[5..] == userId
  {
  }
}
