/**
 * The hierarchical permission decision behind every Trino authorisation
 * request, and the identifier handling of grants and revocations.
 *
 * A decision first works out, from the request alone, whether it is denied
 * outright, allowed outright (the information_schema bypass), or which
 * relation on which object to ask the store about (`PlanOf`). It then asks
 * the store: the target itself, the widening rules for catalog and schema
 * listings, and the table→namespace→warehouse fallback (`Resolve`).
 * `CheckPermission` performs these steps one query at a time.
 */
module PermissionService {
  import opened Wrappers
  import opened Strings
  import opened OperationMapper
  import opened TypeMapper
  import opened RelationshipStore
  import RB = ResourceBuilder

  /** A permission check request: who, on which resource dictionary, doing what. */
  datatype CheckRequest = CheckRequest(userId: string, resource: map<string, string>, operation: string)

  /** Operations allowed on information_schema without asking the store. */
  const ReadOperations: set<string> :=
    {"SelectFromColumns", "ShowTables", "ShowColumns", "ShowSchemas", "GetColumnMask"}

  /** Relations tried on a warehouse after its direct check failed. */
  const WarehouseWideningRelations: seq<string> := ["describe", "modify", "create"]
  /** The relations of warehouses and namespaces. */
  const ContainerRelations: seq<string> := ["select", "describe", "modify", "create"]
  /** The relations of tables (tables have no `create`). */
  const TableRelations: seq<string> := ["select", "describe", "modify"]

  /** What a request comes to before the store is consulted. */
  datatype Plan = Deny | Allow | Query(relation: string, user: string, target: Identifiers)

  /**
   * The table a column object belongs to: the first three dot-separated
   * parts of its id, if the id has at least four.
   */
  function ColumnToTable(t: Identifiers): Option<Identifiers>
  {
    var parts := Split(t.resourceId, '.');
    if |parts| >= 4 then
      Some(Identifiers(FgaTableObjectId(parts[0], parts[1], parts[2]), FgaLakekeeperTable,
                       parts[0] + "." + parts[1] + "." + parts[2]))
    else None
  }

  /** The request has `schema` set to `information_schema`. */
  predicate OnInformationSchema(req: CheckRequest)
  {
    Get(req.resource, "schema") == Some("information_schema")
  }

  /**
   * The steps before the first query: unknown operation, unbuildable
   * resource, the CreateCatalog redirect to the project, the
   * information_schema bypass and the column→table redirect.
   */
  function PlanOf(req: CheckRequest): Plan
  {
    var relation := MapOperationToRelation(req.operation);
    if relation.None? then Deny
    else
      match RB.BuildFgaResourceIdentifiers(RB.Dict(req.resource), req.operation, false)
      case Failure(_) => Deny
      case Success(None) => Deny
      case Success(Some(ids)) => PlanFor(req, relation.value, ids)
  }

  /** The plan once the relation and the identifiers are known. */
  function PlanFor(req: CheckRequest, relation: string, ids: Identifiers): Plan
  {
    var user := BuildUserIdentifier(req.userId);
    var target :=
      if req.operation == "CreateCatalog" then ids.(objectId := FgaProjectObjectId(FgaSystemProject))
      else ids;
    if OnInformationSchema(req) && req.operation in ReadOperations then Allow
    else if target.resourceType == FgaColumn && relation != "mask" then
      match ColumnToTable(target)
      case None => Deny
      case Some(table) => Query(relation, user, table)
    else Query(relation, user, target)
  }

  /** Some relation of `rels` on `obj` is granted. */
  predicate AnyCheck(store: Store, user: string, rels: seq<string>, obj: string)
  {
    exists i :: 0 <= i < |rels| && store.check(user, rels[i], obj) == Ok(true)
  }

  /** Some listing of `objectType` under a relation of `rels` has an object under `prefix`. */
  predicate AnyListed(store: Store, user: string, rels: seq<string>, objectType: string, prefix: string)
  {
    exists i :: 0 <= i < |rels| && ListedUnder(store.listObjects(user, rels[i], objectType), prefix)
  }

  /**
   * AccessCatalog and ShowSchemas on a warehouse: any other relation on the
   * warehouse, or any namespace or table the user holds inside it.
   */
  predicate CatalogWidening(store: Store, user: string, op: string, t: Identifiers)
  {
    (op == "AccessCatalog" || op == "ShowSchemas") && t.resourceType == FgaWarehouse &&
    (AnyCheck(store, user, WarehouseWideningRelations, t.objectId) ||
     AnyListed(store, user, ContainerRelations, FgaNamespace, FgaNamespace + ":" + t.resourceId + ".") ||
     AnyListed(store, user, TableRelations, FgaLakekeeperTable, FgaLakekeeperTable + ":" + t.resourceId + "."))
  }

  /**
   * ShowTables and ShowSchemas on a namespace `c.s`: any relation on the
   * namespace, any table under `c.s.`, or any relation on warehouse `c`.
   */
  predicate SchemaWidening(store: Store, user: string, op: string, t: Identifiers)
  {
    (op == "ShowTables" || op == "ShowSchemas") && t.resourceType == FgaNamespace &&
    var parts := Split(t.resourceId, '.');
    |parts| >= 2 &&
    (AnyCheck(store, user, ContainerRelations, t.objectId) ||
     AnyListed(store, user, TableRelations, FgaLakekeeperTable,
               FgaLakekeeperTable + ":" + parts[0] + "." + parts[1] + ".") ||
     AnyCheck(store, user, ContainerRelations, FgaCatalogObjectId(parts[0])))
  }

  /**
   * The parent-scope fallback: a table asks its namespace, then its
   * warehouse; a namespace asks its warehouse; ShowColumns asks nothing.
   * These queries are not guarded, so a raise denies.
   */
  predicate Fallback(store: Store, user: string, op: string, rel: string, t: Identifiers)
  {
    if op == "ShowColumns" then false
    else if t.resourceType == FgaLakekeeperTable then
      var parts := Split(t.resourceId, '.');
      |parts| >= 3 &&
      match store.check(user, rel, FgaSchemaObjectId(parts[0], parts[1]))
      case Raised => false
      case Ok(granted) => granted || store.check(user, rel, FgaCatalogObjectId(parts[0])) == Ok(true)
    else if t.resourceType == FgaNamespace then
      var parts := Split(t.resourceId, '.');
      |parts| >= 2 && store.check(user, rel, FgaCatalogObjectId(parts[0])) == Ok(true)
    else false
  }

  /** The store-dependent part of a decision, once the target is known. */
  predicate Resolve(store: Store, user: string, op: string, rel: string, t: Identifiers)
  {
    match store.check(user, rel, t.objectId)
    case Raised => false
    case Ok(granted) =>
      granted || CatalogWidening(store, user, op, t) || SchemaWidening(store, user, op, t) ||
      Fallback(store, user, op, rel, t)
  }

  /** The decision for a request against a store. */
  predicate Decide(store: Store, req: CheckRequest)
  {
    match PlanOf(req)
    case Deny => false
    case Allow => true
    case Query(rel, user, t) => Resolve(store, user, req.operation, rel, t)
  }

  // ---------------------------------------------------------------------------
  // The decision, one query at a time
  // ---------------------------------------------------------------------------

  /** A positive answer in `b` is a positive answer in `a + b`. */
  lemma PositiveInSuffix(store: Store, a: seq<Call>, b: seq<Call>)
    requires exists i :: 0 <= i < |b| && Positive(store, b[i])
    ensures exists i :: 0 <= i < |a + b| && Positive(store, (a + b)[i])
  {
    var i :| 0 <= i < |b| && Positive(store, b[i]);
    assert (a + b)[|a| + i] == b[i];
  }

  /** Asks each relation of `rels` on `obj` in turn, stopping at the first grant; raises are skipped. */
  method AnyCheckGranted(store: Store, user: string, rels: seq<string>, obj: string)
    returns (granted: bool, ghost calls: seq<Call>)
    ensures granted == AnyCheck(store, user, rels, obj)
    ensures granted ==> exists i :: 0 <= i < |calls| && Positive(store, calls[i])
  {
    calls := [];
    var i := 0;
    while i < |rels|
      invariant 0 <= i <= |rels|
      invariant forall k :: 0 <= k < i ==> store.check(user, rels[k], obj) != Ok(true)
    {
      var reply := store.check(user, rels[i], obj);
      calls := calls + [CheckCall(user, rels[i], obj)];
      if reply == Ok(true) {
        assert Positive(store, calls[|calls| - 1]);
        return true, calls;
      }
      i := i + 1;
    }
    return false, calls;
  }

  /** Whether some object starts with `prefix`. */
  method AnyStartsWith(objects: seq<string>, prefix: string) returns (found: bool)
    ensures found <==> exists j :: 0 <= j < |objects| && prefix <= objects[j]
  {
    var j := 0;
    while j < |objects|
      invariant 0 <= j <= |objects|
      invariant forall k :: 0 <= k < j ==> !(prefix <= objects[k])
    {
      if prefix <= objects[j] {
        return true;
      }
      j := j + 1;
    }
    return false;
  }

  /** Lists `objectType` under each relation of `rels` in turn, stopping at an object under `prefix`. */
  method AnyListedUnder(store: Store, user: string, rels: seq<string>, objectType: string, prefix: string)
    returns (found: bool, ghost calls: seq<Call>)
    ensures found == AnyListed(store, user, rels, objectType, prefix)
    ensures found ==> exists i :: 0 <= i < |calls| && Positive(store, calls[i])
  {
    calls := [];
    var i := 0;
    while i < |rels|
      invariant 0 <= i <= |rels|
      invariant forall k :: 0 <= k < i ==> !ListedUnder(store.listObjects(user, rels[k], objectType), prefix)
    {
      var reply := store.listObjects(user, rels[i], objectType);
      calls := calls + [ListCall(user, rels[i], objectType, prefix)];
      if reply.Ok? {
        var hit := AnyStartsWith(reply.value, prefix);
        if hit {
          assert Positive(store, calls[|calls| - 1]);
          return true, calls;
        }
      }
      i := i + 1;
    }
    return false, calls;
  }

  /** The catalog widening block: warehouse relations, then namespaces, then tables inside it. */
  method WidenCatalog(store: Store, user: string, t: Identifiers)
    returns (found: bool, ghost calls: seq<Call>)
    ensures found == (AnyCheck(store, user, WarehouseWideningRelations, t.objectId) ||
      AnyListed(store, user, ContainerRelations, FgaNamespace, FgaNamespace + ":" + t.resourceId + ".") ||
      AnyListed(store, user, TableRelations, FgaLakekeeperTable, FgaLakekeeperTable + ":" + t.resourceId + "."))
    ensures found ==> exists i :: 0 <= i < |calls| && Positive(store, calls[i])
  {
    ghost var more;
    found, calls := AnyCheckGranted(store, user, WarehouseWideningRelations, t.objectId);
    if found {
      return;
    }
    found, more := AnyListedUnder(store, user, ContainerRelations, FgaNamespace,
                                  FgaNamespace + ":" + t.resourceId + ".");
    if found {
      PositiveInSuffix(store, calls, more);
      return true, calls + more;
    }
    calls := calls + more;
    found, more := AnyListedUnder(store, user, TableRelations, FgaLakekeeperTable,
                                  FgaLakekeeperTable + ":" + t.resourceId + ".");
    if found {
      PositiveInSuffix(store, calls, more);
    }
    calls := calls + more;
  }

  /** The schema widening block for namespace `c.s`: namespace, tables under `c.s.`, warehouse `c`. */
  method WidenSchema(store: Store, user: string, t: Identifiers, catalog: string, schema: string)
    returns (found: bool, ghost calls: seq<Call>)
    ensures found == (AnyCheck(store, user, ContainerRelations, t.objectId) ||
      AnyListed(store, user, TableRelations, FgaLakekeeperTable,
                FgaLakekeeperTable + ":" + catalog + "." + schema + ".") ||
      AnyCheck(store, user, ContainerRelations, FgaCatalogObjectId(catalog)))
    ensures found ==> exists i :: 0 <= i < |calls| && Positive(store, calls[i])
  {
    ghost var more;
    var schemaFqn := catalog + "." + schema;
    found, calls := AnyCheckGranted(store, user, ContainerRelations, t.objectId);
    if found {
      return;
    }
    found, more := AnyListedUnder(store, user, TableRelations, FgaLakekeeperTable,
                                  FgaLakekeeperTable + ":" + schemaFqn + ".");
    if found {
      PositiveInSuffix(store, calls, more);
      return true, calls + more;
    }
    calls := calls + more;
    var warehouseObjectId := FgaCatalogObjectId(catalog);
    found, more := AnyCheckGranted(store, user, ContainerRelations, warehouseObjectId);
    if found {
      PositiveInSuffix(store, calls, more);
    }
    calls := calls + more;
  }

  /** The store-dependent part of `check_permission`, from the direct check on. */
  method ResolveTarget(store: Store, user: string, op: string, rel: string, t: Identifiers)
    returns (allowed: bool, ghost calls: seq<Call>)
    ensures allowed == Resolve(store, user, op, rel, t)
    ensures |calls| >= 1 && calls[0] == CheckCall(user, rel, t.objectId)
    ensures allowed ==> exists i :: 0 <= i < |calls| && Positive(store, calls[i])
  {
    ghost var more;
    var direct := store.check(user, rel, t.objectId);
    calls := [CheckCall(user, rel, t.objectId)];
    if direct.Raised? {
      return false, calls;
    }
    if direct.value {
      assert Positive(store, calls[0]);
      return true, calls;
    }
    var found;
    if (op == "AccessCatalog" || op == "ShowSchemas") && t.resourceType == FgaWarehouse {
      found, more := WidenCatalog(store, user, t);
      if found {
        PositiveInSuffix(store, calls, more);
        return true, calls + more;
      }
      calls := calls + more;
    }
    if op == "ShowTables" && t.resourceType == FgaNamespace {
      var parts := Split(t.resourceId, '.');
      if |parts| >= 2 {
        found, more := WidenSchema(store, user, t, parts[0], parts[1]);
        if found {
          PositiveInSuffix(store, calls, more);
          return true, calls + more;
        }
        calls := calls + more;
      }
    }
    if op == "ShowSchemas" && t.resourceType == FgaNamespace {
      var parts := Split(t.resourceId, '.');
      if |parts| >= 2 {
        found, more := WidenSchema(store, user, t, parts[0], parts[1]);
        if found {
          PositiveInSuffix(store, calls, more);
          return true, calls + more;
        }
        calls := calls + more;
      }
    }
    found, more := ParentFallback(store, user, op, rel, t);
    if found {
      PositiveInSuffix(store, calls, more);
    }
    return found, calls + more;
  }

  /**
   * The parent-scope checks of `check_permission`: a table's namespace and
   * then its warehouse, a namespace's warehouse; none for ShowColumns.
   */
  method ParentFallback(store: Store, user: string, op: string, rel: string, t: Identifiers)
    returns (allowed: bool, ghost calls: seq<Call>)
    ensures allowed == Fallback(store, user, op, rel, t)
    ensures allowed ==> exists i :: 0 <= i < |calls| && Positive(store, calls[i])
  {
    calls := [];
    if op == "ShowColumns" {
      // no inheritance for column filtering
    } else if t.resourceType == FgaLakekeeperTable {
      var parts := Split(t.resourceId, '.');
      if |parts| >= 3 {
        var namespaceObjectId := FgaSchemaObjectId(parts[0], parts[1]);
        var atNamespace := store.check(user, rel, namespaceObjectId);
        calls := calls + [CheckCall(user, rel, namespaceObjectId)];
        if atNamespace.Raised? {
          return false, calls;
        }
        if atNamespace.value {
          assert Positive(store, calls[|calls| - 1]);
          return true, calls;
        }
        var warehouseObjectId := FgaCatalogObjectId(parts[0]);
        var atWarehouse := store.check(user, rel, warehouseObjectId);
        calls := calls + [CheckCall(user, rel, warehouseObjectId)];
        if atWarehouse.Raised? {
          return false, calls;
        }
        if atWarehouse.value {
          assert Positive(store, calls[|calls| - 1]);
          return true, calls;
        }
      }
    } else if t.resourceType == FgaNamespace {
      var parts := Split(t.resourceId, '.');
      if |parts| >= 2 {
        var warehouseObjectId := FgaCatalogObjectId(parts[0]);
        var atWarehouse := store.check(user, rel, warehouseObjectId);
        calls := calls + [CheckCall(user, rel, warehouseObjectId)];
        if atWarehouse.Raised? {
          return false, calls;
        }
        if atWarehouse.value {
          assert Positive(store, calls[|calls| - 1]);
          return true, calls;
        }
      }
    }
    return false, calls;
  }

  /**
   * `check_permission`: the decision for `req`, with the queries made. A
   * request denied or allowed before the store is consulted makes no query;
   * otherwise the first query is the relation on the target; and a request
   * is allowed only by the bypass or by some positive answer.
   */
  method CheckPermission(store: Store, req: CheckRequest) returns (allowed: bool, ghost calls: seq<Call>)
    ensures allowed == Decide(store, req)
    ensures !PlanOf(req).Query? ==> calls == []
    ensures PlanOf(req).Query? ==>
      |calls| >= 1 &&
      calls[0] == CheckCall(PlanOf(req).user, PlanOf(req).relation, PlanOf(req).target.objectId)
    ensures allowed ==> PlanOf(req).Allow? || exists i :: 0 <= i < |calls| && Positive(store, calls[i])
  {
    calls := [];
    var relation := MapOperationToRelation(req.operation);
    if relation.None? {
      return false, calls;
    }
    var result := RB.BuildFgaResourceIdentifiers(RB.Dict(req.resource), req.operation, false);
    if result.Failure? || result.value.None? {
      return false, calls;
    }
    var ids := result.value.value;
    assert PlanOf(req) == PlanFor(req, relation.value, ids);
    var fgaObjectId, fgaResourceType, resourceId := ids.objectId, ids.resourceType, ids.resourceId;
    var user := BuildUserIdentifier(req.userId);
    if req.operation == "CreateCatalog" {
      fgaObjectId := FgaProjectObjectId(FgaSystemProject);
    }
    var schemaName := Get(req.resource, "schema");
    if schemaName == Some("information_schema") && req.operation in ReadOperations {
      return true, calls;
    }
    if fgaResourceType == FgaColumn && relation.value != "mask" {
      var parts := Split(resourceId, '.');
      if |parts| >= 4 {
        fgaObjectId := FgaTableObjectId(parts[0], parts[1], parts[2]);
        fgaResourceType := FgaLakekeeperTable;
        resourceId := parts[0] + "." + parts[1] + "." + parts[2];
      } else {
        return false, calls;
      }
    }
    allowed, calls := ResolveTarget(store, user, req.operation, relation.value,
                                    Identifiers(fgaObjectId, fgaResourceType, resourceId));
  }

  // ---------------------------------------------------------------------------
  // Properties of the decision
  // ---------------------------------------------------------------------------

  /** An operation without a relation is denied before any query. */
  lemma UnknownOperationDenied(req: CheckRequest)
    requires MapOperationToRelation(req.operation).None?
    ensures PlanOf(req) == Deny
  {
  }

  /** A resource the builder cannot turn into identifiers is denied before any query. */
  lemma UnbuildableResourceDenied(req: CheckRequest)
    requires RB.Build(RB.ExtractResourceFields(RB.Dict(req.resource)), req.operation).Failure?
    ensures PlanOf(req) == Deny
  {
  }

  /** GetColumnMask has no relation, so it never reaches the information_schema bypass. */
  lemma GetColumnMaskDenied(req: CheckRequest)
    requires req.operation == "GetColumnMask"
    ensures PlanOf(req) == Deny
  {
    UnmappedOperations();
  }

  /**
   * CreateCatalog always asks for `create` on the one project object,
   * whatever catalog, role or project the request names.
   */
  lemma CreateCatalogChecksProject(req: CheckRequest)
    requires req.operation == "CreateCatalog"
    ensures PlanOf(req).Query?
    ensures PlanOf(req).relation == "create"
    ensures PlanOf(req).target.objectId == FgaProjectObjectId(FgaSystemProject)
    ensures PlanOf(req).user == BuildUserIdentifier(req.userId)
  {
  }

  /**
   * A read operation on information_schema is allowed with no query, once
   * the resource builds.
   */
  lemma InformationSchemaBypass(req: CheckRequest)
    requires req.operation in {"SelectFromColumns", "ShowTables", "ShowColumns", "ShowSchemas"}
    requires OnInformationSchema(req)
    requires RB.Build(RB.ExtractResourceFields(RB.Dict(req.resource)), req.operation).Success?
    ensures PlanOf(req) == Allow
  {
  }

  /** A request is allowed without a query only through the information_schema bypass. */
  lemma AllowedOnlyByBypass(req: CheckRequest)
    ensures PlanOf(req) == Allow ==> OnInformationSchema(req) && req.operation in ReadOperations
  {
    var relation := MapOperationToRelation(req.operation);
    if relation.Some? {
      var built := RB.BuildFgaResourceIdentifiers(RB.Dict(req.resource), req.operation, false);
      if built.Success? && built.value.Some? {
        assert PlanOf(req) == PlanFor(req, relation.value, built.value.value);
      }
    }
  }

  /**
   * The bypass reads only the `schema` key: a request naming
   * information_schema under `schema_name` alone is never let through
   * without a query, although the builder reads it as the schema.
   */
  lemma SchemaNameKeyNotBypassed(req: CheckRequest)
    requires "schema" !in req.resource
    requires Get(req.resource, "schema_name") == Some("information_schema")
    ensures PlanOf(req) != Allow
    ensures RB.ExtractResourceFields(RB.Dict(req.resource)).schema == Some("information_schema")
  {
    AllowedOnlyByBypass(req);
    RB.DictKeysPreferSuffixed(req.resource);
  }

  /** Splitting `a.b.c.d` on dots, with dot-free parts, gives the four parts. */
  lemma SplitFourParts(a: string, b: string, c: string, d: string)
    requires '.' !in a && '.' !in b && '.' !in c && '.' !in d
    ensures Split(a + "." + b + "." + c + "." + d, '.') == [a, b, c, d]
  {
    SplitThreeParts(a, b, c);
    SplitNoSeparator(d, '.');
    SplitConcat(a + "." + b + "." + c, '.', d);
  }

  /** Splitting `a.b.c` on dots, with dot-free parts, gives the three parts. */
  lemma SplitThreeParts(a: string, b: string, c: string)
    requires '.' !in a && '.' !in b && '.' !in c
    ensures Split(a + "." + b + "." + c, '.') == [a, b, c]
  {
    SplitTwoParts(a, b);
    SplitNoSeparator(c, '.');
    SplitConcat(a + "." + b, '.', c);
  }

  /** Splitting `a.b` on dots, with dot-free parts, gives the two parts. */
  lemma SplitTwoParts(a: string, b: string)
    requires '.' !in a && '.' !in b
    ensures Split(a + "." + b, '.') == [a, b]
  {
    SplitNoSeparator(a, '.');
    SplitNoSeparator(b, '.');
    SplitConcat(a, '.', b);
  }

  /**
   * A column with dot-free names is checked on its table for every relation
   * but `mask`, and on the column object itself for `mask`.
   */
  lemma ColumnRedirect(req: CheckRequest)
    requires MapOperationToRelation(req.operation).Some?
    requires req.operation !in {"CreateCatalog", "CreateSchema", "CreateTable"}
    requires !(OnInformationSchema(req) && req.operation in ReadOperations)
    requires var f := RB.ExtractResourceFields(RB.Dict(req.resource));
      !Truthy(f.project) && !Truthy(f.role) &&
      Truthy(f.catalog) && Truthy(f.schema) && Truthy(f.table) && Truthy(f.column) &&
      '.' !in f.catalog.value && '.' !in f.schema.value && '.' !in f.table.value && '.' !in f.column.value
    ensures var f := RB.ExtractResourceFields(RB.Dict(req.resource));
      var (c, s, t, col) := (f.catalog.value, f.schema.value, f.table.value, f.column.value);
      var rel := MapOperationToRelation(req.operation).value;
      PlanOf(req) == Query(rel, BuildUserIdentifier(req.userId),
        if rel == "mask" then Identifiers(FgaColumnObjectId(c, s, t, col), FgaColumn, c + "." + s + "." + t + "." + col)
        else Identifiers(FgaTableObjectId(c, s, t), FgaLakekeeperTable, c + "." + s + "." + t))
  {
    var f := RB.ExtractResourceFields(RB.Dict(req.resource));
    var (c, s, t, col) := (f.catalog.value, f.schema.value, f.table.value, f.column.value);
    ColumnPlan(req);
    ColumnOfDotFreeNames(c, s, t, col);
  }

  /** The column object of dot-free names, and the table it belongs to. */
  lemma ColumnOfDotFreeNames(c: string, s: string, t: string, col: string)
    requires '.' !in c && '.' !in s && '.' !in t && '.' !in col
    ensures var ids := ColumnIdentifiers(c + "." + s + "." + t + "." + col);
      ids == Identifiers(FgaColumnObjectId(c, s, t, col), FgaColumn, c + "." + s + "." + t + "." + col) &&
      ColumnToTable(ids) == Some(Identifiers(FgaTableObjectId(c, s, t), FgaLakekeeperTable, c + "." + s + "." + t))
  {
    SplitFourParts(c, s, t, col);
  }

  /** The identifiers of the column object `id`. */
  function ColumnIdentifiers(id: string): Identifiers
  {
    Identifiers(FgaColumn + ":" + id, FgaColumn, id)
  }

  /**
   * A request naming a column with all its ancestors plans a query on the
   * column for `mask`, and on the column's table for every other relation.
   */
  lemma ColumnPlan(req: CheckRequest)
    requires MapOperationToRelation(req.operation).Some?
    requires req.operation !in {"CreateCatalog", "CreateSchema", "CreateTable"}
    requires !(OnInformationSchema(req) && req.operation in ReadOperations)
    requires var f := RB.ExtractResourceFields(RB.Dict(req.resource));
      !Truthy(f.project) && !Truthy(f.role) &&
      Truthy(f.catalog) && Truthy(f.schema) && Truthy(f.table) && Truthy(f.column)
    ensures var f := RB.ExtractResourceFields(RB.Dict(req.resource));
      var ids := ColumnIdentifiers(f.catalog.value + "." + f.schema.value + "." + f.table.value + "." + f.column.value);
      var rel := MapOperationToRelation(req.operation).value;
      var user := BuildUserIdentifier(req.userId);
      PlanOf(req) ==
        if rel == "mask" then Query(rel, user, ids)
        else match ColumnToTable(ids) case None => Deny case Some(table) => Query(rel, user, table)
  {
    var f := RB.ExtractResourceFields(RB.Dict(req.resource));
    assert req.operation != "create";
    RB.ColumnScope(f, req.operation);
    var built := RB.BuildFgaResourceIdentifiers(RB.Dict(req.resource), req.operation, false);
    assert built.Success? && built.value.Some?;
    var id := f.catalog.value + "." + f.schema.value + "." + f.table.value + "." + f.column.value;
    assert built.value.value == ColumnIdentifiers(id);
  }

  /**
   * A catalog name with a dot in it moves the column→table redirect off the
   * column's table: the permission check lands on a table named after the schema, in a
   * namespace named after the catalog's second half.
   */
  lemma DottedCatalogRedirectsToWrongTable(req: CheckRequest, a: string, b: string)
    requires MapOperationToRelation(req.operation).Some?
    requires MapOperationToRelation(req.operation).value != "mask"
    requires req.operation !in {"CreateCatalog", "CreateSchema", "CreateTable"}
    requires !(OnInformationSchema(req) && req.operation in ReadOperations)
    requires '.' !in a && '.' !in b
    requires var f := RB.ExtractResourceFields(RB.Dict(req.resource));
      !Truthy(f.project) && !Truthy(f.role) &&
      f.catalog == Some(a + "." + b) && Truthy(f.schema) && Truthy(f.table) && Truthy(f.column) &&
      '.' !in f.schema.value && '.' !in f.table.value && '.' !in f.column.value
    ensures var f := RB.ExtractResourceFields(RB.Dict(req.resource));
      PlanOf(req).Query? &&
      PlanOf(req).target == Identifiers(FgaTableObjectId(a, b, f.schema.value), FgaLakekeeperTable,
                                        a + "." + b + "." + f.schema.value)
  {
    var f := RB.ExtractResourceFields(RB.Dict(req.resource));
    ColumnPlan(req);
    DottedColumnTable(a, b, f.schema.value, f.table.value, f.column.value);
  }

  /** The table the redirect derives from column `a.b.s.t.col`: the first three dotted parts. */
  lemma DottedColumnTable(a: string, b: string, s: string, t: string, col: string)
    requires '.' !in a && '.' !in b && '.' !in s && '.' !in t && '.' !in col
    ensures ColumnToTable(ColumnIdentifiers(a + "." + b + "." + s + "." + t + "." + col))
      == Some(Identifiers(FgaTableObjectId(a, b, s), FgaLakekeeperTable, a + "." + b + "." + s))
  {
    SplitFiveParts(a, b, s, t, col);
  }

  /** Splitting `a.b.c.d.e` on dots, with dot-free parts, gives the five parts. */
  lemma SplitFiveParts(a: string, b: string, c: string, d: string, e: string)
    requires '.' !in a && '.' !in b && '.' !in c && '.' !in d && '.' !in e
    ensures Split(a + "." + b + "." + c + "." + d + "." + e, '.') == [a, b, c, d, e]
  {
    SplitFourParts(a, b, c, d);
    SplitNoSeparator(e, '.');
    SplitConcat(a + "." + b + "." + c + "." + d, '.', e);
  }

  /** ShowColumns has no inheritance: only the direct answer counts. */
  lemma ShowColumnsNoFallback(store: Store, user: string, rel: string, t: Identifiers)
    ensures Resolve(store, user, "ShowColumns", rel, t) <==> store.check(user, rel, t.objectId) == Ok(true)
  {
  }

  /**
   * A table target is allowed, for every operation but ShowColumns, exactly
   * when the relation is granted on the table, or else on its namespace, or
   * else on its warehouse; a raise on the table or the namespace denies. The
   * widening operations widen only warehouse and namespace targets, so on a
   * table they fall back like any other.
   */
  lemma TableFallback(store: Store, user: string, op: string, rel: string, c: string, s: string, tn: string)
    requires op != "ShowColumns"
    requires '.' !in c && '.' !in s && '.' !in tn
    ensures var t := Identifiers(FgaTableObjectId(c, s, tn), FgaLakekeeperTable, c + "." + s + "." + tn);
      var atTable := store.check(user, rel, t.objectId);
      var atNamespace := store.check(user, rel, FgaSchemaObjectId(c, s));
      var atWarehouse := store.check(user, rel, FgaCatalogObjectId(c));
      Resolve(store, user, op, rel, t) <==>
        atTable == Ok(true) ||
        (atTable.Ok? && (atNamespace == Ok(true) || (atNamespace.Ok? && atWarehouse == Ok(true))))
  {
    SplitThreeParts(c, s, tn);
  }

  /** With a store whose checks never raise, a table is allowed iff table, namespace or warehouse grants. */
  lemma TableFallbackReliable(store: Store, user: string, op: string, rel: string, c: string, s: string, tn: string)
    requires ReliableChecks(store)
    requires op != "ShowColumns"
    requires '.' !in c && '.' !in s && '.' !in tn
    ensures Resolve(store, user, op, rel,
                    Identifiers(FgaTableObjectId(c, s, tn), FgaLakekeeperTable, c + "." + s + "." + tn)) <==>
      store.check(user, rel, FgaTableObjectId(c, s, tn)) == Ok(true) ||
      store.check(user, rel, FgaSchemaObjectId(c, s)) == Ok(true) ||
      store.check(user, rel, FgaCatalogObjectId(c)) == Ok(true)
  {
    TableFallback(store, user, op, rel, c, s, tn);
  }

  /**
   * A namespace target falls back to its warehouse for every operation but
   * ShowColumns and the two that widen a namespace (ShowSchemas, ShowTables);
   * AccessCatalog widens only a warehouse target, so it falls back here too.
   */
  lemma NamespaceFallback(store: Store, user: string, op: string, rel: string, c: string, s: string)
    requires op !in {"ShowSchemas", "ShowTables", "ShowColumns"}
    requires '.' !in c && '.' !in s
    ensures var t := Identifiers(FgaSchemaObjectId(c, s), FgaNamespace, c + "." + s);
      var atNamespace := store.check(user, rel, t.objectId);
      Resolve(store, user, op, rel, t) <==>
        atNamespace == Ok(true) ||
        (atNamespace.Ok? && store.check(user, rel, FgaCatalogObjectId(c)) == Ok(true))
  {
    SplitTwoParts(c, s);
  }

  /**
   * ShowTables on table `c.s.t`, the check every FilterTables batch item
   * becomes: `describe` on the table, else on its namespace, else on its
   * warehouse, each asked only after the previous one answered.
   */
  lemma ShowTablesOnTableFallback(store: Store, user: string, c: string, s: string, tn: string)
    requires '.' !in c && '.' !in s && '.' !in tn
    ensures var t := Identifiers(FgaTableObjectId(c, s, tn), FgaLakekeeperTable, c + "." + s + "." + tn);
      var atTable := store.check(user, "describe", t.objectId);
      var atNamespace := store.check(user, "describe", FgaSchemaObjectId(c, s));
      Resolve(store, user, "ShowTables", "describe", t) <==>
        atTable == Ok(true) ||
        (atTable.Ok? && (atNamespace == Ok(true) ||
          (atNamespace.Ok? && store.check(user, "describe", FgaCatalogObjectId(c)) == Ok(true))))
  {
    TableFallback(store, user, "ShowTables", "describe", c, s, tn);
  }

  /**
   * ShowTables on namespace `c.s` whose direct check is answered: allowed iff
   * the direct answer grants, or any relation on the namespace, or a table
   * listed under `c.s.`, or any relation on warehouse `c`.
   */
  lemma ShowTablesWidening(store: Store, user: string, c: string, s: string)
    requires '.' !in c && '.' !in s
    ensures var t := Identifiers(FgaSchemaObjectId(c, s), FgaNamespace, c + "." + s);
      store.check(user, "describe", t.objectId).Ok? ==>
      (Resolve(store, user, "ShowTables", "describe", t) <==>
        AnyCheck(store, user, ContainerRelations, t.objectId) ||
        AnyListed(store, user, TableRelations, FgaLakekeeperTable, FgaLakekeeperTable + ":" + c + "." + s + ".") ||
        AnyCheck(store, user, ContainerRelations, FgaCatalogObjectId(c)))
  {
    SplitTwoParts(c, s);
    var t := Identifiers(FgaSchemaObjectId(c, s), FgaNamespace, c + "." + s);
    assert ContainerRelations[1] == "describe";
    if store.check(user, "describe", t.objectId) == Ok(true) {
      assert AnyCheck(store, user, ContainerRelations, t.objectId);
    } else if store.check(user, "describe", t.objectId).Ok? {
      assert !CatalogWidening(store, user, "ShowTables", t);
      assert Fallback(store, user, "ShowTables", "describe", t) <==>
        store.check(user, "describe", FgaCatalogObjectId(c)) == Ok(true);
    }
  }

  /** More grants never turn an allow into a deny. */
  lemma Monotonic(s1: Store, s2: Store, req: CheckRequest)
    requires MoreGrants(s1, s2)
    requires Decide(s1, req)
    ensures Decide(s2, req)
  {
    match PlanOf(req)
    case Allow =>
    case Query(rel, user, t) =>
      ResolveMonotonic(s1, s2, user, req.operation, rel, t);
  }

  /** Monotonicity of the store-dependent part. */
  lemma ResolveMonotonic(s1: Store, s2: Store, user: string, op: string, rel: string, t: Identifiers)
    requires MoreGrants(s1, s2)
    requires Resolve(s1, user, op, rel, t)
    ensures Resolve(s2, user, op, rel, t)
  {
    assert s2.check(user, rel, t.objectId).Ok?;
    if s1.check(user, rel, t.objectId) == Ok(true) {
    } else if CatalogWidening(s1, user, op, t) {
      AnyCheckMonotonic(s1, s2, user, WarehouseWideningRelations, t.objectId);
      AnyListedMonotonic(s1, s2, user, ContainerRelations, FgaNamespace, FgaNamespace + ":" + t.resourceId + ".");
      AnyListedMonotonic(s1, s2, user, TableRelations, FgaLakekeeperTable, FgaLakekeeperTable + ":" + t.resourceId + ".");
    } else if SchemaWidening(s1, user, op, t) {
      var parts := Split(t.resourceId, '.');
      AnyCheckMonotonic(s1, s2, user, ContainerRelations, t.objectId);
      AnyListedMonotonic(s1, s2, user, TableRelations, FgaLakekeeperTable,
                         FgaLakekeeperTable + ":" + parts[0] + "." + parts[1] + ".");
      AnyCheckMonotonic(s1, s2, user, ContainerRelations, FgaCatalogObjectId(parts[0]));
    } else {
      assert Fallback(s1, user, op, rel, t);
    }
  }

  lemma AnyCheckMonotonic(s1: Store, s2: Store, user: string, rels: seq<string>, obj: string)
    requires MoreGrants(s1, s2)
    ensures AnyCheck(s1, user, rels, obj) ==> AnyCheck(s2, user, rels, obj)
  {
    if AnyCheck(s1, user, rels, obj) {
      var i :| 0 <= i < |rels| && s1.check(user, rels[i], obj) == Ok(true);
      assert s2.check(user, rels[i], obj) == Ok(true);
    }
  }

  lemma AnyListedMonotonic(s1: Store, s2: Store, user: string, rels: seq<string>, objectType: string, prefix: string)
    requires MoreGrants(s1, s2)
    ensures AnyListed(s1, user, rels, objectType, prefix) ==> AnyListed(s2, user, rels, objectType, prefix)
  {
    if AnyListed(s1, user, rels, objectType, prefix) {
      var i :| 0 <= i < |rels| && ListedUnder(s1.listObjects(user, rels[i], objectType), prefix);
      ListedUnderMonotonic(s1, s2, user, rels[i], objectType, prefix);
    }
  }

  /** Against a store that raises on everything, only the bypass allows. */
  lemma FailClosed(store: Store, req: CheckRequest)
    requires Failing(store)
    ensures Decide(store, req) <==> PlanOf(req) == Allow
  {
    match PlanOf(req)
    case Deny =>
    case Allow =>
    case Query(rel, user, t) =>
      assert store.check(user, rel, t.objectId) == Raised;
  }

  // ---------------------------------------------------------------------------
  // Grants and revocations
  // ---------------------------------------------------------------------------

  /** The condition attached to a conditional grant. */
  datatype ConditionSpec = ConditionSpec(name: string, attributeName: string, allowedValues: seq<string>)

  /**
   * A grant or revocation request. `user` is the store user the request's
   * id and user type stand for; the function that computes it is not part
   * of this model.
   */
  datatype PermissionGrant = PermissionGrant(
    userId: string, user: string, resource: RB.ResourceSpec, relation: string,
    condition: Option<ConditionSpec>)

  /** The response to a grant or revocation, in API terms. */
  datatype GrantResponse = GrantResponse(
    userId: string, resourceType: string, resourceId: string, objectId: string, relation: string)

  /** The tuple written or deleted, and the response returned. */
  datatype GrantOutcome = GrantOutcome(change: TupleChange, response: GrantResponse)

  /** The store condition a grant's condition is written as. */
  function AsStoreCondition(c: ConditionSpec): Condition
  {
    Condition(c.name, Some(ConditionContext(Some(c.attributeName), Some(c.allowedValues))))
  }

  /**
   * `grant_permission`: identifiers are built with errors raised, the tuple
   * is written on the OpenFGA form of the object id, and the response
   * reports the API form.
   */
  function GrantPermission(g: PermissionGrant): (r: Result<GrantOutcome, RB.BuildError>)
    ensures r.Failure? <==> RB.Build(RB.ExtractResourceFields(RB.Model(g.resource)), g.relation).Failure?
    ensures r.Success? ==>
      var api := RB.Build(RB.ExtractResourceFields(RB.Model(g.resource)), g.relation).value;
      r.value.change == Write(g.user, g.relation, ApiObjectIdToFga(api.objectId),
                              if g.condition.Some? then Some(AsStoreCondition(g.condition.value)) else None) &&
      r.value.response == GrantResponse(g.userId, api.resourceType, api.resourceId, api.objectId, g.relation)
  {
    match RB.BuildResourceIdentifiers(RB.Model(g.resource), g.relation, true)
    case Failure(e) => Failure(e)
    case Success(None) => Failure(RB.NotEnoughInformation)
    case Success(Some(api)) =>
      var condition := if g.condition.Some? then Some(AsStoreCondition(g.condition.value)) else None;
      Success(GrantOutcome(
        Write(g.user, g.relation, ApiObjectIdToFga(api.objectId), condition),
        GrantResponse(g.userId, api.resourceType, api.resourceId, api.objectId, g.relation)))
  }

  /** `revoke_permission`: the same identifiers as a grant, and the tuple deleted. */
  function RevokePermission(g: PermissionGrant): (r: Result<GrantOutcome, RB.BuildError>)
    ensures r.Failure? <==> RB.Build(RB.ExtractResourceFields(RB.Model(g.resource)), g.relation).Failure?
    ensures r.Success? ==>
      var api := RB.Build(RB.ExtractResourceFields(RB.Model(g.resource)), g.relation).value;
      r.value.change == Delete(g.user, g.relation, ApiObjectIdToFga(api.objectId)) &&
      r.value.response == GrantResponse(g.userId, api.resourceType, api.resourceId, api.objectId, g.relation)
  {
    match RB.BuildResourceIdentifiers(RB.Model(g.resource), g.relation, true)
    case Failure(e) => Failure(e)
    case Success(None) => Failure(RB.NotEnoughInformation)
    case Success(Some(api)) =>
      Success(GrantOutcome(
        Delete(g.user, g.relation, ApiObjectIdToFga(api.objectId)),
        GrantResponse(g.userId, api.resourceType, api.resourceId, api.objectId, g.relation)))
  }

  /**
   * A revocation deletes exactly the tuple the matching grant writes, and
   * the written object is the OpenFGA form of the reported API object,
   * with the same resource id.
   */
  lemma RevokeUndoesGrant(g: PermissionGrant)
    requires GrantPermission(g).Success?
    ensures RevokePermission(g).Success?
    ensures var w := GrantPermission(g).value.change;
            var d := RevokePermission(g).value.change;
            d == Delete(w.user, w.relation, w.obj)
    ensures var resp := GrantPermission(g).value.response;
            ParseObjectId(Some(GrantPermission(g).value.change.obj))
              == (ApiTypeToFgaType(resp.resourceType), resp.resourceId)
  {
    var api := RB.Build(RB.ExtractResourceFields(RB.Model(g.resource)), g.relation).value;
    ApiObjectIdToFgaParts(api.resourceType, api.resourceId);
    ParseObjectIdOf(ApiTypeToFgaType(api.resourceType), api.resourceId);
  }
}
