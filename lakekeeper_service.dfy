/**
 * The Lakekeeper resource listing: for one Trino catalog, the warehouse it
 * names, the permissions the user holds on it, and every namespace and
 * table below it with the permissions held there, permissions cascading
 * from warehouse to namespace and from namespace to table (without
 * `create`). The Lakekeeper catalog is a value of answers passed in, like
 * the relationship store.
 */
module LakekeeperService {
  import opened Wrappers
  import opened Strings
  import opened OperationMapper
  import opened TypeMapper
  import opened RelationshipStore
  import RFS = RowFilterService
  import CMS = ColumnMaskService

  /** The relations checked on a warehouse. */
  const WarehousePermissions: seq<string> := ["create", "modify", "select", "describe"]
  /** The relations checked on a namespace. */
  const NamespacePermissions: seq<string> := ["create", "modify", "select", "describe"]
  /** The relations checked on a table: tables have no `create`. */
  const TablePermissions: seq<string> := ["modify", "select", "describe"]

  /** The prefix a Trino catalog backed by a Lakekeeper warehouse carries. */
  const CatalogPrefix := "lakekeeper_"

  // ---------------------------------------------------------------------------
  // Catalog names
  // ---------------------------------------------------------------------------

  /** The Lakekeeper warehouse a catalog names, and the catalog's store name. */
  datatype CatalogNames = CatalogNames(warehouseName: string, catalogName: string)

  /**
   * A prefixed catalog keeps its name and names the warehouse after the
   * prefix; an unprefixed one names the warehouse itself and gains the prefix.
   */
  function NormalizeCatalogName(catalog: string): (r: CatalogNames)
    ensures r.catalogName == CatalogPrefix + r.warehouseName
    ensures CatalogPrefix <= catalog ==> r.catalogName == catalog
    ensures !(CatalogPrefix <= catalog) ==> r.warehouseName == catalog
  {
    if CatalogPrefix <= catalog then
      ReplaceFirstOfPrefix(catalog, CatalogPrefix, "");
      assert catalog == CatalogPrefix + catalog[|CatalogPrefix|..];
      CatalogNames(ReplaceFirst(catalog, CatalogPrefix, ""), catalog)
    else
      CatalogNames(catalog, CatalogPrefix + catalog)
  }

  /** Normalising a store name changes nothing. */
  lemma NormalizeIdempotent(catalog: string)
    ensures NormalizeCatalogName(NormalizeCatalogName(catalog).catalogName)
         == NormalizeCatalogName(catalog)
  {
    var n := NormalizeCatalogName(catalog);
    assert CatalogPrefix <= n.catalogName;
    var m := NormalizeCatalogName(n.catalogName);
    assert CatalogPrefix + m.warehouseName == CatalogPrefix + n.warehouseName;
    assert m.warehouseName == (CatalogPrefix + m.warehouseName)[|CatalogPrefix|..];
  }

  // ---------------------------------------------------------------------------
  // Permission checks
  // ---------------------------------------------------------------------------

  /** The relations of `perms` the store answers `true` for, in order. */
  function Granted(store: Store, user: string, obj: string, perms: seq<string>): (r: seq<string>)
    ensures |r| <= |perms|
    ensures forall p :: p in r <==> p in perms && store.check(user, p, obj) == Ok(true)
  {
    if |perms| == 0 then []
    else
      var p := perms[|perms| - 1];
      var rest := Granted(store, user, obj, perms[..|perms| - 1]);
      assert perms == perms[..|perms| - 1] + [p];
      rest + if store.check(user, p, obj) == Ok(true) then [p] else []
  }

  /** Checking two lists one after the other grants the two lists' grants in order. */
  lemma {:induction false} GrantedAppend(store: Store, user: string, obj: string, a: seq<string>, b: seq<string>)
    ensures Granted(store, user, obj, a + b) == Granted(store, user, obj, a) + Granted(store, user, obj, b)
    decreases |b|
  {
    if |b| == 0 {
      assert a + b == a;
    } else {
      var b' := b[..|b| - 1];
      assert (a + b)[..|a + b| - 1] == a + b';
      assert (a + b)[|a + b| - 1] == b[|b| - 1];
      GrantedAppend(store, user, obj, a, b');
    }
  }

  /** `_check_permissions`: a refusal and a raised check both leave a relation out. */
  method CheckPermissions(store: Store, user: string, obj: string, perms: seq<string>)
    returns (granted: seq<string>)
    ensures granted == Granted(store, user, obj, perms)
  {
    granted := [];
    var i := 0;
    while i < |perms|
      invariant 0 <= i <= |perms|
      invariant granted == Granted(store, user, obj, perms[..i])
    {
      assert perms[..i + 1][..i] == perms[..i];
      var reply := store.check(user, perms[i], obj);
      if reply.Ok? && reply.value {
        granted := granted + [perms[i]];
      }
      i := i + 1;
    }
    assert perms[..i] == perms;
  }

  /** The members of a list. */
  function AsSet(xs: seq<string>): (r: set<string>)
    ensures forall x :: x in r <==> x in xs
  {
    set x | x in xs
  }

  // ---------------------------------------------------------------------------
  // Lakekeeper and the response
  // ---------------------------------------------------------------------------

  /** A table as listed by Lakekeeper; `name` is `None` when the entry has none. */
  datatype TableEntry = TableEntry(name: Option<string>)

  /** A column of a table and whether the user sees it masked. */
  datatype ColumnInfo = ColumnInfo(name: string, masked: bool)

  /**
   * The Lakekeeper answers: the id of a warehouse (`None` or `""` when it is
   * not found), the namespaces of a warehouse as lists of name parts, the
   * tables of a namespace or a raised error, and the field names of a
   * table's first schema for `(warehouse id, namespace, table)`, `None` for
   * a field without a name. Missing metadata, schemas or fields, and a
   * failed metadata fetch, all give no fields.
   */
  datatype Lakekeeper = Lakekeeper(
    warehouseId: string -> Option<string>,
    namespaces: string -> seq<seq<string>>,
    tables: (string, string) -> Reply<seq<TableEntry>>,
    fields: (string, string, string) -> seq<Option<string>>)

  /** A row filter a table reports: the attribute and its SQL predicate. */
  datatype RowFilterInfo = RowFilterInfo(attributeName: string, filterExpression: string)

  /** A listed table; empty column and filter lists are reported as `None`. */
  datatype TableInfo = TableInfo(
    name: string, permissions: set<string>,
    columns: Option<seq<ColumnInfo>>, rowFilters: Option<seq<RowFilterInfo>>)

  /** A listed namespace; an empty table list is reported as `None`. */
  datatype NamespaceInfo = NamespaceInfo(
    name: string, permissions: set<string>, tables: Option<seq<TableInfo>>)

  /** Why a resource could not be listed. */
  datatype ListError = WarehouseNotFound(warehouseName: string) | TablesUnavailable

  /** One entry of the response's error list. */
  datatype ErrorEntry = ErrorEntry(resource: string, error: ListError)

  /** The response; empty namespace and error lists are reported as `None`. */
  datatype ListResourcesResponse = ListResourcesResponse(
    name: string, permissions: seq<string>,
    namespaces: Option<seq<NamespaceInfo>>, errors: Option<seq<ErrorEntry>>)

  /** A list, or `None` when it is empty. */
  function NoneIfEmpty<T>(xs: seq<T>): (r: Option<seq<T>>)
    ensures r.None? <==> |xs| == 0
    ensures r.Some? ==> r.value == xs
  {
    if |xs| == 0 then None else Some(xs)
  }

  // ---------------------------------------------------------------------------
  // Row filters
  // ---------------------------------------------------------------------------

  /** The row filter reported for one policy filter, keyed by its attribute name. */
  function RowFilterInfoOf(f: RFS.PolicyFilter): RowFilterInfo
  {
    RowFilterInfo(f.attributeName,
      f.attributeName + " IN ('" + Join("', '", RFS.EscapedValues(f.allowedValues)) + "')")
  }

  /** The row filters reported for the filters without a wildcard value, in order. */
  function RowFilterInfos(filters: seq<RFS.PolicyFilter>): (r: seq<RowFilterInfo>)
    ensures |r| <= |filters|
  {
    if |filters| == 0 then []
    else
      var f := filters[|filters| - 1];
      RowFilterInfos(filters[..|filters| - 1]) + if "*" in f.allowedValues then [] else [RowFilterInfoOf(f)]
  }

  /**
   * A reported predicate is the row-filter service's clause with the
   * attribute name where the service puts the column name.
   */
  lemma ExpressionIsClauseOnAttribute(f: RFS.PolicyFilter)
    ensures RowFilterInfoOf(f).filterExpression == RFS.Clause(f.(columnName := f.attributeName))
    ensures RowFilterInfoOf(f).attributeName == f.attributeName
  {
  }

  /**
   * Where every filter's column is its attribute, the reported predicates
   * are exactly the row-filter service's clauses.
   */
  lemma {:induction false} RowFilterInfosAreClauses(filters: seq<RFS.PolicyFilter>)
    requires forall i :: 0 <= i < |filters| ==> filters[i].columnName == filters[i].attributeName
    ensures |RowFilterInfos(filters)| == |RFS.Clauses(filters)|
    ensures forall i :: 0 <= i < |RowFilterInfos(filters)| ==>
      RowFilterInfos(filters)[i].filterExpression == RFS.Clauses(filters)[i]
  {
    if |filters| > 0 {
      var f := filters[|filters| - 1];
      RowFilterInfosAreClauses(filters[..|filters| - 1]);
      assert f == f.(columnName := f.attributeName);
      ExpressionIsClauseOnAttribute(f);
    }
  }

  /** A filter admitting every value adds no row filter. */
  lemma WildcardAddsNothing(filters: seq<RFS.PolicyFilter>, f: RFS.PolicyFilter)
    requires "*" in f.allowedValues
    ensures RowFilterInfos(filters + [f]) == RowFilterInfos(filters)
  {
    assert (filters + [f])[..|filters + [f]| - 1] == filters;
  }

  /** The loop building the reported row filters from the user's policy filters. */
  method BuildRowFilterInfos(filters: seq<RFS.PolicyFilter>) returns (rowFilters: seq<RowFilterInfo>)
    ensures rowFilters == RowFilterInfos(filters)
  {
    rowFilters := [];
    var i := 0;
    while i < |filters|
      invariant 0 <= i <= |filters|
      invariant rowFilters == RowFilterInfos(filters[..i])
    {
      assert filters[..i + 1][..i] == filters[..i];
      var f := filters[i];
      if "*" !in f.allowedValues {
        var values := RFS.EscapedValues(f.allowedValues);
        var valuesStr := Join("', '", values);
        rowFilters := rowFilters + [RowFilterInfo(f.attributeName, f.attributeName + " IN ('" + valuesStr + "')")];
      }
      i := i + 1;
    }
    assert filters[..i] == filters;
  }

  /**
   * `_fetch_row_filters`. A table without policies has no row filters. For
   * a table with policies, the per-user filter lookup is called with a
   * `tenant_id` argument the row-filter service does not accept, so the
   * call raises and the raised error is answered with no row filters: the
   * listing never reports one.
   */
  method FetchRowFilters(store: Store, catalogName: string, namespaceName: string, tableName: string)
    returns (rowFilters: seq<RowFilterInfo>)
    ensures rowFilters == []
  {
    var tableFqn := catalogName + "." + namespaceName + "." + tableName;
    var policyIds := RFS.GetTablePolicies(store, tableFqn);
    if |policyIds| == 0 {
      return [];
    }
    // The lookup of the user's filters raises before it runs.
    return [];
  }

  // ---------------------------------------------------------------------------
  // The listing, as functions
  // ---------------------------------------------------------------------------

  /** What the listing fixes before it walks a warehouse. */
  datatype Scope = Scope(store: Store, lk: Lakekeeper, user: string, catalogName: string, warehouseId: string)

  /** The permissions held on a namespace: its own and the warehouse's. */
  function NamespacePermissionSet(sc: Scope, namespaceName: string, inherited: set<string>): set<string>
  {
    AsSet(Granted(sc.store, sc.user, FgaSchemaObjectId(sc.catalogName, namespaceName), NamespacePermissions)) + inherited
  }

  /** The permissions held on a table: its own and the namespace's but `create`. */
  function TablePermissionSet(sc: Scope, namespaceName: string, tableName: string, inherited: set<string>): set<string>
  {
    AsSet(Granted(sc.store, sc.user, FgaTableObjectId(sc.catalogName, namespaceName, tableName), TablePermissions))
      + (inherited - {"create"})
  }

  // ---------------------------------------------------------------------------
  // Columns of a listed table
  // ---------------------------------------------------------------------------

  /** The names of the named fields, in order. */
  function NamedFields(fields: seq<Option<string>>): (r: seq<string>)
    ensures |r| <= |fields|
  {
    if |fields| == 0 then []
    else
      NamedFields(fields[..|fields| - 1]) +
      if Truthy(fields[|fields| - 1]) then [fields[|fields| - 1].value] else []
  }

  /**
   * The named fields of table `c.n.t` with the store's `mask` answer for
   * each column object, or `Raised` when one of those checks raises.
   */
  function ColumnInfos(store: Store, user: string, c: string, n: string, t: string, fields: seq<Option<string>>)
    : (r: Reply<seq<ColumnInfo>>)
    ensures r.Ok? ==> |r.value| == |NamedFields(fields)|
    ensures r.Ok? ==> forall i :: 0 <= i < |r.value| ==>
      r.value[i].name == NamedFields(fields)[i] && r.value[i].name != "" &&
      (r.value[i].masked <==> store.check(user, "mask", FgaColumnObjectId(c, n, t, r.value[i].name)) == Ok(true))
  {
    if |fields| == 0 then Ok([])
    else
      match ColumnInfos(store, user, c, n, t, fields[..|fields| - 1])
      case Raised => Raised
      case Ok(init) =>
        var f := fields[|fields| - 1];
        if !Truthy(f) then Ok(init)
        else
          match store.check(user, "mask", FgaColumnObjectId(c, n, t, f.value))
          case Raised => Raised
          case Ok(m) => Ok(init + [ColumnInfo(f.value, m)])
  }

  /** `_fetch_and_process_columns`: a raised mask check drops every column. */
  function TableColumns(sc: Scope, namespaceName: string, tableName: string): seq<ColumnInfo>
  {
    match ColumnInfos(sc.store, sc.user, sc.catalogName, namespaceName, tableName,
                      sc.lk.fields(sc.warehouseId, namespaceName, tableName))
    case Raised => []
    case Ok(columns) => columns
  }

  /** Once a prefix of the fields raises, all of them do. */
  lemma {:induction false} RaisedPersists(store: Store, user: string, c: string, n: string, t: string,
                                          fields: seq<Option<string>>, k: nat)
    requires k <= |fields|
    requires ColumnInfos(store, user, c, n, t, fields[..k]) == Raised
    ensures ColumnInfos(store, user, c, n, t, fields) == Raised
    decreases |fields| - k
  {
    if k == |fields| {
      assert fields[..k] == fields;
    } else {
      var init := fields[..|fields| - 1];
      assert init[..k] == fields[..k];
      RaisedPersists(store, user, c, n, t, init, k);
    }
  }

  /** The column loop of `_fetch_and_process_columns`. */
  method FetchAndProcessColumns(sc: Scope, namespaceName: string, tableName: string)
    returns (columns: seq<ColumnInfo>)
    ensures columns == TableColumns(sc, namespaceName, tableName)
  {
    var fields := sc.lk.fields(sc.warehouseId, namespaceName, tableName);
    columns := [];
    var i := 0;
    while i < |fields|
      invariant 0 <= i <= |fields|
      invariant ColumnInfos(sc.store, sc.user, sc.catalogName, namespaceName, tableName, fields[..i]) == Ok(columns)
    {
      assert fields[..i + 1][..i] == fields[..i];
      var field := fields[i];
      if Truthy(field) {
        var hasMask := sc.store.check(sc.user, "mask", FgaColumnObjectId(sc.catalogName, namespaceName, tableName, field.value));
        if hasMask.Raised? {
          // the handler around the loop answers with no columns at all
          RaisedPersists(sc.store, sc.user, sc.catalogName, namespaceName, tableName, fields, i + 1);
          return [];
        }
        columns := columns + [ColumnInfo(field.value, hasMask.value)];
      }
      i := i + 1;
    }
    assert fields[..i] == fields;
  }

  /**
   * A listed column's `masked` flag is the batch mask check's answer on the
   * same column: both ask the store for `mask` on `column:c.n.t.col`.
   */
  lemma ListingMaskAgreesWithBatch(sc: Scope, namespaceName: string, tableName: string, columnType: string)
    requires sc.catalogName != "" && namespaceName != "" && tableName != ""
    ensures var cols := TableColumns(sc, namespaceName, tableName);
      forall i :: 0 <= i < |cols| ==>
        (cols[i].masked <==>
          CMS.Masked(sc.store, sc.user, CMS.ColumnResource(sc.catalogName, namespaceName, tableName, cols[i].name, columnType)))
  {
    var cols := TableColumns(sc, namespaceName, tableName);
    forall i | 0 <= i < |cols|
      ensures cols[i].masked <==>
        CMS.Masked(sc.store, sc.user, CMS.ColumnResource(sc.catalogName, namespaceName, tableName, cols[i].name, columnType))
    {
      CMS.MaskedIff(sc.store, sc.user, CMS.ColumnResource(sc.catalogName, namespaceName, tableName, cols[i].name, columnType));
    }
  }

  /** With checks that never raise, every named field is listed, in order. */
  lemma {:induction false} ReliableStoreListsNamedFields(store: Store, user: string, c: string, n: string, t: string,
                                                         fields: seq<Option<string>>)
    requires ReliableChecks(store)
    ensures ColumnInfos(store, user, c, n, t, fields).Ok?
  {
    if |fields| > 0 {
      ReliableStoreListsNamedFields(store, user, c, n, t, fields[..|fields| - 1]);
    }
  }

  /** Against a store that always raises, a listed table shows no columns. */
  lemma FailingStoreListsNoColumns(sc: Scope, namespaceName: string, tableName: string)
    requires Failing(sc.store)
    ensures TableColumns(sc, namespaceName, tableName) == []
  {
    var fields := sc.lk.fields(sc.warehouseId, namespaceName, tableName);
    NoColumnSurvivesFailure(sc.store, sc.user, sc.catalogName, namespaceName, tableName, fields);
  }

  /** Against a store that always raises, the column loop raises or has nothing to list. */
  lemma {:induction false} NoColumnSurvivesFailure(store: Store, user: string, c: string, n: string, t: string,
                                                   fields: seq<Option<string>>)
    requires Failing(store)
    ensures ColumnInfos(store, user, c, n, t, fields) in {Raised, Ok([])}
  {
    if |fields| > 0 {
      NoColumnSurvivesFailure(store, user, c, n, t, fields[..|fields| - 1]);
    }
  }

  /** The entry for one listed table; a table without a name is skipped. */
  function TableInfoOf(sc: Scope, namespaceName: string, inherited: set<string>, t: TableEntry): Option<TableInfo>
  {
    if !Truthy(t.name) then None
    else
      var name := t.name.value;
      Some(TableInfo(name, TablePermissionSet(sc, namespaceName, name, inherited),
        NoneIfEmpty(TableColumns(sc, namespaceName, name)), None))
  }

  /** The entries for a namespace's tables, in order. */
  function TablesOf(sc: Scope, namespaceName: string, inherited: set<string>, entries: seq<TableEntry>): (r: seq<TableInfo>)
    ensures |r| <= |entries|
  {
    if |entries| == 0 then []
    else
      var t := TableInfoOf(sc, namespaceName, inherited, entries[|entries| - 1]);
      TablesOf(sc, namespaceName, inherited, entries[..|entries| - 1]) + if t.Some? then [t.value] else []
  }

  /** The entry for one namespace, and the error recorded when its tables cannot be listed. */
  function NamespaceOf(sc: Scope, inherited: set<string>, parts: seq<string>): (NamespaceInfo, seq<ErrorEntry>)
  {
    var name := Join(".", parts);
    var perms := NamespacePermissionSet(sc, name, inherited);
    match sc.lk.tables(sc.warehouseId, name)
    case Raised =>
      (NamespaceInfo(name, perms, None), [ErrorEntry(sc.catalogName + "." + name, TablesUnavailable)])
    case Ok(entries) =>
      (NamespaceInfo(name, perms, NoneIfEmpty(TablesOf(sc, name, perms, entries))), [])
  }

  /** The entries and errors for a warehouse's namespaces; empty ones are skipped. */
  function NamespacesOf(sc: Scope, inherited: set<string>, nss: seq<seq<string>>): (r: (seq<NamespaceInfo>, seq<ErrorEntry>))
    ensures |r.0| <= |nss| && |r.1| <= |nss|
  {
    if |nss| == 0 then ([], [])
    else
      var (infos, errors) := NamespacesOf(sc, inherited, nss[..|nss| - 1]);
      var parts := nss[|nss| - 1];
      if |parts| == 0 then (infos, errors)
      else
        var (info, errs) := NamespaceOf(sc, inherited, parts);
        (infos + [info], errors + errs)
  }

  /** `list_resources_with_permissions`. */
  function ListResources(store: Store, lk: Lakekeeper, userId: string, catalog: string): ListResourcesResponse
  {
    var user := BuildUserIdentifier(userId);
    var names := NormalizeCatalogName(catalog);
    var warehouseId := lk.warehouseId(names.warehouseName);
    if !Truthy(warehouseId) then
      ListResourcesResponse(names.catalogName, [], None,
        Some([ErrorEntry(catalog, WarehouseNotFound(names.warehouseName))]))
    else
      var sc := Scope(store, lk, user, names.catalogName, warehouseId.value);
      var permissions := Granted(store, user, FgaCatalogObjectId(names.catalogName), WarehousePermissions);
      var (infos, errors) := NamespacesOf(sc, AsSet(permissions), lk.namespaces(warehouseId.value));
      ListResourcesResponse(names.catalogName, permissions, NoneIfEmpty(infos), NoneIfEmpty(errors))
  }

  // ---------------------------------------------------------------------------
  // The listing, as the service runs it
  // ---------------------------------------------------------------------------

  /** The tables loop of one namespace. */
  method ListTables(sc: Scope, namespaceName: string, inherited: set<string>, entries: seq<TableEntry>)
    returns (tablesList: seq<TableInfo>)
    ensures tablesList == TablesOf(sc, namespaceName, inherited, entries)
  {
    tablesList := [];
    var j := 0;
    while j < |entries|
      invariant 0 <= j <= |entries|
      invariant tablesList == TablesOf(sc, namespaceName, inherited, entries[..j])
    {
      assert entries[..j + 1][..j] == entries[..j];
      var tableName := entries[j].name;
      if Truthy(tableName) {
        var name := tableName.value;
        var direct := CheckPermissions(sc.store, sc.user, FgaTableObjectId(sc.catalogName, namespaceName, name), TablePermissions);
        var tablePermissions := AsSet(direct) + (inherited - {"create"});
        var columns := FetchAndProcessColumns(sc, namespaceName, name);
        var rowFilters := FetchRowFilters(sc.store, sc.catalogName, namespaceName, name);
        tablesList := tablesList + [TableInfo(name, tablePermissions, NoneIfEmpty(columns), NoneIfEmpty(rowFilters))];
      }
      j := j + 1;
    }
    assert entries[..j] == entries;
  }

  /** `list_resources_with_permissions`, step by step. */
  method ListResourcesWithPermissions(store: Store, lk: Lakekeeper, userId: string, catalog: string)
    returns (response: ListResourcesResponse)
    ensures response == ListResources(store, lk, userId, catalog)
  {
    var user := BuildUserIdentifier(userId);
    var names := NormalizeCatalogName(catalog);
    var warehouseName, catalogName := names.warehouseName, names.catalogName;
    var warehouseId := lk.warehouseId(warehouseName);
    if !Truthy(warehouseId) {
      return ListResourcesResponse(catalogName, [], None,
        Some([ErrorEntry(catalog, WarehouseNotFound(warehouseName))]));
    }
    var sc := Scope(store, lk, user, catalogName, warehouseId.value);
    var warehousePermissions := CheckPermissions(store, user, FgaCatalogObjectId(catalogName), WarehousePermissions);
    var inherited := AsSet(warehousePermissions);
    var namespaces := lk.namespaces(warehouseId.value);
    var namespacesList: seq<NamespaceInfo> := [];
    var errors: seq<ErrorEntry> := [];
    var i := 0;
    while i < |namespaces|
      invariant 0 <= i <= |namespaces|
      invariant (namespacesList, errors) == NamespacesOf(sc, inherited, namespaces[..i])
    {
      assert namespaces[..i + 1][..i] == namespaces[..i];
      var parts := namespaces[i];
      if |parts| > 0 {
        var namespaceName := Join(".", parts);
        var resourcePath := catalogName + "." + namespaceName;
        var direct := CheckPermissions(store, user, FgaSchemaObjectId(catalogName, namespaceName), NamespacePermissions);
        var namespacePermissions := AsSet(direct) + inherited;
        var tablesList: seq<TableInfo> := [];
        var namespaceErrors: seq<ErrorEntry> := [];
        var tables := lk.tables(warehouseId.value, namespaceName);
        if tables.Raised? {
          namespaceErrors := [ErrorEntry(resourcePath, TablesUnavailable)];
        } else {
          tablesList := ListTables(sc, namespaceName, namespacePermissions, tables.value);
        }
        assert (NamespaceInfo(namespaceName, namespacePermissions, NoneIfEmpty(tablesList)), namespaceErrors)
            == NamespaceOf(sc, inherited, parts);
        namespacesList := namespacesList + [NamespaceInfo(namespaceName, namespacePermissions, NoneIfEmpty(tablesList))];
        errors := errors + namespaceErrors;
      }
      i := i + 1;
    }
    assert namespaces[..i] == namespaces;
    response := ListResourcesResponse(catalogName, warehousePermissions, NoneIfEmpty(namespacesList), NoneIfEmpty(errors));
  }

  // ---------------------------------------------------------------------------
  // Properties of the listing
  // ---------------------------------------------------------------------------

  /**
   * A catalog whose warehouse is not found is answered with its store name,
   * no permissions, no namespaces and exactly one error naming the warehouse.
   */
  lemma MissingWarehouseReported(store: Store, lk: Lakekeeper, userId: string, catalog: string)
    requires !Truthy(lk.warehouseId(NormalizeCatalogName(catalog).warehouseName))
    ensures var r := ListResources(store, lk, userId, catalog);
      r.name == NormalizeCatalogName(catalog).catalogName &&
      r.permissions == [] && r.namespaces == None &&
      r.errors == Some([ErrorEntry(catalog, WarehouseNotFound(NormalizeCatalogName(catalog).warehouseName))])
  {
  }

  /**
   * A found warehouse reports exactly the warehouse relations the store
   * grants on `warehouse:<catalog name>`, in their listed order.
   */
  lemma WarehousePermissionsGranted(store: Store, lk: Lakekeeper, userId: string, catalog: string, p: string)
    requires Truthy(lk.warehouseId(NormalizeCatalogName(catalog).warehouseName))
    ensures var r := ListResources(store, lk, userId, catalog);
      p in r.permissions <==>
        p in WarehousePermissions &&
        store.check(BuildUserIdentifier(userId), p, FgaCatalogObjectId(NormalizeCatalogName(catalog).catalogName)) == Ok(true)
  {
  }

  /** A listed table holds its own grants and its namespace's, and never `create`. */
  lemma {:induction false} TablesCascade(sc: Scope, namespaceName: string, inherited: set<string>, entries: seq<TableEntry>)
    ensures forall t :: t in TablesOf(sc, namespaceName, inherited, entries) ==>
      t.permissions == TablePermissionSet(sc, namespaceName, t.name, inherited) &&
      "create" !in t.permissions && t.rowFilters == None &&
      TableEntry(Some(t.name)) in entries && t.name != ""
  {
    if |entries| > 0 {
      var init := entries[..|entries| - 1];
      TablesCascade(sc, namespaceName, inherited, init);
      assert entries == init + [entries[|entries| - 1]];
      forall t | t in TablesOf(sc, namespaceName, inherited, entries)
        ensures t.permissions == TablePermissionSet(sc, namespaceName, t.name, inherited)
        ensures "create" !in t.permissions && t.rowFilters == None
        ensures TableEntry(Some(t.name)) in entries && t.name != ""
      {
        if t !in TablesOf(sc, namespaceName, inherited, init) {
          assert entries[|entries| - 1] == TableEntry(Some(t.name));
        } else {
          assert TableEntry(Some(t.name)) in init;
        }
      }
    }
  }

  /** A table entry without a name adds nothing to the listing. */
  lemma NamelessTableSkipped(sc: Scope, namespaceName: string, inherited: set<string>, entries: seq<TableEntry>, t: TableEntry)
    requires !Truthy(t.name)
    ensures TablesOf(sc, namespaceName, inherited, entries + [t]) == TablesOf(sc, namespaceName, inherited, entries)
  {
    assert (entries + [t])[..|entries + [t]| - 1] == entries;
  }

  /**
   * Every listed namespace is a non-empty entry joined with dots, holds its
   * own grants and the warehouse's, and lists only tables obeying the table
   * cascade; every error names a namespace path of the catalog.
   */
  lemma {:induction false} NamespacesCascade(sc: Scope, inherited: set<string>, nss: seq<seq<string>>)
    ensures var (infos, errors) := NamespacesOf(sc, inherited, nss);
      (forall n :: n in infos ==>
        n.permissions == NamespacePermissionSet(sc, n.name, inherited) &&
        inherited <= n.permissions &&
        (exists k :: 0 <= k < |nss| && |nss[k]| > 0 && n.name == Join(".", nss[k]))) &&
      (forall e :: e in errors ==>
        (e.error == TablesUnavailable &&
         exists k :: 0 <= k < |nss| && |nss[k]| > 0 && e.resource == sc.catalogName + "." + Join(".", nss[k])))
  {
    if |nss| > 0 {
      var init := nss[..|nss| - 1];
      NamespacesCascade(sc, inherited, init);
      var (infos0, errors0) := NamespacesOf(sc, inherited, init);
      var (infos, errors) := NamespacesOf(sc, inherited, nss);
      forall n | n in infos
        ensures n.permissions == NamespacePermissionSet(sc, n.name, inherited) && inherited <= n.permissions
        ensures exists k :: 0 <= k < |nss| && |nss[k]| > 0 && n.name == Join(".", nss[k])
      {
        if n in infos0 {
          var k :| 0 <= k < |init| && |init[k]| > 0 && n.name == Join(".", init[k]);
          assert nss[k] == init[k];
        } else {
          assert nss[|nss| - 1] != [] && n.name == Join(".", nss[|nss| - 1]);
        }
      }
      forall e | e in errors
        ensures e.error == TablesUnavailable
        ensures exists k :: 0 <= k < |nss| && |nss[k]| > 0 && e.resource == sc.catalogName + "." + Join(".", nss[k])
      {
        if e in errors0 {
          var k :| 0 <= k < |init| && |init[k]| > 0 && e.resource == sc.catalogName + "." + Join(".", init[k]);
          assert nss[k] == init[k];
        } else {
          assert nss[|nss| - 1] != [] && e.resource == sc.catalogName + "." + Join(".", nss[|nss| - 1]);
        }
      }
    }
  }

  /**
   * A namespace whose tables cannot be listed is still reported, with its
   * permissions and no tables, and one error is recorded for its path.
   */
  lemma TablesFailureRecorded(sc: Scope, inherited: set<string>, parts: seq<string>)
    requires sc.lk.tables(sc.warehouseId, Join(".", parts)) == Raised
    ensures NamespaceOf(sc, inherited, parts)
         == (NamespaceInfo(Join(".", parts), NamespacePermissionSet(sc, Join(".", parts), inherited), None),
             [ErrorEntry(sc.catalogName + "." + Join(".", parts), TablesUnavailable)])
  {
  }

  /** An empty namespace entry adds nothing, neither a namespace nor an error. */
  lemma EmptyNamespaceSkipped(sc: Scope, inherited: set<string>, nss: seq<seq<string>>)
    ensures NamespacesOf(sc, inherited, nss + [[]]) == NamespacesOf(sc, inherited, nss)
  {
    assert (nss + [[]])[..|nss + [[]]| - 1] == nss;
  }

  /** The listing never reports a row filter. */
  lemma NoRowFiltersListed(store: Store, lk: Lakekeeper, userId: string, catalog: string)
    ensures var r := ListResources(store, lk, userId, catalog);
      r.namespaces.Some? ==>
        forall n, t :: n in r.namespaces.value && n.tables.Some? && t in n.tables.value ==>
          t.rowFilters == None && "create" !in t.permissions
  {
    var names := NormalizeCatalogName(catalog);
    var warehouseId := lk.warehouseId(names.warehouseName);
    if Truthy(warehouseId) {
      var user := BuildUserIdentifier(userId);
      var sc := Scope(store, lk, user, names.catalogName, warehouseId.value);
      var permissions := Granted(store, user, FgaCatalogObjectId(names.catalogName), WarehousePermissions);
      var nss := lk.namespaces(warehouseId.value);
      NamespacesOfTables(sc, AsSet(permissions), nss);
    }
  }

  /** Every table listed under any namespace obeys the table cascade. */
  lemma {:induction false} NamespacesOfTables(sc: Scope, inherited: set<string>, nss: seq<seq<string>>)
    ensures forall n, t :: n in NamespacesOf(sc, inherited, nss).0 && n.tables.Some? && t in n.tables.value ==>
      t.rowFilters == None && "create" !in t.permissions
  {
    if |nss| > 0 {
      var init := nss[..|nss| - 1];
      NamespacesOfTables(sc, inherited, init);
      var parts := nss[|nss| - 1];
      if |parts| > 0 {
        var name := Join(".", parts);
        var perms := NamespacePermissionSet(sc, name, inherited);
        var reply := sc.lk.tables(sc.warehouseId, name);
        if reply.Ok? {
          TablesCascade(sc, name, perms, reply.value);
        }
      }
    }
  }
}
