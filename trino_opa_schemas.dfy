/**
 * The resource part of a Trino authorization request and its flattening
 * into the internal resource dictionary (`catalog`, `schema`, `table`, ...).
 */
module TrinoOpaSchemas {
  import opened Wrappers

  datatype CatalogResource = CatalogResource(name: string)
  datatype SchemaResource = SchemaResource(catalogName: string, schemaName: string)
  datatype TableResource = TableResource(
    catalogName: string, schemaName: string, tableName: string, columns: Option<seq<string>>)
  datatype ColumnResource = ColumnResource(
    catalogName: string, schemaName: string, tableName: string, columnName: string)
  datatype FunctionResource = FunctionResource(
    catalogName: Option<string>, schemaName: Option<string>, functionName: string)
  datatype ProcedureResource = ProcedureResource(
    catalogName: string, schemaName: string, procedureName: string)
  /** The system-information resource carries no fields. */
  datatype SystemInformationResource = SystemInformationResource

  /** The resource of a single check; each kind is optional. */
  datatype TrinoResource = TrinoResource(
    catalog: Option<CatalogResource>, schema: Option<SchemaResource>,
    table: Option<TableResource>, column: Option<ColumnResource>,
    func: Option<FunctionResource>, systemInformation: Option<SystemInformationResource>,
    procedure: Option<ProcedureResource>)

  /** One item of a batch: the same kinds at top level, without system information. */
  datatype TrinoBatchItem = TrinoBatchItem(
    catalog: Option<CatalogResource>, schema: Option<SchemaResource>,
    table: Option<TableResource>, column: Option<ColumnResource>,
    func: Option<FunctionResource>, procedure: Option<ProcedureResource>)

  /** A value of the flattened dictionary: a name, or the list of columns. */
  datatype Value = Str(s: string) | Strs(list: seq<string>)

  /** The keys a flattened dictionary can hold. */
  datatype Key = CatalogKey | SchemaKey | TableKey | ColumnsKey | ColumnKey | FunctionKey | ProcedureKey

  /** The dictionary key each `Key` stands for. */
  function KeyName(k: Key): string
  {
    match k
    case CatalogKey => "catalog"
    case SchemaKey => "schema"
    case TableKey => "table"
    case ColumnsKey => "columns"
    case ColumnKey => "column"
    case FunctionKey => "function"
    case ProcedureKey => "procedure"
  }

  // ---------------------------------------------------------------------------
  // The flattened dictionary, key by key
  // ---------------------------------------------------------------------------

  /**
   * `catalog` comes from the last kind present of catalog, schema, table,
   * column, function (only when its catalog name is non-empty) and procedure.
   */
  function CatalogOf(r: TrinoResource): Option<string>
  {
    if r.procedure.Some? then Some(r.procedure.value.catalogName)
    else if r.func.Some? && Truthy(r.func.value.catalogName) then r.func.value.catalogName
    else if r.column.Some? then Some(r.column.value.catalogName)
    else if r.table.Some? then Some(r.table.value.catalogName)
    else if r.schema.Some? then Some(r.schema.value.catalogName)
    else if r.catalog.Some? then Some(r.catalog.value.name)
    else None
  }

  /** `schema` comes from the last kind present of schema, table, column, function (if set) and procedure. */
  function SchemaOf(r: TrinoResource): Option<string>
  {
    if r.procedure.Some? then Some(r.procedure.value.schemaName)
    else if r.func.Some? && Truthy(r.func.value.schemaName) then r.func.value.schemaName
    else if r.column.Some? then Some(r.column.value.schemaName)
    else if r.table.Some? then Some(r.table.value.schemaName)
    else if r.schema.Some? then Some(r.schema.value.schemaName)
    else None
  }

  /** `table` comes from the column if present, else from the table. */
  function TableOf(r: TrinoResource): Option<string>
  {
    if r.column.Some? then Some(r.column.value.tableName)
    else if r.table.Some? then Some(r.table.value.tableName)
    else None
  }

  /** `columns` is the table's column list when it is present and non-empty. */
  function ColumnsOf(r: TrinoResource): Option<seq<string>>
  {
    if r.table.Some? && r.table.value.columns.Some? && |r.table.value.columns.value| > 0
    then r.table.value.columns else None
  }

  /** Adds `k := v` when there is a value. */
  function Put(m: map<Key, Value>, k: Key, v: Option<string>): map<Key, Value>
  {
    if v.Some? then m[k := Str(v.value)] else m
  }

  /** The flattened dictionary, described key by key. */
  function Flattened(resource: Option<TrinoResource>): (m: map<Key, Value>)
    ensures resource.None? ==> m == map[]
  {
    if resource.None? then map[]
    else
      var r := resource.value;
      var m := Put(Put(Put(map[], CatalogKey, CatalogOf(r)), SchemaKey, SchemaOf(r)), TableKey, TableOf(r));
      var m := if ColumnsOf(r).Some? then m[ColumnsKey := Strs(ColumnsOf(r).value)] else m;
      var m := Put(m, ColumnKey, if r.column.Some? then Some(r.column.value.columnName) else None);
      var m := Put(m, FunctionKey, if r.func.Some? then Some(r.func.value.functionName) else None);
      Put(m, ProcedureKey, if r.procedure.Some? then Some(r.procedure.value.procedureName) else None)
  }

  /** The first `n` kinds of `r`, in the order the extraction visits them. */
  function Upto(r: TrinoResource, n: nat): TrinoResource
  {
    TrinoResource(
      if n >= 1 then r.catalog else None, if n >= 2 then r.schema else None,
      if n >= 3 then r.table else None, if n >= 4 then r.column else None,
      if n >= 5 then r.func else None, None, if n >= 6 then r.procedure else None)
  }

  /** The resource a batch item stands for. */
  function AsResource(item: TrinoBatchItem): TrinoResource
  {
    TrinoResource(item.catalog, item.schema, item.table, item.column, item.func, None, item.procedure)
  }

  // ---------------------------------------------------------------------------
  // The extraction, one assignment after another
  // ---------------------------------------------------------------------------

  /** The assignments of the catalog block. */
  function AssignCatalog(m: map<Key, Value>, c: Option<CatalogResource>): map<Key, Value>
  {
    if c.None? then m else m[CatalogKey := Str(c.value.name)]
  }

  /** The assignments of the schema block. */
  function AssignSchema(m: map<Key, Value>, s: Option<SchemaResource>): map<Key, Value>
  {
    if s.None? then m
    else m[CatalogKey := Str(s.value.catalogName)][SchemaKey := Str(s.value.schemaName)]
  }

  /** The assignments of the table block, the column list only when non-empty. */
  function AssignTable(m: map<Key, Value>, t: Option<TableResource>): map<Key, Value>
  {
    if t.None? then m
    else
      var m := m[CatalogKey := Str(t.value.catalogName)][SchemaKey := Str(t.value.schemaName)]
                [TableKey := Str(t.value.tableName)];
      if t.value.columns.Some? && |t.value.columns.value| > 0 then m[ColumnsKey := Strs(t.value.columns.value)]
      else m
  }

  /** The assignments of the column block. */
  function AssignColumn(m: map<Key, Value>, c: Option<ColumnResource>): map<Key, Value>
  {
    if c.None? then m
    else m[CatalogKey := Str(c.value.catalogName)][SchemaKey := Str(c.value.schemaName)]
          [TableKey := Str(c.value.tableName)][ColumnKey := Str(c.value.columnName)]
  }

  /** The assignments of the function block; its catalog and schema only when non-empty. */
  function AssignFunction(m: map<Key, Value>, f: Option<FunctionResource>): map<Key, Value>
  {
    if f.None? then m
    else
      var m := if Truthy(f.value.catalogName) then m[CatalogKey := Str(f.value.catalogName.value)] else m;
      var m := if Truthy(f.value.schemaName) then m[SchemaKey := Str(f.value.schemaName.value)] else m;
      m[FunctionKey := Str(f.value.functionName)]
  }

  /** The assignments of the procedure block. */
  function AssignProcedure(m: map<Key, Value>, p: Option<ProcedureResource>): map<Key, Value>
  {
    if p.None? then m
    else m[CatalogKey := Str(p.value.catalogName)][SchemaKey := Str(p.value.schemaName)]
          [ProcedureKey := Str(p.value.procedureName)]
  }

  /** The blocks in the order the extraction runs them. */
  function Assigned(r: TrinoResource): map<Key, Value>
  {
    AssignProcedure(AssignFunction(AssignColumn(AssignTable(AssignSchema(
      AssignCatalog(map[], r.catalog), r.schema), r.table), r.column), r.func), r.procedure)
  }

  /**
   * `extract_resource_from_trino`: each present kind writes its keys in
   * turn, later kinds overwriting earlier ones.
   */
  method ExtractResourceFromTrino(resource: Option<TrinoResource>) returns (result: map<Key, Value>)
    ensures result == Flattened(resource)
  {
    if resource.None? {
      return map[];
    }
    var r := resource.value;
    result := map[];
    ghost var beforeCatalog := result;
    if r.catalog.Some? {
      result := result[CatalogKey := Str(r.catalog.value.name)];
    }
    assert result == AssignCatalog(beforeCatalog, r.catalog);
    ghost var beforeSchema := result;
    if r.schema.Some? {
      result := result[CatalogKey := Str(r.schema.value.catalogName)];
      result := result[SchemaKey := Str(r.schema.value.schemaName)];
    }
    assert result == AssignSchema(beforeSchema, r.schema);
    ghost var beforeTable := result;
    if r.table.Some? {
      result := result[CatalogKey := Str(r.table.value.catalogName)];
      result := result[SchemaKey := Str(r.table.value.schemaName)];
      result := result[TableKey := Str(r.table.value.tableName)];
      if r.table.value.columns.Some? && |r.table.value.columns.value| > 0 {
        result := result[ColumnsKey := Strs(r.table.value.columns.value)];
      }
    }
    assert result == AssignTable(beforeTable, r.table);
    ghost var beforeColumn := result;
    if r.column.Some? {
      result := result[CatalogKey := Str(r.column.value.catalogName)];
      result := result[SchemaKey := Str(r.column.value.schemaName)];
      result := result[TableKey := Str(r.column.value.tableName)];
      result := result[ColumnKey := Str(r.column.value.columnName)];
    }
    assert result == AssignColumn(beforeColumn, r.column);
    ghost var beforeFunction := result;
    if r.func.Some? {
      if Truthy(r.func.value.catalogName) {
        result := result[CatalogKey := Str(r.func.value.catalogName.value)];
      }
      if Truthy(r.func.value.schemaName) {
        result := result[SchemaKey := Str(r.func.value.schemaName.value)];
      }
      result := result[FunctionKey := Str(r.func.value.functionName)];
    }
    assert result == AssignFunction(beforeFunction, r.func);
    ghost var beforeProcedure := result;
    if r.procedure.Some? {
      result := result[CatalogKey := Str(r.procedure.value.catalogName)];
      result := result[SchemaKey := Str(r.procedure.value.schemaName)];
      result := result[ProcedureKey := Str(r.procedure.value.procedureName)];
    }
    assert result == AssignProcedure(beforeProcedure, r.procedure);
    assert result == Assigned(r);
    AssignedIsFlattened(r);
  }

  /**
   * `extract_resource_from_batch_item`: the same assignments over the
   * item's top-level kinds, giving the dictionary of the resource the item
   * stands for.
   */
  method ExtractResourceFromBatchItem(item: TrinoBatchItem) returns (result: map<Key, Value>)
    ensures result == Flattened(Some(AsResource(item)))
  {
    result := map[];
    ghost var beforeCatalog := result;
    if item.catalog.Some? {
      result := result[CatalogKey := Str(item.catalog.value.name)];
    }
    assert result == AssignCatalog(beforeCatalog, item.catalog);
    ghost var beforeSchema := result;
    if item.schema.Some? {
      result := result[CatalogKey := Str(item.schema.value.catalogName)];
      result := result[SchemaKey := Str(item.schema.value.schemaName)];
    }
    assert result == AssignSchema(beforeSchema, item.schema);
    ghost var beforeTable := result;
    if item.table.Some? {
      result := result[CatalogKey := Str(item.table.value.catalogName)];
      result := result[SchemaKey := Str(item.table.value.schemaName)];
      result := result[TableKey := Str(item.table.value.tableName)];
      if item.table.value.columns.Some? && |item.table.value.columns.value| > 0 {
        result := result[ColumnsKey := Strs(item.table.value.columns.value)];
      }
    }
    assert result == AssignTable(beforeTable, item.table);
    ghost var beforeColumn := result;
    if item.column.Some? {
      result := result[CatalogKey := Str(item.column.value.catalogName)];
      result := result[SchemaKey := Str(item.column.value.schemaName)];
      result := result[TableKey := Str(item.column.value.tableName)];
      result := result[ColumnKey := Str(item.column.value.columnName)];
    }
    assert result == AssignColumn(beforeColumn, item.column);
    ghost var beforeFunction := result;
    if item.func.Some? {
      if Truthy(item.func.value.catalogName) {
        result := result[CatalogKey := Str(item.func.value.catalogName.value)];
      }
      if Truthy(item.func.value.schemaName) {
        result := result[SchemaKey := Str(item.func.value.schemaName.value)];
      }
      result := result[FunctionKey := Str(item.func.value.functionName)];
    }
    assert result == AssignFunction(beforeFunction, item.func);
    ghost var beforeProcedure := result;
    if item.procedure.Some? {
      result := result[CatalogKey := Str(item.procedure.value.catalogName)];
      result := result[SchemaKey := Str(item.procedure.value.schemaName)];
      result := result[ProcedureKey := Str(item.procedure.value.procedureName)];
    }
    assert result == AssignProcedure(beforeProcedure, item.procedure);
    assert result == Assigned(AsResource(item));
    AssignedIsFlattened(AsResource(item));
  }

  // ---------------------------------------------------------------------------
  // Overwriting in order is taking the last kind present
  // ---------------------------------------------------------------------------

  lemma CatalogStep(m: map<Key, Value>, r: TrinoResource)
    requires m == map[]
    ensures Describes(AssignCatalog(m, r.catalog), Upto(r, 1))
  {
  }

  lemma SchemaStep(m: map<Key, Value>, r: TrinoResource)
    requires Describes(m, Upto(r, 1))
    ensures Describes(AssignSchema(m, r.schema), Upto(r, 2))
  {
  }

  lemma TableStep(m: map<Key, Value>, r: TrinoResource)
    requires Describes(m, Upto(r, 2))
    ensures Describes(AssignTable(m, r.table), Upto(r, 3))
  {
  }

  lemma ColumnStep(m: map<Key, Value>, r: TrinoResource)
    requires Describes(m, Upto(r, 3))
    ensures Describes(AssignColumn(m, r.column), Upto(r, 4))
  {
  }

  lemma FunctionStep(m: map<Key, Value>, r: TrinoResource)
    requires Describes(m, Upto(r, 4))
    ensures Describes(AssignFunction(m, r.func), Upto(r, 5))
  {
  }

  lemma ProcedureStep(m: map<Key, Value>, r: TrinoResource)
    requires Describes(m, Upto(r, 5))
    ensures Describes(AssignProcedure(m, r.procedure), r)
  {
  }

  /**
   * Running the blocks in order, each overwriting the keys it writes,
   * gives the dictionary in which each key holds the value of the last
   * kind present that writes it.
   */
  lemma AssignedIsFlattened(r: TrinoResource)
    ensures Assigned(r) == Flattened(Some(r))
  {
    var m1 := AssignCatalog(map[], r.catalog);
    CatalogStep(map[], r);
    var m2 := AssignSchema(m1, r.schema);
    SchemaStep(m1, r);
    var m3 := AssignTable(m2, r.table);
    TableStep(m2, r);
    var m4 := AssignColumn(m3, r.column);
    ColumnStep(m3, r);
    var m5 := AssignFunction(m4, r.func);
    FunctionStep(m4, r);
    ProcedureStep(m5, r);
    DescribedKeyByKey(Assigned(r), Some(r));
  }

  // ---------------------------------------------------------------------------
  // Properties of the flattened dictionary
  // ---------------------------------------------------------------------------

  /** `k`'s entry in `m`, if any. */
  function Entry(m: map<Key, Value>, k: Key): Option<Value>
  {
    if k in m then Some(m[k]) else None
  }

  /** A name as an entry. */
  function AsEntry(v: Option<string>): Option<Value>
  {
    if v.Some? then Some(Str(v.value)) else None
  }

  /** `m` holds exactly the entries the key-by-key description gives `r`. */
  predicate Describes(m: map<Key, Value>, r: TrinoResource)
  {
    Entry(m, CatalogKey) == AsEntry(CatalogOf(r)) &&
    Entry(m, SchemaKey) == AsEntry(SchemaOf(r)) &&
    Entry(m, TableKey) == AsEntry(TableOf(r)) &&
    Entry(m, ColumnsKey) == (if ColumnsOf(r).Some? then Some(Strs(ColumnsOf(r).value)) else None) &&
    Entry(m, ColumnKey) == (if r.column.Some? then Some(Str(r.column.value.columnName)) else None) &&
    Entry(m, FunctionKey) == (if r.func.Some? then Some(Str(r.func.value.functionName)) else None) &&
    Entry(m, ProcedureKey) == (if r.procedure.Some? then Some(Str(r.procedure.value.procedureName)) else None)
  }

  /** The flattened dictionary of a resource is described key by key. */
  lemma FlattenedDescribes(r: TrinoResource)
    ensures Describes(Flattened(Some(r)), r)
  {
  }

  /** Two dictionaries described by the same resource are equal. */
  lemma DescribesUnique(m1: map<Key, Value>, m2: map<Key, Value>, r: TrinoResource)
    requires Describes(m1, r) && Describes(m2, r)
    ensures m1 == m2
  {
    forall k
      ensures Entry(m1, k) == Entry(m2, k)
    {
      match k
      case CatalogKey =>
      case SchemaKey =>
      case TableKey =>
      case ColumnsKey =>
      case ColumnKey =>
      case FunctionKey =>
      case ProcedureKey =>
    }
    forall k | k in m1
      ensures k in m2 && m1[k] == m2[k]
    {
      assert Entry(m1, k) == Entry(m2, k);
    }
    forall k | k in m2
      ensures k in m1
    {
      assert Entry(m1, k) == Entry(m2, k);
    }
  }

  /** A dictionary described by the resource is its flattened dictionary. */
  lemma DescribedKeyByKey(m: map<Key, Value>, resource: Option<TrinoResource>)
    requires resource.Some? && Describes(m, resource.value)
    ensures m == Flattened(resource)
  {
    FlattenedDescribes(resource.value);
    DescribesUnique(m, Flattened(resource), resource.value);
  }

  /** System information contributes no key. */
  lemma SystemInformationIgnored(resource: Option<TrinoResource>)
    ensures resource.Some? && resource.value.systemInformation.Some? ==>
      Flattened(resource) == Flattened(Some(resource.value.(systemInformation := None)))
  {
    if resource.Some? {
      var r := resource.value;
      var r' := r.(systemInformation := None);
      FlattenedDescribes(r);
      FlattenedDescribes(r');
      assert Describes(Flattened(resource), r');
      DescribesUnique(Flattened(resource), Flattened(Some(r')), r');
    }
  }

  /** `columns` is present only for a table with a non-empty column list. */
  lemma ColumnsOnlyWithTable(r: TrinoResource)
    ensures ColumnsKey in Flattened(Some(r)) <==>
      r.table.Some? && r.table.value.columns.Some? && |r.table.value.columns.value| > 0
    ensures ColumnsKey in Flattened(Some(r)) ==> Flattened(Some(r))[ColumnsKey] == Strs(r.table.value.columns.value)
  {
    FlattenedDescribes(r);
    assert Entry(Flattened(Some(r)), ColumnsKey).Some? <==> ColumnsKey in Flattened(Some(r));
  }

  /**
   * A function resource always sets `function`; it overrides the catalog
   * and schema only with non-empty names of its own.
   */
  lemma FunctionKeys(r: TrinoResource)
    requires r.func.Some? && r.procedure.None?
    ensures Flattened(Some(r))[FunctionKey] == Str(r.func.value.functionName)
    ensures Truthy(r.func.value.catalogName) ==>
      Flattened(Some(r))[CatalogKey] == Str(r.func.value.catalogName.value)
    ensures !Truthy(r.func.value.catalogName) ==>
      Entry(Flattened(Some(r)), CatalogKey) == AsEntry(CatalogOf(r.(func := None)))
  {
    FlattenedDescribes(r);
  }

  /** The catalog is taken from the procedure when there is one, whatever else is present. */
  lemma ProcedureCatalogWins(r: TrinoResource)
    requires r.procedure.Some?
    ensures Flattened(Some(r))[CatalogKey] == Str(r.procedure.value.catalogName)
    ensures Flattened(Some(r))[SchemaKey] == Str(r.procedure.value.schemaName)
  {
    FlattenedDescribes(r);
  }

  /** A lone catalog gives the one-key dictionary of its name. */
  lemma CatalogOnly(name: string)
    ensures Flattened(Some(TrinoResource(Some(CatalogResource(name)), None, None, None, None, None, None)))
         == map[CatalogKey := Str(name)]
  {
  }

  // ---------------------------------------------------------------------------
  // The dictionary as the permission check receives it
  // ---------------------------------------------------------------------------

  /** The names a flattened dictionary's keys can have. */
  const ResultKeys: set<string> := {"catalog", "schema", "table", "columns", "column", "function", "procedure"}

  /** Every key has one of the seven names. */
  lemma KeyNameKnown(k: Key)
    ensures KeyName(k) in ResultKeys
  {
  }

  /**
   * The string entries of a flattened dictionary under their key names.
   * The column list is not a string; no step of the permission check reads it.
   */
  function AsRequestResource(m: map<Key, Value>): (d: map<string, string>)
    ensures d.Keys <= ResultKeys
    ensures forall k :: k in m && m[k].Str? ==> KeyName(k) in d && d[KeyName(k)] == m[k].s
  {
    forall k: Key
      ensures KeyName(k) in ResultKeys
    {
      KeyNameKnown(k);
    }
    forall k: Key, k': Key | KeyName(k) == KeyName(k')
      ensures k == k'
    {
      KeyNameInjective(k, k');
    }
    map k | k in m && m[k].Str? :: KeyName(k) := m[k].s
  }

  /** The catalog and schema a flattened dictionary passes on are those of the key-by-key description. */
  lemma RequestResourceNames(r: TrinoResource)
    ensures var d := AsRequestResource(Flattened(Some(r)));
      Get(d, "catalog") == CatalogOf(r) && Get(d, "schema") == SchemaOf(r) && Get(d, "table") == TableOf(r)
  {
    var m := Flattened(Some(r));
    FlattenedDescribes(r);
    RequestEntry(m, CatalogKey);
    RequestEntry(m, SchemaKey);
    RequestEntry(m, TableKey);
  }

  /** A key's name in the request dictionary holds the key's string entry, if any. */
  lemma RequestEntry(m: map<Key, Value>, k: Key)
    ensures Get(AsRequestResource(m), KeyName(k)) == if k in m && m[k].Str? then Some(m[k].s) else None
  {
    var d := AsRequestResource(m);
    if KeyName(k) in d {
      var k' :| k' in m && m[k'].Str? && KeyName(k') == KeyName(k);
      KeyNameInjective(k, k');
    }
  }

  /** Different keys have different names. */
  lemma KeyNameInjective(k: Key, k': Key)
    requires KeyName(k) == KeyName(k')
    ensures k == k'
  {
    assert KeyName(k)[..2] == KeyName(k')[..2];
  }
}
