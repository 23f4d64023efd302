/**
 * Column masks: a `mask` tuple between a user and a column object marks the
 * column as masked for that user. Grants and revocations write or delete
 * one such tuple; a user's masked columns on a table are read back from
 * them; a batch request from Trino asks, column by column, which of its
 * columns to mask.
 */
module ColumnMaskService {
  import opened Wrappers
  import opened Strings
  import opened OperationMapper
  import opened TypeMapper
  import opened RelationshipStore
  import RB = ResourceBuilder

  const MaskRelation := "mask"
  /** The expression every masked column is replaced by. */
  const MaskExpression := "'*****'"

  // ---------------------------------------------------------------------------
  // Grant and revoke
  // ---------------------------------------------------------------------------

  /** Why a mask grant or revocation was refused. */
  datatype MaskError =
    | ColumnRequired
    | Unbuildable(error: RB.BuildError)
    | NotAColumn(resourceType: string)

  /**
   * A mask grant or revocation. `user` is the store user the request's id
   * and user type stand for; the function that computes it is not part of
   * this model.
   */
  datatype ColumnMaskGrant = ColumnMaskGrant(userId: string, user: string, resource: RB.ResourceSpec)

  /** The response: the column's dotted name and its object id. */
  datatype ColumnMaskResponse = ColumnMaskResponse(
    userId: string, columnId: string, objectId: string, relation: string)

  /** The column a grant names, all four names present. */
  predicate NamesColumn(s: RB.ResourceSpec)
  {
    !Truthy(s.project) && !Truthy(s.role) &&
    Truthy(s.catalog) && Truthy(s.schema) && Truthy(s.table) && Truthy(s.column)
  }

  /** The dotted name `c.s.t.col` of a resource that names a column. */
  function ColumnId(s: RB.ResourceSpec): string
    requires NamesColumn(s)
  {
    s.catalog.value + "." + s.schema.value + "." + s.table.value + "." + s.column.value
  }

  /**
   * The column object a mask grant is made on: refused without a column,
   * when the identifiers cannot be built, and when they are not a column's.
   */
  function MaskTarget(s: RB.ResourceSpec): (r: Result<Identifiers, MaskError>)
    ensures !Truthy(s.column) ==> r == Failure(ColumnRequired)
    ensures r.Success? <==> NamesColumn(s)
    ensures r.Success? ==>
      r.value == Identifiers(FgaColumn + ":" + ColumnId(s), FgaColumn, ColumnId(s))
  {
    if !Truthy(s.column) then Failure(ColumnRequired)
    else
      var f := RB.ExtractResourceFields(RB.Model(s));
      if !Truthy(f.project) && !Truthy(f.role) then
        RB.ColumnScope(f, MaskRelation);
        MaskTargetOf(s, RB.BuildFgaResourceIdentifiers(RB.Model(s), MaskRelation, true))
      else
        MaskTargetOf(s, RB.BuildFgaResourceIdentifiers(RB.Model(s), MaskRelation, true))
  }

  /** The checks made on the built identifiers. */
  function MaskTargetOf(s: RB.ResourceSpec, built: Result<Option<Identifiers>, RB.BuildError>)
    : Result<Identifiers, MaskError>
  {
    match built
    case Failure(e) => Failure(Unbuildable(e))
    case Success(None) => Failure(Unbuildable(RB.NotEnoughInformation))
    case Success(Some(ids)) =>
      if ids.resourceType != FgaColumn then Failure(NotAColumn(ids.resourceType))
      else Success(ids)
  }

  /** A resource that names a project or a role is refused as not a column. */
  lemma ProjectOrRoleNotAColumn(s: RB.ResourceSpec)
    requires Truthy(s.column) && (Truthy(s.project) || Truthy(s.role))
    ensures MaskTarget(s).Failure? && MaskTarget(s).error.NotAColumn?
  {
  }

  /** `grant_column_mask`: one `mask` tuple written on the column object. */
  function GrantColumnMask(g: ColumnMaskGrant): (r: Result<(TupleChange, ColumnMaskResponse), MaskError>)
    ensures r.Success? <==> NamesColumn(g.resource)
    ensures r.Success? ==>
      var obj := FgaColumn + ":" + ColumnId(g.resource);
      r.value.0 == Write(g.user, MaskRelation, obj, None) &&
      r.value.1 == ColumnMaskResponse(g.userId, ColumnId(g.resource), obj, MaskRelation)
  {
    match MaskTarget(g.resource)
    case Failure(e) => Failure(e)
    case Success(ids) =>
      Success((Write(g.user, MaskRelation, ids.objectId, None),
               ColumnMaskResponse(g.userId, ids.resourceId, ids.objectId, MaskRelation)))
  }

  /** `revoke_column_mask`: the same checks, and the tuple deleted. */
  function RevokeColumnMask(g: ColumnMaskGrant): (r: Result<(TupleChange, ColumnMaskResponse), MaskError>)
    ensures r.Success? <==> NamesColumn(g.resource)
    ensures r.Success? ==>
      var obj := FgaColumn + ":" + ColumnId(g.resource);
      r.value.0 == Delete(g.user, MaskRelation, obj) &&
      r.value.1 == ColumnMaskResponse(g.userId, ColumnId(g.resource), obj, MaskRelation)
  {
    match MaskTarget(g.resource)
    case Failure(e) => Failure(e)
    case Success(ids) =>
      Success((Delete(g.user, MaskRelation, ids.objectId),
               ColumnMaskResponse(g.userId, ids.resourceId, ids.objectId, MaskRelation)))
  }

  /** A revocation deletes exactly the tuple the grant writes, and refuses exactly what the grant refuses. */
  lemma RevokeUndoesGrant(g: ColumnMaskGrant)
    ensures GrantColumnMask(g).Failure? <==> RevokeColumnMask(g).Failure?
    ensures GrantColumnMask(g).Failure? ==> GrantColumnMask(g).error == RevokeColumnMask(g).error
    ensures GrantColumnMask(g).Success? ==>
      var w := GrantColumnMask(g).value.0;
      RevokeColumnMask(g).value.0 == Delete(w.user, w.relation, w.obj) &&
      RevokeColumnMask(g).value.1 == GrantColumnMask(g).value.1
  {
  }

  /** The object a grant writes is the hierarchical column object id of its four names. */
  lemma GrantObjectIsColumnObject(g: ColumnMaskGrant)
    requires NamesColumn(g.resource)
    ensures GrantColumnMask(g).value.0.obj ==
      FgaColumnObjectId(g.resource.catalog.value, g.resource.schema.value,
                        g.resource.table.value, g.resource.column.value)
  {
    var s := g.resource;
    assert FgaColumnObjectId(s.catalog.value, s.schema.value, s.table.value, s.column.value)
        == FgaColumn + ":" + ColumnId(s);
  }

  // ---------------------------------------------------------------------------
  // Masked columns of a table
  // ---------------------------------------------------------------------------

  /** The prefix of the column objects of a table. */
  function TablePrefix(tableFqn: string): string
  {
    FgaColumn + ":" + tableFqn + "."
  }

  /** The last dot-separated part of a string. */
  function LastPart(s: string): (r: string)
    ensures '.' !in r
  {
    var parts := Split(s, '.');
    parts[|parts| - 1]
  }

  /** The column names among the objects of `items` under `prefix`, in order. */
  function MaskedColumnsOf(prefix: string, items: seq<TupleItem>): (r: seq<string>)
    ensures |r| <= |items|
    ensures forall i :: 0 <= i < |r| ==> r[i] != "" && '.' !in r[i]
  {
    if |items| == 0 then []
    else
      var last := items[|items| - 1];
      MaskedColumnsOf(prefix, items[..|items| - 1]) +
      if last.key.Some? && last.key.value.obj != "" && prefix <= last.key.value.obj &&
         LastPart(last.key.value.obj) != ""
      then [LastPart(last.key.value.obj)]
      else []
  }

  /** The `mask` tuples of a user. */
  function MaskQuery(store: Store, userId: string): Reply<seq<TupleItem>>
  {
    store.readTuples(Some(BuildUserIdentifier(userId)), Some(MaskRelation), None)
  }

  /** A user's masked columns on a table; a failed read gives none. */
  function MaskedColumns(store: Store, userId: string, tableFqn: string): seq<string>
  {
    match MaskQuery(store, userId)
    case Raised => []
    case Ok(items) => MaskedColumnsOf(TablePrefix(tableFqn), items)
  }

  /** `get_masked_columns_for_user`. */
  method GetMaskedColumnsForUser(store: Store, userId: string, tableFqn: string)
    returns (maskedColumns: seq<string>)
    ensures maskedColumns == MaskedColumns(store, userId, tableFqn)
  {
    var reply := MaskQuery(store, userId);
    if reply.Raised? {
      return [];
    }
    var tuples := reply.value;
    var tablePrefix := TablePrefix(tableFqn);
    maskedColumns := [];
    var i := 0;
    while i < |tuples|
      invariant 0 <= i <= |tuples|
      invariant maskedColumns == MaskedColumnsOf(tablePrefix, tuples[..i])
    {
      assert tuples[..i + 1][..i] == tuples[..i];
      var tupleKey := tuples[i].key;
      if tupleKey.Some? {
        var objectId := tupleKey.value.obj;
        if objectId != "" && tablePrefix <= objectId {
          var columnName := LastPart(objectId);
          if columnName != "" {
            maskedColumns := maskedColumns + [columnName];
          }
        }
      }
      i := i + 1;
    }
    assert tuples[..i] == tuples;
  }

  /** The mask tuple of a user on column `col` of a table. */
  function MaskTuple(user: string, tableFqn: string, col: string): TupleItem
  {
    TupleItem(Some(TupleKey(user, MaskRelation, TablePrefix(tableFqn) + col, None)))
  }

  /** The last part of `x.col` is `col` when `col` has no dot. */
  lemma LastPartAfterDot(x: string, col: string)
    requires '.' !in col
    ensures LastPart(x + "." + col) == col
  {
    SplitNoSeparator(col, '.');
    SplitConcat(x, '.', col);
  }

  /**
   * Masks granted on dot-free, non-empty column names of a table are read
   * back as exactly those names, in order.
   */
  lemma {:induction false} MaskedColumnsRecovered(user: string, tableFqn: string, cols: seq<string>, items: seq<TupleItem>)
    requires |items| == |cols|
    requires forall i :: 0 <= i < |cols| ==>
      (cols[i] != "" && '.' !in cols[i] && items[i] == MaskTuple(user, tableFqn, cols[i]))
    ensures MaskedColumnsOf(TablePrefix(tableFqn), items) == cols
  {
    if |items| > 0 {
      var n := |items| - 1;
      MaskedColumnsRecovered(user, tableFqn, cols[..n], items[..n]);
      LastPartAfterDot(FgaColumn + ":" + tableFqn, cols[n]);
      assert TablePrefix(tableFqn) + cols[n] == FgaColumn + ":" + tableFqn + "." + cols[n];
      assert cols[..n] + [cols[n]] == cols;
    }
  }

  /** Tuples on objects outside the table contribute nothing. */
  lemma OtherTablesIgnored(tableFqn: string, items: seq<TupleItem>, item: TupleItem)
    requires item.key.Some? && !(TablePrefix(tableFqn) <= item.key.value.obj)
    ensures MaskedColumnsOf(TablePrefix(tableFqn), items + [item]) == MaskedColumnsOf(TablePrefix(tableFqn), items)
  {
    assert (items + [item])[..|items|] == items;
  }

  // ---------------------------------------------------------------------------
  // Batch masks
  // ---------------------------------------------------------------------------

  /** A column as Trino sends it. */
  datatype ColumnResource = ColumnResource(
    catalogName: string, schemaName: string, tableName: string, columnName: string, columnType: string)

  /** One entry of a batch answer: the column's index and its mask expression. */
  datatype MaskEntry = MaskEntry(index: nat, expression: string)

  /** The resource model built from a Trino column. */
  function SpecOf(c: ColumnResource): RB.ResourceSpec
  {
    RB.ResourceSpec(Some(c.catalogName), Some(c.schemaName), Some(c.tableName), Some(c.columnName),
                    None, None, None)
  }

  /** The column builds to a column object and the store grants the user `mask` on it. */
  predicate Masked(store: Store, user: string, c: ColumnResource)
  {
    match RB.BuildFgaResourceIdentifiers(RB.Model(SpecOf(c)), MaskRelation, false)
    case Success(Some(ids)) => ids.resourceType == FgaColumn && store.check(user, MaskRelation, ids.objectId) == Ok(true)
    case _ => false
  }

  /** A column is masked iff its four names are non-empty and `mask` is granted on `column:c.s.t.col`. */
  lemma MaskedIff(store: Store, user: string, c: ColumnResource)
    ensures Masked(store, user, c) <==>
      c.catalogName != "" && c.schemaName != "" && c.tableName != "" && c.columnName != "" &&
      store.check(user, MaskRelation,
                  FgaColumn + ":" + c.catalogName + "." + c.schemaName + "." + c.tableName + "." + c.columnName)
        == Ok(true)
  {
    var f := RB.ExtractResourceFields(RB.Model(SpecOf(c)));
    if c.columnName != "" {
      RB.ColumnScope(f, MaskRelation);
      if c.catalogName != "" && c.schemaName != "" && c.tableName != "" {
        var id := c.catalogName + "." + c.schemaName + "." + c.tableName + "." + c.columnName;
        assert FgaColumn + ":" + c.catalogName + "." + c.schemaName + "." + c.tableName + "." + c.columnName
            == FgaColumn + ":" + id;
      }
    } else {
      BlankColumnNotMasked(f);
    }
  }

  /** Without a column name a Trino column builds to something other than a column. */
  lemma BlankColumnNotMasked(f: RB.Fields)
    requires !Truthy(f.project) && !Truthy(f.role) && !Truthy(f.column)
    ensures RB.Build(f, MaskRelation).Success? ==> RB.Build(f, MaskRelation).value.resourceType != "column"
  {
  }

  /** An entry, with the fixed mask expression, for each index whose flag is set, in index order. */
  function IndexEntries(flags: seq<bool>): (r: seq<MaskEntry>)
    ensures forall k :: 0 <= k < |r| ==> r[k].index < |flags| && r[k].expression == MaskExpression
    ensures forall k, l :: 0 <= k < l < |r| ==> r[k].index < r[l].index
    ensures forall i :: 0 <= i < |flags| ==> (flags[i] <==> exists k :: 0 <= k < |r| && r[k].index == i)
  {
    if |flags| == 0 then []
    else
      var n := |flags| - 1;
      var init := IndexEntries(flags[..n]);
      var r := init + if flags[n] then [MaskEntry(n, MaskExpression)] else [];
      IndexEntriesStep(flags, init, r);
      r
  }

  /** The step of `IndexEntries`: appending the entry for the last flag, if set. */
  lemma IndexEntriesStep(flags: seq<bool>, init: seq<MaskEntry>, r: seq<MaskEntry>)
    requires |flags| > 0
    requires var n := |flags| - 1;
      (forall k :: 0 <= k < |init| ==> init[k].index < n) &&
      (forall i :: 0 <= i < n ==> (flags[i] <==> exists k :: 0 <= k < |init| && init[k].index == i)) &&
      r == init + if flags[n] then [MaskEntry(n, MaskExpression)] else []
    ensures forall i :: 0 <= i < |flags| ==> (flags[i] <==> exists k :: 0 <= k < |r| && r[k].index == i)
  {
    var n := |flags| - 1;
    forall i | 0 <= i < |flags|
      ensures flags[i] <==> exists k :: 0 <= k < |r| && r[k].index == i
    {
      if i < n {
        if flags[i] {
          var k :| 0 <= k < |init| && init[k].index == i;
          assert r[k] == init[k];
        } else {
          forall k | 0 <= k < |r|
            ensures r[k].index != i
          {
            if k < |init| {
              assert r[k] == init[k];
            }
          }
        }
      } else if flags[n] {
        assert r[|init|].index == n;
      } else {
        forall k | 0 <= k < |r|
          ensures r[k].index != i
        {
          assert r[k] == init[k];
        }
      }
    }
  }

  /** Which columns of a batch are masked. */
  function MaskFlags(store: Store, user: string, columns: seq<ColumnResource>): (r: seq<bool>)
    ensures |r| == |columns|
    ensures forall i :: 0 <= i < |columns| ==> r[i] == Masked(store, user, columns[i])
  {
    seq(|columns|, i requires 0 <= i < |columns| => Masked(store, user, columns[i]))
  }

  /**
   * The mask entries of a batch: an entry for each masked column, in index
   * order, each with the fixed mask expression.
   */
  function BatchMasks(store: Store, user: string, columns: seq<ColumnResource>): (r: seq<MaskEntry>)
    ensures forall k :: 0 <= k < |r| ==> r[k].index < |columns| && r[k].expression == MaskExpression
    ensures forall k, l :: 0 <= k < l < |r| ==> r[k].index < r[l].index
    ensures forall i :: 0 <= i < |columns| ==>
      (Masked(store, user, columns[i]) <==> exists k :: 0 <= k < |r| && r[k].index == i)
  {
    IndexEntries(MaskFlags(store, user, columns))
  }

  /**
   * `batch_check_column_masks`. The operation is only compared against
   * `GetColumnMask` for a log line, so the answer does not depend on it.
   */
  method BatchCheckColumnMasks(store: Store, userId: string, operation: string, columns: seq<ColumnResource>)
    returns (entries: seq<MaskEntry>)
    ensures entries == BatchMasks(store, BuildUserIdentifier(userId), columns)
  {
    var user := BuildUserIdentifier(userId);
    ghost var flags := MaskFlags(store, user, columns);
    entries := [];
    var index := 0;
    while index < |columns|
      invariant 0 <= index <= |columns|
      invariant entries == IndexEntries(flags[..index])
    {
      assert flags[..index + 1][..index] == flags[..index];
      var column := columns[index];
      var result := RB.BuildFgaResourceIdentifiers(RB.Model(SpecOf(column)), MaskRelation, false);
      if result.Success? && result.value.Some? {
        var ids := result.value.value;
        if ids.resourceType == FgaColumn {
          var hasMask := store.check(user, MaskRelation, ids.objectId);
          if hasMask == Ok(true) {
            entries := entries + [MaskEntry(index, MaskExpression)];
          }
        }
      }
      index := index + 1;
    }
    assert flags[..index] == flags;
  }

  lemma {:induction false} NoEntriesWithoutFlags(flags: seq<bool>)
    requires forall i :: 0 <= i < |flags| ==> !flags[i]
    ensures IndexEntries(flags) == []
  {
    if |flags| > 0 {
      NoEntriesWithoutFlags(flags[..|flags| - 1]);
    }
  }

  /** Against a failing store nothing is masked. */
  lemma FailingStoreMasksNothing(store: Store, user: string, columns: seq<ColumnResource>)
    requires Failing(store)
    ensures BatchMasks(store, user, columns) == []
  {
    var flags := MaskFlags(store, user, columns);
    forall i | 0 <= i < |flags|
      ensures !flags[i]
    {
      match RB.BuildFgaResourceIdentifiers(RB.Model(SpecOf(columns[i])), MaskRelation, false)
      case Success(Some(ids)) =>
        assert store.check(user, MaskRelation, ids.objectId) == Raised;
      case _ =>
    }
    NoEntriesWithoutFlags(flags);
  }
}
