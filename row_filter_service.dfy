/**
 * Row filters: the SQL predicate a user's rows are filtered by on a table.
 *
 * A table's policies are the `row_filter_policy` objects it `applies_to`;
 * a user's filters are the conditions on the `viewer` tuples tying the user
 * to those policies; the predicate is the conjunction, over the filters
 * without a wildcard, of `column IN ('v1', 'v2')`. A user who sees fewer
 * filters than the table has policies gets `1=0`.
 */
module RowFilterService {
  import opened Wrappers
  import opened Strings
  import opened RelationshipStore

  /** Longest escaped value. */
  const MaxValueLength := 100
  /** The type prefix of policy objects. */
  const PolicyPrefix := "row_filter_policy:"
  /** The predicate that filters out every row. */
  const DenyAll := "1=0"

  // ---------------------------------------------------------------------------
  // Policy ids and value escaping
  // ---------------------------------------------------------------------------

  /**
   * `parse_column_from_policy_id`: every `_filter` is deleted, the rest is
   * split on `_`, and the last of two or more parts is the column.
   */
  function ParseColumnFromPolicyId(policyId: string): (r: Option<string>)
    ensures r.Some? <==> '_' in Replace(policyId, "_filter", "")
    ensures r.Some? ==> '_' !in r.value
  {
    var parts := Split(Replace(policyId, "_filter", ""), '_');
    SplitHasSeveralParts(Replace(policyId, "_filter", ""), '_');
    if |parts| >= 2 then Some(parts[|parts| - 1]) else None
  }

  /** A policy id without an underscore names no column. */
  lemma NoUnderscoreNoColumn(policyId: string)
    requires '_' !in policyId
    ensures ParseColumnFromPolicyId(policyId) == None
  {
    ReplaceMissingChar(policyId, "_filter", "", '_');
  }

  /** `_` followed by a name that does not start with `filter` holds no `_filter`. */
  lemma NoFilterAfterUnderscore(b: string)
    requires '_' !in b && !("filter" <= b)
    ensures Replace("_" + b, "_filter", "") == "_" + b
  {
    var s := "_" + b;
    if |s| >= 7 {
      assert s[..7] != "_filter" by {
        assert s[1..7] == b[..6];
        assert "_filter"[1..7] == "filter";
      }
      assert Replace(s, "_filter", "") == [s[0]] + Replace(s[1..], "_filter", "");
      assert s[1..] == b;
      ReplaceMissingChar(b, "_filter", "", '_');
    }
  }

  /**
   * `a_b` with underscore-free parts and `b` not starting with `filter`
   * names column `b`.
   */
  lemma ParseColumnOfTwoParts(a: string, b: string)
    requires '_' !in a && '_' !in b && !("filter" <= b)
    ensures ParseColumnFromPolicyId(a + "_" + b) == Some(b)
  {
    assert a + "_" + b == a + ("_" + b);
    ReplaceSkips(a, "_" + b, "_filter", "");
    NoFilterAfterUnderscore(b);
    SplitAtUnderscore(a, b);
  }

  /**
   * The naming convention `<table>_<column>_filter`, with underscore-free
   * names and a column not starting with `filter`, gives the column back.
   */
  lemma ParseColumnOfConvention(table: string, column: string)
    requires '_' !in table && '_' !in column && !("filter" <= column)
    ensures ParseColumnFromPolicyId(table + "_" + column + "_filter") == Some(column)
  {
    ConventionSuffixRemoved(table, column);
    SplitAtUnderscore(table, column);
  }

  /** Removing `_filter` from `<table>_<column>_filter` leaves `<table>_<column>`. */
  lemma ConventionSuffixRemoved(table: string, column: string)
    requires '_' !in table && '_' !in column && !("filter" <= column)
    ensures Replace(table + "_" + column + "_filter", "_filter", "") == table + "_" + column
  {
    var tail := "_" + column + "_filter";
    assert table + "_" + column + "_filter" == table + tail;
    ReplaceSkips(table, tail, "_filter", "");
    ColumnSuffixRemoved(column);
    assert table + ("_" + column) == table + "_" + column;
  }

  /** Removing `_filter` from `_<column>_filter` leaves `_<column>`. */
  lemma ColumnSuffixRemoved(column: string)
    requires '_' !in column && !("filter" <= column)
    ensures Replace("_" + column + "_filter", "_filter", "") == "_" + column
  {
    var tail := "_" + column + "_filter";
    assert tail[..7] != "_filter" by {
      if |column| >= 6 {
        assert tail[1..7] == column[..6];
      } else {
        assert tail[1 + |column|] == '_';
      }
    }
    assert tail[1..] == column + "_filter";
    assert Replace(column + "_filter", "_filter", "") == column by {
      ReplaceSkips(column, "_filter", "_filter", "");
      TrailingPatternRemoved();
    }
  }

  /** `_filter` alone is removed entirely. */
  lemma TrailingPatternRemoved()
    ensures Replace("_filter", "_filter", "") == ""
  {
    ReplaceLeading("", "_filter", "");
    assert "_filter" + "" == "_filter";
  }

  /** `a_b` with underscore-free parts splits into `a` and `b`. */
  lemma SplitAtUnderscore(a: string, b: string)
    requires '_' !in a && '_' !in b
    ensures Split(a + "_" + b, '_') == [a, b]
  {
    SplitNoSeparator(a, '_');
    SplitNoSeparator(b, '_');
    SplitConcat(a, '_', b);
  }

  /** The documented example: `customers_region_filter` names `region`. */
  lemma ParseColumnExample()
    ensures ParseColumnFromPolicyId("customers_region_filter") == Some("region")
  {
    assert "region"[0] != "filter"[0];
    ParseColumnOfConvention("customers", "region");
    assert "customers" + "_" + "region" + "_filter" == "customers_region_filter";
  }

  /**
   * A policy id of the form `catalog.schema.table.attr` is mangled: its
   * column is everything after the first underscore of the catalog name.
   */
  lemma ParseColumnOfDottedPolicyId()
    ensures ParseColumnFromPolicyId("lakekeeper" + "_" + "bronze.finance.user.region")
         == Some("bronze.finance.user.region")
  {
    assert "bronze.finance.user.region"[0] != "filter"[0];
    ParseColumnOfTwoParts("lakekeeper", "bronze.finance.user.region");
  }

  /**
   * `escape_sql_value`: quotes doubled, then `;`, `--`, backslash, newline
   * and carriage return deleted in that order, then cut to 100 characters.
   */
  function EscapeSqlValue(value: string): (r: string)
    ensures |r| <= MaxValueLength
    ensures ';' !in r && '\\' !in r && '\n' !in r && '\r' !in r
  {
    var quoted := Replace(value, "'", "''");
    var s1 := Replace(quoted, ";", "");
    var s2 := Replace(s1, "--", "");
    var s3 := Replace(s2, "\\", "");
    var s4 := Replace(s3, "\n", "");
    var s5 := Replace(s4, "\r", "");
    ReplaceDeletesChar(quoted, ';');
    NoNewChar(s1, "--", "", ';');
    NoNewChar(s2, "\\", "", ';');
    NoNewChar(s3, "\n", "", ';');
    NoNewChar(s4, "\r", "", ';');
    ReplaceDeletesChar(s2, '\\');
    NoNewChar(s3, "\n", "", '\\');
    NoNewChar(s4, "\r", "", '\\');
    ReplaceDeletesChar(s3, '\n');
    NoNewChar(s4, "\r", "", '\n');
    ReplaceDeletesChar(s4, '\r');
    if |s5| <= MaxValueLength then s5 else s5[..MaxValueLength]
  }

  /** A deletion introduces no character. */
  lemma NoNewChar(s: string, pat: string, rep: string, x: char)
    requires |pat| > 0 && x !in s && x !in rep
    ensures x !in Replace(s, pat, rep)
  {
    if x in Replace(s, pat, rep) {
      ReplaceChars(s, pat, rep, x);
    }
  }

  /** The comment marker survives when a newline separates its dashes. */
  lemma EscapeKeepsSplitCommentMarker()
    ensures EscapeSqlValue("-\n-") == "--"
  {
    var v := "-\n-";
    ReplaceMissingChar(v, "'", "''", '\'');
    ReplaceMissingChar(v, ";", "", ';');
    assert Replace(v, "--", "") == v by {
      assert v[..2] != "--";
      assert v[1..] == "\n-";
      assert "\n-"[..2] != "--";
      assert "\n-"[1..] == "-";
      assert Replace("-", "--", "") == "-";
    }
    ReplaceMissingChar(v, "\\", "", '\\');
    assert Replace(v, "\n", "") == "--" by {
      assert v == "-" + ("\n" + "-");
      ReplaceSkips("-", "\n" + "-", "\n", "");
      ReplaceLeading("-", "\n", "");
      ReplaceAbsent("-", "\n", "");
    }
    ReplaceMissingChar("--", "\r", "", '\r');
  }

  /**
   * Truncation can split a doubled quote: 99 plain characters followed by
   * one quote escape to the same 100 characters, ending in a lone quote.
   */
  lemma EscapeCanLeaveLoneQuote(a: string)
    requires |a| == 99
    requires forall x :: x in a ==> x !in "';-\\\n\r"
    ensures EscapeSqlValue(a + "'") == a + "'"
  {
    assert '\'' !in a;
    ReplaceSkips(a, "'", "'", "''");
    ReplaceLeading("", "'", "''");
    assert "'" + "" == "'";
    var quoted := a + "''";
    assert Replace(a + "'", "'", "''") == quoted;
    assert forall x :: x in quoted ==> x in a || x == '\'';
    ReplaceMissingChar(quoted, ";", "", ';');
    ReplaceMissingChar(quoted, "--", "", '-');
    ReplaceMissingChar(quoted, "\\", "", '\\');
    ReplaceMissingChar(quoted, "\n", "", '\n');
    ReplaceMissingChar(quoted, "\r", "", '\r');
    assert quoted[..100] == a + "'";
  }

  // ---------------------------------------------------------------------------
  // Policies of a table
  // ---------------------------------------------------------------------------

  /** The policy ids among the objects of `items`, in order, prefix removed. */
  function PolicyIdsOf(items: seq<TupleItem>): (r: seq<string>)
    ensures |r| <= |items|
  {
    if |items| == 0 then []
    else
      var last := items[|items| - 1];
      PolicyIdsOf(items[..|items| - 1]) +
      if last.key.Some? && PolicyPrefix <= last.key.value.obj then [Replace(last.key.value.obj, PolicyPrefix, "")]
      else []
  }

  /** The tuples a table's policies are found by. */
  function TablePolicyQuery(store: Store, tableFqn: string): Reply<seq<TupleItem>>
  {
    store.readTuples(Some("table:" + tableFqn), Some("applies_to"), None)
  }

  /** The policies of a table; a failed read gives none. */
  function TablePolicies(store: Store, tableFqn: string): seq<string>
  {
    match TablePolicyQuery(store, tableFqn)
    case Raised => []
    case Ok(items) => PolicyIdsOf(items)
  }

  /** `get_table_policies`. */
  method GetTablePolicies(store: Store, tableFqn: string) returns (policyIds: seq<string>)
    ensures policyIds == TablePolicies(store, tableFqn)
  {
    var reply := TablePolicyQuery(store, tableFqn);
    if reply.Raised? {
      return [];
    }
    var tuples := reply.value;
    policyIds := [];
    var i := 0;
    while i < |tuples|
      invariant 0 <= i <= |tuples|
      invariant policyIds == PolicyIdsOf(tuples[..i])
    {
      assert tuples[..i + 1][..i] == tuples[..i];
      var tupleKey := tuples[i].key;
      if tupleKey.Some? {
        var objectId := tupleKey.value.obj;
        if PolicyPrefix <= objectId {
          policyIds := policyIds + [Replace(objectId, PolicyPrefix, "")];
        }
      }
      i := i + 1;
    }
    assert tuples[..i] == tuples;
  }

  /** The object a policy is stored as. */
  function PolicyObject(policyId: string): string
  {
    PolicyPrefix + policyId
  }

  /**
   * Policies stored with colon-free ids are read back exactly, in order;
   * tuples on other objects are ignored.
   */
  lemma {:induction false} PolicyIdsRecovered(items: seq<TupleItem>, ids: seq<string>)
    requires |items| == |ids|
    requires forall i :: 0 <= i < |items| ==>
      (':' !in ids[i] && items[i].key.Some? && items[i].key.value.obj == PolicyObject(ids[i]))
    ensures PolicyIdsOf(items) == ids
  {
    if |items| > 0 {
      var n := |items| - 1;
      PolicyIdsRecovered(items[..n], ids[..n]);
      var id := ids[n];
      ReplaceLeading(id, PolicyPrefix, "");
      ReplaceMissingChar(id, PolicyPrefix, "", ':');
      assert "" + id == id;
      assert ids[..n] + [id] == ids;
    }
  }

  /** A tuple whose object is not a policy contributes nothing. */
  lemma OtherObjectsIgnored(items: seq<TupleItem>, item: TupleItem)
    requires item.key.None? || !(PolicyPrefix <= item.key.value.obj)
    ensures PolicyIdsOf(items + [item]) == PolicyIdsOf(items)
  {
    assert (items + [item])[..|items|] == items;
  }

  // ---------------------------------------------------------------------------
  // A user's filters
  // ---------------------------------------------------------------------------

  /** One filter: policy, attribute, column parsed from the policy id, values. */
  datatype PolicyFilter = PolicyFilter(
    policyId: string, attributeName: string, columnName: string, allowedValues: seq<string>)

  /** A filter satisfying what the service requires before it keeps one. */
  predicate ValidFilter(f: PolicyFilter)
  {
    f.attributeName != "" && |f.allowedValues| > 0 && f.columnName != "" &&
    ParseColumnFromPolicyId(f.policyId) == Some(f.columnName)
  }

  /** The filter a tuple of policy `policyId` gives, if it gives one. */
  function FilterOfTuple(policyId: string, item: TupleItem): (r: Option<PolicyFilter>)
    ensures r.Some? ==> ValidFilter(r.value) && r.value.policyId == policyId
  {
    if item.key.None? || item.key.value.condition.None? then None
    else
      var ctx := item.key.value.condition.value.context;
      if ctx.None? then None
      else if !Truthy(ctx.value.attributeName) then None
      else if ctx.value.allowedValues.None? || |ctx.value.allowedValues.value| == 0 then None
      else
        var column := ParseColumnFromPolicyId(policyId);
        if !Truthy(column) then None
        else Some(PolicyFilter(policyId, ctx.value.attributeName.value, column.value, ctx.value.allowedValues.value))
  }

  /** The filters the tuples of one policy give, in order. */
  function FiltersOfTuples(policyId: string, items: seq<TupleItem>): (r: seq<PolicyFilter>)
    ensures |r| <= |items|
    ensures forall i :: 0 <= i < |r| ==> ValidFilter(r[i]) && r[i].policyId == policyId
  {
    if |items| == 0 then []
    else
      var f := FilterOfTuple(policyId, items[|items| - 1]);
      FiltersOfTuples(policyId, items[..|items| - 1]) + if f.Some? then [f.value] else []
  }

  /** The `viewer` tuples tying a user to a policy. */
  function ViewerQuery(store: Store, userId: string, policyId: string): Reply<seq<TupleItem>>
  {
    store.readTuples(Some("user:" + userId), Some("viewer"), Some(PolicyObject(policyId)))
  }

  /** The filters of one policy for a user; a failed read gives none. */
  function PolicyFilters(store: Store, userId: string, policyId: string): (r: seq<PolicyFilter>)
    ensures forall i :: 0 <= i < |r| ==> ValidFilter(r[i]) && r[i].policyId == policyId
  {
    match ViewerQuery(store, userId, policyId)
    case Raised => []
    case Ok(items) => FiltersOfTuples(policyId, items)
  }

  /** A user's filters over a list of policies, policy by policy. */
  function UserPolicyFilters(store: Store, userId: string, policyIds: seq<string>): (r: seq<PolicyFilter>)
    ensures forall i :: 0 <= i < |r| ==> ValidFilter(r[i]) && r[i].policyId in policyIds
  {
    if |policyIds| == 0 then []
    else
      var init := policyIds[..|policyIds| - 1];
      var r := UserPolicyFilters(store, userId, init) + PolicyFilters(store, userId, policyIds[|policyIds| - 1]);
      assert forall p :: p in init ==> p in policyIds;
      r
  }

  /** The filters of one policy, tuple by tuple. */
  method PolicyFiltersFor(store: Store, userId: string, policyId: string) returns (found: seq<PolicyFilter>)
    ensures found == PolicyFilters(store, userId, policyId)
  {
    var reply := ViewerQuery(store, userId, policyId);
    if reply.Raised? {
      return [];
    }
    var tuples := reply.value;
    found := [];
    if |tuples| == 0 {
      return;
    }
    var i := 0;
    while i < |tuples|
      invariant 0 <= i <= |tuples|
      invariant found == FiltersOfTuples(policyId, tuples[..i])
    {
      assert tuples[..i + 1][..i] == tuples[..i];
      var tupleKey := tuples[i].key;
      if tupleKey.Some? && tupleKey.value.condition.Some? {
        var ctx := tupleKey.value.condition.value.context;
        if ctx.Some? {
          var attributeName := ctx.value.attributeName;
          var allowedValues := if ctx.value.allowedValues.Some? then ctx.value.allowedValues.value else [];
          if Truthy(attributeName) && |allowedValues| > 0 {
            var columnName := ParseColumnFromPolicyId(policyId);
            if Truthy(columnName) {
              found := found + [PolicyFilter(policyId, attributeName.value, columnName.value, allowedValues)];
            }
          }
        }
      }
      i := i + 1;
    }
    assert tuples[..i] == tuples;
  }

  /** `get_user_policy_filters`. */
  method GetUserPolicyFilters(store: Store, userId: string, policyIds: seq<string>)
    returns (filters: seq<PolicyFilter>)
    ensures filters == UserPolicyFilters(store, userId, policyIds)
  {
    filters := [];
    var i := 0;
    while i < |policyIds|
      invariant 0 <= i <= |policyIds|
      invariant filters == UserPolicyFilters(store, userId, policyIds[..i])
    {
      assert policyIds[..i + 1][..i] == policyIds[..i];
      var found := PolicyFiltersFor(store, userId, policyIds[i]);
      filters := filters + found;
      i := i + 1;
    }
    assert policyIds[..i] == policyIds;
  }

  /** Against a store that raises on everything, a user has no filters. */
  lemma {:induction false} NoFiltersWhenFailing(store: Store, userId: string, policyIds: seq<string>)
    requires Failing(store)
    ensures UserPolicyFilters(store, userId, policyIds) == []
  {
    if |policyIds| > 0 {
      NoFiltersWhenFailing(store, userId, policyIds[..|policyIds| - 1]);
      assert ViewerQuery(store, userId, policyIds[|policyIds| - 1]) == Raised;
    }
  }

  /** A policy whose id names no column gives no filter, whatever its tuples say. */
  lemma {:induction false} UnparseablePolicyDropped(policyId: string, items: seq<TupleItem>)
    requires ParseColumnFromPolicyId(policyId).None?
    ensures FiltersOfTuples(policyId, items) == []
  {
    if |items| > 0 {
      UnparseablePolicyDropped(policyId, items[..|items| - 1]);
    }
  }

  // ---------------------------------------------------------------------------
  // The predicate
  // ---------------------------------------------------------------------------

  /** The escaped values of a filter. */
  function EscapedValues(values: seq<string>): (r: seq<string>)
    ensures |r| == |values|
    ensures forall i :: 0 <= i < |r| ==> r[i] == EscapeSqlValue(values[i])
  {
    seq(|values|, i requires 0 <= i < |values| => EscapeSqlValue(values[i]))
  }

  /** `column IN ('v1', 'v2')` over the escaped values. */
  function Clause(f: PolicyFilter): string
  {
    f.columnName + " IN ('" + Join("', '", EscapedValues(f.allowedValues)) + "')"
  }

  /** The clauses of the filters without a wildcard value, in order. */
  function Clauses(filters: seq<PolicyFilter>): (r: seq<string>)
    ensures |r| <= |filters|
  {
    if |filters| == 0 then []
    else
      var f := filters[|filters| - 1];
      Clauses(filters[..|filters| - 1]) + if "*" in f.allowedValues then [] else [Clause(f)]
  }

  /**
   * The predicate for a table with `policyIds` and a user with `filters`:
   * none without policies, deny-all when the user has fewer filters than
   * the table has policies, none when every filter is a wildcard, and the
   * conjunction of the clauses otherwise.
   */
  function RowFilterSql(policyIds: seq<string>, filters: seq<PolicyFilter>): Option<string>
  {
    if |policyIds| == 0 then None
    else if |filters| == 0 then Some(DenyAll)
    else if |filters| < |policyIds| then Some(DenyAll)
    else
      var clauses := Clauses(filters);
      if |clauses| == 0 then None
      else Some(Join(" AND ", clauses))
  }

  /** The predicate for a user on a table, against a store. */
  function RowFilterFor(store: Store, userId: string, tableFqn: string): Option<string>
  {
    var policyIds := TablePolicies(store, tableFqn);
    RowFilterSql(policyIds, UserPolicyFilters(store, userId, policyIds))
  }

  /** `build_row_filter_sql`. */
  method BuildRowFilterSql(store: Store, userId: string, tableFqn: string) returns (r: Option<string>)
    ensures r == RowFilterFor(store, userId, tableFqn)
  {
    var policyIds := GetTablePolicies(store, tableFqn);
    if |policyIds| == 0 {
      return None;
    }
    var filters := GetUserPolicyFilters(store, userId, policyIds);
    r := PredicateOf(policyIds, filters);
  }

  /** The rest of `build_row_filter_sql`, once the policies and the user's filters are known. */
  method PredicateOf(policyIds: seq<string>, filters: seq<PolicyFilter>) returns (r: Option<string>)
    requires |policyIds| > 0
    ensures r == RowFilterSql(policyIds, filters)
  {
    if |filters| == 0 {
      return Some(DenyAll);
    }
    if |filters| < |policyIds| {
      return Some(DenyAll);
    }
    var clauses: seq<string> := [];
    var i := 0;
    while i < |filters|
      invariant 0 <= i <= |filters|
      invariant clauses == Clauses(filters[..i])
    {
      ClausesStep(filters, i);
      var f := filters[i];
      if "*" !in f.allowedValues {
        // the escaped values, joined and wrapped as `column IN (...)`
        clauses := clauses + [Clause(f)];
      }
      i := i + 1;
    }
    assert filters[..i] == filters;
    if |clauses| == 0 {
      return None;
    }
    r := Some(if |clauses| > 1 then Join(" AND ", clauses) else clauses[0]);
  }

  /** One more filter adds its clause, unless it is a wildcard. */
  lemma ClausesStep(filters: seq<PolicyFilter>, i: int)
    requires 0 <= i < |filters|
    ensures Clauses(filters[..i + 1]) ==
      Clauses(filters[..i]) + if "*" in filters[i].allowedValues then [] else [Clause(filters[i])]
  {
    assert filters[..i + 1][..i] == filters[..i];
  }

  /** A table without policies is not filtered. */
  lemma NoPoliciesNoFilter(store: Store, userId: string, tableFqn: string)
    requires TablePolicies(store, tableFqn) == []
    ensures RowFilterFor(store, userId, tableFqn) == None
  {
  }

  /** A user with fewer filters than the table has policies sees no rows. */
  lemma MissingFiltersDenyAll(policyIds: seq<string>, filters: seq<PolicyFilter>)
    requires |policyIds| > 0 && |filters| < |policyIds|
    ensures RowFilterSql(policyIds, filters) == Some(DenyAll)
  {
  }

  /** Against a failing store every table is unfiltered: its policies cannot be read. */
  lemma FailingStoreUnfiltered(store: Store, userId: string, tableFqn: string)
    requires Failing(store)
    ensures RowFilterFor(store, userId, tableFqn) == None
  {
    assert TablePolicies(store, tableFqn) == [] by {
      assert TablePolicyQuery(store, tableFqn) == Raised;
    }
    NoPoliciesNoFilter(store, userId, tableFqn);
  }

  /**
   * Coverage is a count: which policies the filters come from is never
   * looked at, so a policy the user cannot see goes unnoticed when another
   * policy gives two filters.
   */
  lemma CoverageIsByCount(p1: seq<string>, p2: seq<string>, filters: seq<PolicyFilter>)
    requires |p1| == |p2|
    ensures RowFilterSql(p1, filters) == RowFilterSql(p2, filters)
  {
  }

  /** One policy can give two filters: one per `viewer` tuple. */
  lemma OnePolicyTwoFilters(policyId: string, name: string, values: seq<string>)
    requires name != "" && |values| > 0 && ParseColumnFromPolicyId(policyId).Some?
    requires ParseColumnFromPolicyId(policyId).value != ""
    ensures var item := TupleItem(Some(TupleKey("user:u", "viewer", PolicyObject(policyId),
              Some(Condition("c", Some(ConditionContext(Some(name), Some(values))))))));
            |FiltersOfTuples(policyId, [item, item])| == 2
  {
    var item := TupleItem(Some(TupleKey("user:u", "viewer", PolicyObject(policyId),
                  Some(Condition("c", Some(ConditionContext(Some(name), Some(values))))))));
    assert [item, item][..1] == [item];
    assert [item][..0] == [];
  }

  /** Every filter a wildcard: no predicate at all. */
  lemma {:induction false} WildcardsOnlyUnfiltered(policyIds: seq<string>, filters: seq<PolicyFilter>)
    requires |policyIds| > 0 && |filters| >= |policyIds|
    requires forall i :: 0 <= i < |filters| ==> "*" in filters[i].allowedValues
    ensures RowFilterSql(policyIds, filters) == None
  {
    NoClausesOfWildcards(filters);
  }

  lemma {:induction false} NoClausesOfWildcards(filters: seq<PolicyFilter>)
    requires forall i :: 0 <= i < |filters| ==> "*" in filters[i].allowedValues
    ensures Clauses(filters) == []
  {
    if |filters| > 0 {
      NoClausesOfWildcards(filters[..|filters| - 1]);
    }
  }

  /** The characters a predicate can never get from an escaped value. */
  predicate Dangerous(x: char)
  {
    x == ';' || x == '\\' || x == '\n' || x == '\r'
  }

  /** A clause holds a dangerous character only if its column name does. */
  lemma ClauseChars(f: PolicyFilter, x: char)
    requires Dangerous(x) && x !in f.columnName
    ensures x !in Clause(f)
  {
    var values := EscapedValues(f.allowedValues);
    var joined := Join("', '", values);
    if x in joined {
      JoinChars("', '", values, x);
    }
  }

  lemma {:induction false} ClausesChars(filters: seq<PolicyFilter>, x: char)
    requires Dangerous(x)
    requires forall i :: 0 <= i < |filters| ==> x !in filters[i].columnName
    ensures forall i :: 0 <= i < |Clauses(filters)| ==> x !in Clauses(filters)[i]
  {
    if |filters| > 0 {
      var n := |filters| - 1;
      ClausesChars(filters[..n], x);
      ClauseChars(filters[n], x);
    }
  }

  /**
   * Values cannot inject `;`, backslash, newline or carriage return: the
   * predicate holds one only if some filter's column name does.
   */
  lemma PredicateSafe(policyIds: seq<string>, filters: seq<PolicyFilter>, x: char)
    requires Dangerous(x)
    requires forall i :: 0 <= i < |filters| ==> x !in filters[i].columnName
    ensures RowFilterSql(policyIds, filters).Some? ==> x !in RowFilterSql(policyIds, filters).value
  {
    var clauses := Clauses(filters);
    ClausesChars(filters, x);
    if x in Join(" AND ", clauses) {
      JoinChars(" AND ", clauses, x);
    }
  }

  /** One filter on one policy gives its clause alone. */
  lemma SingleFilterClause(policyId: string, f: PolicyFilter)
    requires "*" !in f.allowedValues
    ensures RowFilterSql([policyId], [f]) == Some(Clause(f))
  {
    assert [f][..0] == [];
  }
}
