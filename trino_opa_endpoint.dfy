/**
 * The two OPA-compatible endpoints Trino calls: a single allow/deny
 * decision, and a batch filter that answers with the indices of the
 * resources the user may see.
 */
module TrinoOpaEndpoint {
  import opened Wrappers
  import opened OperationMapper
  import opened RelationshipStore
  import TS = TrinoOpaSchemas
  import PS = PermissionService

  /** System and session operations that are allowed without a permission check. */
  const AlwaysAllowOperations: set<string> := {
    "ExecuteQuery", "ExecuteTableProcedure", "ReadSystemInformation", "WriteSystemInformation",
    "SetCatalogSessionProperty", "SetSystemSessionProperty", "ImpersonateUser",
    "ViewQueryOwnedBy", "KillQueryOwnedBy", "ExecuteFunction"}

  /** The batch operations that have a single-item counterpart. */
  const FilterOperations: map<string, string> := map[
    "FilterCatalogs" := "AccessCatalog",
    "FilterSchemas" := "ShowSchemas",
    "FilterTables" := "ShowTables",
    "FilterColumns" := "ShowColumns",
    "FilterViewQueryOwnedBy" := "ViewQueryOwnedBy"]

  /** `_map_filter_operation`: a batch operation's single-item counterpart, or the operation itself. */
  function MapFilterOperation(op: string): (r: string)
    ensures op in FilterOperations ==> r == FilterOperations[op]
    ensures op !in FilterOperations ==> r == op
  {
    if op in FilterOperations then FilterOperations[op] else op
  }

  /**
   * The first four batch operations have a counterpart with a relation;
   * `FilterViewQueryOwnedBy` maps to an operation the relation table does not list.
   */
  lemma FilterCounterparts()
    ensures MapFilterOperation("FilterCatalogs") == "AccessCatalog"
    ensures MapFilterOperation("FilterSchemas") == "ShowSchemas"
    ensures MapFilterOperation("FilterTables") == "ShowTables"
    ensures MapFilterOperation("FilterColumns") == "ShowColumns"
    ensures MapFilterOperation("FilterViewQueryOwnedBy") == "ViewQueryOwnedBy"
    ensures forall op :: op in FilterOperations && op != "FilterViewQueryOwnedBy" ==>
      MapOperationToRelation(MapFilterOperation(op)).Some?
    ensures MapOperationToRelation(MapFilterOperation("FilterViewQueryOwnedBy")).None?
  {
    SpecialOperationRelations();
    UnmappedOperations();
  }

  // ---------------------------------------------------------------------------
  // Single check
  // ---------------------------------------------------------------------------

  /**
   * A single-check request: the identity's user and groups, the operation
   * and its optional resource.
   */
  datatype TrinoOpaRequest = TrinoOpaRequest(
    user: string, groups: seq<string>, operation: string, resource: Option<TS.TrinoResource>)

  /** The permission-check request a single check becomes. */
  function InternalRequest(req: TrinoOpaRequest): PS.CheckRequest
  {
    PS.CheckRequest(req.user, TS.AsRequestResource(TS.Flattened(req.resource)), req.operation)
  }

  /** The answer to a single check. */
  predicate AllowDecision(store: Store, req: TrinoOpaRequest)
  {
    req.operation in AlwaysAllowOperations || PS.Decide(store, InternalRequest(req))
  }

  /**
   * `trino_allow`: operations of the always-allowed set are answered
   * without asking the service; the others by the permission check on the
   * flattened resource.
   */
  method TrinoAllow(store: Store, req: TrinoOpaRequest) returns (allowed: bool, ghost calls: seq<Call>)
    ensures allowed == AllowDecision(store, req)
    ensures req.operation in AlwaysAllowOperations ==> allowed && calls == []
    ensures allowed ==> (req.operation in AlwaysAllowOperations ||
      PS.PlanOf(InternalRequest(req)).Allow? || exists i :: 0 <= i < |calls| && Positive(store, calls[i]))
  {
    if req.operation in AlwaysAllowOperations {
      return true, [];
    }
    var resource := TS.ExtractResourceFromTrino(req.resource);
    var internal := PS.CheckRequest(req.user, TS.AsRequestResource(resource), req.operation);
    allowed, calls := PS.CheckPermission(store, internal);
  }

  /**
   * Against a store that raises on every query, only the always-allowed
   * operations and the information_schema bypass are allowed.
   */
  lemma AllowFailClosed(store: Store, req: TrinoOpaRequest)
    requires Failing(store)
    ensures AllowDecision(store, req) <==>
      req.operation in AlwaysAllowOperations || PS.PlanOf(InternalRequest(req)) == PS.Allow
  {
    PS.FailClosed(store, InternalRequest(req));
  }

  // ---------------------------------------------------------------------------
  // Batch filter
  // ---------------------------------------------------------------------------

  /** A batch request: the identity's user, the batch operation and its items. */
  datatype TrinoBatchRequest = TrinoBatchRequest(
    user: string, operation: string, filterResources: seq<TS.TrinoBatchItem>)

  /** The request body: unreadable, not a valid batch request, or a batch request. */
  datatype BatchBody = Unreadable | Invalid | Parsed(request: TrinoBatchRequest)

  /** Whether the permission check allows one item under the mapped operation. */
  predicate ItemAllowed(store: Store, req: TrinoBatchRequest, item: TS.TrinoBatchItem)
  {
    PS.Decide(store, PS.CheckRequest(
      req.user, TS.AsRequestResource(TS.Flattened(Some(TS.AsResource(item)))),
      MapFilterOperation(req.operation)))
  }

  /** The positions of the set flags, in increasing order. */
  function Positions(flags: seq<bool>): (r: seq<int>)
    ensures forall k :: 0 <= k < |r| ==> 0 <= r[k] < |flags|
    ensures forall k, l :: 0 <= k < l < |r| ==> r[k] < r[l]
    ensures forall i :: 0 <= i < |flags| ==> (flags[i] <==> i in r)
  {
    if |flags| == 0 then []
    else
      var n := |flags| - 1;
      Positions(flags[..n]) + if flags[n] then [n] else []
  }

  /** A set flag appended at position `|xs|` adds that position. */
  lemma PositionsAppend(xs: seq<bool>, b: bool)
    ensures Positions(xs + [b]) == Positions(xs) + if b then [|xs|] else []
  {
    assert (xs + [b])[..|xs|] == xs;
  }

  /** The flags `f` gives the elements of `xs`, in order. */
  function Flags<T>(f: T -> bool, xs: seq<T>): (r: seq<bool>)
    ensures |r| == |xs|
  {
    if |xs| == 0 then [] else Flags(f, xs[..|xs| - 1]) + [f(xs[|xs| - 1])]
  }

  /** Flag `i` is `f` of element `i`. */
  lemma {:induction false} FlagAt<T>(f: T -> bool, xs: seq<T>, i: nat)
    requires i < |xs|
    ensures Flags(f, xs)[i] == f(xs[i])
  {
    var n := |xs| - 1;
    if i < n {
      FlagAt(f, xs[..n], i);
      assert Flags(f, xs)[i] == Flags(f, xs[..n])[i];
    }
  }

  /** The flags of one more element. */
  lemma FlagsPrefix<T>(f: T -> bool, xs: seq<T>, i: nat)
    requires i < |xs|
    ensures Flags(f, xs[..i + 1]) == Flags(f, xs[..i]) + [f(xs[i])]
  {
    assert xs[..i + 1][..i] == xs[..i];
  }

  /** The verdict on each item of a batch. */
  function Verdict(store: Store, req: TrinoBatchRequest): TS.TrinoBatchItem -> bool
  {
    item => ItemAllowed(store, req, item)
  }

  /**
   * The answer to a batch: nothing for a body that cannot be read or
   * validated, otherwise the allowed indices in increasing order.
   */
  function BatchResult(store: Store, body: BatchBody): (r: seq<int>)
    ensures !body.Parsed? ==> r == []
    ensures body.Parsed? ==> forall k :: 0 <= k < |r| ==> 0 <= r[k] < |body.request.filterResources|
    ensures forall k, l :: 0 <= k < l < |r| ==> r[k] < r[l]
    ensures body.Parsed? ==> forall i :: 0 <= i < |body.request.filterResources| ==>
      (ItemAllowed(store, body.request, body.request.filterResources[i]) <==> i in r)
  {
    if body.Parsed? then
      var flags := Flags(Verdict(store, body.request), body.request.filterResources);
      forall i | 0 <= i < |flags|
        ensures flags[i] == ItemAllowed(store, body.request, body.request.filterResources[i])
      {
        FlagAt(Verdict(store, body.request), body.request.filterResources, i);
      }
      Positions(flags)
    else []
  }

  /**
   * `trino_batch`: each item is flattened and checked under the batch
   * operation's counterpart, and its index kept when allowed. The
   * always-allowed set is not consulted.
   */
  method TrinoBatch(store: Store, body: BatchBody) returns (indices: seq<int>)
    ensures indices == BatchResult(store, body)
  {
    if !body.Parsed? {
      return [];
    }
    var req := body.request;
    ghost var verdict := Verdict(store, req);
    var items := req.filterResources;
    var individual := MapFilterOperation(req.operation);
    indices := [];
    var index := 0;
    while index < |items|
      invariant 0 <= index <= |items|
      invariant indices == Positions(Flags(verdict, items[..index]))
    {
      var resource := TS.ExtractResourceFromBatchItem(items[index]);
      var internal := PS.CheckRequest(req.user, TS.AsRequestResource(resource), individual);
      var allowed, _ := PS.CheckPermission(store, internal);
      assert allowed == verdict(items[index]);
      FlagsPrefix(verdict, items, index);
      PositionsAppend(Flags(verdict, items[..index]), allowed);
      if allowed {
        indices := indices + [index];
      }
      index := index + 1;
    }
    assert items[..index] == items;
  }


  /** No flag set, no position. */
  lemma {:induction false} NoPositions(flags: seq<bool>)
    requires forall i :: 0 <= i < |flags| ==> !flags[i]
    ensures Positions(flags) == []
  {
    if |flags| > 0 {
      NoPositions(flags[..|flags| - 1]);
    }
  }

  /**
   * `FilterViewQueryOwnedBy` filters out every item: its counterpart has no
   * relation, and the batch does not consult the always-allowed set,
   * although a single check of `ViewQueryOwnedBy` is always allowed.
   */
  lemma FilterViewQueryOwnedByDeniesAll(store: Store, body: BatchBody, single: TrinoOpaRequest)
    requires body.Parsed? && body.request.operation == "FilterViewQueryOwnedBy"
    requires single.operation == "ViewQueryOwnedBy"
    ensures BatchResult(store, body) == []
    ensures AllowDecision(store, single)
  {
    var req := body.request;
    FilterCounterparts();
    var flags := Flags(Verdict(store, req), req.filterResources);
    forall i | 0 <= i < |flags|
      ensures !flags[i]
    {
      FlagAt(Verdict(store, req), req.filterResources, i);
      PS.UnknownOperationDenied(PS.CheckRequest(
        req.user, TS.AsRequestResource(TS.Flattened(Some(TS.AsResource(req.filterResources[i])))),
        MapFilterOperation(req.operation)));
    }
    NoPositions(flags);
  }

  /** Against a store that raises on every query, a batch keeps only items the bypass allows. */
  lemma BatchFailClosed(store: Store, body: BatchBody, i: nat)
    requires Failing(store) && body.Parsed? && i < |body.request.filterResources|
    ensures i in BatchResult(store, body) <==>
      PS.PlanOf(PS.CheckRequest(body.request.user,
        TS.AsRequestResource(TS.Flattened(Some(TS.AsResource(body.request.filterResources[i])))),
        MapFilterOperation(body.request.operation))) == PS.Allow
  {
    var req := body.request;
    PS.FailClosed(store, PS.CheckRequest(req.user,
      TS.AsRequestResource(TS.Flattened(Some(TS.AsResource(req.filterResources[i])))),
      MapFilterOperation(req.operation)));
  }
}
