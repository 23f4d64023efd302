/**
 * The OpenFGA relationship store as the services see it: three queries,
 * each of which answers or raises. The store is a value passed to every
 * operation that consults it, so a decision is a function of the request
 * and of the store's answers.
 */
module RelationshipStore {
  import opened Wrappers

  /** An answer from the store, or an exception raised by the client. */
  datatype Reply<+T> = Ok(value: T) | Raised

  /** The context of a conditional tuple, as read back from the store. */
  datatype ConditionContext = ConditionContext(
    attributeName: Option<string>, allowedValues: Option<seq<string>>)

  /** A named condition; `context` is `None` for a missing or empty context. */
  datatype Condition = Condition(name: string, context: Option<ConditionContext>)

  /** The key of a stored tuple. */
  datatype TupleKey = TupleKey(
    user: string, relation: string, obj: string, condition: Option<Condition>)

  /** A tuple returned by a read; `key` is `None` when the item carries no key. */
  datatype TupleItem = TupleItem(key: Option<TupleKey>)

  /**
   * The three queries: `check(user, relation, object)`,
   * `listObjects(user, relation, objectType)` and
   * `readTuples(user, relation, object)` with optional filters.
   */
  datatype Store = Store(
    check: (string, string, string) -> Reply<bool>,
    listObjects: (string, string, string) -> Reply<seq<string>>,
    readTuples: (Option<string>, Option<string>, Option<string>) -> Reply<seq<TupleItem>>)

  /**
   * One query made by a decision, for the record a decision keeps of what
   * it asked. A listing records the prefix its results were matched against.
   */
  datatype Call =
    | CheckCall(user: string, relation: string, obj: string)
    | ListCall(user: string, relation: string, objectType: string, prefix: string)

  /** Some object of a successful listing starts with `prefix`. */
  predicate ListedUnder(r: Reply<seq<string>>, prefix: string)
  {
    r.Ok? && exists j :: 0 <= j < |r.value| && prefix <= r.value[j]
  }

  /** The store answered this query positively. */
  predicate Positive(store: Store, c: Call)
  {
    match c
    case CheckCall(u, r, o) => store.check(u, r, o) == Ok(true)
    case ListCall(u, r, t, prefix) => ListedUnder(store.listObjects(u, r, t), prefix)
  }

  /** A store that raises on every query. */
  ghost predicate Failing(store: Store)
  {
    (forall u, r, o :: store.check(u, r, o) == Raised) &&
    (forall u, r, t :: store.listObjects(u, r, t) == Raised) &&
    (forall u, r, o :: store.readTuples(u, r, o) == Raised)
  }

  /** A store whose checks never raise. */
  ghost predicate ReliableChecks(store: Store)
  {
    forall u, r, o :: store.check(u, r, o).Ok?
  }

  /**
   * `s2` holds at least the grants of `s1`: every check `s1` answers, `s2`
   * answers too, every `true` stays `true`, and every listing `s1` answers,
   * `s2` answers with at least the same objects.
   */
  ghost predicate MoreGrants(s1: Store, s2: Store)
  {
    (forall u, r, o :: s1.check(u, r, o).Ok? ==> s2.check(u, r, o).Ok?) &&
    (forall u, r, o :: s1.check(u, r, o) == Ok(true) ==> s2.check(u, r, o) == Ok(true)) &&
    (forall u, r, t :: s1.listObjects(u, r, t).Ok? ==> s2.listObjects(u, r, t).Ok?) &&
    (forall u, r, t, x :: s1.listObjects(u, r, t).Ok? && x in s1.listObjects(u, r, t).value ==>
                         x in s2.listObjects(u, r, t).value)
  }

  /** A listing that matches in `s1` still matches in a store with more grants. */
  lemma ListedUnderMonotonic(s1: Store, s2: Store, u: string, r: string, t: string, prefix: string)
    requires MoreGrants(s1, s2)
    requires ListedUnder(s1.listObjects(u, r, t), prefix)
    ensures ListedUnder(s2.listObjects(u, r, t), prefix)
  {
    var objs := s1.listObjects(u, r, t).value;
    var j :| 0 <= j < |objs| && prefix <= objs[j];
    assert objs[j] in objs;
    var objs2 := s2.listObjects(u, r, t).value;
    assert objs[j] in objs2;
    var k :| 0 <= k < |objs2| && objs2[k] == objs[j];
  }

  /** A grant, or a revocation, of one tuple. */
  datatype TupleChange =
    | Write(user: string, relation: string, obj: string, condition: Option<Condition>)
    | Delete(user: string, relation: string, obj: string)
}
