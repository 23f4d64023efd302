# permission-api, modelled in Dafny

permission-api is the authorization service Trino consults through an
OPA-compatible interface. Each request names an operation (`SelectFromColumns`,
`ShowTables`, `CreateCatalog`, ...) and a resource (catalog, schema, table,
column, function, procedure). The service turns the resource into an OpenFGA
object id (`warehouse:c`, `namespace:c.s`, `lakekeeper_table:c.s.t`,
`column:c.s.t.col`, `project:p`) and maps the operation to a relation
(`select`, `describe`, `modify`, `create`, `manage_grants`, `mask`). It then
asks the OpenFGA relationship store, walking the hierarchy from table to
namespace to warehouse when the direct check fails. Next to the allow/deny
decision it builds:

- row-filter SQL predicates from conditional `viewer` tuples on
  `row_filter_policy` objects;
- column-mask entries from `mask` tuples;
- a listing of a Lakekeeper warehouse's namespaces and tables, with the
  permissions a user holds on each.

The model keeps one Dafny module per source file:

| module | models |
|---|---|
| `OperationMapper` | the operation→relation table and the user-id prefix rule |
| `TypeMapper` | the API↔OpenFGA type renaming and the object-id builders |
| `ResourceBuilder` | `build_resource_identifiers` and its FGA wrapper |
| `ObjectBuilder` | the legacy identifier builder, a module that cannot be imported as written (see "Left out") |
| `PermissionService` | the whole `check_permission` decision, plus grant and revoke |
| `RowFilterService` | policy-id parsing, value escaping, and the policy → filter → predicate pipeline |
| `ColumnMaskService` | grant and revoke of masks, the masked-column listing and the batch mask check |
| `LakekeeperService` | catalog-name normalisation, permission checks, the namespace and table cascade, and row-filter expressions |
| `TrinoOpaSchemas` | flattening a Trino resource into the internal dictionary |
| `TrinoOpaEndpoint` | the always-allow gate, the batch index loop and the filter-operation mapping |
| `RowFilterSchemas`, `ColumnMaskSchemas` | the request validators |

`Wrappers`, `Strings` and `RelationshipStore` are support modules.

- `Wrappers` holds `Option`, `Result` and Python truthiness of optional
  strings.
- `Strings` holds Python's `split`, `replace`, `join` and
  `replace(..., 1)` on `seq<char>`.
- `RelationshipStore` holds the store itself.

The store is a value with three query functions: `check`, `listObjects` and
`readTuples`. Each answers `Ok(v)` or `Raised`. Every operation that consults
the store takes it as a parameter, so a decision is a function of the request
and of the store's answers.

- Imperative source code is modelled as methods with loops. Each method is
  proved equal to a specification function. Examples: the relation loops of
  `check_permission`, the append loops of the row-filter, column-mask and
  batch code, the key-by-key assignments of the flattening functions, and the
  nested listing loops.
- The properties are proved about those specification functions. They cover:
  - denying unknown operations and unbuildable resources;
  - the CreateCatalog redirect;
  - the information_schema bypass;
  - the column→table redirect;
  - the three widening rules;
  - the table→namespace→warehouse fallback;
  - fail-closed behaviour on a store that always raises;
  - monotonicity: more grants never turn an allow into a deny;
  - index bounds and ordering of the batch answers.
- Peculiarities of the source are proved as witness lemmas. Examples:
  - `-\n-` escapes to `--`;
  - truncation can leave a lone quote;
  - dotted policy ids lose their catalog prefix;
  - coverage is compared only by count;
  - `GetColumnMask` never reaches the bypass;
  - the bypass ignores `schema_name`;
  - a dotted catalog name redirects a column check to the wrong table;
  - the enumerator never lists row filters.

Where the description of the system and the code differ, the model follows
the code:

- a user who sees fewer row filters than a table has policies gets `1=0`;
- masking never consults the identity's groups.

## Model

| member | source | states |
|---|---|---|
| `Wrappers.Or` | app/utils/resource_builder.py:44-49 | `a or b` on optional strings: truthy iff either is; the first when it is truthy, the second otherwise |
| `Wrappers.Get` | app/utils/resource_builder.py:44-49 | `dict.get`: present iff the key is in the dictionary, with its value |
| `OperationMapper.MapOperationToRelation` | app/utils/operation_mapper.py:7-69 | an entry exactly for the listed operations; every relation is one of the six; `mask` exactly for MaskColumn; `create` exactly for CreateCatalog/Schema/Table/View |
| `OperationMapper.UnmappedOperations` | app/utils/operation_mapper.py:7-69 | GetColumnMask, GetRowFilters, ViewQueryOwnedBy and ExecuteFunction have no relation |
| `OperationMapper.SpecialOperationRelations` | app/utils/operation_mapper.py:13-41 | AccessCatalog and SelectFromColumns map to `select`; ShowSchemas, ShowTables and ShowColumns to `describe` |
| `OperationMapper.BuildUserIdentifier` | app/utils/operation_mapper.py:72-84 | an id with a colon is kept, any other gets `user:`; the result always holds a colon |
| `OperationMapper.BuildUserIdentifierIdempotent` | app/utils/operation_mapper.py:82-84 | prefixing twice is prefixing once |
| `OperationMapper.BuildUserIdentifierBareName` | app/utils/operation_mapper.py:82-84 | a colon-free id comes back after the `user:` prefix |
| `TypeMapper.ApiTypeToFgaType` | app/utils/type_mapper.py:55-88 | catalog→warehouse, schema→namespace, table→lakekeeper_table, every other type unchanged; no colon is introduced |
| `TypeMapper.FgaTypeToApiType` | app/utils/type_mapper.py:64-101 | the reverse renaming; every other type unchanged |
| `TypeMapper.TypeRoundTrip` | app/utils/type_mapper.py:55-101 | API→FGA→API is the identity except on the three FGA-only names, and FGA→API→FGA is the identity except on the three renamed API names |
| `TypeMapper.SplitObjectId` | app/utils/type_mapper.py:129-131 | `split(":", 1)`: a colon-free type part and the rest, which concatenate back to the input |
| `TypeMapper.ApiObjectIdToFga` | app/utils/type_mapper.py:109-131 | colon-free (including empty) ids are unchanged; a colon is present after iff before |
| `TypeMapper.FgaObjectIdToApi` | app/utils/type_mapper.py:134-156 | the same for the reverse conversion |
| `TypeMapper.ApiObjectIdToFgaParts` | app/utils/type_mapper.py:126-156 | only the type before the first colon is renamed; the id part, later colons included, is kept |
| `TypeMapper.ParseObjectId` | app/utils/type_mapper.py:159-173 | `("", "")` for None, `("", s)` without a colon, otherwise a colon-free type and an id that rebuild `s` |
| `TypeMapper.ParseObjectIdOf` | app/utils/type_mapper.py:159-173 | `t:rest` with a colon-free `t` parses to `(t, rest)` |
| `TypeMapper.ObjectIdRoundTrip` | app/utils/type_mapper.py:109-156 | API→FGA→API gives the id back unless its type is an FGA-only name |
| `TypeMapper.ConvertResourceIdentifiersToFga` | app/utils/type_mapper.py:181-197 | the resource id is kept; type and object id are converted |
| `TypeMapper.ConvertResourceIdentifiersFromFga` | app/utils/type_mapper.py:200-216 | the resource id is kept; type and object id are converted back |
| `TypeMapper.ConvertKeepsWellFormed` | app/utils/type_mapper.py:181-216 | both conversions keep `object_id == type + ":" + resource_id` |
| `TypeMapper.ConvertRoundTrip` | app/utils/type_mapper.py:181-216 | converting to FGA and back gives the identifiers back |
| `TypeMapper.CatalogObjectIdParts` | app/utils/type_mapper.py:224-247 | warehouse and project ids parse to their type and the bare name |
| `TypeMapper.SchemaObjectIdParts` | app/utils/type_mapper.py:250-261 | a namespace id's id part is the warehouse's id part, `.`, the schema |
| `TypeMapper.TableObjectIdParts` | app/utils/type_mapper.py:264-280 | a table id's id part is the namespace's id part, `.`, the table |
| `TypeMapper.ColumnObjectIdParts` | app/utils/type_mapper.py:283-298 | a column id's id part is the table's id part, `.`, the column |
| `ResourceBuilder.DictField` | app/utils/resource_builder.py:43-49 | the `<x>_name` key when truthy, otherwise the `<x>` key |
| `ResourceBuilder.ExtractResourceFields` | app/utils/resource_builder.py:23-66 | a model is read field by field; a dictionary's schema is truthy iff `schema_name` or `schema` is |
| `ResourceBuilder.Scoped` | app/utils/resource_builder.py:116-231 | keeps type and resource id, and with a colon-free type has `object_id == type + ":" + resource_id` |
| `ResourceBuilder.Build` | app/utils/resource_builder.py:69-239 | every result is well formed with an API type, and a column, table, schema or catalog result names only ancestors that were all supplied |
| `ResourceBuilder.BuildResourceIdentifiers` | app/utils/resource_builder.py:69-239 | raises exactly when `raise_on_error` is set and building fails; otherwise None exactly on failure |
| `ResourceBuilder.BuildObjectIdFromResource` | app/utils/resource_builder.py:242-263 | an object id exactly when building succeeds, always with a colon |
| `ResourceBuilder.BuildFgaResourceIdentifiers` | app/utils/resource_builder.py:266-304 | fails and returns None exactly as the API builder does; renames only the type and keeps the resource id |
| `ResourceBuilder.ProjectWins` | app/utils/resource_builder.py:116-120 | a project gives `project:p` whatever else is set |
| `ResourceBuilder.RoleBeforeCreateRules` | app/utils/resource_builder.py:124-128 | without a project, a role gives `role:r` before any Create rule |
| `ResourceBuilder.CreateCatalogOnSystem` | app/utils/resource_builder.py:133-143 | CreateCatalog, or `create` with no catalog, schema or table, gives `catalog:system` |
| `ResourceBuilder.CreateSchemaOnCatalog` | app/utils/resource_builder.py:147-158 | CreateSchema gives `catalog:c`, or fails without a catalog |
| `ResourceBuilder.CreateTableOnSchema` | app/utils/resource_builder.py:163-174 | CreateTable gives `schema:c.s`, or fails without both catalog and schema |
| `ResourceBuilder.ColumnScope` | app/utils/resource_builder.py:181-192 | a column gives `column:c.s.t.col`, or fails without catalog, schema and table |
| `ResourceBuilder.ScopeSelection` | app/utils/resource_builder.py:197-231 | catalog only gives `catalog:c`; with schema and table `table:c.s.t`; with schema only `schema:c.s` |
| `ResourceBuilder.MissingAncestorsNotPromoted` | app/utils/resource_builder.py:204-239 | table and schema without catalog, schema without catalog, and table without schema all fail |
| `ResourceBuilder.DictKeysPreferSuffixed` | app/utils/resource_builder.py:43-49 | catalog, schema and table come from the `_name` key when truthy, else from the bare key |
| `ObjectBuilder.BuildObjectIdFromResource` | app/utils/object_builder.py:16-85 | CreateCatalog always gives `catalog:system`; every result holds a colon |
| `ObjectBuilder.LegacyAgreesWithBuilder` | app/utils/object_builder.py:43-85 | without role or project and for operations other than `create`, the legacy id is the unified builder's id with `schema:` spelled `namespace:` |
| `ObjectBuilder.LegacyCreateRules` | app/utils/object_builder.py:54-63 | CreateSchema needs a catalog; CreateTable needs catalog and schema and gives `namespace:c.s` |
| `ObjectBuilder.LegacyColumnNeedsAncestors` | app/utils/object_builder.py:66-69 | a column yields an id exactly when catalog, schema and table are present |
| `ObjectBuilder.LegacyDiffersOnCreateAndProject` | app/utils/object_builder.py:43-85 | unlike the unified builder, the legacy one has no `create` rule and ignores `project` |
| `PermissionService.AnyCheckGranted` | app/services/permission_service.py:208-222 | the relation loop equals the any-relation check; an allow rests on a check that answered true |
| `PermissionService.AnyStartsWith` | app/services/permission_service.py:248-257 | some listed object starts with the prefix, both directions |
| `PermissionService.AnyListedUnder` | app/services/permission_service.py:235-262 | the listing loop equals the any-listing function; an allow rests on a listing with an object under the prefix |
| `PermissionService.WidenCatalog` | app/services/permission_service.py:200-297 | AccessCatalog/ShowSchemas on a warehouse: describe, modify or create on it, or a listed namespace or table under `c.` |
| `PermissionService.WidenSchema` | app/services/permission_service.py:302-395 | ShowTables/ShowSchemas on a namespace: any of four relations on it, a listed table under `c.s.`, or any of four on the warehouse |
| `PermissionService.ResolveTarget` | app/services/permission_service.py:179-562 | the direct check is asked first; the answer equals the resolution function, and an allow rests on a positive answer |
| `PermissionService.ParentFallback` | app/services/permission_service.py:495-562 | the widening and parent checks after a failed direct check equal the fallback function |
| `PermissionService.CheckPermission` | app/services/permission_service.py:53-573 | the decision equals `Decide`; no query is made unless the plan queries; the first query is the planned one; an allow comes from the bypass or a positive answer |
| `PermissionService.UnknownOperationDenied` | app/services/permission_service.py:79-84 | an unmapped operation is denied without a query |
| `PermissionService.UnbuildableResourceDenied` | app/services/permission_service.py:88-108 | a resource the builder rejects is denied without a query |
| `PermissionService.GetColumnMaskDenied` | app/services/permission_service.py:79-84 | GetColumnMask is denied before the bypass set that lists it is reached |
| `PermissionService.CreateCatalogChecksProject` | app/services/permission_service.py:117-123 | CreateCatalog checks `create` on the system project, whatever catalog is named |
| `PermissionService.InformationSchemaBypass` | app/services/permission_service.py:133-149 | the four read operations on a buildable `information_schema` resource are allowed without a query |
| `PermissionService.AllowedOnlyByBypass` | app/services/permission_service.py:133-149 | the only query-free allow is the information_schema bypass |
| `PermissionService.SchemaNameKeyNotBypassed` | app/services/permission_service.py:132-134 | `schema_name: information_schema` is not bypassed, although the builder reads it as the schema |
| `PermissionService.ColumnRedirect` | app/services/permission_service.py:158-181 | with dot-free names, a column target is checked on `lakekeeper_table:c.s.t`, or on the column itself for `mask` |
| `PermissionService.ColumnOfDotFreeNames` | app/services/permission_service.py:166-177 | with dot-free names the split recovers catalog, schema and table |
| `PermissionService.ColumnPlan` | app/services/permission_service.py:158-181 | the plan for a column resource: query the column for `mask`, otherwise its table or deny |
| `PermissionService.DottedCatalogRedirectsToWrongTable` | app/services/permission_service.py:166-177 | a catalog `a.b` sends a column check to table `a.b.<schema>` |
| `PermissionService.ShowColumnsNoFallback` | app/services/permission_service.py:499-510 | ShowColumns is allowed exactly by the direct check |
| `PermissionService.TableFallback` | app/services/permission_service.py:511-542 | for every operation but ShowColumns, a table is allowed iff the relation holds on it, or on the namespace, or on the warehouse, each asked only after the previous answered |
| `PermissionService.TableFallbackReliable` | app/services/permission_service.py:511-542 | with non-raising checks and any operation but ShowColumns, a table is allowed iff the relation holds on table, namespace or warehouse |
| `PermissionService.NamespaceFallback` | app/services/permission_service.py:545-562 | for every operation but ShowColumns, ShowSchemas and ShowTables (AccessCatalog included), a namespace is allowed iff the relation holds on it or, after it answered, on the warehouse |
| `PermissionService.ShowTablesOnTableFallback` | app/services/permission_service.py:511-542 | ShowTables on a table, the check of every FilterTables batch item, is allowed iff `describe` holds on the table, or on the namespace, or on the warehouse, each asked only after the previous answered |
| `PermissionService.ShowTablesWidening` | app/services/permission_service.py:302-395 | once its direct `describe` check has answered, ShowTables on a namespace is allowed iff one of the three widening sources grants |
| `PermissionService.Monotonic` | app/services/permission_service.py:53-573 | a store with more grants never turns an allow into a deny |
| `PermissionService.ResolveMonotonic` | app/services/permission_service.py:179-562 | the same for the resolution after the plan |
| `PermissionService.AnyCheckMonotonic` | app/services/permission_service.py:208-222 | the same for a relation loop |
| `PermissionService.AnyListedMonotonic` | app/services/permission_service.py:235-262 | the same for a listing loop |
| `PermissionService.FailClosed` | app/services/permission_service.py:564-573 | against a store that always raises, only the bypass allows |
| `PermissionService.GrantPermission` | app/services/permission_service.py:575-645 | fails exactly when the builder does; otherwise writes the tuple on the FGA object id, with its condition, and answers in API terms |
| `PermissionService.RevokePermission` | app/services/permission_service.py:647-696 | fails exactly when the builder does; otherwise deletes the tuple on the FGA object id |
| `PermissionService.RevokeUndoesGrant` | app/services/permission_service.py:575-696 | revoke deletes the tuple grant writes, and the reported type and id parse back from it |
| `RowFilterService.ParseColumnFromPolicyId` | app/services/row_filter_service.py:13-32 | a column exactly when an underscore is left after deleting `_filter`; the column holds no underscore |
| `RowFilterService.NoUnderscoreNoColumn` | app/services/row_filter_service.py:29-32 | an id without an underscore yields no column |
| `RowFilterService.ParseColumnOfTwoParts` | app/services/row_filter_service.py:29-32 | `a_b` yields `b` |
| `RowFilterService.ParseColumnOfConvention` | app/services/row_filter_service.py:17-31 | `<table>_<column>_filter` yields the column |
| `RowFilterService.ParseColumnExample` | app/services/row_filter_service.py:19 | `customers_region_filter` yields `region` |
| `RowFilterService.ParseColumnOfDottedPolicyId` | app/services/row_filter_service.py:29-31 | `lakekeeper_bronze.finance.user.region` yields `bronze.finance.user.region` |
| `RowFilterService.EscapeSqlValue` | app/services/row_filter_service.py:35-49 | at most 100 characters, with no `;`, backslash, newline or carriage return |
| `RowFilterService.EscapeKeepsSplitCommentMarker` | app/services/row_filter_service.py:46-47 | `-\n-` escapes to `--` |
| `RowFilterService.EscapeCanLeaveLoneQuote` | app/services/row_filter_service.py:46-49 | 99 plain characters and a quote escape to themselves: the doubled quote is cut in half |
| `RowFilterService.PolicyIdsOf` | app/services/row_filter_service.py:79-89 | at most one policy id per tuple |
| `RowFilterService.GetTablePolicies` | app/services/row_filter_service.py:64-101 | the loop equals the policy ids of the table's `applies_to` tuples |
| `RowFilterService.PolicyIdsRecovered` | app/services/row_filter_service.py:79-94 | tuples on `row_filter_policy:<id>` give back exactly those ids, in order |
| `RowFilterService.OtherObjectsIgnored` | app/services/row_filter_service.py:82-89 | a keyless tuple or one on another object adds nothing |
| `RowFilterService.FilterOfTuple` | app/services/row_filter_service.py:133-202 | a filter it yields belongs to this policy and has an attribute, at least one value, and the non-empty column its id parses to |
| `RowFilterService.FiltersOfTuples` | app/services/row_filter_service.py:133-202 | at most one valid filter per tuple, each for this policy |
| `RowFilterService.PolicyFilters` | app/services/row_filter_service.py:118-209 | every filter of one policy is valid, as above, and belongs to it |
| `RowFilterService.UserPolicyFilters` | app/services/row_filter_service.py:103-211 | every filter is valid and belongs to one of the table's policies |
| `RowFilterService.PolicyFiltersFor` | app/services/row_filter_service.py:118-209 | the per-policy loop equals the policy's filters |
| `RowFilterService.GetUserPolicyFilters` | app/services/row_filter_service.py:103-211 | the outer loop equals the user's filters |
| `RowFilterService.NoFiltersWhenFailing` | app/services/row_filter_service.py:204-209 | a store that always raises yields no filters |
| `RowFilterService.UnparseablePolicyDropped` | app/services/row_filter_service.py:188-193 | a policy whose id names no column yields no filters |
| `RowFilterService.EscapedValues` | app/services/row_filter_service.py:261 | each value escaped, in order |
| `RowFilterService.Clauses` | app/services/row_filter_service.py:250-263 | at most one clause per filter |
| `RowFilterService.BuildRowFilterSql` | app/services/row_filter_service.py:213-286 | the method equals the row-filter function of the store, user and table |
| `RowFilterService.PredicateOf` | app/services/row_filter_service.py:234-278 | for a table with policies, the deny-all checks, clause loop and join equal the predicate function |
| `RowFilterService.NoPoliciesNoFilter` | app/services/row_filter_service.py:228-231 | a table without policies is not filtered |
| `RowFilterService.MissingFiltersDenyAll` | app/services/row_filter_service.py:234-247 | fewer filters than policies, including none, gives `1=0` |
| `RowFilterService.FailingStoreUnfiltered` | app/services/row_filter_service.py:74-101 | a store that always raises leaves the table unfiltered, because the policy read fails first |
| `RowFilterService.CoverageIsByCount` | app/services/row_filter_service.py:242-247 | only the number of policies matters, not which ones are covered |
| `RowFilterService.OnePolicyTwoFilters` | app/services/row_filter_service.py:133-202 | one policy can contribute two filters, so the count check can pass with a policy uncovered |
| `RowFilterService.WildcardsOnlyUnfiltered` | app/services/row_filter_service.py:252-270 | enough filters, all with `*`, give no predicate |
| `RowFilterService.NoClausesOfWildcards` | app/services/row_filter_service.py:252-258 | filters with `*` are skipped |
| `RowFilterService.ClauseChars` | app/services/row_filter_service.py:261-263 | a clause holds no `;`, backslash, newline or carriage return its column name does not |
| `RowFilterService.ClausesChars` | app/services/row_filter_service.py:250-263 | the same for every clause |
| `RowFilterService.PredicateSafe` | app/services/row_filter_service.py:250-273 | the same for the joined predicate |
| `RowFilterService.SingleFilterClause` | app/services/row_filter_service.py:273 | one policy with one non-wildcard filter gives that clause unjoined |
| `ColumnMaskService.MaskTarget` | app/services/column_mask_service.py:63-89 | no column is refused first; success exactly with catalog, schema, table and column and no project or role, giving the `column:c.s.t.col` identifiers |
| `ColumnMaskService.ProjectOrRoleNotAColumn` | app/services/column_mask_service.py:85-89 | a project or role with a column builds to a non-column type and is refused |
| `ColumnMaskService.GrantColumnMask` | app/services/column_mask_service.py:42-109 | succeeds exactly for a column resource, writing `(user, mask, column:c.s.t.col)` and reporting `c.s.t.col` |
| `ColumnMaskService.RevokeColumnMask` | app/services/column_mask_service.py:111-177 | the same validation, deleting that tuple |
| `ColumnMaskService.RevokeUndoesGrant` | app/services/column_mask_service.py:42-177 | grant and revoke fail alike; revoke deletes what grant writes and reports the same |
| `ColumnMaskService.GrantObjectIsColumnObject` | app/services/column_mask_service.py:72-97 | the written object is the FGA column object id |
| `ColumnMaskService.LastPart` | app/services/column_mask_service.py:226 | the text after the last dot holds no dot |
| `ColumnMaskService.MaskedColumnsOf` | app/services/column_mask_service.py:208-228 | at most one non-empty, dot-free name per tuple |
| `ColumnMaskService.GetMaskedColumnsForUser` | app/services/column_mask_service.py:179-245 | the loop equals the masked columns of the table |
| `ColumnMaskService.LastPartAfterDot` | app/services/column_mask_service.py:226 | `x.col` ends in `col` |
| `ColumnMaskService.MaskedColumnsRecovered` | app/services/column_mask_service.py:208-237 | mask tuples on the table's columns give those columns back, in order |
| `ColumnMaskService.OtherTablesIgnored` | app/services/column_mask_service.py:222 | a tuple outside the table's prefix adds nothing |
| `ColumnMaskService.MaskedIff` | app/services/column_mask_service.py:285-328 | a batch column is masked iff all four names are non-empty and the `mask` check on its object answers true |
| `ColumnMaskService.BlankColumnNotMasked` | app/services/column_mask_service.py:297-316 | without a column name the built type is never `column` |
| `ColumnMaskService.IndexEntries` | app/services/column_mask_service.py:282-346 | indices in range and increasing, each with `'*****'`, present exactly for the flagged columns |
| `ColumnMaskService.MaskFlags` | app/services/column_mask_service.py:285-328 | one flag per column: whether it is masked |
| `ColumnMaskService.BatchMasks` | app/services/column_mask_service.py:282-346 | indices in range and increasing, with `'*****'`, exactly for the masked columns |
| `ColumnMaskService.BatchCheckColumnMasks` | app/services/column_mask_service.py:247-387 | the loop equals the batch masks for the prefixed user, whatever the operation |
| `ColumnMaskService.NoEntriesWithoutFlags` | app/services/column_mask_service.py:328-346 | no masked column, no entry |
| `ColumnMaskService.FailingStoreMasksNothing` | app/services/column_mask_service.py:352-358 | a store that always raises masks nothing |
| `LakekeeperService.NormalizeCatalogName` | app/services/lakekeeper_service.py:93-99 | the catalog name is `lakekeeper_` plus the warehouse name; a prefixed input is the catalog name, any other the warehouse name |
| `LakekeeperService.NormalizeIdempotent` | app/services/lakekeeper_service.py:93-99 | normalising the catalog name again changes nothing |
| `LakekeeperService.Granted` | app/services/lakekeeper_service.py:358-374 | no longer than the requested list, and holding exactly the requested permissions the store grants |
| `LakekeeperService.GrantedAppend` | app/services/lakekeeper_service.py:360-368 | the granted list of a concatenation is the concatenation of the granted lists, so order is kept |
| `LakekeeperService.CheckPermissions` | app/services/lakekeeper_service.py:343-374 | the loop equals the granted list |
| `LakekeeperService.AsSet` | app/services/lakekeeper_service.py:160 | the set of a list's elements |
| `LakekeeperService.NoneIfEmpty` | app/services/lakekeeper_service.py:339-340 | `x if x else None` on lists |
| `LakekeeperService.RowFilterInfos` | app/services/lakekeeper_service.py:624-647 | at most one entry per filter |
| `LakekeeperService.ExpressionIsClauseOnAttribute` | app/services/lakekeeper_service.py:638-647 | the expression is the row-filter clause with the attribute name in place of the parsed column |
| `LakekeeperService.RowFilterInfosAreClauses` | app/services/lakekeeper_service.py:625-647 | when attribute and parsed column agree, the expressions are the row-filter clauses |
| `LakekeeperService.WildcardAddsNothing` | app/services/lakekeeper_service.py:630-635 | a `*` filter adds no entry |
| `LakekeeperService.BuildRowFilterInfos` | app/services/lakekeeper_service.py:624-652 | the loop equals the entries function |
| `LakekeeperService.FetchRowFilters` | app/services/lakekeeper_service.py:563-659 | always empty: either there is no policy, or the filter lookup is called with a keyword it does not accept and the error is swallowed |
| `LakekeeperService.TablesOf` | app/services/lakekeeper_service.py:234-302 | at most one entry per table |
| `LakekeeperService.NamespacesOf` | app/services/lakekeeper_service.py:173-324 | at most one entry and one error per namespace |
| `LakekeeperService.ListTables` | app/services/lakekeeper_service.py:219-302 | the table loop equals the tables function |
| `LakekeeperService.NamedFields` | app/services/lakekeeper_service.py:522-529 | no more names than fields |
| `LakekeeperService.ColumnInfos` | app/services/lakekeeper_service.py:521-548 | one column per named field, in order, with a non-empty name; `masked` holds exactly when the store's `mask` check on `column:c.n.t.col` answers true |
| `LakekeeperService.RaisedPersists` | app/services/lakekeeper_service.py:537-561 | a mask check that raises for one field makes the column loop raise, so the whole list is dropped |
| `LakekeeperService.FetchAndProcessColumns` | app/services/lakekeeper_service.py:483-561 | the column loop equals the columns function: the processed columns, or none when a mask check raises |
| `LakekeeperService.ListingMaskAgreesWithBatch` | app/services/lakekeeper_service.py:531-547 | for a non-empty catalog, namespace and table, a listed column's `masked` flag is the batch column-mask decision on that column |
| `LakekeeperService.ReliableStoreListsNamedFields` | app/services/lakekeeper_service.py:521-548 | with mask checks that never raise, the column loop does not fail |
| `LakekeeperService.NoColumnSurvivesFailure` | app/services/lakekeeper_service.py:537-561 | with a store that always raises, the column loop raises or has no named field |
| `LakekeeperService.FailingStoreListsNoColumns` | app/services/lakekeeper_service.py:556-561 | with a store that always raises, a listed table has no columns |
| `LakekeeperService.ListResourcesWithPermissions` | app/services/lakekeeper_service.py:61-341 | the nested loops equal the listing function |
| `LakekeeperService.MissingWarehouseReported` | app/services/lakekeeper_service.py:118-138 | no warehouse id gives no permissions, no namespaces and one error naming the input catalog |
| `LakekeeperService.WarehousePermissionsGranted` | app/services/lakekeeper_service.py:149-152 | the warehouse permissions are the granted ones of the four |
| `LakekeeperService.TablesCascade` | app/services/lakekeeper_service.py:250-295 | each listed table comes from a named entry in the listing and has the table permission set, without `create`, and no row filters |
| `LakekeeperService.NamelessTableSkipped` | app/services/lakekeeper_service.py:235-241 | a table without a name is skipped |
| `LakekeeperService.NamespacesCascade` | app/services/lakekeeper_service.py:175-324 | each namespace has its permission set, which includes the inherited ones, and the joined name of a non-empty entry; each error is a table-fetch failure naming `catalog.ns` |
| `LakekeeperService.TablesFailureRecorded` | app/services/lakekeeper_service.py:304-324 | a failed table fetch records one error and still lists the namespace, without tables |
| `LakekeeperService.EmptyNamespaceSkipped` | app/services/lakekeeper_service.py:175-179 | an empty namespace entry is skipped |
| `LakekeeperService.NoRowFiltersListed` | app/services/lakekeeper_service.py:281-295 | no listed table carries row filters or `create` |
| `LakekeeperService.NamespacesOfTables` | app/services/lakekeeper_service.py:258-295 | the same for the namespace loop |
| `RowFilterSchemas.ValidateTableRequired` | app/schemas/row_filter.py:69-96 | a missing table is refused first; accepted exactly with catalog, schema, table, attribute and a value, unchanged |
| `RowFilterSchemas.ErrorOrder` | app/schemas/row_filter.py:72-95 | which of the four errors is raised, in the source's order |
| `RowFilterSchemas.AcceptedGrantNamesTable` | app/schemas/row_filter.py:69-96 | an accepted grant without project, role or column builds to its table |
| `RowFilterSchemas.ValidateResource` | app/schemas/row_filter.py:158-176 | accepted exactly when each of catalog, schema and table is truthy under the `_name` key or its fallback, unchanged |
| `RowFilterSchemas.ListValidatorAgreesWithBuilder` | app/schemas/row_filter.py:158-176 | the validator reads the names as the identifier builder does |
| `ColumnMaskSchemas.ValidateColumnRequired` | app/schemas/column_mask.py:36-53 | a missing column is refused first; accepted exactly with all four names, unchanged |
| `ColumnMaskSchemas.AcceptedGrantHasMaskTarget` | app/schemas/column_mask.py:36-53 | an accepted grant without project or role is granted by the service |
| `ColumnMaskSchemas.AcceptedRoleGrantRefusedByService` | app/schemas/column_mask.py:36-53 | an accepted grant with a role is refused by the service |
| `ColumnMaskSchemas.ValidateResource` | app/schemas/column_mask.py:129-147 | accepted exactly when catalog, schema and table are truthy under the `_name` key or its fallback, unchanged |
| `ColumnMaskSchemas.ListValidatorAgreesWithBuilder` | app/schemas/column_mask.py:129-147 | the validator reads the names as the identifier builder does |
| `ColumnMaskSchemas.EmptySuffixedKeyFallsBack` | app/schemas/column_mask.py:132-142 | an empty `_name` value falls back to the bare key, and an empty name is refused |
| `TrinoOpaSchemas.Flattened` | app/schemas/trino_opa.py:247-248 | no resource gives the empty dictionary |
| `TrinoOpaSchemas.ExtractResourceFromTrino` | app/schemas/trino_opa.py:231-290 | the successive assignments equal the flattened dictionary |
| `TrinoOpaSchemas.ExtractResourceFromBatchItem` | app/schemas/trino_opa.py:293-347 | a batch item flattens as the resource with the same six fields |
| `TrinoOpaSchemas.AssignedIsFlattened` | app/schemas/trino_opa.py:250-290 | the block-by-block assignments give the flattened dictionary |
| `TrinoOpaSchemas.FlattenedDescribes` | app/schemas/trino_opa.py:252-288 | each key holds the value of the last present kind that sets it |
| `TrinoOpaSchemas.DescribesUnique` | app/schemas/trino_opa.py:252-288 | that key-by-key description determines the dictionary |
| `TrinoOpaSchemas.DescribedKeyByKey` | app/schemas/trino_opa.py:252-288 | a dictionary so described is the flattened one |
| `TrinoOpaSchemas.SystemInformationIgnored` | app/schemas/trino_opa.py:250-290 | the system-information part changes nothing |
| `TrinoOpaSchemas.ColumnsOnlyWithTable` | app/schemas/trino_opa.py:262-267 | `columns` is set exactly for a table with a non-empty column list, to that list |
| `TrinoOpaSchemas.FunctionKeys` | app/schemas/trino_opa.py:277-282 | a function always sets `function`, and sets the catalog only from a non-empty name |
| `TrinoOpaSchemas.ProcedureCatalogWins` | app/schemas/trino_opa.py:285-288 | a procedure's catalog and schema overwrite all others |
| `TrinoOpaSchemas.CatalogOnly` | app/schemas/trino_opa.py:253-254 | a catalog alone gives `{catalog: name}` |
| `TrinoOpaSchemas.AsRequestResource` | app/api/v1/endpoints/trino_opa.py:128-132 | only the seven result keys; every string entry is passed on under its key |
| `TrinoOpaSchemas.RequestResourceNames` | app/api/v1/endpoints/trino_opa.py:119-132 | the permission check receives the catalog, schema and table of the key-by-key description |
| `TrinoOpaEndpoint.MapFilterOperation` | app/api/v1/endpoints/trino_opa.py:320-334 | the five filter operations map to their counterparts; any other is unchanged |
| `TrinoOpaEndpoint.FilterCounterparts` | app/api/v1/endpoints/trino_opa.py:320-334 | each filter operation's counterpart, all of which have a relation except ViewQueryOwnedBy |
| `TrinoOpaEndpoint.TrinoAllow` | app/api/v1/endpoints/trino_opa.py:56-167 | always-allowed operations are allowed without a query; otherwise the permission check decides, and an allow rests on the bypass or a positive answer |
| `TrinoOpaEndpoint.AllowFailClosed` | app/api/v1/endpoints/trino_opa.py:105-167 | against a store that always raises, only the always-allow set and the bypass allow |
| `TrinoOpaEndpoint.Positions` | app/api/v1/endpoints/trino_opa.py:262-286 | indices in range and increasing, present exactly for the allowed items |
| `TrinoOpaEndpoint.BatchResult` | app/api/v1/endpoints/trino_opa.py:206-317 | empty for an unreadable or invalid body; otherwise increasing indices in range, present exactly for the items the permission decision allows under the mapped operation |
| `TrinoOpaEndpoint.TrinoBatch` | app/api/v1/endpoints/trino_opa.py:171-317 | the loop equals the batch answer |
| `TrinoOpaEndpoint.FilterViewQueryOwnedByDeniesAll` | app/api/v1/endpoints/trino_opa.py:260-278 | FilterViewQueryOwnedBy denies every item, while the single ViewQueryOwnedBy is allowed |
| `TrinoOpaEndpoint.BatchFailClosed` | app/api/v1/endpoints/trino_opa.py:262-286 | against a store that always raises, an item is allowed exactly when the information_schema bypass allows its mapped operation |

## Left out

- The OpenFGA and Lakekeeper clients are not modelled. The store is a value whose queries answer or raise. The real `check` maps store errors to `false`; the model also lets a check raise, the wider case, and handles it where the service's own `try` blocks do. The Lakekeeper client's warehouse, namespace and table lookups are functions of the `Lakekeeper` value.
- Async execution, logging and JSON dumps are left out. Each `await` is a sequential call, and nothing depends on interleaving.
- HTTP routing, status codes, start-up and configuration are left out — they are framework glue.
- The admin, health, row-filter and column-mask endpoints are not part of this model. They are HTTP front ends for the services modelled here.
- `build_user_identifier_with_type` is imported but not defined in app/services/permission_service.py:19 and app/services/column_mask_service.py:20. The grant and revoke models take the user string it would return as a field of the request.
- Store write failures in grant and revoke are not modelled. Those results describe the single tuple change to make; the write itself is the client's.
- PermissionService.CheckPermission: only the dictionary path of resource extraction is modelled, because the endpoint always passes a dictionary.
- TrinoOpaSchemas.AsRequestResource: it passes only string entries on. The `columns` list is not a string, and no step of the decision reads it.
- Store errors in `check_permission` are not caught where they occur: the direct check (app/services/permission_service.py:185-187) and the table, namespace and warehouse fallback checks (520-522, 534-536, 554-556) have no inner `try`. A store error there reaches the outer `except` (570-573), which denies. The model gives that path the same answer: a `Raised` reply from those checks is a deny.
- The outer `except` of `trino_allow`, `trino_batch`, `build_row_filter_sql` and `batch_check_column_masks` is not modelled. Every call that can raise inside them is caught by an inner handler, or is a model function that cannot fail, so no path reaches the outer handler.
- RowFilterService.PolicyFilters: condition contexts that are objects rather than dictionaries are not modelled. They are read back as the same pair of optional attribute name and values.
- `identity.groups` is carried in the request types but read by no decision, as in the source.
- `NO_RESOURCE_OPERATIONS` (app/api/v1/endpoints/trino_opa.py:48-52) is never used by the endpoint, so it is not modelled.
- The `targetResource` and `grantee` parts of Trino requests are not modelled, because no decision reads them.
- The keyword handling inside the store client's `read_tuples` is not modelled. The store's `readTuples` takes the three optional filters directly.
- The listing's permission lists are modelled as sets. The source builds them with `list(set(...))`, whose order Python does not fix.
- The table metadata fetch in `_fetch_and_process_columns` is the `fields` oracle of the `Lakekeeper` value, because it comes from the Lakekeeper client. The oracle gives the field names of the first schema. Missing metadata, schemas or fields, and a failed fetch, all come back as no fields. Each column's `masked` flag is not part of the oracle: it is the store's `mask` check on the column object.
- A namespace entry that is not a list (`str(namespace_parts)`) is not modelled. The client returns lists of parts.
- Error messages are modelled as an enumeration of their causes, not as text.
- The `user:` stripping in `_fetch_row_filters` only feeds the call that raises, so it is not modelled.
- Exceptions inside the table loop of the listing, other than the table fetch, are not modelled, because the model's permission checks and row-filter fetch cannot raise.
- ObjectBuilder: app/utils/object_builder.py:7-13 imports `OBJECT_TYPE_NAMESPACE`, which app/core/constants.py does not define. The module therefore raises ImportError on import, and no source file imports it. The model gives its function body, with the missing constant assumed to be `"namespace"` (`ObjectBuilder.NamespaceType`).
- Unreachable or broken code is not modelled:
  - the code after the return in app/services/row_filter_service.py:288-322;
  - the permission cache in app/services/lakekeeper_service.py:376-460, which uses names that are never defined;
  - the endpoint calls to service methods that do not exist.
