# AQL query processor — a Dafny model

This project models the query processor of the Ethercis AQL engine
(`QueryProcessor.java`). The processor turns a parsed AQL query into at
most one relational statement and either fetches that statement or explains
it. It has two strategies:

- **Containment strategy.** This applies when the query has a CONTAINS
  clause. The containment set is resolved to records. Records are folded
  into a per-template cache: the first record of each template id binds a
  select, and later records of that template are skipped. If the set
  resolves to no record, no statement is built. Nothing is fetched or
  rendered, and the call returns the empty explain list in explain mode and
  null otherwise.
- **Static strategy.** This applies otherwise. One select is bound with the
  query's IN-set expression, window and order attributes, then given a from
  clause and a join clause.

In the containment strategy, the cached fragments are then merged in the
cache's hash-map iteration order. Each fragment gets:

- a template-id equality condition;
- a residual condition, when its binder produced one;
- the ENTRY source;
- a join.

The first fragment seeds the combination and every other fragment is
unioned into it. Two steps may then be applied to the whole combination:

- ORDER BY, when the order-by binder reports one;
- LIMIT, when the TOP clause has a window.

Whenever a statement was built, it is fetched, or rendered into the explain
list in explain mode.

The model is functional:

- **Collaborators as values.** The collaborators are the containment-set
  resolution, the select binder's residual condition and join descriptor,
  the order-by binder, statement execution, rendering and bound parameters.
  They are fields of an `Env` value; the functional ones are total functions.
- **Operation log.** Every builder call that contributes to the statement
  is recorded in a log (`Op`). `Count` and `CountFor` count the log by kind,
  and by kind and template.
- **Iteration order as a parameter.** The hash map's iteration order is a
  parameter `order`. It is constrained only to enumerate the distinct
  template ids (`IsEnumeration`). Every property is proved for every such
  enumeration. `OrderIndependentCounts`, `OrderIndependentBranches` and
  `OrderIndependentShaping` show which parts do not depend on the
  enumeration: the call counts, the set of branches, and the ORDER BY and
  LIMIT. The order of the branches does depend on it. The seed and the
  sequence of unions follow the enumeration, as `ContainmentBranchOrder`
  states. So the SQL rendered in explain mode can differ between
  enumerations, and so can the order of fetched rows when there is no
  ORDER BY.

Files:

| file | module | contents |
|---|---|---|
| `query_model.dfy` | `QueryModel` | records, query steps, statements, collaborators, operation log and its counting lemmas |
| `fragment_cache.dfy` | `FragmentCache` | the containment loop and the per-template cache |
| `fragment_prep.dfy` | `FragmentPrep` | preparing one cached fragment: its clauses and builder calls |
| `union_merge.dfy` | `UnionMerge` | merging the fragments along an enumeration of the cache |
| `query_processor.dfy` | `QueryProcessor` | `execute` (both overloads), `fetchResultSet`, `buildExplain`, shaping |
| `processor_properties.dfy` | `ProcessorProperties` | run-level properties against reference counts |

## Model

| member | source | states |
|---|---|---|
| FragmentCache.CacheKeys | aql-processor/src/main/java/com/ethercis/aql/sql/QueryProcessor.java:120-147 | after the containment loop the cache keys are exactly the distinct template ids of the records |
| FragmentCache.CacheFirstWins | aql-processor/src/main/java/com/ethercis/aql/sql/QueryProcessor.java:126-147 | the first record carrying a template id wins: its bound select (template, composition id, label, entry root), residual condition and join descriptor are what the cache holds, whatever records of that template follow |
| FragmentCache.CacheBindsFirstRecords | aql-processor/src/main/java/com/ethercis/aql/sql/QueryProcessor.java:135-140 | every call the loop makes is a bind, and each binds a record that is the first of its template; records of a cached template are skipped |
| FragmentCache.CacheBindCounts | aql-processor/src/main/java/com/ethercis/aql/sql/QueryProcessor.java:135-146 | bind is called exactly once per distinct template id, never for a template no record carries, and once per cache entry |
| FragmentCache.CacheNonEmpty | aql-processor/src/main/java/com/ethercis/aql/sql/QueryProcessor.java:125-151 | a non-empty containment set yields a non-empty cache of at most as many entries as records, so the emptiness test on the cache never fails after a non-empty set |
| FragmentCache.BuildCache | aql-processor/src/main/java/com/ethercis/aql/sql/QueryProcessor.java:126-148 | the containment loop makes at most one call per record, and at least one for a non-empty set, because the first record always binds |
| FragmentPrep.Prepare | aql-processor/src/main/java/com/ethercis/aql/sql/QueryProcessor.java:160-167 | a prepared fragment keeps its bound select and has exactly three clauses, or four when the binder produced a residual condition: the equality on its own template id, then the AND-combined residual condition when there is one, then the ENTRY source, then the join on its composition attribute query |
| FragmentPrep.PrepareLogCount | aql-processor/src/main/java/com/ethercis/aql/sql/QueryProcessor.java:160-174 | preparing one fragment makes one template-equality, from and join call, a residual call exactly when the condition is non-null, a union exactly when it is not the seed, and nothing else |
| FragmentPrep.PrepareLogCountFor | aql-processor/src/main/java/com/ethercis/aql/sql/QueryProcessor.java:160-174 | all calls made while preparing a fragment are on its own template and on no other |
| FragmentPrep.PrepareLog | aql-processor/src/main/java/com/ethercis/aql/sql/QueryProcessor.java:161-174 | preparing a fragment makes at least three calls, starting with the equality on its own template id, and unions it exactly when it is not the seed |
| FragmentPrep.PrepareLogFollowsClauses | aql-processor/src/main/java/com/ethercis/aql/sql/QueryProcessor.java:161-174 | the calls made while preparing a fragment add its clauses one by one in the order of the prepared clause list (template equality, the residual condition when non-null, ENTRY, join), followed by the union exactly when it is not the seed |
| UnionMerge.EnumerationSize | aql-processor/src/main/java/com/ethercis/aql/sql/QueryProcessor.java:154 | an enumeration of the cache visits exactly as many fragments as there are keys |
| UnionMerge.MergeStatement | aql-processor/src/main/java/com/ethercis/aql/sql/QueryProcessor.java:151-175 | the combination is seeded with the prepared first enumerated fragment and has one union per later fragment; it is not yet ordered or limited |
| UnionMerge.MergeLog | aql-processor/src/main/java/com/ethercis/aql/sql/QueryProcessor.java:151-175 | the merge begins with the seed's template-equality condition and makes at least four calls per fragment, one fewer for the seed |
| UnionMerge.MergeBranches | aql-processor/src/main/java/com/ethercis/aql/sql/QueryProcessor.java:151-175 | the combination holds one branch per enumerated fragment, the first as the seed and the others unioned in enumeration order, each the prepared fragment; it is not yet ordered or limited |
| UnionMerge.MergeLogOps | aql-processor/src/main/java/com/ethercis/aql/sql/QueryProcessor.java:154-175 | every call the merge makes is a per-fragment clause or union on an enumerated template, and none is a bind |
| UnionMerge.MergeCount | aql-processor/src/main/java/com/ethercis/aql/sql/QueryProcessor.java:154-175 | merging K fragments makes K template-equality, K from and K join calls and exactly K - 1 unions, and no call of any other kind |
| UnionMerge.MergeResidualCount | aql-processor/src/main/java/com/ethercis/aql/sql/QueryProcessor.java:163-165 | the merge adds one residual condition per enumerated fragment whose condition is non-null |
| UnionMerge.MergeEveryFragmentFor | aql-processor/src/main/java/com/ethercis/aql/sql/QueryProcessor.java:160-167 | each enumerated template receives exactly one template-equality, one from and one join call, and a template outside the enumeration receives none |
| UnionMerge.MergeResidualFor | aql-processor/src/main/java/com/ethercis/aql/sql/QueryProcessor.java:163-165 | a template's fragment receives the residual condition exactly once if its condition is non-null and never otherwise |
| UnionMerge.MergeUnionFor | aql-processor/src/main/java/com/ethercis/aql/sql/QueryProcessor.java:169-174 | every enumerated fragment but the first is unioned exactly once; the first seeds the combination and is never unioned |
| QueryProcessor.FetchResultSet | aql-processor/src/main/java/com/ethercis/aql/sql/QueryProcessor.java:222-230 | a null accumulator yields the fetched result, null or not; a non-null accumulator yields itself followed by the fetched rows |
| QueryProcessor.WindowOf | aql-processor/src/main/java/com/ethercis/aql/sql/QueryProcessor.java:110-113 | the limit is present exactly when there is a TOP clause and it has a window, and is then that window |
| QueryProcessor.BuildExplain | aql-processor/src/main/java/com/ethercis/aql/sql/QueryProcessor.java:232-242 | appends exactly one entry and leaves earlier entries unchanged; the entry is the rendered SQL followed by each bound parameter, so its length is one more than the parameter count |
| QueryProcessor.Shape | aql-processor/src/main/java/com/ethercis/aql/sql/QueryProcessor.java:180-184 | shaping keeps every branch, orders the combination by the order-by fields exactly when the binder reports an ORDER BY, limits it to the window exactly when there is one, and makes only ORDER BY and LIMIT calls |
| QueryProcessor.Emit | aql-processor/src/main/java/com/ethercis/aql/sql/QueryProcessor.java:185-188 | the combined statement is fetched exactly when not in explain mode and rendered exactly in explain mode, with one call; fetching into the empty accumulator returns the fetched rows unchanged, and explaining into the empty list gives one entry |
| QueryProcessor.StaticStatement | aql-processor/src/main/java/com/ethercis/aql/sql/QueryProcessor.java:202-206 | the static statement has a single branch whose bind receives the query's window, with only a from and a join clause, and no separate ORDER BY or LIMIT |
| QueryProcessor.EmitStatic | aql-processor/src/main/java/com/ethercis/aql/sql/QueryProcessor.java:207-210 | fetching the static statement directly gives the same calls and answer as fetching it into an empty accumulator |
| QueryProcessor.Execute | aql-processor/src/main/java/com/ethercis/aql/sql/QueryProcessor.java:106-216 | the value returned is the explain list exactly in explain mode, and at most one statement is built |
| QueryProcessor.ExecuteDefault | aql-processor/src/main/java/com/ethercis/aql/sql/QueryProcessor.java:102-104 | the two-argument overload returns rows (fetch mode) |
| ProcessorProperties.ContainmentRunCount | aql-processor/src/main/java/com/ethercis/aql/sql/QueryProcessor.java:118-189 | a containment run over a non-empty set resolves the set once, binds once per distinct template, makes one template-equality, from and join call per template, one residual call per template with a residual condition, one union fewer than there are templates, one ORDER BY iff the binder reports one, one LIMIT iff the window is non-null, and one fetch or (in explain mode) one render |
| ProcessorProperties.ContainmentRunCountFor | aql-processor/src/main/java/com/ethercis/aql/sql/QueryProcessor.java:126-175 | per template: one bind, template-equality, from and join for each template of the set, a residual condition only when its binder produced one, a union for every template but the seed, and nothing for a template outside the set |
| ProcessorProperties.ContainmentOrdering | aql-processor/src/main/java/com/ethercis/aql/sql/QueryProcessor.java:154-188 | every bind, per-fragment clause and union comes before every ORDER BY or LIMIT, and the run ends with its fetch or render |
| ProcessorProperties.ContainmentPhaseOrder | aql-processor/src/main/java/com/ethercis/aql/sql/QueryProcessor.java:124-175 | a containment run first resolves the set, and every call before a bind is the resolution or another bind, so the containment loop ends before the merge starts |
| ProcessorProperties.EmptyContainmentRun | aql-processor/src/main/java/com/ethercis/aql/sql/QueryProcessor.java:195-200 | a containment set resolving to no record leads to no bind, clause, union, shaping, fetch or render, and the call returns the empty explain list in explain mode and null otherwise |
| ProcessorProperties.StaticRun | aql-processor/src/main/java/com/ethercis/aql/sql/QueryProcessor.java:202-206 | without a containment clause one statement is built: the select bound with the IN-set expression, the window and the order attributes, with one from and one join clause, no union and no separate ORDER BY or LIMIT |
| ProcessorProperties.StaticRunCount | aql-processor/src/main/java/com/ethercis/aql/sql/QueryProcessor.java:202-211 | without a containment clause the run makes exactly one bind, one from, one join and one fetch or render, and nothing else: no resolution, no cache bind, no union, no ORDER BY, no LIMIT |
| ProcessorProperties.FetchOrRender | aql-processor/src/main/java/com/ethercis/aql/sql/QueryProcessor.java:185-215 | every run fetches or renders each statement it builds exactly once and never both, renders exactly in explain mode, and builds no statement exactly when the containment set is empty |
| ProcessorProperties.RunAnswer | aql-processor/src/main/java/com/ethercis/aql/sql/QueryProcessor.java:185-215 | the answer is the explain list with one entry (rendered SQL and parameters) in explain mode, the fetched rows otherwise, and the empty list or null when nothing was built |
| ProcessorProperties.ContainmentBranchOrder | aql-processor/src/main/java/com/ethercis/aql/sql/QueryProcessor.java:154-175 | the statement has one branch per distinct template; the i-th branch is the prepared fragment of the i-th enumerated template and is restricted to that template |
| ProcessorProperties.ContainmentBranchSet | aql-processor/src/main/java/com/ethercis/aql/sql/QueryProcessor.java:154-174 | the statement's set of branches is the set of prepared cached fragments |
| ProcessorProperties.ContainmentShaping | aql-processor/src/main/java/com/ethercis/aql/sql/QueryProcessor.java:180-184 | the combination is ordered by the order-by fields iff the binder reports an ORDER BY and limited to the window iff the window is non-null |
| ProcessorProperties.OrderIndependentCounts | aql-processor/src/main/java/com/ethercis/aql/sql/QueryProcessor.java:154-188 | any two enumerations of the cache give runs with the same number of calls of every kind |
| ProcessorProperties.OrderIndependentBranches | aql-processor/src/main/java/com/ethercis/aql/sql/QueryProcessor.java:154-175 | any two enumerations of the cache give statements with the same set of branches |
| ProcessorProperties.OrderIndependentShaping | aql-processor/src/main/java/com/ethercis/aql/sql/QueryProcessor.java:180-184 | any two enumerations of the cache give statements with the same ORDER BY and LIMIT |
| ProcessorProperties.NothingToEnumerate | aql-processor/src/main/java/com/ethercis/aql/sql/QueryProcessor.java:195-211 | runs that build no cache (static, or empty containment set) do not depend on the enumeration at all |
| ProcessorProperties.DefaultAlwaysFetches | aql-processor/src/main/java/com/ethercis/aql/sql/QueryProcessor.java:97-104 | the two-argument overload never renders, fetches each statement it builds once, and gives the same run whatever explain flag the processor was constructed with |
| ProcessorProperties.FetchAccumulates | aql-processor/src/main/java/com/ethercis/aql/sql/QueryProcessor.java:222-230 | accumulating two fetched results one after the other equals accumulating their concatenation |

## Left out

- The `OptimizationMode.NONE` branch (QueryProcessor.java:155-159) is left out. The mode is fixed to `TEMPLATE_BATCH` at line 119, so the branch is dead code.
- `SQLException` propagation is left out. A failing fetch or containment query aborts the call, and the model has no error path for it.
- `perform` (lines 218-220) is a pass-through to the statement's fetch, and `execute` never calls it.
- Logging, the `DSLContext` and the rendering settings are left out. Rendering and the bound parameters are uninterpreted functions of the statement.
- Resolving the containment set, the select binder, and the from, join and order-by binders are database-side or builder code that is not part of this model. They are represented only by the values they hand back: records, residual conditions, join descriptors, the ORDER BY decision and fields, and the static composition attribute query.
- BuildExplain: bound parameters are modelled as their text. A parameter whose value is null makes `toString()` fail at line 238, and that failure is not modelled.
- The empty select created by `context.selectQuery()` at line 152 is not recorded in the log. It is replaced by the first prepared fragment at line 170 before any call is made on it, and a non-empty containment set always yields at least one fragment (`CacheNonEmpty`).
- The construction of a `SelectBinder` for every record (line 132), including records of an already cached template, is left out. Its effects on the binder are not visible.
- Reading the record fields (lines 127-130) is left out. Records arrive already decoded. A null label would fail at `toString()`, and that failure is not modelled.
- The union is modelled as adding a branch to the combination. `execute` discards the value returned by `union` at line 174, and whether the builder call changes the combination in place depends on the jOOQ version, which is not part of this model.
- Rows are opaque values. Their column types and record structure are not modelled.
- FetchResultSet: requires a non-null fetch when the accumulator is non-null. `fetchResultSet` would fail in `addAll` there. `execute` only ever calls it with a null accumulator.
- The limit is added when the TOP clause's window is non-null (line 183). That is narrower than the TOP clause merely being present.
- `validation/src/main/java/com/ethercis/validation/wrappers/CMultipleAttribute.java` is not part of this model. Its behaviour lives in code that is not available.
