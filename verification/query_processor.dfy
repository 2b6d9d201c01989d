/** The query processor: the choice between the containment strategy and the
    static strategy, the assembly of one statement, the ORDER BY and LIMIT
    applied to it, and the choice between fetching it and explaining it. */
module QueryProcessor {
  import opened QueryModel
  import opened FragmentCache
  import opened FragmentPrep
  import opened UnionMerge

  /** A processor instance; `explain` is the flag its constructor stores. */
  datatype Processor = Processor(explain: bool)

  /** The limit requested by the query: the window of its TOP clause, absent
      when there is no TOP clause or when the clause has no window. */
  function WindowOf(q: ParsedQuery): (w: Option<int>)
    ensures w.Some? <==> q.topAttributes.Some? && q.topAttributes.value.window.Some?
    ensures w.Some? ==> w == q.topAttributes.value.window
  {
    if q.topAttributes.Some? then q.topAttributes.value.window else None
  }

  /** What a call that built no statement returns: the empty explain list in
      explain mode, null otherwise. */
  function EmptyAnswer(explain: bool): Answer
  {
    if explain then ExplainList([]) else Rows(None)
  }

  /** Adds freshly fetched rows to the accumulated result: a null accumulator
      is replaced by the fetched result (null or not), a non-null one is
      extended by the fetched rows. A non-null accumulator with a null fetch
      fails in `fetchResultSet`, so callers must not ask for it. */
  function FetchResultSet(acc: Option<seq<Row>>, fetched: Option<seq<Row>>): (r: Option<seq<Row>>)
    requires acc.Some? ==> fetched.Some?
    ensures acc.None? ==> r == fetched
    ensures acc.Some? ==> r.Some? && |r.value| == |acc.value| + |fetched.value|
    ensures acc.Some? ==> r.value[..|acc.value|] == acc.value && r.value[|acc.value|..] == fetched.value
  {
    if acc.Some? then Some(acc.value + fetched.value) else fetched
  }

  /** Appends the explain entry of a statement to the list: its rendered SQL
      followed by the text of each bound parameter. */
  function BuildExplain(stmt: Statement, list: seq<seq<string>>, env: Env): (r: seq<seq<string>>)
    ensures |r| == |list| + 1
    ensures r[..|list|] == list
    ensures |r[|list|]| == 1 + |env.params(stmt)|
    ensures r[|list|][0] == env.render(stmt) && r[|list|][1..] == env.params(stmt)
  {
    var details := [env.render(stmt)] + env.params(stmt);
    list + [details]
  }

  /** A statement together with the builder calls that shaped it. */
  datatype Shaped = Shaped(stmt: Statement, log: seq<Op>)

  /** The ORDER BY step: applied to the whole combination when the order-by
      binder reports one. */
  function OrderStep(merged: Statement, env: Env): Shaped
  {
    if env.hasOrderBy then Shaped(merged.(orderBy := Some(env.orderByFields)), [OrderBy])
    else Shaped(merged, [])
  }

  /** The LIMIT step: applied to the whole combination when the query has a window. */
  function LimitStep(ordered: Statement, count: Option<int>): Shaped
  {
    if count.Some? then Shaped(ordered.(limit := count), [Limit(count.value)])
    else Shaped(ordered, [])
  }

  /** ORDER BY, then LIMIT, on the merged statement. */
  function Shape(merged: Statement, env: Env, count: Option<int>): (sh: Shaped)
    ensures sh.stmt.head == merged.head && sh.stmt.unions == merged.unions
    ensures sh.stmt.orderBy == if env.hasOrderBy then Some(env.orderByFields) else merged.orderBy
    ensures sh.stmt.limit == if count.Some? then count else merged.limit
    ensures forall i :: 0 <= i < |sh.log| ==> IsShapingOp(sh.log[i])
  {
    var ordered := OrderStep(merged, env);
    var limited := LimitStep(ordered.stmt, count);
    Shaped(limited.stmt, ordered.log + limited.log)
  }

  /** The last step of a run: its calls and the value returned. */
  datatype Output = Output(log: seq<Op>, answer: Answer)

  /** Fetching the combined statement into an empty accumulator, or
      explaining it into the empty explain list. */
  function Emit(stmt: Statement, explain: bool, env: Env): (out: Output)
    ensures |out.log| == 1 && (out.log[0] == Render <==> explain) && (out.log[0] == Fetch <==> !explain)
    ensures explain ==> out.answer == ExplainList([[env.render(stmt)] + env.params(stmt)])
    ensures !explain ==> out.answer == Rows(env.fetch(stmt))
  {
    if explain then Output([Render], ExplainList(BuildExplain(stmt, [], env)))
    else Output([Fetch], Rows(FetchResultSet(None, env.fetch(stmt))))
  }

  /** Fetching the static statement directly, or explaining it; fetching
      directly returns what fetching into an empty accumulator would. */
  function EmitStatic(stmt: Statement, explain: bool, env: Env): (out: Output)
    ensures out == Emit(stmt, explain, env)
  {
    if explain then Output([Render], ExplainList(BuildExplain(stmt, [], env)))
    else Output([Fetch], Rows(env.fetch(stmt)))
  }

  /** The single statement of the static strategy: the select bound with the
      query's IN-set expression, window and order attributes, with the from
      and join clauses of its composition attribute query. */
  function StaticStatement(q: ParsedQuery, env: Env): (stmt: Statement)
    ensures |AllBranches(stmt)| == 1
    ensures stmt.head.base.StaticBound? && stmt.head.base.window == WindowOf(q)
    ensures stmt.orderBy == None && stmt.limit == None
    ensures stmt.head.clauses == [FromClause(env.staticCompositionQuery), JoinClause(env.staticCompositionQuery)]
  {
    var caq := env.staticCompositionQuery;
    Statement(
      Branch(StaticBound(q.inSetExpression, WindowOf(q), q.orderAttributes), [FromClause(caq), JoinClause(caq)]),
      [], None, None)
  }

  /** The enumeration of the cache keys is a valid merge order for the cache. */
  lemma OrderCoversCache(recs: seq<ContainmentRecord>, env: Env, order: seq<string>)
    requires |recs| > 0
    requires IsEnumeration(order, TemplateIds(recs))
    ensures |order| > 0
    ensures forall i :: 0 <= i < |order| ==> order[i] in BuildCache(recs, env).cache
    ensures KeyedByTemplate(BuildCache(recs, env).cache)
  {
    CacheKeys(recs, env);
    assert recs[0].templateId in TemplateIds(recs);
    CacheKeyedByTemplate(recs, env);
  }

  /** Every cache entry is stored under its own template id. */
  lemma {:induction false} CacheKeyedByTemplate(recs: seq<ContainmentRecord>, env: Env)
    ensures KeyedByTemplate(BuildCache(recs, env).cache)
    decreases |recs|
  {
    if |recs| > 0 {
      CacheKeyedByTemplate(recs[..|recs| - 1], env);
    }
  }

  /** The merged, shaped statement of a non-empty containment set: the
      statement `Execute` builds on that path, as `ContainmentStatementBuilt`
      proves, named so that properties of the statement can be stated apart
      from the run. */
  function ContainmentStatement(q: ParsedQuery, env: Env, order: seq<string>): Statement
    requires |env.containmentRecords| > 0
    requires IsEnumeration(order, TemplateIds(env.containmentRecords))
  {
    var phase := BuildCache(env.containmentRecords, env);
    OrderCoversCache(env.containmentRecords, env, order);
    Shape(MergeStatement(phase.cache, order), env, WindowOf(q)).stmt
  }

  /** One call of the three-argument `execute`. `order` is the order in which
      the cache's hash map hands out its values; it is any enumeration of the
      distinct template ids. */
  function Execute(q: ParsedQuery, env: Env, order: seq<string>, explain: bool): (run: Run)
    requires q.hasContainsExpression ==> IsEnumeration(order, TemplateIds(env.containmentRecords))
    ensures run.answer.ExplainList? <==> explain
    ensures |run.statements| <= 1
  {
    var count := WindowOf(q);
    if q.hasContainsExpression then
      var recs := env.containmentRecords;
      if |recs| == 0 then Run([Resolve], [], EmptyAnswer(explain))
      else
        var phase := BuildCache(recs, env);
        OrderCoversCache(recs, env, order);
        var shaped := Shape(MergeStatement(phase.cache, order), env, count);
        var out := Emit(shaped.stmt, explain, env);
        Run([Resolve] + phase.log + MergeLog(phase.cache, order) + shaped.log + out.log, [shaped.stmt], out.answer)
    else
      var stmt := StaticStatement(q, env);
      var out := EmitStatic(stmt, explain, env);
      Run([StaticBind(count), StaticFrom, StaticJoin] + out.log, [stmt], out.answer)
  }

  /** The two-argument `execute`: the three-argument one in fetch mode,
      whatever flag the processor was constructed with. */
  function ExecuteDefault(p: Processor, q: ParsedQuery, env: Env, order: seq<string>): (run: Run)
    requires q.hasContainsExpression ==> IsEnumeration(order, TemplateIds(env.containmentRecords))
    ensures run.answer.Rows?
  {
    Execute(q, env, order, false)
  }
}
