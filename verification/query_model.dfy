/** Data model of the AQL query execution engine: the parsed query as the
    engine sees it, the rows of a resolved containment set, the cached
    per-template query steps, the relational statement the engine assembles,
    the collaborators it calls, and the operation log that records every
    builder call the engine makes. */
module QueryModel {

  datatype Option<+T> = None | Some(value: T)

  /** One row of the resolved containment set: the composition it belongs to,
      the template of that composition, the containment label and the path
      at which the matching sub-structure starts. */
  datatype ContainmentRecord = ContainmentRecord(
    compId: string,
    templateId: string,
    containmentLabel: string,
    entryRoot: string)

  /** An opaque relational condition produced by the select binder. */
  datatype Cond = Cond(sql: string)

  /** An opaque join descriptor (the composition attribute query) produced by
      the select binder and consumed by the from and join binders. */
  datatype CompositionQuery = CompositionQuery(descriptor: string)

  type Field = string

  datatype Row = Row(cells: seq<string>)

  /** The TOP clause of the query; its window may itself be absent. */
  datatype TopAttributes = TopAttributes(window: Option<int>)

  /** The parts of a parsed query the engine reads directly. */
  datatype ParsedQuery = ParsedQuery(
    hasContainsExpression: bool,
    topAttributes: Option<TopAttributes>,
    inSetExpression: string,
    orderAttributes: seq<Field>)

  /** The select a binder returns, identified by the arguments it was bound with. */
  datatype Base =
    | TemplateBound(templateId: string, compId: string, containmentLabel: string, entryRoot: string)
    | StaticBound(inSet: string, window: Option<int>, orderAttributes: seq<Field>)

  /** A clause added to a select after binding. */
  datatype Clause =
    | TemplateEq(templateId: string)
    | AndCondition(cond: Cond)
    | FromEntry
    | FromClause(fromQuery: CompositionQuery)
    | JoinClause(joinQuery: CompositionQuery)

  /** One select of a statement together with the clauses added to it. */
  datatype Branch = Branch(base: Base, clauses: seq<Clause>)

  /** A complete statement: the seed select, the selects unioned into it in
      order, and the ORDER BY and LIMIT applied to the whole combination. */
  datatype Statement = Statement(
    head: Branch,
    unions: seq<Branch>,
    orderBy: Option<seq<Field>>,
    limit: Option<int>)

  /** All selects of a statement, the seed first. */
  function AllBranches(s: Statement): (bs: seq<Branch>)
    ensures |bs| == 1 + |s.unions|
    ensures bs[0] == s.head && bs[1..] == s.unions
  {
    [s.head] + s.unions
  }

  /** A cache entry: the select bound for one template, the residual
      condition of its binder (possibly null), the template id and the join
      descriptor. */
  datatype QuerySteps = QuerySteps(
    selectQuery: Base,
    whereCondition: Option<Cond>,
    templateId: string,
    compositionAttributeQuery: CompositionQuery)

  /** The collaborators of one execution, as uninterpreted values and functions.
      `containmentRecords` is what the containment set resolves to for this call;
      `whereConditions` and `compositionQuery` are what the select binder yields
      after binding a record; `fetch`, `render` and `params` stand for executing
      a statement, rendering it formatted and listing its bound parameters. */
  datatype Env = Env(
    containmentRecords: seq<ContainmentRecord>,
    whereConditions: ContainmentRecord -> Option<Cond>,
    compositionQuery: ContainmentRecord -> CompositionQuery,
    staticCompositionQuery: CompositionQuery,
    hasOrderBy: bool,
    orderByFields: seq<Field>,
    fetch: Statement -> Option<seq<Row>>,
    render: Statement -> string,
    params: Statement -> seq<string>)

  /** One call the engine makes on a collaborator or on a query builder. */
  datatype Op =
    | Resolve
    | Bind(rec: ContainmentRecord)
    | AddTemplateEq(templateId: string)
    | AddResidual(templateId: string)
    | AddFrom(templateId: string)
    | AddJoin(templateId: string)
    | Union(templateId: string)
    | OrderBy
    | Limit(n: int)
    | StaticBind(window: Option<int>)
    | StaticFrom
    | StaticJoin
    | Fetch
    | Render

  datatype Kind =
    | KResolve | KBind | KTemplateEq | KResidual | KFrom | KJoin | KUnion
    | KOrderBy | KLimit | KStaticBind | KStaticFrom | KStaticJoin | KFetch | KRender

  function KindOf(op: Op): Kind
  {
    match op
    case Resolve => KResolve
    case Bind(_) => KBind
    case AddTemplateEq(_) => KTemplateEq
    case AddResidual(_) => KResidual
    case AddFrom(_) => KFrom
    case AddJoin(_) => KJoin
    case Union(_) => KUnion
    case OrderBy => KOrderBy
    case Limit(_) => KLimit
    case StaticBind(_) => KStaticBind
    case StaticFrom => KStaticFrom
    case StaticJoin => KStaticJoin
    case Fetch => KFetch
    case Render => KRender
  }

  /** The template an operation works on, if it works on one. */
  function TagOf(op: Op): Option<string>
  {
    match op
    case Bind(r) => Some(r.templateId)
    case AddTemplateEq(t) => Some(t)
    case AddResidual(t) => Some(t)
    case AddFrom(t) => Some(t)
    case AddJoin(t) => Some(t)
    case Union(t) => Some(t)
    case _ => None
  }

  /** Operations that build or merge one per-template fragment. */
  predicate IsFragmentOp(op: Op)
  {
    op.Bind? || op.AddTemplateEq? || op.AddResidual? || op.AddFrom? || op.AddJoin? || op.Union?
  }

  /** Operations that shape the merged statement as a whole. */
  predicate IsShapingOp(op: Op)
  {
    op.OrderBy? || op.Limit?
  }

  /** Number of operations of kind `k` in the log. */
  function Count(log: seq<Op>, k: Kind): nat
  {
    if |log| == 0 then 0
    else Count(log[..|log| - 1], k) + Ind(KindOf(log[|log| - 1]) == k)
  }

  /** Number of operations of kind `k` on template `t` in the log. */
  function CountFor(log: seq<Op>, k: Kind, t: string): nat
  {
    if |log| == 0 then 0
    else
      var op := log[|log| - 1];
      CountFor(log[..|log| - 1], k, t) + Ind(OnTemplate(op, k, t))
  }

  function Ind(b: bool): nat
  {
    if b then 1 else 0
  }

  /** Counts of short logs, operation by operation. */
  lemma Count1(a: Op, k: Kind)
    ensures Count([a], k) == Ind(KindOf(a) == k)
  {
    assert [a][..0] == [];
  }

  lemma Count2(a: Op, b: Op, k: Kind)
    ensures Count([a, b], k) == Ind(KindOf(a) == k) + Ind(KindOf(b) == k)
  {
    assert [a, b][..1] == [a];
    Count1(a, k);
  }

  lemma Count3(a: Op, b: Op, c: Op, k: Kind)
    ensures Count([a, b, c], k) == Ind(KindOf(a) == k) + Ind(KindOf(b) == k) + Ind(KindOf(c) == k)
  {
    assert [a, b, c][..2] == [a, b];
    Count2(a, b, k);
  }

  lemma Count4(a: Op, b: Op, c: Op, d: Op, k: Kind)
    ensures Count([a, b, c, d], k) ==
      Ind(KindOf(a) == k) + Ind(KindOf(b) == k) + Ind(KindOf(c) == k) + Ind(KindOf(d) == k)
  {
    assert [a, b, c, d][..3] == [a, b, c];
    Count3(a, b, c, k);
  }

  lemma Count5(a: Op, b: Op, c: Op, d: Op, e: Op, k: Kind)
    ensures Count([a, b, c, d, e], k) ==
      Ind(KindOf(a) == k) + Ind(KindOf(b) == k) + Ind(KindOf(c) == k) + Ind(KindOf(d) == k) + Ind(KindOf(e) == k)
  {
    assert [a, b, c, d, e][..4] == [a, b, c, d];
    Count4(a, b, c, d, k);
  }

  /** Whether `op` is of kind `k` and works on template `t`. */
  predicate OnTemplate(op: Op, k: Kind, t: string)
  {
    KindOf(op) == k && TagOf(op) == Some(t)
  }

  /** Per-template counts of short logs, operation by operation. */
  lemma CountFor1(a: Op, k: Kind, t: string)
    ensures CountFor([a], k, t) == Ind(OnTemplate(a, k, t))
  {
    assert [a][..0] == [];
  }

  lemma CountFor2(a: Op, b: Op, k: Kind, t: string)
    ensures CountFor([a, b], k, t) == Ind(OnTemplate(a, k, t)) + Ind(OnTemplate(b, k, t))
  {
    assert [a, b][..1] == [a];
    CountFor1(a, k, t);
  }

  lemma CountFor3(a: Op, b: Op, c: Op, k: Kind, t: string)
    ensures CountFor([a, b, c], k, t) == Ind(OnTemplate(a, k, t)) + Ind(OnTemplate(b, k, t)) + Ind(OnTemplate(c, k, t))
  {
    assert [a, b, c][..2] == [a, b];
    CountFor2(a, b, k, t);
  }

  lemma CountFor4(a: Op, b: Op, c: Op, d: Op, k: Kind, t: string)
    ensures CountFor([a, b, c, d], k, t) ==
      Ind(OnTemplate(a, k, t)) + Ind(OnTemplate(b, k, t)) + Ind(OnTemplate(c, k, t)) + Ind(OnTemplate(d, k, t))
  {
    assert [a, b, c, d][..3] == [a, b, c];
    CountFor3(a, b, c, k, t);
  }

  lemma CountFor5(a: Op, b: Op, c: Op, d: Op, e: Op, k: Kind, t: string)
    ensures CountFor([a, b, c, d, e], k, t) ==
      Ind(OnTemplate(a, k, t)) + Ind(OnTemplate(b, k, t)) + Ind(OnTemplate(c, k, t)) + Ind(OnTemplate(d, k, t))
      + Ind(OnTemplate(e, k, t))
  {
    assert [a, b, c, d, e][..4] == [a, b, c, d];
    CountFor4(a, b, c, d, k, t);
  }

  /** Counting distributes over concatenation of logs. */
  lemma {:induction false} CountAppend(a: seq<Op>, b: seq<Op>, k: Kind)
    ensures Count(a + b, k) == Count(a, k) + Count(b, k)
    decreases |b|
  {
    if |b| == 0 {
      assert a + b == a;
    } else {
      var b' := b[..|b| - 1];
      assert (a + b)[..|a + b| - 1] == a + b';
      assert (a + b)[|a + b| - 1] == b[|b| - 1];
      CountAppend(a, b', k);
    }
  }

  /** Counting per template distributes over concatenation of logs. */
  lemma {:induction false} CountForAppend(a: seq<Op>, b: seq<Op>, k: Kind, t: string)
    ensures CountFor(a + b, k, t) == CountFor(a, k, t) + CountFor(b, k, t)
    decreases |b|
  {
    if |b| == 0 {
      assert a + b == a;
    } else {
      var b' := b[..|b| - 1];
      assert (a + b)[..|a + b| - 1] == a + b';
      assert (a + b)[|a + b| - 1] == b[|b| - 1];
      CountForAppend(a, b', k, t);
    }
  }

  /** A log without operations of kind `k` counts none of them. */
  lemma {:induction false} CountAbsent(log: seq<Op>, k: Kind)
    requires forall i :: 0 <= i < |log| ==> KindOf(log[i]) != k
    ensures Count(log, k) == 0
    ensures forall t :: CountFor(log, k, t) == 0
    decreases |log|
  {
    if |log| > 0 {
      CountAbsent(log[..|log| - 1], k);
    }
  }

  /** A log of operations that work on no template counts nothing per template. */
  lemma {:induction false} CountForUntagged(log: seq<Op>, k: Kind, t: string)
    requires forall i :: 0 <= i < |log| ==> TagOf(log[i]).None?
    ensures CountFor(log, k, t) == 0
    decreases |log|
  {
    if |log| > 0 {
      CountForUntagged(log[..|log| - 1], k, t);
    }
  }

  /** The outcome of one execution: the rows (possibly null) or the explain list. */
  datatype Answer =
    | Rows(rows: Option<seq<Row>>)
    | ExplainList(entries: seq<seq<string>>)

  /** One execution: the operations performed, the statements fetched or
      rendered, and the returned value. */
  datatype Run = Run(log: seq<Op>, statements: seq<Statement>, answer: Answer)
}
