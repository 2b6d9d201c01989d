/** What one call of `execute` does, stated against reference counts that
    mention neither the builder internals nor the hash map's iteration order. */
module ProcessorProperties {
  import opened QueryModel
  import opened FragmentCache
  import opened FragmentPrep
  import opened UnionMerge
  import opened QueryProcessor

  // ---------------------------------------------------------------------
  // Reference counts
  // ---------------------------------------------------------------------

  /** The templates whose first record's binder produces a residual condition. */
  function ResidualTemplates(recs: seq<ContainmentRecord>, env: Env): set<string>
  {
    set i | 0 <= i < |recs| && FirstOccurrence(recs, i) && env.whereConditions(recs[i]).Some? :: recs[i].templateId
  }

  /** How many calls of kind `k` a containment run over a non-empty set makes:
      one resolution of the containment set, one bind, one template-equality
      condition, one ENTRY source and one join per distinct template, one
      residual condition per template whose binder produced one, one union
      fewer than there are templates, an ORDER BY when the query orders, a
      LIMIT when it has a window, and a fetch or a render. */
  function ExpectedCount(q: ParsedQuery, env: Env, explain: bool, k: Kind): int
  {
    var n := |TemplateIds(env.containmentRecords)|;
    match k
    case KResolve => 1
    case KBind => n
    case KTemplateEq => n
    case KFrom => n
    case KJoin => n
    case KResidual => |ResidualTemplates(env.containmentRecords, env)|
    case KUnion => n - 1
    case KOrderBy => Ind(env.hasOrderBy)
    case KLimit => Ind(WindowOf(q).Some?)
    case KFetch => Ind(!explain)
    case KRender => Ind(explain)
    case _ => 0
  }

  /** How many calls of kind `k` a containment run makes on template `t`:
      one bind, template-equality condition, ENTRY source and join for every
      template of the set, a residual condition for those whose binder produced
      one, and a union for every template but the one enumerated first. */
  function ExpectedCountFor(env: Env, seed: string, k: Kind, t: string): nat
  {
    var known := t in TemplateIds(env.containmentRecords);
    match k
    case KBind => Ind(known)
    case KTemplateEq => Ind(known)
    case KFrom => Ind(known)
    case KJoin => Ind(known)
    case KResidual => Ind(t in ResidualTemplates(env.containmentRecords, env))
    case KUnion => Ind(known && t != seed)
    case _ => 0
  }

  // ---------------------------------------------------------------------
  // Counting the pieces of a run
  // ---------------------------------------------------------------------

  lemma CountParts(a: seq<Op>, b: seq<Op>, c: seq<Op>, d: seq<Op>, e: seq<Op>, k: Kind)
    ensures Count(a + b + c + d + e, k) == Count(a, k) + Count(b, k) + Count(c, k) + Count(d, k) + Count(e, k)
  {
    CountAppend(a + b + c + d, e, k);
    CountAppend(a + b + c, d, k);
    CountAppend(a + b, c, k);
    CountAppend(a, b, k);
  }

  lemma CountForParts(a: seq<Op>, b: seq<Op>, c: seq<Op>, d: seq<Op>, e: seq<Op>, k: Kind, t: string)
    ensures CountFor(a + b + c + d + e, k, t) ==
      CountFor(a, k, t) + CountFor(b, k, t) + CountFor(c, k, t) + CountFor(d, k, t) + CountFor(e, k, t)
  {
    CountForAppend(a + b + c + d, e, k, t);
    CountForAppend(a + b + c, d, k, t);
    CountForAppend(a + b, c, k, t);
    CountForAppend(a, b, k, t);
  }

  /** The containment loop binds once per distinct template and does nothing else. */
  lemma CacheLogCount(recs: seq<ContainmentRecord>, env: Env, k: Kind)
    ensures Count(BuildCache(recs, env).log, k) == if k == KBind then |TemplateIds(recs)| else 0
  {
    CacheKeys(recs, env);
    if k == KBind {
      CacheBindCounts(recs, env);
    } else {
      CacheBindsFirstRecords(recs, env);
      CountAbsent(BuildCache(recs, env).log, k);
    }
  }

  lemma CacheLogCountFor(recs: seq<ContainmentRecord>, env: Env, k: Kind, t: string)
    ensures CountFor(BuildCache(recs, env).log, k, t) == if k == KBind && t in TemplateIds(recs) then 1 else 0
  {
    if k == KBind {
      CacheBindCounts(recs, env);
    } else {
      CacheBindsFirstRecords(recs, env);
      CountAbsent(BuildCache(recs, env).log, k);
    }
  }

  /** On an enumeration of the cache, the fragments with a residual condition
      are the residual templates, whatever the enumeration. */
  lemma WithResidualIsResidualTemplates(recs: seq<ContainmentRecord>, env: Env, order: seq<string>)
    requires IsEnumeration(order, TemplateIds(recs))
    ensures WithResidual(BuildCache(recs, env).cache, order) == ResidualTemplates(recs, env)
  {
    var cache := BuildCache(recs, env).cache;
    CacheKeys(recs, env);
    CacheFirstWins(recs, env);
    forall t | t in WithResidual(cache, order) ensures t in ResidualTemplates(recs, env) {
      FirstOccurrenceOf(recs, t);
      var i :| 0 <= i < |recs| && FirstOccurrence(recs, i) && recs[i].templateId == t;
      assert cache[t] == StepsFor(recs[i], env);
    }
    forall t | t in ResidualTemplates(recs, env) ensures t in WithResidual(cache, order) {
      var i :| 0 <= i < |recs| && FirstOccurrence(recs, i) && env.whereConditions(recs[i]).Some? && recs[i].templateId == t;
      assert t in TemplateIds(recs);
    }
  }

  /** The merge phase, counted by kind. */
  lemma MergeLogCount(cache: map<string, QuerySteps>, order: seq<string>, k: Kind)
    requires |order| > 0
    requires Distinct(order)
    requires forall i :: 0 <= i < |order| ==> order[i] in cache
    ensures Count(MergeLog(cache, order), k) ==
      if k == KResidual then |WithResidual(cache, order)| else MergeTotal(order, k)
  {
    if k == KResidual {
      MergeResidualCount(cache, order);
    } else {
      MergeCount(cache, order, k);
    }
  }

  /** The merge phase, counted by kind and template. */
  lemma MergeLogCountFor(cache: map<string, QuerySteps>, order: seq<string>, k: Kind, t: string)
    requires |order| > 0
    requires Distinct(order)
    requires forall i :: 0 <= i < |order| ==> order[i] in cache
    requires KeyedByTemplate(cache)
    ensures CountFor(MergeLog(cache, order), k, t) ==
      match k
      case KTemplateEq => Ind(t in order)
      case KFrom => Ind(t in order)
      case KJoin => Ind(t in order)
      case KResidual => Ind(t in WithResidual(cache, order))
      case KUnion => Ind(t in order[1..])
      case _ => 0
  {
    if k == KTemplateEq || k == KFrom || k == KJoin {
      MergeEveryFragmentFor(cache, order, k, t);
    } else if k == KResidual {
      MergeResidualFor(cache, order, t);
    } else if k == KUnion {
      MergeUnionFor(cache, order, t);
    } else {
      MergeOtherFor(cache, order, k, t);
    }
  }

  lemma MergeOtherFor(cache: map<string, QuerySteps>, order: seq<string>, k: Kind, t: string)
    requires |order| > 0
    requires forall i :: 0 <= i < |order| ==> order[i] in cache
    requires KeyedByTemplate(cache)
    requires k !in {KTemplateEq, KFrom, KJoin, KResidual, KUnion}
    ensures CountFor(MergeLog(cache, order), k, t) == 0
  {
    MergeLogOps(cache, order);
    CountAbsent(MergeLog(cache, order), k);
  }

  lemma OrderStepCount(merged: Statement, env: Env, k: Kind)
    ensures Count(OrderStep(merged, env).log, k) == Ind(k == KOrderBy && env.hasOrderBy)
  {
    if env.hasOrderBy {
      Count1(OrderBy, k);
    }
  }

  lemma LimitStepCount(ordered: Statement, count: Option<int>, k: Kind)
    ensures Count(LimitStep(ordered, count).log, k) == Ind(k == KLimit && count.Some?)
  {
    if count.Some? {
      Count1(Limit(count.value), k);
    }
  }

  /** The shaping phase makes at most one ORDER BY and at most one LIMIT call. */
  lemma ShapeLogCount(merged: Statement, env: Env, count: Option<int>, k: Kind)
    ensures Count(Shape(merged, env, count).log, k) ==
      Ind(k == KOrderBy && env.hasOrderBy) + Ind(k == KLimit && count.Some?)
  {
    var ordered := OrderStep(merged, env);
    var limited := LimitStep(ordered.stmt, count);
    assert Shape(merged, env, count).log == ordered.log + limited.log;
    CountAppend(ordered.log, limited.log, k);
    OrderStepCount(merged, env, k);
    LimitStepCount(ordered.stmt, count, k);
  }

  /** The shaping phase works on no template. */
  lemma ShapeLogCountFor(merged: Statement, env: Env, count: Option<int>, k: Kind, t: string)
    ensures CountFor(Shape(merged, env, count).log, k, t) == 0
  {
    var log := Shape(merged, env, count).log;
    forall i | 0 <= i < |log| ensures TagOf(log[i]).None? {
      assert IsShapingOp(log[i]);
    }
    CountForUntagged(log, k, t);
  }

  /** The output phase makes exactly one call: a fetch or, in explain mode, a render. */
  lemma EmitCount(stmt: Statement, explain: bool, env: Env, k: Kind)
    ensures Count(Emit(stmt, explain, env).log, k) == Ind(k == KFetch && !explain) + Ind(k == KRender && explain)
    ensures forall t :: CountFor(Emit(stmt, explain, env).log, k, t) == 0
  {
    var op := if explain then Render else Fetch;
    Count1(op, k);
    forall t ensures CountFor(Emit(stmt, explain, env).log, k, t) == 0 {
      CountFor1(op, k, t);
    }
  }

  // ---------------------------------------------------------------------
  // The containment strategy
  // ---------------------------------------------------------------------

  /** The log of a containment run over a non-empty set, phase by phase. */
  lemma ContainmentLog(q: ParsedQuery, env: Env, order: seq<string>, explain: bool)
    requires q.hasContainsExpression && |env.containmentRecords| > 0
    requires IsEnumeration(order, TemplateIds(env.containmentRecords))
    ensures |order| > 0
    ensures forall i :: 0 <= i < |order| ==> order[i] in BuildCache(env.containmentRecords, env).cache
    ensures KeyedByTemplate(BuildCache(env.containmentRecords, env).cache)
    ensures var phase := BuildCache(env.containmentRecords, env);
      var shaped := Shape(MergeStatement(phase.cache, order), env, WindowOf(q));
      Execute(q, env, order, explain).log ==
        [Resolve] + phase.log + MergeLog(phase.cache, order) + shaped.log + Emit(shaped.stmt, explain, env).log
  {
    OrderCoversCache(env.containmentRecords, env, order);
  }

  /** The calls of a containment run, phase by phase: the resolution, the
      containment loop, the merge, the shaping and the output. */
  function PhaseCount(q: ParsedQuery, env: Env, order: seq<string>, explain: bool, k: Kind): int
  {
    Ind(k == KResolve)
    + (if k == KBind then |TemplateIds(env.containmentRecords)| else 0)
    + (if k == KResidual then |WithResidual(BuildCache(env.containmentRecords, env).cache, order)| else MergeTotal(order, k))
    + Ind(k == KOrderBy && env.hasOrderBy) + Ind(k == KLimit && WindowOf(q).Some?)
    + Ind(k == KFetch && !explain) + Ind(k == KRender && explain)
  }

  lemma ContainmentPhaseCount(q: ParsedQuery, env: Env, order: seq<string>, explain: bool, k: Kind)
    requires q.hasContainsExpression && |env.containmentRecords| > 0
    requires IsEnumeration(order, TemplateIds(env.containmentRecords))
    ensures Count(Execute(q, env, order, explain).log, k) == PhaseCount(q, env, order, explain, k)
  {
    var recs := env.containmentRecords;
    ContainmentLog(q, env, order, explain);
    var phase := BuildCache(recs, env);
    var merged := MergeStatement(phase.cache, order);
    var shaped := Shape(merged, env, WindowOf(q));
    CountParts([Resolve], phase.log, MergeLog(phase.cache, order), shaped.log, Emit(shaped.stmt, explain, env).log, k);
    Count1(Resolve, k);
    CacheLogCount(recs, env, k);
    MergeLogCount(phase.cache, order, k);
    ShapeLogCount(merged, env, WindowOf(q), k);
    EmitCount(shaped.stmt, explain, env, k);
  }

  /** On an enumeration of the cache the phase counts are the reference counts. */
  lemma PhaseCountIsExpected(q: ParsedQuery, env: Env, order: seq<string>, explain: bool, k: Kind)
    requires IsEnumeration(order, TemplateIds(env.containmentRecords))
    ensures PhaseCount(q, env, order, explain, k) == ExpectedCount(q, env, explain, k)
  {
    EnumerationSize(order, TemplateIds(env.containmentRecords));
    WithResidualIsResidualTemplates(env.containmentRecords, env, order);
  }

  /** A containment run over a non-empty set makes exactly the reference
      number of calls of every kind, for every enumeration of the cache. */
  lemma ContainmentRunCount(q: ParsedQuery, env: Env, order: seq<string>, explain: bool, k: Kind)
    requires q.hasContainsExpression && |env.containmentRecords| > 0
    requires IsEnumeration(order, TemplateIds(env.containmentRecords))
    ensures Count(Execute(q, env, order, explain).log, k) == ExpectedCount(q, env, explain, k)
  {
    ContainmentPhaseCount(q, env, order, explain, k);
    PhaseCountIsExpected(q, env, order, explain, k);
  }

  /** The calls a containment run makes on template `t`, phase by phase, with
      the residual conditions counted on the cache. */
  function PhaseCountFor(env: Env, order: seq<string>, k: Kind, t: string): nat
    requires |order| > 0
  {
    var known := t in TemplateIds(env.containmentRecords);
    match k
    case KBind => Ind(known)
    case KTemplateEq => Ind(known)
    case KFrom => Ind(known)
    case KJoin => Ind(known)
    case KResidual => Ind(t in WithResidual(BuildCache(env.containmentRecords, env).cache, order))
    case KUnion => Ind(known && t != order[0])
    case _ => 0
  }

  /** The calls a containment run makes on one template, phase by phase. */
  lemma ContainmentPhaseCountFor(q: ParsedQuery, env: Env, order: seq<string>, explain: bool, k: Kind, t: string)
    requires q.hasContainsExpression && |env.containmentRecords| > 0
    requires IsEnumeration(order, TemplateIds(env.containmentRecords))
    ensures |order| > 0
    ensures CountFor(Execute(q, env, order, explain).log, k, t) == PhaseCountFor(env, order, k, t)
  {
    var recs := env.containmentRecords;
    ContainmentLog(q, env, order, explain);
    var phase := BuildCache(recs, env);
    var merged := MergeStatement(phase.cache, order);
    var shaped := Shape(merged, env, WindowOf(q));
    CountForParts([Resolve], phase.log, MergeLog(phase.cache, order), shaped.log, Emit(shaped.stmt, explain, env).log, k, t);
    CountFor1(Resolve, k, t);
    CacheLogCountFor(recs, env, k, t);
    MergeLogCountFor(phase.cache, order, k, t);
    SeedIsFirst(order, TemplateIds(recs), t);
    ShapeLogCountFor(merged, env, WindowOf(q), k, t);
    EmitCount(shaped.stmt, explain, env, k);
  }

  /** On an enumeration of the cache the per-template phase counts are the
      reference counts. */
  lemma PhaseCountForIsExpected(env: Env, order: seq<string>, k: Kind, t: string)
    requires |order| > 0
    requires IsEnumeration(order, TemplateIds(env.containmentRecords))
    ensures PhaseCountFor(env, order, k, t) == ExpectedCountFor(env, order[0], k, t)
  {
    WithResidualIsResidualTemplates(env.containmentRecords, env, order);
  }

  /** Per template: a containment run binds each distinct template once, gives
      its fragment one template-equality condition, one ENTRY source and one
      join, a residual condition only when its binder produced one, and unions
      it in exactly once unless it is the enumerated first; templates outside
      the containment set are never touched. */
  lemma ContainmentRunCountFor(q: ParsedQuery, env: Env, order: seq<string>, explain: bool, k: Kind, t: string)
    requires q.hasContainsExpression && |env.containmentRecords| > 0
    requires IsEnumeration(order, TemplateIds(env.containmentRecords))
    ensures |order| > 0
    ensures CountFor(Execute(q, env, order, explain).log, k, t) == ExpectedCountFor(env, order[0], k, t)
  {
    ContainmentPhaseCountFor(q, env, order, explain, k, t);
    PhaseCountForIsExpected(env, order, k, t);
  }

  /** In an enumeration, the elements after the first are the keys other than the first. */
  lemma SeedIsFirst(order: seq<string>, keys: set<string>, t: string)
    requires |order| > 0
    requires IsEnumeration(order, keys)
    ensures (t in order) == (t in keys)
    ensures (t in order[1..]) == (t in keys && t != order[0])
  {
    if t in keys && t != order[0] {
      var i :| 0 <= i < |order| && order[i] == t;
      assert order[1..][i - 1] == t;
    }
  }

  /** The resolution, the containment loop and the merge make no shaping call. */
  lemma PlanningMakesNoShapingCall(recs: seq<ContainmentRecord>, env: Env, order: seq<string>)
    requires |recs| > 0
    requires IsEnumeration(order, TemplateIds(recs))
    ensures |order| > 0
    ensures forall i :: 0 <= i < |order| ==> order[i] in BuildCache(recs, env).cache
    ensures var pre := [Resolve] + BuildCache(recs, env).log + MergeLog(BuildCache(recs, env).cache, order);
      forall i :: 0 <= i < |pre| ==> !IsShapingOp(pre[i])
  {
    OrderCoversCache(recs, env, order);
    var phase := BuildCache(recs, env);
    var merge := MergeLog(phase.cache, order);
    CacheBindsFirstRecords(recs, env);
    MergeLogOps(phase.cache, order);
    var pre := [Resolve] + phase.log + merge;
    forall i | 0 <= i < |pre| ensures !IsShapingOp(pre[i]) {
      if 0 < i < 1 + |phase.log| {
        assert pre[i] == phase.log[i - 1];
      } else if i >= 1 + |phase.log| {
        assert pre[i] == merge[i - 1 - |phase.log|];
      }
    }
  }

  /** Shaping and output make no per-fragment call, and the output comes last. */
  lemma FinishingMakesNoFragmentCall(merged: Statement, env: Env, count: Option<int>, explain: bool)
    ensures var shaped := Shape(merged, env, count);
      var post := shaped.log + Emit(shaped.stmt, explain, env).log;
      && (forall j :: 0 <= j < |post| ==> !IsFragmentOp(post[j]))
      && |post| > 0 && post[|post| - 1] == (if explain then Render else Fetch)
  {
    var shaped := Shape(merged, env, count);
    var post := shaped.log + Emit(shaped.stmt, explain, env).log;
    forall j | 0 <= j < |post| ensures !IsFragmentOp(post[j]) {
      if j < |shaped.log| {
        assert post[j] == shaped.log[j];
      }
    }
  }

  /** In a containment run every per-fragment call (bind, clause, union)
      comes before every ORDER BY or LIMIT call, and the run ends with its
      single fetch or render. */
  lemma ContainmentOrdering(q: ParsedQuery, env: Env, order: seq<string>, explain: bool)
    requires q.hasContainsExpression && |env.containmentRecords| > 0
    requires IsEnumeration(order, TemplateIds(env.containmentRecords))
    ensures var log := Execute(q, env, order, explain).log;
      && (forall i, j :: 0 <= i < j < |log| && IsShapingOp(log[i]) ==> !IsFragmentOp(log[j]))
      && |log| > 0 && log[|log| - 1] == (if explain then Render else Fetch)
  {
    var recs := env.containmentRecords;
    ContainmentLog(q, env, order, explain);
    PlanningMakesNoShapingCall(recs, env, order);
    var phase := BuildCache(recs, env);
    var merged := MergeStatement(phase.cache, order);
    FinishingMakesNoFragmentCall(merged, env, WindowOf(q), explain);
    var shaped := Shape(merged, env, WindowOf(q));
    var pre := [Resolve] + phase.log + MergeLog(phase.cache, order);
    var post := shaped.log + Emit(shaped.stmt, explain, env).log;
    var log := Execute(q, env, order, explain).log;
    assert log == pre + post;
    forall i, j | 0 <= i < j < |log| && IsShapingOp(log[i]) ensures !IsFragmentOp(log[j]) {
      assert i >= |pre|;
      assert log[j] == post[j - |pre|];
    }
  }

  /** A log made of resolutions and binds followed by calls that are not
      binds has every bind preceded only by resolutions and binds. */
  lemma BindsComeFirst(head: seq<Op>, rest: seq<Op>)
    requires forall i :: 0 <= i < |head| ==> head[i].Resolve? || head[i].Bind?
    requires forall k :: 0 <= k < |rest| ==> !rest[k].Bind?
    ensures forall i, j :: 0 <= i < j < |head + rest| && (head + rest)[j].Bind? ==>
      (head + rest)[i].Resolve? || (head + rest)[i].Bind?
  {
    forall k | |head| <= k < |head + rest| ensures !(head + rest)[k].Bind? {
      assert (head + rest)[k] == rest[k - |head|];
    }
  }

  /** After the containment loop no call is a bind: the merge makes none and
      neither do shaping and output. */
  lemma NoBindAfterCache(merge: seq<Op>, post: seq<Op>)
    requires forall k :: 0 <= k < |merge| ==> !merge[k].Bind?
    requires forall k :: 0 <= k < |post| ==> !IsFragmentOp(post[k])
    ensures forall k :: 0 <= k < |merge + post| ==> !(merge + post)[k].Bind?
  {
    forall k | 0 <= k < |merge + post| ensures !(merge + post)[k].Bind? {
      if k < |merge| {
        assert (merge + post)[k] == merge[k];
      } else {
        assert (merge + post)[k] == post[k - |merge|];
      }
    }
  }

  /** The resolution followed by the containment loop holds only the
      resolution and binds. */
  lemma CacheHeadIsBinds(recs: seq<ContainmentRecord>, env: Env)
    ensures var head := [Resolve] + BuildCache(recs, env).log;
      forall i :: 0 <= i < |head| ==> head[i].Resolve? || head[i].Bind?
  {
    var log := BuildCache(recs, env).log;
    CacheBindsFirstRecords(recs, env);
    forall i | 0 <= i < |[Resolve] + log| ensures ([Resolve] + log)[i].Resolve? || ([Resolve] + log)[i].Bind? {
      if i > 0 {
        assert ([Resolve] + log)[i] == log[i - 1];
      }
    }
  }

  /** In a containment run the set is resolved first, and the containment
      loop finishes before the merge starts: every call before a bind is the
      resolution or another bind. */
  lemma ContainmentPhaseOrder(q: ParsedQuery, env: Env, order: seq<string>, explain: bool)
    requires q.hasContainsExpression && |env.containmentRecords| > 0
    requires IsEnumeration(order, TemplateIds(env.containmentRecords))
    ensures var log := Execute(q, env, order, explain).log;
      && |log| > 0 && log[0] == Resolve
      && (forall i, j :: 0 <= i < j < |log| && log[j].Bind? ==> log[i].Resolve? || log[i].Bind?)
  {
    var recs := env.containmentRecords;
    ContainmentLog(q, env, order, explain);
    var phase := BuildCache(recs, env);
    var merge := MergeLog(phase.cache, order);
    var merged := MergeStatement(phase.cache, order);
    var shaped := Shape(merged, env, WindowOf(q));
    var post := shaped.log + Emit(shaped.stmt, explain, env).log;
    MergeLogOps(phase.cache, order);
    FinishingMakesNoFragmentCall(merged, env, WindowOf(q), explain);
    NoBindAfterCache(merge, post);
    CacheHeadIsBinds(recs, env);
    BindsComeFirst([Resolve] + phase.log, merge + post);
    assert Execute(q, env, order, explain).log == ([Resolve] + phase.log) + (merge + post);
  }

  /** With a containment clause that resolves to no record, nothing is bound,
      merged, shaped, fetched or rendered: the call returns the empty explain
      list in explain mode and null otherwise. */
  lemma EmptyContainmentRun(q: ParsedQuery, env: Env, order: seq<string>, explain: bool)
    requires q.hasContainsExpression && |env.containmentRecords| == 0
    requires IsEnumeration(order, TemplateIds(env.containmentRecords))
    ensures var run := Execute(q, env, order, explain);
      && run.statements == []
      && (forall k :: k != KResolve ==> Count(run.log, k) == 0)
      && run.answer == (if explain then ExplainList([]) else Rows(None))
  {
    forall k | k != KResolve ensures Count([Resolve], k) == 0 {
      Count1(Resolve, k);
    }
  }

  /** Without a containment clause exactly one statement is built: the select
      bound with the query's IN-set expression, its window and its order
      attributes, with one from and one join clause; nothing is unioned, and
      no separate ORDER BY or LIMIT is added. */
  lemma StaticRun(q: ParsedQuery, env: Env, order: seq<string>, explain: bool)
    requires !q.hasContainsExpression
    ensures var run := Execute(q, env, order, explain);
      && |run.statements| == 1
      && run.statements[0].unions == [] && run.statements[0].orderBy == None && run.statements[0].limit == None
      && run.statements[0].head.base == StaticBound(q.inSetExpression, WindowOf(q), q.orderAttributes)
      && run.statements[0].head.clauses ==
        [FromClause(env.staticCompositionQuery), JoinClause(env.staticCompositionQuery)]
  {
  }

  /** Without a containment clause the run makes one bind (which receives the
      window), one from call, one join call and one fetch or render, and no
      other call: no containment set is resolved, no cache entry is bound,
      nothing is unioned, ordered or limited. */
  lemma StaticRunCount(q: ParsedQuery, env: Env, order: seq<string>, explain: bool, k: Kind)
    requires !q.hasContainsExpression
    ensures Count(Execute(q, env, order, explain).log, k) ==
      Ind(k == KStaticBind) + Ind(k == KStaticFrom) + Ind(k == KStaticJoin)
      + Ind(k == KFetch && !explain) + Ind(k == KRender && explain)
  {
    StaticLog(q, env, order, explain);
    StaticLogCount(WindowOf(q), if explain then Render else Fetch, k);
  }

  lemma StaticLogCount(window: Option<int>, out: Op, k: Kind)
    requires out == Render || out == Fetch
    ensures Count([StaticBind(window), StaticFrom, StaticJoin, out], k) ==
      Ind(k == KStaticBind) + Ind(k == KStaticFrom) + Ind(k == KStaticJoin)
      + Ind(k == KFetch && out == Fetch) + Ind(k == KRender && out == Render)
  {
    Count4(StaticBind(window), StaticFrom, StaticJoin, out, k);
  }

  lemma StaticLog(q: ParsedQuery, env: Env, order: seq<string>, explain: bool)
    requires !q.hasContainsExpression
    ensures Execute(q, env, order, explain).log ==
      [StaticBind(WindowOf(q)), StaticFrom, StaticJoin, if explain then Render else Fetch]
  {
  }

  // ---------------------------------------------------------------------
  // Every strategy
  // ---------------------------------------------------------------------

  /** Every run fetches or renders each statement it builds exactly once and
      never both; it renders exactly when in explain mode; it builds no
      statement exactly when a containment clause resolves to no record. */
  lemma FetchOrRender(q: ParsedQuery, env: Env, order: seq<string>, explain: bool)
    requires q.hasContainsExpression ==> IsEnumeration(order, TemplateIds(env.containmentRecords))
    ensures var run := Execute(q, env, order, explain);
      && Count(run.log, KFetch) + Count(run.log, KRender) == |run.statements|
      && Count(run.log, KRender) == (if explain then |run.statements| else 0)
      && (|run.statements| == 0 <==> q.hasContainsExpression && |env.containmentRecords| == 0)
  {
    if !q.hasContainsExpression {
      StaticFetchOrRender(q, env, order, explain);
    } else if |env.containmentRecords| == 0 {
      EmptyContainmentRun(q, env, order, explain);
    } else {
      ContainmentFetchOrRender(q, env, order, explain);
    }
  }

  lemma StaticFetchOrRender(q: ParsedQuery, env: Env, order: seq<string>, explain: bool)
    requires !q.hasContainsExpression
    ensures var run := Execute(q, env, order, explain);
      && Count(run.log, KFetch) + Count(run.log, KRender) == |run.statements| == 1
      && Count(run.log, KRender) == (if explain then 1 else 0)
  {
    StaticRunCount(q, env, order, explain, KFetch);
    StaticRunCount(q, env, order, explain, KRender);
  }

  lemma ContainmentFetchOrRender(q: ParsedQuery, env: Env, order: seq<string>, explain: bool)
    requires q.hasContainsExpression && |env.containmentRecords| > 0
    requires IsEnumeration(order, TemplateIds(env.containmentRecords))
    ensures var run := Execute(q, env, order, explain);
      && Count(run.log, KFetch) + Count(run.log, KRender) == |run.statements| == 1
      && Count(run.log, KRender) == (if explain then 1 else 0)
  {
    ContainmentStatementBuilt(q, env, order, explain);
    ContainmentPhaseCount(q, env, order, explain, KFetch);
    ContainmentPhaseCount(q, env, order, explain, KRender);
    assert MergeTotal(order, KFetch) == 0 && MergeTotal(order, KRender) == 0;
  }

  /** What a run returns: in explain mode the explain list, holding one entry
      per built statement (its rendered SQL and the text of its bound
      parameters); otherwise the rows fetched for the statement, or null when
      no statement was built. */
  lemma RunAnswer(q: ParsedQuery, env: Env, order: seq<string>, explain: bool)
    requires q.hasContainsExpression ==> IsEnumeration(order, TemplateIds(env.containmentRecords))
    ensures var run := Execute(q, env, order, explain);
      && (|run.statements| == 0 ==> run.answer == (if explain then ExplainList([]) else Rows(None)))
      && (|run.statements| == 1 && explain ==>
            run.answer == ExplainList([[env.render(run.statements[0])] + env.params(run.statements[0])]))
      && (|run.statements| == 1 && !explain ==> run.answer == Rows(env.fetch(run.statements[0])))
  {
  }

  /** The prepared fragments of every cached template. */
  function CachedBranches(cache: map<string, QuerySteps>): set<Branch>
  {
    set t | t in cache :: Prepare(cache[t])
  }

  /** A containment run over a non-empty set builds exactly one statement. */
  lemma ContainmentStatementBuilt(q: ParsedQuery, env: Env, order: seq<string>, explain: bool)
    requires q.hasContainsExpression && |env.containmentRecords| > 0
    requires IsEnumeration(order, TemplateIds(env.containmentRecords))
    ensures Execute(q, env, order, explain).statements == [ContainmentStatement(q, env, order)]
  {
  }

  /** The statement has one branch per distinct template: the i-th is the
      prepared fragment of the i-th enumerated template, restricted to that
      template, the first being the seed. */
  lemma ContainmentBranchOrder(q: ParsedQuery, env: Env, order: seq<string>)
    requires |env.containmentRecords| > 0
    requires IsEnumeration(order, TemplateIds(env.containmentRecords))
    ensures forall i :: 0 <= i < |order| ==> order[i] in BuildCache(env.containmentRecords, env).cache
    ensures var bs := AllBranches(ContainmentStatement(q, env, order));
      && |bs| == |order| == |TemplateIds(env.containmentRecords)|
      && (forall i :: 0 <= i < |order| ==> bs[i] == Prepare(BuildCache(env.containmentRecords, env).cache[order[i]]))
      && (forall i :: 0 <= i < |order| ==> bs[i].clauses[0] == TemplateEq(order[i]))
  {
    var recs := env.containmentRecords;
    OrderCoversCache(recs, env, order);
    EnumerationSize(order, TemplateIds(recs));
    var cache := BuildCache(recs, env).cache;
    MergeBranches(cache, order);
  }

  /** Whatever the enumeration, the statement's branches are exactly the
      prepared fragments of the cached templates. */
  lemma ContainmentBranchSet(q: ParsedQuery, env: Env, order: seq<string>)
    requires |env.containmentRecords| > 0
    requires IsEnumeration(order, TemplateIds(env.containmentRecords))
    ensures (set b | b in AllBranches(ContainmentStatement(q, env, order)))
      == CachedBranches(BuildCache(env.containmentRecords, env).cache)
  {
    var recs := env.containmentRecords;
    ContainmentBranchOrder(q, env, order);
    CacheKeys(recs, env);
    EnumeratedBranches(AllBranches(ContainmentStatement(q, env, order)), BuildCache(recs, env).cache, order);
  }

  /** Branches listed along an enumeration of the cache keys form the set of
      prepared cached fragments. */
  lemma EnumeratedBranches(bs: seq<Branch>, cache: map<string, QuerySteps>, order: seq<string>)
    requires |bs| == |order|
    requires forall i :: 0 <= i < |order| ==> order[i] in cache
    requires forall t :: t in cache ==> t in order
    requires forall i :: 0 <= i < |order| ==> bs[i] == Prepare(cache[order[i]])
    ensures (set b | b in bs) == CachedBranches(cache)
  {
    forall b | b in bs ensures b in CachedBranches(cache) {
      var i :| 0 <= i < |bs| && bs[i] == b;
    }
    forall b | b in CachedBranches(cache) ensures b in bs {
      var t :| t in cache && b == Prepare(cache[t]);
      var i :| 0 <= i < |order| && order[i] == t;
      assert bs[i] == b;
    }
  }

  /** ORDER BY and LIMIT sit on the combination as a whole: ordered by the
      order-by binder's fields exactly when it reports an ORDER BY, limited to
      the window exactly when the query has one. */
  lemma ContainmentShaping(q: ParsedQuery, env: Env, order: seq<string>)
    requires |env.containmentRecords| > 0
    requires IsEnumeration(order, TemplateIds(env.containmentRecords))
    ensures ContainmentStatement(q, env, order).orderBy == (if env.hasOrderBy then Some(env.orderByFields) else None)
    ensures ContainmentStatement(q, env, order).limit == WindowOf(q)
  {
    var recs := env.containmentRecords;
    OrderCoversCache(recs, env, order);
    MergeBranches(BuildCache(recs, env).cache, order);
  }

  // ---------------------------------------------------------------------
  // Independence from the hash map's iteration order
  // ---------------------------------------------------------------------

  /** Two enumerations of the cache lead to runs that make the same number of
      calls of every kind. */
  lemma OrderIndependentCounts(q: ParsedQuery, env: Env, order1: seq<string>, order2: seq<string>, explain: bool, k: Kind)
    requires q.hasContainsExpression && |env.containmentRecords| > 0
    requires IsEnumeration(order1, TemplateIds(env.containmentRecords))
    requires IsEnumeration(order2, TemplateIds(env.containmentRecords))
    ensures Count(Execute(q, env, order1, explain).log, k) == Count(Execute(q, env, order2, explain).log, k)
  {
    ContainmentRunCount(q, env, order1, explain, k);
    ContainmentRunCount(q, env, order2, explain, k);
  }

  /** Two enumerations of the cache build statements with the same set of
      branches; only their order differs. */
  lemma OrderIndependentBranches(q: ParsedQuery, env: Env, order1: seq<string>, order2: seq<string>)
    requires |env.containmentRecords| > 0
    requires IsEnumeration(order1, TemplateIds(env.containmentRecords))
    requires IsEnumeration(order2, TemplateIds(env.containmentRecords))
    ensures (set b | b in AllBranches(ContainmentStatement(q, env, order1)))
      == (set b | b in AllBranches(ContainmentStatement(q, env, order2)))
  {
    ContainmentBranchSet(q, env, order1);
    ContainmentBranchSet(q, env, order2);
  }

  /** Two enumerations of the cache build statements with the same ORDER BY
      and the same LIMIT. */
  lemma OrderIndependentShaping(q: ParsedQuery, env: Env, order1: seq<string>, order2: seq<string>)
    requires |env.containmentRecords| > 0
    requires IsEnumeration(order1, TemplateIds(env.containmentRecords))
    requires IsEnumeration(order2, TemplateIds(env.containmentRecords))
    ensures ContainmentStatement(q, env, order1).orderBy == ContainmentStatement(q, env, order2).orderBy
    ensures ContainmentStatement(q, env, order1).limit == ContainmentStatement(q, env, order2).limit
  {
    ContainmentShaping(q, env, order1);
    ContainmentShaping(q, env, order2);
  }

  /** Without a non-empty containment set there is nothing to enumerate, and
      the run does not depend on the enumeration at all. */
  lemma NothingToEnumerate(q: ParsedQuery, env: Env, order1: seq<string>, order2: seq<string>, explain: bool)
    requires !q.hasContainsExpression || |env.containmentRecords| == 0
    requires q.hasContainsExpression ==> IsEnumeration(order1, TemplateIds(env.containmentRecords))
    requires q.hasContainsExpression ==> IsEnumeration(order2, TemplateIds(env.containmentRecords))
    ensures Execute(q, env, order1, explain) == Execute(q, env, order2, explain)
  {
  }

  // ---------------------------------------------------------------------
  // The two-argument overload and the accumulator
  // ---------------------------------------------------------------------

  /** The two-argument `execute` always fetches: it never renders, it fetches
      each statement it builds once, and the flag the processor was
      constructed with makes no difference. */
  lemma DefaultAlwaysFetches(p: Processor, q: ParsedQuery, env: Env, order: seq<string>)
    requires q.hasContainsExpression ==> IsEnumeration(order, TemplateIds(env.containmentRecords))
    ensures ExecuteDefault(p, q, env, order) == ExecuteDefault(Processor(!p.explain), q, env, order)
    ensures Count(ExecuteDefault(p, q, env, order).log, KRender) == 0
    ensures Count(ExecuteDefault(p, q, env, order).log, KFetch) == |ExecuteDefault(p, q, env, order).statements|
  {
    FetchOrRender(q, env, order, false);
  }

  /** Accumulating two fetches one after the other is accumulating their
      concatenation. */
  lemma FetchAccumulates(acc: Option<seq<Row>>, a: Option<seq<Row>>, b: Option<seq<Row>>)
    requires a.Some? && b.Some?
    ensures FetchResultSet(FetchResultSet(acc, a), b) == FetchResultSet(acc, Some(a.value + b.value))
  {
    if acc.Some? {
      assert acc.value + a.value + b.value == acc.value + (a.value + b.value);
    }
  }
}
