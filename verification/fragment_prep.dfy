/** Preparing one cached fragment for the combination: the clauses added to
    its select and the builder calls that add them. */
module FragmentPrep {
  import opened QueryModel

  /** The select of one fragment with its per-template clauses added: the
      template-equality condition on its own template, the residual condition
      AND-combined when it is not null, the ENTRY source and the join clause. */
  function Prepare(s: QuerySteps): (b: Branch)
    ensures b.base == s.selectQuery
    ensures |b.clauses| == 3 + Ind(s.whereCondition.Some?)
    ensures b.clauses[0] == TemplateEq(s.templateId)
    ensures (exists i :: 0 <= i < |b.clauses| && b.clauses[i].AndCondition?) <==> s.whereCondition.Some?
    ensures s.whereCondition.Some? ==> b.clauses[1] == AndCondition(s.whereCondition.value)
    ensures b.clauses[|b.clauses| - 2] == FromEntry
    ensures b.clauses[|b.clauses| - 1] == JoinClause(s.compositionAttributeQuery)
  {
    var residual := if s.whereCondition.Some? then [AndCondition(s.whereCondition.value)] else [];
    var clauses := [TemplateEq(s.templateId)] + residual + [FromEntry, JoinClause(s.compositionAttributeQuery)];
    assert s.whereCondition.Some? ==> clauses[1].AndCondition?;
    Branch(s.selectQuery, clauses)
  }

  /** The builder calls made while preparing one fragment, in the order
      `execute` makes them: the template-equality condition, the residual
      condition when there is one, the ENTRY source, the join, and a union
      unless the fragment seeds the combination. */
  function PrepareLog(s: QuerySteps, first: bool): (log: seq<Op>)
    ensures |log| >= 3 && log[0] == AddTemplateEq(s.templateId)
    ensures (Union(s.templateId) in log) <==> !first
  {
    var t := s.templateId;
    if s.whereCondition.Some? then
      if first then [AddTemplateEq(t), AddResidual(t), AddFrom(t), AddJoin(t)]
      else [AddTemplateEq(t), AddResidual(t), AddFrom(t), AddJoin(t), Union(t)]
    else
      if first then [AddTemplateEq(t), AddFrom(t), AddJoin(t)]
      else [AddTemplateEq(t), AddFrom(t), AddJoin(t), Union(t)]
  }

  /** The builder call that adds a clause to the fragment of template `t`. */
  function ClauseOp(c: Clause, t: string): Op
  {
    match c
    case TemplateEq(u) => AddTemplateEq(u)
    case AndCondition(_) => AddResidual(t)
    case FromEntry => AddFrom(t)
    case FromClause(_) => StaticFrom
    case JoinClause(_) => AddJoin(t)
  }

  /** The calls made while preparing a fragment add its clauses one by one,
      in the order of the prepared clause list, followed by the union when the
      fragment is not the seed. */
  lemma PrepareLogFollowsClauses(s: QuerySteps, first: bool)
    ensures var cs := Prepare(s).clauses;
      PrepareLog(s, first) ==
        seq(|cs|, i requires 0 <= i < |cs| => ClauseOp(cs[i], s.templateId))
        + (if first then [] else [Union(s.templateId)])
  {
  }

  /** How many calls of kind `k` preparing one fragment makes: one
      template-equality condition, one ENTRY source and one join, a residual
      condition when the binder produced one, and a union unless it is the seed. */
  function StepCount(s: QuerySteps, first: bool, k: Kind): nat
  {
    Ind(k == KTemplateEq) + Ind(k == KResidual && s.whereCondition.Some?) + Ind(k == KFrom)
    + Ind(k == KJoin) + Ind(k == KUnion && !first)
  }

  /** Preparing one fragment makes `StepCount` calls of each kind. */
  lemma PrepareLogCount(s: QuerySteps, first: bool, k: Kind)
    ensures Count(PrepareLog(s, first), k) == StepCount(s, first, k)
  {
    if s.whereCondition.Some? {
      if first { PrepareLogCountResidualSeed(s, first, k); } else { PrepareLogCountResidualUnion(s, first, k); }
    } else {
      if first { PrepareLogCountPlainSeed(s, first, k); } else { PrepareLogCountPlainUnion(s, first, k); }
    }
  }

  /** All calls made while preparing one fragment are on its own template. */
  lemma PrepareLogCountFor(s: QuerySteps, first: bool, k: Kind, t: string)
    ensures CountFor(PrepareLog(s, first), k, t) == if t == s.templateId then StepCount(s, first, k) else 0
  {
    if s.whereCondition.Some? {
      if first { PrepareLogCountForResidualSeed(s, first, k, t); } else { PrepareLogCountForResidualUnion(s, first, k, t); }
    } else {
      if first { PrepareLogCountForPlainSeed(s, first, k, t); } else { PrepareLogCountForPlainUnion(s, first, k, t); }
    }
  }

  lemma PrepareLogCountResidualSeed(s: QuerySteps, first: bool, k: Kind)
    requires s.whereCondition.Some? && first
    ensures Count(PrepareLog(s, first), k) == StepCount(s, first, k)
  {
    var u := s.templateId;
    Count4(AddTemplateEq(u), AddResidual(u), AddFrom(u), AddJoin(u), k);
  }

  lemma PrepareLogCountResidualUnion(s: QuerySteps, first: bool, k: Kind)
    requires s.whereCondition.Some? && !first
    ensures Count(PrepareLog(s, first), k) == StepCount(s, first, k)
  {
    var u := s.templateId;
    Count5(AddTemplateEq(u), AddResidual(u), AddFrom(u), AddJoin(u), Union(u), k);
  }

  lemma PrepareLogCountPlainSeed(s: QuerySteps, first: bool, k: Kind)
    requires s.whereCondition.None? && first
    ensures Count(PrepareLog(s, first), k) == StepCount(s, first, k)
  {
    var u := s.templateId;
    Count3(AddTemplateEq(u), AddFrom(u), AddJoin(u), k);
  }

  lemma PrepareLogCountPlainUnion(s: QuerySteps, first: bool, k: Kind)
    requires s.whereCondition.None? && !first
    ensures Count(PrepareLog(s, first), k) == StepCount(s, first, k)
  {
    var u := s.templateId;
    Count4(AddTemplateEq(u), AddFrom(u), AddJoin(u), Union(u), k);
  }

  lemma PrepareLogCountForResidualSeed(s: QuerySteps, first: bool, k: Kind, t: string)
    requires s.whereCondition.Some? && first
    ensures CountFor(PrepareLog(s, first), k, t) == if t == s.templateId then StepCount(s, first, k) else 0
  {
    var u := s.templateId;
    CountFor4(AddTemplateEq(u), AddResidual(u), AddFrom(u), AddJoin(u), k, t);
  }

  lemma PrepareLogCountForResidualUnion(s: QuerySteps, first: bool, k: Kind, t: string)
    requires s.whereCondition.Some? && !first
    ensures CountFor(PrepareLog(s, first), k, t) == if t == s.templateId then StepCount(s, first, k) else 0
  {
    var u := s.templateId;
    CountFor5(AddTemplateEq(u), AddResidual(u), AddFrom(u), AddJoin(u), Union(u), k, t);
  }

  lemma PrepareLogCountForPlainSeed(s: QuerySteps, first: bool, k: Kind, t: string)
    requires s.whereCondition.None? && first
    ensures CountFor(PrepareLog(s, first), k, t) == if t == s.templateId then StepCount(s, first, k) else 0
  {
    var u := s.templateId;
    CountFor3(AddTemplateEq(u), AddFrom(u), AddJoin(u), k, t);
  }

  lemma PrepareLogCountForPlainUnion(s: QuerySteps, first: bool, k: Kind, t: string)
    requires s.whereCondition.None? && !first
    ensures CountFor(PrepareLog(s, first), k, t) == if t == s.templateId then StepCount(s, first, k) else 0
  {
    var u := s.templateId;
    CountFor4(AddTemplateEq(u), AddFrom(u), AddJoin(u), Union(u), k, t);
  }
}
