/** Assembling the cached fragments into one statement: every fragment gets
    its template-equality condition, its residual condition when there is
    one, the ENTRY source and its join clause; the first fragment seeds the
    combination and every later one is unioned into it. The cache is
    enumerated in an arbitrary order, given as `order`. */
module UnionMerge {
  import opened QueryModel
  import opened FragmentPrep

  predicate Distinct(s: seq<string>)
  {
    forall i, j :: 0 <= i < j < |s| ==> s[i] != s[j]
  }

  /** `order` lists every key of the set exactly once, in some order: one
      possible iteration order of the cache map. */
  predicate IsEnumeration(order: seq<string>, keys: set<string>)
  {
    && Distinct(order)
    && (forall i :: 0 <= i < |order| ==> order[i] in keys)
    && (forall t :: t in keys ==> t in order)
  }

  /** An enumeration has exactly as many elements as the set it enumerates. */
  lemma {:induction false} EnumerationSize(order: seq<string>, keys: set<string>)
    requires IsEnumeration(order, keys)
    ensures |order| == |keys|
    decreases |order|
  {
    if |order| > 0 {
      var p := order[..|order| - 1];
      var x := order[|order| - 1];
      assert x !in p by {
        forall i | 0 <= i < |p| ensures p[i] != x {
          assert p[i] == order[i];
        }
      }
      assert IsEnumeration(p, keys - {x}) by {
        forall i | 0 <= i < |p| ensures p[i] in keys - {x} {
          assert p[i] == order[i];
        }
        forall t | t in keys - {x} ensures t in p {
          assert t in order;
          var i :| 0 <= i < |order| && order[i] == t;
          assert p[i] == order[i];
        }
      }
      EnumerationSize(p, keys - {x});
    } else {
      assert forall t :: t in keys ==> false;
      assert keys == {};
    }
  }

  /** The cache is well formed when every entry is stored under its own template id. */
  predicate KeyedByTemplate(cache: map<string, QuerySteps>)
  {
    forall t :: t in cache ==> cache[t].templateId == t
  }

  /** The combined statement: the first enumerated fragment seeds it and
      every later one is unioned into it, in enumeration order. */
  function MergeStatement(cache: map<string, QuerySteps>, order: seq<string>): (m: Statement)
    requires |order| > 0
    requires forall i :: 0 <= i < |order| ==> order[i] in cache
    ensures m.head == Prepare(cache[order[0]])
    ensures |m.unions| == |order| - 1
    ensures m.orderBy == None && m.limit == None
    decreases |order|
  {
    var s := cache[order[|order| - 1]];
    if |order| == 1 then Statement(Prepare(s), [], None, None)
    else
      var prev := MergeStatement(cache, order[..|order| - 1]);
      prev.(unions := prev.unions + [Prepare(s)])
  }

  /** The builder calls made while merging the fragments in enumeration order. */
  function MergeLog(cache: map<string, QuerySteps>, order: seq<string>): (log: seq<Op>)
    requires |order| > 0
    requires forall i :: 0 <= i < |order| ==> order[i] in cache
    ensures |log| >= 4 * |order| - 1
    ensures log[0] == AddTemplateEq(cache[order[0]].templateId)
    decreases |order|
  {
    var s := cache[order[|order| - 1]];
    if |order| == 1 then PrepareLog(s, true)
    else MergeLog(cache, order[..|order| - 1]) + PrepareLog(s, false)
  }

  /** One merge step: the log so far followed by the preparation of the next fragment. */
  lemma MergeStep(cache: map<string, QuerySteps>, order: seq<string>)
    requires |order| > 1
    requires forall i :: 0 <= i < |order| ==> order[i] in cache
    ensures MergeLog(cache, order) ==
      MergeLog(cache, order[..|order| - 1]) + PrepareLog(cache[order[|order| - 1]], false)
  {
  }

  /** The merged statement holds one branch per enumerated fragment, in the
      enumeration order, the first as the seed; it is not yet ordered or limited. */
  lemma {:induction false} MergeBranches(cache: map<string, QuerySteps>, order: seq<string>)
    requires |order| > 0
    requires forall i :: 0 <= i < |order| ==> order[i] in cache
    ensures var m := MergeStatement(cache, order);
      && |AllBranches(m)| == |order|
      && (forall i :: 0 <= i < |order| ==> AllBranches(m)[i] == Prepare(cache[order[i]]))
      && m.orderBy == None && m.limit == None
    decreases |order|
  {
    if |order| > 1 {
      var p := order[..|order| - 1];
      MergeBranches(cache, p);
      var prev := MergeStatement(cache, p);
      var m := MergeStatement(cache, order);
      assert AllBranches(m) == AllBranches(prev) + [Prepare(cache[order[|order| - 1]])];
      forall i | 0 <= i < |order| - 1
        ensures AllBranches(m)[i] == Prepare(cache[order[i]])
      {
        assert p[i] == order[i];
      }
    }
  }

  /** Every call made while merging is a per-fragment call on a template of the enumeration. */
  lemma {:induction false} MergeLogOps(cache: map<string, QuerySteps>, order: seq<string>)
    requires |order| > 0
    requires forall i :: 0 <= i < |order| ==> order[i] in cache
    requires KeyedByTemplate(cache)
    ensures forall k :: 0 <= k < |MergeLog(cache, order)| ==>
      IsFragmentOp(MergeLog(cache, order)[k]) && !MergeLog(cache, order)[k].Bind? &&
      TagOf(MergeLog(cache, order)[k]).Some? && TagOf(MergeLog(cache, order)[k]).value in order
    decreases |order|
  {
    var s := cache[order[|order| - 1]];
    var last := order[|order| - 1];
    if |order| > 1 {
      var p := order[..|order| - 1];
      MergeLogOps(cache, p);
      var prev := MergeLog(cache, p);
      var log := prev + PrepareLog(s, false);
      forall k | 0 <= k < |log|
        ensures IsFragmentOp(log[k]) && !log[k].Bind? && TagOf(log[k]).Some? && TagOf(log[k]).value in order
      {
        if k < |prev| {
          assert log[k] == prev[k];
          var j :| 0 <= j < |p| && p[j] == TagOf(log[k]).value;
          assert order[j] == p[j];
        } else {
          assert log[k] in PrepareLog(s, false);
          assert TagOf(log[k]).value == last;
        }
      }
    } else {
      forall k | 0 <= k < |PrepareLog(s, true)|
        ensures TagOf(PrepareLog(s, true)[k]).Some? && TagOf(PrepareLog(s, true)[k]).value == last
      {
        assert PrepareLog(s, true)[k] in PrepareLog(s, true);
      }
    }
  }

  /** The fragments whose binder produced a residual condition. */
  function WithResidual(cache: map<string, QuerySteps>, order: seq<string>): set<string>
  {
    set t | t in order && t in cache && cache[t].whereCondition.Some?
  }

  /** How many calls of kind `k` merging `K` fragments makes in total: K
      template-equality conditions, K ENTRY sources, K joins, K - 1 unions and
      nothing else (residual conditions are counted by `MergeResidualCount`). */
  function MergeTotal(order: seq<string>, k: Kind): int
  {
    match k
    case KTemplateEq => |order|
    case KFrom => |order|
    case KJoin => |order|
    case KUnion => |order| - 1
    case _ => 0
  }

  /** The last element of a distinct sequence does not occur before it. */
  lemma LastIsNew(order: seq<string>)
    requires |order| > 1
    requires Distinct(order)
    ensures order[|order| - 1] !in order[..|order| - 1]
    ensures order[|order| - 1] !in order[1..|order| - 1]
    ensures order == order[..|order| - 1] + [order[|order| - 1]]
    ensures order[1..] == order[1..|order| - 1] + [order[|order| - 1]]
  {
  }

  /** Merging `K` enumerated fragments adds K template-equality conditions,
      K ENTRY sources and K joins, performs exactly K - 1 unions, and makes no
      call that is not a per-fragment one. */
  lemma {:induction false} MergeCount(cache: map<string, QuerySteps>, order: seq<string>, k: Kind)
    requires |order| > 0
    requires forall i :: 0 <= i < |order| ==> order[i] in cache
    requires k != KResidual
    ensures Count(MergeLog(cache, order), k) == MergeTotal(order, k)
    decreases |order|
  {
    if |order| == 1 {
      PrepareLogCount(cache[order[0]], true, k);
    } else {
      MergeCount(cache, order[..|order| - 1], k);
      MergeCountStep(cache, order, k);
    }
  }

  lemma MergeCountStep(cache: map<string, QuerySteps>, order: seq<string>, k: Kind)
    requires |order| > 1
    requires forall i :: 0 <= i < |order| ==> order[i] in cache
    requires k != KResidual
    requires Count(MergeLog(cache, order[..|order| - 1]), k) == MergeTotal(order[..|order| - 1], k)
    ensures Count(MergeLog(cache, order), k) == MergeTotal(order, k)
  {
    var s := cache[order[|order| - 1]];
    PrepareLogCount(s, false, k);
    MergeStep(cache, order);
    CountAppend(MergeLog(cache, order[..|order| - 1]), PrepareLog(s, false), k);
  }

  /** Merging adds one residual condition per enumerated fragment whose binder
      produced one. */
  lemma {:induction false} MergeResidualCount(cache: map<string, QuerySteps>, order: seq<string>)
    requires |order| > 0
    requires Distinct(order)
    requires forall i :: 0 <= i < |order| ==> order[i] in cache
    ensures Count(MergeLog(cache, order), KResidual) == |WithResidual(cache, order)|
    decreases |order|
  {
    if |order| == 1 {
      MergeResidualCountSeed(cache, order);
    } else {
      MergeResidualCount(cache, order[..|order| - 1]);
      MergeResidualCountStep(cache, order);
    }
  }

  lemma MergeResidualCountSeed(cache: map<string, QuerySteps>, order: seq<string>)
    requires |order| == 1
    requires order[0] in cache
    ensures Count(MergeLog(cache, order), KResidual) == |WithResidual(cache, order)|
  {
    var s := cache[order[0]];
    PrepareLogCount(s, true, KResidual);
    if s.whereCondition.Some? {
      assert WithResidual(cache, order) == {order[0]};
    } else {
      assert WithResidual(cache, order) == {};
    }
  }

  lemma MergeResidualCountStep(cache: map<string, QuerySteps>, order: seq<string>)
    requires |order| > 1
    requires Distinct(order)
    requires forall i :: 0 <= i < |order| ==> order[i] in cache
    requires Count(MergeLog(cache, order[..|order| - 1]), KResidual) == |WithResidual(cache, order[..|order| - 1])|
    ensures Count(MergeLog(cache, order), KResidual) == |WithResidual(cache, order)|
  {
    var p := order[..|order| - 1];
    var last := order[|order| - 1];
    var s := cache[last];
    PrepareLogCount(s, false, KResidual);
    MergeStep(cache, order);
    CountAppend(MergeLog(cache, p), PrepareLog(s, false), KResidual);
    LastIsNew(order);
    ResidualSnoc(cache, order);
  }

  /** Extending the enumeration by one fragment adds its template to the
      residual set exactly when its condition is non-null. */
  lemma ResidualSnoc(cache: map<string, QuerySteps>, order: seq<string>)
    requires |order| > 1
    requires forall i :: 0 <= i < |order| ==> order[i] in cache
    ensures WithResidual(cache, order) ==
      WithResidual(cache, order[..|order| - 1])
      + (if cache[order[|order| - 1]].whereCondition.Some? then {order[|order| - 1]} else {})
  {
    assert order == order[..|order| - 1] + [order[|order| - 1]];
  }

  /** Per template: an enumerated fragment receives exactly one call of each
      kind every fragment receives; a template outside the enumeration, none. */
  lemma {:induction false} MergeEveryFragmentFor(cache: map<string, QuerySteps>, order: seq<string>, k: Kind, t: string)
    requires |order| > 0
    requires Distinct(order)
    requires forall i :: 0 <= i < |order| ==> order[i] in cache
    requires KeyedByTemplate(cache)
    requires k == KTemplateEq || k == KFrom || k == KJoin
    ensures CountFor(MergeLog(cache, order), k, t) == if t in order then 1 else 0
    decreases |order|
  {
    if |order| == 1 {
      PrepareLogCountFor(cache[order[0]], true, k, t);
      assert t in order <==> t == order[0];
    } else {
      MergeEveryFragmentFor(cache, order[..|order| - 1], k, t);
      MergeEveryFragmentForStep(cache, order, k, t);
    }
  }

  lemma MergeEveryFragmentForStep(cache: map<string, QuerySteps>, order: seq<string>, k: Kind, t: string)
    requires |order| > 1
    requires Distinct(order)
    requires forall i :: 0 <= i < |order| ==> order[i] in cache
    requires KeyedByTemplate(cache)
    requires k == KTemplateEq || k == KFrom || k == KJoin
    requires CountFor(MergeLog(cache, order[..|order| - 1]), k, t) == if t in order[..|order| - 1] then 1 else 0
    ensures CountFor(MergeLog(cache, order), k, t) == if t in order then 1 else 0
  {
    var p := order[..|order| - 1];
    var s := cache[order[|order| - 1]];
    PrepareLogCountFor(s, false, k, t);
    MergeStep(cache, order);
    CountForAppend(MergeLog(cache, p), PrepareLog(s, false), k, t);
    LastIsNew(order);
  }

  /** Per template: the residual condition is added exactly once to a fragment
      whose binder produced one, and never otherwise. */
  lemma {:induction false} MergeResidualFor(cache: map<string, QuerySteps>, order: seq<string>, t: string)
    requires |order| > 0
    requires Distinct(order)
    requires forall i :: 0 <= i < |order| ==> order[i] in cache
    requires KeyedByTemplate(cache)
    ensures CountFor(MergeLog(cache, order), KResidual, t) == if t in WithResidual(cache, order) then 1 else 0
    decreases |order|
  {
    if |order| == 1 {
      PrepareLogCountFor(cache[order[0]], true, KResidual, t);
      assert t in WithResidual(cache, order) <==> t == order[0] && cache[order[0]].whereCondition.Some?;
    } else {
      MergeResidualFor(cache, order[..|order| - 1], t);
      MergeResidualForStep(cache, order, t);
    }
  }

  lemma MergeResidualForStep(cache: map<string, QuerySteps>, order: seq<string>, t: string)
    requires |order| > 1
    requires Distinct(order)
    requires forall i :: 0 <= i < |order| ==> order[i] in cache
    requires KeyedByTemplate(cache)
    requires CountFor(MergeLog(cache, order[..|order| - 1]), KResidual, t) ==
      if t in WithResidual(cache, order[..|order| - 1]) then 1 else 0
    ensures CountFor(MergeLog(cache, order), KResidual, t) == if t in WithResidual(cache, order) then 1 else 0
  {
    var p := order[..|order| - 1];
    var s := cache[order[|order| - 1]];
    PrepareLogCountFor(s, false, KResidual, t);
    MergeStep(cache, order);
    CountForAppend(MergeLog(cache, p), PrepareLog(s, false), KResidual, t);
    LastIsNew(order);
    ResidualSnoc(cache, order);
  }

  /** Per template: a fragment is unioned into the combination exactly once
      when it is not the seed, and never when it is. */
  lemma {:induction false} MergeUnionFor(cache: map<string, QuerySteps>, order: seq<string>, t: string)
    requires |order| > 0
    requires Distinct(order)
    requires forall i :: 0 <= i < |order| ==> order[i] in cache
    requires KeyedByTemplate(cache)
    ensures CountFor(MergeLog(cache, order), KUnion, t) == if t in order[1..] then 1 else 0
    decreases |order|
  {
    if |order| == 1 {
      PrepareLogCountFor(cache[order[0]], true, KUnion, t);
      assert order[1..] == [];
    } else {
      MergeUnionFor(cache, order[..|order| - 1], t);
      MergeUnionForStep(cache, order, t);
    }
  }

  lemma MergeUnionForStep(cache: map<string, QuerySteps>, order: seq<string>, t: string)
    requires |order| > 1
    requires Distinct(order)
    requires forall i :: 0 <= i < |order| ==> order[i] in cache
    requires KeyedByTemplate(cache)
    requires CountFor(MergeLog(cache, order[..|order| - 1]), KUnion, t) == if t in order[1..|order| - 1] then 1 else 0
    ensures CountFor(MergeLog(cache, order), KUnion, t) == if t in order[1..] then 1 else 0
  {
    var p := order[..|order| - 1];
    var s := cache[order[|order| - 1]];
    PrepareLogCountFor(s, false, KUnion, t);
    MergeStep(cache, order);
    CountForAppend(MergeLog(cache, p), PrepareLog(s, false), KUnion, t);
    LastIsNew(order);
  }
}
