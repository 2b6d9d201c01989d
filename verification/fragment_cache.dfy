/** The per-template fragment cache: a left fold over the resolved
    containment records that binds one select per distinct template id and
    skips every later record of a template already cached. */
module FragmentCache {
  import opened QueryModel

  /** The distinct template ids carried by the records. */
  function TemplateIds(recs: seq<ContainmentRecord>): set<string>
  {
    set i | 0 <= i < |recs| :: recs[i].templateId
  }

  /** Record `i` is the first one carrying its template id. */
  predicate FirstOccurrence(recs: seq<ContainmentRecord>, i: int)
    requires 0 <= i < |recs|
  {
    forall j :: 0 <= j < i ==> recs[j].templateId != recs[i].templateId
  }

  /** Every template id carried by the records has a first record. */
  lemma {:induction false} FirstOccurrenceOf(recs: seq<ContainmentRecord>, t: string)
    requires t in TemplateIds(recs)
    ensures exists i :: 0 <= i < |recs| && FirstOccurrence(recs, i) && recs[i].templateId == t
    decreases |recs|
  {
    var p := recs[..|recs| - 1];
    if t in TemplateIds(p) {
      FirstOccurrenceOf(p, t);
      var i :| 0 <= i < |p| && FirstOccurrence(p, i) && p[i].templateId == t;
      assert FirstOccurrence(recs, i);
    } else {
      var n := |recs| - 1;
      forall j | 0 <= j < n ensures recs[j].templateId != t {
        assert p[j] == recs[j];
      }
      var i :| 0 <= i < |recs| && recs[i].templateId == t;
      assert i == n;
      assert FirstOccurrence(recs, n);
    }
  }

  /** The records that are the first to carry their template id. */
  function FirstRecords(recs: seq<ContainmentRecord>): set<ContainmentRecord>
  {
    set i | 0 <= i < |recs| && FirstOccurrence(recs, i) :: recs[i]
  }

  /** The cache entry built for a record whose template is not yet cached:
      the select bound with the record's template, composition id, label and
      entry root, with the residual condition and join descriptor of its binder. */
  function StepsFor(r: ContainmentRecord, env: Env): (s: QuerySteps)
    ensures s.templateId == r.templateId
    ensures s.selectQuery == TemplateBound(r.templateId, r.compId, r.containmentLabel, r.entryRoot)
  {
    QuerySteps(
      TemplateBound(r.templateId, r.compId, r.containmentLabel, r.entryRoot),
      env.whereConditions(r),
      r.templateId,
      env.compositionQuery(r))
  }

  datatype CachePhase = CachePhase(cache: map<string, QuerySteps>, log: seq<Op>)

  /** The containment loop: records are visited in order; a record whose
      template is cached is skipped, otherwise its select is bound and cached. */
  function BuildCache(recs: seq<ContainmentRecord>, env: Env): (phase: CachePhase)
    ensures |phase.log| <= |recs|
    ensures |recs| > 0 ==> |phase.log| > 0
    decreases |recs|
  {
    if |recs| == 0 then CachePhase(map[], [])
    else
      var prev := BuildCache(recs[..|recs| - 1], env);
      var r := recs[|recs| - 1];
      if r.templateId in prev.cache then prev
      else CachePhase(prev.cache[r.templateId := StepsFor(r, env)], prev.log + [Bind(r)])
  }

  lemma TemplateIdsSnoc(recs: seq<ContainmentRecord>)
    requires |recs| > 0
    ensures TemplateIds(recs) == TemplateIds(recs[..|recs| - 1]) + {recs[|recs| - 1].templateId}
  {
    var p := recs[..|recs| - 1];
    forall t | t in TemplateIds(recs)
      ensures t in TemplateIds(p) + {recs[|recs| - 1].templateId}
    {
      var i :| 0 <= i < |recs| && recs[i].templateId == t;
      if i < |recs| - 1 {
        assert p[i] == recs[i];
      }
    }
    forall t | t in TemplateIds(p)
      ensures t in TemplateIds(recs)
    {
      var i :| 0 <= i < |p| && p[i].templateId == t;
      assert recs[i] == p[i];
    }
  }

  /** The cache keys are exactly the distinct template ids of the records. */
  lemma {:induction false} CacheKeys(recs: seq<ContainmentRecord>, env: Env)
    ensures BuildCache(recs, env).cache.Keys == TemplateIds(recs)
    decreases |recs|
  {
    if |recs| > 0 {
      CacheKeys(recs[..|recs| - 1], env);
      TemplateIdsSnoc(recs);
    }
  }

  /** A non-empty containment set always yields a non-empty cache, so the
      `cacheQuery.isEmpty()` test in `execute` after the loop never fires. */
  lemma CacheNonEmpty(recs: seq<ContainmentRecord>, env: Env)
    requires |recs| > 0
    ensures |BuildCache(recs, env).cache| > 0
    ensures |BuildCache(recs, env).cache| <= |recs|
  {
    CacheKeys(recs, env);
    assert recs[0].templateId in TemplateIds(recs);
    CacheSize(recs, env);
  }

  /** The cache never holds more entries than there are records. */
  lemma {:induction false} CacheSize(recs: seq<ContainmentRecord>, env: Env)
    ensures |BuildCache(recs, env).cache| <= |recs|
    decreases |recs|
  {
    if |recs| > 0 {
      CacheSize(recs[..|recs| - 1], env);
    }
  }

  /** The first record carrying a template wins: its entry is the one cached,
      whatever records of the same template follow it. */
  lemma {:induction false} CacheFirstWins(recs: seq<ContainmentRecord>, env: Env)
    ensures forall i | 0 <= i < |recs| && FirstOccurrence(recs, i) ::
      recs[i].templateId in BuildCache(recs, env).cache &&
      BuildCache(recs, env).cache[recs[i].templateId] == StepsFor(recs[i], env)
    decreases |recs|
  {
    if |recs| > 0 {
      CacheFirstWins(recs[..|recs| - 1], env);
      forall i | 0 <= i < |recs| && FirstOccurrence(recs, i)
        ensures recs[i].templateId in BuildCache(recs, env).cache
        ensures BuildCache(recs, env).cache[recs[i].templateId] == StepsFor(recs[i], env)
      {
        if i < |recs| - 1 {
          CacheKeepsEntry(recs, recs[..|recs| - 1], env, i);
        } else {
          CacheAddsEntry(recs, env);
        }
      }
    }
  }

  /** An entry cached for an earlier first record survives the next record. */
  lemma CacheKeepsEntry(recs: seq<ContainmentRecord>, p: seq<ContainmentRecord>, env: Env, i: int)
    requires |recs| > 0 && p == recs[..|recs| - 1]
    requires 0 <= i < |p|
    requires FirstOccurrence(recs, i)
    requires forall j | 0 <= j < |p| && FirstOccurrence(p, j) ::
      p[j].templateId in BuildCache(p, env).cache && BuildCache(p, env).cache[p[j].templateId] == StepsFor(p[j], env)
    ensures recs[i].templateId in BuildCache(recs, env).cache
    ensures BuildCache(recs, env).cache[recs[i].templateId] == StepsFor(recs[i], env)
  {
    var n := |recs| - 1;
    assert p[i] == recs[i];
    assert FirstOccurrence(p, i) by {
      forall j | 0 <= j < i ensures p[j].templateId != p[i].templateId {
        assert p[j] == recs[j];
      }
    }
    if recs[n].templateId !in BuildCache(p, env).cache {
      assert recs[n].templateId != recs[i].templateId;
    }
  }

  /** A last record that is the first of its template adds its own entry. */
  lemma CacheAddsEntry(recs: seq<ContainmentRecord>, env: Env)
    requires |recs| > 0
    requires FirstOccurrence(recs, |recs| - 1)
    ensures recs[|recs| - 1].templateId in BuildCache(recs, env).cache
    ensures BuildCache(recs, env).cache[recs[|recs| - 1].templateId] == StepsFor(recs[|recs| - 1], env)
  {
    var p := recs[..|recs| - 1];
    var n := |recs| - 1;
    CacheKeys(p, env);
    assert recs[n].templateId !in TemplateIds(p) by {
      forall j | 0 <= j < |p| ensures p[j].templateId != recs[n].templateId {
        assert p[j] == recs[j];
      }
    }
  }

  /** Every call made by the containment loop is a `bind`, and each binds a
      record that is the first to carry its template id. */
  lemma {:induction false} CacheBindsFirstRecords(recs: seq<ContainmentRecord>, env: Env)
    ensures forall k :: 0 <= k < |BuildCache(recs, env).log| ==>
      BuildCache(recs, env).log[k].Bind? && BuildCache(recs, env).log[k].rec in FirstRecords(recs)
    decreases |recs|
  {
    if |recs| > 0 {
      var p := recs[..|recs| - 1];
      var n := |recs| - 1;
      var r := recs[n];
      CacheBindsFirstRecords(p, env);
      CacheKeys(p, env);
      var prev := BuildCache(p, env);
      FirstRecordsSnoc(recs);
      if r.templateId !in prev.cache {
        assert FirstOccurrence(recs, n) by {
          forall j | 0 <= j < n ensures recs[j].templateId != r.templateId {
            assert p[j] == recs[j];
            assert p[j].templateId in TemplateIds(p);
          }
        }
        var log := prev.log + [Bind(r)];
        forall k | 0 <= k < |log| ensures log[k].Bind? && log[k].rec in FirstRecords(recs) {
          if k < |prev.log| {
            assert log[k] == prev.log[k];
          }
        }
      }
    }
  }

  lemma FirstRecordsSnoc(recs: seq<ContainmentRecord>)
    requires |recs| > 0
    ensures FirstRecords(recs[..|recs| - 1]) <= FirstRecords(recs)
  {
    var p := recs[..|recs| - 1];
    forall x | x in FirstRecords(p) ensures x in FirstRecords(recs) {
      var i :| 0 <= i < |p| && FirstOccurrence(p, i) && p[i] == x;
      assert recs[i] == p[i];
      assert FirstOccurrence(recs, i) by {
        forall j | 0 <= j < i ensures recs[j].templateId != recs[i].templateId {
          assert p[j] == recs[j];
        }
      }
    }
  }

  /** `bind` is called exactly once per distinct template id, never for a
      template that no record carries, and once per cache entry in total. */
  lemma {:induction false} CacheBindCounts(recs: seq<ContainmentRecord>, env: Env)
    ensures var phase := BuildCache(recs, env);
      && (forall t :: CountFor(phase.log, KBind, t) == if t in TemplateIds(recs) then 1 else 0)
      && Count(phase.log, KBind) == |phase.log| == |phase.cache|
    decreases |recs|
  {
    if |recs| > 0 {
      var p := recs[..|recs| - 1];
      var r := recs[|recs| - 1];
      CacheBindCounts(p, env);
      CacheKeys(p, env);
      TemplateIdsSnoc(recs);
      var prev := BuildCache(p, env);
      if r.templateId !in prev.cache {
        var log := prev.log + [Bind(r)];
        assert log[..|log| - 1] == prev.log;
      }
    }
  }
}
