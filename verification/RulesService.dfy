/** The rule service itself: tables and caches updated in place, each request a refinement of its transition. */
module RulesService {
  import opened Common
  import opened Rules
  import opened StableSort
  import opened RuleEngine
  import opened RuleSafety

  lemma ByPriorityIsTotal()
    ensures TotalPreorder(ByPriority)
  {
  }

  /** Placing one more rule in an answer. */
  lemma {:induction false} InsertAnswers(rules: map<RuleId, Rule>, p: Rule -> bool, rule: Rule, list: seq<Rule>)
    requires rule.id !in rules && p(rule) && Keyed(rules) && Answers(rules, p, list)
    ensures Answers(rules[rule.id := rule], p, Insert(rule, list, ByPriority))
  {
    var inserted := Insert(rule, list, ByPriority);
    ByPriorityIsTotal();
    InsertSorted(rule, list, ByPriority);
    InsertMembers(rule, list);
  }

  lemma {:induction false} InsertMembers(rule: Rule, list: seq<Rule>)
    requires forall i, j :: 0 <= i < j < |list| ==> list[i].id != list[j].id
    requires forall i :: 0 <= i < |list| ==> list[i].id != rule.id
    ensures var inserted := Insert(rule, list, ByPriority);
      && (forall r :: r in inserted <==> r == rule || r in list)
      && (forall i, j :: 0 <= i < j < |inserted| ==> inserted[i].id != inserted[j].id)
  {
    if list != [] && !ByPriority(rule, list[0]) {
      InsertMembers(rule, list[1..]);
      var rest := Insert(rule, list[1..], ByPriority);
      forall j | 0 <= j < |rest| ensures rest[j].id != list[0].id {
        assert rest[j] == rule || rest[j] in list[1..];
      }
      assert forall r :: r in list <==> r == list[0] || r in list[1..];
    }
  }

  class Service {
    const world: World
    var workflows: map<string, string>
    var rules: map<RuleId, Rule>
    var snapshots: seq<Snapshot>
    var activeRuleCache: map<string, ActiveEntry>
    var simulationCache: map<string, SimulationEntry>

    function State(): Engine
      reads this
    {
      Engine(workflows, rules, snapshots, activeRuleCache, simulationCache)
    }

    ghost predicate Valid()
      reads this
    {
      Inv(world, State())
    }

    constructor (world: World, workflows: map<string, string>)
      ensures Valid() && this.world == world && State() == Start(workflows)
    {
      this.world := world;
      this.workflows := workflows;
      rules, snapshots := map[], [];
      activeRuleCache, simulationCache := map[], map[];
    }

    /** The rule table, queried: the rules that satisfy `p`, by priority. */
    method Query(p: Rule -> bool) returns (list: seq<Rule>)
      requires Keyed(rules)
      ensures Answers(rules, p, list)
    {
      list := [];
      var pending := rules.Keys;
      ghost var seen: map<RuleId, Rule> := map[];
      while pending != {}
        invariant pending <= rules.Keys
        invariant seen == map id | id in rules && id !in pending :: rules[id]
        invariant Answers(seen, p, list)
      {
        var id :| id in pending;
        pending := pending - {id};
        if p(rules[id]) {
          InsertAnswers(seen, p, rules[id], list);
          list := Insert(rules[id], list, ByPriority);
        }
        seen := seen[id := rules[id]];
      }
      assert seen == rules;
    }

    /** The conflict check: against the database, or against the pool an import passes in. */
    method EnsureNoConflict(candidate: Rule, exclude: Option<RuleId>, pool: Option<seq<Rule>>)
      returns (found: Option<Rule>)
      requires Keyed(rules)
      requires pool.Some? ==> exclude.None?
      ensures pool.None? ==> (found.Some? <==> Blocked(rules, candidate, exclude))
      ensures pool.None? && found.Some? ==> found.value.id in rules && Clash(candidate, rules[found.value.id])
      ensures pool.Some? ==> (found.Some? <==> ImportClash(candidate, pool.value))
    {
      if !candidate.content.isActive || !Contradictable(candidate.ruleType) {
        return None;
      }
      var candidates: seq<Rule>;
      if pool.Some? {
        candidates := pool.value;
      } else {
        candidates := Query(ActiveLike(candidate));
        QueryDecides(rules, candidate, exclude, candidates);
      }
      found := FindConflict(candidate, exclude, candidates);
      if pool.None? && found.Some? {
        FirstConflictIsMember(candidate, exclude, candidates);
      }
    }

    static lemma {:induction false} QueryDecides(rules: map<RuleId, Rule>, candidate: Rule,
                                                 exclude: Option<RuleId>, list: seq<Rule>)
      requires candidate.content.isActive && Contradictable(candidate.ruleType)
      requires Keyed(rules) && Answers(rules, ActiveLike(candidate), list)
      ensures FirstConflict(candidate, exclude, list).Some? <==> Blocked(rules, candidate, exclude)
    {
      FirstConflictFinds(candidate, exclude, list);
      if FirstConflict(candidate, exclude, list).Some? {
        var r :| r in list && Some(r.id) != exclude && Contradicts(candidate, r);
        assert Clash(candidate, rules[r.id]);
      }
      if Blocked(rules, candidate, exclude) {
        var id :| id in rules && Some(id) != exclude && Clash(candidate, rules[id]);
        assert ActiveLike(candidate)(rules[id]);
        assert rules[id] in list && Contradicts(candidate, rules[id]);
      }
    }

    static lemma {:induction false} FirstConflictIsMember(candidate: Rule, exclude: Option<RuleId>, pool: seq<Rule>)
      requires FirstConflict(candidate, exclude, pool).Some?
      ensures var r := FirstConflict(candidate, exclude, pool).value;
        r in pool && Some(r.id) != exclude && Contradicts(candidate, r)
    {
      if Some(pool[0].id) != exclude && Contradicts(candidate, pool[0]) {
      } else {
        FirstConflictIsMember(candidate, exclude, pool[1..]);
      }
    }

    method InvalidateOrgRuleCache(orgId: string)
      modifies this`activeRuleCache
      ensures activeRuleCache == old(activeRuleCache) - {orgId}
    {
      activeRuleCache := activeRuleCache - {orgId};
    }

    /** Delete, one key at a time, every simulation stored under the rule's prefix. */
    method InvalidateRuleSimulationCache(ruleId: RuleId)
      modifies this`simulationCache
      ensures simulationCache == ForgetSimulations(old(simulationCache), ruleId)
    {
      var pending := simulationCache.Keys;
      while pending != {}
        invariant pending <= old(simulationCache).Keys
        invariant simulationCache ==
          map key | key in old(simulationCache) && (key in pending || !(ruleId + ":" <= key)) ::
            old(simulationCache)[key]
      {
        var key :| key in pending;
        pending := pending - {key};
        if ruleId + ":" <= key {
          simulationCache := simulationCache - {key};
        }
      }
    }

    method SnapshotRuleVersion(rule: Rule, changedBy: string)
      modifies this`snapshots
      ensures snapshots == old(snapshots) + [Snapshot(rule.id, rule.version, rule.content, changedBy)]
    {
      snapshots := snapshots + [Snapshot(rule.id, rule.version, rule.content, changedBy)];
    }

    /** Snapshot, bump the version, save, invalidate both caches. */
    method SaveNextVersion(id: RuleId, content: Content, caller: Caller, now: int) returns (saved: Rule)
      requires Keyed(rules) && id in rules
      modifies this
      ensures State() == Revise(old(State()), id, content, caller, now)
      ensures saved == Revised(old(rules)[id], content, now)
    {
      var rule := rules[id];
      SnapshotRuleVersion(rule, caller.id);
      saved := rule.(content := content, version := rule.version + 1, updatedAt := now);
      rules := rules[id := saved];
      InvalidateOrgRuleCache(caller.orgId);
      InvalidateRuleSimulationCache(id);
    }

    method Create(item: NewRule, id: RuleId, caller: Caller, now: int) returns (outcome: Outcome)
      requires Valid() && id !in rules
      modifies this
      ensures Reply(State(), outcome) == RuleEngine.Create(old(State()), item, id, caller, now)
      ensures Kept(world, old(State()), State())
    {
      CreateKeeps(world, State(), item, id, caller, now);
      if !Manages(caller) {
        return Refused(Forbidden);
      }
      var error := ScopeError(workflows, item, caller.orgId);
      if error.Some? {
        return Refused(error.value);
      }
      var candidate := BuildRule(item, id, 1, true, caller, now);
      var conflicting := EnsureNoConflict(candidate, None, None);
      if conflicting.Some? {
        return Refused(RuleConflict);
      }
      rules := rules[id := candidate];
      InvalidateOrgRuleCache(caller.orgId);
      InvalidateRuleSimulationCache(id);
      return Saved(candidate);
    }

    method Update(id: RuleId, patch: RulePatch, caller: Caller, now: int) returns (outcome: Outcome)
      requires Valid()
      modifies this
      ensures Reply(State(), outcome) == RuleEngine.Update(old(State()), id, patch, caller, now)
      ensures Kept(world, old(State()), State())
    {
      HandleKeeps(world, State(), UpdateRequest(id, patch, caller, now));
      if !Manages(caller) {
        return Refused(Forbidden);
      }
      if !Owned(State(), id, caller.orgId) {
        return Refused(RuleNotFound);
      }
      var rule := rules[id];
      var next := Patched(rule.content, patch);
      if next == rule.content {
        return Saved(rule);
      }
      if next.isActive {
        var conflicting := EnsureNoConflict(rule.(content := next), Some(id), None);
        if conflicting.Some? {
          return Refused(RuleConflict);
        }
      }
      var saved := SaveNextVersion(id, next, caller, now);
      return Saved(saved);
    }

    method Activate(id: RuleId, caller: Caller, now: int) returns (outcome: Outcome)
      requires Valid()
      modifies this
      ensures Reply(State(), outcome) == RuleEngine.Activate(old(State()), id, caller, now)
      ensures Kept(world, old(State()), State())
    {
      HandleKeeps(world, State(), ActivateRequest(id, caller, now));
      if !Manages(caller) {
        return Refused(Forbidden);
      }
      if !Owned(State(), id, caller.orgId) {
        return Refused(RuleNotFound);
      }
      var rule := rules[id];
      if rule.content.isActive {
        return Saved(rule);
      }
      var content := rule.content.(isActive := true);
      var conflicting := EnsureNoConflict(rule.(content := content), Some(id), None);
      if conflicting.Some? {
        return Refused(RuleConflict);
      }
      var saved := SaveNextVersion(id, content, caller, now);
      return Saved(saved);
    }

    method Deactivate(id: RuleId, caller: Caller, now: int) returns (outcome: Outcome)
      requires Valid()
      modifies this
      ensures Reply(State(), outcome) == RuleEngine.Deactivate(old(State()), id, caller, now)
      ensures Kept(world, old(State()), State())
    {
      HandleKeeps(world, State(), DeactivateRequest(id, caller, now));
      if !Manages(caller) {
        return Refused(Forbidden);
      }
      if !Owned(State(), id, caller.orgId) {
        return Refused(RuleNotFound);
      }
      var rule := rules[id];
      if !rule.content.isActive {
        return Saved(rule);
      }
      var saved := SaveNextVersion(id, rule.content.(isActive := false), caller, now);
      return Saved(saved);
    }

    method SoftDelete(id: RuleId, caller: Caller, now: int) returns (outcome: Outcome)
      requires Valid()
      modifies this
      ensures Reply(State(), outcome) == RuleEngine.SoftDelete(old(State()), id, caller, now)
      ensures Kept(world, old(State()), State())
    {
      HandleKeeps(world, State(), DeleteRequest(id, caller, now));
      if !Manages(caller) {
        return Refused(Forbidden);
      }
      if !Owned(State(), id, caller.orgId) {
        return Refused(RuleNotFound);
      }
      if rules[id].content.isActive {
        var _ := SaveNextVersion(id, rules[id].content.(isActive := false), caller, now);
      } else {
        InvalidateOrgRuleCache(caller.orgId);
        InvalidateRuleSimulationCache(id);
      }
      return Deleted;
    }

    method GetCachedActiveRules(orgId: string, now: int, later: int) returns (list: seq<Rule>)
      requires Valid()
      modifies this`activeRuleCache
      ensures Reply(State(), Listed(list)) == ReadActive(old(State()), orgId, now, later, list)
      ensures Answers(rules, ActiveIn(orgId), list)
      ensures Kept(world, old(State()), State())
    {
      assert CoherentFor(State(), orgId);
      if orgId in activeRuleCache && activeRuleCache[orgId].expiresAt > now {
        list := activeRuleCache[orgId].rules;
        ReadKeeps(world, State(), orgId, now, later, list);
        return;
      }
      list := Query(ActiveIn(orgId));
      ReadKeeps(world, State(), orgId, now, later, list);
      activeRuleCache := activeRuleCache[orgId := ActiveEntry(later + ACTIVE_RULE_CACHE_TTL_MS, list)];
    }

    /** Build and check the rules of a bundle one by one, each against the pool and those staged before it. */
    method StageBundle(pool: seq<Rule>, items: seq<NewRule>, ids: seq<RuleId>, caller: Caller, now: int)
      returns (result: Result<seq<Rule>, Error>)
      requires Keyed(rules) && |ids| == |items|
      ensures result == Stage(workflows, pool, items, ids, caller, now, [])
    {
      var staged: seq<Rule> := [];
      for i := 0 to |items|
        invariant Stage(workflows, pool, items, ids, caller, now, []) ==
                  Stage(workflows, pool, items[i..], ids[i..], caller, now, staged)
      {
        assert items[i..][1..] == items[i + 1..] && ids[i..][1..] == ids[i + 1..];
        var error := ScopeError(workflows, items[i], caller.orgId);
        if error.Some? {
          return Err(error.value);
        }
        var candidate := BuildImported(items[i], ids[i], caller, now);
        if candidate.content.isActive {
          var conflicting := EnsureNoConflict(candidate, None, Some(pool + staged));
          if conflicting.Some? {
            return Err(RuleConflict);
          }
        }
        staged := staged + [candidate];
      }
      return Ok(staged);
    }

    method SaveStaged(staged: seq<Rule>)
      modifies this`rules
      ensures rules == SaveAll(old(rules), staged)
    {
      for i := 0 to |staged|
        invariant rules == SaveFirst(old(rules), staged, i)
      {
        rules := rules[staged[i].id := staged[i]];
      }
    }

    /** `activeRules` is the list the import worked with; all or nothing of the bundle is saved. */
    method ImportRules(items: seq<NewRule>, ids: seq<RuleId>, caller: Caller, now: int, later: int)
      returns (outcome: Outcome, ghost activeRules: seq<Rule>)
      requires Valid() && |ids| == |items|
      requires forall i, j :: 0 <= i < j < |ids| ==> ids[i] != ids[j]
      requires forall i :: 0 <= i < |ids| ==> ids[i] !in rules
      modifies this
      ensures Answers(old(rules), ActiveIn(caller.orgId), activeRules)
      ensures Reply(State(), outcome) == Import(old(State()), items, ids, caller, now, later, activeRules)
      ensures Kept(world, old(State()), State())
    {
      if !Manages(caller) {
        activeRules := Query(ActiveIn(caller.orgId));
        ImportKeeps(world, State(), items, ids, caller, now, later, activeRules);
        return Refused(Forbidden), activeRules;
      }
      var pool := GetCachedActiveRules(caller.orgId, now, later);
      activeRules := pool;
      ImportKeeps(world, old(State()), items, ids, caller, now, later, activeRules);
      var result := StageBundle(pool, items, ids, caller, now);
      if result.Err? {
        return Refused(result.error), activeRules;
      }
      var staged := result.value;
      SaveStaged(staged);
      InvalidateOrgRuleCache(caller.orgId);
      return Imported(staged), activeRules;
    }

    method TestRule(id: RuleId, agent: AgentType, sample: string, caller: Caller, now: int, later: int, reachable: bool)
      returns (outcome: Outcome)
      requires Valid()
      modifies this
      ensures Reply(State(), outcome) ==
        RuleEngine.TestRule(world, old(State()), id, agent, sample, caller, now, later, reachable)
      ensures Kept(world, old(State()), State())
    {
      TestKeeps(world, State(), id, agent, sample, caller, now, later, reachable);
      if !Owned(State(), id, caller.orgId) {
        return Refused(RuleNotFound);
      }
      var key := SimulationKey(world, id, agent, sample);
      if key in simulationCache && simulationCache[key].expiresAt > now {
        return Simulated(simulationCache[key].result);
      }
      if !reachable {
        return Refused(BadGateway);
      }
      var result := Simulate(world, rules[id], agent, sample);
      simulationCache := simulationCache[key := SimulationEntry(later + SIMULATION_CACHE_TTL_MS, result)];
      return Simulated(result);
    }
  }
}
