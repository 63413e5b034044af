/**
 * What each request to the rule engine answers and leaves behind, field by field, and which rules can be
 * active together.
 */
module RuleOperations {
  import opened Common
  import opened Rules
  import opened StableSort
  import opened RuleEngine
  import opened RuleSafety
  import opened RuleConflicts

  predicate MayManage(caller: Caller) {
    caller.orgId != "" && caller.role in {Admin, BusinessAnalyst}
  }

  // ---------- conflicts with stored rules ----------

  /** Another active rule of the same organisation, type, scope, agent and workflow contradicts the candidate. */
  ghost predicate InConflict(rules: map<RuleId, Rule>, candidate: Rule, id: RuleId) {
    && candidate.content.isActive && candidate.ruleType in {ActorMapping, StructuralConstraint}
    && exists k :: k in rules && k != id && rules[k].content.isActive && SameSpot(candidate, rules[k])
                   && Contradicts(candidate, rules[k])
  }

  predicate SameSpot(a: Rule, b: Rule) {
    && a.orgId == b.orgId && a.ruleType == b.ruleType && a.scope == b.scope
    && a.targetAgent == b.targetAgent && a.workflowId == b.workflowId
  }

  lemma BlockedIsInConflict(rules: map<RuleId, Rule>, candidate: Rule, id: RuleId)
    ensures Blocked(rules, candidate, Some(id)) <==> InConflict(rules, candidate, id)
    ensures id !in rules ==> (Blocked(rules, candidate, None) <==> InConflict(rules, candidate, id))
  {
    forall k | k in rules
      ensures Clash(candidate, rules[k]) <==>
        && candidate.content.isActive && candidate.ruleType in {ActorMapping, StructuralConstraint}
        && rules[k].content.isActive && SameSpot(candidate, rules[k]) && Contradicts(candidate, rules[k])
    {
    }
    if InConflict(rules, candidate, id) {
      var k :| k in rules && k != id && rules[k].content.isActive && SameSpot(candidate, rules[k])
        && Contradicts(candidate, rules[k]);
      assert Clash(candidate, rules[k]);
    }
  }

  /**
   * In every reachable state: two active mappings of one organisation, scope, agent and workflow whose
   * conditions share something and name the same source name the same target, if they name any.
   */
  lemma {:induction false} ReachableMappingsAgree(w: World, workflows: map<string, string>, requests: seq<Request>,
                                                  a: RuleId, b: RuleId)
    requires AdmissibleRun(w, Start(workflows), requests)
    requires var rules := Run(w, Start(workflows), requests).rules;
      && a in rules && b in rules && a != b
      && rules[a].content.isActive && rules[b].content.isActive && SameSpot(rules[a], rules[b])
    ensures var rules := Run(w, Start(workflows), requests).rules;
      var l, r := rules[a].content.condition, rules[b].content.condition;
      && (rules[a].ruleType == ActorMapping && Share(l, r)
          && NameAlike(l, r, ["source_label", "source", "actor", "alias"])
          && BothName(l, r, ["canonical", "canonical_actor", "target", "mapped_actor"])
          ==> NameAlike(l, r, ["canonical", "canonical_actor", "target", "mapped_actor"]))
      && (rules[a].ruleType == StructuralConstraint && Share(l, r)
          && NameAlike(l, r, ["structure", "pattern", "element"])
          && BothName(l, r, ["mode", "constraint", "requirement"])
          ==> NameAlike(l, r, ["mode", "constraint", "requirement"]))
  {
    ReachableIsConflictFree(w, workflows, requests, a, b);
    var rules := Run(w, Start(workflows), requests).rules;
    ContradictsIff(rules[a], rules[b]);
  }

  // ---------- creating ----------

  /** A workflow scope comes with a workflow, an organisation scope without, an agent scope with an agent. */
  predicate ShapeFits(item: NewRule) {
    match item.scope
    case WorkflowScope => item.workflowId.Some?
    case OrgScope => item.workflowId.None?
    case AgentScope => item.targetAgent.Some?
  }

  predicate WorkflowFits(workflows: map<string, string>, item: NewRule, orgId: string) {
    item.workflowId.Some? ==> item.workflowId.value in workflows && workflows[item.workflowId.value] == orgId
  }

  /** The rule holds what the item says, texts trimmed, for the caller's organisation. */
  ghost predicate Holds(rule: Rule, item: NewRule, id: RuleId, caller: Caller, now: int) {
    && rule.id == id && rule.orgId == caller.orgId && rule.createdBy == caller.id
    && rule.createdAt == rule.updatedAt == now
    && rule.workflowId == item.workflowId && rule.ruleType == item.ruleType && rule.scope == item.scope
    && rule.targetAgent == item.targetAgent && rule.content.condition == item.condition
    && TrimmedTo(item.name, rule.name) && TrimmedTo(item.instruction, rule.content.instruction)
    && (item.description.None? <==> rule.description.None?)
    && (item.description.Some? ==> TrimmedTo(item.description.value, rule.description.value))
    && (item.priority.Some? ==> rule.content.priority == item.priority.value)
    && (item.priority.None? ==> rule.content.priority == 100)
  }

  lemma BuiltHolds(item: NewRule, id: RuleId, version: int, isActive: bool, caller: Caller, now: int)
    ensures var rule := BuildRule(item, id, version, isActive, caller, now);
      Holds(rule, item, id, caller, now) && rule.version == version && rule.content.isActive == isActive
  {
    TrimTrims(item.name);
    TrimTrims(item.instruction);
    TrimTrims(item.description.GetOr(""));
  }

  lemma ScopeErrorIs(workflows: map<string, string>, item: NewRule, orgId: string)
    ensures ScopeError(workflows, item, orgId).None? <==> ShapeFits(item) && WorkflowFits(workflows, item, orgId)
    ensures ScopeError(workflows, item, orgId) == Some(BadScope) <==> !ShapeFits(item)
    ensures ScopeError(workflows, item, orgId) == Some(WorkflowNotFound) <==>
      ShapeFits(item) && !WorkflowFits(workflows, item, orgId)
  {
  }

  /** Of the caches, only the organisation's list and the rule's simulations are forgotten. */
  ghost predicate Forgets(before: Engine, after: Engine, orgId: string, id: RuleId) {
    && after.active == before.active - {orgId}
    && (forall key :: key in after.simulations <==> key in before.simulations && !(id + ":" <= key))
    && (forall key :: key in after.simulations ==> after.simulations[key] == before.simulations[key])
  }

  /**
   * A creation: who may not is refused, what has a wrong scope is refused, what conflicts with a stored
   * rule is refused, each without a trace; anything else is stored as version 1, active, with all the item
   * says and nothing else changed in the tables.
   */
  lemma CreateAnswers(e: Engine, item: NewRule, id: RuleId, caller: Caller, now: int) returns (candidate: Rule)
    requires id !in e.rules
    ensures Holds(candidate, item, id, caller, now) && candidate.version == 1 && candidate.content.isActive
    ensures Create(e, item, id, caller, now).outcome ==
      if !MayManage(caller) then Refused(Forbidden)
      else if !ShapeFits(item) then Refused(BadScope)
      else if !WorkflowFits(e.workflows, item, caller.orgId) then Refused(WorkflowNotFound)
      else if InConflict(e.rules, candidate, id) then Refused(RuleConflict)
      else Saved(candidate)
    ensures var r := Create(e, item, id, caller, now);
      && (r.outcome.Refused? ==> r.engine == e)
      && (r.outcome.Saved? ==>
            && r.engine.rules == e.rules[id := candidate] && r.engine.snapshots == e.snapshots
            && r.engine.workflows == e.workflows && Forgets(e, r.engine, caller.orgId, id))
  {
    candidate := BuildRule(item, id, 1, true, caller, now);
    BuiltHolds(item, id, 1, true, caller, now);
    ScopeErrorIs(e.workflows, item, caller.orgId);
    BlockedIsInConflict(e.rules, candidate, id);
  }

  /** So a mapping of a source that is mapped to another target already is refused, and nothing is stored. */
  lemma CreateRefusesOtherTarget(e: Engine, item: NewRule, id: RuleId, caller: Caller, now: int, k: RuleId)
    requires id !in e.rules && MayManage(caller) && ShapeFits(item) && WorkflowFits(e.workflows, item, caller.orgId)
    requires k in e.rules && e.rules[k].content.isActive && item.ruleType == e.rules[k].ruleType == ActorMapping
    requires e.rules[k].orgId == caller.orgId && e.rules[k].scope == item.scope
    requires e.rules[k].targetAgent == item.targetAgent && e.rules[k].workflowId == item.workflowId
    requires var l, r := item.condition, e.rules[k].content.condition;
      && Share(l, r) && NameAlike(l, r, ["source_label", "source", "actor", "alias"])
      && BothName(l, r, ["canonical", "canonical_actor", "target", "mapped_actor"])
      && !NameAlike(l, r, ["canonical", "canonical_actor", "target", "mapped_actor"])
    ensures Create(e, item, id, caller, now) == Reply(e, Refused(RuleConflict))
  {
    var candidate := CreateAnswers(e, item, id, caller, now);
    ContradictsIff(candidate, e.rules[k]);
    assert SameSpot(candidate, e.rules[k]);
    assert InConflict(e.rules, candidate, id);
  }

  // ---------- changing ----------

  /** The content after a patch: what the patch names, the instruction trimmed, and the rest as it was. */
  ghost predicate Follows(patch: RulePatch, before: Content, after: Content) {
    && (patch.instruction.Some? ==> TrimmedTo(patch.instruction.value, after.instruction))
    && (patch.instruction.None? ==> after.instruction == before.instruction)
    && (patch.condition.Some? ==> after.condition == patch.condition.value)
    && (patch.condition.None? ==> after.condition == before.condition)
    && (patch.priority.Some? ==> after.priority == patch.priority.value)
    && (patch.priority.None? ==> after.priority == before.priority)
    && (patch.isActive.Some? ==> after.isActive == patch.isActive.value)
    && (patch.isActive.None? ==> after.isActive == before.isActive)
  }

  /**
   * The rule comes to hold `content`: nothing happens if it does already; a conflict is refused without a
   * trace; otherwise the old content is recorded under the old version, and the rule takes the next.
   */
  ghost predicate Comes(e: Engine, r: Reply, id: RuleId, content: Content, caller: Caller, now: int)
    requires id in e.rules
  {
    var old_ := e.rules[id];
    if content == old_.content then r == Reply(e, Saved(old_))
    else if InConflict(e.rules, old_.(content := content), id) then r == Reply(e, Refused(RuleConflict))
    else
      r.outcome.Saved? && var rule := r.outcome.rule;
      && rule == old_.(content := content, version := old_.version + 1, updatedAt := now)
      && Stored(e, r.engine, id, rule, caller)
  }

  /** The next version is in the table, the last one among the snapshots. */
  ghost predicate Stored(e: Engine, after: Engine, id: RuleId, rule: Rule, caller: Caller)
    requires id in e.rules
  {
    && after.rules == e.rules[id := rule]
    && after.snapshots == e.snapshots + [Snapshot(id, e.rules[id].version, e.rules[id].content, caller.id)]
    && after.workflows == e.workflows && Forgets(e, after, caller.orgId, id)
  }

  lemma ChangeComes(e: Engine, id: RuleId, content: Content, caller: Caller, now: int)
    requires id in e.rules
    ensures Comes(e, Change(e, id, content, caller, now), id, content, caller, now)
  {
    BlockedIsInConflict(e.rules, e.rules[id].(content := content), id);
  }

  predicate Mine(e: Engine, id: RuleId, caller: Caller) {
    id in e.rules && e.rules[id].orgId == caller.orgId
  }

  lemma UpdateAnswers(e: Engine, id: RuleId, patch: RulePatch, caller: Caller, now: int) returns (content: Content)
    ensures var r := Update(e, id, patch, caller, now);
      && (!MayManage(caller) ==> r == Reply(e, Refused(Forbidden)))
      && (MayManage(caller) && !Mine(e, id, caller) ==> r == Reply(e, Refused(RuleNotFound)))
      && (MayManage(caller) && Mine(e, id, caller) ==>
            Follows(patch, e.rules[id].content, content) && Comes(e, r, id, content, caller, now))
  {
    content := Content("", None, 0, false);
    if MayManage(caller) && Mine(e, id, caller) {
      content := Patched(e.rules[id].content, patch);
      TrimTrims(patch.instruction.GetOr(""));
      ChangeComes(e, id, content, caller, now);
    }
  }

  /** Activating and deactivating change nothing of a rule's content but whether it is active. */
  lemma ToggleAnswers(e: Engine, id: RuleId, caller: Caller, now: int, active: bool)
    ensures var r := if active then Activate(e, id, caller, now) else Deactivate(e, id, caller, now);
      && (!MayManage(caller) ==> r == Reply(e, Refused(Forbidden)))
      && (MayManage(caller) && !Mine(e, id, caller) ==> r == Reply(e, Refused(RuleNotFound)))
      && (MayManage(caller) && Mine(e, id, caller) ==>
            var was := e.rules[id].content;
            Comes(e, r, id, Content(was.instruction, was.condition, was.priority, active), caller, now))
      && (!active ==> r.outcome != Refused(RuleConflict))
  {
    if MayManage(caller) && Mine(e, id, caller) {
      ChangeComes(e, id, e.rules[id].content.(isActive := active), caller, now);
    }
  }

  /** A deletion keeps the rule, inactive; only one that was active gets a version more. */
  lemma DeleteAnswers(e: Engine, id: RuleId, caller: Caller, now: int)
    ensures var r := SoftDelete(e, id, caller, now);
      && (!MayManage(caller) ==> r == Reply(e, Refused(Forbidden)))
      && (MayManage(caller) && !Mine(e, id, caller) ==> r == Reply(e, Refused(RuleNotFound)))
      && (MayManage(caller) && Mine(e, id, caller) ==> r.outcome == Deleted && IsDeleted(e, r.engine, id, caller, now))
  {
  }

  ghost predicate IsDeleted(e: Engine, after: Engine, id: RuleId, caller: Caller, now: int)
    requires id in e.rules
  {
    var was := e.rules[id].content;
    if was.isActive then
      var content := Content(was.instruction, was.condition, was.priority, false);
      var rule := e.rules[id].(content := content, version := e.rules[id].version + 1, updatedAt := now);
      Stored(e, after, id, rule, caller)
    else
      after.rules == e.rules && after.snapshots == e.snapshots && Forgets(e, after, caller.orgId, id)
  }

  // ---------- importing ----------

  ghost predicate ImportedAs(rule: Rule, item: NewRule, id: RuleId, caller: Caller, now: int) {
    && Holds(rule, item, id, caller, now)
    && rule.version == (if item.version.Some? then item.version.value else 1)
    && rule.content.isActive == (if item.isActive.Some? then item.isActive.value else true)
  }

  lemma CandidateImportedAs(items: seq<NewRule>, ids: seq<RuleId>, caller: Caller, now: int, i: nat)
    requires |ids| == |items| && i < |items|
    ensures ImportedAs(Candidates(items, ids, caller, now)[i], items[i], ids[i], caller, now)
  {
    BuiltHolds(items[i], ids[i], items[i].version.GetOr(1), items[i].isActive.GetOr(true), caller, now);
  }

  /** The tables and caches after a bundle was stored: its rules are added, and nothing else changes but the list. */
  ghost predicate BundleStored(e: Engine, after: Engine, imported: seq<Rule>, ids: seq<RuleId>, orgId: string)
    requires |imported| == |ids|
  {
    && (forall i :: 0 <= i < |ids| ==> ids[i] in after.rules && after.rules[ids[i]] == imported[i])
    && (forall id :: id in e.rules ==> id in after.rules && after.rules[id] == e.rules[id])
    && (forall id :: id in after.rules ==> id in e.rules || exists i :: 0 <= i < |ids| && ids[i] == id)
    && after.snapshots == e.snapshots && after.simulations == e.simulations && orgId !in after.active
  }

  lemma CandidatesStored(e: Engine, after: Engine, items: seq<NewRule>, ids: seq<RuleId>, caller: Caller, now: int)
    requires |ids| == |items| && after.rules == SaveAll(e.rules, Candidates(items, ids, caller, now))
    requires forall i, j :: 0 <= i < j < |ids| ==> ids[i] != ids[j]
    requires forall i :: 0 <= i < |ids| ==> ids[i] !in e.rules
    requires after.snapshots == e.snapshots && after.simulations == e.simulations && caller.orgId !in after.active
    ensures BundleStored(e, after, Candidates(items, ids, caller, now), ids, caller.orgId)
  {
    var candidates := Candidates(items, ids, caller, now);
    assert forall i :: 0 <= i < |items| ==> candidates[i].id == ids[i];
    SaveAllSaves(e.rules, candidates);
  }

  /**
   * An import that succeeds stores one rule per item, in order, each with what the item says, version 1
   * and active unless it says otherwise, and leaves the stored rules, snapshots and simulations alone.
   */
  lemma {:induction false} ImportAnswers(w: World, e: Engine, items: seq<NewRule>, ids: seq<RuleId>, caller: Caller,
                                         now: int, later: int, fetched: seq<Rule>)
    requires Inv(w, e) && Admissible(e, ImportRequest(items, ids, caller, now, later, fetched))
    ensures var r := Import(e, items, ids, caller, now, later, fetched);
      && (!MayManage(caller) ==> r == Reply(e, Refused(Forbidden)))
      && (r.outcome.Refused? ||
           (&& r.outcome.Imported? && |r.outcome.imported| == |items|
            && (forall i :: 0 <= i < |items| ==> ImportedAs(r.outcome.imported[i], items[i], ids[i], caller, now))
            && BundleStored(e, r.engine, r.outcome.imported, ids, caller.orgId)))
  {
    var r := Import(e, items, ids, caller, now, later, fetched);
    if MayManage(caller) && !r.outcome.Refused? {
      ImportRefusesIff(w, e, items, ids, caller, now, later, fetched);
      forall i | 0 <= i < |items|
        ensures ImportedAs(Candidates(items, ids, caller, now)[i], items[i], ids[i], caller, now)
      {
        CandidateImportedAs(items, ids, caller, now, i);
      }
      CandidatesStored(e, r.engine, items, ids, caller, now);
    }
  }

  // ---------- the caches over time ----------

  /** A list that is fetched at `later` is served for a minute, and not after. */
  lemma ListServedForAMinute(e: Engine, orgId: string, now: int, later: int, fetched: seq<Rule>, then_: int,
                             afterwards: int, refetched: seq<Rule>)
    requires orgId !in e.active
    ensures var filled := ReadActive(e, orgId, now, later, fetched);
      var again := ReadActive(filled.engine, orgId, then_, afterwards, refetched);
      && filled.outcome == Listed(fetched)
      && again.outcome == Listed(if then_ < later + 60_000 then fetched else refetched)
      && (then_ < later + 60_000 ==> again.engine == filled.engine)
  {
  }

  /** A simulation is the endpoint's answers with and without the rule, served for five minutes and not after. */
  lemma SimulationServedForFiveMinutes(w: World, e: Engine, id: RuleId, agent: AgentType, sample: string,
                                       caller: Caller, now: int, later: int, then_: int, afterwards: int,
                                       reachable: bool)
    requires Mine(e, id, caller) && SimulationKey(w, id, agent, sample) !in e.simulations
    ensures var fresh_ := Simulation(w.simulate(Some(e.rules[id]), sample, agent), w.simulate(None, sample, agent));
      var first := TestRule(w, e, id, agent, sample, caller, now, later, true);
      var again := TestRule(w, first.engine, id, agent, sample, caller, then_, afterwards, reachable);
      && first.outcome == Simulated(fresh_)
      && again.outcome == (if then_ < later + 300_000 || reachable then Simulated(fresh_) else Refused(BadGateway))
      && (then_ < later + 300_000 ==> again.engine == first.engine)
  {
  }

  lemma TestAnswers(w: World, e: Engine, id: RuleId, agent: AgentType, sample: string, caller: Caller,
                    now: int, later: int, reachable: bool)
    ensures var r := TestRule(w, e, id, agent, sample, caller, now, later, reachable);
      && (!Mine(e, id, caller) ==> r == Reply(e, Refused(RuleNotFound)))
      && r.engine.rules == e.rules && r.engine.snapshots == e.snapshots && r.engine.active == e.active
  {
  }

  /** An answer of the database is ordered by priority, and among equals by the last change. */
  lemma AnswersAreOrdered(rules: map<RuleId, Rule>, p: Rule -> bool, list: seq<Rule>, i: nat, j: nat)
    requires Answers(rules, p, list) && i < j < |list|
    ensures list[i].content.priority >= list[j].content.priority
    ensures list[i].content.priority == list[j].content.priority ==> list[i].updatedAt >= list[j].updatedAt
  {
  }
}
