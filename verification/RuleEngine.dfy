/**
 * The rule engine as a state machine: the `rule` and `rule_version` tables, the cache of
 * active rules per organisation and the cache of simulation results. Requests are atomic.
 */
module RuleEngine {
  import opened Common
  import opened Rules
  import opened StableSort

  const ACTIVE_RULE_CACHE_TTL_MS := 60_000
  const SIMULATION_CACHE_TTL_MS := 300_000

  datatype Role = Admin | ProcessOwner | BusinessAnalyst | Reviewer | Viewer

  datatype Caller = Caller(id: string, orgId: string, role: Role)

  datatype Snapshot = Snapshot(ruleId: RuleId, version: int, content: Content, changedBy: string)

  datatype ActiveEntry = ActiveEntry(expiresAt: int, rules: seq<Rule>)

  datatype Simulation = Simulation(withRule: Json, withoutRule: Json)

  datatype SimulationEntry = SimulationEntry(expiresAt: int, result: Simulation)

  /** `workflows` gives the organisation of each workflow; the engine only reads it. */
  datatype Engine = Engine(
    workflows: map<string, string>,
    rules: map<RuleId, Rule>,
    snapshots: seq<Snapshot>,
    active: map<string, ActiveEntry>,
    simulations: map<string, SimulationEntry>)

  /** The digest of a sample text, and the simulation endpoint; both are deterministic. */
  datatype World = World(hash: string -> string, simulate: (Option<Rule>, string, AgentType) -> Json)

  datatype Error = Forbidden | BadScope | WorkflowNotFound | RuleNotFound | RuleConflict | BadGateway

  datatype Outcome =
    | Saved(rule: Rule)
    | Deleted
    | Imported(imported: seq<Rule>)
    | Listed(listed: seq<Rule>)
    | Simulated(result: Simulation)
    | Refused(error: Error)

  datatype Reply = Reply(engine: Engine, outcome: Outcome)

  datatype NewRule = NewRule(
    name: string,
    description: Option<string>,
    ruleType: RuleType,
    scope: RuleScope,
    workflowId: Option<string>,
    targetAgent: Option<AgentType>,
    condition: Condition,
    instruction: string,
    priority: Option<int>,
    version: Option<int>,
    isActive: Option<bool>)

  datatype RulePatch = RulePatch(
    instruction: Option<string>, condition: Option<Condition>, priority: Option<int>, isActive: Option<bool>)

  // ---------- queries ----------

  /** ORDER BY priority DESC, updated_at DESC. */
  predicate ByPriority(a: Rule, b: Rule) {
    a.content.priority > b.content.priority || (a.content.priority == b.content.priority && a.updatedAt >= b.updatedAt)
  }

  /**
   * `list` is an answer the database may give to "the rules that satisfy `p`, by priority":
   * each of them once, in order. Rules that tie may come in any order.
   */
  ghost predicate Answers(rules: map<RuleId, Rule>, p: Rule -> bool, list: seq<Rule>) {
    && (forall r :: r in list ==> r.id in rules && rules[r.id] == r && p(r))
    && (forall id :: id in rules && p(rules[id]) ==> rules[id] in list)
    && (forall i, j :: 0 <= i < j < |list| ==> list[i].id != list[j].id)
    && Sorted(list, ByPriority)
  }

  function ActiveIn(orgId: string): Rule -> bool {
    (r: Rule) => r.orgId == orgId && r.content.isActive
  }

  function ActiveLike(candidate: Rule): Rule -> bool {
    (r: Rule) => r.content.isActive && SameTarget(candidate, r)
  }

  /** Two active rules of a contradictable type, aimed at the same target, that contradict each other. */
  predicate Clash(a: Rule, b: Rule) {
    && a.content.isActive && b.content.isActive && Contradictable(a.ruleType)
    && SameTarget(a, b) && Contradicts(a, b)
  }

  /** Some stored rule other than `exclude` clashes with the candidate. */
  predicate Blocked(rules: map<RuleId, Rule>, candidate: Rule, exclude: Option<RuleId>) {
    exists id :: id in rules && Some(id) != exclude && Clash(candidate, rules[id])
  }

  // ---------- requests ----------

  predicate Manages(caller: Caller) {
    caller.orgId != "" && (caller.role == Admin || caller.role == BusinessAnalyst)
  }

  function ScopeError(workflows: map<string, string>, item: NewRule, orgId: string): Option<Error> {
    if item.scope == WorkflowScope && item.workflowId.None? then Some(BadScope)
    else if item.scope == OrgScope && item.workflowId.Some? then Some(BadScope)
    else if item.scope == AgentScope && item.targetAgent.None? then Some(BadScope)
    else if item.workflowId.Some?
      && (item.workflowId.value !in workflows || workflows[item.workflowId.value] != orgId) then Some(WorkflowNotFound)
    else None
  }

  function BuildRule(item: NewRule, id: RuleId, version: int, isActive: bool, caller: Caller, now: int): Rule {
    Rule(id, caller.orgId, item.workflowId, Trim(item.name),
         if item.description.Some? then Some(Trim(item.description.value)) else None,
         item.ruleType, item.scope, item.targetAgent,
         Content(Trim(item.instruction), item.condition, item.priority.GetOr(100), isActive),
         version, caller.id, now, now)
  }

  function ForgetSimulations(simulations: map<string, SimulationEntry>, id: RuleId): map<string, SimulationEntry> {
    map key | key in simulations && !(id + ":" <= key) :: simulations[key]
  }

  /** What every mutation ends with: drop the organisation's list and the rule's simulations. */
  function Invalidate(e: Engine, orgId: string, id: RuleId): Engine {
    e.(active := e.active - {orgId}, simulations := ForgetSimulations(e.simulations, id))
  }

  function Create(e: Engine, item: NewRule, id: RuleId, caller: Caller, now: int): Reply {
    if !Manages(caller) then Reply(e, Refused(Forbidden))
    else if ScopeError(e.workflows, item, caller.orgId).Some? then
      Reply(e, Refused(ScopeError(e.workflows, item, caller.orgId).value))
    else
      var rule := BuildRule(item, id, 1, true, caller, now);
      if Blocked(e.rules, rule, None) then Reply(e, Refused(RuleConflict))
      else Reply(Invalidate(e.(rules := e.rules[id := rule]), caller.orgId, id), Saved(rule))
  }

  predicate Owned(e: Engine, id: RuleId, orgId: string) {
    id in e.rules && e.rules[id].orgId == orgId
  }

  function Patched(content: Content, patch: RulePatch): Content {
    Content(
      if patch.instruction.Some? then Trim(patch.instruction.value) else content.instruction,
      patch.condition.GetOr(content.condition),
      patch.priority.GetOr(content.priority),
      patch.isActive.GetOr(content.isActive))
  }

  function Revised(rule: Rule, content: Content, now: int): Rule {
    rule.(content := content, version := rule.version + 1, updatedAt := now)
  }

  /** Snapshot the stored version, then save the next one. */
  function Revise(e: Engine, id: RuleId, content: Content, caller: Caller, now: int): Engine
    requires id in e.rules
  {
    var rule := e.rules[id];
    var snapshot := Snapshot(id, rule.version, rule.content, caller.id);
    Invalidate(e.(rules := e.rules[id := Revised(rule, content, now)], snapshots := e.snapshots + [snapshot]),
               caller.orgId, id)
  }

  /** The common part of update, activate and deactivate: nothing to do, a conflict, or a revision. */
  function Change(e: Engine, id: RuleId, content: Content, caller: Caller, now: int): Reply
    requires id in e.rules
  {
    var rule := e.rules[id];
    if content == rule.content then Reply(e, Saved(rule))
    else if Blocked(e.rules, rule.(content := content), Some(id)) then Reply(e, Refused(RuleConflict))
    else Reply(Revise(e, id, content, caller, now), Saved(Revised(rule, content, now)))
  }

  function Update(e: Engine, id: RuleId, patch: RulePatch, caller: Caller, now: int): Reply {
    if !Manages(caller) then Reply(e, Refused(Forbidden))
    else if !Owned(e, id, caller.orgId) then Reply(e, Refused(RuleNotFound))
    else Change(e, id, Patched(e.rules[id].content, patch), caller, now)
  }

  function Activate(e: Engine, id: RuleId, caller: Caller, now: int): Reply {
    if !Manages(caller) then Reply(e, Refused(Forbidden))
    else if !Owned(e, id, caller.orgId) then Reply(e, Refused(RuleNotFound))
    else Change(e, id, e.rules[id].content.(isActive := true), caller, now)
  }

  function Deactivate(e: Engine, id: RuleId, caller: Caller, now: int): Reply {
    if !Manages(caller) then Reply(e, Refused(Forbidden))
    else if !Owned(e, id, caller.orgId) then Reply(e, Refused(RuleNotFound))
    else Change(e, id, e.rules[id].content.(isActive := false), caller, now)
  }

  function SoftDelete(e: Engine, id: RuleId, caller: Caller, now: int): Reply {
    if !Manages(caller) then Reply(e, Refused(Forbidden))
    else if !Owned(e, id, caller.orgId) then Reply(e, Refused(RuleNotFound))
    else if e.rules[id].content.isActive then
      Reply(Revise(e, id, e.rules[id].content.(isActive := false), caller, now), Deleted)
    else Reply(Invalidate(e, caller.orgId, id), Deleted)
  }

  predicate CacheHit(e: Engine, orgId: string, now: int) {
    orgId in e.active && e.active[orgId].expiresAt > now
  }

  /** The cached list while it lasts, otherwise what the database answers (`fetched`, back at `later`). */
  function ReadActive(e: Engine, orgId: string, now: int, later: int, fetched: seq<Rule>): Reply {
    if CacheHit(e, orgId, now) then Reply(e, Listed(e.active[orgId].rules))
    else Reply(e.(active := e.active[orgId := ActiveEntry(later + ACTIVE_RULE_CACHE_TTL_MS, fetched)]), Listed(fetched))
  }

  function BuildImported(item: NewRule, id: RuleId, caller: Caller, now: int): Rule {
    BuildRule(item, id, item.version.GetOr(1), item.isActive.GetOr(true), caller, now)
  }

  /** The rules of a bundle, checked one by one against the active list and the rules staged so far. */
  function Stage(workflows: map<string, string>, activeRules: seq<Rule>, items: seq<NewRule>, ids: seq<RuleId>,
                 caller: Caller, now: int, staged: seq<Rule>): Result<seq<Rule>, Error>
    requires |ids| == |items|
    decreases |items|
  {
    if items == [] then Ok(staged)
    else if ScopeError(workflows, items[0], caller.orgId).Some? then
      Err(ScopeError(workflows, items[0], caller.orgId).value)
    else
      var candidate := BuildImported(items[0], ids[0], caller, now);
      if ImportClash(candidate, activeRules + staged) then Err(RuleConflict)
      else Stage(workflows, activeRules, items[1..], ids[1..], caller, now, staged + [candidate])
  }

  /** The check of an import compares with every rule of the pool, whatever its type, target or state. */
  predicate ImportClash(candidate: Rule, pool: seq<Rule>) {
    && candidate.content.isActive && Contradictable(candidate.ruleType)
    && FirstConflict(candidate, None, pool).Some?
  }

  function SaveAll(rules: map<RuleId, Rule>, staged: seq<Rule>): map<RuleId, Rule> {
    SaveFirst(rules, staged, |staged|)
  }

  function SaveFirst(rules: map<RuleId, Rule>, staged: seq<Rule>, n: nat): map<RuleId, Rule>
    requires n <= |staged|
  {
    if n == 0 then rules else SaveFirst(rules, staged, n - 1)[staged[n - 1].id := staged[n - 1]]
  }

  function Import(e: Engine, items: seq<NewRule>, ids: seq<RuleId>, caller: Caller, now: int, later: int,
                  fetched: seq<Rule>): Reply
    requires |ids| == |items|
  {
    if !Manages(caller) then Reply(e, Refused(Forbidden))
    else
      var read := ReadActive(e, caller.orgId, now, later, fetched);
      match Stage(e.workflows, read.outcome.listed, items, ids, caller, now, [])
      case Err(error) => Reply(read.engine, Refused(error))
      case Ok(staged) =>
        Reply(read.engine.(rules := SaveAll(e.rules, staged), active := read.engine.active - {caller.orgId}),
              Imported(staged))
  }

  function AgentName(agent: AgentType): string {
    match agent
    case Orchestrator => "ORCHESTRATOR"
    case Intake => "INTAKE"
    case ExtractionAgent => "EXTRACTION"
    case Pattern => "PATTERN"
    case GapDetection => "GAP_DETECTION"
    case Qa => "QA"
    case ValidationAgent => "VALIDATION"
    case Export => "EXPORT"
    case Divergence => "DIVERGENCE"
    case RulesSkillsLoader => "RULES_SKILLS_LOADER"
  }

  function SimulationKey(w: World, id: RuleId, agent: AgentType, sample: string): string {
    id + ":" + (AgentName(agent) + ":" + w.hash(sample))
  }

  function Simulate(w: World, rule: Rule, agent: AgentType, sample: string): Simulation {
    Simulation(w.simulate(Some(rule), sample, agent), w.simulate(None, sample, agent))
  }

  /** `reachable` says whether the simulation endpoint is configured. */
  function TestRule(w: World, e: Engine, id: RuleId, agent: AgentType, sample: string, caller: Caller,
                    now: int, later: int, reachable: bool): Reply
  {
    if !Owned(e, id, caller.orgId) then Reply(e, Refused(RuleNotFound))
    else
      var key := SimulationKey(w, id, agent, sample);
      if key in e.simulations && e.simulations[key].expiresAt > now then Reply(e, Simulated(e.simulations[key].result))
      else if !reachable then Reply(e, Refused(BadGateway))
      else
        var result := Simulate(w, e.rules[id], agent, sample);
        var entry := SimulationEntry(later + SIMULATION_CACHE_TTL_MS, result);
        Reply(e.(simulations := e.simulations[key := entry]), Simulated(result))
  }

  // ---------- runs ----------

  datatype Request =
    | CreateRequest(item: NewRule, id: RuleId, caller: Caller, now: int)
    | UpdateRequest(id: RuleId, patch: RulePatch, caller: Caller, now: int)
    | ActivateRequest(id: RuleId, caller: Caller, now: int)
    | DeactivateRequest(id: RuleId, caller: Caller, now: int)
    | DeleteRequest(id: RuleId, caller: Caller, now: int)
    | ImportRequest(items: seq<NewRule>, ids: seq<RuleId>, caller: Caller, now: int, later: int, fetched: seq<Rule>)
    | ReadRequest(orgId: string, now: int, later: int, fetched: seq<Rule>)
    | TestRequest(id: RuleId, agent: AgentType, sample: string, caller: Caller, now: int, later: int, reachable: bool)

  /** What the database guarantees of a request: generated ids are fresh, queries are answered. */
  ghost predicate Admissible(e: Engine, q: Request) {
    match q
    case CreateRequest(_, id, _, _) => id !in e.rules
    case ImportRequest(items, ids, caller, _, _, fetched) =>
      && |ids| == |items|
      && (forall i, j :: 0 <= i < j < |ids| ==> ids[i] != ids[j])
      && (forall i :: 0 <= i < |ids| ==> ids[i] !in e.rules)
      && Answers(e.rules, ActiveIn(caller.orgId), fetched)
    case ReadRequest(orgId, _, _, fetched) => Answers(e.rules, ActiveIn(orgId), fetched)
    case _ => true
  }

  function Handle(w: World, e: Engine, q: Request): Reply {
    match q
    case CreateRequest(item, id, caller, now) => Create(e, item, id, caller, now)
    case UpdateRequest(id, patch, caller, now) => Update(e, id, patch, caller, now)
    case ActivateRequest(id, caller, now) => Activate(e, id, caller, now)
    case DeactivateRequest(id, caller, now) => Deactivate(e, id, caller, now)
    case DeleteRequest(id, caller, now) => SoftDelete(e, id, caller, now)
    case ImportRequest(items, ids, caller, now, later, fetched) =>
      if |ids| == |items| then Import(e, items, ids, caller, now, later, fetched) else Reply(e, Deleted)
    case ReadRequest(orgId, now, later, fetched) => ReadActive(e, orgId, now, later, fetched)
    case TestRequest(id, agent, sample, caller, now, later, reachable) =>
      TestRule(w, e, id, agent, sample, caller, now, later, reachable)
  }

  function Run(w: World, e: Engine, requests: seq<Request>): Engine
    decreases |requests|
  {
    if requests == [] then e else Run(w, Handle(w, e, requests[0]).engine, requests[1..])
  }

  ghost predicate AdmissibleRun(w: World, e: Engine, requests: seq<Request>)
    decreases |requests|
  {
    requests == [] ||
    (Admissible(e, requests[0]) && AdmissibleRun(w, Handle(w, e, requests[0]).engine, requests[1..]))
  }

  function Start(workflows: map<string, string>): Engine {
    Engine(workflows, map[], [], map[], map[])
  }

  // ---------- invariants ----------

  ghost predicate Keyed(rules: map<RuleId, Rule>) {
    forall id :: id in rules ==> rules[id].id == id
  }

  ghost predicate Apart(rules: map<RuleId, Rule>, a: RuleId, b: RuleId) {
    a in rules && b in rules && a != b ==> !Clash(rules[a], rules[b])
  }

  ghost predicate ConflictFree(rules: map<RuleId, Rule>) {
    forall a, b :: Apart(rules, a, b)
  }

  ghost predicate CoherentFor(e: Engine, orgId: string) {
    orgId in e.active ==> Answers(e.rules, ActiveIn(orgId), e.active[orgId].rules)
  }

  ghost predicate Coherent(e: Engine) {
    forall orgId :: CoherentFor(e, orgId)
  }

  /** The entry under `key` is what simulating the stored rule would give now. */
  ghost predicate Fresh(w: World, rules: map<RuleId, Rule>, key: string, result: Simulation) {
    exists id, agent, sample :: id in rules && key == SimulationKey(w, id, agent, sample)
      && result == Simulate(w, rules[id], agent, sample)
  }

  ghost predicate FreshUnder(w: World, e: Engine, key: string) {
    key in e.simulations ==> Fresh(w, e.rules, key, e.simulations[key].result)
  }

  ghost predicate SimulationsFresh(w: World, e: Engine) {
    forall key :: FreshUnder(w, e, key)
  }

  /** The snapshots of one rule, oldest first. */
  function Of(snapshots: seq<Snapshot>, id: RuleId): seq<Snapshot>
    decreases |snapshots|
  {
    if snapshots == [] then []
    else
      var last := snapshots[|snapshots| - 1];
      Of(snapshots[..|snapshots| - 1], id) + (if last.ruleId == id then [last] else [])
  }

  /** One snapshot per version up to the stored one, no two consecutive versions alike. */
  ghost predicate Chained(rule: Rule, past: seq<Snapshot>) {
    && (forall i :: 0 <= i < |past| ==> past[i].version == rule.version - |past| + i)
    && (forall i :: 0 <= i < |past| - 1 ==> past[i].content != past[i + 1].content)
    && (|past| > 0 ==> past[|past| - 1].content != rule.content)
  }

  ghost predicate ChainedAt(e: Engine, id: RuleId) {
    id in e.rules ==> Chained(e.rules[id], Of(e.snapshots, id))
  }

  ghost predicate Versioned(e: Engine) {
    && (forall id :: ChainedAt(e, id))
    && (forall i :: 0 <= i < |e.snapshots| ==> e.snapshots[i].ruleId in e.rules)
  }

  ghost predicate Inv(w: World, e: Engine) {
    && Keyed(e.rules)
    && ConflictFree(e.rules)
    && Coherent(e)
    && SimulationsFresh(w, e)
    && Versioned(e)
  }

  /** The fields no request ever changes. */
  function Frozen(rule: Rule): Rule {
    rule.(content := Content("", None, 0, false), version := 0, updatedAt := 0)
  }

  /**
   * From `a` to `b` rules only grow new versions: the snapshots of `a` are a prefix of those
   * of `b`, every version is counted by a snapshot, and the state a rule had in `a` is either
   * its state in `b` or recorded by the first snapshot taken since.
   */
  ghost predicate RuleEvolves(x: Rule, before: seq<Snapshot>, y: Rule, after: seq<Snapshot>) {
    && Frozen(x) == Frozen(y)
    && before <= after
    && y.version - |after| == x.version - |before|
    && (|before| == |after| ==> x == y)
    && (|before| < |after| ==> after[|before|].content == x.content && after[|before|].version == x.version)
  }

  ghost predicate EvolvesAt(a: Engine, b: Engine, id: RuleId) {
    id in a.rules ==>
      id in b.rules && RuleEvolves(a.rules[id], Of(a.snapshots, id), b.rules[id], Of(b.snapshots, id))
  }

  ghost predicate Evolves(a: Engine, b: Engine) {
    forall id :: EvolvesAt(a, b, id)
  }

  // ---------- keys ----------

  lemma ColonSplits(a: RuleId, b: RuleId, rest: string)
    requires a + ":" <= b + ":" + rest
    ensures a == b
  {
    var s := b + ":" + rest;
    assert (a + ":")[|a|] == ':' && s[|a|] == ':' && s[|b|] == ':';
    assert a == s[..|a|] && b == s[..|b|];
  }

  /** The prefix test of the invalidation loop hits all keys of the rule and no other key. */
  lemma PrefixSelectsRule(w: World, id: RuleId, other: RuleId, agent: AgentType, sample: string)
    ensures id + ":" <= SimulationKey(w, other, agent, sample) <==> id == other
  {
    var rest := AgentName(agent) + ":" + w.hash(sample);
    if id + ":" <= SimulationKey(w, other, agent, sample) {
      ColonSplits(id, other, rest);
    } else {
      assert other + ":" <= other + ":" + rest;
    }
  }

  ghost predicate CollisionFree(w: World) {
    forall x, y :: w.hash(x) == w.hash(y) ==> x == y
  }

  lemma AgentNameHasNoColon(agent: AgentType)
    ensures ':' !in AgentName(agent)
  {
  }

  lemma AgentNameIsInjective(a: AgentType, b: AgentType)
    requires AgentName(a) == AgentName(b)
    ensures a == b
  {
    assert |AgentName(a)| == |AgentName(b)| && AgentName(a)[0] == AgentName(b)[0];
  }

  lemma SimulationKeyIsInjective(w: World, id: RuleId, agent: AgentType, sample: string,
                                 id': RuleId, agent': AgentType, sample': string)
    requires CollisionFree(w)
    requires SimulationKey(w, id, agent, sample) == SimulationKey(w, id', agent', sample')
    ensures id == id' && agent == agent' && sample == sample'
  {
    PrefixSelectsRule(w, id, id, agent, sample);
    PrefixSelectsRule(w, id, id', agent', sample');
    var name, name' := AgentName(agent), AgentName(agent');
    var rest, rest' := name + ":" + w.hash(sample), name' + ":" + w.hash(sample');
    assert rest == SimulationKey(w, id, agent, sample)[|id| + 1..];
    assert rest' == SimulationKey(w, id', agent', sample')[|id| + 1..];
    AgentNameHasNoColon(agent);
    AgentNameHasNoColon(agent');
    assert name + ":" <= name' + ":" + w.hash(sample') by {
      assert rest == name + ":" + w.hash(sample);
    }
    ColonSplits(name, name', w.hash(sample'));
    AgentNameIsInjective(agent, agent');
    assert w.hash(sample) == rest[|name| + 1..] && w.hash(sample') == rest'[|name| + 1..];
  }
}
