/**
 * Token and call counts that AI progress events add to an agent row and to its pipeline row. Both
 * counts are clamped at zero, each on its own.
 */
module TokenAccounting {
  import opened Common
  import Delivery = ResultDelivery

  type Id = string

  datatype Agent = Agent(id: Id, pipelineId: Id, failed: bool, calls: int, tokens: int)

  datatype Pipeline = Pipeline(sessionId: Id, paused: bool, calls: int, tokens: int)

  /** At most one agent row per id. */
  datatype Accounts = Accounts(agents: seq<Agent>, pipelines: map<Id, Pipeline>, handledIds: seq<string>)

  /** `known`: the organisation matches and the agent type has a definition. */
  datatype Event = Event(
    key: string, agentId: Id, pipelineId: Id, sessionId: Id, known: bool, failed: bool,
    callsDelta: Option<int>, tokensDelta: Option<int>)

  function Max(a: int, b: int): int {
    if a >= b then a else b
  }

  /** A count after an event: clamped at zero, or left alone when the event carries no delta. */
  function Bump(count: int, delta: Option<int>): int {
    if delta.Some? then Max(0, count + delta.value) else count
  }

  /** The place of the agent row with this id, from `i` on, or the number of rows. */
  function PlaceFrom(agents: seq<Agent>, id: Id, i: nat): (k: nat)
    requires i <= |agents|
    ensures i <= k <= |agents|
    ensures k < |agents| ==> agents[k].id == id
    ensures forall j :: i <= j < k ==> agents[j].id != id
    decreases |agents| - i
  {
    if i == |agents| || agents[i].id == id then i else PlaceFrom(agents, id, i + 1)
  }

  function Place(agents: seq<Agent>, id: Id): nat {
    PlaceFrom(agents, id, 0)
  }

  /** The row looked up by id and pipeline, or the fresh one with zero counts. */
  function Found(agents: seq<Agent>, e: Event): Agent {
    var k := Place(agents, e.agentId);
    if k < |agents| && agents[k].pipelineId == e.pipelineId then agents[k]
    else Agent(e.agentId, e.pipelineId, false, 0, 0)
  }

  /** Saving writes the row of that id, wherever it belonged before. */
  function SaveAgent(agents: seq<Agent>, a: Agent): seq<Agent> {
    var k := Place(agents, a.id);
    if k < |agents| then agents[k := a] else agents + [a]
  }

  function Charged(agents: seq<Agent>, e: Event): Agent {
    var a := Found(agents, e);
    a.(failed := e.failed, calls := Bump(a.calls, e.callsDelta), tokens := Bump(a.tokens, e.tokensDelta))
  }

  function Checkpoint(p: Pipeline, e: Event): Pipeline {
    p.(paused := e.failed, calls := Bump(p.calls, e.callsDelta), tokens := Bump(p.tokens, e.tokensDelta))
  }

  predicate Accepts(s: Accounts, e: Event) {
    && e.key !in s.handledIds && e.known
    && e.pipelineId in s.pipelines && s.pipelines[e.pipelineId].sessionId == e.sessionId
  }

  /** One run of the handler, of whose two row writes (agent, pipeline) the first `writes` succeed. */
  function Handle(s: Accounts, e: Event, writes: nat): (Accounts, bool) {
    if e.key in s.handledIds then (s, true)
    else if !Accepts(s, e) || writes == 0 then (s, false)
    else
      var s1 := s.(agents := SaveAgent(s.agents, Charged(s.agents, e)));
      if writes == 1 then (s1, false)
      else
        (s1.(pipelines := s1.pipelines[e.pipelineId := Checkpoint(s1.pipelines[e.pipelineId], e)],
             handledIds := Delivery.Mark(s1.handledIds, e.key)), true)
  }

  // ---------- sums over the agents of a pipeline ----------

  type Counter = Agent -> int

  const CALLS: Counter := (a: Agent) => a.calls
  const TOKENS: Counter := (a: Agent) => a.tokens

  function Share(a: Agent, pipelineId: Id, count: Counter): int {
    if a.pipelineId == pipelineId then count(a) else 0
  }

  /** The sum over the first `n` rows that belong to the pipeline. */
  function SumTo(agents: seq<Agent>, n: nat, pipelineId: Id, count: Counter): int
    requires n <= |agents|
  {
    if n == 0 then 0 else SumTo(agents, n - 1, pipelineId, count) + Share(agents[n - 1], pipelineId, count)
  }

  function Sum(agents: seq<Agent>, pipelineId: Id, count: Counter): int {
    SumTo(agents, |agents|, pipelineId, count)
  }

  lemma {:induction false} SumAfterUpdate(agents: seq<Agent>, n: nat, k: nat, a: Agent, pipelineId: Id, count: Counter)
    requires n <= |agents| && k < |agents|
    ensures SumTo(agents[k := a], n, pipelineId, count) == SumTo(agents, n, pipelineId, count)
      + (if k < n then Share(a, pipelineId, count) - Share(agents[k], pipelineId, count) else 0)
  {
    if n > 0 {
      SumAfterUpdate(agents, n - 1, k, a, pipelineId, count);
    }
  }

  lemma {:induction false} SumOfPrefix(agents: seq<Agent>, a: Agent, n: nat, pipelineId: Id, count: Counter)
    requires n <= |agents|
    ensures SumTo(agents + [a], n, pipelineId, count) == SumTo(agents, n, pipelineId, count)
  {
    if n > 0 {
      SumOfPrefix(agents, a, n - 1, pipelineId, count);
    }
  }

  /** No row's share exceeds the sum, when no row counts below zero. */
  lemma {:induction false} SumCovers(agents: seq<Agent>, n: nat, k: nat, pipelineId: Id, count: Counter)
    requires n <= |agents| && forall i :: 0 <= i < |agents| ==> count(agents[i]) >= 0
    ensures SumTo(agents, n, pipelineId, count) >= 0
    ensures k < n ==> SumTo(agents, n, pipelineId, count) >= Share(agents[k], pipelineId, count)
  {
    if n > 0 {
      SumCovers(agents, n - 1, k, pipelineId, count);
    }
  }

  /** What the event's agent contributed to the event's pipeline so far. */
  function Before(agents: seq<Agent>, e: Event, count: Counter): int {
    count(Found(agents, e))
  }

  /** The agent of the event is not registered under another pipeline. */
  predicate AtHome(agents: seq<Agent>, e: Event) {
    var k := Place(agents, e.agentId);
    k < |agents| ==> agents[k].pipelineId == e.pipelineId
  }

  lemma SumAfterSave(agents: seq<Agent>, e: Event, pipelineId: Id, count: Counter)
    requires AtHome(agents, e) && count(Agent(e.agentId, e.pipelineId, false, 0, 0)) == 0
    ensures Sum(SaveAgent(agents, Charged(agents, e)), pipelineId, count) == Sum(agents, pipelineId, count)
      + (if pipelineId == e.pipelineId then count(Charged(agents, e)) - Before(agents, e, count) else 0)
  {
    var k, a := Place(agents, e.agentId), Charged(agents, e);
    if k < |agents| {
      SumAfterUpdate(agents, |agents|, k, a, pipelineId, count);
    } else {
      SumOfPrefix(agents, a, |agents|, pipelineId, count);
    }
  }

  // ---------- one event ----------

  ghost predicate NonNegative(agents: seq<Agent>, count: Counter) {
    forall i :: 0 <= i < |agents| ==> count(agents[i]) >= 0
  }

  /** Clamping the parts and the whole: the whole never gets ahead. `part` is one of the parts of `sum`. */
  lemma ClampingKeepsOrder(total: int, sum: int, part: int, delta: Option<int>)
    requires total <= sum && 0 <= part <= sum
    ensures Bump(total, delta) <= sum - part + Bump(part, delta)
  {
  }

  /**
   * And exactly when it stays level: when the part's own clamp does not bite, or the part was all
   * there was.
   */
  lemma ClampingKeepsEqualityIff(sum: int, part: int, delta: Option<int>)
    requires 0 <= part <= sum
    ensures Bump(sum, delta) == sum - part + Bump(part, delta)
      <==> delta.None? || part + delta.value >= 0 || part == sum
  {
  }

  function DeltaOf(e: Event, callsToo: bool): Option<int> {
    if callsToo then e.callsDelta else e.tokensDelta
  }

  function CounterOf(calls: bool): Counter {
    if calls then CALLS else TOKENS
  }

  function TotalOf(p: Pipeline, calls: bool): int {
    if calls then p.calls else p.tokens
  }

  /** The pipeline's total does not exceed the sum over its agents. `calls` picks one of the two counts. */
  ghost predicate Covered(s: Accounts, pipelineId: Id, calls: bool) {
    && NonNegative(s.agents, CounterOf(calls))
    && (pipelineId in s.pipelines ==>
          TotalOf(s.pipelines[pipelineId], calls) <= Sum(s.agents, pipelineId, CounterOf(calls)))
  }

  ghost predicate Level(s: Accounts, pipelineId: Id, calls: bool) {
    && NonNegative(s.agents, CounterOf(calls))
    && pipelineId in s.pipelines
    && TotalOf(s.pipelines[pipelineId], calls) == Sum(s.agents, pipelineId, CounterOf(calls))
  }

  lemma FoundIsCovered(s: Accounts, e: Event, calls: bool)
    requires NonNegative(s.agents, CounterOf(calls))
    ensures 0 <= Before(s.agents, e, CounterOf(calls)) <= Sum(s.agents, e.pipelineId, CounterOf(calls))
  {
    SumCovers(s.agents, |s.agents|, Place(s.agents, e.agentId), e.pipelineId, CounterOf(calls));
  }

  /** An attempt that stops between the two writes may only raise the agent's count. */
  predicate Harmless(e: Event, writes: nat, calls: bool) {
    writes == 1 ==> DeltaOf(e, calls).GetOr(0) >= 0
  }

  /** One attempt, complete or not, keeps every pipeline's total within the sum over its agents. */
  lemma HandleKeepsCovered(s: Accounts, e: Event, writes: nat, pipelineId: Id, calls: bool)
    requires Covered(s, pipelineId, calls) && AtHome(s.agents, e) && Harmless(e, writes, calls)
    ensures Covered(Handle(s, e, writes).0, pipelineId, calls)
  {
    var count := CounterOf(calls);
    if Accepts(s, e) && writes > 0 {
      SumAfterSave(s.agents, e, pipelineId, count);
      FoundIsCovered(s, e, calls);
      if pipelineId == e.pipelineId {
        ClampingKeepsOrder(TotalOf(s.pipelines[pipelineId], calls), Sum(s.agents, pipelineId, count),
                           Before(s.agents, e, count), DeltaOf(e, calls));
      }
    }
  }

  /** A completed event keeps the two level exactly when its agent's clamp does not bite or the agent held all. */
  lemma HandleKeepsLevelIff(s: Accounts, e: Event, calls: bool)
    requires Level(s, e.pipelineId, calls) && AtHome(s.agents, e) && Accepts(s, e)
    ensures var before := Before(s.agents, e, CounterOf(calls));
      Level(Handle(s, e, 2).0, e.pipelineId, calls) <==>
        (before + DeltaOf(e, calls).GetOr(0) >= 0 || before == Sum(s.agents, e.pipelineId, CounterOf(calls)))
  {
    var count := CounterOf(calls);
    SumAfterSave(s.agents, e, e.pipelineId, count);
    FoundIsCovered(s, e, calls);
    ClampingKeepsEqualityIff(Sum(s.agents, e.pipelineId, count), Before(s.agents, e, count), DeltaOf(e, calls));
  }

  /** Events of other pipelines leave a pipeline level. */
  lemma HandleElsewhereKeepsLevel(s: Accounts, e: Event, writes: nat, pipelineId: Id, calls: bool)
    requires Level(s, pipelineId, calls) && AtHome(s.agents, e) && e.pipelineId != pipelineId
    ensures Level(Handle(s, e, writes).0, pipelineId, calls)
  {
    if Accepts(s, e) && writes > 0 {
      SumAfterSave(s.agents, e, pipelineId, CounterOf(calls));
    }
  }

  // ---------- runs ----------

  datatype Attempt = Attempt(event: Event, writes: nat)

  function Run(s: Accounts, attempts: seq<Attempt>): Accounts
    decreases |attempts|
  {
    if attempts == [] then s
    else Run(Handle(s, attempts[0].event, attempts[0].writes).0, attempts[1..])
  }

  /** In the whole run an agent id is used for one pipeline only. */
  ghost predicate Homes(s: Accounts, attempts: seq<Attempt>) {
    && (forall i :: 0 <= i < |attempts| ==> AtHome(s.agents, attempts[i].event))
    && (forall i, j :: 0 <= i < |attempts| && 0 <= j < |attempts|
          && attempts[i].event.agentId == attempts[j].event.agentId
          ==> attempts[i].event.pipelineId == attempts[j].event.pipelineId)
  }

  lemma HomesStay(s: Accounts, attempts: seq<Attempt>)
    requires attempts != [] && Homes(s, attempts)
    ensures Homes(Handle(s, attempts[0].event, attempts[0].writes).0, attempts[1..])
  {
    var e := attempts[0].event;
    var s' := Handle(s, e, attempts[0].writes).0;
    forall i | 0 < i < |attempts| ensures AtHome(s'.agents, attempts[i].event) {
      StaysAtHome(s.agents, e, attempts[i].event);
    }
  }

  lemma StaysAtHome(agents: seq<Agent>, e: Event, later: Event)
    requires AtHome(agents, e) && AtHome(agents, later)
    requires e.agentId == later.agentId ==> e.pipelineId == later.pipelineId
    ensures AtHome(SaveAgent(agents, Charged(agents, e)), later)
  {
    var saved := SaveAgent(agents, Charged(agents, e));
    var k, k' := Place(agents, later.agentId), Place(saved, later.agentId);
    assert forall j :: 0 <= j < |agents| ==> saved[j].id == agents[j].id;
  }

  /**
   * Over any sequence of attempts, with any signed deltas and any duplicates: no pipeline's total ever
   * exceeds the sum over its agents. Attempts may also stop half-way, if what they carried was not
   * negative.
   */
  lemma {:induction false} TotalsStayCovered(s: Accounts, attempts: seq<Attempt>, pipelineId: Id, calls: bool)
    requires Covered(s, pipelineId, calls) && Homes(s, attempts)
    requires forall i :: 0 <= i < |attempts| ==> Harmless(attempts[i].event, attempts[i].writes, calls)
    ensures Covered(Run(s, attempts), pipelineId, calls)
    decreases |attempts|
  {
    if attempts != [] {
      HandleKeepsCovered(s, attempts[0].event, attempts[0].writes, pipelineId, calls);
      HomesStay(s, attempts);
      TotalsStayCovered(Handle(s, attempts[0].event, attempts[0].writes).0, attempts[1..], pipelineId, calls);
    }
  }

  /** The attempt completes, or never writes, and what it carries for the pipeline is not negative. */
  predicate Untroubled(a: Attempt, pipelineId: Id, calls: bool) {
    a.event.pipelineId == pipelineId ==> a.writes != 1 && DeltaOf(a.event, calls).GetOr(0) >= 0
  }

  /** And the two are equal as long as no negative delta came for that pipeline, whatever came for others. */
  lemma {:induction false} TotalsStayLevel(s: Accounts, attempts: seq<Attempt>, pipelineId: Id, calls: bool)
    requires Level(s, pipelineId, calls) && Homes(s, attempts)
    requires forall i :: 0 <= i < |attempts| ==> Untroubled(attempts[i], pipelineId, calls)
    ensures Level(Run(s, attempts), pipelineId, calls)
    decreases |attempts|
  {
    if attempts != [] {
      var a := attempts[0];
      if a.event.pipelineId != pipelineId {
        HandleElsewhereKeepsLevel(s, a.event, a.writes, pipelineId, calls);
      } else if Accepts(s, a.event) && a.writes > 0 {
        FoundIsCovered(s, a.event, calls);
        HandleKeepsLevelIff(s, a.event, calls);
      }
      HomesStay(s, attempts);
      TotalsStayLevel(Handle(s, a.event, a.writes).0, attempts[1..], pipelineId, calls);
    }
  }

  /**
   * Both conditions matter. Exactly when an event written to the agent alone keeps a level pipeline
   * covered: when it takes nothing away, or the agent had nothing.
   */
  lemma HalfAnEventKeepsCoveredIff(s: Accounts, e: Event, calls: bool)
    requires Level(s, e.pipelineId, calls) && AtHome(s.agents, e) && Accepts(s, e)
    ensures Covered(Handle(s, e, 1).0, e.pipelineId, calls) <==>
      DeltaOf(e, calls).GetOr(0) >= 0 || Before(s.agents, e, CounterOf(calls)) == 0
  {
    SumAfterSave(s.agents, e, e.pipelineId, CounterOf(calls));
    FoundIsCovered(s, e, calls);
  }

  /**
   * And exactly when an agent that moves to another pipeline leaves the one it came from covered: when
   * it had nothing there.
   */
  lemma MovedAgentKeepsCoveredIff(s: Accounts, e: Event, writes: nat, left: Id, calls: bool)
    requires Level(s, left, calls) && Accepts(s, e) && writes > 0 && e.pipelineId != left
    requires Registered(s.agents, e.agentId, left)
    ensures Covered(Handle(s, e, writes).0, left, calls) <==>
      CounterOf(calls)(s.agents[Place(s.agents, e.agentId)]) == 0
  {
    SumAfterUpdate(s.agents, |s.agents|, Place(s.agents, e.agentId), Charged(s.agents, e), left, CounterOf(calls));
  }

  predicate Registered(agents: seq<Agent>, id: Id, pipelineId: Id) {
    Place(agents, id) < |agents| && agents[Place(agents, id)].pipelineId == pipelineId
  }

  // ---------- the counts and the events ----------

  /** The counter of an agent's row, 0 without one. */
  function AgentCount(agents: seq<Agent>, id: Id, calls: bool): int {
    var k := Place(agents, id);
    if k == |agents| then 0 else if calls then agents[k].calls else agents[k].tokens
  }

  function PipelineCount(pipelines: map<Id, Pipeline>, id: Id, calls: bool): int {
    if id !in pipelines then 0 else if calls then pipelines[id].calls else pipelines[id].tokens
  }

  /** `after` is `before` and the delta, or 0 where that is negative; without a delta it is `before`. */
  predicate Moves(before: int, delta: Option<int>, after: int) {
    match delta
    case None => after == before
    case Some(d) => if before + d >= 0 then after == before + d else after == 0
  }

  /** The event is new, of a known kind, and its pipeline is there and the session's. */
  predicate IsNew(s: Accounts, e: Event) {
    && e.known && e.key !in s.handledIds
    && e.pipelineId in s.pipelines && s.pipelines[e.pipelineId].sessionId == e.sessionId
  }

  /** Nothing is written for an event that is not new; a handled one is acknowledged, any other fails. */
  lemma NotNewLeaves(s: Accounts, e: Event, writes: nat)
    requires !IsNew(s, e)
    ensures Handle(s, e, writes) == (s, e.key in s.handledIds)
  {
  }

  lemma {:induction false} SavedPlaces(agents: seq<Agent>, a: Agent, id: Id)
    ensures var saved := SaveAgent(agents, a);
      && (id == a.id ==> Place(saved, id) < |saved| && saved[Place(saved, id)] == a)
      && (id != a.id && Place(agents, id) < |agents| ==>
            Place(saved, id) < |saved| && saved[Place(saved, id)] == agents[Place(agents, id)])
      && (id != a.id && Place(agents, id) == |agents| ==> Place(saved, id) == |saved|)
  {
    var saved, k := SaveAgent(agents, a), Place(agents, a.id);
    assert forall j :: 0 <= j < |agents| ==> saved[j].id == agents[j].id;
    if id == a.id {
      assert saved[k] == a;
    }
  }

  /**
   * What one new event leaves, tokens and calls alike: the agent's counter moves by the delta if the
   * agent's row is written, the pipeline's if both are; a failed agent pauses the pipeline; no other agent
   * and no other pipeline changes.
   */
  lemma EventLeaves(s: Accounts, e: Event, writes: nat, calls: bool, other: Id)
    requires IsNew(s, e) && AtHome(s.agents, e) && writes > 0 && other != e.agentId
    ensures var after, delta := Handle(s, e, writes).0, if calls then e.callsDelta else e.tokensDelta;
      && Moves(AgentCount(s.agents, e.agentId, calls), delta, AgentCount(after.agents, e.agentId, calls))
      && AgentCount(after.agents, other, calls) == AgentCount(s.agents, other, calls)
      && (writes == 1 ==> after.pipelines == s.pipelines && after.handledIds == s.handledIds)
      && (writes > 1 ==>
            && e.key in after.handledIds && e.pipelineId in after.pipelines
            && Moves(PipelineCount(s.pipelines, e.pipelineId, calls), delta,
                     PipelineCount(after.pipelines, e.pipelineId, calls))
            && after.pipelines[e.pipelineId].paused == e.failed
            && after.pipelines == s.pipelines[e.pipelineId := after.pipelines[e.pipelineId]])
      && Handle(s, e, writes).1 == (writes > 1)
  {
    SavedPlaces(s.agents, Charged(s.agents, e), e.agentId);
    SavedPlaces(s.agents, Charged(s.agents, e), other);
    Delivery.MarkAdds(s.handledIds, e.key);
  }

  /** An agent that was registered under another pipeline starts over from 0. */
  lemma MovedAgentStartsOver(s: Accounts, e: Event, writes: nat, calls: bool)
    requires IsNew(s, e) && !AtHome(s.agents, e) && writes > 0
    ensures var delta := if calls then e.callsDelta else e.tokensDelta;
      Moves(0, delta, AgentCount(Handle(s, e, writes).0.agents, e.agentId, calls))
  {
    SavedPlaces(s.agents, Charged(s.agents, e), e.agentId);
  }

  /** The new row names its pipeline and status. */
  lemma AgentRowLeaves(s: Accounts, e: Event, writes: nat)
    requires IsNew(s, e) && writes > 0
    ensures var agents := Handle(s, e, writes).0.agents;
      var k := Place(agents, e.agentId);
      k < |agents| && agents[k].pipelineId == e.pipelineId && agents[k].failed == e.failed
  {
    SavedPlaces(s.agents, Charged(s.agents, e), e.agentId);
  }

  /** What a run charges an agent with: the deltas of its new events that reach the agent's row. */
  function ChargedTo(s: Accounts, attempts: seq<Attempt>, agentId: Id, calls: bool): int
    decreases |attempts|
  {
    if attempts == [] then 0
    else
      var a := attempts[0];
      (if a.event.agentId == agentId && IsNew(s, a.event) && a.writes >= 1 then DeltaOrZero(a.event, calls) else 0)
      + ChargedTo(Handle(s, a.event, a.writes).0, attempts[1..], agentId, calls)
  }

  /** And a pipeline: the deltas of its new events that are completed. */
  function BilledTo(s: Accounts, attempts: seq<Attempt>, pipelineId: Id, calls: bool): int
    decreases |attempts|
  {
    if attempts == [] then 0
    else
      var a := attempts[0];
      (if a.event.pipelineId == pipelineId && IsNew(s, a.event) && a.writes >= 2
       then DeltaOrZero(a.event, calls) else 0)
      + BilledTo(Handle(s, a.event, a.writes).0, attempts[1..], pipelineId, calls)
  }

  function DeltaOrZero(e: Event, calls: bool): int {
    match if calls then e.callsDelta else e.tokensDelta
    case Some(d) => d
    case None => 0
  }

  ghost predicate CountsNatural(s: Accounts) {
    && (forall i :: 0 <= i < |s.agents| ==> s.agents[i].calls >= 0 && s.agents[i].tokens >= 0)
    && (forall id :: id in s.pipelines ==> s.pipelines[id].calls >= 0 && s.pipelines[id].tokens >= 0)
  }

  lemma CountsStayNatural(s: Accounts, e: Event, writes: nat)
    requires CountsNatural(s)
    ensures CountsNatural(Handle(s, e, writes).0)
  {
  }

  lemma AgentStep(s: Accounts, e: Event, writes: nat, agentId: Id, calls: bool)
    requires CountsNatural(s) && AtHome(s.agents, e) && (e.agentId == agentId ==> DeltaOrZero(e, calls) >= 0)
    ensures AgentCount(Handle(s, e, writes).0.agents, agentId, calls) == AgentCount(s.agents, agentId, calls)
      + (if e.agentId == agentId && IsNew(s, e) && writes >= 1 then DeltaOrZero(e, calls) else 0)
  {
    if !IsNew(s, e) {
      NotNewLeaves(s, e, writes);
    } else if writes > 0 {
      EventLeaves(s, e, writes, calls, if agentId == e.agentId then e.agentId + "'" else agentId);
    }
  }

  lemma PipelineStep(s: Accounts, e: Event, writes: nat, pipelineId: Id, calls: bool)
    requires CountsNatural(s) && AtHome(s.agents, e) && (e.pipelineId == pipelineId ==> DeltaOrZero(e, calls) >= 0)
    ensures PipelineCount(Handle(s, e, writes).0.pipelines, pipelineId, calls)
         == PipelineCount(s.pipelines, pipelineId, calls)
      + (if e.pipelineId == pipelineId && IsNew(s, e) && writes >= 2 then DeltaOrZero(e, calls) else 0)
  {
    if !IsNew(s, e) {
      NotNewLeaves(s, e, writes);
    } else if writes > 0 {
      EventLeaves(s, e, writes, calls, e.agentId + "'");
    }
  }

  /**
   * Over any run in which no agent id is used for two pipelines: an agent whose events carry no negative
   * delta ends with what it had and all it was charged, tokens and calls; duplicates, refused events and
   * events that failed before the agent's row count for nothing.
   */
  lemma {:induction false} AgentCountsItsEvents(s: Accounts, attempts: seq<Attempt>, agentId: Id, calls: bool)
    requires CountsNatural(s) && Homes(s, attempts)
    requires forall i :: 0 <= i < |attempts| && attempts[i].event.agentId == agentId ==>
      DeltaOrZero(attempts[i].event, calls) >= 0
    ensures AgentCount(Run(s, attempts).agents, agentId, calls)
         == AgentCount(s.agents, agentId, calls) + ChargedTo(s, attempts, agentId, calls)
    decreases |attempts|
  {
    if attempts != [] {
      var a := attempts[0];
      AgentStep(s, a.event, a.writes, agentId, calls);
      CountsStayNatural(s, a.event, a.writes);
      HomesStay(s, attempts);
      AgentCountsItsEvents(Handle(s, a.event, a.writes).0, attempts[1..], agentId, calls);
    }
  }

  /** And a pipeline with what it had and the deltas of its completed events. */
  lemma {:induction false} PipelineCountsItsEvents(s: Accounts, attempts: seq<Attempt>, pipelineId: Id, calls: bool)
    requires CountsNatural(s) && Homes(s, attempts)
    requires forall i :: 0 <= i < |attempts| && attempts[i].event.pipelineId == pipelineId ==>
      DeltaOrZero(attempts[i].event, calls) >= 0
    ensures PipelineCount(Run(s, attempts).pipelines, pipelineId, calls)
         == PipelineCount(s.pipelines, pipelineId, calls) + BilledTo(s, attempts, pipelineId, calls)
    decreases |attempts|
  {
    if attempts != [] {
      var a := attempts[0];
      PipelineStep(s, a.event, a.writes, pipelineId, calls);
      CountsStayNatural(s, a.event, a.writes);
      HomesStay(s, attempts);
      PipelineCountsItsEvents(Handle(s, a.event, a.writes).0, attempts[1..], pipelineId, calls);
    }
  }

  // ---------- the handler over its rows ----------

  class Handler {
    var agents: seq<Agent>
    var pipelines: map<Id, Pipeline>
    var handledIds: seq<string>

    function State(): Accounts
      reads this
    {
      Accounts(agents, pipelines, handledIds)
    }

    constructor (agents: seq<Agent>, pipelines: map<Id, Pipeline>)
      ensures State() == Accounts(agents, pipelines, [])
    {
      this.agents, this.pipelines, handledIds := agents, pipelines, [];
    }

    method HandleProgress(e: Event, writes: nat) returns (ok: bool)
      modifies this
      ensures (State(), ok) == Handle(old(State()), e, writes)
    {
      if e.key in handledIds {
        return true;
      }
      if !e.known || e.pipelineId !in pipelines || pipelines[e.pipelineId].sessionId != e.sessionId {
        return false;
      }
      var pipeline := pipelines[e.pipelineId];
      var agent := Found(agents, e);
      agent := agent.(failed := e.failed);
      if e.callsDelta.Some? {
        agent := agent.(calls := Max(0, agent.calls + e.callsDelta.value));
        pipeline := pipeline.(calls := Max(0, pipeline.calls + e.callsDelta.value));
      }
      if e.tokensDelta.Some? {
        agent := agent.(tokens := Max(0, agent.tokens + e.tokensDelta.value));
        pipeline := pipeline.(tokens := Max(0, pipeline.tokens + e.tokensDelta.value));
      }
      if writes == 0 {
        return false;
      }
      agents := SaveAgent(agents, agent);
      if writes == 1 {
        return false;
      }
      pipelines := pipelines[e.pipelineId := pipeline.(paused := e.failed)];
      handledIds := Delivery.MarkHandled(handledIds, e.key);
      return true;
    }
  }
}
