/** The services that move a session: which of their writes are steps of the table, and what survives the rest. */
module SessionsService {
  import opened Common
  import opened SessionFsm

  type Id = string

  datatype Session = Session(
    workflowId: Id, userId: Id, mode: Mode, status: Status, finalizedAt: Option<int>, archivedAt: Option<int>)

  datatype Caller = Caller(id: Id, orgId: Id, isAdmin: bool)

  datatype Error = NotFound | Forbidden | InvalidTransition | StatusConflict | PublishFailed

  datatype Operation =
    | UpdateMode(mode: Mode)
    | Finalize
    | DispatchAiTask(published: bool)
    | Archive
    | OverrideStatus(status: Status, force: bool)
    | AiResult
    | DivergenceResult(similarity: real, threshold: real)

  /** One transition of the table, or the exception. */
  function Moved(s: Session, event: Event): Result<Session, Error> {
    match Transit(s.status, event, s.mode)
    case Some(to) => Ok(s.(status := to))
    case None => Err(InvalidTransition)
  }

  /** What an operation, once let through, makes of the session row. */
  function Effect(s: Session, op: Operation, now: int): Result<Session, Error> {
    match op
    case UpdateMode(mode) => Ok(s.(mode := mode))
    case Finalize =>
      (match Moved(s, UserFinalizes)
       case Ok(t) => Ok(t.(finalizedAt := Some(now)))
       case Err(e) => Err(e))
    case DispatchAiTask(published) =>
      if !published then Err(PublishFailed)
      else if s.status == Created then
        (match Moved(s, FirstUserMessage)
         case Ok(t) => Moved(t, AiTaskPublished)
         case Err(e) => Err(e))
      else if s.status == AwaitingInput || s.status == InElicitation then Moved(s, AiTaskPublished)
      else Ok(s)
    case Archive =>
      (match Moved(s, UserDeletes)
       case Ok(t) => Ok(t.(archivedAt := Some(now)))
       case Err(e) => Err(e))
    case OverrideStatus(to, force) =>
      if !force && !CanTransitionTo(s.status, to, s.mode) then Err(StatusConflict)
      else
        Ok(s.(status := to,
              archivedAt := if to == Archived then Some(now) else s.archivedAt,
              finalizedAt := if to == DraftReady && s.finalizedAt.None? then Some(now) else s.finalizedAt))
    case AiResult => Moved(s, AiResultReceived)
    case DivergenceResult(similarity, threshold) =>
      if similarity < threshold then Ok(s.(status := NeedsReconciliation)) else Ok(s)
  }

  /** A failed operation saves nothing. */
  function After(s: Session, op: Operation, now: int): Session {
    match Effect(s, op, now)
    case Ok(t) => t
    case Err(_) => s
  }

  datatype Timed = Timed(op: Operation, now: int)

  function RunOps(s: Session, ops: seq<Timed>): Session
    decreases |ops|
  {
    if ops == [] then s else RunOps(After(s, ops[0].op, ops[0].now), ops[1..])
  }

  /** Neither a forced override nor a divergence result below the threshold. */
  predicate Gentle(op: Operation) {
    && (op.OverrideStatus? ==> !op.force)
    && (op.DivergenceResult? ==> op.similarity >= op.threshold)
  }

  predicate AllGentle(ops: seq<Timed>) {
    forall i :: 0 <= i < |ops| ==> Gentle(ops[i].op)
  }

  function ConfigOf(s: Session): Config {
    Config(s.status, s.mode)
  }

  /** Every action of the run is one the table accepts. */
  predicate AllAccepted(c: Config, actions: seq<Action>)
    decreases |actions|
  {
    actions == [] ||
    (AllAccepted(c, actions[..|actions| - 1]) && Accepts(Run(c, actions[..|actions| - 1]), actions[|actions| - 1]))
  }

  lemma {:induction false} AcceptedConcat(c: Config, a: seq<Action>, b: seq<Action>)
    requires AllAccepted(c, a) && AllAccepted(Run(c, a), b)
    ensures AllAccepted(c, a + b)
    decreases |b|
  {
    if b == [] {
      assert a + b == a;
    } else {
      var n := |b| - 1;
      assert (a + b)[..|a + b| - 1] == a + b[..n];
      AcceptedConcat(c, a, b[..n]);
      RunOfConcat(c, a, b[..n]);
    }
  }

  lemma {:induction false} RunOne(c: Config, a: Action)
    ensures Run(c, [a]) == Apply(c, a)
    ensures AllAccepted(c, [a]) <==> Accepts(c, a)
  {
    assert [a][..0] == [];
  }

  /** A gentle operation is no more than a few accepted steps of the table. */
  lemma GentleOperationRefines(s: Session, op: Operation, now: int) returns (actions: seq<Action>)
    requires Gentle(op)
    ensures AllAccepted(ConfigOf(s), actions)
    ensures Run(ConfigOf(s), actions) == ConfigOf(After(s, op, now))
    ensures (op.UpdateMode? ==> op.mode == Auto) ==> StaysAuto(actions)
  {
    var c := ConfigOf(s);
    actions := [];
    match op {
      case UpdateMode(mode) =>
        actions := [SetMode(mode)];
        RunOne(c, SetMode(mode));
      case Finalize =>
        if Transit(s.status, UserFinalizes, s.mode).Some? {
          actions := [Fire(UserFinalizes)];
          RunOne(c, Fire(UserFinalizes));
        }
      case DispatchAiTask(published) =>
        if published && s.status == Created {
          actions := DispatchFromCreated(c);
          TableIsNext(s.status, FirstUserMessage, s.mode);
          TableIsNext(AwaitingInput, AiTaskPublished, s.mode);
        } else if published && (s.status == AwaitingInput || s.status == InElicitation) {
          TableIsNext(s.status, AiTaskPublished, s.mode);
          actions := [Fire(AiTaskPublished)];
          RunOne(c, Fire(AiTaskPublished));
        }
      case Archive =>
        TableIsNext(s.status, UserDeletes, s.mode);
        actions := [Fire(UserDeletes)];
        RunOne(c, Fire(UserDeletes));
      case OverrideStatus(to, _) =>
        CanTransitionToIff(s.status, to, s.mode);
        if CanTransitionTo(s.status, to, s.mode) {
          var event :| Transit(s.status, event, s.mode) == Some(to);
          actions := [Fire(event)];
          RunOne(c, Fire(event));
        }
      case AiResult =>
        if Transit(s.status, AiResultReceived, s.mode).Some? {
          actions := [Fire(AiResultReceived)];
          RunOne(c, Fire(AiResultReceived));
        }
      case DivergenceResult(_, _) =>
    }
  }

  lemma DispatchFromCreated(c: Config) returns (actions: seq<Action>)
    requires c.status == Created
    ensures AllAccepted(c, actions) && Run(c, actions) == c.(status := Processing) && StaysAuto(actions)
  {
    var a, b := Fire(FirstUserMessage), Fire(AiTaskPublished);
    actions := [a] + [b];
    TableIsNext(Created, FirstUserMessage, c.mode);
    TableIsNext(AwaitingInput, AiTaskPublished, c.mode);
    RunOne(c, a);
    RunOne(Run(c, [a]), b);
    RunOfConcat(c, [a], [b]);
    AcceptedConcat(c, [a], [b]);
  }

  /** A gentle run of the services is a run of the table in which every event is accepted. */
  lemma {:induction false} GentleRunRefines(s: Session, ops: seq<Timed>) returns (actions: seq<Action>)
    requires AllGentle(ops)
    ensures AllAccepted(ConfigOf(s), actions)
    ensures Run(ConfigOf(s), actions) == ConfigOf(RunOps(s, ops))
    ensures (forall i :: 0 <= i < |ops| ==> ops[i].op != UpdateMode(Interactive)) ==> StaysAuto(actions)
    decreases |ops|
  {
    if ops == [] {
      actions := [];
    } else {
      var first := GentleOperationRefines(s, ops[0].op, ops[0].now);
      var s' := After(s, ops[0].op, ops[0].now);
      var rest := GentleRunRefines(s', ops[1..]);
      actions := first + rest;
      AcceptedConcat(ConfigOf(s), first, rest);
      RunOfConcat(ConfigOf(s), first, rest);
      if forall i :: 0 <= i < |ops| ==> ops[i].op != UpdateMode(Interactive) {
        assert ops[0].op != UpdateMode(Interactive);
        assert forall i :: 0 <= i < |ops[1..]| ==> ops[1..][i] == ops[i + 1];
      }
    }
  }

  // ---------- the operations behind an export ----------

  /** The operations of a run that changed the status, in order. */
  function Movers(s: Session, ops: seq<Timed>): seq<Operation>
    decreases |ops|
  {
    if ops == [] then []
    else
      var before, last := RunOps(s, ops[..|ops| - 1]), ops[|ops| - 1];
      Movers(s, ops[..|ops| - 1]) + (if After(before, last.op, last.now).status != before.status then [last.op] else [])
  }

  lemma {:induction false} RunOpsSnoc(s: Session, ops: seq<Timed>)
    requires ops != []
    ensures var last := ops[|ops| - 1];
      RunOps(s, ops) == After(RunOps(s, ops[..|ops| - 1]), last.op, last.now)
    decreases |ops|
  {
    var n := |ops| - 1;
    if n > 0 {
      assert ops[..n][1..] == ops[1..][..n - 1];
      RunOpsSnoc(After(s, ops[0].op, ops[0].now), ops[1..]);
    } else {
      assert ops[1..] == [] == ops[..n];
    }
  }

  const TO_REVIEW := OverrideStatus(InReview, false)
  const TO_VALIDATED := OverrideStatus(Validated, false)
  const TO_EXPORTED := OverrideStatus(Exported, false)

  predicate MoversEndWith(movers: seq<Operation>, tail: seq<Operation>) {
    |movers| >= |tail| && movers[|movers| - |tail|..] == tail
  }

  /** The operations a session in review, validated or exported owes its status to. */
  function Road(status: Status): seq<Operation> {
    match status
    case InReview => [TO_REVIEW]
    case Validated => [TO_REVIEW, TO_VALIDATED]
    case Exported => [TO_REVIEW, TO_VALIDATED, TO_EXPORTED]
    case _ => []
  }

  /** The one status each of these can be entered from. */
  function Predecessor(to: Status): Status
    requires to in {InReview, Validated, Exported}
  {
    if to == InReview then DraftReady else if to == Validated then InReview else Validated
  }

  /** The table enters each of these from its predecessor alone. */
  lemma EnteredFromPredecessor(from: Status, to: Status, mode: Mode)
    requires CanTransitionTo(from, to, mode) && to in {InReview, Validated, Exported}
    ensures from == Predecessor(to)
  {
    CanTransitionToIff(from, to, mode);
    var event :| Transit(from, event, mode) == Some(to);
    TableIsNext(from, event, mode);
  }

  /** No gentle operation enters these statuses but the override, and that only from the status before. */
  lemma EnteredByOverride(s: Session, op: Operation, now: int)
    requires Gentle(op)
    ensures var to := After(s, op, now).status;
      to != s.status && to in {InReview, Validated, Exported} ==>
        op == OverrideStatus(to, false) && s.status == Predecessor(to)
  {
    match op {
      case Finalize => TableIsNext(s.status, UserFinalizes, s.mode);
      case DispatchAiTask(_) =>
        TableIsNext(s.status, FirstUserMessage, s.mode);
        TableIsNext(s.status, AiTaskPublished, s.mode);
        TableIsNext(AwaitingInput, AiTaskPublished, s.mode);
      case Archive => TableIsNext(s.status, UserDeletes, s.mode);
      case AiResult => TableIsNext(s.status, AiResultReceived, s.mode);
      case OverrideStatus(to, _) =>
        if CanTransitionTo(s.status, to, s.mode) && to in {InReview, Validated, Exported} {
          EnteredFromPredecessor(s.status, to, s.mode);
        }
      case _ =>
    }
  }

  lemma OneMoverMore(movers: seq<Operation>, tail: seq<Operation>, op: Operation)
    requires MoversEndWith(movers, tail)
    ensures MoversEndWith(movers + [op], tail + [op])
  {
    assert (movers + [op])[|movers| - |tail|..] == movers[|movers| - |tail|..] + [op];
  }

  lemma RoadGoesOn(to: Status)
    requires to in {InReview, Validated, Exported}
    ensures Road(to) == Road(Predecessor(to)) + [OverrideStatus(to, false)]
  {
  }

  lemma {:induction false} GentleRunKeepsRoad(s: Session, ops: seq<Timed>)
    requires AllGentle(ops) && s.status !in {InReview, Validated, Exported}
    ensures MoversEndWith(Movers(s, ops), Road(RunOps(s, ops).status))
    decreases |ops|
  {
    if ops != [] {
      var n := |ops| - 1;
      var before, last := RunOps(s, ops[..n]), ops[n];
      GentleRunKeepsRoad(s, ops[..n]);
      RunOpsSnoc(s, ops);
      EnteredByOverride(before, last.op, last.now);
      var to := RunOps(s, ops).status;
      if to != before.status && to in {InReview, Validated, Exported} {
        OneMoverMore(Movers(s, ops[..n]), Road(before.status), last.op);
        RoadGoesOn(to);
      }
    }
  }

  /**
   * So the services inherit what holds of the table: stages only advance, and a session kept in
   * automatic mode is never in elicitation. And a session is exported only by its last three changes
   * of status, which are an administrator's overrides to review, to validated and to exported.
   */
  lemma {:induction false} GentleRunsAreOrderly(s: Session, ops: seq<Timed>)
    requires AllGentle(ops)
    ensures Rank(s.status) <= Rank(RunOps(s, ops).status)
    ensures s.mode == Auto && s.status != InElicitation
      && (forall i :: 0 <= i < |ops| ==> ops[i].op != UpdateMode(Interactive))
      ==> RunOps(s, ops).status != InElicitation
    ensures s.status !in {InReview, Validated, Exported} ==> MoversEndWith(Movers(s, ops), Road(RunOps(s, ops).status))
  {
    var actions := GentleRunRefines(s, ops);
    RunsAreMonotone(ConfigOf(s), actions);
    if s.mode == Auto && s.status != InElicitation && StaysAuto(actions) {
      AutoNeverElicits(ConfigOf(s), actions);
    }
    if s.status !in {InReview, Validated, Exported} {
      GentleRunKeepsRoad(s, ops);
    }
  }

  /**
   * A divergence result below the threshold writes the status directly. The write is a step of the
   * table exactly from `DraftReady`, and it sends a session back to an earlier stage exactly when
   * the session was already validated, exported, archived or failed.
   */
  lemma LowSimilarityIff(s: Session, similarity: real, threshold: real, now: int)
    requires similarity < threshold
    ensures var t := After(s, DivergenceResult(similarity, threshold), now);
      && (CanTransitionTo(s.status, t.status, s.mode) <==> s.status == DraftReady)
      && (Rank(t.status) < Rank(s.status) <==> s.status in {Validated, Exported, Archived, Failed})
  {
    CanTransitionToIff(s.status, NeedsReconciliation, s.mode);
    TableIsNext(s.status, DivergenceDetected, s.mode);
    if event :| Transit(s.status, event, s.mode) == Some(NeedsReconciliation) {
      TableIsNext(s.status, event, s.mode);
    }
  }

  ghost predicate Dated(s: Session) {
    s.status == Archived ==> s.archivedAt.Some?
  }

  /** What holds in all runs, forced overrides and low similarity included. */
  lemma {:induction false} DatesSurviveEverything(s: Session, ops: seq<Timed>)
    requires Dated(s)
    ensures var t := RunOps(s, ops);
      && Dated(t)
      && (s.archivedAt.Some? ==> t.archivedAt.Some?)
      && (s.finalizedAt.Some? ==> t.finalizedAt.Some?)
      && t.workflowId == s.workflowId && t.userId == s.userId
    decreases |ops|
  {
    if ops != [] {
      OneOperationKeepsDates(s, ops[0].op, ops[0].now);
      DatesSurviveEverything(After(s, ops[0].op, ops[0].now), ops[1..]);
    }
  }

  lemma OneOperationKeepsDates(s: Session, op: Operation, now: int)
    requires Dated(s)
    ensures var t := After(s, op, now);
      && Dated(t)
      && (s.archivedAt.Some? ==> t.archivedAt.Some?)
      && (s.finalizedAt.Some? ==> t.finalizedAt.Some?)
      && t.workflowId == s.workflowId && t.userId == s.userId
  {
    match op {
      case Finalize => TableIsNext(s.status, UserFinalizes, s.mode);
      case DispatchAiTask(_) =>
        TableIsNext(s.status, FirstUserMessage, s.mode);
        TableIsNext(s.status, AiTaskPublished, s.mode);
        TableIsNext(AwaitingInput, AiTaskPublished, s.mode);
      case AiResult => TableIsNext(s.status, AiResultReceived, s.mode);
      case _ =>
    }
  }

  // ---------- the service ----------

  /** The session is one of the organisation. */
  predicate InOrg(workflowOrgs: map<Id, Id>, sessions: map<Id, Session>, sessionId: Id, orgId: Id) {
    && sessionId in sessions
    && sessions[sessionId].workflowId in workflowOrgs
    && workflowOrgs[sessions[sessionId].workflowId] == orgId
  }

  /** The session table after a request and the error the caller sees. */
  function Serve(workflowOrgs: map<Id, Id>, sessions: map<Id, Session>, sessionId: Id, caller: Caller,
                 op: Operation, now: int): (map<Id, Session>, Option<Error>)
  {
    if op.OverrideStatus? && !caller.isAdmin then (sessions, Some(Forbidden))
    else if !InOrg(workflowOrgs, sessions, sessionId, caller.orgId) then (sessions, Some(NotFound))
    else if !caller.isAdmin && sessions[sessionId].userId != caller.id then (sessions, Some(Forbidden))
    else
      match Effect(sessions[sessionId], op, now)
      case Ok(s) => (sessions[sessionId := s], None)
      case Err(e) => (sessions, Some(e))
  }

  /** Sessions of other organisations, and all other sessions, are out of reach of a request. */
  lemma ServeTouchesOneSession(workflowOrgs: map<Id, Id>, sessions: map<Id, Session>, sessionId: Id, caller: Caller,
                               op: Operation, now: int, other: Id)
    requires other in sessions
    ensures var after := Serve(workflowOrgs, sessions, sessionId, caller, op, now).0;
      && other in after
      && (after[other] == sessions[other]
          || (other == sessionId && InOrg(workflowOrgs, sessions, other, caller.orgId)
              && after[other] == After(sessions[other], op, now)))
  {
  }

  // ---------- what each request leaves ----------

  /** The statuses before validation. */
  predicate Open(status: Status) {
    status in {Created, AwaitingInput, Processing, InElicitation, DraftReady, NeedsReconciliation, InReview}
  }

  /** Where the table leads from a status by some event, in this mode. */
  predicate Leads(from: Status, to: Status, mode: Mode) {
    match to
    case Created => false
    case AwaitingInput => from == Created
    case Processing => from in {AwaitingInput, InElicitation, DraftReady}
    case InElicitation => from == Processing && mode == Interactive
    case DraftReady => Open(from)
    case NeedsReconciliation => from == DraftReady
    case InReview => from == DraftReady
    case Validated => from == InReview
    case Exported => from == Validated
    case Archived => true
    case Failed => true
  }

  /** An event that leads there, where one does. */
  function EventTo(from: Status, to: Status): Event {
    match to
    case AwaitingInput => FirstUserMessage
    case Processing => if from == InElicitation then UserAnswerPosted else AiTaskPublished
    case InElicitation => AiQuestionReceived
    case DraftReady => UserFinalizes
    case NeedsReconciliation => DivergenceDetected
    case InReview => EnterReview
    case Validated => Validate
    case Exported => ExportCompleted
    case Failed => PipelineError
    case _ => UserDeletes
  }

  lemma NextLeads(from: Status, event: Event, to: Status, mode: Mode)
    requires Next(from, event, mode) == Some(to)
    ensures Leads(from, to, mode)
  {
  }

  lemma LeadsByEvent(from: Status, to: Status, mode: Mode)
    requires Leads(from, to, mode)
    ensures Next(from, EventTo(from, to), mode) == Some(to)
  {
  }

  lemma LeadsIs(from: Status, to: Status, mode: Mode)
    ensures CanTransitionTo(from, to, mode) <==> Leads(from, to, mode)
  {
    CanTransitionToIff(from, to, mode);
    if CanTransitionTo(from, to, mode) {
      var event :| Transit(from, event, mode) == Some(to);
      TableIsNext(from, event, mode);
      NextLeads(from, event, to, mode);
    }
    if Leads(from, to, mode) {
      LeadsByEvent(from, to, mode);
      TableIsNext(from, EventTo(from, to), mode);
    }
  }

  /** `t` is `s` with this status, mode and these dates. */
  predicate Becomes(s: Session, t: Session, status: Status, mode: Mode, finalizedAt: Option<int>,
                    archivedAt: Option<int>)
  {
    && t.workflowId == s.workflowId && t.userId == s.userId
    && t.status == status && t.mode == mode && t.finalizedAt == finalizedAt && t.archivedAt == archivedAt
  }

  /**
   * What each operation makes of a session, or why it fails: a mode change sets the mode; finalizing an
   * open session makes it a dated draft; a published dispatch puts a waiting session into processing and
   * leaves any other as it is; archiving dates; a result finishes processing; an override goes where the
   * table leads or is forced to, dating archives and undated drafts; a low similarity asks for
   * reconciliation.
   */
  predicate Leaves(s: Session, op: Operation, now: int, r: Result<Session, Error>) {
    match op
    case UpdateMode(mode) => r.Ok? && Becomes(s, r.value, s.status, mode, s.finalizedAt, s.archivedAt)
    case Finalize =>
      if Open(s.status) then r.Ok? && Becomes(s, r.value, DraftReady, s.mode, Some(now), s.archivedAt)
      else r == Err(InvalidTransition)
    case DispatchAiTask(published) =>
      if !published then r == Err(PublishFailed)
      else if s.status in {Created, AwaitingInput, InElicitation} then
        r.Ok? && Becomes(s, r.value, Processing, s.mode, s.finalizedAt, s.archivedAt)
      else r == Ok(s)
    case Archive => r.Ok? && Becomes(s, r.value, Archived, s.mode, s.finalizedAt, Some(now))
    case OverrideStatus(to, force) =>
      if force || Leads(s.status, to, s.mode) then
        r.Ok? && Becomes(s, r.value, to, s.mode,
                         if to == DraftReady && s.finalizedAt == None then Some(now) else s.finalizedAt,
                         if to == Archived then Some(now) else s.archivedAt)
      else r == Err(StatusConflict)
    case AiResult =>
      if s.status in {Processing, DraftReady} then
        r.Ok? && Becomes(s, r.value, DraftReady, s.mode, s.finalizedAt, s.archivedAt)
      else r == Err(InvalidTransition)
    case DivergenceResult(similarity, threshold) =>
      if similarity < threshold then
        r.Ok? && Becomes(s, r.value, NeedsReconciliation, s.mode, s.finalizedAt, s.archivedAt)
      else r == Ok(s)
  }

  lemma EffectLeaves(s: Session, op: Operation, now: int)
    ensures Leaves(s, op, now, Effect(s, op, now))
  {
    match op {
      case Finalize => TableIsNext(s.status, UserFinalizes, s.mode);
      case DispatchAiTask(_) =>
        TableIsNext(s.status, FirstUserMessage, s.mode);
        TableIsNext(s.status, AiTaskPublished, s.mode);
        TableIsNext(AwaitingInput, AiTaskPublished, s.mode);
      case Archive => TableIsNext(s.status, UserDeletes, s.mode);
      case AiResult => TableIsNext(s.status, AiResultReceived, s.mode);
      case OverrideStatus(to, _) => LeadsIs(s.status, to, s.mode);
      case _ =>
    }
  }

  /**
   * A request: an override is for administrators; a session of another organisation is not found; a
   * session is its owner's or an administrator's; then the session, and it alone, becomes what the
   * operation leaves, and a failure changes nothing.
   */
  lemma RequestLeaves(workflowOrgs: map<Id, Id>, sessions: map<Id, Session>, sessionId: Id, caller: Caller,
                      op: Operation, now: int)
    ensures var (after, error) := Serve(workflowOrgs, sessions, sessionId, caller, op, now);
      if op.OverrideStatus? && !caller.isAdmin then after == sessions && error == Some(Forbidden)
      else if sessionId !in sessions || sessions[sessionId].workflowId !in workflowOrgs
        || workflowOrgs[sessions[sessionId].workflowId] != caller.orgId then
        after == sessions && error == Some(NotFound)
      else if !caller.isAdmin && caller.id != sessions[sessionId].userId then
        after == sessions && error == Some(Forbidden)
      else if error.Some? then after == sessions && Leaves(sessions[sessionId], op, now, Err(error.value))
      else
        && sessionId in after && after == sessions[sessionId := after[sessionId]]
        && Leaves(sessions[sessionId], op, now, Ok(after[sessionId]))
  {
    if sessionId in sessions {
      EffectLeaves(sessions[sessionId], op, now);
    }
  }

  class Service {
    const workflowOrgs: map<Id, Id>
    var sessions: map<Id, Session>

    constructor (workflowOrgs: map<Id, Id>)
      ensures this.workflowOrgs == workflowOrgs && sessions == map[]
    {
      this.workflowOrgs := workflowOrgs;
      sessions := map[];
    }

    method FindManaged(sessionId: Id, caller: Caller) returns (error: Option<Error>)
      ensures error == if !InOrg(workflowOrgs, sessions, sessionId, caller.orgId) then Some(NotFound)
                       else if !caller.isAdmin && sessions[sessionId].userId != caller.id then Some(Forbidden)
                       else None
    {
      if !InOrg(workflowOrgs, sessions, sessionId, caller.orgId) {
        return Some(NotFound);
      }
      if caller.isAdmin || sessions[sessionId].userId == caller.id {
        return None;
      }
      return Some(Forbidden);
    }

    method UpdateMode(sessionId: Id, mode: Mode, caller: Caller, now: int) returns (error: Option<Error>)
      modifies this
      ensures (sessions, error) ==
        Serve(workflowOrgs, old(sessions), sessionId, caller, Operation.UpdateMode(mode), now)
    {
      error := FindManaged(sessionId, caller);
      if error.Some? {
        return;
      }
      var session := sessions[sessionId];
      if session.mode != mode {
        session := session.(mode := mode);
        sessions := sessions[sessionId := session];
      }
      assert sessions == old(sessions)[sessionId := session];
    }

    method Finalize(sessionId: Id, caller: Caller, now: int) returns (error: Option<Error>)
      modifies this
      ensures (sessions, error) == Serve(workflowOrgs, old(sessions), sessionId, caller, Operation.Finalize, now)
    {
      error := FindManaged(sessionId, caller);
      if error.Some? {
        return;
      }
      var session := sessions[sessionId];
      var to := Transit(session.status, UserFinalizes, session.mode);
      if to.None? {
        return Some(InvalidTransition);
      }
      session := session.(status := to.value);
      session := session.(finalizedAt := Some(now));
      sessions := sessions[sessionId := session];
    }

    method DispatchAiTask(sessionId: Id, published: bool, caller: Caller, now: int) returns (error: Option<Error>)
      modifies this
      ensures (sessions, error) ==
        Serve(workflowOrgs, old(sessions), sessionId, caller, Operation.DispatchAiTask(published), now)
    {
      error := FindManaged(sessionId, caller);
      if error.Some? {
        return;
      }
      if !published {
        return Some(PublishFailed);
      }
      var session := sessions[sessionId];
      if session.status == Created {
        var first := Transit(session.status, FirstUserMessage, session.mode);
        if first.None? {
          return Some(InvalidTransition);
        }
        session := session.(status := first.value);
        var second := Transit(session.status, AiTaskPublished, session.mode);
        if second.None? {
          return Some(InvalidTransition);
        }
        session := session.(status := second.value);
        sessions := sessions[sessionId := session];
      } else if session.status == AwaitingInput || session.status == InElicitation {
        var to := Transit(session.status, AiTaskPublished, session.mode);
        if to.None? {
          return Some(InvalidTransition);
        }
        session := session.(status := to.value);
        sessions := sessions[sessionId := session];
      }
      assert sessions == old(sessions)[sessionId := session];
    }

    method Archive(sessionId: Id, caller: Caller, now: int) returns (error: Option<Error>)
      modifies this
      ensures (sessions, error) == Serve(workflowOrgs, old(sessions), sessionId, caller, Operation.Archive, now)
    {
      error := FindManaged(sessionId, caller);
      if error.Some? {
        return;
      }
      var session := sessions[sessionId];
      var to := Transit(session.status, UserDeletes, session.mode);
      if to.None? {
        return Some(InvalidTransition);
      }
      session := session.(status := to.value);
      session := session.(archivedAt := Some(now));
      sessions := sessions[sessionId := session];
    }

    method OverrideStatus(sessionId: Id, status: Status, force: bool, caller: Caller,
                          now: int) returns (error: Option<Error>)
      modifies this
      ensures (sessions, error) ==
        Serve(workflowOrgs, old(sessions), sessionId, caller, Operation.OverrideStatus(status, force), now)
    {
      if !caller.isAdmin {
        return Some(Forbidden);
      }
      if !InOrg(workflowOrgs, sessions, sessionId, caller.orgId) {
        return Some(NotFound);
      }
      var session := sessions[sessionId];
      if !force && !CanTransitionTo(session.status, status, session.mode) {
        return Some(StatusConflict);
      }
      session := session.(status := status);
      if status == Archived {
        session := session.(archivedAt := Some(now));
      }
      if status == DraftReady && session.finalizedAt.None? {
        session := session.(finalizedAt := Some(now));
      }
      sessions := sessions[sessionId := session];
      return None;
    }

    /** A report about a session that is gone is recorded and otherwise ignored. */
    method ApplyDivergence(sessionId: Id, similarity: real, threshold: real, now: int)
      modifies this
      ensures sessionId !in old(sessions) ==> sessions == old(sessions)
      ensures sessionId in old(sessions) ==>
        var session := After(old(sessions)[sessionId], DivergenceResult(similarity, threshold), now);
        sessions == old(sessions)[sessionId := session]
    {
      if similarity < threshold && sessionId in sessions {
        var session := sessions[sessionId];
        session := session.(status := NeedsReconciliation);
        sessions := sessions[sessionId := session];
      }
    }
  }
}
