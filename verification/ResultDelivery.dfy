/**
 * AI results arrive at least once. The subscriber acknowledges, delays or terminates each
 * delivery; the result handler drops what it has completed before, as far back as its bounded
 * window of keys reaches. The handler is not transactional: a run that fails half-way keeps the
 * writes it made.
 */
module ResultDelivery {
  import opened Common
  import Fsm = SessionFsm
  import V = WorkflowVersions

  type Id = string

  const WINDOW: nat := 10_000
  const MAX_DELIVERIES: nat := 3

  datatype Session = Session(workflowId: Id, userId: Id, mode: Fsm.Mode, status: Fsm.Status)

  datatype PipelineStatus = Pending | Running | Paused | Completed | Failed | Cancelled

  datatype Pipeline = Pipeline(sessionId: Id, status: PipelineStatus, natsMessageId: Option<string>)

  datatype Note = Note(sessionId: Id, versionNumber: int)

  datatype DeadLetter = DeadLetter(raw: Option<Raw>, deliveryCount: nat)

  /** `latest` names the most recent pipeline execution of each session. */
  datatype Gateway = Gateway(
    db: V.Db,
    sessions: map<Id, Session>,
    pipelines: map<Id, Pipeline>,
    latest: map<Id, Id>,
    messages: seq<Note>,
    handledIds: seq<string>,
    deadLetters: seq<DeadLetter>)

  /** What the AI service sends. */
  datatype Raw = Raw(sessionId: Id, correlationId: Option<string>, pipelineId: Option<Id>, elements: string)

  datatype Payload = Payload(correlationId: string, sessionId: Id, orgId: Id, pipelineId: Id, elements: string)

  /** Missing fields are filled in from the session's latest pipeline; `stamp` is the last-resort correlation id. */
  function Enrich(g: Gateway, raw: Raw, stamp: string): Payload {
    var latestId := if raw.sessionId in g.latest then Some(g.latest[raw.sessionId]) else None;
    var latestKey :=
      if latestId.Some? && latestId.value in g.pipelines then g.pipelines[latestId.value].natsMessageId else None;
    Payload(raw.correlationId.GetOr(latestKey.GetOr(stamp)), raw.sessionId, OrgOf(g, raw.sessionId),
            raw.pipelineId.GetOr(latestId.GetOr("")), raw.elements)
  }

  function OrgOf(g: Gateway, sessionId: Id): Id {
    if sessionId in g.sessions && g.sessions[sessionId].workflowId in g.db.workflows
    then g.db.workflows[g.sessions[sessionId].workflowId].orgId else ""
  }

  /** The subscriber passes no message id on, so the key starts with an empty one. */
  function KeyOf(correlationId: string): string {
    ":" + correlationId + ":ai.tasks.result"
  }

  function Key(p: Payload): string {
    KeyOf(p.correlationId)
  }

  /** Two results have the same key exactly when they answer the same task. */
  lemma KeysAgreeIff(c: string, d: string)
    ensures KeyOf(c) == KeyOf(d) <==> c == d
  {
    assert c == KeyOf(c)[1..|KeyOf(c)| - |":ai.tasks.result"|];
    assert d == KeyOf(d)[1..|KeyOf(d)| - |":ai.tasks.result"|];
  }

  // ---------- the window ----------

  /** `Set.add`, then the oldest key goes if there are too many. */
  function Mark(handled: seq<string>, key: string): seq<string> {
    var added := if key in handled then handled else handled + [key];
    if |added| > WINDOW && added[0] != "" then added[1..] else added
  }

  function Last(log: seq<string>): seq<string> {
    if |log| <= WINDOW then log else log[|log| - WINDOW..]
  }

  function KeysOf(log: seq<string>): (keys: seq<string>)
    ensures |keys| == |log| && forall i :: 0 <= i < |log| ==> keys[i] == KeyOf(log[i])
  {
    seq(|log|, i requires 0 <= i < |log| => KeyOf(log[i]))
  }

  /** Equal correlation ids in the log are further apart than the window is long. */
  ghost predicate Spread(log: seq<string>) {
    forall i, j :: 0 <= i < j < |log| && log[i] == log[j] ==> j - i > WINDOW
  }

  /** The window is true to the log, which lists the correlation ids of the completed results. */
  ghost predicate WindowOf(handled: seq<string>, log: seq<string>) {
    handled == KeysOf(Last(log)) && Spread(log)
  }

  /** A key is in the window exactly when its correlation id is one of the last in the log. */
  lemma HandledIff(handled: seq<string>, log: seq<string>, correlationId: string)
    requires handled == KeysOf(Last(log))
    ensures KeyOf(correlationId) in handled <==> correlationId in Last(log)
  {
    if KeyOf(correlationId) in handled {
      var i :| 0 <= i < |handled| && handled[i] == KeyOf(correlationId);
      KeysAgreeIff(Last(log)[i], correlationId);
    }
    if correlationId in Last(log) {
      var i :| 0 <= i < |Last(log)| && Last(log)[i] == correlationId;
      assert handled[i] == KeyOf(correlationId);
    }
  }

  /** What is not in the window is not in that part of the log. */
  lemma NotRecent(log: seq<string>, correlationId: string, i: nat)
    requires correlationId !in Last(log) && i < |log| && log[i] == correlationId
    ensures |log| - i > WINDOW
  {
    var dropped := |log| - |Last(log)|;
    forall k | dropped <= k < |log| ensures log[k] in Last(log) {
      assert Last(log)[k - dropped] == log[k];
    }
  }

  lemma MarkKeepsWindow(handled: seq<string>, log: seq<string>, correlationId: string)
    requires WindowOf(handled, log) && KeyOf(correlationId) !in handled
    ensures WindowOf(Mark(handled, KeyOf(correlationId)), log + [correlationId])
  {
    HandledIff(handled, log, correlationId);
    var log' := log + [correlationId];
    forall i, j | 0 <= i < j < |log'| && log'[i] == log'[j] ensures j - i > WINDOW {
      if j == |log| {
        NotRecent(log, correlationId, i);
      }
    }
    assert Mark(handled, KeyOf(correlationId)) == KeysOf(Last(log'));
  }

  // ---------- the handler ----------

  /** What is left after a run of the handler, and whether the run completed without throwing. */
  datatype Attempt = Attempt(gateway: Gateway, ok: bool)

  /** The rows the handler looks up before it writes anything are all there and belong together. */
  predicate Located(g: Gateway, p: Payload) {
    && p.pipelineId in g.pipelines && g.pipelines[p.pipelineId].sessionId == p.sessionId
    && p.sessionId in g.sessions && g.sessions[p.sessionId].workflowId in g.db.workflows
    && (p.orgId != "" ==> g.db.workflows[g.sessions[p.sessionId].workflowId].orgId == p.orgId)
  }

  /**
   * One run of the handler. `writes` is how many of its six writes (version, workflow, session,
   * pipeline, message, and the reports and publications counted as one) succeed before one fails.
   */
  function Handle(g: Gateway, p: Payload, writes: nat): Attempt {
    if Key(p) in g.handledIds then Attempt(g, true)
    else if !Located(g, p) then Attempt(g, false)
    else
      var session := g.sessions[p.sessionId];
      var w := session.workflowId;
      var version := V.Version(V.LatestNumber(g.db, w) + 1, p.elements, session.userId);
      var inserted := V.InsertVersion(g.db, w, version);
      if writes == 0 || inserted.Err? then Attempt(g, false)
      else SaveResult(g.(db := inserted.value), g.db.workflows[w], p, version.number, writes)
  }

  /** From the version row on: workflow, session, pipeline, message. `entity` is the workflow as loaded. */
  function SaveResult(g: Gateway, entity: V.Workflow, p: Payload, number: int, writes: nat): Attempt
    requires p.sessionId in g.sessions && p.pipelineId in g.pipelines
  {
    var session := g.sessions[p.sessionId];
    var saved := V.SaveWorkflow(g.db, session.workflowId, entity.(currentVersion := number, status := V.PendingReview));
    var to := Fsm.Transit(session.status, Fsm.AiResultReceived, session.mode);
    if writes == 1 || saved.Err? then Attempt(g, false)
    else
      var g2 := g.(db := saved.value);
      if writes == 2 || to.None? then Attempt(g2, false)
      else
        var g3 := g2.(sessions := g2.sessions[p.sessionId := session.(status := to.value)]);
        if writes == 3 then Attempt(g3, false)
        else
          var g4 := g3.(pipelines := g3.pipelines[p.pipelineId := g3.pipelines[p.pipelineId].(status := Completed)]);
          if writes == 4 then Attempt(g4, false)
          else
            var g5 := g4.(messages := g4.messages + [Note(p.sessionId, number)]);
            if writes == 5 then Attempt(g5, false)
            else Attempt(g5.(handledIds := Mark(g5.handledIds, Key(p))), true)
  }

  /** The version rows after a run: as before, or one more on the session's workflow, numbered next. */
  ghost predicate AppendedOne(g: Gateway, g': Gateway, p: Payload) {
    && Located(g, p)
    && var session := g.sessions[p.sessionId];
       var rows := V.Rows(g.db, session.workflowId);
       g'.db.versions ==
         g.db.versions[session.workflowId := rows + [V.Version(|rows| + 1, p.elements, session.userId)]]
  }

  ghost function AnyKey(versions: map<Id, seq<V.Version>>): (w: Id)
    requires versions != map[]
    ensures w in versions
  {
    var w :| w in versions;
    w
  }

  /** How many version rows there are, of all workflows. */
  ghost function RowCount(versions: map<Id, seq<V.Version>>): nat
    decreases |versions|
  {
    if versions == map[] then 0
    else
      var w := AnyKey(versions);
      |versions[w]| + RowCount(versions - {w})
  }

  lemma {:induction false} RowCountSplits(versions: map<Id, seq<V.Version>>, w: Id)
    requires w in versions
    ensures RowCount(versions) == |versions[w]| + RowCount(versions - {w})
    decreases |versions|
  {
    var k := AnyKey(versions);
    if k != w {
      RowCountSplits(versions - {k}, w);
      RowCountSplits(versions - {w}, k);
      assert versions - {k} - {w} == versions - {w} - {k};
    }
  }

  lemma RowCountAfterUpdate(versions: map<Id, seq<V.Version>>, w: Id, rows: seq<V.Version>)
    ensures RowCount(versions[w := rows])
         == RowCount(versions) + |rows| - (if w in versions then |versions[w]| else 0)
  {
    var versions' := versions[w := rows];
    RowCountSplits(versions', w);
    if w in versions {
      RowCountSplits(versions, w);
      assert versions' - {w} == versions - {w};
    } else {
      assert versions' - {w} == versions;
    }
  }

  /** The version rows that appeared between two states. */
  ghost function Growth(g: Gateway, g': Gateway): int {
    RowCount(g'.db.versions) - RowCount(g.db.versions)
  }

  lemma AppendedOneGrows(g: Gateway, g': Gateway, p: Payload)
    requires AppendedOne(g, g', p)
    ensures Growth(g, g') == 1
  {
    var session := g.sessions[p.sessionId];
    var rows := V.Rows(g.db, session.workflowId);
    var version := V.Version(|rows| + 1, p.elements, session.userId);
    RowCountAfterUpdate(g.db.versions, session.workflowId, rows + [version]);
  }

  lemma InsertsNext(g: Gateway, p: Payload)
    requires V.Consistent(g.db) && Located(g, p)
    ensures var session := g.sessions[p.sessionId];
      var w := session.workflowId;
      var n := |V.Rows(g.db, w)|;
      && V.LatestNumber(g.db, w) == n
      && V.InsertVersion(g.db, w, V.Version(n + 1, p.elements, session.userId)) ==
         Ok(g.db.(versions := g.db.versions[w := V.Rows(g.db, w) + [V.Version(n + 1, p.elements, session.userId)]]))
  {
    var w := g.sessions[p.sessionId].workflowId;
    V.MaxOfNumbered(V.Rows(g.db, w));
    V.FreeNumberIsNext(V.Rows(g.db, w), |V.Rows(g.db, w)| + 1);
  }

  /** What `SaveResult` does to the tables it writes, whichever write fails. */
  lemma SaveResultWrites(g: Gateway, entity: V.Workflow, p: Payload, number: int, writes: nat)
    requires p.sessionId in g.sessions && p.pipelineId in g.pipelines
    requires number <= V.MaxNumber(V.Rows(g.db, g.sessions[p.sessionId].workflowId))
    ensures var r := SaveResult(g, entity, p, number, writes);
      var w := g.sessions[p.sessionId].workflowId;
      && r.gateway.db.versions == g.db.versions
      && r.gateway.db.workflows ==
           (if writes == 1 then g.db.workflows
            else g.db.workflows[w := entity.(currentVersion := number, status := V.PendingReview)])
      && r.gateway.handledIds == (if r.ok then Mark(g.handledIds, Key(p)) else g.handledIds)
      && r.gateway.deadLetters == g.deadLetters
  {
  }

  lemma SaveResultCompletesIff(g: Gateway, entity: V.Workflow, p: Payload, number: int, writes: nat)
    requires p.sessionId in g.sessions && p.pipelineId in g.pipelines && writes > 0
    requires number <= V.MaxNumber(V.Rows(g.db, g.sessions[p.sessionId].workflowId))
    ensures SaveResult(g, entity, p, number, writes).ok <==> TakesResult(g.sessions[p.sessionId]) && writes > 5
  {
  }

  predicate TakesResult(session: Session) {
    Fsm.Transit(session.status, Fsm.AiResultReceived, session.mode).Some?
  }

  /** The store once the version row is written. */
  function WithVersion(g: Gateway, p: Payload): Gateway
    requires Located(g, p)
  {
    var session := g.sessions[p.sessionId];
    var rows := V.Rows(g.db, session.workflowId);
    var version := V.Version(|rows| + 1, p.elements, session.userId);
    g.(db := g.db.(versions := g.db.versions[session.workflowId := rows + [version]]))
  }

  /** Past the version row, the run is `SaveResult` from there. */
  lemma RunAppends(g: Gateway, p: Payload, writes: nat)
    requires V.Consistent(g.db) && Key(p) !in g.handledIds && Located(g, p) && writes > 0
    ensures var w := g.sessions[p.sessionId].workflowId;
      var n := |V.Rows(g.db, w)| + 1;
      && V.Consistent(WithVersion(g, p).db)
      && |V.Rows(WithVersion(g, p).db, w)| == n == V.MaxNumber(V.Rows(WithVersion(g, p).db, w))
      && Handle(g, p, writes) == SaveResult(WithVersion(g, p), g.db.workflows[w], p, n, writes)
  {
    var session := g.sessions[p.sessionId];
    var w, n := session.workflowId, |V.Rows(g.db, session.workflowId)|;
    InsertsNext(g, p);
    V.AppendPreserves(g.db, w, V.Version(n + 1, p.elements, session.userId));
    V.MaxOfNumbered(V.Rows(WithVersion(g, p).db, w));
  }

  /**
   * Any run of the handler: a run that completes and is no duplicate appends exactly one version and
   * marks its key; a run that throws appends at most one and marks nothing. Every appended row gets
   * the next free number, so the version numbers stay 1..n through all failures and retries.
   */
  lemma HandleAppendsAtMostOne(g: Gateway, p: Payload, writes: nat)
    requires V.Consistent(g.db)
    ensures var r := Handle(g, p, writes);
      var duplicate := Key(p) in g.handledIds;
      && (r.gateway.db.versions == g.db.versions || AppendedOne(g, r.gateway, p))
      && (r.ok && !duplicate ==> AppendedOne(g, r.gateway, p))
      && r.gateway.handledIds == (if r.ok && !duplicate then Mark(g.handledIds, Key(p)) else g.handledIds)
      && r.gateway.deadLetters == g.deadLetters
      && V.Consistent(r.gateway.db)
  {
    if Key(p) !in g.handledIds && Located(g, p) && writes > 0 {
      var w, n := g.sessions[p.sessionId].workflowId, |V.Rows(g.db, g.sessions[p.sessionId].workflowId)| + 1;
      RunAppends(g, p, writes);
      SaveResultWrites(WithVersion(g, p), g.db.workflows[w], p, n, writes);
      V.SavePreserves(WithVersion(g, p).db, w, g.db.workflows[w].(currentVersion := n, status := V.PendingReview));
    }
  }

  /**
   * When a run that is no duplicate appends, completes, or leaves a version behind although it failed.
   * The last is not prevented: besides a write that fails later on, a session that cannot take the
   * result makes every run append its version and then fail.
   */
  lemma FailedRunAppendsIff(g: Gateway, p: Payload, writes: nat)
    requires V.Consistent(g.db) && Key(p) !in g.handledIds
    ensures var r := Handle(g, p, writes);
      var takes := Located(g, p) && TakesResult(g.sessions[p.sessionId]);
      && (r.gateway.db.versions == g.db.versions <==> !Located(g, p) || writes == 0)
      && (r.ok <==> takes && writes > 5)
      && (!r.ok && Growth(g, r.gateway) == 1 <==> Located(g, p) && 1 <= writes && (!takes || writes <= 5))
      && (Located(g, p) && !takes ==>
            && r.gateway.sessions == g.sessions && r.gateway.pipelines == g.pipelines
            && r.gateway.messages == g.messages && r.gateway.handledIds == g.handledIds)
  {
    HandleAppendsAtMostOne(g, p, writes);
    if Located(g, p) && writes > 0 {
      var w, n := g.sessions[p.sessionId].workflowId, |V.Rows(g.db, g.sessions[p.sessionId].workflowId)| + 1;
      RunAppends(g, p, writes);
      SaveResultWrites(WithVersion(g, p), g.db.workflows[w], p, n, writes);
      SaveResultCompletesIff(WithVersion(g, p), g.db.workflows[w], p, n, writes);
      AppendedOneGrows(g, Handle(g, p, writes).gateway, p);
    }
  }

  /**
   * From an up-to-date store, a run leaves `currentVersion` behind the highest version exactly when
   * the version row is written and the write of the workflow row fails.
   */
  lemma HandleStaysUpToDateIff(g: Gateway, p: Payload, writes: nat)
    requires V.UpToDate(g.db)
    ensures V.UpToDate(Handle(g, p, writes).gateway.db) <==>
      Key(p) in g.handledIds || !Located(g, p) || writes != 1
  {
    if Key(p) !in g.handledIds && Located(g, p) && writes > 0 {
      var session := g.sessions[p.sessionId];
      var w, n := session.workflowId, |V.Rows(g.db, session.workflowId)|;
      var version := V.Version(n + 1, p.elements, session.userId);
      var row := g.db.workflows[w].(currentVersion := n + 1, status := V.PendingReview);
      RunAppends(g, p, writes);
      SaveResultWrites(WithVersion(g, p), g.db.workflows[w], p, n + 1, writes);
      V.AdvancedIsUpToDate(g.db, w, row, version);
      var r := Handle(g, p, writes).gateway.db;
      if writes == 1 {
        assert V.Rows(r, w) == V.Rows(g.db, w) + [version];
        assert r.workflows[w].currentVersion == n;
      } else {
        assert r == V.Db(g.db.workflows[w := row], g.db.versions[w := V.Rows(g.db, w) + [version]]);
      }
    }
  }

  // ---------- the subscriber ----------

  datatype Verdict = Ack | Nak | Term

  /** One delivery; a message that cannot be decoded has no payload. */
  datatype Delivery = Delivery(raw: Option<Raw>, deliveryCount: nat, stamp: string, writes: nat)

  datatype Received = Received(gateway: Gateway, verdict: Verdict)

  function TryOnce(g: Gateway, d: Delivery): Attempt {
    match d.raw
    case Some(raw) => Handle(g, Enrich(g, raw, d.stamp), d.writes)
    case None => Attempt(g, false)
  }

  /** The pipeline the raw payload names is failed, and the payload goes to the dead letters. */
  function Exhaust(g: Gateway, d: Delivery): Gateway {
    var id := if d.raw.Some? then d.raw.value.pipelineId else None;
    var pipelines :=
      if id.Some? && id.value in g.pipelines then g.pipelines[id.value := g.pipelines[id.value].(status := Failed)]
      else g.pipelines;
    g.(pipelines := pipelines, deadLetters := g.deadLetters + [DeadLetter(d.raw, d.deliveryCount)])
  }

  function Receive(g: Gateway, d: Delivery): Received {
    var attempt := TryOnce(g, d);
    if attempt.ok then Received(attempt.gateway, Ack)
    else if d.deliveryCount >= MAX_DELIVERIES then Received(Exhaust(attempt.gateway, d), Term)
    else Received(attempt.gateway, Nak)
  }

  // ---------- a batch of messages ----------

  datatype Fate = Waiting | Acked | Terminated

  /** A message: the outcome of each of its deliveries, what became of it, the versions it appended. */
  datatype Ticket = Ticket(raw: Option<Raw>, attempts: seq<bool>, fate: Fate, appended: int)

  /** `dead` lists the messages that went to the dead letters; `log` the correlation ids of completed results. */
  datatype System = System(gateway: Gateway, tickets: seq<Ticket>, dead: seq<int>, log: seq<string>)

  /** The broker's next choice: which message to deliver, and how its run goes. */
  datatype Choice = Choice(index: nat, stamp: string, writes: nat)

  predicate Deliverable(s: System, c: Choice) {
    c.index < |s.tickets| && s.tickets[c.index].fate == Waiting
  }

  function DeliveryOf(s: System, c: Choice): Delivery
    requires Deliverable(s, c)
  {
    Delivery(s.tickets[c.index].raw, |s.tickets[c.index].attempts| + 1, c.stamp, c.writes)
  }

  function FateOf(v: Verdict): Fate {
    match v
    case Ack => Acked
    case Nak => Waiting
    case Term => Terminated
  }

  /** One attempt more. */
  function Attempted(t: Ticket, verdict: Verdict, grown: int): Ticket {
    Ticket(t.raw, t.attempts + [verdict == Ack], FateOf(verdict), t.appended + grown)
  }

  /** The correlation id of the result a delivery completes, if it completes one. */
  function Completes(g: Gateway, d: Delivery): Option<string> {
    if d.raw.Some? && TryOnce(g, d).ok && Key(Enrich(g, d.raw.value, d.stamp)) !in g.handledIds
    then Some(Enrich(g, d.raw.value, d.stamp).correlationId) else None
  }

  ghost function Deliver(s: System, c: Choice): System
    requires Deliverable(s, c)
  {
    var d := DeliveryOf(s, c);
    var r := Receive(s.gateway, d);
    var grown := Growth(s.gateway, r.gateway);
    System(r.gateway, s.tickets[c.index := Attempted(s.tickets[c.index], r.verdict, grown)],
           if r.verdict == Term then s.dead + [c.index] else s.dead,
           match Completes(s.gateway, d) case Some(id) => s.log + [id] case None => s.log)
  }

  ghost predicate Schedule(s: System, choices: seq<Choice>)
    decreases |choices|
  {
    choices == [] || (Deliverable(s, choices[0]) && Schedule(Deliver(s, choices[0]), choices[1..]))
  }

  ghost function Run(s: System, choices: seq<Choice>): System
    requires Schedule(s, choices)
    decreases |choices|
  {
    if choices == [] then s else Run(Deliver(s, choices[0]), choices[1..])
  }

  /** A ticket's fate is read off its attempts, and each attempt appended at most one version. */
  ghost predicate Settles(t: Ticket) {
    && |t.attempts| <= 3
    && (forall i :: 0 <= i < |t.attempts| - 1 ==> !t.attempts[i])
    && (t.fate == Waiting <==> |t.attempts| < 3 && true !in t.attempts)
    && (t.fate == Acked <==> |t.attempts| > 0 && t.attempts[|t.attempts| - 1])
    && (t.fate == Terminated <==> t.attempts == [false, false, false])
    && 0 <= t.appended <= |t.attempts|
  }

  /** Dead-lettered exactly once if terminated, never otherwise. */
  ghost predicate BuriedRight(tickets: seq<Ticket>, dead: seq<int>, i: int) {
    multiset(dead)[i] == if 0 <= i < |tickets| && tickets[i].fate == Terminated then 1 else 0
  }

  ghost predicate Orderly(tickets: seq<Ticket>, dead: seq<int>) {
    && (forall i :: 0 <= i < |tickets| ==> Settles(tickets[i]))
    && (forall i :: BuriedRight(tickets, dead, i))
  }

  ghost predicate Inv(s: System) {
    && Orderly(s.tickets, s.dead)
    && WindowOf(s.gateway.handledIds, s.log)
    && V.Consistent(s.gateway.db)
  }

  /** Deliveries a message may still need. */
  function Left(t: Ticket): int {
    if t.fate == Waiting then 3 - |t.attempts| else 0
  }

  function Made(t: Ticket): int {
    |t.attempts|
  }

  function Appended(t: Ticket): int {
    t.appended
  }

  function SumOf(tickets: seq<Ticket>, f: Ticket -> int): int {
    if tickets == [] then 0 else SumOf(tickets[..|tickets| - 1], f) + f(tickets[|tickets| - 1])
  }

  function Remaining(tickets: seq<Ticket>): int {
    SumOf(tickets, Left)
  }

  lemma {:induction false} SumAfterUpdate(tickets: seq<Ticket>, i: nat, t: Ticket, f: Ticket -> int)
    requires i < |tickets|
    ensures SumOf(tickets[i := t], f) == SumOf(tickets, f) - f(tickets[i]) + f(t)
  {
    var n := |tickets| - 1;
    if i == n {
      assert tickets[i := t][..n] == tickets[..n];
    } else {
      assert tickets[i := t][..n] == tickets[..n][i := t];
      SumAfterUpdate(tickets[..n], i, t, f);
    }
  }

  lemma {:induction false} RemainingIsNatural(tickets: seq<Ticket>)
    requires forall i :: 0 <= i < |tickets| ==> Settles(tickets[i])
    ensures Remaining(tickets) >= 0
    ensures Remaining(tickets) == 0 <==> forall i :: 0 <= i < |tickets| ==> tickets[i].fate != Waiting
  {
    if tickets != [] {
      RemainingIsNatural(tickets[..|tickets| - 1]);
      assert Settles(tickets[|tickets| - 1]);
    }
  }

  lemma AttemptSettles(t: Ticket, verdict: Verdict, grown: int)
    requires Settles(t) && t.fate == Waiting && 0 <= grown <= 1
    requires verdict == Term <==> verdict != Ack && |t.attempts| + 1 >= 3
    ensures var t' := Attempted(t, verdict, grown);
      Settles(t') && Left(t') < Left(t)
  {
    var attempts := t.attempts + [verdict == Ack];
    assert forall i :: 0 <= i < |t.attempts| ==> t.attempts[i] in t.attempts;
    if verdict == Term {
      assert attempts == [false, false, false];
    }
  }

  lemma ReceiveKeeps(g: Gateway, d: Delivery, log: seq<string>)
    requires V.Consistent(g.db) && WindowOf(g.handledIds, log)
    ensures var r := Receive(g, d);
      && V.Consistent(r.gateway.db)
      && WindowOf(r.gateway.handledIds, match Completes(g, d) case Some(id) => log + [id] case None => log)
      && 0 <= Growth(g, r.gateway) <= 1
      && (r.verdict == Ack ==> Growth(g, r.gateway) == if Completes(g, d).Some? then 1 else 0)
      && (r.verdict != Ack ==> Completes(g, d).None?)
      && (r.verdict == Ack <==> TryOnce(g, d).ok)
      && (r.verdict == Term <==> r.verdict != Ack && d.deliveryCount >= MAX_DELIVERIES)
  {
    if d.raw.Some? {
      var p := Enrich(g, d.raw.value, d.stamp);
      HandleAppendsAtMostOne(g, p, d.writes);
      var g' := Handle(g, p, d.writes).gateway;
      if g'.db.versions != g.db.versions {
        AppendedOneGrows(g, g', p);
      }
      if Completes(g, d).Some? {
        MarkKeepsWindow(g.handledIds, log, p.correlationId);
      }
    }
  }

  /** An attempt at a waiting message, whose index joins the dead letters exactly when it is terminated. */
  lemma AttemptKeepsOrder(tickets: seq<Ticket>, dead: seq<int>, index: nat, verdict: Verdict, grown: int)
    requires Orderly(tickets, dead) && index < |tickets| && tickets[index].fate == Waiting && 0 <= grown <= 1
    requires verdict == Term <==> verdict != Ack && |tickets[index].attempts| + 1 >= MAX_DELIVERIES
    ensures var tickets' := tickets[index := Attempted(tickets[index], verdict, grown)];
      && Orderly(tickets', if verdict == Term then dead + [index] else dead)
      && Remaining(tickets') < Remaining(tickets)
  {
    var t' := Attempted(tickets[index], verdict, grown);
    AttemptSettles(tickets[index], verdict, grown);
    SumAfterUpdate(tickets, index, t', Left);
    var dead' := if verdict == Term then dead + [index] else dead;
    var tickets' := tickets[index := t'];
    forall i ensures BuriedRight(tickets', dead', i) {
      assert BuriedRight(tickets, dead, i);
    }
  }

  /** Every delivery is one attempt of one ticket, and every version row that appears is some ticket's. */
  ghost predicate Accounted(s: System, s': System, deliveries: nat) {
    && SumOf(s'.tickets, Made) == SumOf(s.tickets, Made) + deliveries
    && Growth(s.gateway, s'.gateway) == SumOf(s'.tickets, Appended) - SumOf(s.tickets, Appended)
  }

  lemma DeliveryIsAccounted(s: System, c: Choice)
    requires Deliverable(s, c)
    ensures Accounted(s, Deliver(s, c), 1)
  {
    var t := Deliver(s, c).tickets[c.index];
    SumAfterUpdate(s.tickets, c.index, t, Made);
    SumAfterUpdate(s.tickets, c.index, t, Appended);
  }

  /** The version rows that the failed runs of a schedule leave behind. */
  ghost function LeftBehind(s: System, choices: seq<Choice>): int
    requires Schedule(s, choices)
    decreases |choices|
  {
    if choices == [] then 0
    else
      var r := Receive(s.gateway, DeliveryOf(s, choices[0]));
      (if r.verdict == Ack then 0 else Growth(s.gateway, r.gateway)) + LeftBehind(Deliver(s, choices[0]), choices[1..])
  }

  /** Every version row that appears is one completed result's, or left behind by a failed run. */
  ghost predicate RowsExplained(s: System, s': System, left: int) {
    left >= 0 && Growth(s.gateway, s'.gateway) == |s'.log| - |s.log| + left
  }

  lemma {:induction false} RunExplainsRows(s: System, choices: seq<Choice>)
    requires Inv(s) && Schedule(s, choices)
    ensures RowsExplained(s, Run(s, choices), LeftBehind(s, choices))
    decreases |choices|
  {
    if choices != [] {
      ReceiveKeeps(s.gateway, DeliveryOf(s, choices[0]), s.log);
      DeliverKeeps(s, choices[0]);
      RunExplainsRows(Deliver(s, choices[0]), choices[1..]);
    }
  }

  lemma DeliverKeeps(s: System, c: Choice)
    requires Inv(s) && Deliverable(s, c)
    ensures Inv(Deliver(s, c)) && Remaining(Deliver(s, c).tickets) < Remaining(s.tickets)
  {
    var r := Receive(s.gateway, DeliveryOf(s, c));
    ReceiveKeeps(s.gateway, DeliveryOf(s, c), s.log);
    AttemptKeepsOrder(s.tickets, s.dead, c.index, r.verdict, Growth(s.gateway, r.gateway));
  }

  lemma {:induction false} RunKeeps(s: System, choices: seq<Choice>)
    requires Inv(s) && Schedule(s, choices)
    ensures Inv(Run(s, choices)) && |choices| + Remaining(Run(s, choices).tickets) <= Remaining(s.tickets)
    ensures |Run(s, choices).tickets| == |s.tickets| && Accounted(s, Run(s, choices), |choices|)
    decreases |choices|
  {
    if choices != [] {
      DeliverKeeps(s, choices[0]);
      DeliveryIsAccounted(s, choices[0]);
      RunKeeps(Deliver(s, choices[0]), choices[1..]);
    }
  }

  function NewTickets(raws: seq<Option<Raw>>): (tickets: seq<Ticket>)
    ensures |tickets| == |raws|
  {
    seq(|raws|, i requires 0 <= i < |raws| => Ticket(raws[i], [], Waiting, 0))
  }

  lemma {:induction false} NewTicketsSums(raws: seq<Option<Raw>>)
    ensures Remaining(NewTickets(raws)) == 3 * |raws|
    ensures SumOf(NewTickets(raws), Made) == 0 && SumOf(NewTickets(raws), Appended) == 0
    ensures forall i :: 0 <= i < |raws| ==> Settles(NewTickets(raws)[i])
  {
    if raws != [] {
      var n := |raws| - 1;
      assert NewTickets(raws)[..n] == NewTickets(raws[..n]);
      NewTicketsSums(raws[..n]);
    }
  }

  ghost function Batch(g: Gateway, log: seq<string>, raws: seq<Option<Raw>>): System {
    System(g, NewTickets(raws), [], log)
  }

  /** A state some serial schedule of a batch leads to, from a consistent store and a window true to its log. */
  ghost predicate Reached(g: Gateway, log: seq<string>, raws: seq<Option<Raw>>, choices: seq<Choice>, s: System) {
    && V.Consistent(g.db) && WindowOf(g.handledIds, log)
    && Schedule(Batch(g, log, raws), choices) && s == Run(Batch(g, log, raws), choices)
  }

  lemma {:induction false} ReachedIsKept(g: Gateway, log: seq<string>, raws: seq<Option<Raw>>, choices: seq<Choice>,
                                         s: System)
    requires Reached(g, log, raws, choices, s)
    ensures Inv(s) && |s.tickets| == |raws| && |choices| + Remaining(s.tickets) <= 3 * |raws|
    ensures SumOf(s.tickets, Made) == |choices| && Growth(g, s.gateway) == SumOf(s.tickets, Appended)
    ensures RowsExplained(Batch(g, log, raws), s, LeftBehind(Batch(g, log, raws), choices))
  {
    NewTicketsSums(raws);
    assert Inv(Batch(g, log, raws));
    RunKeeps(Batch(g, log, raws), choices);
    RunExplainsRows(Batch(g, log, raws), choices);
  }

  /**
   * How one message may stand: its fate follows its attempts, it appended at most three versions, and
   * it is among the dead letters exactly once if its third run failed, and otherwise never.
   */
  ghost predicate StandsRight(s: System, i: nat)
    requires i < |s.tickets|
  {
    && Settles(s.tickets[i]) && s.tickets[i].appended <= 3
    && multiset(s.dead)[i] == if s.tickets[i].attempts == [false, false, false] then 1 else 0
  }

  lemma InvStandsRight(s: System)
    requires Inv(s)
    ensures forall i :: 0 <= i < |s.tickets| ==> StandsRight(s, i)
  {
    forall i | 0 <= i < |s.tickets| ensures StandsRight(s, i) {
      assert BuriedRight(s.tickets, s.dead, i) && Settles(s.tickets[i]);
    }
  }

  /** No message of the batch can be delivered any more. */
  ghost predicate Exhausted(s: System) {
    forall c :: !Deliverable(s, c)
  }

  lemma ExhaustedIff(s: System)
    requires Inv(s)
    ensures Remaining(s.tickets) >= 0
    ensures Exhausted(s) <==> Remaining(s.tickets) == 0
    ensures Exhausted(s) ==>
      forall i :: 0 <= i < |s.tickets| ==> s.tickets[i].fate == Acked || s.tickets[i].fate == Terminated
  {
    RemainingIsNatural(s.tickets);
    forall i | 0 <= i < |s.tickets| && s.tickets[i].fate == Waiting ensures !Exhausted(s) {
      assert Deliverable(s, Choice(i, "", 0));
    }
  }

  /**
   * Any serial schedule of a finite batch, with any failures: no message is delivered more than three
   * times, so at most three deliveries per message happen in all; a message is terminated exactly
   * when its third run failed and is then dead-lettered exactly once; it is acknowledged exactly when
   * its last run succeeded. The version rows that the schedule adds are the sum of what the messages
   * appended, at most three each; they are one for each completed result and what failed runs left
   * behind. A schedule cannot be extended exactly when no delivery remains, and
   * then every message is acknowledged or terminated.
   */
  lemma {:induction false} EveryMessageSettles(g: Gateway, log: seq<string>, raws: seq<Option<Raw>>,
                                               choices: seq<Choice>, s: System)
    requires Reached(g, log, raws, choices, s)
    ensures |s.tickets| == |raws| && SumOf(s.tickets, Made) == |choices| <= 3 * |raws|
    ensures forall i :: 0 <= i < |raws| ==> StandsRight(s, i)
    ensures RowCount(s.gateway.db.versions) == RowCount(g.db.versions) + SumOf(s.tickets, Appended)
    ensures var left := LeftBehind(Batch(g, log, raws), choices);
      left >= 0 && RowCount(s.gateway.db.versions) == RowCount(g.db.versions) + (|s.log| - |log|) + left
    ensures Exhausted(s) <==> Remaining(s.tickets) == 0
    ensures Exhausted(s) ==>
      forall i :: 0 <= i < |raws| ==> s.tickets[i].fate == Acked || s.tickets[i].fate == Terminated
  {
    ReachedIsKept(g, log, raws, choices, s);
    InvStandsRight(s);
    ExhaustedIff(s);
  }

  /** The correlation ids of the last 10000 completed results. */
  function Recent(log: seq<string>): seq<string> {
    if |log| <= 10_000 then log else log[|log| - 10_000..]
  }

  /**
   * Any serial schedule: the window holds exactly the keys of the last 10000 completed results, oldest
   * first, and the same task is completed twice only more than 10000 completions apart.
   */
  lemma WindowIsRecentLog(g: Gateway, log: seq<string>, raws: seq<Option<Raw>>, choices: seq<Choice>, s: System)
    requires Reached(g, log, raws, choices, s)
    ensures s.gateway.handledIds == KeysOf(Recent(s.log)) && V.Consistent(s.gateway.db)
    ensures forall i, j :: 0 <= i < j < |s.log| && s.log[i] == s.log[j] ==> j - i > 10_000
  {
    ReachedIsKept(g, log, raws, choices, s);
  }

  lemma MarkAdds(handled: seq<string>, key: string)
    requires key !in handled
    ensures key in Mark(handled, key)
  {
    var added := handled + [key];
    assert added[|handled|] == key;
    assert |added| > WINDOW ==> added[1..][|handled| - 1] == key;
  }

  /**
   * In every state a schedule reaches, a delivery is acknowledged and leaves the gateway as it was
   * exactly when its task is among the last 10000 completed; log and dead letters then stay too.
   */
  lemma DuplicateChangesNothingIff(g: Gateway, log: seq<string>, raws: seq<Option<Raw>>, choices: seq<Choice>,
                                   s: System, c: Choice)
    requires Reached(g, log, raws, choices, s) && Deliverable(s, c) && s.tickets[c.index].raw.Some?
    ensures var recent := Enrich(s.gateway, s.tickets[c.index].raw.value, c.stamp).correlationId in Recent(s.log);
      var t := Deliver(s, c);
      && (t.tickets[c.index].fate == Acked && t.gateway == s.gateway <==> recent)
      && (recent ==> t.log == s.log && t.dead == s.dead)
  {
    ReachedIsKept(g, log, raws, choices, s);
    UnchangedIff(s.gateway, DeliveryOf(s, c), s.log);
  }

  lemma UnchangedIff(g: Gateway, d: Delivery, log: seq<string>)
    requires V.Consistent(g.db) && WindowOf(g.handledIds, log) && d.raw.Some?
    ensures Receive(g, d) == Received(g, Ack) <==> Enrich(g, d.raw.value, d.stamp).correlationId in Last(log)
    ensures Enrich(g, d.raw.value, d.stamp).correlationId in Last(log) ==> Completes(g, d).None?
  {
    var p := Enrich(g, d.raw.value, d.stamp);
    HandledIff(g.handledIds, log, p.correlationId);
    HandleAppendsAtMostOne(g, p, d.writes);
    if Key(p) !in g.handledIds {
      MarkAdds(g.handledIds, Key(p));
    }
  }

  // ---------- what a delivery leaves ----------

  /**
   * The AI task a result answers: the one it names, or else the one the session's latest pipeline was started
   * with; only without either, one of its own. And the pipeline it belongs to: the one it names, or else
   * the latest.
   */
  lemma EnrichedNames(g: Gateway, raw: Raw, stamp: string)
    ensures var p := Enrich(g, raw, stamp);
      && p.sessionId == raw.sessionId && p.elements == raw.elements
      && (raw.correlationId.Some? ==> p.correlationId == raw.correlationId.value)
      && (raw.pipelineId.Some? ==> p.pipelineId == raw.pipelineId.value)
      && (raw.sessionId in g.latest && g.latest[raw.sessionId] in g.pipelines ==>
            var latest := g.pipelines[g.latest[raw.sessionId]];
            && (raw.correlationId.None? && latest.natsMessageId.Some? ==>
                  p.correlationId == latest.natsMessageId.value)
            && (raw.correlationId.None? && latest.natsMessageId.None? ==> p.correlationId == stamp)
            && (raw.pipelineId.None? ==> p.pipelineId == g.latest[raw.sessionId]))
      && (raw.sessionId !in g.latest && raw.correlationId.None? ==> p.correlationId == stamp)
  {
  }

  /** The session, its workflow and the pipeline are there, and the pipeline is the session's. */
  predicate Placed(g: Gateway, raw: Raw, pipelineId: Id) {
    && raw.sessionId in g.sessions && g.sessions[raw.sessionId].workflowId in g.db.workflows
    && pipelineId in g.pipelines && g.pipelines[pipelineId].sessionId == raw.sessionId
  }

  lemma PlacedIsLocated(g: Gateway, raw: Raw, stamp: string)
    ensures var p := Enrich(g, raw, stamp); Located(g, p) <==> Placed(g, raw, p.pipelineId)
  {
  }

  lemma TakesResultIff(session: Session)
    ensures TakesResult(session) <==> session.status in {Fsm.Processing, Fsm.DraftReady}
    ensures TakesResult(session) ==>
      Fsm.Transit(session.status, Fsm.AiResultReceived, session.mode) == Some(Fsm.DraftReady)
  {
    Fsm.TableIsNext(session.status, Fsm.AiResultReceived, session.mode);
  }

  /**
   * The gateway after a result is applied: its elements are the session user's next version, the workflow
   * is at that version and waits for review, the session is a draft, the pipeline is completed, a message
   * says so, and nothing else has changed but the window.
   */
  ghost predicate Applied(g: Gateway, after: Gateway, raw: Raw, pipelineId: Id)
    requires Placed(g, raw, pipelineId)
  {
    var session := g.sessions[raw.sessionId];
    var w := session.workflowId;
    var n, row := |V.Rows(g.db, w)| + 1, g.db.workflows[w];
    && after.db.versions == g.db.versions[w := V.Rows(g.db, w) + [V.Version(n, raw.elements, session.userId)]]
    && after.db.workflows ==
         g.db.workflows[w := V.Workflow(row.orgId, row.ownerId, row.title, V.PendingReview, n)]
    && after.sessions ==
         g.sessions[raw.sessionId := Session(session.workflowId, session.userId, session.mode, Fsm.DraftReady)]
    && after.pipelines ==
         g.pipelines[pipelineId := Pipeline(raw.sessionId, Completed, g.pipelines[pipelineId].natsMessageId)]
    && after.messages == g.messages + [Note(raw.sessionId, n)]
    && after.latest == g.latest && after.deadLetters == g.deadLetters
  }

  lemma CompletedIsApplied(g: Gateway, raw: Raw, stamp: string, writes: nat)
    requires V.Consistent(g.db) && Placed(g, raw, Enrich(g, raw, stamp).pipelineId)
    requires g.sessions[raw.sessionId].status in {Fsm.Processing, Fsm.DraftReady}
    requires Key(Enrich(g, raw, stamp)) !in g.handledIds && writes > 5
    ensures var r := Handle(g, Enrich(g, raw, stamp), writes);
      r.ok && Applied(g, r.gateway, raw, Enrich(g, raw, stamp).pipelineId)
  {
    var p := Enrich(g, raw, stamp);
    TakesResultIff(g.sessions[raw.sessionId]);
    RunAppends(g, p, writes);
  }

  /**
   * In every state a schedule reaches: a result whose task is none of the last 10000 completed is applied
   * and logged, if its rows are there, its session can take it and no write fails; one whose task is among
   * them is acknowledged and changes nothing.
   */
  lemma DeliveryLeaves(g: Gateway, log: seq<string>, raws: seq<Option<Raw>>, choices: seq<Choice>, s: System,
                       c: Choice)
    requires Reached(g, log, raws, choices, s) && Deliverable(s, c) && s.tickets[c.index].raw.Some?
    ensures var raw := s.tickets[c.index].raw.value;
      var p, t := Enrich(s.gateway, raw, c.stamp), Deliver(s, c);
      && (p.correlationId in Recent(s.log) ==>
            t.tickets[c.index].fate == Acked && t.gateway == s.gateway && t.log == s.log)
      && (p.correlationId !in Recent(s.log) && Placed(s.gateway, raw, p.pipelineId) && c.writes > 5
          && s.gateway.sessions[raw.sessionId].status in {Fsm.Processing, Fsm.DraftReady} ==>
            && t.tickets[c.index].fate == Acked && Applied(s.gateway, t.gateway, raw, p.pipelineId)
            && t.log == s.log + [p.correlationId])
  {
    DuplicateChangesNothingIff(g, log, raws, choices, s, c);
    WindowIsRecentLog(g, log, raws, choices, s);
    var raw := s.tickets[c.index].raw.value;
    var p := Enrich(s.gateway, raw, c.stamp);
    HandledIff(s.gateway.handledIds, s.log, p.correlationId);
    if p.correlationId !in Recent(s.log) && Placed(s.gateway, raw, p.pipelineId) && c.writes > 5
      && s.gateway.sessions[raw.sessionId].status in {Fsm.Processing, Fsm.DraftReady}
    {
      CompletedIsApplied(s.gateway, raw, c.stamp, c.writes);
    }
  }

  /** A third failure is recorded among the dead letters, and fails the pipeline the message names, if it is there. */
  lemma ThirdFailureLeaves(s: System, c: Choice)
    requires Deliverable(s, c) && |s.tickets[c.index].attempts| == 2
    requires Deliver(s, c).tickets[c.index].fate != Acked
    ensures var raw, t := s.tickets[c.index].raw, Deliver(s, c);
      && t.tickets[c.index].fate == Terminated
      && t.gateway.deadLetters == TryOnce(s.gateway, DeliveryOf(s, c)).gateway.deadLetters + [DeadLetter(raw, 3)]
      && (raw.Some? && raw.value.pipelineId.Some? && raw.value.pipelineId.value in t.gateway.pipelines ==>
            t.gateway.pipelines[raw.value.pipelineId.value].status == PipelineStatus.Failed)
  {
  }

  // ---------- the subscriber loop ----------

  /** What the loop makes of a series of deliveries, one after the other. */
  function ReceiveAll(g: Gateway, deliveries: seq<Delivery>): (Gateway, seq<Verdict>)
    decreases |deliveries|
  {
    if deliveries == [] then (g, [])
    else
      var (before, verdicts) := ReceiveAll(g, deliveries[..|deliveries| - 1]);
      var r := Receive(before, deliveries[|deliveries| - 1]);
      (r.gateway, verdicts + [r.verdict])
  }

  /** `Set.add` and the eviction of the oldest key, as the handlers write them. */
  method MarkHandled(handledIds: seq<string>, key: string) returns (marked: seq<string>)
    ensures marked == Mark(handledIds, key)
  {
    marked := handledIds;
    if key !in marked {
      marked := marked + [key];
    }
    if |marked| > WINDOW {
      var first := marked[0];
      if first != "" {
        marked := marked[1..];
      }
    }
  }

  class Subscriber {
    var db: V.Db
    var sessions: map<Id, Session>
    var pipelines: map<Id, Pipeline>
    var latest: map<Id, Id>
    var messages: seq<Note>
    var handledIds: seq<string>
    var deadLetters: seq<DeadLetter>

    function State(): Gateway
      reads this
    {
      Gateway(db, sessions, pipelines, latest, messages, handledIds, deadLetters)
    }

    constructor (db: V.Db, sessions: map<Id, Session>, pipelines: map<Id, Pipeline>, latest: map<Id, Id>)
      ensures State() == Gateway(db, sessions, pipelines, latest, [], [], [])
    {
      this.db, this.sessions, this.pipelines, this.latest := db, sessions, pipelines, latest;
      messages, handledIds, deadLetters := [], [], [];
    }

    /** The handler, write by write; `writes` says which of them fails. */
    method HandleResult(p: Payload, writes: nat) returns (ok: bool)
      modifies this
      ensures Attempt(State(), ok) == Handle(old(State()), p, writes)
    {
      if Key(p) in handledIds {
        return true;
      }
      if !Located(State(), p) {
        return false;
      }
      var session := sessions[p.sessionId];
      var workflow := db.workflows[session.workflowId];
      var number := V.LatestNumber(db, session.workflowId) + 1;
      var inserted := V.InsertVersion(db, session.workflowId, V.Version(number, p.elements, session.userId));
      if writes == 0 || inserted.Err? {
        return false;
      }
      db := inserted.value;
      ok := SaveResultRows(workflow, p, number, writes);
    }

    /** From the version row on: workflow, session, pipeline, message. */
    method SaveResultRows(entity: V.Workflow, p: Payload, number: int, writes: nat) returns (ok: bool)
      requires p.sessionId in sessions && p.pipelineId in pipelines
      modifies this
      ensures Attempt(State(), ok) == SaveResult(old(State()), entity, p, number, writes)
    {
      var session := sessions[p.sessionId];
      var workflow := entity.(currentVersion := number, status := V.PendingReview);
      var saved := V.SaveWorkflow(db, session.workflowId, workflow);
      if writes == 1 || saved.Err? {
        return false;
      }
      db := saved.value;

      var to := Fsm.Transit(session.status, Fsm.AiResultReceived, session.mode);
      if writes == 2 || to.None? {
        return false;
      }
      sessions := sessions[p.sessionId := session.(status := to.value)];
      if writes == 3 {
        return false;
      }
      pipelines := pipelines[p.pipelineId := pipelines[p.pipelineId].(status := Completed)];
      if writes == 4 {
        return false;
      }
      messages := messages + [Note(p.sessionId, number)];
      if writes == 5 {
        return false;
      }
      handledIds := MarkHandled(handledIds, Key(p));
      return true;
    }

    method OnExhausted(d: Delivery)
      modifies this
      ensures State() == Exhaust(old(State()), d)
    {
      if d.raw.Some? && d.raw.value.pipelineId.Some? {
        var id := d.raw.value.pipelineId.value;
        if id in pipelines {
          pipelines := pipelines[id := pipelines[id].(status := Failed)];
        }
      }
      deadLetters := deadLetters + [DeadLetter(d.raw, d.deliveryCount)];
    }

    /** The delivery loop: handle, then acknowledge; on failure delay, or give up at the third delivery. */
    method Consume(deliveries: seq<Delivery>) returns (verdicts: seq<Verdict>)
      modifies this
      ensures (State(), verdicts) == ReceiveAll(old(State()), deliveries)
    {
      verdicts := [];
      for i := 0 to |deliveries|
        invariant (State(), verdicts) == ReceiveAll(old(State()), deliveries[..i])
      {
        var d := deliveries[i];
        assert deliveries[..i + 1][..i] == deliveries[..i];
        var ok := false;
        if d.raw.Some? {
          ok := HandleResult(Enrich(State(), d.raw.value, d.stamp), d.writes);
        }
        if ok {
          verdicts := verdicts + [Ack];
        } else if d.deliveryCount >= MAX_DELIVERIES {
          OnExhausted(d);
          verdicts := verdicts + [Term];
        } else {
          verdicts := verdicts + [Nak];
        }
      }
      assert deliveries[..|deliveries|] == deliveries;
    }
  }
}
