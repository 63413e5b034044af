/**
 * Workflow rows, their version rows, and the requests that write both.
 *
 * A request is a process that advances one database round trip at a time, so any two
 * requests may interleave between their round trips. The store enforces what the schema
 * enforces: the unique (workflow, version number) constraint and the trigger that rejects
 * a `current_version` above the highest version number.
 */
module WorkflowVersions {
  import opened Common

  type Id = string

  datatype Status = Draft | InElicitation | PendingReview | Validated | Exported | Archived

  datatype Workflow = Workflow(orgId: Id, ownerId: Id, title: string, status: Status, currentVersion: int)

  datatype Version = Version(number: int, elements: string, createdBy: Id)

  /** `versions[w]` holds the version rows of workflow `w` in insertion order. */
  datatype Db = Db(workflows: map<Id, Workflow>, versions: map<Id, seq<Version>>)

  datatype Fault = NotFound | Forbidden | DuplicateKey | UniqueViolation | TriggerRaised

  function Rows(db: Db, w: Id): seq<Version> {
    if w in db.versions then db.versions[w] else []
  }

  /** COALESCE(MAX(version_number), 0). */
  function MaxNumber(rows: seq<Version>): int {
    MaxOfFirst(rows, |rows|)
  }

  function MaxOfFirst(rows: seq<Version>, n: nat): int
    requires n <= |rows|
  {
    if n == 0 then 0
    else
      var rest := MaxOfFirst(rows, n - 1);
      if rows[n - 1].number > rest then rows[n - 1].number else rest
  }

  /** The version row `ORDER BY version_number DESC LIMIT 1` returns, if any. */
  function Latest(rows: seq<Version>): Option<Version> {
    LatestOfFirst(rows, |rows|)
  }

  function LatestOfFirst(rows: seq<Version>, n: nat): Option<Version>
    requires n <= |rows|
  {
    if n == 0 then None
    else
      match LatestOfFirst(rows, n - 1)
      case Some(best) => if rows[n - 1].number > best.number then Some(rows[n - 1]) else Some(best)
      case None => Some(rows[n - 1])
  }

  predicate Taken(rows: seq<Version>, number: int) {
    exists i :: 0 <= i < |rows| && rows[i].number == number
  }

  function InsertWorkflow(db: Db, w: Id, row: Workflow): Result<Db, Fault> {
    if w in db.workflows then Err(DuplicateKey)
    else if row.currentVersion > MaxNumber(Rows(db, w)) then Err(TriggerRaised)
    else Ok(db.(workflows := db.workflows[w := row]))
  }

  /** `save` of a loaded entity: the row becomes the entity, stale fields included. */
  function SaveWorkflow(db: Db, w: Id, entity: Workflow): Result<Db, Fault> {
    if entity.currentVersion > MaxNumber(Rows(db, w)) then Err(TriggerRaised)
    else Ok(db.(workflows := db.workflows[w := entity]))
  }

  function InsertVersion(db: Db, w: Id, version: Version): Result<Db, Fault> {
    if Taken(Rows(db, w), version.number) then Err(UniqueViolation)
    else Ok(db.(versions := db.versions[w := Rows(db, w) + [version]]))
  }

  datatype Patch = Patch(title: Option<string>, status: Option<Status>)

  datatype Request =
    | Create(id: Id, orgId: Id, ownerId: Id, title: string)
    | Update(id: Id, orgId: Id, callerId: Id, isAdmin: bool, patch: Patch, elements: Option<string>)
    | Archive(id: Id, orgId: Id, callerId: Id, isAdmin: bool)
    | Duplicate(source: Id, newId: Id, orgId: Id, ownerId: Id, newTitle: Option<string>)
    | ApplyResult(id: Id, userId: Id, workflowJson: string)

  /** Where a request stands, with the entity it holds in memory. */
  datatype Process =
    | Started(request: Request)
    | DuplicateLoaded(newId: Id, entity: Workflow, source: Id)
    | Creating(id: Id, entity: Workflow, elements: string)
    | RowInserted(id: Id, entity: Workflow, elements: string)
    | FirstVersionInserted(id: Id, entity: Workflow)
    | VersionWanted(id: Id, entity: Workflow, callerId: Id, elements: string)
    | NumberRead(id: Id, entity: Workflow, callerId: Id, elements: string, next: int)
    | Saving(id: Id, entity: Workflow)
    | ResultLoaded(id: Id, entity: Workflow, userId: Id, elements: string)
    | ResultNumbered(id: Id, entity: Workflow, userId: Id, elements: string, next: int)
    | Finished
    | Failed(fault: Fault)

  datatype Progress = Progress(db: Db, process: Process)

  function Patched(entity: Workflow, patch: Patch): Workflow {
    var titled := if patch.title.Some? && patch.title.value != "" then entity.(title := patch.title.value) else entity;
    if patch.status.Some? then titled.(status := patch.status.value) else titled
  }

  predicate InOrg(db: Db, w: Id, orgId: Id) {
    w in db.workflows && db.workflows[w].orgId == orgId
  }

  function Begin(db: Db, request: Request): Process {
    match request
    case Create(id, orgId, ownerId, title) =>
      Creating(id, Workflow(orgId, ownerId, title, Draft, 0), "{}")
    case Update(id, orgId, callerId, isAdmin, patch, elements) =>
      if !InOrg(db, id, orgId) then Failed(NotFound)
      else
        var entity := db.workflows[id];
        if entity.ownerId != callerId && !isAdmin then Failed(Forbidden)
        else if elements.Some? then VersionWanted(id, Patched(entity, patch), callerId, elements.value)
        else Saving(id, Patched(entity, patch))
    case Archive(id, orgId, callerId, isAdmin) =>
      if !InOrg(db, id, orgId) then Failed(NotFound)
      else
        var entity := db.workflows[id];
        if entity.ownerId != callerId && !isAdmin then Failed(Forbidden)
        else Saving(id, entity.(status := Archived))
    case Duplicate(source, newId, orgId, ownerId, title) =>
      if !InOrg(db, source, orgId) then Failed(NotFound)
      else
        var entity := db.workflows[source];
        DuplicateLoaded(newId, Workflow(orgId, ownerId, title.GetOr("Copy of " + entity.title), Draft, 0), source)
    case ApplyResult(id, userId, elements) =>
      if id !in db.workflows then Failed(NotFound)
      else ResultLoaded(id, db.workflows[id], userId, elements)
  }

  /** One database round trip of one request. */
  function Step(db: Db, p: Process): Progress {
    match p
    case Started(request) => Progress(db, Begin(db, request))
    case DuplicateLoaded(newId, entity, source) => Progress(db, Creating(newId, entity, LatestElements(db, source)))
    case Creating(id, entity, elements) => InsertRow(db, id, entity, elements)
    case RowInserted(id, entity, elements) => InsertFirstVersion(db, id, entity, elements)
    case FirstVersionInserted(id, entity) => SaveEntity(db, id, entity.(currentVersion := 1))
    case VersionWanted(id, entity, callerId, elements) => ReadNumber(db, id, entity, callerId, elements)
    case NumberRead(id, entity, callerId, elements, next) =>
      CommitUpdate(db, id, entity, Version(next, elements, callerId))
    case Saving(id, entity) => SaveEntity(db, id, entity)
    case ResultLoaded(id, entity, userId, elements) =>
      Progress(db, ResultNumbered(id, entity, userId, elements, LatestNumber(db, id) + 1))
    case ResultNumbered(id, entity, userId, elements, next) =>
      InsertResult(db, id, entity, Version(next, elements, userId))
    case Finished => Progress(db, p)
    case Failed(_) => Progress(db, p)
  }

  function LatestElements(db: Db, w: Id): string {
    match Latest(Rows(db, w))
    case Some(version) => version.elements
    case None => "{}"
  }

  function LatestNumber(db: Db, w: Id): int {
    match Latest(Rows(db, w))
    case Some(version) => version.number
    case None => 0
  }

  function InsertRow(db: Db, id: Id, entity: Workflow, elements: string): Progress {
    match InsertWorkflow(db, id, entity)
    case Ok(db') => Progress(db', RowInserted(id, entity, elements))
    case Err(fault) => Progress(db, Failed(fault))
  }

  function InsertFirstVersion(db: Db, id: Id, entity: Workflow, elements: string): Progress {
    match InsertVersion(db, id, Version(1, elements, entity.ownerId))
    case Ok(db') => Progress(db', FirstVersionInserted(id, entity))
    case Err(fault) => Progress(db, Failed(fault))
  }

  function ReadNumber(db: Db, id: Id, entity: Workflow, callerId: Id, elements: string): Progress {
    var current := if id in db.workflows then db.workflows[id].currentVersion else 0;
    Progress(db, NumberRead(id, entity, callerId, elements, current + 1))
  }

  function CommitUpdate(db: Db, id: Id, entity: Workflow, version: Version): Progress {
    match CommitVersion(db, id, version)
    case Ok(db') => Progress(db', Saving(id, entity.(currentVersion := entity.currentVersion + 1)))
    case Err(fault) => Progress(db, Failed(fault))
  }

  function InsertResult(db: Db, id: Id, entity: Workflow, version: Version): Progress {
    match InsertVersion(db, id, version)
    case Ok(db') => Progress(db', Saving(id, entity.(currentVersion := version.number, status := PendingReview)))
    case Err(fault) => Progress(db, Failed(fault))
  }

  function SaveEntity(db: Db, id: Id, entity: Workflow): Progress {
    match SaveWorkflow(db, id, entity)
    case Ok(db') => Progress(db', Finished)
    case Err(fault) => Progress(db, Failed(fault))
  }

  /** The write half of the update transaction: both writes commit or neither does. */
  function CommitVersion(db: Db, id: Id, version: Version): Result<Db, Fault> {
    match InsertVersion(db, id, version)
    case Err(fault) => Err(fault)
    case Ok(db') =>
      if id in db'.workflows then SaveWorkflow(db', id, db'.workflows[id].(currentVersion := version.number))
      else Ok(db')
  }

  // ---------- every interleaving ----------

  datatype System = System(db: Db, processes: map<int, Process>)

  /** `Arrive` starts a request; `Advance` lets one started request do its next round trip. */
  datatype Event = Arrive(pid: int, request: Request) | Advance(pid: int)

  const EMPTY := System(Db(map[], map[]), map[])

  function React(s: System, e: Event): System {
    match e
    case Arrive(pid, request) =>
      if pid in s.processes then s else s.(processes := s.processes[pid := Started(request)])
    case Advance(pid) =>
      if pid !in s.processes then s
      else
        var progress := Step(s.db, s.processes[pid]);
        System(progress.db, s.processes[pid := progress.process])
  }

  function Run(s: System, events: seq<Event>): System
    decreases |events|
  {
    if events == [] then s else Run(React(s, events[0]), events[1..])
  }

  /** The version numbers of a workflow are 1, 2, ..., n in insertion order. */
  ghost predicate Numbered(rows: seq<Version>) {
    forall i :: 0 <= i < |rows| ==> rows[i].number == i + 1
  }

  ghost predicate Consistent(db: Db) {
    && (forall w :: w in db.versions ==> w in db.workflows && Numbered(db.versions[w]))
    && (forall w :: w in db.workflows ==> 0 <= db.workflows[w].currentVersion <= |Rows(db, w)|)
  }

  /** What a request in flight may rely on, whatever the others do. */
  ghost predicate Sound(db: Db, p: Process) {
    match p
    case Started(_) => true
    case DuplicateLoaded(_, entity, _) => entity.currentVersion == 0
    case Creating(_, entity, _) => entity.currentVersion == 0
    case RowInserted(id, entity, _) => id in db.workflows && entity.currentVersion == 0
    case FirstVersionInserted(id, entity) => id in db.workflows && 1 <= |Rows(db, id)|
    case VersionWanted(id, entity, _, _) => id in db.workflows && 0 <= entity.currentVersion <= |Rows(db, id)|
    case NumberRead(id, entity, _, _, next) =>
      id in db.workflows && 0 <= entity.currentVersion <= |Rows(db, id)| && 1 <= next <= |Rows(db, id)| + 1
    case Saving(id, entity) => id in db.workflows && 0 <= entity.currentVersion <= |Rows(db, id)|
    case ResultLoaded(id, entity, _, _) => id in db.workflows
    case ResultNumbered(id, entity, _, _, next) => id in db.workflows && 1 <= next <= |Rows(db, id)| + 1
    case Finished => true
    case Failed(fault) => fault != TriggerRaised
  }

  ghost predicate Safe(s: System) {
    && Consistent(s.db)
    && (forall pid :: pid in s.processes ==> Sound(s.db, s.processes[pid]))
  }

  /** Rows are only ever appended and workflows never disappear. */
  ghost predicate Grows(a: Db, b: Db) {
    && (forall w :: w in a.workflows ==> w in b.workflows)
    && (forall w :: Rows(a, w) <= Rows(b, w))
  }

  lemma MaxOfNumbered(rows: seq<Version>)
    requires Numbered(rows)
    ensures MaxNumber(rows) == |rows|
    ensures Latest(rows) == if rows == [] then None else Some(rows[|rows| - 1])
  {
    MaxOfFirstNumbered(rows, |rows|);
  }

  lemma {:induction false} MaxOfFirstNumbered(rows: seq<Version>, n: nat)
    requires Numbered(rows) && n <= |rows|
    ensures MaxOfFirst(rows, n) == n
    ensures LatestOfFirst(rows, n) == if n == 0 then None else Some(rows[n - 1])
  {
    if n > 0 {
      MaxOfFirstNumbered(rows, n - 1);
    }
  }

  lemma FreeNumberIsNext(rows: seq<Version>, number: int)
    requires Numbered(rows) && 1 <= number <= |rows| + 1
    ensures !Taken(rows, number) <==> number == |rows| + 1
  {
    if number <= |rows| {
      assert rows[number - 1].number == number;
    }
  }

  lemma SoundIsStable(a: Db, b: Db, p: Process)
    requires Sound(a, p) && Grows(a, b)
    ensures Sound(b, p)
  {
    match p {
      case RowInserted(id, _, _) => assert Rows(a, id) <= Rows(b, id);
      case FirstVersionInserted(id, _) => assert Rows(a, id) <= Rows(b, id);
      case VersionWanted(id, _, _, _) => assert Rows(a, id) <= Rows(b, id);
      case NumberRead(id, _, _, _, _) => assert Rows(a, id) <= Rows(b, id);
      case Saving(id, _) => assert Rows(a, id) <= Rows(b, id);
      case ResultNumbered(id, _, _, _, _) => assert Rows(a, id) <= Rows(b, id);
      case _ =>
    }
  }

  /** The request of `r` is sound in the store `r` leaves, which extends `db`. */
  ghost predicate Kept(db: Db, r: Progress) {
    Consistent(r.db) && Grows(db, r.db) && Sound(r.db, r.process)
  }

  lemma AppendPreserves(db: Db, w: Id, version: Version)
    requires Consistent(db) && w in db.workflows && version.number == |Rows(db, w)| + 1
    ensures !Taken(Rows(db, w), version.number)
    ensures var db' := db.(versions := db.versions[w := Rows(db, w) + [version]]);
      && InsertVersion(db, w, version) == Ok(db')
      && Consistent(db') && Grows(db, db') && Rows(db', w) == Rows(db, w) + [version]
  {
    var db' := db.(versions := db.versions[w := Rows(db, w) + [version]]);
    FreeNumberIsNext(Rows(db, w), version.number);
    assert forall u :: u != w ==> Rows(db', u) == Rows(db, u);
    assert Rows(db', w) == Rows(db, w) + [version];
  }

  lemma SavePreserves(db: Db, w: Id, entity: Workflow)
    requires Consistent(db) && w in db.workflows && 0 <= entity.currentVersion <= |Rows(db, w)|
    ensures var db' := db.(workflows := db.workflows[w := entity]);
      SaveWorkflow(db, w, entity) == Ok(db') && Consistent(db') && Grows(db, db') && Rows(db', w) == Rows(db, w)
  {
    MaxOfNumbered(Rows(db, w));
    var db' := db.(workflows := db.workflows[w := entity]);
    assert forall u :: Rows(db', u) == Rows(db, u);
  }

  lemma InsertRowPreserves(db: Db, id: Id, entity: Workflow, elements: string)
    requires Consistent(db) && entity.currentVersion == 0
    ensures Kept(db, InsertRow(db, id, entity, elements))
    ensures InsertRow(db, id, entity, elements) ==
      if id in db.workflows then Progress(db, Failed(DuplicateKey))
      else Progress(db.(workflows := db.workflows[id := entity]), RowInserted(id, entity, elements))
  {
    if id !in db.workflows {
      assert Rows(db, id) == [];
      var db' := db.(workflows := db.workflows[id := entity]);
      assert forall u :: Rows(db', u) == Rows(db, u);
    }
  }

  lemma CommitPreserves(db: Db, id: Id, entity: Workflow, version: Version)
    requires Consistent(db) && id in db.workflows
    requires 0 <= entity.currentVersion <= |Rows(db, id)| && 1 <= version.number <= |Rows(db, id)| + 1
    ensures Kept(db, CommitUpdate(db, id, entity, version))
    ensures CommitUpdate(db, id, entity, version) ==
      if version.number <= |Rows(db, id)| then Progress(db, Failed(UniqueViolation))
      else Progress(Db(db.workflows[id := db.workflows[id].(currentVersion := version.number)],
                       db.versions[id := Rows(db, id) + [version]]),
                    Saving(id, entity.(currentVersion := entity.currentVersion + 1)))
  {
    FreeNumberIsNext(Rows(db, id), version.number);
    if version.number > |Rows(db, id)| {
      AppendPreserves(db, id, version);
      var db1 := InsertVersion(db, id, version).value;
      var stored := db.workflows[id].(currentVersion := version.number);
      SavePreserves(db1, id, stored);
      var db2 := db1.(workflows := db1.workflows[id := stored]);
      GrowsTransitive(db, db1, db2);
    }
  }

  lemma GrowsTransitive(a: Db, b: Db, c: Db)
    requires Grows(a, b) && Grows(b, c)
    ensures Grows(a, c)
  {
    forall w ensures Rows(a, w) <= Rows(c, w) {
      assert Rows(a, w) <= Rows(b, w) <= Rows(c, w);
    }
  }

  lemma FirstVersionPreserves(db: Db, id: Id, entity: Workflow, elements: string)
    requires Consistent(db) && id in db.workflows && entity.currentVersion == 0
    ensures Kept(db, InsertFirstVersion(db, id, entity, elements))
  {
    FreeNumberIsNext(Rows(db, id), 1);
    if !Taken(Rows(db, id), 1) {
      AppendPreserves(db, id, Version(1, elements, entity.ownerId));
    }
  }

  lemma ResultPreserves(db: Db, id: Id, entity: Workflow, version: Version)
    requires Consistent(db) && id in db.workflows && 1 <= version.number <= |Rows(db, id)| + 1
    ensures Kept(db, InsertResult(db, id, entity, version))
  {
    FreeNumberIsNext(Rows(db, id), version.number);
    if !Taken(Rows(db, id), version.number) {
      AppendPreserves(db, id, version);
    }
  }

  lemma SaveEntityPreserves(db: Db, id: Id, entity: Workflow)
    requires Consistent(db) && id in db.workflows && 0 <= entity.currentVersion <= |Rows(db, id)|
    ensures Kept(db, SaveEntity(db, id, entity))
  {
    SavePreserves(db, id, entity);
  }

  /** One round trip keeps the store consistent and leaves its own request sound. */
  lemma StepPreserves(db: Db, p: Process)
    requires Consistent(db) && Sound(db, p)
    ensures Kept(db, Step(db, p))
  {
    match p {
      case Started(_) =>
      case DuplicateLoaded(_, _, _) =>
      case Creating(id, entity, elements) => InsertRowPreserves(db, id, entity, elements);
      case RowInserted(id, entity, elements) => FirstVersionPreserves(db, id, entity, elements);
      case FirstVersionInserted(id, entity) => SaveEntityPreserves(db, id, entity.(currentVersion := 1));
      case VersionWanted(_, _, _, _) =>
      case NumberRead(id, entity, callerId, elements, next) =>
        CommitPreserves(db, id, entity, Version(next, elements, callerId));
      case Saving(id, entity) => SaveEntityPreserves(db, id, entity);
      case ResultLoaded(id, _, _, _) => MaxOfNumbered(Rows(db, id));
      case ResultNumbered(id, entity, userId, elements, next) =>
        ResultPreserves(db, id, entity, Version(next, elements, userId));
      case Finished =>
      case Failed(_) =>
    }
  }

  lemma ReactPreserves(s: System, e: Event)
    requires Safe(s)
    ensures Safe(React(s, e)) && Grows(s.db, React(s, e).db)
  {
    if e.Advance? && e.pid in s.processes {
      StepPreserves(s.db, s.processes[e.pid]);
      var s' := React(s, e);
      forall pid | pid in s'.processes ensures Sound(s'.db, s'.processes[pid]) {
        if pid != e.pid {
          SoundIsStable(s.db, s'.db, s.processes[pid]);
        }
      }
    }
  }

  lemma {:induction false} RunPreserves(s: System, events: seq<Event>)
    requires Safe(s)
    ensures Safe(Run(s, events)) && Grows(s.db, Run(s, events).db)
    decreases |events|
  {
    if events != [] {
      ReactPreserves(s, events[0]);
      RunPreserves(React(s, events[0]), events[1..]);
      GrowsTransitive(s.db, React(s, events[0]).db, Run(s, events).db);
    }
  }

  /**
   * Every interleaving of every set of requests: the version numbers of each workflow are
   * exactly 1..max in insertion order, `currentVersion` never exceeds max, committed
   * versions are never lost or renumbered, and the trigger never raises.
   */
  lemma {:induction false} AnyInterleavingIsSafe(before: seq<Event>, after: seq<Event>)
    ensures var mid := Run(EMPTY, before); var s := Run(mid, after);
      && (forall w :: w in s.db.workflows ==>
            && Numbered(Rows(s.db, w))
            && MaxNumber(Rows(s.db, w)) == |Rows(s.db, w)|
            && 0 <= s.db.workflows[w].currentVersion <= MaxNumber(Rows(s.db, w)))
      && (forall w :: Rows(mid.db, w) <= Rows(s.db, w))
      && (forall pid :: pid in s.processes ==> s.processes[pid] != Failed(TriggerRaised))
  {
    assert Safe(EMPTY);
    RunPreserves(EMPTY, before);
    var mid := Run(EMPTY, before);
    RunPreserves(mid, after);
    var s := Run(mid, after);
    forall w | w in s.db.workflows ensures MaxNumber(Rows(s.db, w)) == |Rows(s.db, w)| {
      MaxOfNumbered(Rows(s.db, w));
    }
  }

  // ---------- serial runs ----------

  /** `trips` round trips of one request with nothing in between. */
  function Alone(r: Progress, trips: nat): Progress
    decreases trips
  {
    if trips == 0 then r else Alone(Step(r.db, r.process), trips - 1)
  }

  /** After so many round trips a request has finished or failed. */
  function RoundTrips(request: Request): nat {
    if request.Duplicate? then 5 else if request.Archive? then 2 else 4
  }

  function Serially(db: Db, request: Request): Progress {
    Alone(Progress(db, Started(request)), RoundTrips(request))
  }

  function RunSerially(db: Db, requests: seq<Request>): Db
    decreases |requests|
  {
    if requests == [] then db else RunSerially(Serially(db, requests[0]).db, requests[1..])
  }

  ghost predicate UpToDate(db: Db) {
    && Consistent(db)
    && (forall w :: w in db.workflows ==> db.workflows[w].currentVersion == |Rows(db, w)|)
  }

  lemma AloneUnfolds(r: Progress, trips: nat)
    requires trips > 0
    ensures Alone(r, trips) == Alone(Step(r.db, r.process), trips - 1)
  {
  }

  lemma {:induction false} SettledStays(db: Db, p: Process, trips: nat)
    requires p.Finished? || p.Failed?
    ensures Alone(Progress(db, p), trips) == Progress(db, p)
  {
    if trips > 0 {
      SettledStays(db, p, trips - 1);
    }
  }

  lemma {:induction false} SaveAlone(db: Db, id: Id, entity: Workflow, trips: nat)
    requires entity.currentVersion <= MaxNumber(Rows(db, id)) && trips >= 1
    ensures Alone(Progress(db, Saving(id, entity)), trips) ==
      Progress(db.(workflows := db.workflows[id := entity]), Finished)
  {
    AloneUnfolds(Progress(db, Saving(id, entity)), trips);
    SettledStays(db.(workflows := db.workflows[id := entity]), Finished, trips - 1);
  }

  lemma CommitOutcome(db: Db, id: Id, entity: Workflow, version: Version)
    requires id in db.workflows && Numbered(Rows(db, id)) && 1 <= version.number <= |Rows(db, id)| + 1
    ensures CommitUpdate(db, id, entity, version) ==
      if version.number <= |Rows(db, id)| then Progress(db, Failed(UniqueViolation))
      else Progress(Db(db.workflows[id := db.workflows[id].(currentVersion := version.number)],
                       db.versions[id := Rows(db, id) + [version]]),
                    Saving(id, entity.(currentVersion := entity.currentVersion + 1)))
  {
    var rows := Rows(db, id);
    FreeNumberIsNext(rows, version.number);
    if version.number > |rows| {
      MaxOfNumbered(rows + [version]);
      var db1 := db.(versions := db.versions[id := rows + [version]]);
      assert Rows(db1, id) == rows + [version];
    }
  }

  lemma {:induction false} CommitAlone(db: Db, id: Id, entity: Workflow, callerId: Id, elements: string,
                                       next: int, trips: nat)
    requires id in db.workflows && Numbered(Rows(db, id)) && trips >= 2
    requires next == entity.currentVersion + 1 && 1 <= next <= |Rows(db, id)| + 1
    ensures Alone(Progress(db, NumberRead(id, entity, callerId, elements, next)), trips) ==
      if next <= |Rows(db, id)| then Progress(db, Failed(UniqueViolation))
      else Progress(Db(db.workflows[id := entity.(currentVersion := next)],
                       db.versions[id := Rows(db, id) + [Version(next, elements, callerId)]]), Finished)
  {
    var version := Version(next, elements, callerId);
    CommitOutcome(db, id, entity, version);
    AloneUnfolds(Progress(db, NumberRead(id, entity, callerId, elements, next)), trips);
    var r := CommitUpdate(db, id, entity, version);
    if next <= |Rows(db, id)| {
      SettledStays(db, Failed(UniqueViolation), trips - 1);
    } else {
      MaxOfNumbered(Rows(db, id) + [version]);
      assert Rows(r.db, id) == Rows(db, id) + [version];
      var saved := entity.(currentVersion := next);
      SaveAlone(r.db, id, saved, trips - 1);
      assert r.db.workflows[id := saved] == db.workflows[id := saved];
    }
  }

  /** A version update run alone appends the next version, or hits the unique constraint. */
  lemma {:induction false} VersionUpdateAlone(db: Db, id: Id, entity: Workflow, callerId: Id, elements: string,
                                              trips: nat)
    requires id in db.workflows && Numbered(Rows(db, id)) && trips >= 3
    requires 0 <= entity.currentVersion == db.workflows[id].currentVersion <= |Rows(db, id)|
    ensures Alone(Progress(db, VersionWanted(id, entity, callerId, elements)), trips) ==
      var n := |Rows(db, id)|;
      if entity.currentVersion < n then Progress(db, Failed(UniqueViolation))
      else Progress(Db(db.workflows[id := entity.(currentVersion := n + 1)],
                       db.versions[id := Rows(db, id) + [Version(n + 1, elements, callerId)]]), Finished)
  {
    AloneUnfolds(Progress(db, VersionWanted(id, entity, callerId, elements)), trips);
    CommitAlone(db, id, entity, callerId, elements, entity.currentVersion + 1, trips - 1);
  }

  lemma {:induction false} ResultAlone(db: Db, id: Id, entity: Workflow, userId: Id, elements: string, trips: nat)
    requires Numbered(Rows(db, id)) && trips >= 3
    ensures var n := |Rows(db, id)|;
      Alone(Progress(db, ResultLoaded(id, entity, userId, elements)), trips) ==
      Progress(Db(db.workflows[id := entity.(currentVersion := n + 1, status := PendingReview)],
                  db.versions[id := Rows(db, id) + [Version(n + 1, elements, userId)]]), Finished)
  {
    var rows := Rows(db, id);
    var n := |rows|;
    MaxOfNumbered(rows);
    FreeNumberIsNext(rows, n + 1);
    var version := Version(n + 1, elements, userId);
    AloneUnfolds(Progress(db, ResultLoaded(id, entity, userId, elements)), trips);
    AloneUnfolds(Progress(db, ResultNumbered(id, entity, userId, elements, n + 1)), trips - 1);
    var db' := db.(versions := db.versions[id := rows + [version]]);
    MaxOfNumbered(rows + [version]);
    assert Rows(db', id) == rows + [version];
    SaveAlone(db', id, entity.(currentVersion := n + 1, status := PendingReview), trips - 2);
  }

  lemma {:induction false} FirstVersionAlone(db: Db, id: Id, entity: Workflow, elements: string, trips: nat)
    requires Rows(db, id) == [] && trips >= 2
    ensures Alone(Progress(db, RowInserted(id, entity, elements)), trips) ==
      Progress(Db(db.workflows[id := entity.(currentVersion := 1)],
                  db.versions[id := [Version(1, elements, entity.ownerId)]]), Finished)
  {
    var version := Version(1, elements, entity.ownerId);
    var db' := db.(versions := db.versions[id := [version]]);
    assert Rows(db, id) + [version] == [version];
    assert InsertVersion(db, id, version) == Ok(db');
    AloneUnfolds(Progress(db, RowInserted(id, entity, elements)), trips);
    AloneUnfolds(Progress(db', FirstVersionInserted(id, entity)), trips - 1);
    var saved := entity.(currentVersion := 1);
    MaxOfNumbered([version]);
    assert Rows(db', id) == [version];
    SettledStays(db'.(workflows := db'.workflows[id := saved]), Finished, trips - 2);
  }

  lemma {:induction false} CreateAlone(db: Db, id: Id, entity: Workflow, elements: string, trips: nat)
    requires Consistent(db) && entity.currentVersion == 0 && trips >= 3
    ensures Alone(Progress(db, Creating(id, entity, elements)), trips) ==
      if id in db.workflows then Progress(db, Failed(DuplicateKey))
      else Progress(Db(db.workflows[id := entity.(currentVersion := 1)],
                       db.versions[id := [Version(1, elements, entity.ownerId)]]), Finished)
  {
    AloneUnfolds(Progress(db, Creating(id, entity, elements)), trips);
    InsertRowPreserves(db, id, entity, elements);
    if id in db.workflows {
      SettledStays(db, Failed(DuplicateKey), trips - 1);
    } else {
      var db' := db.(workflows := db.workflows[id := entity]);
      assert Rows(db', id) == [];
      FirstVersionAlone(db', id, entity, elements, trips - 1);
      var saved := entity.(currentVersion := 1);
      assert db'.workflows[id := saved] == db.workflows[id := saved];
    }
  }

  lemma AdvancedIsUpToDate(db: Db, id: Id, row: Workflow, version: Version)
    requires UpToDate(db)
    requires version.number == |Rows(db, id)| + 1 && row.currentVersion == version.number
    ensures UpToDate(Db(db.workflows[id := row], db.versions[id := Rows(db, id) + [version]]))
  {
    var db' := Db(db.workflows[id := row], db.versions[id := Rows(db, id) + [version]]);
    assert forall u :: u != id ==> Rows(db', u) == Rows(db, u);
    assert Rows(db', id) == Rows(db, id) + [version];
  }

  /** `r` ended with an up-to-date store and without meeting a store constraint. */
  ghost predicate Clean(r: Progress) {
    && UpToDate(r.db)
    && (r.process.Finished? || r.process.Failed?)
    && r.process != Failed(UniqueViolation) && r.process != Failed(TriggerRaised)
  }

  lemma {:induction false} CreateIsClean(db: Db, id: Id, entity: Workflow, elements: string, trips: nat)
    requires UpToDate(db) && entity.currentVersion == 0 && trips >= 3
    ensures Clean(Alone(Progress(db, Creating(id, entity, elements)), trips))
  {
    CreateAlone(db, id, entity, elements, trips);
    if id !in db.workflows {
      var version := Version(1, elements, entity.ownerId);
      assert Rows(db, id) == [] && [] + [version] == [version];
      AdvancedIsUpToDate(db, id, entity.(currentVersion := 1), version);
    }
  }

  lemma {:induction false} SaveIsClean(db: Db, id: Id, entity: Workflow, trips: nat)
    requires UpToDate(db) && id in db.workflows && trips >= 1
    requires entity.currentVersion == db.workflows[id].currentVersion
    ensures Clean(Alone(Progress(db, Saving(id, entity)), trips))
  {
    MaxOfNumbered(Rows(db, id));
    SaveAlone(db, id, entity, trips);
    var db' := db.(workflows := db.workflows[id := entity]);
    assert forall u :: Rows(db', u) == Rows(db, u);
  }

  lemma {:induction false} UpdateIsClean(db: Db, id: Id, entity: Workflow, callerId: Id, elements: string, trips: nat)
    requires UpToDate(db) && id in db.workflows && trips >= 3
    requires entity.currentVersion == db.workflows[id].currentVersion
    ensures Clean(Alone(Progress(db, VersionWanted(id, entity, callerId, elements)), trips))
  {
    VersionUpdateAlone(db, id, entity, callerId, elements, trips);
    var n := |Rows(db, id)|;
    AdvancedIsUpToDate(db, id, entity.(currentVersion := n + 1), Version(n + 1, elements, callerId));
  }

  lemma {:induction false} ResultIsClean(db: Db, id: Id, entity: Workflow, userId: Id, elements: string, trips: nat)
    requires UpToDate(db) && id in db.workflows && trips >= 3
    ensures Clean(Alone(Progress(db, ResultLoaded(id, entity, userId, elements)), trips))
  {
    ResultAlone(db, id, entity, userId, elements, trips);
    var n := |Rows(db, id)|;
    var row := entity.(currentVersion := n + 1, status := PendingReview);
    AdvancedIsUpToDate(db, id, row, Version(n + 1, elements, userId));
  }

  lemma {:induction false} BegunIsClean(db: Db, request: Request)
    requires UpToDate(db)
    ensures Clean(Alone(Progress(db, Begin(db, request)), RoundTrips(request) - 1))
  {
    var p := Begin(db, request);
    var trips := RoundTrips(request) - 1;
    match p {
      case Creating(id, entity, elements) => CreateIsClean(db, id, entity, elements, trips);
      case DuplicateLoaded(newId, entity, source) =>
        AloneUnfolds(Progress(db, p), trips);
        CreateIsClean(db, newId, entity, LatestElements(db, source), trips - 1);
      case VersionWanted(id, entity, callerId, elements) => UpdateIsClean(db, id, entity, callerId, elements, trips);
      case Saving(id, entity) => SaveIsClean(db, id, entity, trips);
      case ResultLoaded(id, entity, userId, elements) => ResultIsClean(db, id, entity, userId, elements, trips);
      case Failed(fault) => SettledStays(db, p, trips);
    }
  }

  /** From an up-to-date store a lone request leaves it up to date and never meets a store constraint. */
  lemma SerialRequestIsClean(db: Db, request: Request)
    requires UpToDate(db)
    ensures Clean(Serially(db, request))
  {
    var trips := RoundTrips(request);
    AloneUnfolds(Progress(db, Started(request)), trips);
    BegunIsClean(db, request);
  }

  /**
   * Serial runs of any length: `currentVersion` is always the highest version number, and no request of
   * the run meets the unique constraint or the trigger.
   */
  lemma {:induction false} SerialRunsStayUpToDate(db: Db, requests: seq<Request>)
    requires UpToDate(db)
    ensures UpToDate(RunSerially(db, requests))
    ensures forall i :: 0 <= i < |requests| ==> Clean(Serially(RunSerially(db, requests[..i]), requests[i]))
    decreases |requests|
  {
    if requests != [] {
      SerialRequestIsClean(db, requests[0]);
      var next, rest := Serially(db, requests[0]).db, requests[1..];
      SerialRunsStayUpToDate(next, rest);
      forall i | 0 <= i < |requests| ensures Clean(Serially(RunSerially(db, requests[..i]), requests[i])) {
        if i > 0 {
          assert requests[..i][1..] == rest[..i - 1] && requests[i] == rest[i - 1];
        }
      }
    }
  }

  /** A version update the service lets through: it names a workflow of the org and an allowed caller. */
  predicate VersionUpdate(db: Db, request: Request) {
    && request.Update? && request.elements.Some?
    && InOrg(db, request.id, request.orgId)
    && (db.workflows[request.id].ownerId == request.callerId || request.isAdmin)
  }

  lemma {:induction false} UpdateFromStart(db: Db, update: Request, trips: nat)
    requires VersionUpdate(db, update) && Numbered(Rows(db, update.id)) && trips >= 4
    requires 0 <= db.workflows[update.id].currentVersion <= |Rows(db, update.id)|
    ensures Alone(Progress(db, Started(update)), trips) == Updated(db, update)
  {
    AloneUnfolds(Progress(db, Started(update)), trips);
    var entity := Patched(db.workflows[update.id], update.patch);
    VersionUpdateAlone(db, update.id, entity, update.callerId, update.elements.value, trips - 1);
  }

  /** What a version update run alone comes to. */
  function Updated(db: Db, update: Request): Progress
    requires VersionUpdate(db, update)
  {
    var n := |Rows(db, update.id)|;
    var entity := Patched(db.workflows[update.id], update.patch);
    if entity.currentVersion < n then Progress(db, Failed(UniqueViolation))
    else
      var version := Version(n + 1, update.elements.value, update.callerId);
      Progress(Db(db.workflows[update.id := entity.(currentVersion := n + 1)],
                  db.versions[update.id := Rows(db, update.id) + [version]]), Finished)
  }

  lemma UpdateSerially(db: Db, update: Request)
    requires VersionUpdate(db, update) && Numbered(Rows(db, update.id))
    requires 0 <= db.workflows[update.id].currentVersion <= |Rows(db, update.id)|
    ensures Serially(db, update) == Updated(db, update)
  {
    UpdateFromStart(db, update, RoundTrips(update));
  }

  /** What is left when the stale entity `stale` is saved over the outcome of a version update. */
  lemma StaleSaveOver(db: Db, id: Id, row: Workflow, version: Version, stale: Workflow)
    requires id in db.workflows && Numbered(Rows(db, id)) && version.number == |Rows(db, id)| + 1
    requires stale.currentVersion == |Rows(db, id)|
    ensures var db' := Db(db.workflows[id := row], db.versions[id := Rows(db, id) + [version]]);
      var saved := Db(db.workflows[id := stale], db'.versions);
      && SaveEntity(db', id, stale) == Progress(saved, Finished)
      && Numbered(Rows(saved, id))
      && MaxNumber(Rows(saved, id)) == |Rows(saved, id)| == |Rows(db, id)| + 1
  {
    var rows := Rows(db, id) + [version];
    var db' := Db(db.workflows[id := row], db.versions[id := rows]);
    assert Rows(db', id) == rows;
    MaxOfNumbered(rows);
    assert db'.workflows[id := stale] == db.workflows[id := stale];
    assert Rows(Db(db.workflows[id := stale], db'.versions), id) == rows;
  }

  /**
   * Exactly when a version update run alone succeeds, in any store an interleaving can leave
   * behind: when `currentVersion` has not been set back below the highest version.
   */
  lemma VersionUpdateSucceedsIff(db: Db, request: Request)
    requires Consistent(db) && VersionUpdate(db, request)
    ensures Serially(db, request).process.Finished?
      <==> db.workflows[request.id].currentVersion == MaxNumber(Rows(db, request.id))
    ensures !Serially(db, request).process.Finished? ==> Serially(db, request) == Progress(db, Failed(UniqueViolation))
  {
    MaxOfNumbered(Rows(db, request.id));
    UpdateSerially(db, request);
  }

  /**
   * `currentVersion == max` is not an invariant of interleaved runs. An archive loads the
   * workflow, a version update runs from start to end, then the archive saves its stale
   * entity: `currentVersion` falls back, and every later version update fails.
   */
  lemma StaleSaveSetsVersionBack(db: Db, archive: Request, update: Request, later: Request)
    requires UpToDate(db) && VersionUpdate(db, update)
    requires archive.Archive? && archive.isAdmin && archive.id == update.id && archive.orgId == update.orgId
    ensures var loaded := Step(db, Started(archive));
      var updated := Serially(loaded.db, update);
      var saved := Step(updated.db, loaded.process);
      && updated.process == Finished && saved.process == Finished
      && update.id in saved.db.workflows
      && saved.db.workflows[update.id].currentVersion == MaxNumber(Rows(saved.db, update.id)) - 1
      && (VersionUpdate(saved.db, later) && later.id == update.id ==>
            Serially(saved.db, later) == Progress(saved.db, Failed(UniqueViolation)))
  {
    var id := update.id;
    var n := |Rows(db, id)|;
    var stale := db.workflows[id].(status := Archived);
    var entity := Patched(db.workflows[id], update.patch);
    var version := Version(n + 1, update.elements.value, update.callerId);
    var loaded := Step(db, Started(archive));
    assert loaded == Progress(db, Saving(id, stale));
    UpdateSerially(db, update);
    StaleSaveOver(db, id, entity.(currentVersion := n + 1), version, stale);
    var saved := Db(db.workflows[id := stale], db.versions[id := Rows(db, id) + [version]]);
    UpdateFailsBehind(saved, later, id);
  }

  lemma UpdateFailsBehind(db: Db, later: Request, id: Id)
    requires id in db.workflows && Numbered(Rows(db, id))
    requires 0 <= db.workflows[id].currentVersion < |Rows(db, id)|
    ensures VersionUpdate(db, later) && later.id == id ==> Serially(db, later) == Progress(db, Failed(UniqueViolation))
  {
    if VersionUpdate(db, later) && later.id == id {
      UpdateSerially(db, later);
    }
  }

  // ---------- when an interleaved save keeps the number at the top ----------

  datatype Held = Held(id: Id, number: int)

  /** The workflow a request is going to save, and the number its entity will carry but for its own commit. */
  function HeldBy(p: Process): Option<Held> {
    match p
    case FirstVersionInserted(id, _) => Some(Held(id, 1))
    case VersionWanted(id, entity, _, _) => Some(Held(id, entity.currentVersion))
    case NumberRead(id, entity, _, _, _) => Some(Held(id, entity.currentVersion))
    case Saving(id, entity) => Some(Held(id, entity.currentVersion))
    case _ => None
  }

  predicate AboutToSave(p: Process) {
    p.Saving? || p.FirstVersionInserted?
  }

  /** How many versions the store has beyond the number the request holds. */
  function Lag(db: Db, p: Process): int
    requires HeldBy(p).Some?
  {
    |Rows(db, HeldBy(p).value.id)| - HeldBy(p).value.number
  }

  predicate AtTop(db: Db, id: Id) {
    id in db.workflows && db.workflows[id].currentVersion == MaxNumber(Rows(db, id))
  }

  /** The save of any request, in any store an interleaving can leave: exactly when it leaves the number at the top. */
  lemma SaveLeavesTopIff(db: Db, p: Process)
    requires Consistent(db) && Sound(db, p) && AboutToSave(p)
    ensures Step(db, p).process == Finished
    ensures AtTop(Step(db, p).db, HeldBy(p).value.id) <==> Lag(db, p) == 0
  {
    var id := HeldBy(p).value.id;
    var entity := if p.Saving? then p.entity else p.entity.(currentVersion := 1);
    SavePreserves(db, id, entity);
    MaxOfNumbered(Rows(db, id));
  }

  /** A request that has just loaded its workflow lags exactly when the stored number does. */
  lemma LoadedAtTopIff(db: Db, request: Request)
    requires Consistent(db) && HeldBy(Begin(db, request)).Some?
    ensures HeldBy(Begin(db, request)).value.id in db.workflows
    ensures Lag(db, Begin(db, request)) == 0 <==> AtTop(db, HeldBy(Begin(db, request)).value.id)
  {
    MaxOfNumbered(Rows(db, HeldBy(Begin(db, request)).value.id));
  }

  /** No event of the run but the request's own appends a version of the workflow. */
  ghost predicate OthersQuiet(s: System, events: seq<Event>, pid: int, id: Id)
    decreases |events|
  {
    events == [] ||
    var t := React(s, events[0]);
    && (events[0] != Advance(pid) ==> Rows(t.db, id) == Rows(s.db, id))
    && OthersQuiet(t, events[1..], pid, id)
  }

  ghost predicate Holds(s: System, pid: int) {
    pid in s.processes && HeldBy(s.processes[pid]).Some?
  }

  lemma OwnCommitKeepsLag(db: Db, id: Id, entity: Workflow, version: Version)
    requires Consistent(db) && id in db.workflows
    requires 0 <= entity.currentVersion <= |Rows(db, id)| && 1 <= version.number <= |Rows(db, id)| + 1
    ensures var r := CommitUpdate(db, id, entity, version);
      r.process.Failed? || (HeldBy(r.process) == Some(Held(id, entity.currentVersion + 1))
                            && |Rows(r.db, id)| == |Rows(db, id)| + 1)
  {
    CommitPreserves(db, id, entity, version);
  }

  /** The request's own round trips do not change its lag: its commit counts in both. */
  lemma OwnStepKeepsLag(db: Db, p: Process)
    requires Consistent(db) && Sound(db, p) && HeldBy(p).Some? && HeldBy(Step(db, p).process).Some?
    ensures HeldBy(Step(db, p).process).value.id == HeldBy(p).value.id
    ensures Lag(Step(db, p).db, Step(db, p).process) == Lag(db, p)
  {
    match p {
      case NumberRead(id, entity, callerId, elements, next) =>
        OwnCommitKeepsLag(db, id, entity, Version(next, elements, callerId));
      case _ =>
    }
  }

  /** An event of another request can only raise the lag, and raises it exactly when it appends. */
  lemma OtherStepRaisesLag(s: System, e: Event, pid: int)
    requires Safe(s) && Holds(s, pid) && e != Advance(pid)
    ensures var t, id := React(s, e), HeldBy(s.processes[pid]).value.id;
      && pid in t.processes && t.processes[pid] == s.processes[pid]
      && Lag(s.db, s.processes[pid]) <= Lag(t.db, t.processes[pid])
      && (Lag(s.db, s.processes[pid]) == Lag(t.db, t.processes[pid]) <==> Rows(t.db, id) == Rows(s.db, id))
  {
    ReactPreserves(s, e);
    var id := HeldBy(s.processes[pid]).value.id;
    assert Rows(s.db, id) <= Rows(React(s, e).db, id);
  }

  /** A request that no longer holds an entity never holds one again. */
  lemma {:induction false} HoldingEnds(s: System, events: seq<Event>, pid: int)
    requires pid in s.processes && (s.processes[pid].Finished? || s.processes[pid].Failed?)
    ensures pid in Run(s, events).processes && !Holds(Run(s, events), pid)
    decreases |events|
  {
    if events != [] {
      HoldingEnds(React(s, events[0]), events[1..], pid);
    }
  }

  lemma {:induction false} LagOverRun(s: System, events: seq<Event>, pid: int)
    requires Safe(s) && Holds(s, pid) && Holds(Run(s, events), pid)
    ensures var t, held := Run(s, events), HeldBy(s.processes[pid]).value;
      && HeldBy(t.processes[pid]).value.id == held.id
      && Lag(s.db, s.processes[pid]) <= Lag(t.db, t.processes[pid])
      && (Lag(s.db, s.processes[pid]) == Lag(t.db, t.processes[pid]) <==> OthersQuiet(s, events, pid, held.id))
    decreases |events|
  {
    if events != [] {
      var next := React(s, events[0]);
      ReactPreserves(s, events[0]);
      if events[0] == Advance(pid) {
        if !Holds(next, pid) {
          HoldingEnds(next, events[1..], pid);
        }
        OwnStepKeepsLag(s.db, s.processes[pid]);
      } else {
        OtherStepRaisesLag(s, events[0], pid);
      }
      LagOverRun(next, events[1..], pid);
    }
  }

  /**
   * Over every interleaving: exactly when a request that holds a workflow at `mid` and comes to save it
   * leaves `currentVersion` at the highest number. It held the top at `mid` (an update or archive: the
   * stored number was at the top when it was loaded), and no other request has committed a version of
   * that workflow since.
   */
  lemma {:induction false} InterleavedSaveKeepsTopIff(before: seq<Event>, between: seq<Event>, pid: int)
    requires Holds(Run(EMPTY, before), pid)
    requires var s := Run(Run(EMPTY, before), between); pid in s.processes && AboutToSave(s.processes[pid])
    ensures var mid := Run(EMPTY, before);
      var id := HeldBy(mid.processes[pid]).value.id;
      AtTop(React(Run(mid, between), Advance(pid)).db, id) <==>
        Lag(mid.db, mid.processes[pid]) == 0 && OthersQuiet(mid, between, pid, id)
  {
    assert Safe(EMPTY);
    RunPreserves(EMPTY, before);
    var mid := Run(EMPTY, before);
    RunPreserves(mid, between);
    var s := Run(mid, between);
    LagOverRun(mid, between, pid);
    SaveLeavesTopIff(s.db, s.processes[pid]);
    HeldIsNotAhead(mid.db, mid.processes[pid]);
  }

  lemma HeldIsNotAhead(db: Db, p: Process)
    requires Sound(db, p) && HeldBy(p).Some?
    ensures Lag(db, p) >= 0
  {
  }
}
