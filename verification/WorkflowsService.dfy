/**
 * The workflow service as one request after the other sees it: each request written as the code
 * writes it, loading, changing and saving rows in place, and shown to be the same request of the
 * interleaved model run without interruption.
 */
module WorkflowsService {
  import opened Common
  import opened WorkflowVersions

  /** The row of a workflow that has just got version `version`, and that version. */
  function Advanced(db: Db, id: Id, row: Workflow, version: Version): Db {
    Db(db.workflows[id := row.(currentVersion := version.number)], db.versions[id := Rows(db, id) + [version]])
  }

  function Added(db: Db, id: Id, row: Workflow, elements: string): Progress {
    if id in db.workflows then Progress(db, Failed(DuplicateKey))
    else Progress(Advanced(db, id, row, Version(1, elements, row.ownerId)), Finished)
  }

  /** All a request does when it is alone. */
  function Lone(db: Db, request: Request): Progress {
    match request
    case Create(id, orgId, ownerId, title) => Added(db, id, Workflow(orgId, ownerId, title, Draft, 0), "{}")
    case Duplicate(source, newId, orgId, ownerId, newTitle) =>
      if !InOrg(db, source, orgId) then Progress(db, Failed(NotFound))
      else
        var title := newTitle.GetOr("Copy of " + db.workflows[source].title);
        Added(db, newId, Workflow(orgId, ownerId, title, Draft, 0), LatestElements(db, source))
    case Update(id, orgId, callerId, isAdmin, patch, elements) =>
      if !InOrg(db, id, orgId) then Progress(db, Failed(NotFound))
      else if db.workflows[id].ownerId != callerId && !isAdmin then Progress(db, Failed(Forbidden))
      else if elements.Some? then Updated(db, request)
      else Progress(db.(workflows := db.workflows[id := Patched(db.workflows[id], patch)]), Finished)
    case Archive(id, orgId, callerId, isAdmin) =>
      if !InOrg(db, id, orgId) then Progress(db, Failed(NotFound))
      else if db.workflows[id].ownerId != callerId && !isAdmin then Progress(db, Failed(Forbidden))
      else Progress(db.(workflows := db.workflows[id := db.workflows[id].(status := Archived)]), Finished)
    case ApplyResult(id, userId, elements) =>
      if id !in db.workflows then Progress(db, Failed(NotFound))
      else
        var version := Version(|Rows(db, id)| + 1, elements, userId);
        Progress(Advanced(db, id, db.workflows[id].(status := PendingReview), version), Finished)
  }

  lemma {:induction false} AddedAlone(db: Db, id: Id, row: Workflow, elements: string, trips: nat)
    requires Consistent(db) && row.currentVersion == 0 && trips >= 3
    ensures Alone(Progress(db, Creating(id, row, elements)), trips) == Added(db, id, row, elements)
  {
    CreateAlone(db, id, row, elements, trips);
    if id !in db.workflows {
      assert Rows(db, id) == [];
      var first := Version(1, elements, row.ownerId);
      assert [] + [first] == [first];
    }
  }

  lemma {:induction false} SavedAlone(db: Db, id: Id, row: Workflow, trips: nat)
    requires Consistent(db) && id in db.workflows && row.currentVersion == db.workflows[id].currentVersion && trips >= 1
    ensures Alone(Progress(db, Saving(id, row)), trips) == Progress(db.(workflows := db.workflows[id := row]), Finished)
  {
    MaxOfNumbered(Rows(db, id));
    SaveAlone(db, id, row, trips);
  }

  lemma UpdateIsLone(db: Db, request: Request)
    requires Consistent(db) && request.Update?
    ensures Serially(db, request) == Lone(db, request)
  {
    var trips, p := RoundTrips(request), Begin(db, request);
    if p.VersionWanted? {
      UpdateSerially(db, request);
    } else {
      AloneUnfolds(Progress(db, Started(request)), trips);
      if p.Saving? {
        SavedAlone(db, p.id, p.entity, trips - 1);
      } else {
        SettledStays(db, p, trips - 1);
      }
    }
  }

  lemma AdditionIsLone(db: Db, request: Request)
    requires Consistent(db) && (request.Create? || request.Duplicate?)
    ensures Serially(db, request) == Lone(db, request)
  {
    var trips, p := RoundTrips(request), Begin(db, request);
    AloneUnfolds(Progress(db, Started(request)), trips);
    match p {
      case Creating(id, entity, elements) => AddedAlone(db, id, entity, elements, trips - 1);
      case DuplicateLoaded(newId, entity, source) =>
        AloneUnfolds(Progress(db, p), trips - 1);
        AddedAlone(db, newId, entity, LatestElements(db, source), trips - 2);
      case Failed(_) => SettledStays(db, p, trips - 1);
    }
  }

  lemma ArchiveIsLone(db: Db, request: Request)
    requires Consistent(db) && request.Archive?
    ensures Serially(db, request) == Lone(db, request)
  {
    var trips, p := RoundTrips(request), Begin(db, request);
    AloneUnfolds(Progress(db, Started(request)), trips);
    if p.Saving? {
      SavedAlone(db, p.id, p.entity, trips - 1);
    } else {
      SettledStays(db, p, trips - 1);
    }
  }

  lemma {:induction false} AppliedAlone(db: Db, id: Id, userId: Id, elements: string, trips: nat)
    requires Consistent(db) && id in db.workflows && trips >= 3
    ensures Alone(Progress(db, ResultLoaded(id, db.workflows[id], userId, elements)), trips) ==
      Lone(db, Request.ApplyResult(id, userId, elements))
  {
    var row, version := db.workflows[id], Version(|Rows(db, id)| + 1, elements, userId);
    ResultAlone(db, id, row, userId, elements, trips);
    assert row.(currentVersion := version.number, status := PendingReview)
        == row.(status := PendingReview).(currentVersion := version.number);
  }

  lemma ResultIsLone(db: Db, request: Request)
    requires Consistent(db) && request.ApplyResult?
    ensures Serially(db, request) == Lone(db, request)
  {
    var trips := RoundTrips(request);
    AloneUnfolds(Progress(db, Started(request)), trips);
    if request.id in db.workflows {
      AppliedAlone(db, request.id, request.userId, request.workflowJson, trips - 1);
    } else {
      SettledStays(db, Failed(NotFound), trips - 1);
    }
  }

  /** Run without interruption, the round trips of a request come to just this. */
  lemma SeriallyIsLone(db: Db, request: Request)
    requires Consistent(db)
    ensures Serially(db, request) == Lone(db, request)
  {
    match request {
      case Update(_, _, _, _, _, _) => UpdateIsLone(db, request);
      case Archive(_, _, _, _) => ArchiveIsLone(db, request);
      case ApplyResult(_, _, _) => ResultIsLone(db, request);
      case _ => AdditionIsLone(db, request);
    }
  }

  lemma SerialPreserves(db: Db, request: Request)
    requires Consistent(db)
    ensures Consistent(Serially(db, request).db) && Grows(db, Serially(db, request).db)
  {
    AlonePreserves(db, Started(request), RoundTrips(request));
  }

  lemma {:induction false} AlonePreserves(db: Db, p: Process, trips: nat)
    requires Consistent(db) && Sound(db, p)
    ensures var r := Alone(Progress(db, p), trips);
      Consistent(r.db) && Grows(db, r.db) && Sound(r.db, r.process)
    decreases trips
  {
    if trips > 0 {
      StepPreserves(db, p);
      var next := Step(db, p);
      AlonePreserves(next.db, next.process, trips - 1);
      GrowsTransitive(db, next.db, Alone(next, trips - 1).db);
    }
  }

  /** What the caller sees of a request that has run to its end. */
  function ErrorOf(p: Process): Option<Fault> {
    if p.Failed? then Some(p.fault) else None
  }

  /** `after` and `fault` are what the request comes to in `before`. */
  predicate Did(before: Db, request: Request, after: Db, fault: Option<Fault>) {
    var r := Lone(before, request);
    after == r.db && fault == ErrorOf(r.process)
  }

  /**
   * What one request after the other gives: the outcome of the uninterrupted round trips, a store
   * that stays consistent and loses nothing, and no store constraint met while it is up to date.
   */
  lemma DidServes(before: Db, request: Request, after: Db, fault: Option<Fault>)
    requires Consistent(before) && Did(before, request, after, fault)
    ensures after == Serially(before, request).db && fault == ErrorOf(Serially(before, request).process)
    ensures Consistent(after) && Grows(before, after)
    ensures UpToDate(before) ==> UpToDate(after) && fault != Some(UniqueViolation) && fault != Some(TriggerRaised)
  {
    SeriallyIsLone(before, request);
    SerialPreserves(before, request);
    if UpToDate(before) {
      SerialRequestIsClean(before, request);
    }
  }

  // ---------- what each request leaves ----------

  /** Nothing about any other workflow changes. */
  ghost predicate OnlyTouches(before: Db, after: Db, id: Id) {
    forall u :: u != id ==>
      && (u in after.workflows <==> u in before.workflows)
      && (u in before.workflows ==> after.workflows[u] == before.workflows[u])
      && Rows(after, u) == Rows(before, u)
  }

  /** A row no other row of the list has a higher number than. */
  predicate IsHighest(rows: seq<Version>, version: Version) {
    version in rows && forall i :: 0 <= i < |rows| ==> rows[i].number <= version.number
  }

  lemma {:induction false} LatestOfFirstIsHighest(rows: seq<Version>, n: nat)
    requires n <= |rows|
    ensures LatestOfFirst(rows, n).None? <==> n == 0
    ensures n > 0 ==> IsHighest(rows[..n], LatestOfFirst(rows, n).value)
  {
    if n > 0 {
      LatestOfFirstIsHighest(rows, n - 1);
      assert rows[..n] == rows[..n - 1] + [rows[n - 1]];
    }
  }

  /** The elements are those of a version with the highest number, and an empty object without versions. */
  ghost predicate ElementsOfHighest(rows: seq<Version>, elements: string) {
    if rows == [] then elements == "{}"
    else exists version :: IsHighest(rows, version) && elements == version.elements
  }

  lemma LatestElementsAre(db: Db, w: Id)
    ensures ElementsOfHighest(Rows(db, w), LatestElements(db, w))
  {
    var rows := Rows(db, w);
    LatestOfFirstIsHighest(rows, |rows|);
    assert rows[..|rows|] == rows;
  }

  /** The workflow is new, a draft at version 1, which is its only version. */
  ghost predicate StartsWith(before: Db, after: Db, id: Id, orgId: Id, ownerId: Id, title: string, elements: string) {
    && id !in before.workflows && id in after.workflows && OnlyTouches(before, after, id)
    && after.workflows[id] == Workflow(orgId, ownerId, title, Draft, 1)
    && Rows(after, id) == [Version(1, elements, ownerId)]
  }

  /** A creation is refused only if the id is taken, and otherwise starts the workflow with an empty object. */
  lemma CreateLeaves(db: Db, id: Id, orgId: Id, ownerId: Id, title: string)
    requires Consistent(db)
    ensures var r := Serially(db, Create(id, orgId, ownerId, title));
      if id in db.workflows then r == Progress(db, Failed(DuplicateKey))
      else r.process == Finished && StartsWith(db, r.db, id, orgId, ownerId, title, "{}")
  {
    SeriallyIsLone(db, Create(id, orgId, ownerId, title));
    assert id !in db.workflows ==> Rows(db, id) == [];
  }

  /**
   * A copy belongs to the caller and is a draft at version 1, whatever the source was, and its one version
   * has the elements of the source's highest version.
   */
  lemma DuplicateLeaves(db: Db, source: Id, newId: Id, orgId: Id, ownerId: Id, newTitle: Option<string>)
    requires Consistent(db)
    ensures var r := Serially(db, Duplicate(source, newId, orgId, ownerId, newTitle));
      if source !in db.workflows || db.workflows[source].orgId != orgId then r == Progress(db, Failed(NotFound))
      else if newId in db.workflows then r == Progress(db, Failed(DuplicateKey))
      else
        var title := if newTitle.Some? then newTitle.value else "Copy of " + db.workflows[source].title;
        r.process == Finished && exists elements ::
          ElementsOfHighest(Rows(db, source), elements) && StartsWith(db, r.db, newId, orgId, ownerId, title, elements)
  {
    SeriallyIsLone(db, Duplicate(source, newId, orgId, ownerId, newTitle));
    LatestElementsAre(db, source);
    assert newId !in db.workflows ==> Rows(db, newId) == [];
    var r := Serially(db, Duplicate(source, newId, orgId, ownerId, newTitle));
    if r.process == Finished {
      var title := if newTitle.Some? then newTitle.value else "Copy of " + db.workflows[source].title;
      assert StartsWith(db, r.db, newId, orgId, ownerId, title, LatestElements(db, source));
    }
  }

  /** Why a change by this caller is refused, if it is. */
  predicate Refuses(db: Db, id: Id, orgId: Id, callerId: Id, isAdmin: bool, r: Progress) {
    if id !in db.workflows || db.workflows[id].orgId != orgId then r == Progress(db, Failed(NotFound))
    else db.workflows[id].ownerId != callerId && !isAdmin && r == Progress(db, Failed(Forbidden))
  }

  predicate MayChange(db: Db, id: Id, orgId: Id, callerId: Id, isAdmin: bool) {
    id in db.workflows && db.workflows[id].orgId == orgId && (db.workflows[id].ownerId == callerId || isAdmin)
  }

  /** The row with a new title, unless that is empty, and a new status, where the patch names them. */
  ghost predicate FollowsPatch(before: Workflow, after: Workflow, patch: Patch) {
    && after.orgId == before.orgId && after.ownerId == before.ownerId
    && (patch.title.Some? && patch.title.value != "" ==> after.title == patch.title.value)
    && (patch.title.None? || patch.title.value == "" ==> after.title == before.title)
    && (patch.status.Some? ==> after.status == patch.status.value)
    && (patch.status.None? ==> after.status == before.status)
  }

  /**
   * An update: refused for a stranger; without elements it follows the patch and adds no version; with
   * elements it also appends them as the caller's version n + 1, or meets the unique constraint and changes
   * nothing when the stored number is behind.
   */
  lemma UpdateLeaves(db: Db, id: Id, orgId: Id, callerId: Id, isAdmin: bool, patch: Patch, elements: Option<string>)
    requires Consistent(db)
    ensures var r := Serially(db, Update(id, orgId, callerId, isAdmin, patch, elements));
      if !MayChange(db, id, orgId, callerId, isAdmin) then Refuses(db, id, orgId, callerId, isAdmin, r)
      else
        var n, row := |Rows(db, id)|, db.workflows[id];
        if elements.Some? && row.currentVersion < n then r == Progress(db, Failed(UniqueViolation))
        else
          && r.process == Finished && OnlyTouches(db, r.db, id)
          && id in r.db.workflows && FollowsPatch(row, r.db.workflows[id], patch)
          && (elements.None? ==>
                r.db.workflows[id].currentVersion == row.currentVersion && Rows(r.db, id) == Rows(db, id))
          && (elements.Some? ==>
                && r.db.workflows[id].currentVersion == n + 1
                && Rows(r.db, id) == Rows(db, id) + [Version(n + 1, elements.value, callerId)])
  {
    SeriallyIsLone(db, Update(id, orgId, callerId, isAdmin, patch, elements));
  }

  /** An archive: refused for a stranger, and otherwise nothing but the status changes. */
  lemma ArchiveLeaves(db: Db, id: Id, orgId: Id, callerId: Id, isAdmin: bool)
    requires Consistent(db)
    ensures var r := Serially(db, Archive(id, orgId, callerId, isAdmin));
      if !MayChange(db, id, orgId, callerId, isAdmin) then Refuses(db, id, orgId, callerId, isAdmin, r)
      else
        var row := db.workflows[id];
        && r.process == Finished && OnlyTouches(db, r.db, id) && Rows(r.db, id) == Rows(db, id)
        && id in r.db.workflows
        && r.db.workflows[id] == Workflow(row.orgId, row.ownerId, row.title, Archived, row.currentVersion)
  {
    SeriallyIsLone(db, Archive(id, orgId, callerId, isAdmin));
  }

  /** A result becomes version n + 1, made by the session's user, and the workflow waits for review. */
  lemma ResultLeaves(db: Db, id: Id, userId: Id, elements: string)
    requires Consistent(db)
    ensures var r := Serially(db, ApplyResult(id, userId, elements));
      if id !in db.workflows then r == Progress(db, Failed(NotFound))
      else
        var n, row := |Rows(db, id)|, db.workflows[id];
        && r.process == Finished && OnlyTouches(db, r.db, id) && id in r.db.workflows
        && r.db.workflows[id] == Workflow(row.orgId, row.ownerId, row.title, PendingReview, n + 1)
        && Rows(r.db, id) == Rows(db, id) + [Version(n + 1, elements, userId)]
  {
    SeriallyIsLone(db, ApplyResult(id, userId, elements));
  }

  class Service {
    var workflows: map<Id, Workflow>
    var versions: map<Id, seq<Version>>

    function State(): Db
      reads this
    {
      Db(workflows, versions)
    }

    constructor ()
      ensures State() == Db(map[], map[]) && Consistent(State()) && UpToDate(State())
    {
      workflows, versions := map[], map[];
    }

    method Save(id: Id, workflow: Workflow) returns (fault: Option<Fault>)
      modifies this`workflows
      ensures match SaveWorkflow(old(State()), id, workflow)
        case Ok(db) => State() == db && fault.None?
        case Err(f) => State() == old(State()) && fault == Some(f)
    {
      if workflow.currentVersion > MaxNumber(Rows(State(), id)) {
        return Some(TriggerRaised);
      }
      workflows := workflows[id := workflow];
      return None;
    }

    method Insert(id: Id, version: Version) returns (fault: Option<Fault>)
      modifies this`versions
      ensures match InsertVersion(old(State()), id, version)
        case Ok(db) => State() == db && fault.None?
        case Err(f) => State() == old(State()) && fault == Some(f)
    {
      if Taken(Rows(State(), id), version.number) {
        return Some(UniqueViolation);
      }
      versions := versions[id := Rows(State(), id) + [version]];
      return None;
    }

    /** A new row, its first version, and the row again with the version's number. */
    method AddWorkflow(id: Id, workflow: Workflow, elements: string) returns (fault: Option<Fault>)
      requires Consistent(State()) && workflow.currentVersion == 0
      modifies this
      ensures var r := Added(old(State()), id, workflow, elements);
        State() == r.db && fault == ErrorOf(r.process)
    {
      if id in workflows {
        return Some(DuplicateKey);
      }
      assert Rows(State(), id) == [];
      workflows := workflows[id := workflow];
      var version := Version(1, elements, workflow.ownerId);
      fault := Insert(id, version);
      assert [] + [version] == [version];
      MaxOfNumbered([version]);
      fault := Save(id, workflow.(currentVersion := 1));
    }

    method Create(id: Id, title: string, orgId: Id, ownerId: Id) returns (fault: Option<Fault>)
      requires Consistent(State())
      modifies this
      ensures Did(old(State()), Request.Create(id, orgId, ownerId, title), State(), fault)
    {
      fault := AddWorkflow(id, Workflow(orgId, ownerId, title, Draft, 0), "{}");
    }

    method Duplicate(source: Id, newId: Id, orgId: Id, ownerId: Id, newTitle: Option<string>)
      returns (fault: Option<Fault>)
      requires Consistent(State())
      modifies this
      ensures Did(old(State()), Request.Duplicate(source, newId, orgId, ownerId, newTitle), State(), fault)
    {
      if !InOrg(State(), source, orgId) {
        return Some(NotFound);
      }
      var elements := LatestElements(State(), source);
      var copy := Workflow(orgId, ownerId, newTitle.GetOr("Copy of " + workflows[source].title), Draft, 0);
      fault := AddWorkflow(newId, copy, elements);
    }

    /** The transaction of a version update: both rows are written, or neither. */
    method CommitNextVersion(id: Id, callerId: Id, elements: string) returns (fault: Option<Fault>)
      requires Consistent(State()) && id in workflows
      modifies this
      ensures var n, row := |Rows(old(State()), id)|, old(workflows)[id];
        if row.currentVersion < n then State() == old(State()) && fault == Some(UniqueViolation)
        else State() == Advanced(old(State()), id, row, Version(n + 1, elements, callerId)) && fault.None?
    {
      var number := workflows[id].currentVersion + 1;
      var version := Version(number, elements, callerId);
      CommitOutcome(State(), id, workflows[id], version);
      var committed := CommitVersion(State(), id, version);
      if committed.Err? {
        return Some(committed.error);
      }
      workflows, versions := committed.value.workflows, committed.value.versions;
      return None;
    }

    /** Commit the next version, count it in the loaded entity, and save that. */
    method SaveWithVersion(id: Id, entity: Workflow, callerId: Id, elements: string) returns (fault: Option<Fault>)
      requires Consistent(State()) && id in workflows && entity.currentVersion == workflows[id].currentVersion
      modifies this
      ensures var n := |Rows(old(State()), id)|;
        if entity.currentVersion < n then State() == old(State()) && fault == Some(UniqueViolation)
        else State() == Advanced(old(State()), id, entity, Version(n + 1, elements, callerId)) && fault.None?
    {
      ghost var rows := Rows(State(), id);
      fault := CommitNextVersion(id, callerId, elements);
      if fault.Some? {
        return;
      }
      assert Rows(State(), id) == rows + [Version(|rows| + 1, elements, callerId)];
      MaxOfNumbered(Rows(State(), id));
      fault := Save(id, entity.(currentVersion := entity.currentVersion + 1));
    }

    method Update(id: Id, orgId: Id, callerId: Id, isAdmin: bool, patch: Patch, elements: Option<string>)
      returns (fault: Option<Fault>)
      requires Consistent(State())
      modifies this
      ensures Did(old(State()), Request.Update(id, orgId, callerId, isAdmin, patch, elements), State(), fault)
    {
      if !InOrg(State(), id, orgId) {
        return Some(NotFound);
      }
      var workflow := workflows[id];
      if workflow.ownerId != callerId && !isAdmin {
        return Some(Forbidden);
      }
      if patch.title.Some? && patch.title.value != "" {
        workflow := workflow.(title := patch.title.value);
      }
      if patch.status.Some? {
        workflow := workflow.(status := patch.status.value);
      }
      assert workflow == Patched(workflows[id], patch);
      if elements.Some? {
        fault := SaveWithVersion(id, workflow, callerId, elements.value);
      } else {
        MaxOfNumbered(Rows(State(), id));
        fault := Save(id, workflow);
      }
    }

    method Archive(id: Id, orgId: Id, callerId: Id, isAdmin: bool) returns (fault: Option<Fault>)
      requires Consistent(State())
      modifies this
      ensures Did(old(State()), Request.Archive(id, orgId, callerId, isAdmin), State(), fault)
    {
      if !InOrg(State(), id, orgId) {
        return Some(NotFound);
      }
      var workflow := workflows[id];
      if workflow.ownerId != callerId && !isAdmin {
        return Some(Forbidden);
      }
      workflow := workflow.(status := Archived);
      MaxOfNumbered(Rows(State(), id));
      fault := Save(id, workflow);
    }

    /** The version step of the AI result handler. */
    method ApplyResult(id: Id, userId: Id, elements: string) returns (fault: Option<Fault>)
      requires Consistent(State())
      modifies this
      ensures Did(old(State()), Request.ApplyResult(id, userId, elements), State(), fault)
    {
      if id !in workflows {
        return Some(NotFound);
      }
      var workflow := workflows[id];
      var rows := Rows(State(), id);
      MaxOfNumbered(rows);
      var number := LatestNumber(State(), id) + 1;
      FreeNumberIsNext(rows, number);
      fault := Insert(id, Version(number, elements, userId));
      if fault.Some? {
        return;
      }
      workflow := workflow.(currentVersion := number, status := PendingReview);
      assert Rows(State(), id) == rows + [Version(number, elements, userId)];
      MaxOfNumbered(Rows(State(), id));
      fault := Save(id, workflow);
    }
  }
}
