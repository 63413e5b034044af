/** Uploading, deleting and reprocessing session documents: version numbers and size limits. */
module DocumentQuota {
  import opened Common

  type Id = string

  const MIB: nat := 1024 * 1024
  const MAX_FILE: nat := 50 * MIB
  const MAX_SESSION: nat := 200 * MIB

  /** A row keeps its place; its id is that place. `session` is empty for a document outside any session. */
  datatype Document = Document(
    workflowId: Option<Id>, session: Option<Id>, filename: string, fileType: string, storageUrl: string,
    size: nat, version: int, deleted: bool)

  /** `sessions` gives the workflow of a session, `workflows` the organisation of a workflow. */
  datatype Store = Store(docs: seq<Document>, sessions: map<Id, Id>, workflows: map<Id, Id>)

  datatype File = File(name: string, size: nat)

  /** `fileType` and `storageUrl` are what validation and the object store answer; no type, no upload. */
  datatype Request =
    | Upload(orgId: Id, sessionId: Id, workflowId: Option<Id>, file: Option<File>, fileType: Option<string>,
             storageUrl: string)
    | SoftDelete(orgId: Id, doc: nat)
    | Reprocess(orgId: Id, doc: nat)

  datatype Refusal = NoFile | FileTooLarge | BadType | SessionNotFound | OtherWorkflow | SessionFull
    | DocumentNotFound | NotASessionDocument

  predicate Owned(st: Store, workflowId: Id, orgId: Id) {
    workflowId in st.workflows && st.workflows[workflowId] == orgId
  }

  predicate OwnedSession(st: Store, sessionId: Id, orgId: Id) {
    sessionId in st.sessions && Owned(st, st.sessions[sessionId], orgId)
  }

  predicate Active(st: Store, doc: nat, orgId: Id) {
    && doc < |st.docs| && !st.docs[doc].deleted
    && st.docs[doc].workflowId.Some? && Owned(st, st.docs[doc].workflowId.value, orgId)
  }

  // ---------- the aggregate queries ----------

  /** Bytes of the session's first `n` rows, deleted ones included. */
  function BytesTo(docs: seq<Document>, n: nat, sessionId: Id): nat
    requires n <= |docs|
  {
    if n == 0 then 0
    else BytesTo(docs, n - 1, sessionId) + (if docs[n - 1].session == Some(sessionId) then docs[n - 1].size else 0)
  }

  function SessionBytes(docs: seq<Document>, sessionId: Id): nat {
    BytesTo(docs, |docs|, sessionId)
  }

  predicate Named(d: Document, sessionId: Id, filename: string) {
    d.session == Some(sessionId) && d.filename == filename
  }

  /** The highest version among the first `n` rows of that name, or 0; deleted ones included. */
  function MaxTo(docs: seq<Document>, n: nat, sessionId: Id, filename: string): int
    requires n <= |docs|
  {
    if n == 0 then 0
    else
      var m := MaxTo(docs, n - 1, sessionId, filename);
      if Named(docs[n - 1], sessionId, filename) && docs[n - 1].version > m then docs[n - 1].version else m
  }

  function NextVersion(docs: seq<Document>, sessionId: Id, filename: string): int {
    MaxTo(docs, |docs|, sessionId, filename) + 1
  }

  // ---------- requests ----------

  function TryUpload(st: Store, r: Request): Result<Document, Refusal>
    requires r.Upload?
  {
    if r.file.None? then Err(NoFile)
    else if r.file.value.size > MAX_FILE then Err(FileTooLarge)
    else if r.fileType.None? then Err(BadType)
    else if !OwnedSession(st, r.sessionId, r.orgId) then Err(SessionNotFound)
    else if r.workflowId.Some? && r.workflowId.value != st.sessions[r.sessionId] then Err(OtherWorkflow)
    else if SessionBytes(st.docs, r.sessionId) + r.file.value.size > MAX_SESSION then Err(SessionFull)
    else Ok(Document(Some(st.sessions[r.sessionId]), Some(r.sessionId), r.file.value.name, r.fileType.value,
                     r.storageUrl, r.file.value.size,
                     NextVersion(st.docs, r.sessionId, r.file.value.name), false))
  }

  function TryReprocess(st: Store, r: Request): Result<Document, Refusal>
    requires r.Reprocess?
  {
    if !Active(st, r.doc, r.orgId) then Err(DocumentNotFound)
    else if st.docs[r.doc].session.None? then Err(NotASessionDocument)
    else
      var d := st.docs[r.doc];
      Ok(d.(version := NextVersion(st.docs, d.session.value, d.filename)))
  }

  function Append(st: Store, d: Document): Store {
    st.(docs := st.docs + [d])
  }

  /** The state a request leaves, and its refusal if it is refused. */
  function Serve(st: Store, r: Request): (Store, Option<Refusal>) {
    match r
    case Upload(_, _, _, _, _, _) =>
      (match TryUpload(st, r)
       case Ok(d) => (Append(st, d), None)
       case Err(e) => (st, Some(e)))
    case Reprocess(_, _) =>
      (match TryReprocess(st, r)
       case Ok(d) => (Append(st, d), None)
       case Err(e) => (st, Some(e)))
    case SoftDelete(orgId, doc) =>
      if Active(st, doc, orgId) then (st.(docs := st.docs[doc := st.docs[doc].(deleted := true)]), None)
      else (st, Some(DocumentNotFound))
  }

  function Run(st: Store, requests: seq<Request>): Store
    decreases |requests|
  {
    if requests == [] then st else Run(Serve(st, requests[0]).0, requests[1..])
  }

  // ---------- rows only change in what the queries do not look at ----------

  /** The rows of `docs`, in their places, up to deletion. */
  ghost predicate Extends(docs: seq<Document>, later: seq<Document>) {
    |docs| <= |later| && forall i :: 0 <= i < |docs| ==> later[i].(deleted := docs[i].deleted) == docs[i]
  }

  lemma {:induction false} QueriesIgnoreDeletion(docs: seq<Document>, later: seq<Document>, n: nat,
                                                 sessionId: Id, filename: string)
    requires Extends(docs, later) && n <= |docs|
    ensures BytesTo(later, n, sessionId) == BytesTo(docs, n, sessionId)
    ensures MaxTo(later, n, sessionId, filename) == MaxTo(docs, n, sessionId, filename)
    ensures CountTo(later, n, sessionId, filename) == CountTo(docs, n, sessionId, filename)
  {
    if n > 0 {
      QueriesIgnoreDeletion(docs, later, n - 1, sessionId, filename);
      assert later[n - 1].(deleted := docs[n - 1].deleted) == docs[n - 1];
    }
  }

  lemma ServeExtends(st: Store, r: Request)
    ensures Extends(st.docs, Serve(st, r).0.docs)
    ensures Serve(st, r).0.sessions == st.sessions && Serve(st, r).0.workflows == st.workflows
  {
  }

  // ---------- version numbers ----------

  /** How many of the first `n` rows have that name. */
  function CountTo(docs: seq<Document>, n: nat, sessionId: Id, filename: string): nat
    requires n <= |docs|
  {
    if n == 0 then 0
    else CountTo(docs, n - 1, sessionId, filename) + (if Named(docs[n - 1], sessionId, filename) then 1 else 0)
  }

  /** Row `i` carries the number of rows of its name up to and including it. */
  predicate NumberedAt(docs: seq<Document>, i: nat)
    requires i < |docs|
  {
    docs[i].session.Some? ==>
      docs[i].version == 1 + CountTo(docs, i, docs[i].session.value, docs[i].filename)
  }

  ghost predicate Numbered(docs: seq<Document>) {
    forall i :: 0 <= i < |docs| ==> NumberedAt(docs, i)
  }

  lemma {:induction false} MaxIsCount(docs: seq<Document>, n: nat, sessionId: Id, filename: string)
    requires Numbered(docs) && n <= |docs|
    ensures MaxTo(docs, n, sessionId, filename) == CountTo(docs, n, sessionId, filename)
  {
    if n > 0 {
      MaxIsCount(docs, n - 1, sessionId, filename);
      assert NumberedAt(docs, n - 1);
    }
  }

  lemma ExtendKeepsNumbered(docs: seq<Document>, later: seq<Document>)
    requires Numbered(docs) && Extends(docs, later)
    requires |later| > |docs| ==>
      var d := later[|docs|];
      && |later| == |docs| + 1 && d.session.Some? && d.version == NextVersion(docs, d.session.value, d.filename)
    ensures Numbered(later)
  {
    forall i | 0 <= i < |later| ensures NumberedAt(later, i) {
      var d := later[i];
      if d.session.Some? {
        QueriesIgnoreDeletion(docs, later, i, d.session.value, d.filename);
        if i < |docs| {
          assert NumberedAt(docs, i);
        } else {
          MaxIsCount(docs, i, d.session.value, d.filename);
        }
      }
    }
  }

  lemma {:induction false} RunKeepsNumbered(st: Store, requests: seq<Request>)
    requires Numbered(st.docs)
    ensures Numbered(Run(st, requests).docs)
    decreases |requests|
  {
    if requests != [] {
      var next := Serve(st, requests[0]).0;
      ServeExtends(st, requests[0]);
      ExtendKeepsNumbered(st.docs, next.docs);
      RunKeepsNumbered(next, requests[1..]);
    }
  }

  /** Some row of that name carries version `v`. */
  ghost predicate HasVersion(docs: seq<Document>, n: nat, sessionId: Id, filename: string, v: int) {
    exists i :: 0 <= i < n && i < |docs| && Named(docs[i], sessionId, filename) && docs[i].version == v
  }

  lemma {:induction false} CountGrows(docs: seq<Document>, m: nat, n: nat, sessionId: Id, filename: string)
    requires m <= n <= |docs|
    ensures CountTo(docs, m, sessionId, filename) <= CountTo(docs, n, sessionId, filename)
  {
    if m < n {
      CountGrows(docs, m, n - 1, sessionId, filename);
    }
  }

  lemma {:induction false} VersionsUpToCount(docs: seq<Document>, n: nat, sessionId: Id, filename: string, v: int)
    requires Numbered(docs) && n <= |docs|
    ensures HasVersion(docs, n, sessionId, filename, v) <==> 1 <= v <= CountTo(docs, n, sessionId, filename)
  {
    if n > 0 {
      VersionsUpToCount(docs, n - 1, sessionId, filename, v);
      assert NumberedAt(docs, n - 1);
    }
  }

  /**
   * In every serial run, the versions of a file name in a session are exactly 1..n for the n rows that
   * carry it, deleted ones included, each version once, numbered in the order they were stored.
   */
  lemma {:induction false} VersionsAreNumbered(st: Store, requests: seq<Request>, sessionId: Id, filename: string)
    requires st.docs == []
    ensures var docs := Run(st, requests).docs;
      && (forall v :: HasVersion(docs, |docs|, sessionId, filename, v) <==>
            1 <= v <= CountTo(docs, |docs|, sessionId, filename))
      && (forall i, j :: 0 <= i < j < |docs|
            && Named(docs[i], sessionId, filename) && Named(docs[j], sessionId, filename)
            ==> docs[i].version < docs[j].version)
  {
    RunKeepsNumbered(st, requests);
    var docs := Run(st, requests).docs;
    forall v
      ensures HasVersion(docs, |docs|, sessionId, filename, v) <==>
        1 <= v <= CountTo(docs, |docs|, sessionId, filename)
    {
      VersionsUpToCount(docs, |docs|, sessionId, filename, v);
    }
    forall i, j | 0 <= i < j < |docs| && Named(docs[i], sessionId, filename) && Named(docs[j], sessionId, filename)
      ensures docs[i].version < docs[j].version
    {
      assert NumberedAt(docs, i) && NumberedAt(docs, j);
      CountGrows(docs, i + 1, j, sessionId, filename);
    }
  }

  // ---------- sizes ----------

  ghost predicate SmallFiles(docs: seq<Document>) {
    forall i :: 0 <= i < |docs| ==> docs[i].size <= MAX_FILE
  }

  /** How many reprocessings of the session's documents were accepted since an upload to it was. */
  function Since(st: Store, r: Request, sessionId: Id, before: nat): nat {
    if Serve(st, r).1.Some? then before
    else if r.Upload? && r.sessionId == sessionId then 0
    else if r.Reprocess? && st.docs[r.doc].session == Some(sessionId) then before + 1
    else before
  }

  function SinceInRun(st: Store, requests: seq<Request>, sessionId: Id, before: nat): nat
    decreases |requests|
  {
    if requests == [] then before
    else SinceInRun(Serve(st, requests[0]).0, requests[1..], sessionId, Since(st, requests[0], sessionId, before))
  }

  ghost predicate WithinLimits(st: Store, sessionId: Id, since: nat) {
    SmallFiles(st.docs) && SessionBytes(st.docs, sessionId) <= MAX_SESSION + MAX_FILE * since
  }

  /** A row more: its size goes to its session and to no other. Deleting a row frees nothing. */
  lemma BytesAfterServe(st: Store, r: Request, sessionId: Id)
    ensures var docs := Serve(st, r).0.docs;
      SessionBytes(docs, sessionId) == SessionBytes(st.docs, sessionId)
        + (if |docs| > |st.docs| && docs[|st.docs|].session == Some(sessionId) then docs[|st.docs|].size else 0)
  {
    ServeExtends(st, r);
    QueriesIgnoreDeletion(st.docs, Serve(st, r).0.docs, |st.docs|, sessionId, "");
  }

  /** An upload is refused for size exactly when it would leave more than 200 MiB, and otherwise leaves at most that. */
  lemma UploadMeetsLimitIff(st: Store, r: Request)
    requires r.Upload? && r.file.Some?
    ensures Serve(st, r).1.None? ==>
      && r.file.value.size <= MAX_FILE
      && SessionBytes(Serve(st, r).0.docs, r.sessionId)
           == SessionBytes(st.docs, r.sessionId) + r.file.value.size <= MAX_SESSION
    ensures Serve(st, r).1 == Some(SessionFull) ==>
      SessionBytes(st.docs, r.sessionId) + r.file.value.size > MAX_SESSION && Serve(st, r).0 == st
    ensures Serve(st, r).1 in {None, Some(SessionFull)} <==>
      && r.file.value.size <= MAX_FILE && r.fileType.Some? && OwnedSession(st, r.sessionId, r.orgId)
      && r.workflowId.GetOr(st.sessions[r.sessionId]) == st.sessions[r.sessionId]
  {
    BytesAfterServe(st, r, r.sessionId);
  }

  /** Reprocessing checks no limit: it keeps the session within 200 MiB exactly when there happens to be room. */
  lemma ReprocessMeetsLimitIff(st: Store, r: Request)
    requires r.Reprocess? && Serve(st, r).1.None?
    ensures var d := st.docs[r.doc];
      (SessionBytes(Serve(st, r).0.docs, d.session.value) <= MAX_SESSION <==>
        SessionBytes(st.docs, d.session.value) + d.size <= MAX_SESSION)
  {
    BytesAfterServe(st, r, st.docs[r.doc].session.value);
  }

  lemma ServeKeepsLimits(st: Store, r: Request, sessionId: Id, since: nat)
    requires WithinLimits(st, sessionId, since)
    ensures WithinLimits(Serve(st, r).0, sessionId, Since(st, r, sessionId, since))
  {
    BytesAfterServe(st, r, sessionId);
  }

  /**
   * In every run: no session ever holds more than 200 MiB and 50 MiB for each reprocessing accepted
   * since the last accepted upload to it.
   */
  lemma {:induction false} SessionsStayWithinLimits(st: Store, requests: seq<Request>, sessionId: Id, since: nat)
    requires WithinLimits(st, sessionId, since)
    ensures WithinLimits(Run(st, requests), sessionId, SinceInRun(st, requests, sessionId, since))
    decreases |requests|
  {
    if requests != [] {
      ServeKeepsLimits(st, requests[0], sessionId, since);
      SessionsStayWithinLimits(Serve(st, requests[0]).0, requests[1..], sessionId,
                               Since(st, requests[0], sessionId, since));
    }
  }

  // ---------- what each request leaves ----------

  /** The document is of the organisation and not deleted. */
  predicate Visible(st: Store, doc: nat, orgId: Id) {
    && doc < |st.docs| && !st.docs[doc].deleted && st.docs[doc].workflowId.Some?
    && st.docs[doc].workflowId.value in st.workflows && st.workflows[st.docs[doc].workflowId.value] == orgId
  }

  /** Why an upload is refused, if it is: the first of these that applies. */
  predicate UploadRefused(st: Store, r: Request, why: Refusal)
    requires r.Upload?
  {
    if r.file.None? then why == NoFile
    else if r.file.value.size > 52_428_800 then why == FileTooLarge
    else if r.fileType.None? then why == BadType
    else if r.sessionId !in st.sessions || st.sessions[r.sessionId] !in st.workflows
      || st.workflows[st.sessions[r.sessionId]] != r.orgId then why == SessionNotFound
    else if r.workflowId.Some? && r.workflowId != Some(st.sessions[r.sessionId]) then why == OtherWorkflow
    else SessionBytes(st.docs, r.sessionId) + r.file.value.size > 209_715_200 && why == SessionFull
  }

  /** One row more, the next version of its name in its session, and not deleted. */
  ghost predicate Adds(st: Store, after: Store, workflowId: Option<Id>, sessionId: Id, filename: string,
                       fileType: string, storageUrl: string, size: nat)
  {
    && |after.docs| == |st.docs| + 1 && after.docs[..|st.docs|] == st.docs
    && after.docs[|st.docs|] ==
         Document(workflowId, Some(sessionId), filename, fileType, storageUrl, size,
                  1 + CountTo(st.docs, |st.docs|, sessionId, filename), false)
    && after.sessions == st.sessions && after.workflows == st.workflows
  }

  /** An upload stores the file as the session's, under the session's workflow, or is refused without a trace. */
  lemma UploadLeaves(st: Store, r: Request)
    requires Numbered(st.docs) && r.Upload?
    ensures match Serve(st, r).1
      case Some(why) => Serve(st, r).0 == st && UploadRefused(st, r, why)
      case None =>
        && r.file.Some? && r.fileType.Some? && r.sessionId in st.sessions
        && (forall why :: !UploadRefused(st, r, why))
        && Adds(st, Serve(st, r).0, Some(st.sessions[r.sessionId]), r.sessionId, r.file.value.name, r.fileType.value,
                r.storageUrl, r.file.value.size)
  {
    if Serve(st, r).1.None? {
      MaxIsCount(st.docs, |st.docs|, r.sessionId, r.file.value.name);
    }
  }

  /** Reprocessing stores a visible session document once more, and leaves the one there is as it was. */
  lemma ReprocessLeaves(st: Store, r: Request)
    requires Numbered(st.docs) && r.Reprocess?
    ensures var (after, why) := Serve(st, r);
      if !Visible(st, r.doc, r.orgId) then after == st && why == Some(DocumentNotFound)
      else
        var d := st.docs[r.doc];
        if d.session.None? then after == st && why == Some(NotASessionDocument)
        else why.None? && Adds(st, after, d.workflowId, d.session.value, d.filename, d.fileType, d.storageUrl, d.size)
  {
    if Visible(st, r.doc, r.orgId) && st.docs[r.doc].session.Some? {
      MaxIsCount(st.docs, |st.docs|, st.docs[r.doc].session.value, st.docs[r.doc].filename);
    }
  }

  /** A deletion marks a visible document, which is visible no more, and changes no other. */
  lemma DeleteLeaves(st: Store, r: Request, other: nat)
    requires r.SoftDelete?
    ensures var (after, why) := Serve(st, r);
      if !Visible(st, r.doc, r.orgId) then after == st && why == Some(DocumentNotFound)
      else
        && why.None? && |after.docs| == |st.docs| && after.docs[r.doc].deleted
        && !Visible(after, r.doc, r.orgId)
        && (other < |st.docs| && other != r.doc ==> after.docs[other] == st.docs[other])
  {
  }

  // ---------- the service ----------

  class Service {
    var docs: seq<Document>
    const sessions: map<Id, Id>
    const workflows: map<Id, Id>

    function State(): Store
      reads this
    {
      Store(docs, sessions, workflows)
    }

    constructor (sessions: map<Id, Id>, workflows: map<Id, Id>)
      ensures State() == Store([], sessions, workflows)
    {
      docs, this.sessions, this.workflows := [], sessions, workflows;
    }

    method UploadDocument(orgId: Id, sessionId: Id, workflowId: Option<Id>, file: Option<File>,
                          fileType: Option<string>, storageUrl: string)
      returns (refusal: Option<Refusal>)
      modifies this`docs
      ensures (State(), refusal) ==
        Serve(old(State()), Upload(orgId, sessionId, workflowId, file, fileType, storageUrl))
    {
      if file.None? {
        return Some(NoFile);
      }
      if file.value.size > MAX_FILE {
        return Some(FileTooLarge);
      }
      if fileType.None? {
        return Some(BadType);
      }
      if !OwnedSession(State(), sessionId, orgId) {
        return Some(SessionNotFound);
      }
      var owner := sessions[sessionId];
      if workflowId.Some? && workflowId.value != owner {
        return Some(OtherWorkflow);
      }
      var current := SessionBytes(docs, sessionId);
      if current + file.value.size > MAX_SESSION {
        return Some(SessionFull);
      }
      var next := NextVersion(docs, sessionId, file.value.name);
      docs := docs + [Document(Some(owner), Some(sessionId), file.value.name, fileType.value, storageUrl,
                               file.value.size, next, false)];
      return None;
    }

    method SoftDeleteDocument(doc: nat, orgId: Id) returns (refusal: Option<Refusal>)
      modifies this`docs
      ensures (State(), refusal) == Serve(old(State()), SoftDelete(orgId, doc))
    {
      if !Active(State(), doc, orgId) {
        return Some(DocumentNotFound);
      }
      docs := docs[doc := docs[doc].(deleted := true)];
      return None;
    }

    method ReprocessDocument(doc: nat, orgId: Id) returns (refusal: Option<Refusal>)
      modifies this`docs
      ensures (State(), refusal) == Serve(old(State()), Reprocess(orgId, doc))
    {
      if !Active(State(), doc, orgId) {
        return Some(DocumentNotFound);
      }
      var document := docs[doc];
      if document.session.None? {
        return Some(NotASessionDocument);
      }
      var next := NextVersion(docs, document.session.value, document.filename);
      docs := docs + [document.(version := next)];
      return None;
    }
  }
}
