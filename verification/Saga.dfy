/** The evidence saga: uploads and deletes that run concurrently over one database,
    one audit log and one object store, with a failure possible at every call.
    A process is a program counter over the statements of `upload_evidence` or
    `delete_evidence`; `Take` runs one statement, or one of the three statements
    inside an `append`. */
module Saga {
  import opened Wrappers
  import opened Time
  import opened Utf8
  import opened Json
  import opened Events
  import opened ObjectKeys
  import A = AuditRun

  datatype Settings = Settings(audit: A.Env, maxSize: nat)

  type Pid = nat

  datatype Row = Row(id: string, caseId: string, objectKey: string, fileSize: nat, sha256: string)

  /** What ends an upload: the service's own refusals, or what a call raised. */
  datatype Error = Integrity | Duplicate | Empty | TooLarge | Storage | Other(name: string)

  /** What a call may raise; the three refusals come from the service's own checks only. */
  type Fault = e: Error | e.Integrity? || e.Storage? || e.Other? witness Storage

  datatype Outcome =
    | NotStarted                            // the first event could not be committed
    | Accepted
    | Rejected(error: Error, recorded: bool)  // recorded: the failure event was committed
    | Escaped(error: Error)                 // the rollback in the handler raised

  datatype UploadPc =
    | AppendStarted | CommitStarted
    | Receive | CheckDuplicate | AppendHashed | CommitHashed
    | Put | Create | AppendStored | AppendCreated | CommitCreated
    | Undo(error: Error) | Compensate(error: Error) | AppendFailed(error: Error) | CommitFailed(error: Error)
    | Closing(outcome: Outcome) | Finished(outcome: Outcome)

  datatype DeleteOutcome = NotFound | NotDeleted | Removed

  datatype DeletePc =
    | Lookup | RemoveObject(row: Row) | RemoveRow(row: Row) | AppendDeleted(row: Row) | CommitDeleted(row: Row)
    | Leaving(outcome: DeleteOutcome) | Left(outcome: DeleteOutcome)

  /** `inserted` and `removed` are the uncommitted row changes of the process's
      transaction; `hashed` says that the HASHED event is committed. */
  datatype Proc =
    | Upload(caseId: string, id: string, name: string, source: string, actor: Option<string>, content: seq<Byte>,
             pc: UploadPc, stored: bool, hashed: bool, inserted: Option<Row>)
    | Delete(caseId: string, id: string, at: DeletePc, removed: Option<string>)

  /** `strays` are the keys of compensations that failed and were logged, `escaped`
      those of uploads whose rollback raised, `emptied` the ids whose object a
      delete has removed; no step reads these three. */
  datatype World = World(
    db: A.Db, rows: map<string, Row>, objects: map<string, seq<Byte>>, procs: map<Pid, Proc>,
    strays: set<string>, escaped: set<string>, emptied: set<string>)

  const EMPTY := World(A.EMPTY, map[], map[], map[], {}, {}, {})

  function KeyOf(p: Proc): string
    requires p.Upload?
  {
    ObjectKey(p.caseId, p.id, p.name)
  }

  function RowOf(s: Settings, p: Proc): Row
    requires p.Upload?
  {
    Row(p.id, p.caseId, KeyOf(p), |p.content|, s.audit.sha(p.content))
  }

  predicate Conflicts(a: Row, b: Row) { a.caseId == b.caseId && a.sha256 == b.sha256 }

  // ----- the audit events of the saga -----

  function EvidenceDraft(p: Proc, t: EventType, operation: string, actor: Option<string>,
                         inputHash: Option<string>, outputHash: Option<string>, metadata: Members): Draft {
    Draft(p.caseId, t, "evidence", operation, Some(p.id), actor, inputHash, outputHash, metadata)
  }

  function StartedDraft(p: Proc): Draft
    requires p.Upload?
  {
    EvidenceDraft(p, UploadStarted, "upload", p.actor, None, None,
                  Member("filename", Str(p.name), Member("source_type", Str(p.source), NoMembers)))
  }

  function HashedDraft(s: Settings, p: Proc): Draft
    requires p.Upload?
  {
    EvidenceDraft(p, Hashed, "hash", p.actor, None, Some(s.audit.sha(p.content)), NoMembers)
  }

  function StoredDraft(p: Proc): Draft
    requires p.Upload?
  {
    EvidenceDraft(p, Stored, "store", p.actor, None, None, Member("object_key", Str(KeyOf(p)), NoMembers))
  }

  function CreatedDraft(s: Settings, p: Proc): Draft
    requires p.Upload?
  {
    EvidenceDraft(p, Created, "create", p.actor, None, Some(s.audit.sha(p.content)), NoMembers)
  }

  /** The reason text: fixed for an integrity error, otherwise the exception's class. */
  function Reason(e: Error): string {
    match e
    case Integrity => "duplicate evidence"
    case Duplicate => "ConflictError"
    case Empty => "EvidenceValidationError"
    case TooLarge => "EvidenceValidationError"
    case Storage => "StorageError"
    case Other(name) => name
  }

  function FailedDraft(p: Proc, e: Error): Draft
    requires p.Upload?
  {
    EvidenceDraft(p, UploadFailed, "upload", p.actor, None, None, Member("reason", Str(Reason(e)), NoMembers))
  }

  function DeletedDraft(p: Proc, row: Row): Draft {
    EvidenceDraft(p, Deleted, "delete", None, Some(row.sha256), None, NoMembers)
  }

  // ----- steps -----

  /** What the environment answers to a call: it returns, with a fresh event id and
      the clock for an insert, or it raises. */
  datatype Input = Go(eventId: string, now: Instant) | Raise(error: Fault)

  datatype Label =
    | StartUpload(pid: Pid, caseId: string, id: string, name: string, source: string, actor: Option<string>,
                  content: seq<Byte>)
    | StartDelete(pid: Pid, caseId: string, id: string)
    | Take(pid: Pid, input: Input)
    | Background(audit: A.Label)

  function AuditMove(s: Settings, w: World, l: A.Label, next: Proc): Option<World> {
    var db := A.Step(s.audit, w.db, l);
    if db.Some? then Some(w.(db := db.value, procs := w.procs[l.tx := next])) else None
  }

  /** One of the three statements of `append`; the last one moves the process on. */
  function AppendMove(s: Settings, w: World, pid: Pid, draft: Draft, next: Proc, input: Input): Option<World>
    requires pid in w.procs && input.Go?
  {
    match A.TxnOf(w.db, pid).phase
    case Idle => AuditMove(s, w, A.Lock(pid, draft.caseId), w.procs[pid])
    case Locked(_) => AuditMove(s, w, A.ReadLatest(pid), w.procs[pid])
    case Linked(_, _) => AuditMove(s, w, A.Insert(pid, draft, input.eventId, input.now), next)
  }

  function Goto(w: World, pid: Pid, next: Proc): Option<World> { Some(w.(procs := w.procs[pid := next])) }

  /** The row neither is in the table nor waits in another transaction. */
  predicate NoConflict(w: World, pid: Pid, row: Row) {
    && (forall id <- w.rows :: !Conflicts(w.rows[id], row))
    && (forall q <- w.procs :: q != pid && w.procs[q].Upload? && w.procs[q].inserted.Some?
          ==> !Conflicts(w.procs[q].inserted.value, row))
  }

  function UploadGo(s: Settings, w: World, pid: Pid, p: Proc, input: Input): Option<World>
    requires pid in w.procs && w.procs[pid] == p && p.Upload? && input.Go?
  {
    match p.pc
    case AppendStarted => AppendMove(s, w, pid, StartedDraft(p), p.(pc := CommitStarted), input)
    case CommitStarted => AuditMove(s, w, A.Commit(pid), p.(pc := Receive))
    case Receive =>
      Goto(w, pid, p.(pc := if |p.content| == 0 then Undo(Empty)
                            else if |p.content| > s.maxSize then Undo(TooLarge)
                            else CheckDuplicate))
    case CheckDuplicate =>
      var found := exists id <- w.rows :: Conflicts(w.rows[id], RowOf(s, p));
      Goto(w, pid, p.(pc := if found then Undo(Duplicate) else AppendHashed))
    case AppendHashed => AppendMove(s, w, pid, HashedDraft(s, p), p.(pc := CommitHashed), input)
    case CommitHashed => AuditMove(s, w, A.Commit(pid), p.(pc := Put, hashed := true))
    case Put => Goto(w.(objects := w.objects[KeyOf(p) := p.content]), pid, p.(pc := Create, stored := true))
    case Create =>
      if NoConflict(w, pid, RowOf(s, p)) then Goto(w, pid, p.(pc := AppendStored, inserted := Some(RowOf(s, p))))
      else None
    case AppendStored => AppendMove(s, w, pid, StoredDraft(p), p.(pc := AppendCreated), input)
    case AppendCreated => AppendMove(s, w, pid, CreatedDraft(s, p), p.(pc := CommitCreated), input)
    case CommitCreated =>
      var rows := if p.inserted.Some? then w.rows[p.id := p.inserted.value] else w.rows;
      AuditMove(s, w.(rows := rows), A.Commit(pid), p.(pc := Finished(Accepted), inserted := None))
    case Undo(e) => AuditMove(s, w, A.Rollback(pid), p.(pc := Compensate(e), inserted := None))
    case Compensate(e) =>
      Goto(if p.stored then w.(objects := w.objects - {KeyOf(p)}) else w, pid, p.(pc := AppendFailed(e)))
    case AppendFailed(e) => AppendMove(s, w, pid, FailedDraft(p, e), p.(pc := CommitFailed(e)), input)
    case CommitFailed(e) => AuditMove(s, w, A.Commit(pid), p.(pc := Finished(Rejected(e, true))))
    case Closing(outcome) => AuditMove(s, w, A.Rollback(pid), p.(pc := Finished(outcome), inserted := None))
    case Finished(_) => None
  }

  function UploadRaise(w: World, pid: Pid, p: Proc, error: Error): Option<World>
    requires p.Upload?
  {
    match p.pc
    case AppendStarted => Goto(w, pid, p.(pc := Closing(NotStarted)))
    case CommitStarted => Goto(w, pid, p.(pc := Closing(NotStarted)))
    case Undo(e) =>
      Goto(if p.stored then w.(escaped := w.escaped + {KeyOf(p)}) else w, pid, p.(pc := Closing(Escaped(e))))
    case Compensate(e) =>
      if p.stored then Goto(w.(strays := w.strays + {KeyOf(p)}), pid, p.(pc := AppendFailed(e))) else None
    case AppendFailed(e) => Goto(w, pid, p.(pc := Closing(Rejected(e, false))))
    case CommitFailed(e) => Goto(w, pid, p.(pc := Closing(Rejected(e, false))))
    case Closing(_) => None
    case Finished(_) => None
    case _ => Goto(w, pid, p.(pc := Undo(error)))
  }

  /** A delete waits while another transaction holds the deleted row. */
  predicate RowFree(w: World, pid: Pid, id: string) {
    forall q <- w.procs :: q != pid && w.procs[q].Delete? ==> w.procs[q].removed != Some(id)
  }

  function DeleteGo(s: Settings, w: World, pid: Pid, p: Proc, input: Input): Option<World>
    requires pid in w.procs && w.procs[pid] == p && p.Delete? && input.Go?
  {
    match p.at
    case Lookup =>
      if p.id in w.rows && w.rows[p.id].caseId == p.caseId then Goto(w, pid, p.(at := RemoveObject(w.rows[p.id])))
      else Goto(w, pid, p.(at := Leaving(NotFound)))
    case RemoveObject(row) =>
      Goto(w.(objects := w.objects - {row.objectKey}, emptied := w.emptied + {p.id}), pid, p.(at := RemoveRow(row)))
    case RemoveRow(row) =>
      if RowFree(w, pid, p.id) then Goto(w, pid, p.(at := AppendDeleted(row), removed := Some(p.id))) else None
    case AppendDeleted(row) => AppendMove(s, w, pid, DeletedDraft(p, row), p.(at := CommitDeleted(row)), input)
    case CommitDeleted(row) =>
      AuditMove(s, w.(rows := w.rows - {p.id}), A.Commit(pid), p.(at := Left(Removed), removed := None))
    case Leaving(outcome) => AuditMove(s, w, A.Rollback(pid), p.(at := Left(outcome), removed := None))
    case Left(_) => None
  }

  function DeleteRaise(w: World, pid: Pid, p: Proc): Option<World>
    requires p.Delete?
  {
    if p.at.Leaving? || p.at.Left? then None else Goto(w, pid, p.(at := Leaving(NotDeleted)))
  }

  function TakeStep(s: Settings, w: World, pid: Pid, input: Input): Option<World> {
    if pid !in w.procs then None
    else
      var p := w.procs[pid];
      match p
      case Upload(_, _, _, _, _, _, _, _, _, _) =>
        if input.Go? then UploadGo(s, w, pid, p, input) else UploadRaise(w, pid, p, input.error)
      case Delete(_, _, _, _) =>
        if input.Go? then DeleteGo(s, w, pid, p, input) else DeleteRaise(w, pid, p)
  }

  predicate FreshId(w: World, id: string) { forall q <- w.procs :: w.procs[q].Upload? ==> w.procs[q].id != id }

  /** Transactions of other services write about cases only. */
  predicate AboutCases(l: A.Label) {
    l.Insert? ==> l.draft.resourceType == "case" && l.draft.eventType in {CaseCreated, CaseUpdated}
  }

  function Step(s: Settings, w: World, l: Label): Option<World> {
    match l
    case StartUpload(pid, c, id, name, source, actor, content) =>
      if pid in w.procs || pid in w.db.open || !FreshId(w, id) then None
      else if !NoSlash(c) || !NoSlash(id) || !NoSlash(name) then None
      else Goto(w, pid, Upload(c, id, name, source, actor, content, AppendStarted, false, false, None))
    case StartDelete(pid, c, id) =>
      if pid in w.procs || pid in w.db.open then None
      else Goto(w, pid, Delete(c, id, Lookup, None))
    case Take(pid, input) => TakeStep(s, w, pid, input)
    case Background(audit) =>
      if audit.tx in w.procs || !AboutCases(audit) then None
      else
        var db := A.Step(s.audit, w.db, audit);
        if db.Some? then Some(w.(db := db.value)) else None
  }

  /** A schedule runs label by label; a label that is not enabled does nothing. */
  function Run(s: Settings, w: World, schedule: seq<Label>): World {
    if schedule == [] then w
    else
      var before := Run(s, w, schedule[..|schedule| - 1]);
      var after := Step(s, before, schedule[|schedule| - 1]);
      if after.Some? then after.value else before
  }
}
