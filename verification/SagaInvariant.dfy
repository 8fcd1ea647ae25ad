/** What holds of the evidence saga after every step of every process. */
module SagaInvariant {
  import opened Wrappers
  import opened Events
  import opened ObjectKeys
  import opened Saga
  import A = AuditRun

  // ----- reading the audit log -----

  predicate About(e: Event, id: string) { e.resourceType == "evidence" && e.resourceId == Some(id) }

  /** The types of the events about evidence `id`, in order. */
  function Types(table: seq<Event>, id: string): seq<EventType> {
    if table == [] then []
    else Types(table[..|table| - 1], id) + TypeOf(table[|table| - 1], id)
  }

  function TypeOf(e: Event, id: string): seq<EventType> { if About(e, id) then [e.eventType] else [] }

  /** The evidence that the log says is there: CREATED adds an id with its digest,
      DELETED takes it away. */
  function Replay(table: seq<Event>): map<string, Option<string>> {
    if table == [] then map[]
    else ReplayOne(Replay(table[..|table| - 1]), table[|table| - 1])
  }

  function ReplayOne(m: map<string, Option<string>>, e: Event): map<string, Option<string>> {
    if e.resourceType != "evidence" || e.resourceId.None? then m
    else if e.eventType == Created then m[e.resourceId.value := e.outputHash]
    else if e.eventType == Deleted then m - {e.resourceId.value}
    else m
  }

  /** Every STORED event is directly followed by the CREATED event of the same evidence. */
  predicate Paired(table: seq<Event>) {
    forall i | 0 <= i < |table| && table[i].eventType == Stored ::
      i + 1 < |table| && table[i + 1].eventType == Created
      && table[i + 1].resourceId == table[i].resourceId && table[i + 1].caseId == table[i].caseId
  }

  lemma {:induction false} TypesSnoc(table: seq<Event>, e: Event, id: string)
    ensures Types(table + [e], id) == Types(table, id) + TypeOf(e, id)
    ensures Replay(table + [e]) == ReplayOne(Replay(table), e)
  {
    assert (table + [e])[..|table|] == table;
  }

  // ----- open transactions -----

  predicate FromDrafts(xs: seq<Event>, ds: seq<Draft>) {
    |xs| == |ds| && forall i | 0 <= i < |xs| :: FromDraft(xs[i], ds[i])
  }

  function PendingOf(w: World, t: A.Tx): seq<Event> { A.TxnOf(w.db, t).pending }

  /** What an upload has inserted since its last commit. */
  function Waiting(s: Settings, p: Proc): seq<Draft>
    requires p.Upload?
  {
    match p.pc
    case CommitStarted => [StartedDraft(p)]
    case CommitHashed => [HashedDraft(s, p)]
    case AppendCreated => [StoredDraft(p)]
    case CommitCreated => [StoredDraft(p), CreatedDraft(s, p)]
    case CommitFailed(e) => [FailedDraft(p, e)]
    case _ => []
  }

  // ----- the state of one upload -----

  predicate BeforePut(pc: UploadPc) {
    pc.AppendStarted? || pc.CommitStarted? || pc.Receive? || pc.CheckDuplicate? || pc.AppendHashed? || pc.CommitHashed?
    || pc.Put?
  }

  /** Between a successful insert and its commit. */
  predicate Inserted(pc: UploadPc) { pc.AppendStored? || pc.AppendCreated? || pc.CommitCreated? }

  /** The object is this upload's to keep or to take away again. */
  predicate InFlight(pc: UploadPc) { pc.Create? || Inserted(pc) || pc.Undo? || pc.Compensate? }

  predicate IsAccepted(pc: UploadPc) { pc == Finished(Accepted) }

  predicate PastReceive(pc: UploadPc) {
    pc.CheckDuplicate? || pc.AppendHashed? || pc.CommitHashed? || pc.Put? || pc.Create? || Inserted(pc)
    || IsAccepted(pc)
  }

  predicate ObjectOk(w: World, p: Proc)
    requires p.Upload?
  {
    var k := KeyOf(p);
    && (k in w.objects ==> w.objects[k] == p.content)
    && (BeforePut(p.pc) ==> !p.stored && k !in w.objects)
    && (p.pc.Create? || Inserted(p.pc) ==> p.stored && k in w.objects)
    && (p.pc.Undo? || p.pc.Compensate? ==> (p.stored <==> k in w.objects))
    && (IsAccepted(p.pc) ==> (k in w.objects <==> p.id !in w.emptied))
    && (!BeforePut(p.pc) && !InFlight(p.pc) && !IsAccepted(p.pc) && k in w.objects ==> k in w.strays + w.escaped)
    && (!IsAccepted(p.pc) ==> p.id !in w.emptied)
  }

  predicate RowOk(s: Settings, w: World, p: Proc)
    requires p.Upload?
  {
    && (p.id in w.rows ==> IsAccepted(p.pc) && w.rows[p.id] == RowOf(s, p))
    && (p.inserted.Some? ==> p.inserted.value == RowOf(s, p))
    && (Inserted(p.pc) ==> p.inserted.Some?)
    && (p.inserted.Some? ==> Inserted(p.pc) || p.pc.Undo? || p.pc.Closing?)
    && (p.id !in w.rows && IsAccepted(p.pc) ==> p.id in w.emptied)
    && (PastReceive(p.pc) ==> 0 < |p.content| <= s.maxSize)
  }

  predicate NothingCommitted(pc: UploadPc) {
    pc.AppendStarted? || pc.CommitStarted? || pc == Closing(NotStarted) || pc == Finished(NotStarted)
  }

  /** The committed events of an upload that has not been accepted. */
  function Trace(p: Proc): seq<EventType>
    requires p.Upload?
  {
    if NothingCommitted(p.pc) then []
    else
      [UploadStarted] + (if p.hashed then [Hashed] else [])
      + (if p.pc.Finished? && p.pc.outcome.Rejected? && p.pc.outcome.recorded then [UploadFailed] else [])
  }

  /** The events of an accepted upload: four, and then deletions, none while the row is there. */
  predicate AcceptedTrace(ts: seq<EventType>, present: bool) {
    && |ts| >= 4 && ts[..4] == [UploadStarted, Hashed, Stored, Created]
    && (forall i | 4 <= i < |ts| :: ts[i] == Deleted)
    && (present <==> |ts| == 4)
  }

  predicate TraceOk(w: World, p: Proc)
    requires p.Upload?
  {
    if IsAccepted(p.pc) then AcceptedTrace(Types(w.db.committed, p.id), p.id in w.rows)
    else Types(w.db.committed, p.id) == Trace(p)
  }

  predicate FlagsOk(p: Proc)
    requires p.Upload?
  {
    && NoSlash(p.caseId) && NoSlash(p.id) && NoSlash(p.name)
    && (NothingCommitted(p.pc) || p.pc.Receive? || p.pc.CheckDuplicate? || p.pc.AppendHashed? || p.pc.CommitHashed?
        ==> !p.hashed)
    && (p.pc.Put? || p.pc.Create? || Inserted(p.pc) || IsAccepted(p.pc) ==> p.hashed)
    && (p.pc.Closing? ==> p.pc.outcome != Accepted && (p.pc.outcome.Rejected? ==> !p.pc.outcome.recorded))
  }

  predicate PendingOk(s: Settings, w: World, pid: Pid, p: Proc)
    requires p.Upload?
  {
    p.pc.Undo? || p.pc.Closing? || FromDrafts(PendingOf(w, pid), Waiting(s, p))
  }

  predicate UploadOk(s: Settings, w: World, pid: Pid, p: Proc)
    requires p.Upload?
  {
    FlagsOk(p) && ObjectOk(w, p) && RowOk(s, w, p) && TraceOk(w, p) && PendingOk(s, w, pid, p)
  }

  // ----- the state of one delete -----

  predicate AcceptedUpload(w: World, u: Pid, id: string) {
    u in w.procs && w.procs[u].Upload? && w.procs[u].id == id && IsAccepted(w.procs[u].pc)
  }

  ghost predicate Known(w: World, id: string) { exists u :: AcceptedUpload(w, u, id) }

  ghost predicate KnownRow(s: Settings, w: World, row: Row) {
    exists u :: AcceptedUpload(w, u, row.id) && RowOf(s, w.procs[u]) == row
  }

  function RowsHeld(at: DeletePc): Option<Row> {
    match at
    case RemoveObject(row) => Some(row)
    case RemoveRow(row) => Some(row)
    case AppendDeleted(row) => Some(row)
    case CommitDeleted(row) => Some(row)
    case _ => None
  }

  predicate PastStorage(at: DeletePc) { at.RemoveRow? || at.AppendDeleted? || at.CommitDeleted? || at == Left(Removed) }

  ghost predicate DeleteOk(s: Settings, w: World, pid: Pid, p: Proc)
    requires p.Delete?
  {
    && (RowsHeld(p.at).Some? ==>
          var row := RowsHeld(p.at).value; row.id == p.id && row.caseId == p.caseId && KnownRow(s, w, row))
    && (PastStorage(p.at) ==> p.id in w.emptied && Known(w, p.id))
    && (p.at == Left(Removed) ==> p.id !in w.rows)
    && p.at != Leaving(Removed)
    && (p.removed.Some? ==> p.removed.value == p.id)
    && (p.at.Leaving? || FromDrafts(PendingOf(w, pid), if p.at.CommitDeleted? then [DeletedDraft(p, p.at.row)] else []))
  }

  // ----- the invariant -----

  ghost predicate ProcOk(s: Settings, w: World, pid: Pid)
    requires pid in w.procs
  {
    var p := w.procs[pid];
    if p.Upload? then UploadOk(s, w, pid, p) else DeleteOk(s, w, pid, p)
  }

  ghost predicate ProcsOk(s: Settings, w: World) { forall pid <- w.procs :: ProcOk(s, w, pid) }

  predicate IdsDiffer(w: World) {
    forall p <- w.procs, q <- w.procs ::
      p != q && w.procs[p].Upload? && w.procs[q].Upload? ==> w.procs[p].id != w.procs[q].id
  }

  predicate Owner(w: World, u: Pid, k: string) { u in w.procs && w.procs[u].Upload? && KeyOf(w.procs[u]) == k }

  ghost predicate ObjectsOwned(w: World) { forall k <- w.objects :: exists u :: Owner(w, u, k) }

  ghost predicate RowsKnown(w: World) { forall id <- w.rows :: Known(w, id) && w.rows[id].id == id }

  predicate RowsUnique(w: World) {
    forall i <- w.rows, j <- w.rows :: i != j ==> !Conflicts(w.rows[i], w.rows[j])
  }

  predicate Waits(w: World, p: Pid) { p in w.procs && w.procs[p].Upload? && w.procs[p].inserted.Some? }

  predicate WaitingUnique(w: World) {
    && (forall p <- w.procs, id <- w.rows :: Waits(w, p) ==> !Conflicts(w.rows[id], w.procs[p].inserted.value))
    && (forall p <- w.procs, q <- w.procs :: p != q && Waits(w, p) && Waits(w, q)
          ==> !Conflicts(w.procs[p].inserted.value, w.procs[q].inserted.value))
  }

  function Digests(rows: map<string, Row>): map<string, Option<string>> { map id | id in rows :: Some(rows[id].sha256) }

  predicate LogOk(w: World) { Paired(w.db.committed) && Replay(w.db.committed) == Digests(w.rows) }

  predicate CaseEvent(e: Event) { e.resourceType == "case" && e.eventType in {CaseCreated, CaseUpdated} }

  predicate BackgroundOk(w: World) {
    forall t <- w.db.open :: t !in w.procs ==> forall e <- w.db.open[t].pending :: CaseEvent(e)
  }

  predicate HasId(w: World, u: Pid, id: string) { u in w.procs && w.procs[u].Upload? && w.procs[u].id == id }

  ghost predicate Used(w: World, id: string) { exists u :: HasId(w, u, id) }

  /** Nothing is recorded about an id that no upload has. */
  ghost predicate FreshOk(w: World) {
    forall id: string :: Used(w, id) || (Types(w.db.committed, id) == [] && id !in w.emptied)
  }

  ghost predicate TablesOk(w: World) {
    && IdsDiffer(w) && ObjectsOwned(w) && RowsKnown(w) && RowsUnique(w) && WaitingUnique(w) && LogOk(w)
    && BackgroundOk(w) && FreshOk(w)
  }

  ghost predicate Inv(s: Settings, w: World) { A.Inv(s.audit, w.db) && ProcsOk(s, w) && TablesOk(w) }
}
