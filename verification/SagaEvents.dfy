/** What the committed events of uploads and deletes say, field by field. */
module SagaEvents {
  import opened Wrappers
  import opened Json
  import opened Events
  import opened ObjectKeys
  import opened Saga
  import opened SagaInvariant
  import opened SagaProof
  import opened SagaRun
  import opened SagaTurns
  import opened SagaRefusals
  import A = AuditRun

  /** The reason recorded for an error: a fixed text where the database refused a second
      row, and otherwise the class of the exception. */
  predicate Explains(reason: string, e: Error) {
    match e
    case Integrity => reason == "duplicate evidence"
    case Duplicate => reason == "ConflictError"
    case Empty => reason == "EvidenceValidationError"
    case TooLarge => reason == "EvidenceValidationError"
    case Storage => reason == "StorageError"
    case Other(class_) => reason == class_
  }

  /** Event `e` is one that upload `p` may have in the log, and says what it should. */
  predicate Recorded(s: Settings, p: Proc, e: Event)
    requires p.Upload?
  {
    var digest, metadata := s.audit.sha(p.content), MembersOf(e.metadata);
    && e.caseId == Some(p.caseId) && e.resourceType == "evidence" && e.resourceId == Some(p.id)
    && (e.eventType != Deleted ==> e.actorId == p.actor && e.inputHash == None)
    && match e.eventType
       case UploadStarted =>
         && e.operation == "upload" && e.outputHash == None
         && metadata == map["filename" := VStr(p.name), "source_type" := VStr(p.source)]
       case Hashed => e.operation == "hash" && e.outputHash == Some(digest) && metadata == map[]
       case Stored =>
         && e.operation == "store" && e.outputHash == None
         && metadata == map["object_key" := VStr("cases/" + p.caseId + "/evidence/" + p.id + "/" + p.name)]
       case Created => e.operation == "create" && e.outputHash == Some(digest) && metadata == map[]
       case UploadFailed =>
         && e.operation == "upload" && e.outputHash == None
         && p.pc.Finished? && p.pc.outcome.Rejected? && p.pc.outcome.recorded
         && metadata.Keys == {"reason"} && metadata["reason"].VStr?
         && Explains(metadata["reason"].text, p.pc.outcome.error)
       case Deleted =>
         && e.operation == "delete" && e.actorId == None && e.inputHash == Some(digest) && e.outputHash == None
         && metadata == map[] && p.pc == Finished(Accepted)
       case _ => false
  }

  ghost predicate RecordedBy(s: Settings, w: World, u: Pid, e: Event) {
    u in w.procs && w.procs[u].Upload? && Recorded(s, w.procs[u], e)
  }

  /** The event is about a case, or some upload has it in the log. */
  ghost predicate Explained(s: Settings, w: World, e: Event) { CaseEvent(e) || exists u :: RecordedBy(s, w, u, e) }

  ghost predicate AllExplained(s: Settings, w: World) { forall e <- w.db.committed :: Explained(s, w, e) }

  // ----- the drafts -----

  lemma KeyText(p: Proc)
    requires p.Upload?
    ensures KeyOf(p) == "cases/" + p.caseId + "/evidence/" + p.id + "/" + p.name
  {
    var c, i, n := p.caseId, p.id, p.name;
    assert "cases/" + c + "/evidence/" + i + "/" + n == "cases/" + c + "/" + "evidence/" + i + "/" + n;
    assert KeyOf(p) == "cases/" + c + "/" + "evidence/" + i + "/" + n;
  }

  lemma OnePair(k: string, v: string)
    ensures MembersOf(Member(k, Str(v), NoMembers)) == map[k := VStr(v)]
  {
    assert MembersOf(NoMembers) == map[];
  }

  lemma TwoPairs(k: string, v: string, l: string, x: string)
    requires k != l
    ensures MembersOf(Member(k, Str(v), Member(l, Str(x), NoMembers))) == map[k := VStr(v), l := VStr(x)]
  {
    OnePair(l, x);
  }

  /** What an upload commits, it has in the log in the state that the commit leaves it in. */
  lemma WaitingRecorded(s: Settings, p: Proc, q: Proc, i: nat, e: Event)
    requires p.Upload? && (CommitPc(p.pc) || p.pc.CommitCreated?)
    requires q == if p.pc.CommitCreated? then AfterAccept(p) else AfterCommit(p)
    requires i < |Waiting(s, p)| && FromDraft(e, Waiting(s, p)[i])
    ensures Recorded(s, q, e)
  {
    hide ObjectKey, MembersOf;
    assert MembersOf(NoMembers) == map[] by { NothingPaired(); }
    match p.pc
    case CommitStarted => TwoPairs("filename", p.name, "source_type", p.source);
    case CommitFailed(error) => OnePair("reason", Reason(error));
    case CommitCreated =>
      KeyText(p);
      OnePair("object_key", KeyOf(p));
    case _ =>
  }

  lemma NothingPaired()
    ensures MembersOf(NoMembers) == map[]
  {
  }

  lemma DeletionRecorded(s: Settings, p: Proc, row: Row, v: Proc, e: Event)
    requires p.Delete? && v.Upload? && v.pc == Finished(Accepted) && row == RowOf(s, v)
    requires row.id == p.id && row.caseId == p.caseId && FromDraft(e, DeletedDraft(p, row))
    ensures Recorded(s, v, e)
  {
    hide ObjectKey;
  }

  // ----- what a step commits -----

  lemma UploadWaits(s: Settings, w: World, u: Pid)
    requires Inv(s, w) && u in w.procs && w.procs[u].Upload?
    requires CommitPc(w.procs[u].pc) || w.procs[u].pc.CommitCreated?
    ensures FromDrafts(PendingOf(w, u), Waiting(s, w.procs[u]))
  {
    hide A.Inv, TablesOk, KeyOf, FromDrafts, Waiting, ObjectOk, RowOk, TraceOk, FlagsOk;
    assert ProcOk(s, w, u);
  }

  /** The step commits the upload's events. */
  predicate CommitsUpload(p: Proc, input: Input)
    requires p.Upload?
  {
    input.Go? && (CommitPc(p.pc) || p.pc.CommitCreated?)
  }

  function Committed(p: Proc): Proc
    requires p.Upload? && (CommitPc(p.pc) || p.pc.CommitCreated?)
  {
    if p.pc.CommitCreated? then AfterAccept(p) else AfterCommit(p)
  }

  lemma UploadGoCommitted(s: Settings, w: World, u: Pid, p: Proc, input: Input, w': World)
    requires u in w.procs && w.procs[u] == p && p.Upload? && input.Go? && UploadGo(s, w, u, p, input) == Some(w')
    ensures u in w'.procs && !p.pc.Finished?
    ensures if CommitsUpload(p, input) then
              w'.db.committed == w.db.committed + PendingOf(w, u) && w'.procs[u] == Committed(p)
            else w'.db.committed == w.db.committed
  {
    hide A.Step, AuditMove, AppendMove, KeyOf, RowOf, NoConflict, Conflicts, Frame;
    if AppendPc(p.pc) {
      AppendMoveEffect(s, w, u, AppendDraft(s, p), p.(pc := AfterAppend(p.pc)), input, w', p.id);
    } else if CommitPc(p.pc) {
      CommitMoveEffect(s, w, u, AfterCommit(p), w');
    } else if p.pc.CommitCreated? {
      var rows := if p.inserted.Some? then w.rows[p.id := p.inserted.value] else w.rows;
      CommitMoveEffect(s, w.(rows := rows), u, AfterAccept(p), w');
    } else if p.pc.Undo? || p.pc.Closing? {
      AuditMoveFrame(s, w, A.Rollback(u), AfterRollback(p), w', p.id);
    } else {
      LocalParts(s, w, u, p, input, w');
    }
  }

  lemma UploadCommitted(s: Settings, w: World, u: Pid, p: Proc, input: Input, w': World)
    requires u in w.procs && w.procs[u] == p && p.Upload? && TakeStep(s, w, u, input) == Some(w')
    ensures u in w'.procs && !p.pc.Finished?
    ensures if CommitsUpload(p, input) then
              w'.db.committed == w.db.committed + PendingOf(w, u) && w'.procs[u] == Committed(p)
            else w'.db.committed == w.db.committed
  {
    hide UploadGo, UploadRaise, Committed;
    if input.Go? { UploadGoCommitted(s, w, u, p, input, w'); } else { RaiseParts(w, u, p, input.error, w'); }
  }

  lemma DeleteCommitted(s: Settings, w: World, d: Pid, p: Proc, input: Input, w': World)
    requires Inv(s, w) && d in w.procs && w.procs[d] == p && p.Delete? && TakeStep(s, w, d, input) == Some(w')
    ensures if input.Go? && p.at.CommitDeleted? then
              && w'.db.committed == w.db.committed + PendingOf(w, d)
              && FromDrafts(PendingOf(w, d), [DeletedDraft(p, p.at.row)])
              && p.at.row.id == p.id && p.at.row.caseId == p.caseId && KnownRow(s, w, p.at.row)
            else w'.db.committed == w.db.committed
  {
    assert ProcOk(s, w, d);
    hide A.Inv, A.Step, KeyOf, RowOf, FromDrafts, TablesOk, KnownRow, Known, Frame, AppendMove, RowFree;
    if input.Go? && p.at.CommitDeleted? {
      RowRemovedEffect(s, w, d, p, input, w');
    } else if input.Raise? || StillPc(p.at) {
      DeleteStays(s, w, d, p, input, w');
    } else {
      assert p.at.RemoveObject?;
    }
  }

  // ----- every step keeps the log explained -----

  /** An upload stays what it is, and how it has ended. */
  ghost predicate UploadsStay(w: World, w': World) {
    forall u <- w.procs :: w.procs[u].Upload? ==>
      && u in w'.procs && w'.procs[u].Upload? && SameUpload(w.procs[u], w'.procs[u])
      && (w.procs[u].pc.Finished? ==> w'.procs[u].pc == w.procs[u].pc)
  }

  lemma RecordStays(s: Settings, p: Proc, q: Proc, e: Event)
    requires p.Upload? && q.Upload? && SameUpload(p, q) && (p.pc.Finished? ==> q.pc == p.pc) && Recorded(s, p, e)
    ensures Recorded(s, q, e)
  {
  }

  lemma ExplainedStays(s: Settings, w: World, w': World, e: Event)
    requires UploadsStay(w, w') && Explained(s, w, e)
    ensures Explained(s, w', e)
  {
    hide Recorded;
    if !CaseEvent(e) {
      var u :| RecordedBy(s, w, u, e);
      RecordStays(s, w.procs[u], w'.procs[u], e);
      assert RecordedBy(s, w', u, e);
    }
  }

  lemma LogExplained(s: Settings, w: World, w': World, more: seq<Event>)
    requires AllExplained(s, w) && UploadsStay(w, w') && w'.db.committed == w.db.committed + more
    requires forall e <- more :: Explained(s, w', e)
    ensures AllExplained(s, w')
  {
    hide Explained, UploadsStay;
    forall e | e in w'.db.committed ensures Explained(s, w', e) {
      if e !in more { ExplainedStays(s, w, w', e); }
    }
  }

  lemma NothingNew(s: Settings, w: World, w': World)
    requires AllExplained(s, w) && UploadsStay(w, w') && w'.db.committed == w.db.committed
    ensures AllExplained(s, w')
  {
    hide Explained, UploadsStay;
    assert w'.db.committed == w.db.committed + [];
    LogExplained(s, w, w', []);
  }

  lemma UploadExplains(s: Settings, w: World, u: Pid, p: Proc, input: Input, w': World)
    requires Inv(s, w) && AllExplained(s, w) && u in w.procs && w.procs[u] == p && p.Upload?
    requires TakeStep(s, w, u, input) == Some(w')
    ensures AllExplained(s, w')
  {
    hide Inv, TakeStep, AllExplained, Waiting, Recorded, Explained, KeyOf;
    UploadCommitted(s, w, u, p, input, w');
    StaysSameUpload(s, w, u, p, input, w');
    if CommitsUpload(p, input) {
      UploadWaits(s, w, u);
      var more := PendingOf(w, u);
      forall e | e in more ensures Explained(s, w', e) {
        var i :| 0 <= i < |more| && more[i] == e;
        WaitingRecorded(s, p, w'.procs[u], i, e);
        ByUpload(s, w', u, e);
      }
      LogExplained(s, w, w', more);
    } else {
      NothingNew(s, w, w');
    }
  }

  lemma ByUpload(s: Settings, w: World, u: Pid, e: Event)
    requires u in w.procs && w.procs[u].Upload? && Recorded(s, w.procs[u], e)
    ensures Explained(s, w, e)
  {
    assert RecordedBy(s, w, u, e);
  }

  lemma DeleteExplains(s: Settings, w: World, d: Pid, p: Proc, input: Input, w': World)
    requires Inv(s, w) && AllExplained(s, w) && d in w.procs && w.procs[d] == p && p.Delete?
    requires TakeStep(s, w, d, input) == Some(w')
    ensures AllExplained(s, w')
  {
    hide Inv, TakeStep, AllExplained, Recorded, Explained, KeyOf, KnownRow, RowOf;
    DeleteCommitted(s, w, d, p, input, w');
    DeleteOnly(s, w, d, input, w');
    if input.Go? && p.at.CommitDeleted? {
      var more := PendingOf(w, d);
      var v := RowUpload(s, w, p.at.row);
      forall e | e in more ensures Explained(s, w', e) {
        assert e == more[0];
        DeletionRecorded(s, p, p.at.row, w'.procs[v], e);
        ByUpload(s, w', v, e);
      }
      LogExplained(s, w, w', more);
    } else {
      NothingNew(s, w, w');
    }
  }

  lemma BackgroundExplains(s: Settings, w: World, l: A.Label, w': World)
    requires Inv(s, w) && AllExplained(s, w) && l.tx !in w.procs
    requires A.Step(s.audit, w.db, l) == Some(w'.db) && w' == w.(db := w'.db)
    ensures AllExplained(s, w')
  {
    hide A.Inv, A.Step, ProcsOk, AllExplained, RecordedBy;
    AuditEffect(s.audit, w.db, l, w'.db);
    if l.Commit? {
      LogExplained(s, w, w', PendingOf(w, l.tx));
    } else {
      NothingNew(s, w, w');
    }
  }

  lemma StepExplains(s: Settings, w: World, l: Label, w': World)
    requires Inv(s, w) && AllExplained(s, w) && Step(s, w, l) == Some(w')
    ensures AllExplained(s, w')
  {
    hide Inv, A.Step, TakeStep, AllExplained, FreshId, NoSlash, AboutCases;
    match l
    case StartUpload(_, _, _, _, _, _, _) => NothingNew(s, w, w');
    case StartDelete(_, _, _) => NothingNew(s, w, w');
    case Take(pid, input) =>
      TakeOnly(s, w, pid, input, w');
      var p := w.procs[pid];
      if p.Upload? { UploadExplains(s, w, pid, p, input, w'); } else { DeleteExplains(s, w, pid, p, input, w'); }
    case Background(audit) => BackgroundExplains(s, w, audit, w');
  }

  lemma {:induction false} RunExplained(s: Settings, schedule: seq<Label>)
    ensures AllExplained(s, Run(s, EMPTY, schedule))
  {
    hide Inv, Step, Explained;
    if schedule != [] {
      var front := schedule[..|schedule| - 1];
      RunExplained(s, front);
      InitOk(s);
      RunKeeps(s, EMPTY, front);
      var before, l := Run(s, EMPTY, front), schedule[|schedule| - 1];
      if Step(s, before, l).Some? { StepExplains(s, before, l, Step(s, before, l).value); }
    }
  }

  // ----- what the log says -----

  /** In every run, every committed event is about a case, written by another service, or
      is an upload's and says what it should: the upload's own case, id, actor, file
      name, source, key, digest and error, an accepted one's digest for a deletion. */
  lemma EveryEventExplained(s: Settings, w: World, e: Event)
    requires Reachable(s, w) && e in w.db.committed
    ensures CaseEvent(e) || exists u :: RecordedBy(s, w, u, e)
  {
    hide Run, Recorded;
    var schedule :| w == Run(s, EMPTY, schedule);
    RunExplained(s, schedule);
    assert Explained(s, w, e);
  }

  /** And every committed event about an upload's id is that upload's. */
  lemma UploadEventsExplained(s: Settings, w: World, u: Pid, e: Event)
    requires Reachable(s, w) && u in w.procs && w.procs[u].Upload? && e in w.db.committed && About(e, w.procs[u].id)
    ensures Recorded(s, w.procs[u], e)
  {
    hide A.Inv, ProcsOk, Run;
    EveryEventExplained(s, w, e);
    ReachableOk(s, w);
    var v :| RecordedBy(s, w, v, e);
    assert w.procs[v].id == w.procs[u].id;
  }
}
