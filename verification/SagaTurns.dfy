/** What one process can rely on between its own steps, and its own steps one by one. */
module SagaTurns {
  import opened Wrappers
  import opened Events
  import opened ObjectKeys
  import opened Saga
  import opened SagaProof
  import A = AuditRun
  import T = AuditTable

  predicate Owns(l: Label, pid: Pid) { l.Take? && l.pid == pid }

  /** Process `pid` and its transaction are as they were. */
  predicate Untouched(w: World, w': World, pid: Pid) {
    pid in w.procs && pid in w'.procs && w'.procs[pid] == w.procs[pid] && A.TxnOf(w'.db, pid) == A.TxnOf(w.db, pid)
  }

  // ----- steps of others -----

  ghost predicate MovesOnly(s: Settings, w: World, w': World, q: Pid) {
    && q in w'.procs && w'.procs == w.procs[q := w'.procs[q]]
    && (w'.db == w.db || exists l: A.Label :: l.tx == q && A.Step(s.audit, w.db, l) == Some(w'.db))
  }

  lemma AuditMoveOnly(s: Settings, w: World, l: A.Label, next: Proc, w': World)
    requires l.tx in w.procs && AuditMove(s, w, l, next) == Some(w')
    ensures MovesOnly(s, w, w', l.tx)
    ensures w'.strays == w.strays && w'.escaped == w.escaped && w'.emptied == w.emptied && l.tx in w'.procs
    ensures w'.procs[l.tx] == next
  {
    hide A.Step;
  }

  lemma AppendMoveOnly(s: Settings, w: World, q: Pid, draft: Draft, next: Proc, input: Input, w': World)
    requires q in w.procs && input.Go? && AppendMove(s, w, q, draft, next, input) == Some(w')
    ensures MovesOnly(s, w, w', q)
    ensures w'.strays == w.strays && w'.escaped == w.escaped && w'.emptied == w.emptied && q in w'.procs
    ensures w'.procs[q] in {w.procs[q], next}
  {
    hide A.Step;
    match A.TxnOf(w.db, q).phase
    case Idle => AuditMoveOnly(s, w, A.Lock(q, draft.caseId), w.procs[q], w');
    case Locked(_) => AuditMoveOnly(s, w, A.ReadLatest(q), w.procs[q], w');
    case Linked(_, _) => AuditMoveOnly(s, w, A.Insert(q, draft, input.eventId, input.now), next, w');
  }

  lemma UploadGoOnly(s: Settings, w: World, q: Pid, p: Proc, input: Input, w': World)
    requires q in w.procs && w.procs[q] == p && p.Upload? && input.Go? && UploadGo(s, w, q, p, input) == Some(w')
    ensures MovesOnly(s, w, w', q)
    ensures w'.strays == w.strays && w'.escaped == w.escaped && w'.emptied == w.emptied
  {
    hide A.Step, AppendMove, AuditMove, NoConflict, Conflicts, KeyOf, RowOf;
    if AppendPc(p.pc) {
      AppendMoveOnly(s, w, q, AppendDraft(s, p), p.(pc := AfterAppend(p.pc)), input, w');
    } else if CommitPc(p.pc) {
      AuditMoveOnly(s, w, A.Commit(q), AfterCommit(p), w');
    } else if p.pc.CommitCreated? {
      var rows := if p.inserted.Some? then w.rows[p.id := p.inserted.value] else w.rows;
      AuditMoveOnly(s, w.(rows := rows), A.Commit(q), AfterAccept(p), w');
    } else if p.pc.Undo? || p.pc.Closing? {
      AuditMoveOnly(s, w, A.Rollback(q), AfterRollback(p), w');
    }
  }

  lemma GoSameUpload(s: Settings, w: World, u: Pid, p: Proc, input: Input, w': World)
    requires u in w.procs && w.procs[u] == p && p.Upload? && input.Go? && UploadGo(s, w, u, p, input) == Some(w')
    ensures u in w'.procs && w'.procs[u].Upload? && SameUpload(p, w'.procs[u])
  {
    hide A.Step, AppendMove, AuditMove, NoConflict, Conflicts, KeyOf, RowOf, MovesOnly;
    if AppendPc(p.pc) {
      AppendMoveOnly(s, w, u, AppendDraft(s, p), p.(pc := AfterAppend(p.pc)), input, w');
    } else if CommitPc(p.pc) {
      AuditMoveOnly(s, w, A.Commit(u), AfterCommit(p), w');
    } else if p.pc.CommitCreated? {
      var rows := if p.inserted.Some? then w.rows[p.id := p.inserted.value] else w.rows;
      AuditMoveOnly(s, w.(rows := rows), A.Commit(u), AfterAccept(p), w');
    } else if p.pc.Undo? || p.pc.Closing? {
      AuditMoveOnly(s, w, A.Rollback(u), AfterRollback(p), w');
    }
  }

  lemma DeleteGoOnly(s: Settings, w: World, q: Pid, p: Proc, input: Input, w': World)
    requires q in w.procs && w.procs[q] == p && p.Delete? && input.Go? && DeleteGo(s, w, q, p, input) == Some(w')
    ensures MovesOnly(s, w, w', q)
  {
    hide A.Step, AppendMove, AuditMove, RowFree;
    match p.at
    case AppendDeleted(row) => AppendMoveOnly(s, w, q, DeletedDraft(p, row), p.(at := CommitDeleted(row)), input, w');
    case CommitDeleted(_) =>
      AuditMoveOnly(s, w.(rows := w.rows - {p.id}), A.Commit(q), p.(at := Left(Removed), removed := None), w');
    case Leaving(outcome) => AuditMoveOnly(s, w, A.Rollback(q), p.(at := Left(outcome), removed := None), w');
    case _ =>
  }

  lemma UploadEmptiesNothing(s: Settings, w: World, u: Pid, p: Proc, input: Input, w': World)
    requires u in w.procs && w.procs[u] == p && p.Upload? && TakeStep(s, w, u, input) == Some(w')
    ensures w'.emptied == w.emptied
  {
    hide UploadGo, UploadRaise, KeyOf;
    if input.Go? { UploadGoOnly(s, w, u, p, input, w'); } else { RaiseParts(w, u, p, input.error, w'); }
  }

  lemma TakeOnly(s: Settings, w: World, q: Pid, input: Input, w': World)
    requires TakeStep(s, w, q, input) == Some(w')
    ensures q in w.procs && MovesOnly(s, w, w', q)
  {
    hide A.Step, UploadGo, DeleteGo, KeyOf;
    var p := w.procs[q];
    if input.Go? {
      if p.Upload? { UploadGoOnly(s, w, q, p, input, w'); } else { DeleteGoOnly(s, w, q, p, input, w'); }
    }
  }

  lemma OnlyUntouched(s: Settings, w: World, w': World, q: Pid, pid: Pid)
    requires MovesOnly(s, w, w', q) && pid in w.procs && pid != q
    ensures Untouched(w, w', pid)
  {
    hide A.Step;
    if w'.db != w.db {
      var l: A.Label :| l.tx == q && A.Step(s.audit, w.db, l) == Some(w'.db);
      AuditEffect(s.audit, w.db, l, w'.db);
      TxnStays(w.db, w'.db, q, pid);
    }
  }

  lemma TxnStays(db: A.Db, db': A.Db, q: A.Tx, t: A.Tx)
    requires OthersSame(db, db', q) && t != q
    ensures A.TxnOf(db', t) == A.TxnOf(db, t)
  {
    assert t in db.open.Keys - {q} <==> t in db'.open.Keys - {q};
  }

  /** No step of anyone else touches a process or its transaction. */
  lemma OthersLeaveAlone(s: Settings, w: World, l: Label, w': World, pid: Pid)
    requires pid in w.procs && !Owns(l, pid) && Step(s, w, l) == Some(w')
    ensures Untouched(w, w', pid)
  {
    hide A.Step, TakeStep, FreshId, NoSlash, AboutCases, MovesOnly;
    if l.Take? {
      TakeOnly(s, w, l.pid, l.input, w');
      OnlyUntouched(s, w, w', l.pid, pid);
    } else if l.Background? {
      AuditEffect(s.audit, w.db, l.audit, w'.db);
      TxnStays(w.db, w'.db, l.audit.tx, pid);
    }
  }

  // ----- running a log -----

  lemma {:induction false} RunSnoc(s: Settings, log: seq<Label>, l: Label)
    ensures var w := Run(s, EMPTY, log);
            Run(s, EMPTY, log + [l]) == if Step(s, w, l).Some? then Step(s, w, l).value else w
  {
    hide Step;
    assert (log + [l])[..|log|] == log;
  }

  // ----- own steps -----

  function TxnLocked(txn: A.Txn, key: int, c: string): A.Txn { txn.(locks := txn.locks + {key}, phase := A.Locked(c)) }

  function TxnLinked(txn: A.Txn, c: string, previous: Option<string>): A.Txn { txn.(phase := A.Linked(c, previous)) }

  function TxnInserted(txn: A.Txn, e: Event): A.Txn { txn.(pending := txn.pending + [e], phase := A.Idle) }

  /** Process `p` is about to append `draft` and will then be `next`. */
  predicate Appends(s: Settings, p: Proc, draft: Draft, next: Proc) {
    if p.Upload? then AppendPc(p.pc) && draft == AppendDraft(s, p) && next == p.(pc := AfterAppend(p.pc))
    else p.at.AppendDeleted? && draft == DeletedDraft(p, p.at.row) && next == p.(at := CommitDeleted(p.at.row))
  }

  lemma AppendTakes(s: Settings, w: World, pid: Pid, draft: Draft, next: Proc, input: Input)
    requires pid in w.procs && Appends(s, w.procs[pid], draft, next) && input.Go?
    ensures Step(s, w, Take(pid, input)) == AppendMove(s, w, pid, draft, next, input)
  {
    hide AppendMove, AuditMove, KeyOf, RowOf, NoConflict, RowFree;
  }

  lemma LockTakes(s: Settings, w: World, pid: Pid, draft: Draft, next: Proc, input: Input)
    requires pid in w.procs && Appends(s, w.procs[pid], draft, next) && input.Go?
    requires A.TxnOf(w.db, pid).phase.Idle? && A.LockFree(w.db, pid, s.audit.lockOf(draft.caseId))
    ensures var txn := TxnLocked(A.TxnOf(w.db, pid), s.audit.lockOf(draft.caseId), draft.caseId);
            Step(s, w, Take(pid, input)) == Some(w.(db := w.db.(open := w.db.open[pid := txn])))
  {
    hide Step, Appends, A.LockFree;
    AppendTakes(s, w, pid, draft, next, input);
    assert w.procs[pid := w.procs[pid]] == w.procs;
  }

  lemma ReadTakes(s: Settings, w: World, pid: Pid, draft: Draft, next: Proc, input: Input)
    requires pid in w.procs && Appends(s, w.procs[pid], draft, next) && input.Go?
    requires A.TxnOf(w.db, pid).phase == A.Locked(draft.caseId)
    ensures var txn := A.TxnOf(w.db, pid);
            var read := TxnLinked(txn, draft.caseId, T.LatestHash(A.Visible(w.db, pid), draft.caseId));
            Step(s, w, Take(pid, input)) == Some(w.(db := w.db.(open := w.db.open[pid := read])))
  {
    hide Step, Appends, T.LatestHash;
    AppendTakes(s, w, pid, draft, next, input);
    assert w.procs[pid := w.procs[pid]] == w.procs;
  }

  lemma InsertTakes(s: Settings, w: World, pid: Pid, draft: Draft, next: Proc, input: Input, previous: Option<string>,
                    e: Event)
    requires pid in w.procs && Appends(s, w.procs[pid], draft, next) && input.Go?
    requires A.TxnOf(w.db, pid).phase == A.Linked(draft.caseId, previous)
    requires e == T.NewEvent(s.audit.sha, draft, previous, input.eventId, input.now)
    requires e.id !in w.db.fates && Storable(e) && A.ClockAdvanced(w.db, pid, e, draft.caseId)
    ensures var db := w.db.(open := w.db.open[pid := TxnInserted(A.TxnOf(w.db, pid), e)],
                            fates := w.db.fates[e.id := A.Pending(pid)]);
            Step(s, w, Take(pid, input)) == Some(w.(db := db, procs := w.procs[pid := next]))
  {
    hide Step, Appends, A.ClockAdvanced, Storable, EventHash;
    AppendTakes(s, w, pid, draft, next, input);
  }

  function CommittedDb(db: A.Db, t: A.Tx): A.Db {
    A.Db(db.committed + A.TxnOf(db, t).pending, db.open - {t}, db.rolledBack, A.Settle(db.fates, t, A.Committed))
  }

  function RolledBackDb(db: A.Db, t: A.Tx): A.Db {
    A.Db(db.committed, db.open - {t}, db.rolledBack + A.TxnOf(db, t).pending, A.Settle(db.fates, t, A.RolledBack))
  }

  /** Process `p` is about to commit and will then be `next`. */
  predicate Commits(p: Proc, next: Proc) {
    if p.Upload? then
      || (CommitPc(p.pc) && next == AfterCommit(p) && p.inserted == None)
      || (p.pc.CommitCreated? && next == AfterAccept(p))
    else p.at.CommitDeleted? && next == p.(at := Left(Removed), removed := None) && p.removed == Some(p.id)
  }

  /** The rows after a commit: what the process inserted is there, what it removed is gone. */
  function CommittedRows(rows: map<string, Row>, p: Proc): map<string, Row> {
    if p.Upload? then (if p.inserted.Some? then rows[p.id := p.inserted.value] else rows)
    else if p.removed.Some? then rows - {p.removed.value}
    else rows
  }

  lemma CommitTakes(s: Settings, w: World, pid: Pid, next: Proc, input: Input)
    requires pid in w.procs && Commits(w.procs[pid], next) && input.Go?
    ensures Step(s, w, Take(pid, input))
         == Some(w.(db := CommittedDb(w.db, pid), rows := CommittedRows(w.rows, w.procs[pid]),
                    procs := w.procs[pid := next]))
  {
    hide AppendMove, KeyOf, RowOf, NoConflict, RowFree, Conflicts, A.Settle;
  }

  /** Process `p` is about to roll back, in the handler or when its session closes, and will then be `next`. */
  predicate RollsBack(p: Proc, next: Proc) {
    if p.Upload? then (p.pc.Undo? || p.pc.Closing?) && next == AfterRollback(p)
    else p.at.Leaving? && next == p.(at := Left(p.at.outcome), removed := None)
  }

  lemma RollbackTakes(s: Settings, w: World, pid: Pid, next: Proc, input: Input)
    requires pid in w.procs && RollsBack(w.procs[pid], next) && input.Go?
    ensures Step(s, w, Take(pid, input)) == Some(w.(db := RolledBackDb(w.db, pid), procs := w.procs[pid := next]))
  {
    hide AppendMove, KeyOf, RowOf, NoConflict, RowFree, Conflicts, A.Settle;
  }

  /** A raise that only moves the process. */
  predicate CanFail(p: Proc) {
    if p.Upload? then !p.pc.Undo? && !p.pc.Compensate? && !p.pc.Closing? && !p.pc.Finished?
    else !p.at.Leaving? && !p.at.Left?
  }

  function Failed(p: Proc, error: Error): Proc
    requires CanFail(p)
  {
    if p.Upload? then p.(pc := AfterRaise(p.pc, error)) else p.(at := Leaving(NotDeleted))
  }

  lemma FailTakes(s: Settings, w: World, pid: Pid, error: Fault)
    requires pid in w.procs && CanFail(w.procs[pid])
    ensures Step(s, w, Take(pid, Raise(error))) == Some(w.(procs := w.procs[pid := Failed(w.procs[pid], error)]))
  {
  }

  lemma ReceiveTakes(s: Settings, w: World, pid: Pid, p: Proc, input: Input)
    requires pid in w.procs && w.procs[pid] == p && p.Upload? && p.pc.Receive? && input.Go?
    ensures Step(s, w, Take(pid, input)) == Some(w.(procs := w.procs[pid := p.(pc :=
              if |p.content| == 0 then Undo(Empty)
              else if |p.content| > s.maxSize then Undo(TooLarge)
              else CheckDuplicate)]))
  {
    hide AppendMove, AuditMove, KeyOf, RowOf, NoConflict, Conflicts;
  }

  lemma CheckTakes(s: Settings, w: World, pid: Pid, p: Proc, input: Input)
    requires pid in w.procs && w.procs[pid] == p && p.Upload? && p.pc.CheckDuplicate? && input.Go?
    ensures var digest := s.audit.sha(p.content);
            var found := exists id <- w.rows :: w.rows[id].caseId == p.caseId && w.rows[id].sha256 == digest;
            Step(s, w, Take(pid, input))
            == Some(w.(procs := w.procs[pid := p.(pc := if found then Undo(Duplicate) else AppendHashed)]))
  {
    hide AppendMove, AuditMove, KeyOf, NoConflict;
    assert forall id <- w.rows :: Conflicts(w.rows[id], RowOf(s, p))
                              <==> w.rows[id].caseId == p.caseId && w.rows[id].sha256 == s.audit.sha(p.content);
  }

  lemma PutTakes(s: Settings, w: World, pid: Pid, p: Proc, input: Input)
    requires pid in w.procs && w.procs[pid] == p && p.Upload? && p.pc.Put? && input.Go?
    ensures Step(s, w, Take(pid, input))
         == Some(w.(objects := w.objects[KeyOf(p) := p.content],
                    procs := w.procs[pid := p.(pc := Create, stored := true)]))
  {
    hide AppendMove, AuditMove, KeyOf, RowOf, NoConflict, Conflicts;
  }

  lemma CreateTakes(s: Settings, w: World, pid: Pid, p: Proc, input: Input)
    requires pid in w.procs && w.procs[pid] == p && p.Upload? && p.pc.Create? && input.Go?
    requires NoConflict(w, pid, RowOf(s, p))
    ensures Step(s, w, Take(pid, input))
         == Some(w.(procs := w.procs[pid := p.(pc := AppendStored, inserted := Some(RowOf(s, p)))]))
  {
    hide AppendMove, AuditMove, KeyOf, RowOf, NoConflict, Conflicts;
  }

  /** The compensation: nothing to do, the object deleted, or a failure logged. */
  lemma CompensateTakes(s: Settings, w: World, pid: Pid, p: Proc, input: Input)
    requires pid in w.procs && w.procs[pid] == p && p.Upload? && p.pc.Compensate? && (input.Raise? ==> p.stored)
    ensures var next := w.procs[pid := p.(pc := AppendFailed(p.pc.error))];
            Step(s, w, Take(pid, input))
            == Some(if !p.stored then w.(procs := next)
                 else if input.Go? then w.(objects := w.objects - {KeyOf(p)}, procs := next)
                 else w.(strays := w.strays + {KeyOf(p)}, procs := next))
  {
    hide AppendMove, AuditMove, KeyOf, RowOf, NoConflict, Conflicts;
  }

  /** A raise in the handler's rollback leaves the handler. */
  lemma EscapeTakes(s: Settings, w: World, pid: Pid, p: Proc, input: Input)
    requires pid in w.procs && w.procs[pid] == p && p.Upload? && p.pc.Undo? && input.Raise?
    ensures Step(s, w, Take(pid, input))
         == Some(w.(escaped := if p.stored then w.escaped + {KeyOf(p)} else w.escaped,
                    procs := w.procs[pid := p.(pc := Closing(Escaped(p.pc.error)))]))
  {
    hide AppendMove, AuditMove, KeyOf, RowOf, NoConflict, Conflicts;
  }

  lemma LookupTakes(s: Settings, w: World, pid: Pid, p: Proc, input: Input)
    requires pid in w.procs && w.procs[pid] == p && p.Delete? && p.at.Lookup? && input.Go?
    ensures var found := p.id in w.rows && w.rows[p.id].caseId == p.caseId;
            Step(s, w, Take(pid, input))
            == Some(w.(procs := w.procs[pid :=
                         p.(at := if found then RemoveObject(w.rows[p.id]) else Leaving(NotFound))]))
  {
    hide AppendMove, AuditMove, RowFree;
  }

  lemma RemoveObjectTakes(s: Settings, w: World, pid: Pid, p: Proc, input: Input)
    requires pid in w.procs && w.procs[pid] == p && p.Delete? && p.at.RemoveObject? && input.Go?
    ensures Step(s, w, Take(pid, input))
         == Some(w.(objects := w.objects - {p.at.row.objectKey}, emptied := w.emptied + {p.id},
                    procs := w.procs[pid := p.(at := RemoveRow(p.at.row))]))
  {
    hide AppendMove, AuditMove, RowFree;
  }

  lemma RemoveRowTakes(s: Settings, w: World, pid: Pid, p: Proc, input: Input)
    requires pid in w.procs && w.procs[pid] == p && p.Delete? && p.at.RemoveRow? && input.Go? && RowFree(w, pid, p.id)
    ensures Step(s, w, Take(pid, input))
         == Some(w.(procs := w.procs[pid := p.(at := AppendDeleted(p.at.row), removed := Some(p.id))]))
  {
    hide AppendMove, AuditMove, RowFree;
  }
}
