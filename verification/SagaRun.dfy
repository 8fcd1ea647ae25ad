/** What holds at every point of every run of the evidence saga, for any number of
    uploads and deletes, any interleaving and any placement of failures. */
module SagaRun {
  import opened Wrappers
  import opened Events
  import opened ObjectKeys
  import opened Saga
  import opened SagaInvariant
  import opened SagaProof
  import A = AuditRun
  import T = AuditTable
  import C = Chain

  // ----- the audit log of a saga is a run of the audit system -----

  ghost predicate AuditMoves(s: Settings, db: A.Db, db': A.Db) {
    db' == db || exists l :: A.Step(s.audit, db, l) == Some(db')
  }

  lemma AuditMoveMoves(s: Settings, w: World, l: A.Label, next: Proc, w': World)
    requires AuditMove(s, w, l, next) == Some(w')
    ensures AuditMoves(s, w.db, w'.db)
  {
    hide A.Step;
  }

  lemma AppendMoveMoves(s: Settings, w: World, pid: Pid, draft: Draft, next: Proc, input: Input, w': World)
    requires pid in w.procs && input.Go? && AppendMove(s, w, pid, draft, next, input) == Some(w')
    ensures AuditMoves(s, w.db, w'.db)
  {
    hide A.Step, AuditMoves;
    match A.TxnOf(w.db, pid).phase
    case Idle => AuditMoveMoves(s, w, A.Lock(pid, draft.caseId), w.procs[pid], w');
    case Locked(_) => AuditMoveMoves(s, w, A.ReadLatest(pid), w.procs[pid], w');
    case Linked(_, _) => AuditMoveMoves(s, w, A.Insert(pid, draft, input.eventId, input.now), next, w');
  }

  lemma UploadMoves(s: Settings, w: World, pid: Pid, p: Proc, input: Input, w': World)
    requires pid in w.procs && w.procs[pid] == p && p.Upload? && input.Go? && UploadGo(s, w, pid, p, input) == Some(w')
    ensures AuditMoves(s, w.db, w'.db)
  {
    hide A.Step, AppendMove, AuditMove, NoConflict, Conflicts, KeyOf, RowOf;
    if AppendPc(p.pc) {
      AppendMoveMoves(s, w, pid, AppendDraft(s, p), p.(pc := AfterAppend(p.pc)), input, w');
    } else if CommitPc(p.pc) {
      AuditMoveMoves(s, w, A.Commit(pid), AfterCommit(p), w');
    } else if p.pc.CommitCreated? {
      var rows := if p.inserted.Some? then w.rows[p.id := p.inserted.value] else w.rows;
      AuditMoveMoves(s, w.(rows := rows), A.Commit(pid), AfterAccept(p), w');
    } else if p.pc.Undo? || p.pc.Closing? {
      AuditMoveMoves(s, w, A.Rollback(pid), AfterRollback(p), w');
    }
  }

  lemma DeleteMoves(s: Settings, w: World, pid: Pid, p: Proc, input: Input, w': World)
    requires pid in w.procs && w.procs[pid] == p && p.Delete? && input.Go? && DeleteGo(s, w, pid, p, input) == Some(w')
    ensures AuditMoves(s, w.db, w'.db)
  {
    hide A.Step, AppendMove, AuditMove, RowFree;
    match p.at
    case AppendDeleted(row) =>
      AppendMoveMoves(s, w, pid, DeletedDraft(p, row), p.(at := CommitDeleted(row)), input, w');
    case CommitDeleted(_) =>
      AuditMoveMoves(s, w.(rows := w.rows - {p.id}), A.Commit(pid), p.(at := Left(Removed), removed := None), w');
    case Leaving(outcome) => AuditMoveMoves(s, w, A.Rollback(pid), p.(at := Left(outcome), removed := None), w');
    case _ =>
  }

  lemma StepMoves(s: Settings, w: World, l: Label, w': World)
    requires Step(s, w, l) == Some(w')
    ensures AuditMoves(s, w.db, w'.db)
  {
    hide A.Step, UploadGo, DeleteGo, FreshId, AboutCases;
    if l.Take? {
      var p := w.procs[l.pid];
      if l.input.Go? {
        if p.Upload? {
          UploadMoves(s, w, l.pid, p, l.input, w');
        } else {
          DeleteMoves(s, w, l.pid, p, l.input, w');
        }
      }
    }
  }

  /** The saga refines the audit system: its log is what some audit schedule leaves. */
  lemma {:induction false} SagaRefinesAudit(s: Settings, schedule: seq<Label>) returns (audit: seq<A.Label>)
    ensures Run(s, EMPTY, schedule).db == A.Run(s.audit, A.EMPTY, audit)
  {
    if schedule == [] {
      audit := [];
    } else {
      var before, l := Run(s, EMPTY, schedule[..|schedule| - 1]), schedule[|schedule| - 1];
      audit := SagaRefinesAudit(s, schedule[..|schedule| - 1]);
      var after := Step(s, before, l);
      if after.Some? {
        StepMoves(s, before, l, after.value);
        if after.value.db != before.db {
          var m :| A.Step(s.audit, before.db, m) == Some(after.value.db);
          AuditRunExtends(s, audit, m);
          audit := audit + [m];
        }
      }
    }
  }

  lemma {:induction false} AuditRunExtends(s: Settings, audit: seq<A.Label>, m: A.Label)
    ensures var before := A.Run(s.audit, A.EMPTY, audit);
            A.Step(s.audit, before, m).Some? ==>
              A.Run(s.audit, A.EMPTY, audit + [m]) == A.Step(s.audit, before, m).value
  {
    hide A.Step;
    assert (audit + [m])[..|audit|] == audit;
  }

  /** Whatever uploads and deletes run, with whatever failures, `verify` finds the
      chain of every case valid. */
  lemma {:induction false} EverySagaVerifies(s: Settings, schedule: seq<Label>, c: string)
    ensures var table := Run(s, EMPTY, schedule).db.committed;
            T.List(table, c) == T.CaseEvents(table, c) && C.ChainOk(s.audit.sha, T.List(table, c))
  {
    hide *;
    var audit := SagaRefinesAudit(s, schedule);
    A.EveryRunVerifies(s.audit, audit, 0, c);
  }

  // ----- every run keeps the invariant -----

  lemma StepKeeps(s: Settings, w: World, l: Label, w': World)
    requires Inv(s, w) && Step(s, w, l) == Some(w')
    ensures Inv(s, w')
  {
    StepMoves(s, w, l, w');
    if w'.db != w.db {
      var m :| A.Step(s.audit, w.db, m) == Some(w'.db);
      A.StepKeeps(s.audit, w.db, m, w'.db);
    }
    TablesKeep(s, w, l, w');
    hide A.Inv, ProcsOk, TablesOk;
  }

  lemma TablesKeep(s: Settings, w: World, l: Label, w': World)
    requires Inv(s, w) && Step(s, w, l) == Some(w')
    ensures ProcsOk(s, w') && TablesOk(w')
  {
    hide Inv, ProcsOk, TablesOk, TakeStep, A.Step, FreshId, NoSlash;
    match l
    case StartUpload(pid, c, id, name, source, actor, content) =>
      StartKeeps(s, w, pid, Upload(c, id, name, source, actor, content, AppendStarted, false, false, None), w');
    case StartDelete(pid, c, id) => StartKeeps(s, w, pid, Delete(c, id, Lookup, None), w');
    case Take(pid, input) => TakeKeeps(s, w, pid, input, w');
    case Background(audit) => BackgroundKeeps(s, w, audit, w');
  }

  lemma InitOk(s: Settings)
    ensures Inv(s, EMPTY)
  {
    A.InitOk(s.audit);
  }

  lemma {:induction false} RunKeeps(s: Settings, w: World, schedule: seq<Label>)
    requires Inv(s, w)
    ensures Inv(s, Run(s, w, schedule))
  {
    hide Inv, Step;
    if schedule != [] {
      var before, l := Run(s, w, schedule[..|schedule| - 1]), schedule[|schedule| - 1];
      RunKeeps(s, w, schedule[..|schedule| - 1]);
      if Step(s, before, l).Some? {
        StepKeeps(s, before, l, Step(s, before, l).value);
      }
    }
  }

  /** The worlds that some schedule leads to. */
  ghost predicate Reachable(s: Settings, w: World) { exists schedule :: w == Run(s, EMPTY, schedule) }

  lemma {:induction false} LogReaches(s: Settings, log: seq<Label>)
    ensures Reachable(s, Run(s, EMPTY, log))
  {
  }

  lemma ReachableOk(s: Settings, w: World)
    requires Reachable(s, w)
    ensures Inv(s, w)
  {
    var schedule :| w == Run(s, EMPTY, schedule);
    InitOk(s);
    RunKeeps(s, EMPTY, schedule);
  }

  // ----- objects and rows -----

  /** Every stored object has its row, or belongs to an upload that is still in
      flight, or its compensation failed and was logged, or the rollback in its
      upload's handler raised. */
  lemma EveryObjectAccounted(s: Settings, w: World, k: string)
    requires Reachable(s, w) && k in w.objects
    ensures || (exists id :: id in w.rows && w.rows[id].objectKey == k)
            || (exists u :: Owner(w, u, k) && InFlight(w.procs[u].pc))
            || k in w.strays || k in w.escaped
  {
    ReachableOk(s, w);
    hide Reachable, A.Inv, TraceOk, PendingOk, FlagsOk, DeleteOk, KeyOf;
    var u :| Owner(w, u, k);
    assert ProcOk(s, w, u);
    var p := w.procs[u];
    if IsAccepted(p.pc) {
      assert p.id in w.rows && w.rows[p.id] == RowOf(s, p);
    }
  }

  /** Every row has its object, unless a delete has emptied it; size and digest of
      the row are those of the stored bytes, and the size is within the limit. */
  lemma EveryRowBacked(s: Settings, w: World, id: string)
    requires Reachable(s, w) && id in w.rows
    ensures var row := w.rows[id];
            && row.id == id && 0 < row.fileSize <= s.maxSize
            && (id !in w.emptied ==> row.objectKey in w.objects)
            && (row.objectKey in w.objects ==>
                  |w.objects[row.objectKey]| == row.fileSize && s.audit.sha(w.objects[row.objectKey]) == row.sha256)
  {
    ReachableOk(s, w);
    hide Reachable, A.Inv, TraceOk, PendingOk, FlagsOk, DeleteOk, KeyOf;
    assert Known(w, id);
    var u :| AcceptedUpload(w, u, id);
    assert ProcOk(s, w, u);
  }

  /** No case has two rows with the same digest. */
  lemma NoDuplicateRows(s: Settings, w: World, i: string, j: string)
    requires Reachable(s, w) && i in w.rows && j in w.rows && i != j
    ensures w.rows[i].caseId != w.rows[j].caseId || w.rows[i].sha256 != w.rows[j].sha256
  {
    ReachableOk(s, w);
    hide Reachable, A.Inv, ProcsOk, LogOk, FreshOk;
    assert !Conflicts(w.rows[i], w.rows[j]);
  }

  /** Of two uploads of the same bytes to one case at most one has its row, and the
      object of the one that has it is intact while no delete has taken it. */
  lemma OneWinner(s: Settings, w: World, u: Pid, v: Pid)
    requires Reachable(s, w) && u in w.procs && v in w.procs && u != v
    requires w.procs[u].Upload? && w.procs[v].Upload?
    requires w.procs[u].caseId == w.procs[v].caseId && w.procs[u].content == w.procs[v].content
    ensures !(w.procs[u].id in w.rows && w.procs[v].id in w.rows)
    ensures w.procs[u].id in w.rows && w.procs[u].id !in w.emptied ==>
              KeyOf(w.procs[u]) in w.objects && w.objects[KeyOf(w.procs[u])] == w.procs[u].content
  {
    var p, q := w.procs[u], w.procs[v];
    ReachableOk(s, w);
    hide Reachable, A.Inv, TraceOk, PendingOk, FlagsOk, DeleteOk, KeyOf, LogOk, FreshOk;
    assert ProcOk(s, w, u) && ProcOk(s, w, v);
    assert p.id != q.id;
    assert p.id in w.rows ==> w.rows[p.id] == RowOf(s, p);
    assert q.id in w.rows ==> w.rows[q.id] == RowOf(s, q);
    if p.id in w.rows && q.id in w.rows {
      NoDuplicateRows(s, w, p.id, q.id);
    }
  }

  /** No step of an upload, compensation included, touches the object under another
      upload's key, or another upload's row or events. */
  lemma OwnKeyOnly(s: Settings, w: World, u: Pid, input: Input, w': World, v: Pid)
    requires Reachable(s, w) && u in w.procs && w.procs[u].Upload? && Step(s, w, Take(u, input)) == Some(w')
    requires v in w.procs && v != u && w.procs[v].Upload?
    ensures SameObject(w, w', KeyOf(w.procs[v])) && SameEntry(w, w', w.procs[v].id)
  {
    ReachableOk(s, w);
    UploadFrame(s, w, u, w.procs[u], input, w');
    assert w.procs[v].id != w.procs[u].id;
  }

  lemma UploadFrame(s: Settings, w: World, u: Pid, p: Proc, input: Input, w': World)
    requires Inv(s, w) && u in w.procs && w.procs[u] == p && p.Upload? && TakeStep(s, w, u, input) == Some(w')
    ensures Frame(w, w', u, p.id)
  {
    hide UploadGo, UploadRaise, A.Inv, FlagsOk, ObjectOk, RowOk, TraceOk, PendingOk, DeleteOk, KeyOf, RowOf, Frame,
         LogOk;
    assert ProcOk(s, w, u) && LogOk(w);
    NotAccepted(s, w, u, p, input, w');
    if input.Raise? {
      UploadRaises(s, w, u, p, input.error, w');
    } else if AppendPc(p.pc) {
      UploadAppends(s, w, u, p, input, w');
    } else if CommitPc(p.pc) {
      UploadCommits(s, w, u, p, input, w');
    } else if p.pc.CommitCreated? {
      UploadAccepted(s, w, u, p, input, w');
    } else if p.pc.Undo? || p.pc.Closing? {
      UploadRollsBack(s, w, u, p, input, w');
    } else {
      OtherKeys(s, w, u);
      UploadMovesOn(s, w, u, p, input, w');
    }
  }

  // ----- the audit log -----

  /** The evidence table is what replaying the committed audit events gives: the ids
      created and not deleted, each with the digest in its CREATED event. */
  lemma TableIsReplay(s: Settings, w: World)
    requires Reachable(s, w)
    ensures Replay(w.db.committed) == map id | id in w.rows :: Some(w.rows[id].sha256)
    ensures Paired(w.db.committed)
  {
    ReachableOk(s, w);
  }

  predicate InGrammar(ts: seq<EventType>) {
    || ts in {[], [UploadStarted], [UploadStarted, Hashed], [UploadStarted, UploadFailed]}
    || ts == [UploadStarted, Hashed, UploadFailed]
    || AcceptedTrace(ts, |ts| == 4)
  }

  /** The events about one evidence id are, in order: STARTED, perhaps HASHED, then
      either STORED and CREATED, after which only DELETED can follow, or at most one
      FAILED. */
  lemma {:induction false} EventsInGrammar(s: Settings, w: World, id: string)
    requires Reachable(s, w)
    ensures InGrammar(Types(w.db.committed, id))
  {
    ReachableOk(s, w);
    hide Reachable, A.Inv, PendingOk, ObjectOk, RowOk, DeleteOk, KeyOf, LogOk, Trace, InGrammar, AcceptedTrace;
    EmptyInGrammar();
    if Used(w, id) {
      var u :| HasId(w, u, id);
      assert ProcOk(s, w, u);
      if IsAccepted(w.procs[u].pc) {
        AcceptedInGrammar(Types(w.db.committed, id), id in w.rows);
      } else {
        TraceInGrammar(w.procs[u]);
      }
    }
  }

  lemma EmptyInGrammar()
    ensures InGrammar([])
  {
  }

  lemma AcceptedInGrammar(ts: seq<EventType>, present: bool)
    requires AcceptedTrace(ts, present)
    ensures InGrammar(ts)
  {
  }

  lemma TraceInGrammar(p: Proc)
    requires p.Upload?
    ensures InGrammar(Trace(p))
  {
    var hashed := if p.hashed then [Hashed] else [];
    var failed := if p.pc.Finished? && p.pc.outcome.Rejected? && p.pc.outcome.recorded then [UploadFailed] else [];
    assert [UploadStarted] + hashed + failed
        == if p.hashed then (if failed == [] then [UploadStarted, Hashed] else [UploadStarted, Hashed, UploadFailed])
           else if failed == [] then [UploadStarted] else [UploadStarted, UploadFailed];
  }

  /** What the log says about an upload follows from how it ended. */
  lemma EventsMatchOutcome(s: Settings, w: World, u: Pid)
    requires Reachable(s, w) && u in w.procs && w.procs[u].Upload? && w.procs[u].pc.Finished?
    ensures var p := w.procs[u];
            var ts := Types(w.db.committed, p.id);
            match p.pc.outcome
            case NotStarted => ts == []
            case Accepted => AcceptedTrace(ts, p.id in w.rows)
            case Rejected(_, recorded) =>
              ts == [UploadStarted] + (if p.hashed then [Hashed] else []) + (if recorded then [UploadFailed] else [])
            case Escaped(_) => ts == [UploadStarted] + (if p.hashed then [Hashed] else [])
    ensures w.procs[u].id in w.rows ==> w.procs[u].pc.outcome == Accepted
  {
    ReachableOk(s, w);
    hide Reachable, A.Inv, PendingOk, ObjectOk, DeleteOk, KeyOf, LogOk, FreshOk;
    assert ProcOk(s, w, u);
  }

  // ----- deletes -----

  /** Once a delete has succeeded, neither the row nor the object of its evidence is
      there, at any later point. */
  lemma DeletedForGood(s: Settings, w: World, d: Pid, u: Pid)
    requires Reachable(s, w) && d in w.procs && w.procs[d].Delete? && w.procs[d].at == Left(Removed)
    requires u in w.procs && w.procs[u].Upload? && w.procs[u].id == w.procs[d].id
    ensures w.procs[d].id !in w.rows && KeyOf(w.procs[u]) !in w.objects
  {
    ReachableOk(s, w);
    hide Reachable, A.Inv, PendingOk, TraceOk, FlagsOk, KeyOf, LogOk, FreshOk;
    assert ProcOk(s, w, d) && ProcOk(s, w, u);
  }
}
