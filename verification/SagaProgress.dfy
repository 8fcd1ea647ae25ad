/** The saga cannot get stuck: while a process is unfinished some statement that it
    waits for can return, and there are only so many statements left. */
module SagaProgress {
  import opened Wrappers
  import opened Events
  import opened ObjectKeys
  import opened Saga
  import opened SagaInvariant
  import opened SagaProof
  import opened SagaRun
  import opened SagaTurns
  import opened SagaRefusals
  import opened SagaStages
  import Json
  import A = AuditRun
  import T = AuditTable

  predicate Unfinished(p: Proc) { if p.Upload? then !p.pc.Finished? else !p.at.Left? }

  // ----- where locks are held -----

  /** An upload at one of these holds its case's lock, if any. */
  predicate HoldsAt(pc: UploadPc) {
    pc.CommitStarted? || pc.CommitHashed? || pc.AppendCreated? || pc.CommitCreated? || pc.CommitFailed?
    || pc.Undo? || pc.Closing?
  }

  /** Where a process can be inside an append, and where it can hold a lock or a removed row. */
  predicate Stands(p: Proc, txn: A.Txn) {
    if p.Upload? then
      match txn.phase
      case Idle => txn.locks != {} ==> HoldsAt(p.pc)
      case Locked(c) => (AppendPc(p.pc) && c == p.caseId) || p.pc.Undo? || p.pc.Closing?
      case Linked(c, _) => (AppendPc(p.pc) && c == p.caseId) || p.pc.Undo? || p.pc.Closing?
    else
      && (p.removed.Some? ==> p.at.AppendDeleted? || p.at.CommitDeleted? || p.at.Leaving?)
      && match txn.phase
         case Idle => txn.locks != {} ==> p.at.CommitDeleted? || p.at.Leaving?
         case Locked(c) => (p.at.AppendDeleted? && c == p.caseId) || p.at.Leaving?
         case Linked(c, _) => (p.at.AppendDeleted? && c == p.caseId) || p.at.Leaving?
  }

  predicate Standing(w: World, pid: Pid)
    requires pid in w.procs
  {
    Stands(w.procs[pid], A.TxnOf(w.db, pid))
  }

  predicate AllStanding(w: World) { forall pid <- w.procs :: Standing(w, pid) }

  // ----- how many statements are left -----

  function LeftInAppend(txn: A.Txn): nat {
    match txn.phase
    case Idle => 3
    case Locked(_) => 2
    case Linked(_, _) => 1
  }

  function UploadLeft(pc: UploadPc, txn: A.Txn): nat {
    match pc
    case AppendStarted => 23 + LeftInAppend(txn)
    case CommitStarted => 23
    case Receive => 22
    case CheckDuplicate => 21
    case AppendHashed => 17 + LeftInAppend(txn)
    case CommitHashed => 17
    case Put => 16
    case Create => 15
    case AppendStored => 11 + LeftInAppend(txn)
    case AppendCreated => 8 + LeftInAppend(txn)
    case CommitCreated => 8
    case Undo(_) => 7
    case Compensate(_) => 6
    case AppendFailed(_) => 2 + LeftInAppend(txn)
    case CommitFailed(_) => 2
    case Closing(_) => 1
    case Finished(_) => 0
  }

  function DeleteLeft(at: DeletePc, txn: A.Txn): nat {
    match at
    case Lookup => 8
    case RemoveObject(_) => 7
    case RemoveRow(_) => 6
    case AppendDeleted(_) => 2 + LeftInAppend(txn)
    case CommitDeleted(_) => 2
    case Leaving(_) => 1
    case Left(_) => 0
  }

  function Left(p: Proc, txn: A.Txn): nat { if p.Upload? then UploadLeft(p.pc, txn) else DeleteLeft(p.at, txn) }

  /** The most statements that `pid` has left: a process, or an open transaction of another service. */
  function LeftOf(w: World, pid: Pid): nat {
    if pid in w.procs then Left(w.procs[pid], A.TxnOf(w.db, pid)) else if pid in w.db.open then 1 else 0
  }

  // ----- steps that are no failures of their own -----

  /** A statement that returns, an integrity error behind a committed row that
      conflicts, or the commit of another service's open transaction. */
  predicate Willing(s: Settings, w: World, l: Label) {
    match l
    case Take(pid, Go(_, _)) => true
    case Take(pid, Raise(e)) =>
      && e.Integrity? && pid in w.procs && w.procs[pid].Upload? && w.procs[pid].pc.Create?
      && HasConflict(s, w, w.procs[pid])
    case Background(Commit(t)) => t in w.db.open
    case _ => false
  }

  /** A step keeps its process standing, and leaves it with fewer statements. */
  predicate Advances(p: Proc, txn: A.Txn, q: Proc, after: A.Txn) { Stands(q, after) && Left(q, after) < Left(p, txn) }

  lemma AuditPhases(env: A.Env, db: A.Db, l: A.Label, db': A.Db)
    requires A.Step(env, db, l) == Some(db')
    ensures l.Lock? ==> A.TxnOf(db, l.tx).phase.Idle? && A.TxnOf(db', l.tx).phase == A.Locked(l.caseId)
    ensures l.ReadLatest? ==> A.TxnOf(db, l.tx).phase.Locked? && A.TxnOf(db', l.tx).phase.Linked?
    ensures l.ReadLatest? ==> A.TxnOf(db', l.tx).phase.caseId == A.TxnOf(db, l.tx).phase.caseId
    ensures l.Insert? ==> A.TxnOf(db, l.tx).phase.Linked? && A.TxnOf(db', l.tx).phase.Idle?
    ensures l.Commit? || l.Rollback? ==> A.TxnOf(db', l.tx) == A.NO_TXN
  {
    hide A.ClockAdvanced, A.LockFree, A.Settle, Storable, EventHash, T.LatestHash;
  }

  lemma AppendAdvances(p: Proc, txn: A.Txn, next: Proc, after: A.Txn, s: Settings, draft: Draft)
    requires Stands(p, txn) && Appends(s, p, draft, next)
    requires match txn.phase
             case Idle => after.phase == A.Locked(p.caseId)
             case Locked(c) => after.phase.Linked? && after.phase.caseId == c
             case Linked(_, _) => after.phase.Idle?
    ensures Advances(p, txn, if txn.phase.Linked? then next else p, after)
  {
    hide KeyOf, RowOf, EvidenceDraft;
  }

  lemma DraftCase(s: Settings, p: Proc, draft: Draft, next: Proc)
    requires Appends(s, p, draft, next)
    ensures draft.caseId == p.caseId
  {
    hide KeyOf;
  }

  lemma AppendMoveAdvances(s: Settings, w: World, pid: Pid, draft: Draft, next: Proc, input: Input, w': World)
    requires pid in w.procs && Standing(w, pid) && Appends(s, w.procs[pid], draft, next) && input.Go?
    requires AppendMove(s, w, pid, draft, next, input) == Some(w')
    ensures pid in w'.procs
    ensures Advances(w.procs[pid], A.TxnOf(w.db, pid), w'.procs[pid], A.TxnOf(w'.db, pid))
  {
    hide A.Step, A.TxnOf, Stands, Left, Appends;
    DraftCase(s, w.procs[pid], draft, next);
    match A.TxnOf(w.db, pid).phase {
      case Idle => AuditPhases(s.audit, w.db, A.Lock(pid, draft.caseId), w'.db);
      case Locked(_) => AuditPhases(s.audit, w.db, A.ReadLatest(pid), w'.db);
      case Linked(_, _) => AuditPhases(s.audit, w.db, A.Insert(pid, draft, input.eventId, input.now), w'.db);
    }
    AppendAdvances(w.procs[pid], A.TxnOf(w.db, pid), next, A.TxnOf(w'.db, pid), s, draft);
  }

  // ----- own steps advance -----

  lemma CommitAdvances(p: Proc, txn: A.Txn, next: Proc)
    requires p.Upload?
    requires (CommitPc(p.pc) && next == AfterCommit(p)) || (p.pc.CommitCreated? && next == AfterAccept(p))
          || ((p.pc.Undo? || p.pc.Closing?) && next == AfterRollback(p))
    ensures Advances(p, txn, next, A.NO_TXN)
  {
  }

  lemma LocalAdvances(s: Settings, w: World, p: Proc, txn: A.Txn)
    requires p.Upload? && LocalPc(p.pc) && Stands(p, txn)
    ensures Advances(p, txn, AfterLocal(s, w, p), txn)
  {
    hide KeyOf, RowOf, Conflicts;
  }

  lemma UploadGoAdvances(s: Settings, w: World, u: Pid, p: Proc, input: Input, w': World)
    requires u in w.procs && w.procs[u] == p && p.Upload? && input.Go? && UploadGo(s, w, u, p, input) == Some(w')
    requires Standing(w, u)
    ensures u in w'.procs && Advances(p, A.TxnOf(w.db, u), w'.procs[u], A.TxnOf(w'.db, u))
  {
    hide A.Step, A.TxnOf, AppendMove, NoConflict, Conflicts, KeyOf, RowOf, Stands, Left;
    if AppendPc(p.pc) {
      AppendMoveAdvances(s, w, u, AppendDraft(s, p), p.(pc := AfterAppend(p.pc)), input, w');
    } else if LocalPc(p.pc) {
      LocalParts(s, w, u, p, input, w');
      LocalAdvances(s, w, p, A.TxnOf(w.db, u));
    } else if p.pc.Undo? || p.pc.Closing? {
      AuditPhases(s.audit, w.db, A.Rollback(u), w'.db);
      CommitAdvances(p, A.TxnOf(w.db, u), AfterRollback(p));
    } else {
      AuditPhases(s.audit, w.db, A.Commit(u), w'.db);
      CommitAdvances(p, A.TxnOf(w.db, u), if p.pc.CommitCreated? then AfterAccept(p) else AfterCommit(p));
    }
  }

  lemma UploadRaiseAdvances(w: World, u: Pid, p: Proc, error: Error, w': World)
    requires u in w.procs && w.procs[u] == p && p.Upload? && UploadRaise(w, u, p, error) == Some(w') && Standing(w, u)
    ensures u in w'.procs && Advances(p, A.TxnOf(w.db, u), w'.procs[u], A.TxnOf(w'.db, u))
  {
    RaiseParts(w, u, p, error, w');
    hide UploadRaise, KeyOf;
  }

  lemma DeleteGoAdvances(s: Settings, w: World, d: Pid, p: Proc, input: Input, w': World)
    requires d in w.procs && w.procs[d] == p && p.Delete? && input.Go? && DeleteGo(s, w, d, p, input) == Some(w')
    requires Standing(w, d)
    ensures d in w'.procs && Advances(p, A.TxnOf(w.db, d), w'.procs[d], A.TxnOf(w'.db, d))
  {
    hide A.Step, A.TxnOf, AppendMove, RowFree, EvidenceDraft;
    match p.at
    case AppendDeleted(row) =>
      AppendMoveAdvances(s, w, d, DeletedDraft(p, row), p.(at := CommitDeleted(row)), input, w');
    case CommitDeleted(_) => AuditPhases(s.audit, w.db, A.Commit(d), w'.db);
    case Leaving(_) => AuditPhases(s.audit, w.db, A.Rollback(d), w'.db);
    case _ =>
  }

  /** Every statement of a process, returning or raising, leaves it with fewer. */
  lemma TakeAdvances(s: Settings, w: World, pid: Pid, input: Input, w': World)
    requires TakeStep(s, w, pid, input) == Some(w') && pid in w.procs && Standing(w, pid)
    ensures pid in w'.procs && Standing(w', pid) && LeftOf(w', pid) < LeftOf(w, pid)
  {
    hide A.TxnOf, UploadGo, UploadRaise, DeleteGo, Stands, Left;
    var p := w.procs[pid];
    if p.Upload? {
      if input.Go? {
        UploadGoAdvances(s, w, pid, p, input, w');
      } else {
        UploadRaiseAdvances(w, pid, p, input.error, w');
      }
    } else if input.Go? {
      DeleteGoAdvances(s, w, pid, p, input, w');
    } else {
      DeleteRaiseAdvances(w, pid, p, w');
    }
  }

  lemma DeleteRaiseAdvances(w: World, d: Pid, p: Proc, w': World)
    requires d in w.procs && w.procs[d] == p && p.Delete? && DeleteRaise(w, d, p) == Some(w') && Standing(w, d)
    ensures d in w'.procs && Advances(p, A.TxnOf(w.db, d), w'.procs[d], A.TxnOf(w'.db, d))
  {
  }

  // ----- every run -----

  lemma StandingKept(s: Settings, w: World, l: Label, w': World)
    requires AllStanding(w) && Step(s, w, l) == Some(w')
    ensures AllStanding(w')
  {
    hide Step, TakeStep, Standing, A.TxnOf;
    forall q | q in w'.procs
      ensures Standing(w', q)
    {
      if q in w.procs && !Owns(l, q) {
        OthersLeaveAlone(s, w, l, w', q);
        SameStanding(w, w', q);
      } else {
        MovedStands(s, w, l, w', q);
      }
    }
  }

  lemma SameStanding(w: World, w': World, q: Pid)
    requires Untouched(w, w', q)
    ensures Standing(w, q) <==> Standing(w', q)
    ensures LeftOf(w, q) == LeftOf(w', q)
  {
  }

  lemma MovedStands(s: Settings, w: World, l: Label, w': World, q: Pid)
    requires AllStanding(w) && Step(s, w, l) == Some(w') && q in w'.procs && (q in w.procs ==> Owns(l, q))
    ensures Standing(w', q)
  {
    hide TakeStep, A.Step, FreshId, NoSlash, AboutCases;
    if l.Take? {
      TakeOnly(s, w, l.pid, l.input, w');
      TakeAdvances(s, w, l.pid, l.input, w');
    }
  }

  lemma {:induction false} RunStanding(s: Settings, schedule: seq<Label>)
    ensures AllStanding(Run(s, EMPTY, schedule))
  {
    hide Step, Standing;
    if schedule != [] {
      var front := schedule[..|schedule| - 1];
      RunStanding(s, front);
      var before, l := Run(s, EMPTY, front), schedule[|schedule| - 1];
      if Step(s, before, l).Some? { StandingKept(s, before, l, Step(s, before, l).value); }
    }
  }

  /** How many statements `pid` has taken in a run. */
  function Taken(s: Settings, schedule: seq<Label>, pid: Pid): nat {
    if schedule == [] then 0
    else
      var front, l := schedule[..|schedule| - 1], schedule[|schedule| - 1];
      Taken(s, front, pid) + (if Owns(l, pid) && Step(s, Run(s, EMPTY, front), l).Some? then 1 else 0)
  }

  /** In every run, with any interference and any failures: an upload takes at most 26
      statements, a delete at most 8, and a finished one takes no more. */
  lemma {:induction false} ProcessesAreShort(s: Settings, schedule: seq<Label>, pid: Pid)
    ensures var w := Run(s, EMPTY, schedule);
            if pid in w.procs then Taken(s, schedule, pid) + LeftOf(w, pid) <= (if w.procs[pid].Upload? then 26 else 8)
            else Taken(s, schedule, pid) == 0
    ensures var w := Run(s, EMPTY, schedule);
            pid in w.procs ==> (LeftOf(w, pid) == 0 <==> !Unfinished(w.procs[pid]))
  {
    hide Step, LeftOf, Standing, A.TxnOf;
    if schedule != [] {
      var front := schedule[..|schedule| - 1];
      var before, l := Run(s, EMPTY, front), schedule[|schedule| - 1];
      ProcessesAreShort(s, front, pid);
      RunStanding(s, front);
      if Step(s, before, l).Some? { OneMoreTaken(s, before, l, Step(s, before, l).value, pid); }
    }
    var w := Run(s, EMPTY, schedule);
    if pid in w.procs { NoneLeftIffFinished(w, pid); }
  }

  lemma NoneLeftIffFinished(w: World, pid: Pid)
    requires pid in w.procs
    ensures LeftOf(w, pid) == 0 <==> !Unfinished(w.procs[pid])
  {
    hide A.TxnOf;
  }

  lemma OneMoreTaken(s: Settings, w: World, l: Label, w': World, pid: Pid)
    requires AllStanding(w) && Step(s, w, l) == Some(w')
    ensures Owns(l, pid) ==> pid in w.procs && pid in w'.procs && LeftOf(w', pid) < LeftOf(w, pid)
    ensures Owns(l, pid) ==> w'.procs[pid].Upload? == w.procs[pid].Upload?
    ensures pid in w.procs && !Owns(l, pid) ==> pid in w'.procs && w'.procs[pid] == w.procs[pid]
    ensures pid in w.procs && !Owns(l, pid) ==> LeftOf(w', pid) == LeftOf(w, pid)
    ensures pid !in w.procs && pid in w'.procs ==> LeftOf(w', pid) <= if w'.procs[pid].Upload? then 26 else 8
  {
    if Owns(l, pid) {
      hide TakeStep, LeftOf, Standing, A.TxnOf;
      TakeOnly(s, w, pid, l.input, w');
      TakeAdvances(s, w, pid, l.input, w');
      if w.procs[pid].Upload? {
        StaysSameUpload(s, w, pid, w.procs[pid], l.input, w');
      } else {
        DeleteOnly(s, w, pid, l.input, w');
      }
    } else if pid in w.procs {
      hide Step, LeftOf, A.TxnOf;
      OthersLeaveAlone(s, w, l, w', pid);
      SameStanding(w, w', pid);
    } else if pid in w'.procs {
      NewHasAll(s, w, l, w', pid);
    }
  }

  lemma NewHasAll(s: Settings, w: World, l: Label, w': World, pid: Pid)
    requires Step(s, w, l) == Some(w') && pid !in w.procs && pid in w'.procs
    ensures LeftOf(w', pid) <= if w'.procs[pid].Upload? then 26 else 8
  {
    hide TakeStep, A.Step, FreshId, NoSlash, AboutCases, A.TxnOf;
    if l.Take? { TakeOnly(s, w, l.pid, l.input, w'); }
  }

  // ----- no deadlock -----

  /** A new event id, and a clock past every event that anyone sees. */
  ghost predicate Late(w: World, go: Input) {
    && go.Go? && go.now.Valid() && go.eventId !in w.db.fates
    && forall pid: Pid, c: string :: LatestRank(w, pid, c) < go.now.Rank()
  }

  /** The label is willing and enabled. */
  predicate Moves(s: Settings, w: World, l: Label) { Willing(s, w, l) && Step(s, w, l).Some? }

  predicate AtAppend(p: Proc) { if p.Upload? then AppendPc(p.pc) else p.at.AppendDeleted? }

  function NextOf(p: Proc): Proc
    requires AtAppend(p)
  {
    if p.Upload? then p.(pc := AfterAppend(p.pc)) else p.(at := CommitDeleted(p.at.row))
  }

  function AppendOf(s: Settings, p: Proc): Draft
    requires AtAppend(p)
  {
    if p.Upload? then AppendDraft(s, p) else DeletedDraft(p, p.at.row)
  }

  lemma AppendsNext(s: Settings, p: Proc)
    requires AtAppend(p)
    ensures Appends(s, p, AppendOf(s, p), NextOf(p)) && AppendOf(s, p).caseId == p.caseId
    ensures Json.WellFormedMembers(AppendOf(s, p).metadata)
  {
    hide KeyOf;
    if p.Upload? { WellFormedDrafts(s, p); }
  }

  /** Nothing can hold these statements up. */
  predicate Unheld(p: Proc) {
    if p.Upload? then !AppendPc(p.pc) && !p.pc.Create? && !p.pc.Finished?
    else !p.at.AppendDeleted? && !p.at.RemoveRow? && !p.at.Left?
  }

  lemma UnheldMoves(s: Settings, w: World, pid: Pid, go: Input)
    requires pid in w.procs && Unheld(w.procs[pid]) && go.Go?
    ensures Moves(s, w, Take(pid, go))
  {
    hide AppendMove, KeyOf, RowOf, NoConflict, RowFree, Conflicts, A.Settle;
  }

  /** Behind the lock an append goes through. */
  lemma MidAppendMoves(s: Settings, w: World, pid: Pid, go: Input)
    requires pid in w.procs && AtAppend(w.procs[pid]) && Standing(w, pid) && Late(w, go)
    requires !A.TxnOf(w.db, pid).phase.Idle?
    ensures Moves(s, w, Take(pid, go))
  {
    hide Step, Appends, AppendOf, NextOf, T.List, T.LatestHash, EventHash, Json.WellFormedMembers, A.Visible;
    var p := w.procs[pid];
    AppendsNext(s, p);
    var draft, next := AppendOf(s, p), NextOf(p);
    match A.TxnOf(w.db, pid).phase
    case Locked(_) => ReadTakes(s, w, pid, draft, next, go);
    case Linked(_, previous) =>
      var e := T.NewEvent(s.audit.sha, draft, previous, go.eventId, go.now);
      assert LatestRank(w, pid, draft.caseId) < go.now.Rank();
      assert Storable(e) && A.ClockAdvanced(w.db, pid, e, draft.caseId);
      InsertTakes(s, w, pid, draft, next, go, previous, e);
  }

  lemma LockedMoves(s: Settings, w: World, pid: Pid, go: Input)
    requires pid in w.procs && AtAppend(w.procs[pid]) && A.TxnOf(w.db, pid).phase.Idle? && go.Go?
    requires A.LockFree(w.db, pid, s.audit.lockOf(w.procs[pid].caseId))
    ensures Moves(s, w, Take(pid, go))
  {
    hide Step, Appends, AppendOf, NextOf, A.LockFree, Json.WellFormedMembers;
    AppendsNext(s, w.procs[pid]);
    LockTakes(s, w, pid, AppendOf(s, w.procs[pid]), NextOf(w.procs[pid]), go);
  }

  /** An upload between its STORED and its CREATED event holds its case's lock itself. */
  lemma OwnLock(s: Settings, w: World, pid: Pid)
    requires Inv(s, w) && pid in w.procs && w.procs[pid].Upload? && w.procs[pid].pc.AppendCreated?
    ensures A.LockFree(w.db, pid, s.audit.lockOf(w.procs[pid].caseId))
  {
    hide A.ChainsOk, A.LinksFresh, A.FatesOk, TablesOk, KeyOf, FlagsOk, ObjectOk, RowOk, TraceOk;
    assert ProcOk(s, w, pid);
    var e := PendingOf(w, pid)[0];
    assert FromDraft(e, StoredDraft(w.procs[pid])) && e in A.TxnOf(w.db, pid).pending;
    assert A.HoldsLocks(s.audit, w.db.open[pid]);
  }

  /** Whoever holds a lock can move on. */
  lemma HolderMoves(s: Settings, w: World, t: A.Tx, go: Input) returns (l: Label)
    requires Inv(s, w) && AllStanding(w) && Late(w, go) && t in w.db.open && w.db.open[t].locks != {}
    ensures Moves(s, w, l)
  {
    hide Inv, Moves, Late, LatestRank, A.LockFree;
    if t !in w.procs {
      l := Background(A.Commit(t));
      OtherCommits(s, w, t);
    } else {
      l := Take(t, go);
      assert Standing(w, t);
      var p := w.procs[t];
      assert go.Go? by { LateGoes(w, go); }
      if !AtAppend(p) {
        UnheldMoves(s, w, t, go);
      } else if A.TxnOf(w.db, t).phase.Idle? {
        OwnLock(s, w, t);
        LockedMoves(s, w, t, go);
      } else {
        MidAppendMoves(s, w, t, go);
      }
    }
  }

  lemma LateGoes(w: World, go: Input)
    requires Late(w, go)
    ensures go.Go?
  {
  }

  lemma OtherCommits(s: Settings, w: World, t: A.Tx)
    requires t in w.db.open && t !in w.procs
    ensures Moves(s, w, Background(A.Commit(t)))
  {
    hide A.Settle;
  }

  /** An append can move, or the holder of its lock can. */
  lemma AppendMoves(s: Settings, w: World, pid: Pid, go: Input) returns (l: Label)
    requires Inv(s, w) && AllStanding(w) && Late(w, go) && pid in w.procs && AtAppend(w.procs[pid])
    ensures Moves(s, w, l)
  {
    hide Inv, Moves, Late, LatestRank;
    assert Standing(w, pid);
    l := Take(pid, go);
    LateGoes(w, go);
    var key := s.audit.lockOf(w.procs[pid].caseId);
    if !A.TxnOf(w.db, pid).phase.Idle? {
      MidAppendMoves(s, w, pid, go);
    } else if A.LockFree(w.db, pid, key) {
      LockedMoves(s, w, pid, go);
    } else {
      var t :| t in w.db.open && t != pid && key in w.db.open[t].locks;
      l := HolderMoves(s, w, t, go);
    }
  }

  /** An insert can move, or it can be told of a conflict, or who conflicts can move. */
  lemma CreateMoves(s: Settings, w: World, u: Pid, go: Input) returns (l: Label)
    requires Inv(s, w) && AllStanding(w) && Late(w, go) && u in w.procs && w.procs[u].Upload? && w.procs[u].pc.Create?
    ensures Moves(s, w, l)
  {
    hide A.Inv, Late, LatestRank, KeyOf, RowOf, Conflicts, FlagsOk, ObjectOk, TraceOk, PendingOk, TablesOk, Step,
         Standing;
    var p := w.procs[u];
    LateGoes(w, go);
    if HasConflict(s, w, p) {
      l := Take(u, Raise(Integrity));
      FailTakes(s, w, u, Integrity);
    } else if NoConflict(w, u, RowOf(s, p)) {
      l := Take(u, go);
      CreateTakes(s, w, u, p, go);
    } else {
      var q :| q in w.procs && q != u && w.procs[q].Upload? && w.procs[q].inserted.Some?;
      assert ProcOk(s, w, q);
      if AtAppend(w.procs[q]) {
        l := AppendMoves(s, w, q, go);
      } else {
        l := Take(q, go);
        UnheldMoves(s, w, q, go);
      }
    }
  }

  /** The removal of a row can move, or who has removed it can. */
  lemma RemoveMoves(s: Settings, w: World, d: Pid, go: Input) returns (l: Label)
    requires Inv(s, w) && AllStanding(w) && Late(w, go)
    requires d in w.procs && w.procs[d].Delete? && w.procs[d].at.RemoveRow?
    ensures Moves(s, w, l)
  {
    hide Inv, Late, LatestRank, Step;
    LateGoes(w, go);
    if RowFree(w, d, w.procs[d].id) {
      l := Take(d, go);
      RemoveRowTakes(s, w, d, w.procs[d], go);
    } else {
      var q :| q in w.procs && q != d && w.procs[q].Delete? && w.procs[q].removed == Some(w.procs[d].id);
      assert Standing(w, q);
      if AtAppend(w.procs[q]) {
        l := AppendMoves(s, w, q, go);
      } else {
        l := Take(q, go);
        UnheldMoves(s, w, q, go);
      }
    }
  }

  /** No deadlock: in every reachable world with an unfinished process, some statement of
      an unfinished process can return (or, behind a committed row that conflicts, raise
      its integrity error), or another service's open transaction can commit.  As every
      statement leaves its process with fewer, waiting comes to an end for all of them. */
  lemma NoDeadlock(s: Settings, schedule: seq<Label>, pid: Pid, go: Input) returns (l: Label)
    requires var w := Run(s, EMPTY, schedule); pid in w.procs && Unfinished(w.procs[pid]) && Late(w, go)
    ensures var w := Run(s, EMPTY, schedule);
            && Willing(s, w, l) && Step(s, w, l).Some?
            && (l.Take? ==> l.pid in w.procs && Unfinished(w.procs[l.pid]))
  {
    hide Run, Inv, Late, Step, Willing, AllStanding;
    var w := Run(s, EMPTY, schedule);
    InitOk(s);
    RunKeeps(s, EMPTY, schedule);
    RunStanding(s, schedule);
    LateGoes(w, go);
    var p := w.procs[pid];
    if AtAppend(p) {
      l := AppendMoves(s, w, pid, go);
    } else if p.Upload? && p.pc.Create? {
      l := CreateMoves(s, w, pid, go);
    } else if p.Delete? && p.at.RemoveRow? {
      l := RemoveMoves(s, w, pid, go);
    } else {
      l := Take(pid, go);
      UnheldMoves(s, w, pid, go);
    }
    if l.Take? { MoversAreUnfinished(s, w, l.pid, l.input); }
  }

  lemma MoversAreUnfinished(s: Settings, w: World, pid: Pid, input: Input)
    requires Step(s, w, Take(pid, input)).Some?
    ensures pid in w.procs && Unfinished(w.procs[pid])
  {
    hide AppendMove, AuditMove, KeyOf, RowOf, NoConflict, RowFree, Conflicts;
  }
}
