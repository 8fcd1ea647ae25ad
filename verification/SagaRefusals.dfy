/** Why an upload ends without a row: a refusal by one of the service's own checks
    says what is true of the content or of the log. */
module SagaRefusals {
  import opened Wrappers
  import opened Events
  import opened ObjectKeys
  import opened Saga
  import opened SagaInvariant
  import opened SagaProof
  import opened SagaRun
  import opened SagaTurns
  import opened SagaOrphans
  import A = AuditRun

  /** The error that an upload is being, or has been, refused with. */
  function ErrorOf(pc: UploadPc): Option<Error> {
    match pc
    case Undo(e) => Some(e)
    case Compensate(e) => Some(e)
    case AppendFailed(e) => Some(e)
    case CommitFailed(e) => Some(e)
    case Closing(outcome) => OutcomeError(outcome)
    case Finished(outcome) => OutcomeError(outcome)
    case _ => None
  }

  function OutcomeError(outcome: Outcome): Option<Error> {
    match outcome
    case Rejected(e, _) => Some(e)
    case Escaped(e) => Some(e)
    case _ => None
  }

  predicate Fits(s: Settings, p: Proc)
    requires p.Upload?
  {
    0 < |p.content| <= s.maxSize
  }

  /** A row of the upload's case has the upload's digest. */
  predicate HasConflict(s: Settings, w: World, p: Proc)
    requires p.Upload?
  {
    exists id <- w.rows :: Conflicts(w.rows[id], RowOf(s, p))
  }

  // ----- how an error arises -----

  /** What a step of upload `p` does to its error: it keeps one it has, and a new one
      is what a call raised or what one of the three checks found. */
  predicate ErrorStep(s: Settings, w: World, p: Proc, input: Input, q: Proc)
    requires p.Upload? && q.Upload?
  {
    if ErrorOf(p.pc).Some? then ErrorOf(q.pc) == ErrorOf(p.pc)
    else
      match ErrorOf(q.pc)
      case None => true
      case Some(Empty) => input.Go? && |p.content| == 0
      case Some(TooLarge) => input.Go? && |p.content| > s.maxSize
      case Some(Duplicate) => input.Go? && p.pc.CheckDuplicate? && HasConflict(s, w, p)
      case Some(e) => input == Raise(e)
  }

  lemma LocalErrors(s: Settings, w: World, u: Pid, p: Proc, input: Input, w': World)
    requires u in w.procs && w.procs[u] == p && p.Upload? && LocalPc(p.pc) && input.Go?
    requires UploadGo(s, w, u, p, input) == Some(w')
    ensures u in w'.procs && w'.procs[u].Upload? && ErrorStep(s, w, p, input, w'.procs[u])
  {
    LocalParts(s, w, u, p, input, w');
    hide UploadGo, NoConflict, Conflicts, KeyOf, RowOf;
  }

  lemma GoErrors(s: Settings, w: World, u: Pid, p: Proc, input: Input, w': World)
    requires u in w.procs && w.procs[u] == p && p.Upload? && input.Go? && UploadGo(s, w, u, p, input) == Some(w')
    ensures u in w'.procs && w'.procs[u].Upload? && ErrorStep(s, w, p, input, w'.procs[u])
  {
    hide A.Step, AppendMove, AuditMove, NoConflict, Conflicts, KeyOf, RowOf, MovesOnly;
    if AppendPc(p.pc) {
      AppendMoveOnly(s, w, u, AppendDraft(s, p), p.(pc := AfterAppend(p.pc)), input, w');
    } else if CommitPc(p.pc) {
      AuditMoveOnly(s, w, A.Commit(u), AfterCommit(p), w');
    } else if p.pc.CommitCreated? {
      var rows := if p.inserted.Some? then w.rows[p.id := p.inserted.value] else w.rows;
      AuditMoveOnly(s, w.(rows := rows), A.Commit(u), AfterAccept(p), w');
    } else if p.pc.Undo? || p.pc.Closing? {
      AuditMoveOnly(s, w, A.Rollback(u), AfterRollback(p), w');
    } else if LocalPc(p.pc) {
      LocalErrors(s, w, u, p, input, w');
    }
  }

  lemma StepErrors(s: Settings, w: World, u: Pid, p: Proc, input: Input, w': World)
    requires u in w.procs && w.procs[u] == p && p.Upload? && TakeStep(s, w, u, input) == Some(w')
    ensures u in w'.procs && w'.procs[u].Upload? && ErrorStep(s, w, p, input, w'.procs[u])
  {
    hide UploadGo, UploadRaise, HasConflict, KeyOf;
    if input.Go? { GoErrors(s, w, u, p, input, w'); } else { RaiseParts(w, u, p, input.error, w'); }
  }

  // ----- every committed row has its CREATED event, for good -----

  predicate CreatedFor(e: Event, c: string, digest: string) {
    e.eventType == Created && e.resourceType == "evidence" && e.caseId == Some(c) && e.outputHash == Some(digest)
  }

  /** The committed log holds a CREATED event of case `c` with this digest. */
  predicate Logged(log: seq<Event>, c: string, digest: string) {
    exists i | 0 <= i < |log| :: CreatedFor(log[i], c, digest)
  }

  lemma LoggedStays(log: seq<Event>, more: seq<Event>, c: string, digest: string)
    requires log <= more && Logged(log, c, digest)
    ensures Logged(more, c, digest)
  {
    var i :| 0 <= i < |log| && CreatedFor(log[i], c, digest);
    assert CreatedFor(more[i], c, digest);
  }

  lemma CommittedGrows(s: Settings, w: World, l: Label, w': World)
    requires Step(s, w, l) == Some(w')
    ensures w.db.committed <= w'.db.committed
  {
    hide A.Step;
    StepMoves(s, w, l, w');
    if w'.db != w.db {
      var m: A.Label :| A.Step(s.audit, w.db, m) == Some(w'.db);
      AuditEffect(s.audit, w.db, m, w'.db);
    }
  }

  lemma {:induction false} LoggedLater(s: Settings, log: seq<Label>, more: seq<Label>, c: string, digest: string)
    requires log <= more
    ensures Logged(Run(s, EMPTY, log).db.committed, c, digest) ==> Logged(Run(s, EMPTY, more).db.committed, c, digest)
    decreases |more|
  {
    hide Step, Logged;
    if log != more {
      var front, l := more[..|more| - 1], more[|more| - 1];
      LoggedLater(s, log, front, c, digest);
      var w := Run(s, EMPTY, front);
      if Step(s, w, l).Some? && Logged(w.db.committed, c, digest) {
        CommittedGrows(s, w, l, Step(s, w, l).value);
        LoggedStays(w.db.committed, Step(s, w, l).value.db.committed, c, digest);
      }
    }
  }

  /** What is known of upload `p`: an accepted one is logged as created, and the
      service's own refusals are true. */
  predicate Truthful(s: Settings, w: World, p: Proc)
    requires p.Upload?
  {
    && (IsAccepted(p.pc) ==> Logged(w.db.committed, p.caseId, s.audit.sha(p.content)))
    && (ErrorOf(p.pc) == Some(Empty) ==> |p.content| == 0)
    && (ErrorOf(p.pc) == Some(TooLarge) ==> |p.content| > s.maxSize)
    && (ErrorOf(p.pc) == Some(Duplicate) ==> Fits(s, p) && Logged(w.db.committed, p.caseId, s.audit.sha(p.content)))
  }

  predicate AllTruthful(s: Settings, w: World) {
    forall u <- w.procs :: w.procs[u].Upload? ==> Truthful(s, w, w.procs[u])
  }

  lemma TruthStays(s: Settings, w: World, w': World, p: Proc)
    requires p.Upload? && Truthful(s, w, p) && w.db.committed <= w'.db.committed
    ensures Truthful(s, w', p)
  {
    hide Logged;
    var digest := s.audit.sha(p.content);
    if Logged(w.db.committed, p.caseId, digest) { LoggedStays(w.db.committed, w'.db.committed, p.caseId, digest); }
  }

  /** A conflicting row belongs to an accepted upload, whose CREATED event is logged. */
  lemma ConflictIsLogged(s: Settings, w: World, p: Proc)
    requires Inv(s, w) && AllTruthful(s, w) && p.Upload? && HasConflict(s, w, p)
    ensures Logged(w.db.committed, p.caseId, s.audit.sha(p.content))
  {
    hide A.Inv, ProcsOk, Logged, KeyOf;
    var id :| id in w.rows && Conflicts(w.rows[id], RowOf(s, p));
    RowIsKnown(s, w, id);
    var v := RowUpload(s, w, w.rows[id]);
    assert Truthful(s, w, w.procs[v]);
  }

  /** The commit of an upload puts its CREATED event into the log. */
  lemma AcceptedIsLogged(s: Settings, w: World, u: Pid, p: Proc, input: Input, w': World)
    requires Inv(s, w) && u in w.procs && w.procs[u] == p && p.Upload? && p.pc.CommitCreated? && input.Go?
    requires UploadGo(s, w, u, p, input) == Some(w')
    ensures Logged(w'.db.committed, p.caseId, s.audit.sha(p.content))
  {
    hide A.Step, A.Inv, KeyOf, RowOf, FlagsOk, ObjectOk, RowOk, TraceOk, TablesOk;
    assert ProcOk(s, w, u) && FromDrafts(PendingOf(w, u), Waiting(s, p));
    var rows := if p.inserted.Some? then w.rows[p.id := p.inserted.value] else w.rows;
    assert AuditMove(s, w.(rows := rows), A.Commit(u), AfterAccept(p)) == Some(w');
    CommitMoveEffect(s, w.(rows := rows), u, AfterAccept(p), w');
    var i := |w.db.committed| + 1;
    assert w'.db.committed[i] == PendingOf(w, u)[1] && FromDraft(PendingOf(w, u)[1], CreatedDraft(s, p));
    assert CreatedFor(w'.db.committed[i], p.caseId, s.audit.sha(p.content));
  }

  lemma UploadTruth(s: Settings, w: World, u: Pid, p: Proc, input: Input, w': World)
    requires Inv(s, w) && AllTruthful(s, w) && u in w.procs && w.procs[u] == p && p.Upload?
    requires TakeStep(s, w, u, input) == Some(w') && w.db.committed <= w'.db.committed
    ensures u in w'.procs && w'.procs[u].Upload? && Truthful(s, w', w'.procs[u])
  {
    hide A.Inv, UploadGo, UploadRaise, KeyOf, RowOf, Logged, ProcsOk, TablesOk, HasConflict;
    assert Truthful(s, w, p);
    StepErrors(s, w, u, p, input, w');
    StaysSameUpload(s, w, u, p, input, w');
    TruthStays(s, w, w', p);
    if IsAccepted(w'.procs[u].pc) {
      OnlyCommitAccepts(s, w, u, p, input, w');
      AcceptedIsLogged(s, w, u, p, input, w');
    }
    if ErrorOf(p.pc).None? && ErrorOf(w'.procs[u].pc) == Some(Duplicate) {
      ConflictIsLogged(s, w, p);
      LoggedStays(w.db.committed, w'.db.committed, p.caseId, s.audit.sha(p.content));
      PastReceiveFits(s, w, u, p);
    }
  }

  lemma PastReceiveFits(s: Settings, w: World, u: Pid, p: Proc)
    requires Inv(s, w) && u in w.procs && w.procs[u] == p && p.Upload? && PastReceive(p.pc)
    ensures Fits(s, p)
  {
    hide A.Inv, TablesOk, KeyOf, FlagsOk, ObjectOk, TraceOk, PendingOk;
    assert ProcOk(s, w, u);
  }

  lemma GoAccepts(s: Settings, w: World, u: Pid, p: Proc, input: Input, w': World)
    requires u in w.procs && w.procs[u] == p && p.Upload? && input.Go? && UploadGo(s, w, u, p, input) == Some(w')
    requires p.pc.Closing? ==> p.pc.outcome != Accepted
    ensures u in w'.procs && w'.procs[u].Upload?
    ensures IsAccepted(w'.procs[u].pc) ==> p.pc.CommitCreated?
  {
    hide A.Step, AuditMove, AppendMove, KeyOf, RowOf, NoConflict, Conflicts, MovesOnly;
    if AppendPc(p.pc) {
      AppendMoveOnly(s, w, u, AppendDraft(s, p), p.(pc := AfterAppend(p.pc)), input, w');
    } else if CommitPc(p.pc) {
      AuditMoveOnly(s, w, A.Commit(u), AfterCommit(p), w');
    } else if p.pc.Undo? || p.pc.Closing? {
      AuditMoveOnly(s, w, A.Rollback(u), AfterRollback(p), w');
    } else if p.pc.CommitCreated? {
      var rows := if p.inserted.Some? then w.rows[p.id := p.inserted.value] else w.rows;
      AuditMoveOnly(s, w.(rows := rows), A.Commit(u), AfterAccept(p), w');
    } else {
      LocalParts(s, w, u, p, input, w');
    }
  }

  lemma ClosingRefuses(s: Settings, w: World, u: Pid)
    requires Inv(s, w) && u in w.procs && w.procs[u].Upload? && w.procs[u].pc.Closing?
    ensures w.procs[u].pc.outcome != Accepted
  {
    hide A.Inv, TablesOk, KeyOf, ObjectOk, RowOk, TraceOk, PendingOk;
    assert ProcOk(s, w, u);
  }

  lemma OnlyCommitAccepts(s: Settings, w: World, u: Pid, p: Proc, input: Input, w': World)
    requires Inv(s, w) && u in w.procs && w.procs[u] == p && p.Upload? && TakeStep(s, w, u, input) == Some(w')
    requires u in w'.procs && w'.procs[u].Upload? && IsAccepted(w'.procs[u].pc)
    ensures p.pc.CommitCreated? && input.Go?
  {
    hide Inv, UploadGo, UploadRaise, KeyOf;
    if p.pc.Closing? { ClosingRefuses(s, w, u); }
    if input.Go? { GoAccepts(s, w, u, p, input, w'); } else { RaiseParts(w, u, p, input.error, w'); }
  }

  lemma StaysSameUpload(s: Settings, w: World, u: Pid, p: Proc, input: Input, w': World)
    requires u in w.procs && w.procs[u] == p && p.Upload? && TakeStep(s, w, u, input) == Some(w')
    ensures u in w'.procs && w'.procs[u].Upload? && SameUpload(p, w'.procs[u])
    ensures w'.procs == w.procs[u := w'.procs[u]]
  {
    hide A.Step, UploadGo, UploadRaise, KeyOf;
    TakeOnly(s, w, u, input, w');
    if input.Go? { GoSameUpload(s, w, u, p, input, w'); } else { RaiseParts(w, u, p, input.error, w'); }
  }

  lemma DeleteOnly(s: Settings, w: World, d: Pid, input: Input, w': World)
    requires d in w.procs && w.procs[d].Delete? && TakeStep(s, w, d, input) == Some(w')
    ensures d in w'.procs && w'.procs[d].Delete? && w'.procs == w.procs[d := w'.procs[d]]
  {
    hide A.Step, DeleteGo, KeyOf;
    TakeOnly(s, w, d, input, w');
    DeleteMarks(s, w, d, w.procs[d], input, w');
  }

  // ----- every run is truthful -----

  lemma TruthKept(s: Settings, w: World, l: Label, w': World)
    requires Inv(s, w) && AllTruthful(s, w) && Step(s, w, l) == Some(w')
    ensures AllTruthful(s, w')
  {
    CommittedGrows(s, w, l, w');
    hide Inv, TakeStep, A.Step, FreshId, NoSlash, AboutCases, Truthful;
    forall q | q in w'.procs && w'.procs[q].Upload?
      ensures Truthful(s, w', w'.procs[q])
    {
      if q in w.procs && w'.procs[q] == w.procs[q] {
        TruthStays(s, w, w', w.procs[q]);
      } else {
        MovedIsTruthful(s, w, l, w', q);
      }
    }
  }

  lemma MovedIsTruthful(s: Settings, w: World, l: Label, w': World, q: Pid)
    requires Inv(s, w) && AllTruthful(s, w) && Step(s, w, l) == Some(w') && w.db.committed <= w'.db.committed
    requires q in w'.procs && w'.procs[q].Upload? && (q in w.procs ==> w'.procs[q] != w.procs[q])
    ensures Truthful(s, w', w'.procs[q])
  {
    hide Inv, TakeStep, A.Step, FreshId, NoSlash, AboutCases, Logged, Fits;
    if l.Take? {
      TakeOnly(s, w, l.pid, l.input, w');
      if w.procs[l.pid].Upload? {
        StaysSameUpload(s, w, l.pid, w.procs[l.pid], l.input, w');
        UploadTruth(s, w, l.pid, w.procs[l.pid], l.input, w');
      } else {
        DeleteOnly(s, w, l.pid, l.input, w');
      }
    }
  }

  lemma {:induction false} RunTruthful(s: Settings, schedule: seq<Label>)
    ensures AllTruthful(s, Run(s, EMPTY, schedule))
  {
    hide Inv, Step, Truthful;
    if schedule != [] {
      var front := schedule[..|schedule| - 1];
      RunTruthful(s, front);
      InitOk(s);
      RunKeeps(s, EMPTY, front);
      var before, l := Run(s, EMPTY, front), schedule[|schedule| - 1];
      if Step(s, before, l).Some? { TruthKept(s, before, l, Step(s, before, l).value); }
    }
  }

  /** In every run, what an upload was refused for is so: refused as empty or as too
      large exactly by its length, among the service's own refusals, and as a
      duplicate only if the log of its case holds a CREATED event with its digest. */
  lemma RefusalsAreTrue(s: Settings, w: World, u: Pid, e: Error)
    requires Reachable(s, w) && u in w.procs && w.procs[u].Upload? && ErrorOf(w.procs[u].pc) == Some(e)
    ensures var p := w.procs[u];
            e.Empty? || e.TooLarge? || e.Duplicate? ==>
              && (e.Empty? <==> |p.content| == 0)
              && (e.TooLarge? <==> |p.content| > s.maxSize)
              && (e.Duplicate? ==> Logged(w.db.committed, p.caseId, s.audit.sha(p.content)))
  {
    hide Run, Logged;
    var schedule :| w == Run(s, EMPTY, schedule);
    RunTruthful(s, schedule);
    assert Truthful(s, w, w.procs[u]);
  }
}
