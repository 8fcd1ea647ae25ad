/** Concurrent uploads of the same bytes to one case: as long as none of them fails of
    itself and none of their rows is deleted, exactly one row is left, with its object,
    whatever else runs and fails beside them. */
module SagaWinner {
  import opened Wrappers
  import opened ObjectKeys
  import opened Saga
  import opened SagaInvariant
  import opened SagaProof
  import opened SagaRun
  import opened SagaTurns
  import opened SagaOrphans
  import opened SagaRefusals
  import opened SagaDeletes
  import A = AuditRun

  /** An upload to case `c` of bytes with this digest. */
  predicate Rival(s: Settings, p: Proc, c: string, digest: string) {
    p.Upload? && p.caseId == c && s.audit.sha(p.content) == digest
  }

  predicate RivalRow(row: Row, c: string, digest: string) { row.caseId == c && row.sha256 == digest }

  /** No rival raises, but for the integrity error of its insert behind a committed row
      that conflicts, and no delete of a rival's row passes its storage step.  Anything
      else may run, and raise. */
  predicate Faultless(s: Settings, w: World, l: Label, c: string, digest: string) {
    l.Take? && l.pid in w.procs ==>
      var p := w.procs[l.pid];
      && (Rival(s, p, c, digest) && l.input.Raise? ==>
            l.input.error.Integrity? && p.pc.Create? && HasConflict(s, w, p))
      && (p.Delete? && p.at.RemoveObject? && l.input.Go? ==> !RivalRow(p.at.row, c, digest))
  }

  predicate FaultlessRun(s: Settings, schedule: seq<Label>, c: string, digest: string) {
    schedule == []
    || (var front := schedule[..|schedule| - 1];
        FaultlessRun(s, front, c, digest) && Faultless(s, Run(s, EMPTY, front), schedule[|schedule| - 1], c, digest))
  }

  /** A rival that fits can only lose to a row that is there; what it stored is its row's
      or is taken away again. */
  predicate LosesToRow(s: Settings, w: World, p: Proc)
    requires p.Upload?
  {
    && (Fits(s, p) && ErrorOf(p.pc).Some? ==> HasConflict(s, w, p) && ErrorOf(p.pc).value in {Duplicate, Integrity})
    && !p.pc.Closing?
    && (p.pc.Finished? ==> p.pc.outcome == Accepted || (p.pc.outcome.Rejected? && p.pc.outcome.recorded))
    && (IsAccepted(p.pc) ==> p.id !in w.emptied)
    && KeyOf(p) !in w.strays && KeyOf(p) !in w.escaped
  }

  predicate AllLoseToRows(s: Settings, w: World, c: string, digest: string) {
    forall u <- w.procs :: Rival(s, w.procs[u], c, digest) ==> LosesToRow(s, w, w.procs[u])
  }

  /** The rows of rivals stay. */
  predicate RivalRowsStay(w: World, w': World, c: string, digest: string) {
    forall id <- w.rows :: RivalRow(w.rows[id], c, digest) ==> id in w'.rows && w'.rows[id] == w.rows[id]
  }

  lemma SameConflict(s: Settings, w: World, w': World, p: Proc, q: Proc, c: string, digest: string)
    requires p.Upload? && q.Upload? && SameUpload(p, q) && Rival(s, p, c, digest)
    requires RivalRowsStay(w, w', c, digest) && HasConflict(s, w, p)
    ensures HasConflict(s, w', q)
  {
    hide KeyOf;
    var id :| id in w.rows && Conflicts(w.rows[id], RowOf(s, p));
    assert RivalRow(w.rows[id], c, digest);
    assert Conflicts(w'.rows[id], RowOf(s, q));
  }

  lemma LoserStays(s: Settings, w: World, w': World, p: Proc, c: string, digest: string)
    requires p.Upload? && Rival(s, p, c, digest) && LosesToRow(s, w, p) && RivalRowsStay(w, w', c, digest)
    requires IsAccepted(p.pc) && p.id in w'.emptied ==> p.id in w.emptied
    requires KeyOf(p) in w'.strays + w'.escaped ==> KeyOf(p) in w.strays + w.escaped
    ensures LosesToRow(s, w', p)
  {
    hide HasConflict, KeyOf;
    if HasConflict(s, w, p) { SameConflict(s, w, w', p, p, c, digest); }
  }

  // ----- steps of uploads -----

  lemma RowNotYet(s: Settings, w: World, u: Pid, p: Proc, input: Input, w': World)
    requires u in w.procs && w.procs[u] == p && p.Upload? && TakeStep(s, w, u, input) == Some(w') && RowOk(s, w, p)
    ensures p.id !in w.rows
  {
  }

  lemma UploadRowsStay(s: Settings, w: World, u: Pid, p: Proc, input: Input, w': World, c: string, digest: string)
    requires Inv(s, w) && u in w.procs && w.procs[u] == p && p.Upload? && TakeStep(s, w, u, input) == Some(w')
    ensures RivalRowsStay(w, w', c, digest) && w'.emptied == w.emptied
  {
    hide TakeStep, A.Inv, KeyOf, FlagsOk, ObjectOk, TraceOk, PendingOk, TablesOk, RowOf, RivalRow;
    assert ProcOk(s, w, u);
    UploadFrame(s, w, u, p, input, w');
    RowNotYet(s, w, u, p, input, w');
    forall id | id in w.rows
      ensures id in w'.rows && w'.rows[id] == w.rows[id]
    {
      assert SameEntry(w, w', id);
    }
    UploadEmptiesNothing(s, w, u, p, input, w');
  }

  /** Where a statement that returns can end the upload. */
  lemma GoEnds(s: Settings, w: World, u: Pid, p: Proc, input: Input, w': World)
    requires u in w.procs && w.procs[u] == p && p.Upload? && input.Go? && UploadGo(s, w, u, p, input) == Some(w')
    requires !p.pc.Closing?
    ensures u in w'.procs && w'.procs[u].Upload? && !w'.procs[u].pc.Closing?
    ensures var pc := w'.procs[u].pc;
            pc.Finished? ==> pc.outcome == Accepted || (pc.outcome.Rejected? && pc.outcome.recorded)
  {
    hide A.Step, AppendMove, AuditMove, NoConflict, Conflicts, KeyOf, RowOf, MovesOnly;
    if AppendPc(p.pc) {
      AppendMoveOnly(s, w, u, AppendDraft(s, p), p.(pc := AfterAppend(p.pc)), input, w');
    } else if CommitPc(p.pc) {
      AuditMoveOnly(s, w, A.Commit(u), AfterCommit(p), w');
    } else if p.pc.CommitCreated? {
      var rows := if p.inserted.Some? then w.rows[p.id := p.inserted.value] else w.rows;
      AuditMoveOnly(s, w.(rows := rows), A.Commit(u), AfterAccept(p), w');
    } else if p.pc.Undo? {
      AuditMoveOnly(s, w, A.Rollback(u), AfterRollback(p), w');
    } else if LocalPc(p.pc) {
      LocalParts(s, w, u, p, input, w');
    }
  }

  lemma UnacceptedNotEmptied(s: Settings, w: World, u: Pid, p: Proc)
    requires Inv(s, w) && u in w.procs && w.procs[u] == p && p.Upload? && !IsAccepted(p.pc)
    ensures p.id !in w.emptied
  {
    hide A.Inv, TablesOk, KeyOf, FlagsOk, RowOk, TraceOk, PendingOk;
    assert ProcOk(s, w, u);
  }

  lemma UploadLoses(s: Settings, w: World, u: Pid, p: Proc, input: Input, w': World, c: string, digest: string)
    requires Inv(s, w) && u in w.procs && w.procs[u] == p && Rival(s, p, c, digest) && LosesToRow(s, w, p)
    requires Faultless(s, w, Take(u, input), c, digest) && TakeStep(s, w, u, input) == Some(w')
    ensures u in w'.procs && w'.procs[u].Upload? && LosesToRow(s, w', w'.procs[u])
  {
    hide Inv, UploadGo, UploadRaise, HasConflict, KeyOf;
    UploadRowsStay(s, w, u, p, input, w', c, digest);
    StepErrors(s, w, u, p, input, w');
    StaysSameUpload(s, w, u, p, input, w');
    SameRow(s, p);
    NotAccepted(s, w, u, p, input, w');
    UnacceptedNotEmptied(s, w, u, p);
    if HasConflict(s, w, p) { SameConflict(s, w, w', p, w'.procs[u], c, digest); }
    if input.Go? {
      GoEnds(s, w, u, p, input, w');
      UploadGoOnly(s, w, u, p, input, w');
    } else {
      RaiseParts(w, u, p, input.error, w');
    }
  }

  /** A step of an upload leaves every other rival's standing. */
  lemma UploadLeavesRivals(s: Settings, w: World, u: Pid, p: Proc, input: Input, w': World, q: Pid,
                           c: string, digest: string)
    requires Inv(s, w) && u in w.procs && w.procs[u] == p && p.Upload? && TakeStep(s, w, u, input) == Some(w')
    requires q in w.procs && q != u && Rival(s, w.procs[q], c, digest) && LosesToRow(s, w, w.procs[q])
    requires MarksOk(w)
    ensures LosesToRow(s, w', w.procs[q])
  {
    hide TakeStep, A.Inv, KeyOf, FlagsOk, RowOk, TraceOk, PendingOk, TablesOk, LosesToRow, MarkOk, ObjectOk;
    assert ProcOk(s, w, u) && MarkOk(w, u);
    UploadRowsStay(s, w, u, p, input, w', c, digest);
    UploadMarks(s, w, u, p, input, w');
    UploadFrame(s, w, u, p, input, w');
    UploadElsewhere(s, w, u, q, w', p.id);
    LoserStays(s, w, w', w.procs[q], c, digest);
  }

  // ----- steps of deletes -----

  lemma DeleteRows(s: Settings, w: World, d: Pid, p: Proc, input: Input, w': World)
    requires d in w.procs && w.procs[d] == p && p.Delete? && TakeStep(s, w, d, input) == Some(w')
    ensures w'.rows == w.rows || (p.at.CommitDeleted? && w'.rows == w.rows - {p.id})
  {
    hide A.Step, RowFree;
  }

  /** The row of a rival is that of an accepted rival, which no delete has emptied. */
  lemma RivalRowNotEmptied(s: Settings, w: World, id: string, c: string, digest: string)
    requires Inv(s, w) && AllLoseToRows(s, w, c, digest) && id in w.rows && RivalRow(w.rows[id], c, digest)
    ensures id !in w.emptied
  {
    hide A.Inv, ProcsOk, KeyOf, HasConflict;
    RowIsKnown(s, w, id);
    var v := RowUpload(s, w, w.rows[id]);
    assert Rival(s, w.procs[v], c, digest) && LosesToRow(s, w, w.procs[v]);
  }

  lemma DeleteLeavesRows(s: Settings, w: World, d: Pid, p: Proc, input: Input, w': World, c: string, digest: string)
    requires Inv(s, w) && AllLoseToRows(s, w, c, digest) && d in w.procs && w.procs[d] == p && p.Delete?
    requires TakeStep(s, w, d, input) == Some(w')
    ensures RivalRowsStay(w, w', c, digest)
  {
    hide TakeStep, A.Inv, TablesOk, KeyOf, UploadOk, AllLoseToRows, RivalRow, KnownRow, FromDrafts;
    assert ProcOk(s, w, d);
    DeleteRows(s, w, d, p, input, w');
    forall id | id in w.rows && RivalRow(w.rows[id], c, digest)
      ensures id in w'.rows && w'.rows[id] == w.rows[id]
    {
      RivalRowNotEmptied(s, w, id, c, digest);
    }
  }

  /** The object that a faultless delete removes is not that of an accepted rival. */
  lemma DeleteEmptiesNoRival(s: Settings, w: World, d: Pid, p: Proc, input: Input, q: Pid, c: string, digest: string)
    requires Inv(s, w) && d in w.procs && w.procs[d] == p && p.Delete? && p.at.RemoveObject? && input.Go?
    requires Faultless(s, w, Take(d, input), c, digest)
    requires q in w.procs && Rival(s, w.procs[q], c, digest) && IsAccepted(w.procs[q].pc)
    ensures w.procs[q].id != p.id
  {
    hide A.Inv, KeyOf, UploadOk, FromDrafts, HasConflict;
    assert ProcOk(s, w, d);
    var v := RowUpload(s, w, p.at.row);
    if w.procs[q].id == p.id { SameIdSameUpload(w, q, v); }
  }

  lemma DeleteLeavesRivals(s: Settings, w: World, d: Pid, p: Proc, input: Input, w': World, q: Pid,
                           c: string, digest: string)
    requires Inv(s, w) && AllLoseToRows(s, w, c, digest) && d in w.procs && w.procs[d] == p && p.Delete?
    requires Faultless(s, w, Take(d, input), c, digest) && TakeStep(s, w, d, input) == Some(w')
    requires q in w.procs && Rival(s, w.procs[q], c, digest)
    ensures LosesToRow(s, w', w.procs[q])
  {
    hide Inv, TakeStep, KeyOf, Faultless, LosesToRow;
    assert LosesToRow(s, w, w.procs[q]);
    DeleteLeavesRows(s, w, d, p, input, w', c, digest);
    DeleteMarks(s, w, d, p, input, w');
    DeleteEmpties(s, w, d, p, input, w');
    if IsAccepted(w.procs[q].pc) && p.at.RemoveObject? && input.Go? {
      DeleteEmptiesNoRival(s, w, d, p, input, q, c, digest);
    }
    LoserStays(s, w, w', w.procs[q], c, digest);
  }

  // ----- every step -----

  /** A new upload has not lost, and its key is unmarked. */
  lemma NewRival(s: Settings, w: World, u: Pid, p: Proc)
    requires Inv(s, w) && MarksOk(w) && p.Upload? && p.pc.AppendStarted? && FreshId(w, p.id)
    requires NoSlash(p.caseId) && NoSlash(p.id)
    ensures KeyOf(p) !in w.strays && KeyOf(p) !in w.escaped
  {
    hide Inv, KeyOf, MarkOk, FreshId;
    if KeyOf(p) in w.strays + w.escaped {
      var v :| Owner(w, v, KeyOf(p));
      FreshElsewhere(s, w, p, v);
    }
  }

  lemma StartLoses(s: Settings, w: World, l: Label, w': World, q: Pid)
    requires Inv(s, w) && MarksOk(w) && l.StartUpload? && Step(s, w, l) == Some(w') && q == l.pid
    ensures q in w'.procs && w'.procs[q].Upload? && LosesToRow(s, w', w'.procs[q])
  {
    hide Inv, MarksOk, KeyOf, HasConflict, FreshId;
    NewRival(s, w, q, w'.procs[q]);
  }

  lemma RivalKept(s: Settings, w: World, l: Label, w': World, q: Pid, c: string, digest: string)
    requires Inv(s, w) && MarksOk(w) && AllLoseToRows(s, w, c, digest) && Faultless(s, w, l, c, digest)
    requires Step(s, w, l) == Some(w') && q in w'.procs && Rival(s, w'.procs[q], c, digest)
    ensures LosesToRow(s, w', w'.procs[q])
  {
    hide Inv, MarksOk, TakeStep, A.Step, FreshId, NoSlash, AboutCases, LosesToRow, Faultless, KeyOf;
    match l
    case StartUpload(pid, _, _, _, _, _, _) =>
      if q == pid { StartLoses(s, w, l, w', q); } else { Unmoved(s, w, l, w', q, c, digest); }
    case StartDelete(_, _, _) => Unmoved(s, w, l, w', q, c, digest);
    case Background(_) => Unmoved(s, w, l, w', q, c, digest);
    case Take(pid, input) =>
      TakeOnly(s, w, pid, input, w');
      if w.procs[pid].Upload? {
        StaysSameUpload(s, w, pid, w.procs[pid], input, w');
        if q == pid {
          UploadLoses(s, w, pid, w.procs[pid], input, w', c, digest);
        } else {
          UploadLeavesRivals(s, w, pid, w.procs[pid], input, w', q, c, digest);
        }
      } else {
        DeleteOnly(s, w, pid, input, w');
        DeleteLeavesRivals(s, w, pid, w.procs[pid], input, w', q, c, digest);
      }
  }

  /** Starts and other services change no table that a rival depends on. */
  lemma Unmoved(s: Settings, w: World, l: Label, w': World, q: Pid, c: string, digest: string)
    requires AllLoseToRows(s, w, c, digest) && Step(s, w, l) == Some(w') && !l.Take?
    requires q in w.procs && q in w'.procs && w'.procs[q] == w.procs[q] && Rival(s, w.procs[q], c, digest)
    ensures LosesToRow(s, w', w'.procs[q])
  {
    hide A.Step, KeyOf, HasConflict, LosesToRow;
    assert LosesToRow(s, w, w.procs[q]);
    LoserStays(s, w, w', w.procs[q], c, digest);
  }

  lemma {:induction false} FaultlessKeeps(s: Settings, schedule: seq<Label>, c: string, digest: string)
    requires FaultlessRun(s, schedule, c, digest)
    ensures AllLoseToRows(s, Run(s, EMPTY, schedule), c, digest)
  {
    hide Inv, MarksOk, Step, LosesToRow, Faultless;
    if schedule != [] {
      var front := schedule[..|schedule| - 1];
      FaultlessKeeps(s, front, c, digest);
      InitOk(s);
      RunKeeps(s, EMPTY, front);
      RunMarks(s, front);
      var before, l := Run(s, EMPTY, front), schedule[|schedule| - 1];
      if Step(s, before, l).Some? {
        var after := Step(s, before, l).value;
        forall q | q in after.procs && Rival(s, after.procs[q], c, digest)
          ensures LosesToRow(s, after, after.procs[q])
        {
          RivalKept(s, before, l, after, q, c, digest);
        }
      }
    }
  }

  // ----- exactly one row -----

  /** `id` is the one row of the upload's case with its digest. */
  predicate TheRow(s: Settings, w: World, p: Proc, id: string)
    requires p.Upload?
  {
    && id in w.rows && Conflicts(w.rows[id], RowOf(s, p))
    && forall j <- w.rows :: Conflicts(w.rows[j], RowOf(s, p)) ==> j == id
  }

  /** Any number of rivals, in any interleaving, with anything else running and failing:
      as soon as one of the right size has returned, exactly one row of its case has its
      digest, the object of that row is stored with the bytes of the upload that won, and
      an upload that did not win was refused as a duplicate, by the check or by the
      constraint, recorded so, and has left no object under its key. */
  lemma ExactlyOneRow(s: Settings, schedule: seq<Label>, u: Pid) returns (id: string, winner: Pid)
    requires var w := Run(s, EMPTY, schedule);
             && u in w.procs && w.procs[u].Upload? && Fits(s, w.procs[u]) && w.procs[u].pc.Finished?
             && FaultlessRun(s, schedule, w.procs[u].caseId, s.audit.sha(w.procs[u].content))
    ensures var w := Run(s, EMPTY, schedule);
            && TheRow(s, w, w.procs[u], id)
            && AcceptedUpload(w, winner, id) && w.rows[id] == RowOf(s, w.procs[winner])
            && w.rows[id].objectKey in w.objects && w.objects[w.rows[id].objectKey] == w.procs[winner].content
            && w.procs[u].pc.outcome in {Accepted, Rejected(Duplicate, true), Rejected(Integrity, true)}
            && (w.procs[u].pc.outcome == Accepted <==> winner == u)
            && (winner != u ==> KeyOf(w.procs[u]) !in w.objects)
  {
    hide Run, Inv, AllLoseToRows, TheRow, AcceptedUpload, Fits, KeyOf;
    var w := Run(s, EMPTY, schedule);
    FaultlessKeeps(s, schedule, w.procs[u].caseId, s.audit.sha(w.procs[u].content));
    InitOk(s);
    RunKeeps(s, EMPTY, schedule);
    id, winner := OneRowIn(s, w, u, w.procs[u].caseId, s.audit.sha(w.procs[u].content));
  }

  lemma OneRowIn(s: Settings, w: World, u: Pid, c: string, digest: string) returns (id: string, winner: Pid)
    requires Inv(s, w) && AllLoseToRows(s, w, c, digest)
    requires u in w.procs && Rival(s, w.procs[u], c, digest) && Fits(s, w.procs[u]) && w.procs[u].pc.Finished?
    ensures TheRow(s, w, w.procs[u], id)
    ensures AcceptedUpload(w, winner, id) && w.rows[id] == RowOf(s, w.procs[winner])
    ensures w.rows[id].objectKey in w.objects && w.objects[w.rows[id].objectKey] == w.procs[winner].content
    ensures w.procs[u].pc.outcome in {Accepted, Rejected(Duplicate, true), Rejected(Integrity, true)}
    ensures w.procs[u].pc.outcome == Accepted <==> winner == u
    ensures winner != u ==> KeyOf(w.procs[u]) !in w.objects
  {
    hide Inv, KeyOf, RowOf, Conflicts, RivalRow;
    assert LosesToRow(s, w, w.procs[u]);
    if w.procs[u].pc.outcome == Accepted {
      id := w.procs[u].id;
      RowOfAccepted(s, w, u);
    } else {
      id :| id in w.rows && Conflicts(w.rows[id], RowOf(s, w.procs[u]));
      LoserLeavesNothing(s, w, u);
    }
    ConflictIsRival(s, w.rows[id], w.procs[u], c, digest);
    winner := RowHolder(s, w, id, c, digest);
    OnlyRow(s, w, w.procs[u], id);
    if w.procs[u].pc.outcome == Accepted { WinnerIs(s, w, winner, u); }
  }

  lemma ConflictIsRival(s: Settings, row: Row, p: Proc, c: string, digest: string)
    requires Rival(s, p, c, digest) && Conflicts(row, RowOf(s, p))
    ensures RivalRow(row, c, digest)
  {
    hide KeyOf;
  }

  lemma LoserLeavesNothing(s: Settings, w: World, u: Pid)
    requires Inv(s, w) && u in w.procs && w.procs[u].Upload? && LosesToRow(s, w, w.procs[u])
    requires w.procs[u].pc.Finished? && w.procs[u].pc.outcome != Accepted
    ensures KeyOf(w.procs[u]) !in w.objects
  {
    hide A.Inv, TablesOk, KeyOf, FlagsOk, RowOk, TraceOk, PendingOk, HasConflict;
    assert ProcOk(s, w, u);
  }

  lemma WinnerIs(s: Settings, w: World, v: Pid, u: Pid)
    requires Inv(s, w) && u in w.procs && w.procs[u].Upload? && AcceptedUpload(w, v, w.procs[u].id)
    ensures v == u
  {
    hide A.Inv, ProcsOk, KeyOf;
    SameIdSameUpload(w, v, u);
  }

  lemma RowOfAccepted(s: Settings, w: World, u: Pid)
    requires Inv(s, w) && u in w.procs && w.procs[u].Upload? && IsAccepted(w.procs[u].pc) && w.procs[u].id !in w.emptied
    ensures w.procs[u].id in w.rows && w.rows[w.procs[u].id] == RowOf(s, w.procs[u])
    ensures Conflicts(RowOf(s, w.procs[u]), RowOf(s, w.procs[u]))
    ensures KeyOf(w.procs[u]) in w.objects && w.objects[KeyOf(w.procs[u])] == w.procs[u].content
  {
    hide A.Inv, TablesOk, KeyOf, FlagsOk, TraceOk, PendingOk;
    assert ProcOk(s, w, u);
  }

  lemma RowHolder(s: Settings, w: World, id: string, c: string, digest: string) returns (v: Pid)
    requires Inv(s, w) && AllLoseToRows(s, w, c, digest) && id in w.rows && RivalRow(w.rows[id], c, digest)
    ensures AcceptedUpload(w, v, id) && w.rows[id] == RowOf(s, w.procs[v])
    ensures w.rows[id].objectKey in w.objects && w.objects[w.rows[id].objectKey] == w.procs[v].content
  {
    RivalRowNotEmptied(s, w, id, c, digest);
    hide A.Inv, KeyOf, ProcsOk, AllLoseToRows;
    RowIsKnown(s, w, id);
    v := RowUpload(s, w, w.rows[id]);
    RowOfAccepted(s, w, v);
  }

  lemma OnlyRow(s: Settings, w: World, p: Proc, id: string)
    requires Inv(s, w) && p.Upload? && id in w.rows && Conflicts(w.rows[id], RowOf(s, p))
    ensures TheRow(s, w, p, id)
  {
    hide A.Inv, KeyOf, ProcsOk;
    forall j | j in w.rows && Conflicts(w.rows[j], RowOf(s, p))
      ensures j == id
    {
      assert Conflicts(w.rows[j], w.rows[id]);
    }
  }
}
