/** Which objects are orphans: stored, with no row, not in flight, and no failed
    compensation logged.  Exactly those of uploads whose handler could not roll back. */
module SagaOrphans {
  import opened Wrappers
  import opened Events
  import opened ObjectKeys
  import opened Saga
  import opened SagaInvariant
  import opened SagaProof
  import opened SagaRun
  import opened SagaTurns
  import A = AuditRun

  predicate Compensated(pc: UploadPc) {
    pc.AppendFailed? || pc.CommitFailed? || ((pc.Closing? || pc.Finished?) && pc.outcome.Rejected?)
  }

  predicate HasEscaped(pc: UploadPc) { (pc.Closing? || pc.Finished?) && pc.outcome.Escaped? }

  /** A mark on the key of upload `u` says what it should. */
  predicate MarkOk(w: World, u: Pid)
    requires u in w.procs && w.procs[u].Upload?
  {
    var p, k := w.procs[u], KeyOf(w.procs[u]);
    && (k in w.strays ==> k in w.objects && Compensated(p.pc))
    && (k in w.escaped ==> k in w.objects && HasEscaped(p.pc))
  }

  ghost predicate MarksOk(w: World) {
    && (forall u <- w.procs :: w.procs[u].Upload? ==> MarkOk(w, u))
    && (forall k <- w.strays + w.escaped :: exists u :: Owner(w, u, k))
  }

  // ----- steps keep the marks right -----

  lemma GoAfterMark(s: Settings, w: World, u: Pid, p: Proc, input: Input, w': World)
    requires u in w.procs && w.procs[u] == p && p.Upload? && input.Go? && UploadGo(s, w, u, p, input) == Some(w')
    requires Compensated(p.pc) || HasEscaped(p.pc)
    ensures w'.objects == w.objects && u in w'.procs && w'.procs[u].Upload?
    ensures Compensated(p.pc) ==> Compensated(w'.procs[u].pc)
    ensures HasEscaped(p.pc) ==> HasEscaped(w'.procs[u].pc)
  {
    hide A.Step, KeyOf, RowOf, NoConflict, Conflicts;
  }

  lemma RaiseMarks(s: Settings, w: World, u: Pid, p: Proc, error: Error, w': World)
    requires u in w.procs && w.procs[u] == p && p.Upload? && UploadRaise(w, u, p, error) == Some(w')
    requires ObjectOk(w, p) && MarkOk(w, u)
    ensures u in w'.procs && w'.procs[u].Upload? && SameUpload(p, w'.procs[u]) && MarkOk(w', u)
    ensures w'.strays <= w.strays + {KeyOf(p)} && w'.escaped <= w.escaped + {KeyOf(p)}
  {
    hide KeyOf, RowOf;
    RaiseParts(w, u, p, error, w');
    SameRow(s, p);
  }

  /** An upload's own step. */
  lemma UploadMarks(s: Settings, w: World, u: Pid, p: Proc, input: Input, w': World)
    requires u in w.procs && w.procs[u] == p && p.Upload? && TakeStep(s, w, u, input) == Some(w')
    requires ObjectOk(w, p) && MarkOk(w, u)
    ensures u in w'.procs && w'.procs[u].Upload? && SameUpload(p, w'.procs[u]) && MarkOk(w', u)
    ensures w.strays <= w'.strays <= w.strays + {KeyOf(p)} && w.escaped <= w'.escaped <= w.escaped + {KeyOf(p)}
  {
    hide UploadGo, UploadRaise, KeyOf, RowOf, ObjectOk;
    if input.Go? {
      UploadGoOnly(s, w, u, p, input, w');
      GoSameUpload(s, w, u, p, input, w');
      SameRow(s, p);
      if Compensated(p.pc) || HasEscaped(p.pc) { GoAfterMark(s, w, u, p, input, w'); }
    } else {
      RaiseMarks(s, w, u, p, input.error, w');
      RaiseParts(w, u, p, input.error, w');
    }
  }

  lemma DeleteMarks(s: Settings, w: World, d: Pid, p: Proc, input: Input, w': World)
    requires d in w.procs && w.procs[d] == p && p.Delete? && TakeStep(s, w, d, input) == Some(w')
    ensures w'.strays == w.strays && w'.escaped == w.escaped
    ensures w'.objects == if p.at.RemoveObject? && input.Go? then w.objects - {p.at.row.objectKey} else w.objects
    ensures d in w'.procs && w'.procs[d].Delete?
  {
    hide A.Step, RowFree;
  }

  /** An upload that is not stepping keeps its mark, if its object stays. */
  lemma OtherMark(w: World, w': World, q: Pid)
    requires q in w.procs && w.procs[q].Upload? && MarkOk(w, q) && q in w'.procs && w'.procs[q] == w.procs[q]
    requires var k := KeyOf(w.procs[q]);
             (k in w'.strays ==> k in w.strays) && (k in w'.escaped ==> k in w.escaped)
    requires var k := KeyOf(w.procs[q]);
             k in w.strays + w.escaped && k in w.objects ==> k in w'.objects
    ensures MarkOk(w', q)
  {
    hide KeyOf;
  }

  lemma UploadStepMarks(s: Settings, w: World, u: Pid, p: Proc, input: Input, w': World)
    requires Inv(s, w) && MarksOk(w) && u in w.procs && w.procs[u] == p && p.Upload?
    requires TakeStep(s, w, u, input) == Some(w')
    ensures MarksOk(w')
  {
    hide TakeStep, A.Inv, KeyOf, FlagsOk, RowOk, TraceOk, PendingOk, DeleteOk, MarkOk, ObjectOk, TablesOk;
    assert ProcOk(s, w, u);
    UploadMarks(s, w, u, p, input, w');
    UploadFrame(s, w, u, p, input, w');
    FrameProcs(w, w', u, p.id);
    forall q | q in w'.procs && w'.procs[q].Upload?
      ensures MarkOk(w', q)
    {
      if q != u {
        UploadElsewhere(s, w, u, q, w', p.id);
        OtherMark(w, w', q);
      }
    }
    MarksOwned(w, w', u);
  }

  lemma UploadElsewhere(s: Settings, w: World, u: Pid, q: Pid, w': World, id: string)
    requires Inv(s, w) && u in w.procs && w.procs[u].Upload? && w.procs[u].id == id && Frame(w, w', u, id)
    requires q in w.procs && q != u && w.procs[q].Upload?
    ensures KeyOf(w.procs[q]) != KeyOf(w.procs[u]) && SameObject(w, w', KeyOf(w.procs[q]))
  {
    hide A.Inv, KeyOf, UploadOk, DeleteOk;
    OtherKeys(s, w, u);
    assert w.procs[q].id != w.procs[u].id;
  }

  lemma MarksOwned(w: World, w': World, u: Pid)
    requires MarksOk(w) && OtherProcs(w, w', u) && u in w'.procs
    requires w.procs[u].Upload? == w'.procs[u].Upload? && (w.procs[u].Upload? ==> SameUpload(w.procs[u], w'.procs[u]))
    requires forall k <- w'.strays + w'.escaped :: k in w.strays + w.escaped || Owner(w, u, k)
    ensures forall k <- w'.strays + w'.escaped :: exists v :: Owner(w', v, k)
  {
    hide ObjectKey, MarkOk;
    forall k | k in w'.strays + w'.escaped
      ensures exists v :: Owner(w', v, k)
    {
      var v := if k in w.strays + w.escaped then var x: Pid :| Owner(w, x, k); x else u;
      assert Owner(w', v, k);
    }
  }

  lemma DeleteStepMarks(s: Settings, w: World, d: Pid, p: Proc, input: Input, w': World)
    requires Inv(s, w) && MarksOk(w) && d in w.procs && w.procs[d] == p && p.Delete?
    requires TakeStep(s, w, d, input) == Some(w')
    ensures MarksOk(w')
  {
    hide TakeStep, A.Inv, KeyOf, UploadOk, MarkOk, TablesOk, FromDrafts;
    assert ProcOk(s, w, d);
    DeleteMarks(s, w, d, p, input, w');
    TakeOnly(s, w, d, input, w');
    forall q | q in w'.procs && w'.procs[q].Upload?
      ensures MarkOk(w', q)
    {
      assert MarkOk(w, q);
      if p.at.RemoveObject? && input.Go? { RemovedIsUnmarked(s, w, p.at.row, q); }
      OtherMark(w, w', q);
    }
    MarksOwned(w, w', d);
  }

  /** The key that a delete empties is that of an accepted upload, and carries no mark. */
  lemma RemovedIsUnmarked(s: Settings, w: World, row: Row, q: Pid)
    requires Inv(s, w) && KnownRow(s, w, row) && q in w.procs && w.procs[q].Upload? && MarkOk(w, q)
    ensures KeyOf(w.procs[q]) in w.strays + w.escaped ==> KeyOf(w.procs[q]) != row.objectKey
  {
    hide A.Inv, KeyOf, UploadOk, DeleteOk;
    var v := RowUpload(s, w, row);
    if q != v {
      OtherKeys(s, w, v);
      assert w.procs[q].id != w.procs[v].id;
    }
  }

  lemma StartMarks(s: Settings, w: World, pid: Pid, p: Proc, w': World)
    requires Inv(s, w) && MarksOk(w) && pid !in w.procs && w' == w.(procs := w.procs[pid := p])
    requires p.Upload? ==> FreshId(w, p.id) && NoSlash(p.caseId) && NoSlash(p.id)
    ensures MarksOk(w')
  {
    hide A.Inv, KeyOf, UploadOk, DeleteOk, TablesOk;
    forall k | k in w.strays + w.escaped
      ensures exists v :: Owner(w', v, k)
      ensures p.Upload? ==> k != KeyOf(p)
    {
      var v :| Owner(w, v, k);
      assert Owner(w', v, k);
      if p.Upload? { FreshElsewhere(s, w, p, v); }
    }
    assert p.Upload? ==> KeyOf(p) !in w.strays + w.escaped;
    forall q | q in w'.procs && w'.procs[q].Upload?
      ensures MarkOk(w', q)
    {
      if q == pid {
        assert w'.procs[q] == p && KeyOf(p) !in w'.strays && KeyOf(p) !in w'.escaped;
      } else {
        assert MarkOk(w, q);
      }
    }
  }

  lemma FreshElsewhere(s: Settings, w: World, p: Proc, v: Pid)
    requires Inv(s, w) && p.Upload? && FreshId(w, p.id) && NoSlash(p.caseId) && NoSlash(p.id)
    requires v in w.procs && w.procs[v].Upload?
    ensures KeyOf(w.procs[v]) != KeyOf(p)
  {
    hide A.Inv, ObjectOk, RowOk, TraceOk, PendingOk, DeleteOk, TablesOk;
    var q := w.procs[v];
    assert ProcOk(s, w, v);
    ObjectKeyInjective(p.caseId, p.id, p.name, q.caseId, q.id, q.name);
  }

  lemma MarksKeep(s: Settings, w: World, l: Label, w': World)
    requires Inv(s, w) && MarksOk(w) && Step(s, w, l) == Some(w')
    ensures MarksOk(w')
  {
    hide Inv, TakeStep, A.Step, FreshId, NoSlash, AboutCases;
    match l
    case StartUpload(pid, c, id, name, source, actor, content) =>
      StartMarks(s, w, pid, Upload(c, id, name, source, actor, content, AppendStarted, false, false, None), w');
    case StartDelete(pid, c, id) => StartMarks(s, w, pid, Delete(c, id, Lookup, None), w');
    case Take(pid, input) => TakeMarks(s, w, pid, input, w');
    case Background(audit) => SameMarks(w, w');
  }

  lemma SameMarks(w: World, w': World)
    requires MarksOk(w) && w' == w.(db := w'.db)
    ensures MarksOk(w')
  {
    hide KeyOf;
    forall k | k in w'.strays + w'.escaped
      ensures exists u :: Owner(w', u, k)
    {
      var u :| Owner(w, u, k);
      assert Owner(w', u, k);
    }
    forall q | q in w'.procs && w'.procs[q].Upload?
      ensures MarkOk(w', q)
    {
      assert MarkOk(w, q);
    }
  }

  lemma TakeMarks(s: Settings, w: World, pid: Pid, input: Input, w': World)
    requires Inv(s, w) && MarksOk(w) && TakeStep(s, w, pid, input) == Some(w')
    ensures MarksOk(w')
  {
    assert pid in w.procs;
    hide Inv, TakeStep, MarksOk;
    if w.procs[pid].Upload? {
      UploadStepMarks(s, w, pid, w.procs[pid], input, w');
    } else {
      DeleteStepMarks(s, w, pid, w.procs[pid], input, w');
    }
  }

  lemma {:induction false} RunMarks(s: Settings, schedule: seq<Label>)
    ensures MarksOk(Run(s, EMPTY, schedule))
  {
    hide Inv, Step;
    if schedule == [] {
      NoMarks();
    } else {
      var front := schedule[..|schedule| - 1];
      var before, l := Run(s, EMPTY, front), schedule[|schedule| - 1];
      RunMarks(s, front);
      InitOk(s);
      RunKeeps(s, EMPTY, front);
      if Step(s, before, l).Some? { MarksKeep(s, before, l, Step(s, before, l).value); }
    }
  }

  lemma NoMarks()
    ensures MarksOk(EMPTY)
  {
  }

  // ----- orphans -----

  predicate HasRow(w: World, k: string) { exists id <- w.rows :: w.rows[id].objectKey == k }

  ghost predicate IsInFlight(w: World, k: string) { exists u :: Owner(w, u, k) && InFlight(w.procs[u].pc) }

  /** Stored, and accounted for nowhere. */
  ghost predicate Orphan(w: World, k: string) {
    k in w.objects && !HasRow(w, k) && !IsInFlight(w, k) && k !in w.strays
  }

  lemma MarkedOwner(s: Settings, w: World, k: string) returns (u: Pid)
    requires Inv(s, w) && MarksOk(w) && k in w.strays + w.escaped
    ensures Owner(w, u, k) && MarkOk(w, u) && (Compensated(w.procs[u].pc) || HasEscaped(w.procs[u].pc))
    ensures forall v :: Owner(w, v, k) ==> v == u
  {
    hide A.Inv, KeyOf, UploadOk, DeleteOk;
    u :| Owner(w, u, k);
    OtherKeys(s, w, u);
  }

  lemma RowOwner(s: Settings, w: World, id: string) returns (v: Pid)
    requires Inv(s, w) && id in w.rows
    ensures Owner(w, v, w.rows[id].objectKey) && IsAccepted(w.procs[v].pc)
  {
    hide A.Inv, KeyOf, UploadOk, DeleteOk;
    RowIsKnown(s, w, id);
    v := RowUpload(s, w, w.rows[id]);
  }

  lemma MarkedHasNoRow(s: Settings, w: World, k: string, u: Pid)
    requires Inv(s, w) && Owner(w, u, k) && (forall v :: Owner(w, v, k) ==> v == u) && !IsAccepted(w.procs[u].pc)
    ensures !HasRow(w, k)
  {
    hide Inv, Owner;
    forall id | id in w.rows
      ensures w.rows[id].objectKey != k
    {
      var v := RowOwner(s, w, id);
    }
  }

  /** The objects that nothing accounts for are exactly those of uploads that raised
      again in the handler's rollback, after the object was stored. */
  lemma OrphanIffEscaped(s: Settings, w: World, k: string)
    requires Reachable(s, w)
    ensures Orphan(w, k) <==> k in w.escaped
  {
    hide Run, A.Inv, KeyOf, ProcsOk, TablesOk;
    ReachableOk(s, w);
    MarksWhenReachable(s, w);
    if k in w.escaped {
      var u := MarkedOwner(s, w, k);
      MarkedHasNoRow(s, w, k, u);
    } else if Orphan(w, k) {
      EveryObjectAccounted(s, w, k);
    }
  }

  /** A compensation that is logged as failed has left its object, and no row. */
  lemma StrayIsStored(s: Settings, w: World, k: string)
    requires Reachable(s, w) && k in w.strays
    ensures k in w.objects && !HasRow(w, k) && !IsInFlight(w, k)
  {
    hide Run, A.Inv, KeyOf, ProcsOk, TablesOk;
    ReachableOk(s, w);
    MarksWhenReachable(s, w);
    var u := MarkedOwner(s, w, k);
    MarkedHasNoRow(s, w, k, u);
  }

  lemma MarksWhenReachable(s: Settings, w: World)
    requires Reachable(s, w)
    ensures MarksOk(w)
  {
    hide Run, MarksOk;
    var schedule :| w == Run(s, EMPTY, schedule);
    RunMarks(s, schedule);
  }

  /** And this happens: whenever the rollback behind a stored object raises. */
  lemma RollbackFailureOrphans(s: Settings, w: World, u: Pid, e: Fault) returns (w': World)
    requires Reachable(s, w) && u in w.procs && w.procs[u].Upload? && w.procs[u].pc.Undo? && w.procs[u].stored
    ensures Step(s, w, Take(u, Raise(e))) == Some(w') && Reachable(s, w') && Orphan(w', KeyOf(w.procs[u]))
  {
    hide KeyOf, Orphan;
    EscapeTakes(s, w, u, w.procs[u], Raise(e));
    w' := Step(s, w, Take(u, Raise(e))).value;
    var schedule :| w == Run(s, EMPTY, schedule);
    RunSnoc(s, schedule, Take(u, Raise(e)));
    assert w' == Run(s, EMPTY, schedule + [Take(u, Raise(e))]);
    OrphanIffEscaped(s, w', KeyOf(w.procs[u]));
  }
}
