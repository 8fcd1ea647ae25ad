/** Uploads answered as duplicates: by the service's own check, or because the insert
    raised an integrity error, whatever that was about. */
module SagaConflicts {
  import opened Wrappers
  import opened Saga
  import opened SagaInvariant
  import opened SagaProof
  import opened SagaRun
  import opened SagaTurns
  import opened SagaRefusals
  import A = AuditRun

  function ErrorAt(w: World, u: Pid): Option<Error> {
    if u in w.procs && w.procs[u].Upload? then ErrorOf(w.procs[u].pc) else None
  }

  /** The label at which upload `u` got its error. */
  predicate ArisesAt(s: Settings, schedule: seq<Label>, u: Pid, k: nat)
    requires k < |schedule|
  {
    ErrorAt(Run(s, EMPTY, schedule[..k]), u).None? && ErrorAt(Run(s, EMPTY, schedule[..k + 1]), u).Some?
  }

  // ----- an error arises once and stays -----

  lemma {:induction false} RunNext(s: Settings, schedule: seq<Label>, k: nat)
    requires k < |schedule|
    ensures var w := Run(s, EMPTY, schedule[..k]);
            var after := Step(s, w, schedule[k]);
            Run(s, EMPTY, schedule[..k + 1]) == if after.Some? then after.value else w
  {
    hide Step;
    assert schedule[..k + 1][..k] == schedule[..k];
  }

  lemma ErrorStaysOne(s: Settings, w: World, l: Label, w': World, u: Pid)
    requires Step(s, w, l) == Some(w') && u in w.procs && w.procs[u].Upload?
    ensures u in w'.procs && w'.procs[u].Upload? && SameUpload(w.procs[u], w'.procs[u])
    ensures ErrorAt(w, u).Some? ==> ErrorAt(w', u) == ErrorAt(w, u)
    ensures ErrorAt(w, u).None? && ErrorAt(w', u).Some? ==>
              l.Take? && l.pid == u && ErrorStep(s, w, w.procs[u], l.input, w'.procs[u])
  {
    if l.Take? && l.pid == u {
      hide TakeStep, ErrorOf, KeyOf;
      StepErrors(s, w, u, w.procs[u], l.input, w');
      StaysSameUpload(s, w, u, w.procs[u], l.input, w');
    } else {
      hide Step, ErrorOf, A.TxnOf;
      OthersLeaveAlone(s, w, l, w', u);
    }
  }

  lemma NoErrorYet(s: Settings, w: World, l: Label, w': World, u: Pid)
    requires Step(s, w, l) == Some(w') && !(u in w.procs && w.procs[u].Upload?)
    ensures ErrorAt(w', u).None?
  {
    hide A.Step, TakeStep, FreshId, AboutCases, ErrorStep;
    if l.Take? {
      TakeOnly(s, w, l.pid, l.input, w');
      if w.procs[l.pid].Delete? { DeleteOnly(s, w, l.pid, l.input, w'); }
    }
  }

  lemma {:induction false} ErrorStays(s: Settings, schedule: seq<Label>, u: Pid, j: nat)
    requires j <= |schedule| && ErrorAt(Run(s, EMPTY, schedule[..j]), u).Some?
    ensures ErrorAt(Run(s, EMPTY, schedule), u) == ErrorAt(Run(s, EMPTY, schedule[..j]), u)
    decreases |schedule|
  {
    hide Step, ErrorOf;
    if j == |schedule| {
      assert schedule[..j] == schedule;
    } else {
      var n := |schedule| - 1;
      var front := schedule[..n];
      assert front[..j] == schedule[..j];
      ErrorStays(s, front, u, j);
      var w := Run(s, EMPTY, front);
      if Step(s, w, schedule[n]).Some? { ErrorStaysOne(s, w, schedule[n], Step(s, w, schedule[n]).value, u); }
    }
  }

  lemma {:induction false} ErrorArises(s: Settings, schedule: seq<Label>, u: Pid) returns (k: nat)
    requires ErrorAt(Run(s, EMPTY, schedule), u).Some?
    ensures k < |schedule| && ArisesAt(s, schedule, u, k)
    decreases |schedule|
  {
    hide Step, ErrorOf;
    var n := |schedule| - 1;
    var front := schedule[..n];
    assert schedule[..n + 1] == schedule;
    if ErrorAt(Run(s, EMPTY, front), u).Some? {
      k := ErrorArises(s, front, u);
      assert front[..k] == schedule[..k] && front[..k + 1] == schedule[..k + 1];
    } else {
      k := n;
    }
  }

  lemma ArisesOnce(s: Settings, schedule: seq<Label>, u: Pid, j: nat, k: nat)
    requires j < k < |schedule| && ArisesAt(s, schedule, u, j)
    ensures !ArisesAt(s, schedule, u, k)
  {
    hide Run, ErrorAt;
    var front := schedule[..k];
    assert front[..j + 1] == schedule[..j + 1];
    ErrorStays(s, front, u, j + 1);
  }

  // ----- when the answer is true -----

  /** Another upload of the case with the same digest is accepted and still has its row. */
  ghost predicate IsDuplicate(s: Settings, w: World, p: Proc)
    requires p.Upload?
  {
    exists v :: IsRival(s, w, p, v)
  }

  predicate IsRival(s: Settings, w: World, p: Proc, v: Pid)
    requires p.Upload?
  {
    && v in w.procs && w.procs[v].Upload? && IsAccepted(w.procs[v].pc) && w.procs[v].id in w.rows
    && w.procs[v].caseId == p.caseId && s.audit.sha(w.procs[v].content) == s.audit.sha(p.content)
  }

  lemma ConflictIsDuplicate(s: Settings, w: World, p: Proc)
    requires Inv(s, w) && p.Upload?
    ensures HasConflict(s, w, p) <==> IsDuplicate(s, w, p)
  {
    hide A.Inv, KeyOf, FlagsOk, ObjectOk, TraceOk, PendingOk;
    if HasConflict(s, w, p) {
      var id :| id in w.rows && Conflicts(w.rows[id], RowOf(s, p));
      RowIsKnown(s, w, id);
      var v := RowUpload(s, w, w.rows[id]);
      assert IsRival(s, w, p, v);
    }
    if v :| IsRival(s, w, p, v) {
      assert ProcOk(s, w, v);
      assert Conflicts(w.rows[w.procs[v].id], RowOf(s, p));
    }
  }

  /** An upload that was answered as a duplicate, over the whole run: there is one label
      at which it got the error.  The service's own check gives it exactly behind a
      conflicting committed row; an integrity error is raised by a call.  In both cases
      the answer is true as it arose (another accepted upload of the case has its row,
      with the same digest) exactly when that label was taken behind a conflicting
      committed row, and then the case's log shows the digest ever after. */
  lemma DuplicateAnswers(s: Settings, schedule: seq<Label>, u: Pid) returns (k: nat)
    requires ErrorAt(Run(s, EMPTY, schedule), u) in {Some(Duplicate), Some(Integrity)}
    ensures k < |schedule| && ArisesAt(s, schedule, u, k)
    ensures var w := Run(s, EMPTY, schedule[..k]);
            var last := Run(s, EMPTY, schedule);
            && u in w.procs && w.procs[u].Upload? && schedule[k].Take? && schedule[k].pid == u
            && (HasConflict(s, w, w.procs[u]) <==> IsDuplicate(s, w, w.procs[u]))
            && (ErrorAt(last, u) == Some(Duplicate) ==> schedule[k].input.Go? && HasConflict(s, w, w.procs[u]))
            && (ErrorAt(last, u) == Some(Integrity) ==> schedule[k].input == Raise(Integrity))
            && (HasConflict(s, w, w.procs[u]) ==>
                  Logged(last.db.committed, w.procs[u].caseId, s.audit.sha(w.procs[u].content)))
  {
    hide Run, Step, HasConflict, IsDuplicate, Logged, ErrorOf, Inv;
    k := ErrorArises(s, schedule, u);
    var w, l := Run(s, EMPTY, schedule[..k]), schedule[k];
    ErrorStays(s, schedule, u, k + 1);
    RunNext(s, schedule, k);
    var w' := Run(s, EMPTY, schedule[..k + 1]);
    assert Step(s, w, l) == Some(w');
    if !(u in w.procs && w.procs[u].Upload?) { NoErrorYet(s, w, l, w', u); }
    ErrorStaysOne(s, w, l, w', u);
    InitOk(s);
    RunKeeps(s, EMPTY, schedule[..k]);
    RunTruthful(s, schedule[..k]);
    ConflictIsDuplicate(s, w, w.procs[u]);
    if HasConflict(s, w, w.procs[u]) {
      ConflictIsLogged(s, w, w.procs[u]);
      LoggedLater(s, schedule[..k], schedule, w.procs[u].caseId, s.audit.sha(w.procs[u].content));
    }
  }
}
