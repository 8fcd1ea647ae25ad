/** The marks on object keys, read off the schedule of a run: which labels leave an
    orphan, and which a logged compensation failure. */
module SagaMarks {
  import opened Wrappers
  import opened ObjectKeys
  import opened Saga
  import opened SagaProof
  import opened SagaRun
  import opened SagaTurns
  import opened SagaOrphans
  import A = AuditRun

  /** An upload that has stored the object under `k` takes a raise at statement `pc`. */
  predicate RaisesAt(w: World, l: Label, k: string) {
    && l.Take? && l.input.Raise? && l.pid in w.procs && w.procs[l.pid].Upload?
    && w.procs[l.pid].stored && KeyOf(w.procs[l.pid]) == k
  }

  /** In the handler's rollback. */
  predicate Abandons(w: World, l: Label, k: string) { RaisesAt(w, l, k) && w.procs[l.pid].pc.Undo? }

  /** In the compensation. */
  predicate FailsToRemove(w: World, l: Label, k: string) { RaisesAt(w, l, k) && w.procs[l.pid].pc.Compensate? }

  lemma UploadMarksOne(s: Settings, w: World, u: Pid, input: Input, w': World, k: string)
    requires u in w.procs && w.procs[u].Upload? && TakeStep(s, w, u, input) == Some(w')
    ensures k in w'.escaped <==> k in w.escaped || Abandons(w, Take(u, input), k)
    ensures k in w'.strays <==> k in w.strays || FailsToRemove(w, Take(u, input), k)
  {
    hide UploadGo, UploadRaise, KeyOf;
    var p := w.procs[u];
    if input.Go? { UploadGoOnly(s, w, u, p, input, w'); } else { RaiseParts(w, u, p, input.error, w'); }
  }

  lemma StepMarksOne(s: Settings, w: World, l: Label, w': World, k: string)
    requires Step(s, w, l) == Some(w')
    ensures k in w'.escaped <==> k in w.escaped || Abandons(w, l, k)
    ensures k in w'.strays <==> k in w.strays || FailsToRemove(w, l, k)
  {
    hide TakeStep, A.Step, FreshId, NoSlash, AboutCases, KeyOf;
    if l.Take? {
      TakeOnly(s, w, l.pid, l.input, w');
      if w.procs[l.pid].Upload? {
        UploadMarksOne(s, w, l.pid, l.input, w', k);
      } else {
        DeleteMarks(s, w, l.pid, w.procs[l.pid], l.input, w');
      }
    }
  }

  lemma MarkingIsEnabled(s: Settings, w: World, l: Label, k: string)
    requires Abandons(w, l, k) || FailsToRemove(w, l, k)
    ensures Step(s, w, l).Some?
  {
    hide KeyOf;
    if w.procs[l.pid].pc.Undo? {
      EscapeTakes(s, w, l.pid, w.procs[l.pid], l.input);
    } else {
      CompensateTakes(s, w, l.pid, w.procs[l.pid], l.input);
    }
  }

  predicate AbandonedAt(s: Settings, schedule: seq<Label>, k: string, i: nat)
    requires i < |schedule|
  {
    Abandons(Run(s, EMPTY, schedule[..i]), schedule[i], k)
  }

  predicate NotRemovedAt(s: Settings, schedule: seq<Label>, k: string, i: nat)
    requires i < |schedule|
  {
    FailsToRemove(Run(s, EMPTY, schedule[..i]), schedule[i], k)
  }

  lemma {:induction false} MarksOverSchedule(s: Settings, schedule: seq<Label>, k: string)
    ensures k in Run(s, EMPTY, schedule).escaped <==> exists i: nat | i < |schedule| :: AbandonedAt(s, schedule, k, i)
    ensures k in Run(s, EMPTY, schedule).strays <==> exists i: nat | i < |schedule| :: NotRemovedAt(s, schedule, k, i)
  {
    hide Step, Abandons, FailsToRemove;
    if schedule != [] {
      var n := |schedule| - 1;
      var front := schedule[..n];
      MarksOverSchedule(s, front, k);
      forall i: nat | i < n
        ensures AbandonedAt(s, schedule, k, i) <==> AbandonedAt(s, front, k, i)
        ensures NotRemovedAt(s, schedule, k, i) <==> NotRemovedAt(s, front, k, i)
      {
        assert front[..i] == schedule[..i];
      }
      var before, l := Run(s, EMPTY, front), schedule[n];
      assert AbandonedAt(s, schedule, k, n) <==> Abandons(before, l, k);
      assert NotRemovedAt(s, schedule, k, n) <==> FailsToRemove(before, l, k);
      if Abandons(before, l, k) || FailsToRemove(before, l, k) { MarkingIsEnabled(s, before, l, k); }
      if Step(s, before, l).Some? { StepMarksOne(s, before, l, Step(s, before, l).value, k); }
    }
  }

  /** In every run: an object is stored and accounted for nowhere exactly when at some
      label the rollback in its upload's handler raised behind the stored object. */
  lemma {:induction false} OrphanIffRollbackRaised(s: Settings, schedule: seq<Label>, k: string)
    ensures Orphan(Run(s, EMPTY, schedule), k) <==> exists i: nat | i < |schedule| :: AbandonedAt(s, schedule, k, i)
  {
    hide Run, Orphan, AbandonedAt, NotRemovedAt;
    LogReaches(s, schedule);
    OrphanIffEscaped(s, Run(s, EMPTY, schedule), k);
    MarksOverSchedule(s, schedule, k);
  }

  /** And a compensation failure is on record for a key exactly when at some label the
      compensation of its upload raised; the object is then still there. */
  lemma {:induction false} StrayIffCompensationRaised(s: Settings, schedule: seq<Label>, k: string)
    ensures var w := Run(s, EMPTY, schedule);
            && (k in w.strays <==> exists i: nat | i < |schedule| :: NotRemovedAt(s, schedule, k, i))
            && (k in w.strays ==> k in w.objects && !HasRow(w, k))
  {
    hide Run, AbandonedAt, NotRemovedAt, HasRow;
    LogReaches(s, schedule);
    MarksOverSchedule(s, schedule, k);
    if k in Run(s, EMPTY, schedule).strays { StrayIsStored(s, Run(s, EMPTY, schedule), k); }
  }
}
