/** What deletes leave alone, over whole runs: nothing of an accepted upload is
    touched before a delete passes its storage step, and its row stays until a
    delete commits. */
module SagaDeletes {
  import opened Wrappers
  import opened Events
  import opened ObjectKeys
  import opened Saga
  import opened SagaInvariant
  import opened SagaRun
  import opened SagaTurns
  import A = AuditRun

  /** The label is the storage step of a delete of evidence `id`, and it returns. */
  predicate RemovesObject(w: World, l: Label, id: string) {
    && l.Take? && l.input.Go? && l.pid in w.procs && w.procs[l.pid].Delete?
    && w.procs[l.pid].id == id && w.procs[l.pid].at.RemoveObject?
  }

  predicate RemovedAt(s: Settings, schedule: seq<Label>, id: string, k: nat)
    requires k < |schedule|
  {
    RemovesObject(Run(s, EMPTY, schedule[..k]), schedule[k], id)
  }

  /** Somewhere in the run a delete of `id` has passed its storage step. */
  predicate Removed(s: Settings, schedule: seq<Label>, id: string) {
    exists k: nat | k < |schedule| :: RemovedAt(s, schedule, id, k)
  }

  lemma DeleteEmpties(s: Settings, w: World, d: Pid, p: Proc, input: Input, w': World)
    requires d in w.procs && w.procs[d] == p && p.Delete? && TakeStep(s, w, d, input) == Some(w')
    ensures w'.emptied == if p.at.RemoveObject? && input.Go? then w.emptied + {p.id} else w.emptied
  {
    hide A.Step, RowFree;
  }

  lemma StepEmpties(s: Settings, w: World, l: Label, w': World, id: string)
    requires Step(s, w, l) == Some(w')
    ensures id in w'.emptied <==> id in w.emptied || RemovesObject(w, l, id)
  {
    hide TakeStep, A.Step, FreshId, NoSlash, AboutCases;
    if l.Take? {
      TakeOnly(s, w, l.pid, l.input, w');
      if w.procs[l.pid].Upload? {
        UploadEmptiesNothing(s, w, l.pid, w.procs[l.pid], l.input, w');
      } else {
        DeleteEmpties(s, w, l.pid, w.procs[l.pid], l.input, w');
      }
    }
  }

  lemma RemovesIsEnabled(s: Settings, w: World, l: Label, id: string)
    requires RemovesObject(w, l, id)
    ensures Step(s, w, l).Some?
  {
    RemoveObjectTakes(s, w, l.pid, w.procs[l.pid], l.input);
  }

  lemma {:induction false} EmptiedIffRemoved(s: Settings, schedule: seq<Label>, id: string)
    ensures id in Run(s, EMPTY, schedule).emptied <==> Removed(s, schedule, id)
  {
    hide Step, RemovesObject;
    if schedule != [] {
      var n := |schedule| - 1;
      var front := schedule[..n];
      EmptiedIffRemoved(s, front, id);
      forall k: nat | k < n
        ensures RemovedAt(s, schedule, id, k) <==> RemovedAt(s, front, id, k)
      {
        assert front[..k] == schedule[..k];
      }
      var before, l := Run(s, EMPTY, front), schedule[n];
      assert RemovedAt(s, schedule, id, n) <==> RemovesObject(before, l, id);
      if RemovesObject(before, l, id) { RemovesIsEnabled(s, before, l, id); }
      if Step(s, before, l).Some? { StepEmpties(s, before, l, Step(s, before, l).value, id); }
    }
  }

  /** In every run: while no delete of its id has passed the storage step, an accepted
      upload has its row as it was written, its object with its bytes, and exactly its
      four events, whatever deletes were begun, raised or are under way. */
  lemma {:induction false} UndeletedIsIntact(s: Settings, schedule: seq<Label>, u: Pid)
    requires var w := Run(s, EMPTY, schedule);
             u in w.procs && w.procs[u].Upload? && IsAccepted(w.procs[u].pc) && !Removed(s, schedule, w.procs[u].id)
    ensures var w := Run(s, EMPTY, schedule);
            var p := w.procs[u];
            && p.id in w.rows && w.rows[p.id] == RowOf(s, p)
            && KeyOf(p) in w.objects && w.objects[KeyOf(p)] == p.content
            && Types(w.db.committed, p.id) == [UploadStarted, Hashed, Stored, Created]
  {
    hide Run, Removed, A.Inv, TablesOk, KeyOf, FlagsOk, PendingOk, Types;
    var w := Run(s, EMPTY, schedule);
    EmptiedIffRemoved(s, schedule, w.procs[u].id);
    InitOk(s);
    RunKeeps(s, EMPTY, schedule);
    assert ProcOk(s, w, u);
    var ts := Types(w.db.committed, w.procs[u].id);
    assert |ts| == 4 ==> ts == ts[..4];
  }

  /** And a delete that fails behind its storage step has not taken the row: an accepted
      upload has its row, as it was written, exactly until a DELETED event is committed. */
  lemma {:induction false} RowUntilDeleted(s: Settings, schedule: seq<Label>, u: Pid)
    requires var w := Run(s, EMPTY, schedule); u in w.procs && w.procs[u].Upload? && IsAccepted(w.procs[u].pc)
    ensures var w := Run(s, EMPTY, schedule);
            var p := w.procs[u];
            && (p.id in w.rows <==> Deleted !in Types(w.db.committed, p.id))
            && (p.id in w.rows ==> w.rows[p.id] == RowOf(s, p))
  {
    hide Run, A.Inv, TablesOk, KeyOf, FlagsOk, PendingOk, ObjectOk, Types;
    var w := Run(s, EMPTY, schedule);
    InitOk(s);
    RunKeeps(s, EMPTY, schedule);
    assert ProcOk(s, w, u);
    OnlyFirstFour(Types(w.db.committed, w.procs[u].id), w.procs[u].id in w.rows);
  }

  lemma OnlyFirstFour(ts: seq<EventType>, present: bool)
    requires AcceptedTrace(ts, present)
    ensures present <==> Deleted !in ts
  {
    assert ts == ts[..4] + ts[4..];
    if |ts| > 4 { assert ts[4] == Deleted; }
  }
}
