/** Undisturbed stretches of a process: an append of three statements, a commit. */
module SagaStages {
  import opened Wrappers
  import opened Time
  import opened Events
  import opened Saga
  import opened SagaProof
  import opened SagaTurns
  import Json
  import A = AuditRun
  import T = AuditTable

  // ----- joining stretches -----

  lemma {:induction false} RunJoins(s: Settings, w: World, a: seq<Label>, b: seq<Label>)
    ensures Run(s, w, a + b) == Run(s, Run(s, w, a), b)
  {
    hide Step;
    if b == [] {
      assert a + b == a;
    } else {
      RunJoins(s, w, a, b[..|b| - 1]);
      assert (a + b)[..|a + b| - 1] == a + b[..|b| - 1];
    }
  }

  lemma {:induction false} RunOne(s: Settings, w: World, l: Label, w': World)
    requires Step(s, w, l) == Some(w')
    ensures Run(s, w, [l]) == w'
  {
    hide Step;
    assert [l][..0] == [];
    assert Run(s, w, []) == w;
  }

  // ----- the clock of a case -----

  /** The time of the latest event of case `c` that `pid` sees, or -1. */
  function LatestRank(w: World, pid: Pid, c: string): int {
    var xs := T.List(A.Visible(w.db, pid), c);
    if xs == [] then -1 else xs[|xs| - 1].createdAt.Rank()
  }

  /** `pid` is between appends, nobody else holds the case's lock, its latest event is
      not past `rank`, and the event ids in use are `used`. */
  predicate Clear(s: Settings, w: World, pid: Pid, c: string, rank: int, used: set<string>) {
    && A.TxnOf(w.db, pid).phase.Idle? && A.LockFree(w.db, pid, s.audit.lockOf(c))
    && LatestRank(w, pid, c) <= rank && w.db.fates.Keys == used
  }

  /** The answer to an append that goes through: a new id, and a clock past `rank`. */
  predicate Later(go: Input, rank: int, used: set<string>) {
    go.Go? && go.now.Valid() && rank < go.now.Rank() && go.eventId !in used
  }

  /** All but database and process `pid` is as it was. */
  predicate OnlyLog(w: World, w': World, pid: Pid, next: Proc) {
    w' == w.(db := w'.db, procs := w.procs[pid := next])
  }

  lemma LatestIsNew(table: seq<Event>, e: Event, c: string)
    requires e.caseId == Some(c)
    requires var xs := T.List(table, c); xs == [] || xs[|xs| - 1].createdAt.Rank() < e.createdAt.Rank()
    ensures var xs := T.List(table + [e], c); xs != [] && xs[|xs| - 1] == e
  {
    T.CaseEventsSnoc(table, e, c);
    var cases := T.CaseEvents(table, c);
    assert (cases + [e])[..|cases|] == cases;
  }

  lemma WellFormedDrafts(s: Settings, p: Proc)
    requires p.Upload? && AppendPc(p.pc)
    ensures Json.WellFormedMembers(AppendDraft(s, p).metadata) && AppendDraft(s, p).caseId == p.caseId
  {
    hide KeyOf;
    TwoKeys(p);
  }

  lemma TwoKeys(p: Proc)
    requires p.Upload?
    ensures Json.WellFormedMembers(StartedDraft(p).metadata)
  {
    assert "filename"[0] != "source_type"[0];
  }

  /** Lock, read and insert, undisturbed. */
  lemma AppendStage(s: Settings, w: World, pid: Pid, draft: Draft, next: Proc, go: Input, rank: int, used: set<string>)
    returns (w': World)
    requires pid in w.procs && Appends(s, w.procs[pid], draft, next) && Json.WellFormedMembers(draft.metadata)
    requires Clear(s, w, pid, draft.caseId, rank, used) && Later(go, rank, used)
    ensures Run(s, w, [Take(pid, go), Take(pid, go), Take(pid, go)]) == w' && OnlyLog(w, w', pid, next)
    ensures Clear(s, w', pid, draft.caseId, go.now.Rank(), used + {go.eventId})
  {
    hide Step, T.List, EventHash, T.LatestHash, Appends, A.LockFree, Json.WellFormedMembers;
    var l := Take(pid, go);
    LockTakes(s, w, pid, draft, next, go);
    var locked := TxnLocked(A.TxnOf(w.db, pid), s.audit.lockOf(draft.caseId), draft.caseId);
    var a := w.(db := w.db.(open := w.db.open[pid := locked]));
    ReadTakes(s, a, pid, draft, next, go);
    var previous := T.LatestHash(A.Visible(a.db, pid), draft.caseId);
    var b := a.(db := a.db.(open := a.db.open[pid := TxnLinked(locked, draft.caseId, previous)]));
    var e := T.NewEvent(s.audit.sha, draft, previous, go.eventId, go.now);
    assert A.Visible(b.db, pid) == A.Visible(w.db, pid);
    assert Storable(e) && A.ClockAdvanced(b.db, pid, e, draft.caseId);
    InsertTakes(s, b, pid, draft, next, go, previous, e);
    w' := b.(db := b.db.(open := b.db.open[pid := TxnInserted(A.TxnOf(b.db, pid), e)],
                         fates := b.db.fates[e.id := A.Pending(pid)]),
             procs := b.procs[pid := next]);
    RunOne(s, w, l, a);
    RunOne(s, a, l, b);
    RunOne(s, b, l, w');
    RunJoins(s, w, [l], [l]);
    RunJoins(s, w, [l] + [l], [l]);
    assert [l] + [l] + [l] == [l, l, l];
    assert A.Visible(w'.db, pid) == A.Visible(w.db, pid) + [e];
    LatestIsNew(A.Visible(w.db, pid), e, draft.caseId);
    StillFree(w.db, w'.db, pid, s.audit.lockOf(draft.caseId));
  }

  lemma StillFree(db: A.Db, db': A.Db, t: A.Tx, key: int)
    requires A.LockFree(db, t, key)
    requires forall u <- db'.open :: u != t ==> u in db.open && db'.open[u] == db.open[u]
    ensures A.LockFree(db', t, key)
  {
  }

  /** A commit, undisturbed. */
  lemma CommitStage(s: Settings, w: World, pid: Pid, next: Proc, go: Input, c: string, rank: int, used: set<string>)
    returns (w': World)
    requires pid in w.procs && Commits(w.procs[pid], next) && go.Go? && Clear(s, w, pid, c, rank, used)
    ensures Run(s, w, [Take(pid, go)]) == w'
    ensures w' == w.(db := w'.db, rows := CommittedRows(w.rows, w.procs[pid]), procs := w.procs[pid := next])
    ensures Clear(s, w', pid, c, rank, used) && pid !in w'.db.open
  {
    hide Step, T.List, Commits, A.LockFree, CommittedRows;
    CommitTakes(s, w, pid, next, go);
    w' := w.(db := CommittedDb(w.db, pid), rows := CommittedRows(w.rows, w.procs[pid]), procs := w.procs[pid := next]);
    RunOne(s, w, Take(pid, go), w');
    assert A.Visible(w'.db, pid) == A.Visible(w.db, pid);
    StillFree(w.db, w'.db, pid, s.audit.lockOf(c));
  }
}
