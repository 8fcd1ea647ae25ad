/** Operations that nothing disturbs reach their end: an upload is accepted, a delete
    removes row and object, however earlier ones failed; and an orphan does occur. */
module SagaConverges {
  import opened Wrappers
  import opened Time
  import opened Events
  import opened ObjectKeys
  import opened Saga
  import opened SagaInvariant
  import opened SagaProof
  import opened SagaRun
  import opened SagaTurns
  import opened SagaOrphans
  import opened SagaConflicts
  import opened SagaStages
  import A = AuditRun
  import T = AuditTable

  // ----- an upload -----

  /** A new upload, of a size and with a digest that fit, in a case whose lock is free. */
  predicate Welcome(s: Settings, w: World, u: Pid, p: Proc) {
    && u !in w.procs && u !in w.db.open && p.Upload?
    && p == Upload(p.caseId, p.id, p.name, p.source, p.actor, p.content, AppendStarted, false, false, None)
    && FreshId(w, p.id) && NoSlash(p.caseId) && NoSlash(p.id) && NoSlash(p.name)
    && 0 < |p.content| <= s.maxSize && NoConflict(w, u, RowOf(s, p))
    && A.LockFree(w.db, u, s.audit.lockOf(p.caseId))
  }

  /** The answers to the four appends: new ids, and a clock that moves on. */
  predicate Advancing(w: World, u: Pid, c: string, go: seq<Input>) {
    && |go| == 4
    && Later(go[0], LatestRank(w, u, c), w.db.fates.Keys)
    && Later(go[1], go[0].now.Rank(), w.db.fates.Keys + {go[0].eventId})
    && Later(go[2], go[1].now.Rank(), w.db.fates.Keys + {go[0].eventId, go[1].eventId})
    && Later(go[3], go[2].now.Rank(), w.db.fates.Keys + {go[0].eventId, go[1].eventId, go[2].eventId})
  }

  function Begins(u: Pid, p: Proc, go: Input): seq<Label>
    requires p.Upload?
  {
    [StartUpload(u, p.caseId, p.id, p.name, p.source, p.actor, p.content)]
    + Thrice(u, go) + [Take(u, go)]
  }

  function Thrice(u: Pid, go: Input): seq<Label> { [Take(u, go), Take(u, go), Take(u, go)] }

  /** Receive, check, append and commit HASHED, put. */
  function Stores(u: Pid, go: Input): seq<Label> {
    [Take(u, go)] + [Take(u, go)] + Thrice(u, go) + [Take(u, go)] + [Take(u, go)]
  }

  /** Create, append STORED and CREATED, commit. */
  function Creates(u: Pid, go: Input, go': Input): seq<Label> {
    [Take(u, go)] + Thrice(u, go) + Thrice(u, go') + [Take(u, go')]
  }

  /** The statements of one undisturbed upload. */
  function Undisturbed(u: Pid, p: Proc, go: seq<Input>): seq<Label>
    requires p.Upload? && |go| == 4
  {
    Begins(u, p, go[0]) + Stores(u, go[1]) + Creates(u, go[2], go[3])
  }

  /** An append of an upload, undisturbed. */
  lemma UploadAppend(s: Settings, w: World, u: Pid, p: Proc, go: Input, rank: int, used: set<string>)
    returns (w': World)
    requires u in w.procs && w.procs[u] == p && p.Upload? && AppendPc(p.pc)
    requires Clear(s, w, u, p.caseId, rank, used) && Later(go, rank, used)
    ensures Run(s, w, Thrice(u, go)) == w' && OnlyLog(w, w', u, p.(pc := AfterAppend(p.pc)))
    ensures Clear(s, w', u, p.caseId, go.now.Rank(), used + {go.eventId})
  {
    hide Step, Clear, Later, AppendDraft, Run;
    WellFormedDrafts(s, p);
    w' := AppendStage(s, w, u, AppendDraft(s, p), p.(pc := AfterAppend(p.pc)), go, rank, used);
  }

  lemma ClearStays(s: Settings, w: World, w': World, u: Pid, c: string, rank: int, used: set<string>)
    requires Clear(s, w, u, c, rank, used) && w'.db == w.db
    ensures Clear(s, w', u, c, rank, used)
  {
  }

  lemma BeginStage(s: Settings, w: World, u: Pid, p: Proc, go: seq<Input>) returns (w': World)
    requires Welcome(s, w, u, p) && Advancing(w, u, p.caseId, go)
    ensures Run(s, w, Begins(u, p, go[0])) == w'
    ensures w' == w.(db := w'.db, procs := w.procs[u := p.(pc := Receive)])
    ensures Clear(s, w', u, p.caseId, go[0].now.Rank(), w.db.fates.Keys + {go[0].eventId})
  {
    hide Step, Run, A.LockFree, T.List, NoConflict, FreshId, RowOf, Conflicts;
    var start := StartUpload(u, p.caseId, p.id, p.name, p.source, p.actor, p.content);
    UploadStarts(s, w, u, p);
    var a := w.(procs := w.procs[u := p]);
    RunOne(s, w, start, a);
    assert Clear(s, a, u, p.caseId, LatestRank(w, u, p.caseId), w.db.fates.Keys);
    hide Clear, Later;
    var b := UploadAppend(s, a, u, p, go[0], LatestRank(w, u, p.caseId), w.db.fates.Keys);
    var q := p.(pc := CommitStarted);
    w' := CommitStage(s, b, u, p.(pc := Receive), go[0], p.caseId, go[0].now.Rank(), w.db.fates.Keys + {go[0].eventId});
    RunJoins(s, w, [start], Thrice(u, go[0]));
    RunJoins(s, w, [start] + Thrice(u, go[0]), [Take(u, go[0])]);
  }

  lemma UploadStarts(s: Settings, w: World, u: Pid, p: Proc)
    requires Welcome(s, w, u, p)
    ensures Step(s, w, StartUpload(u, p.caseId, p.id, p.name, p.source, p.actor, p.content))
         == Some(w.(procs := w.procs[u := p]))
  {
    hide A.LockFree, NoConflict, RowOf;
  }

  lemma StoreStage(s: Settings, w: World, u: Pid, p: Proc, go: Input, rank: int, used: set<string>) returns (w': World)
    requires u in w.procs && w.procs[u] == p && p.Upload? && p.pc.Receive? && !p.stored && p.inserted == None
    requires 0 < |p.content| <= s.maxSize && NoConflict(w, u, RowOf(s, p))
    requires Clear(s, w, u, p.caseId, rank, used) && Later(go, rank, used)
    ensures Run(s, w, Stores(u, go)) == w'
    ensures w' == w.(db := w'.db, objects := w.objects[KeyOf(p) := p.content],
                     procs := w.procs[u := p.(pc := Create, stored := true, hashed := true)])
    ensures Clear(s, w', u, p.caseId, go.now.Rank(), used + {go.eventId})
  {
    hide Step, Run, Clear, Later, KeyOf;
    var l := Take(u, go);
    assert go.Go? by { LaterGoes(go, rank, used); }
    ReceiveTakes(s, w, u, p, go);
    var a := w.(procs := w.procs[u := p.(pc := CheckDuplicate)]);
    NothingFound(s, w, u, p);
    CheckTakes(s, a, u, a.procs[u], go);
    var b := a.(procs := a.procs[u := p.(pc := AppendHashed)]);
    ClearStays(s, w, b, u, p.caseId, rank, used);
    hide NoConflict, RowOf;
    var c := UploadAppend(s, b, u, b.procs[u], go, rank, used);
    var d := CommitStage(s, c, u, p.(pc := Put, hashed := true), go, p.caseId, go.now.Rank(), used + {go.eventId});
    PutTakes(s, d, u, d.procs[u], go);
    SameRow(s, p);
    w' := d.(objects := d.objects[KeyOf(p) := p.content],
             procs := d.procs[u := p.(pc := Create, stored := true, hashed := true)]);
    ClearStays(s, d, w', u, p.caseId, go.now.Rank(), used + {go.eventId});
    RunOne(s, w, l, a);
    RunOne(s, a, l, b);
    RunOne(s, d, l, w');
    RunJoins(s, w, [l], [l]);
    RunJoins(s, w, [l] + [l], Thrice(u, go));
    RunJoins(s, w, [l] + [l] + Thrice(u, go), [l]);
    RunJoins(s, w, [l] + [l] + Thrice(u, go) + [l], [l]);
  }

  lemma LaterGoes(go: Input, rank: int, used: set<string>)
    requires Later(go, rank, used)
    ensures go.Go?
  {
  }

  lemma NothingFound(s: Settings, w: World, u: Pid, p: Proc)
    requires p.Upload? && NoConflict(w, u, RowOf(s, p))
    ensures !exists id <- w.rows :: w.rows[id].caseId == p.caseId && w.rows[id].sha256 == s.audit.sha(p.content)
  {
    hide KeyOf;
    forall id | id in w.rows
      ensures !(w.rows[id].caseId == p.caseId && w.rows[id].sha256 == s.audit.sha(p.content))
    {
      assert !Conflicts(w.rows[id], RowOf(s, p));
    }
  }

  lemma CreateStage(s: Settings, w: World, u: Pid, p: Proc, go: Input, go': Input, rank: int, used: set<string>)
    returns (w': World)
    requires u in w.procs && w.procs[u] == p && p.Upload? && p.pc.Create? && NoConflict(w, u, RowOf(s, p))
    requires Clear(s, w, u, p.caseId, rank, used) && Later(go, rank, used)
    requires Later(go', go.now.Rank(), used + {go.eventId})
    ensures Run(s, w, Creates(u, go, go')) == w'
    ensures w' == w.(db := w'.db, rows := w.rows[p.id := RowOf(s, p)],
                     procs := w.procs[u := p.(pc := Finished(Accepted), inserted := None)])
  {
    hide Step, Run, Clear, Later, KeyOf, NoConflict, RowOf;
    var l, l' := Take(u, go), Take(u, go');
    LaterGoes(go, rank, used);
    LaterGoes(go', go.now.Rank(), used + {go.eventId});
    CreateTakes(s, w, u, p, go);
    var q := p.(pc := AppendStored, inserted := Some(RowOf(s, p)));
    var a := w.(procs := w.procs[u := q]);
    ClearStays(s, w, a, u, p.caseId, rank, used);
    var b := UploadAppend(s, a, u, q, go, rank, used);
    var c := UploadAppend(s, b, u, q.(pc := AppendCreated), go', go.now.Rank(), used + {go.eventId});
    var next := p.(pc := Finished(Accepted), inserted := None);
    w' := CommitStage(s, c, u, next, go', p.caseId, go'.now.Rank(), used + {go.eventId} + {go'.eventId});
    RunOne(s, w, l, a);
    RunJoins(s, w, [l], Thrice(u, go));
    RunJoins(s, w, [l] + Thrice(u, go), Thrice(u, go'));
    RunJoins(s, w, [l] + Thrice(u, go) + Thrice(u, go'), [l']);
  }

  lemma ConflictFree(s: Settings, w: World, w': World, u: Pid, p: Proc, q: Proc)
    requires p.Upload? && q.Upload? && SameUpload(p, q) && NoConflict(w, u, RowOf(s, p))
    requires w'.rows == w.rows && w'.procs == w.procs[u := q]
    ensures NoConflict(w', u, RowOf(s, q))
  {
    hide Conflicts, RowOf;
    SameRow(s, p);
  }

  /** Up to the insert: the object is stored, the row is not there yet. */
  lemma ReachesCreate(s: Settings, w: World, u: Pid, p: Proc, go: seq<Input>) returns (w': World)
    requires Welcome(s, w, u, p) && Advancing(w, u, p.caseId, go)
    ensures Run(s, w, Begins(u, p, go[0]) + Stores(u, go[1])) == w'
    ensures var q := p.(pc := Create, stored := true, hashed := true);
            && w' == w.(db := w'.db, objects := w.objects[KeyOf(p) := p.content], procs := w.procs[u := q])
            && NoConflict(w', u, RowOf(s, q))
    ensures Clear(s, w', u, p.caseId, go[1].now.Rank(), w.db.fates.Keys + {go[0].eventId} + {go[1].eventId})
  {
    hide Step, Run, Clear, NoConflict, RowOf, KeyOf, LatestRank;
    var a := BeginStage(s, w, u, p, go);
    ConflictFree(s, w, a, u, p, a.procs[u]);
    w' := StoreStage(s, a, u, a.procs[u], go[1], go[0].now.Rank(), w.db.fates.Keys + {go[0].eventId});
    SameRow(s, p);
    ConflictFree(s, w, w', u, p, w'.procs[u]);
    RunJoins(s, w, Begins(u, p, go[0]), Stores(u, go[1]));
  }

  /** From any world: an undisturbed upload that is new, fits and conflicts with nothing
      is accepted, with its row and its object and nothing else changed in the tables. */
  lemma {:induction false} UploadConverges(s: Settings, w: World, u: Pid, p: Proc, go: seq<Input>)
    requires Welcome(s, w, u, p) && Advancing(w, u, p.caseId, go)
    ensures var w' := Run(s, w, Undisturbed(u, p, go));
            && w'.procs == w.procs[u := p.(pc := Finished(Accepted), stored := true, hashed := true)]
            && w'.rows == w.rows[p.id := RowOf(s, p)] && w'.objects == w.objects[KeyOf(p) := p.content]
            && w'.strays == w.strays && w'.escaped == w.escaped && w'.emptied == w.emptied
  {
    hide Step, Run, Clear, NoConflict, RowOf, KeyOf, LatestRank;
    var a := ReachesCreate(s, w, u, p, go);
    var used := w.db.fates.Keys + {go[0].eventId} + {go[1].eventId};
    assert used == w.db.fates.Keys + {go[0].eventId, go[1].eventId};
    assert used + {go[2].eventId} == w.db.fates.Keys + {go[0].eventId, go[1].eventId, go[2].eventId};
    var w' := CreateStage(s, a, u, a.procs[u], go[2], go[3], go[1].now.Rank(), used);
    SameRow(s, p);
    RunJoins(s, w, Begins(u, p, go[0]) + Stores(u, go[1]), Creates(u, go[2], go[3]));
  }

  lemma {:induction false} ReachableOn(s: Settings, w: World, more: seq<Label>)
    requires Reachable(s, w)
    ensures Reachable(s, Run(s, w, more))
  {
    hide Run;
    var schedule :| w == Run(s, EMPTY, schedule);
    RunJoins(s, EMPTY, schedule, more);
    assert Run(s, w, more) == Run(s, EMPTY, schedule + more);
  }

  /** Wherever a run has led, the log then holds exactly the four events of that upload. */
  lemma {:induction false} UploadConvergesLogged(s: Settings, w: World, u: Pid, p: Proc, go: seq<Input>)
    requires Reachable(s, w) && Welcome(s, w, u, p) && Advancing(w, u, p.caseId, go)
    ensures var w' := Run(s, w, Undisturbed(u, p, go));
            && Reachable(s, w')
            && Types(w'.db.committed, p.id) == [UploadStarted, Hashed, Stored, Created]
  {
    hide Run, Reachable, LatestRank, Later, NoConflict, A.LockFree, KeyOf;
    UploadConverges(s, w, u, p, go);
    ReachableOn(s, w, Undisturbed(u, p, go));
    AcceptedHasFour(s, Run(s, w, Undisturbed(u, p, go)), u, p);
  }

  lemma AcceptedHasFour(s: Settings, w: World, u: Pid, p: Proc)
    requires Reachable(s, w) && u in w.procs && w.procs[u].Upload? && w.procs[u].pc == Finished(Accepted)
    requires p.Upload? && p.id in w.rows && p.id in w.rows && w.rows[p.id] == RowOf(s, p)
    requires w.procs[u].id == p.id
    ensures Types(w.db.committed, p.id) == [UploadStarted, Hashed, Stored, Created]
  {
    ReachableOk(s, w);
    hide Reachable, A.Inv, TablesOk, KeyOf, FlagsOk, PendingOk, ObjectOk, Types;
    assert ProcOk(s, w, u);
    var ts := Types(w.db.committed, p.id);
    assert ts == ts[..4];
  }

  // ----- an orphan -----

  /** Up to the insert undisturbed, then the insert raises, and the handler's rollback too. */
  function Abandoned(u: Pid, p: Proc, go: seq<Input>, e: Fault, e': Fault): seq<Label>
    requires p.Upload? && |go| == 4
  {
    Begins(u, p, go[0]) + Stores(u, go[1]) + [Take(u, Raise(e))] + [Take(u, Raise(e'))]
  }

  /** From any reachable world such an upload leaves an orphan. */
  lemma {:induction false} AbandonedOrphans(s: Settings, w: World, u: Pid, p: Proc, go: seq<Input>, e: Fault, e': Fault)
    requires Reachable(s, w) && Welcome(s, w, u, p) && Advancing(w, u, p.caseId, go)
    ensures var w' := Run(s, w, Abandoned(u, p, go, e, e')); Reachable(s, w') && Orphan(w', KeyOf(p))
  {
    hide Run, Step, Reachable, Clear, NoConflict, RowOf, KeyOf, LatestRank, Orphan, A.LockFree;
    var a := ReachesCreate(s, w, u, p, go);
    FailTakes(s, a, u, e);
    var b := a.(procs := a.procs[u := Failed(a.procs[u], e)]);
    var front := Begins(u, p, go[0]) + Stores(u, go[1]);
    RunOne(s, a, Take(u, Raise(e)), b);
    RunJoins(s, w, front, [Take(u, Raise(e))]);
    ReachableOn(s, w, front + [Take(u, Raise(e))]);
    var c := RollbackFailureOrphans(s, b, u, e');
    SameRow(s, p);
    RunOne(s, b, Take(u, Raise(e')), c);
    RunJoins(s, w, front + [Take(u, Raise(e))], [Take(u, Raise(e'))]);
  }

  const FIRST := Upload("case", "evidence", "mail.eml", "upload", None, [0], AppendStarted, false, false, None)

  /** The four answers that an empty system can give: one event a second. */
  function Ticks(): seq<Input> {
    [Go("1", Instant(2024, 1, 1, 0, 0, 1, 0)), Go("2", Instant(2024, 1, 1, 0, 0, 2, 0)),
     Go("3", Instant(2024, 1, 1, 0, 0, 3, 0)), Go("4", Instant(2024, 1, 1, 0, 0, 4, 0))]
  }

  lemma FirstIsWelcome(s: Settings)
    requires s.maxSize > 0
    ensures Reachable(s, EMPTY) && Welcome(s, EMPTY, 0, FIRST) && Advancing(EMPTY, 0, FIRST.caseId, Ticks())
  {
    assert EMPTY == Run(s, EMPTY, []);
    FirstFits(s);
    NothingLatest();
    TicksAdvance();
    hide *;
    FreshTicks(EMPTY, 0, FIRST.caseId, Ticks());
  }

  lemma FirstFits(s: Settings)
    requires s.maxSize > 0
    ensures Welcome(s, EMPTY, 0, FIRST)
  {
    hide RowOf, Conflicts;
  }

  lemma FreshTicks(w: World, u: Pid, c: string, go: seq<Input>)
    requires w.db.fates == map[] && LatestRank(w, u, c) == -1 && |go| == 4
    requires forall i | 0 <= i < 4 :: go[i].Go? && go[i].now.Valid()
    requires -1 < go[0].now.Rank() < go[1].now.Rank() < go[2].now.Rank() < go[3].now.Rank()
    requires forall i, j | 0 <= i < j < 4 :: go[i].eventId != go[j].eventId
    ensures Advancing(w, u, c, go)
  {
    hide LatestRank;
  }

  lemma NothingLatest()
    ensures LatestRank(EMPTY, 0, FIRST.caseId) == -1
  {
    assert T.CaseEvents([], FIRST.caseId) == [];
    assert A.Visible(EMPTY.db, 0) == [];
  }

  lemma TicksAdvance()
    ensures var go := Ticks();
            && |go| == 4 && (forall i | 0 <= i < 4 :: go[i].Go? && go[i].now.Valid())
            && -1 < go[0].now.Rank() < go[1].now.Rank() < go[2].now.Rank() < go[3].now.Rank()
            && (forall i, j | 0 <= i < j < 4 :: go[i].eventId != go[j].eventId)
  {
    assert "1"[0] != "2"[0] && "1"[0] != "3"[0] && "1"[0] != "4"[0];
    assert "2"[0] != "3"[0] && "2"[0] != "4"[0] && "3"[0] != "4"[0];
  }

  /** So, unless the limit admits no upload at all, uploads are accepted in some run and
      an orphan is left in another: the schedules from the empty system are explicit. */
  lemma {:induction false} BothOccur(s: Settings)
    requires s.maxSize > 0
    ensures var w := Run(s, EMPTY, Undisturbed(0, FIRST, Ticks()));
            && 0 in w.procs && w.procs[0].Upload? && w.procs[0].pc == Finished(Accepted)
            && w.rows == map[FIRST.id := RowOf(s, FIRST)]
    ensures Orphan(Run(s, EMPTY, Abandoned(0, FIRST, Ticks(), Storage, Storage)), KeyOf(FIRST))
  {
    hide Run, Reachable, Welcome, Advancing, Orphan, KeyOf;
    FirstIsWelcome(s);
    UploadConverges(s, EMPTY, 0, FIRST, Ticks());
    AbandonedOrphans(s, EMPTY, 0, FIRST, Ticks(), Storage, Storage);
  }

  /** The insert of the first upload raises an integrity error, of whatever constraint. */
  function Mistaken(): seq<Label> {
    Begins(0, FIRST, Ticks()[0]) + Stores(0, Ticks()[1]) + [Take(0, Raise(Integrity))]
  }

  /** An upload answered as a duplicate in a system that holds no row and logs no digest. */
  lemma {:induction false} MistakenDuplicate(s: Settings)
    requires s.maxSize > 0
    ensures var w := Run(s, EMPTY, Mistaken());
            && ErrorAt(w, 0) == Some(Integrity) && w.rows == map[]
            && !IsDuplicate(s, w, w.procs[0])
  {
    hide Run, Step, Reachable, Welcome, Advancing, Clear, NoConflict, RowOf, KeyOf, LatestRank;
    FirstIsWelcome(s);
    var a := ReachesCreate(s, EMPTY, 0, FIRST, Ticks());
    FailTakes(s, a, 0, Integrity);
    var b := a.(procs := a.procs[0 := Failed(a.procs[0], Integrity)]);
    RunOne(s, a, Take(0, Raise(Integrity)), b);
    RunJoins(s, EMPTY, Begins(0, FIRST, Ticks()[0]) + Stores(0, Ticks()[1]), [Take(0, Raise(Integrity))]);
  }

  // ----- a delete -----

  /** Nobody holds the row or the lock of its case, and the clock has moved on. */
  predicate Deletable(s: Settings, w: World, d: Pid, row: Row, go: Input) {
    && d !in w.procs && d !in w.db.open && row.id in w.rows && w.rows[row.id] == row
    && RowFree(w, d, row.id) && A.LockFree(w.db, d, s.audit.lockOf(row.caseId))
    && Later(go, LatestRank(w, d, row.caseId), w.db.fates.Keys)
  }

  /** Start, look up, remove the object, remove the row. */
  function Removes(d: Pid, c: string, id: string, go: Input): seq<Label> {
    [StartDelete(d, c, id)] + [Take(d, go)] + [Take(d, go)] + [Take(d, go)]
  }

  /** The statements of one undisturbed delete. */
  function Retry(d: Pid, c: string, id: string, go: Input): seq<Label> {
    Removes(d, c, id, go) + Thrice(d, go) + [Take(d, go)]
  }

  lemma DeleteStarts(s: Settings, w: World, d: Pid, c: string, id: string)
    requires d !in w.procs && d !in w.db.open
    ensures Step(s, w, StartDelete(d, c, id)) == Some(w.(procs := w.procs[d := Delete(c, id, Lookup, None)]))
  {
  }

  lemma RowStillFree(w: World, w': World, d: Pid, id: string)
    requires RowFree(w, d, id) && w'.procs.Keys <= w.procs.Keys + {d}
    requires forall q <- w.procs :: q != d ==> q in w'.procs && w'.procs[q] == w.procs[q]
    ensures RowFree(w', d, id)
  {
  }

  lemma RemoveStage(s: Settings, w: World, d: Pid, row: Row, go: Input) returns (w': World)
    requires Deletable(s, w, d, row, go)
    ensures Run(s, w, Removes(d, row.caseId, row.id, go)) == w'
    ensures w' == w.(objects := w.objects - {row.objectKey}, emptied := w.emptied + {row.id},
                     procs := w.procs[d := Delete(row.caseId, row.id, AppendDeleted(row), Some(row.id))])
  {
    hide Step, Run, A.LockFree, LatestRank, RowFree;
    var l, p := Take(d, go), Delete(row.caseId, row.id, Lookup, None);
    DeleteStarts(s, w, d, row.caseId, row.id);
    var a := w.(procs := w.procs[d := p]);
    LookupTakes(s, a, d, p, go);
    var b := w.(procs := w.procs[d := p.(at := RemoveObject(row))]);
    RemoveObjectTakes(s, b, d, b.procs[d], go);
    var c := w.(objects := w.objects - {row.objectKey}, emptied := w.emptied + {row.id},
                procs := w.procs[d := p.(at := RemoveRow(row))]);
    RowStillFree(w, c, d, row.id);
    RemoveRowTakes(s, c, d, c.procs[d], go);
    w' := c.(procs := w.procs[d := p.(at := AppendDeleted(row), removed := Some(row.id))]);
    var start := StartDelete(d, row.caseId, row.id);
    assert a.procs[d := p.(at := RemoveObject(row))] == b.procs && b.procs[d := p.(at := RemoveRow(row))] == c.procs;
    assert c.procs[d := p.(at := AppendDeleted(row), removed := Some(row.id))] == w'.procs;
    RunOne(s, w, start, a);
    RunOne(s, a, l, b);
    RunOne(s, b, l, c);
    RunOne(s, c, l, w');
    RunJoins(s, w, [start], [l]);
    RunJoins(s, w, [start] + [l], [l]);
    RunJoins(s, w, [start] + [l] + [l], [l]);
  }

  /** From any world, so also behind any number of failed deletes: an undisturbed delete
      of an evidence item that still has its row removes that row and its object. */
  lemma {:induction false} DeleteConverges(s: Settings, w: World, d: Pid, row: Row, go: Input)
    requires Deletable(s, w, d, row, go)
    ensures var w' := Run(s, w, Retry(d, row.caseId, row.id, go));
            && d in w'.procs && w'.procs[d] == Delete(row.caseId, row.id, Left(Removed), None)
            && w'.rows == w.rows - {row.id} && w'.objects == w.objects - {row.objectKey}
  {
    hide Run, Step, A.LockFree, T.List, RowFree;
    var a := RemoveStage(s, w, d, row, go);
    var p, rank, used := a.procs[d], LatestRank(w, d, row.caseId), w.db.fates.Keys;
    assert Clear(s, a, d, row.caseId, rank, used);
    hide Clear;
    var next := p.(at := CommitDeleted(row));
    assert Appends(s, p, DeletedDraft(p, row), next);
    var b := AppendStage(s, a, d, DeletedDraft(p, row), next, go, rank, used);
    var w' := CommitStage(s, b, d, next.(at := Left(Removed), removed := None), go, row.caseId, go.now.Rank(),
                          used + {go.eventId});
    RunJoins(s, w, Removes(d, row.caseId, row.id, go), Thrice(d, go));
    RunJoins(s, w, Removes(d, row.caseId, row.id, go) + Thrice(d, go), [Take(d, go)]);
  }
}
