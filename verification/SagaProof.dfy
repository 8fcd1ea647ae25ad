/** Every step of the evidence saga keeps its invariant. */
module SagaProof {
  import opened Wrappers
  import opened Utf8
  import opened Events
  import opened ObjectKeys
  import opened Saga
  import opened SagaInvariant
  import A = AuditRun
  import T = AuditTable

  // ----- what an audit step does to the tables -----

  predicate OthersSame(db: A.Db, db': A.Db, t: A.Tx) {
    && db'.open.Keys - {t} == db.open.Keys - {t}
    && forall u <- db.open :: u != t ==> u in db'.open && db'.open[u] == db.open[u]
  }

  ghost predicate Appended(db: A.Db, db': A.Db, t: A.Tx, d: Draft) {
    exists e :: FromDraft(e, d) && A.TxnOf(db', t).pending == A.TxnOf(db, t).pending + [e]
  }

  lemma AuditEffect(env: A.Env, db: A.Db, l: A.Label, db': A.Db)
    requires A.Step(env, db, l) == Some(db')
    ensures OthersSame(db, db', l.tx)
    ensures db'.committed == if l.Commit? then db.committed + A.TxnOf(db, l.tx).pending else db.committed
    ensures l.Lock? || l.ReadLatest? ==> A.TxnOf(db', l.tx).pending == A.TxnOf(db, l.tx).pending
    ensures l.Insert? ==> Appended(db, db', l.tx, l.draft)
    ensures l.Commit? || l.Rollback? ==> l.tx !in db'.open
  {
    hide A.ClockAdvanced, A.LockFree, A.Settle, Storable, EventHash, T.List;
    if l.Insert? {
      var e := T.NewEvent(env.sha, l.draft, A.TxnOf(db, l.tx).phase.previous, l.id, l.now);
      assert FromDraft(e, l.draft);
    }
  }

  lemma PendingSame(w: World, w': World, t: A.Tx)
    requires OthersSame(w.db, w'.db, t)
    ensures forall u: A.Tx :: u != t ==> PendingOf(w', u) == PendingOf(w, u)
  {
    forall u: A.Tx | u != t
      ensures PendingOf(w', u) == PendingOf(w, u)
    {
      assert u in w.db.open.Keys - {t} <==> u in w'.db.open.Keys - {t};
    }
  }

  // ----- frames -----

  predicate SameObject(w: World, w': World, k: string) {
    (k in w'.objects <==> k in w.objects) && (k in w.objects ==> w'.objects[k] == w.objects[k])
  }

  predicate SameEntry(w: World, w': World, id: string) {
    && (id in w'.rows <==> id in w.rows) && (id in w.rows ==> w'.rows[id] == w.rows[id])
    && (id in w'.emptied <==> id in w.emptied)
    && Types(w'.db.committed, id) == Types(w.db.committed, id)
  }

  predicate OtherProcs(w: World, w': World, me: Pid) {
    && me in w.procs && w'.procs.Keys == w.procs.Keys
    && forall q <- w.procs :: q != me ==> w'.procs[q] == w.procs[q]
  }

  /** Process `me` has changed nothing but itself and what belongs to evidence `id`. */
  ghost predicate Frame(w: World, w': World, me: Pid, id: string) {
    && OtherProcs(w, w', me)
    && OthersSame(w.db, w'.db, me)
    && (forall i: string :: i != id ==> SameEntry(w, w', i))
    && w.emptied <= w'.emptied && w.strays <= w'.strays && w.escaped <= w'.escaped
    && (forall q <- w.procs :: w.procs[q].Upload? && w.procs[q].id != id ==> SameObject(w, w', KeyOf(w.procs[q])))
  }

  lemma FrameUpload(s: Settings, w: World, w': World, me: Pid, id: string, q: Pid)
    requires Frame(w, w', me, id) && q in w.procs && q != me && w.procs[q].Upload? && w.procs[q].id != id
    requires UploadOk(s, w, q, w.procs[q])
    ensures UploadOk(s, w', q, w'.procs[q])
  {
    hide FromDrafts, Trace, AcceptedTrace;
    PendingSame(w, w', me);
    assert SameEntry(w, w', w.procs[q].id);
    assert SameObject(w, w', KeyOf(w.procs[q]));
  }

  lemma AcceptedStays(s: Settings, w: World, w': World, me: Pid)
    requires OtherProcs(w, w', me) && !(w.procs[me].Upload? && IsAccepted(w.procs[me].pc))
    ensures forall i: string :: Known(w, i) ==> Known(w', i)
    ensures forall row: Row :: KnownRow(s, w, row) ==> KnownRow(s, w', row)
  {
    assert forall u, i :: AcceptedUpload(w, u, i) ==> AcceptedUpload(w', u, i);
    forall row: Row | KnownRow(s, w, row)
      ensures KnownRow(s, w', row)
    {
      var u :| AcceptedUpload(w, u, row.id) && RowOf(s, w.procs[u]) == row;
      assert AcceptedUpload(w', u, row.id) && RowOf(s, w'.procs[u]) == row;
    }
  }

  lemma FrameDelete(s: Settings, w: World, w': World, me: Pid, id: string, q: Pid)
    requires Frame(w, w', me, id) && q in w.procs && q != me && w.procs[q].Delete?
    requires !(w.procs[me].Upload? && IsAccepted(w.procs[me].pc))
    requires w.procs[q].id == id && id in w'.rows ==> id in w.rows || !PastStorage(w.procs[q].at)
    requires DeleteOk(s, w, q, w.procs[q])
    ensures DeleteOk(s, w', q, w'.procs[q])
  {
    hide FromDrafts, KnownRow, Known;
    PendingSame(w, w', me);
    AcceptedStays(s, w, w', me);
    if w.procs[q].id != id {
      assert SameEntry(w, w', w.procs[q].id);
    }
  }

  lemma OthersOkAfterUpload(s: Settings, w: World, w': World, me: Pid)
    requires Inv(s, w) && me in w.procs && w.procs[me].Upload? && !IsAccepted(w.procs[me].pc)
    requires Frame(w, w', me, w.procs[me].id)
    ensures OtherProcs(w, w', me) && forall q <- w.procs :: q != me ==> ProcOk(s, w', q)
  {
    FrameProcs(w, w', me, w.procs[me].id);
    hide A.Inv, UploadOk, DeleteOk, Frame;
    var id := w.procs[me].id;
    forall q | q in w.procs && q != me
      ensures ProcOk(s, w', q)
    {
      assert ProcOk(s, w, q);
      if w.procs[q].Upload? {
        FrameUpload(s, w, w', me, id, q);
      } else {
        UnknownDelete(s, w, me, q);
        FrameDelete(s, w, w', me, id, q);
      }
    }
  }

  lemma FrameProcs(w: World, w': World, me: Pid, id: string)
    requires Frame(w, w', me, id)
    ensures OtherProcs(w, w', me)
  {
  }

  /** No delete has got past the storage step for an upload that is not accepted. */
  lemma UnknownDelete(s: Settings, w: World, me: Pid, q: Pid)
    requires IdsDiffer(w) && me in w.procs && w.procs[me].Upload? && !IsAccepted(w.procs[me].pc)
    requires q in w.procs && w.procs[q].Delete? && DeleteOk(s, w, q, w.procs[q])
    ensures w.procs[q].id == w.procs[me].id ==> !PastStorage(w.procs[q].at)
  {
    assert forall u :: !AcceptedUpload(w, u, w.procs[me].id);
  }

  // ----- keys -----

  lemma KeysDiffer(p: Proc, q: Proc)
    requires p.Upload? && q.Upload? && FlagsOk(p) && FlagsOk(q) && p.id != q.id
    ensures KeyOf(p) != KeyOf(q)
  {
    ObjectKeyInjective(p.caseId, p.id, p.name, q.caseId, q.id, q.name);
  }

  lemma OtherKeys(s: Settings, w: World, me: Pid)
    requires ProcsOk(s, w) && me in w.procs && w.procs[me].Upload?
    ensures forall q <- w.procs ::
              w.procs[q].Upload? && w.procs[q].id != w.procs[me].id ==> KeyOf(w.procs[q]) != KeyOf(w.procs[me])
  {
    hide ObjectOk, RowOk, TraceOk, PendingOk, DeleteOk;
    assert ProcOk(s, w, me);
    forall q | q in w.procs && w.procs[q].Upload? && w.procs[q].id != w.procs[me].id
      ensures KeyOf(w.procs[q]) != KeyOf(w.procs[me])
    {
      assert ProcOk(s, w, q);
      KeysDiffer(w.procs[q], w.procs[me]);
    }
  }

  // ----- the log after a commit -----

  predicate ForEvidence(d: Draft, id: string) { d.resourceType == "evidence" && d.resourceId == Some(id) }

  lemma CommitOne(table: seq<Event>, xs: seq<Event>, d: Draft, id: string)
    requires FromDrafts(xs, [d]) && ForEvidence(d, id)
    ensures forall i: string :: Types(table + xs, i) == Types(table, i) + if i == id then [d.eventType] else []
    ensures Replay(table + xs) ==
            if d.eventType == Created then Replay(table)[id := d.outputHash]
            else if d.eventType == Deleted then Replay(table) - {id} else Replay(table)
    ensures Paired(table) && d.eventType != Stored ==> Paired(table + xs)
  {
    var e := xs[0];
    assert FromDraft(e, d) && xs == [e];
    forall i: string
      ensures Types(table + xs, i) == Types(table, i) + if i == id then [d.eventType] else []
    {
      TypesSnoc(table, e, i);
    }
    TypesSnoc(table, e, id);
    if Paired(table) && d.eventType != Stored {
      PairedOne(table, e);
    }
  }

  lemma PairedOne(table: seq<Event>, e: Event)
    requires Paired(table) && e.eventType != Stored
    ensures Paired(table + [e])
  {
  }

  lemma CommitPair(table: seq<Event>, xs: seq<Event>, d: Draft, d': Draft, id: string)
    requires FromDrafts(xs, [d, d']) && ForEvidence(d, id) && ForEvidence(d', id) && d.caseId == d'.caseId
    requires d.eventType == Stored && d'.eventType == Created
    ensures forall i: string :: Types(table + xs, i) == Types(table, i) + if i == id then [Stored, Created] else []
    ensures Replay(table + xs) == Replay(table)[id := d'.outputHash]
    ensures Paired(table) ==> Paired(table + xs)
  {
    var e, e' := xs[0], xs[1];
    assert FromDraft(e, d) && FromDraft(e', d') && table + xs == (table + [e]) + [e'];
    CommitOne(table + [e], [e'], d', id);
    forall i: string
      ensures Types(table + xs, i) == Types(table, i) + if i == id then [Stored, Created] else []
    {
      TypesSnoc(table, e, i);
      TypesSnoc(table + [e], e', i);
    }
    TypesSnoc(table, e, id);
  }

  lemma {:induction false} CommitCaseEvents(table: seq<Event>, xs: seq<Event>, i: string)
    requires forall e <- xs :: CaseEvent(e)
    ensures Types(table + xs, i) == Types(table, i) && Replay(table + xs) == Replay(table)
    ensures Paired(table) ==> Paired(table + xs)
  {
    if xs == [] {
      assert table + xs == table;
    } else {
      var n := |xs| - 1;
      assert xs[n] in xs && forall e <- xs[..n] :: e in xs;
      CommitCaseEvents(table, xs[..n], i);
      assert table + xs == (table + xs[..n]) + [xs[n]];
      TypesSnoc(table + xs[..n], xs[n], i);
      hide Types, Replay;
      assert Types(table, i) + [] == Types(table, i);
      if Paired(table) {
        PairedOne(table + xs[..n], xs[n]);
      }
    }
  }

  // ----- the steps of an upload -----

  /** `w'` is `w` after process `me` moved the database. */
  lemma AuditMoveFrame(s: Settings, w: World, l: A.Label, next: Proc, w': World, id: string)
    requires AuditMove(s, w, l, next) == Some(w') && l.tx in w.procs && !l.Commit?
    ensures Frame(w, w', l.tx, id) && w'.procs == w.procs[l.tx := next] && w' == w.(db := w'.db, procs := w'.procs)
    ensures w'.db.committed == w.db.committed
    ensures l.Rollback? ==> PendingOf(w', l.tx) == []
  {
    hide A.Step;
    AuditEffect(s.audit, w.db, l, w'.db);
  }

  /** `append` either stays at its statement with nothing inserted, or inserts one event and moves on. */
  lemma AppendMoveEffect(s: Settings, w: World, pid: Pid, draft: Draft, next: Proc, input: Input, w': World, id: string)
    requires pid in w.procs && input.Go? && AppendMove(s, w, pid, draft, next, input) == Some(w')
    ensures Frame(w, w', pid, id) && w' == w.(db := w'.db, procs := w'.procs)
    ensures w'.db.committed == w.db.committed
    ensures || (w'.procs == w.procs && PendingOf(w', pid) == PendingOf(w, pid))
            || (w'.procs == w.procs[pid := next] && Appended(w.db, w'.db, pid, draft))
  {
    hide A.Step, Frame;
    match A.TxnOf(w.db, pid).phase
    case Idle =>
      var l := A.Lock(pid, draft.caseId);
      AuditMoveFrame(s, w, l, w.procs[pid], w', id);
      AuditEffect(s.audit, w.db, l, w'.db);
    case Locked(_) =>
      var l := A.ReadLatest(pid);
      AuditMoveFrame(s, w, l, w.procs[pid], w', id);
      AuditEffect(s.audit, w.db, l, w'.db);
    case Linked(_, _) =>
      var l := A.Insert(pid, draft, input.eventId, input.now);
      AuditMoveFrame(s, w, l, next, w', id);
      AuditEffect(s.audit, w.db, l, w'.db);
  }

  lemma DraftsExtend(w: World, w': World, pid: Pid, ds: seq<Draft>, d: Draft)
    requires FromDrafts(PendingOf(w, pid), ds) && Appended(w.db, w'.db, pid, d)
    ensures FromDrafts(PendingOf(w', pid), ds + [d])
  {
  }

  predicate AppendPc(pc: UploadPc) {
    pc.AppendStarted? || pc.AppendHashed? || pc.AppendStored? || pc.AppendCreated? || pc.AppendFailed?
  }

  function AfterAppend(pc: UploadPc): UploadPc
    requires AppendPc(pc)
  {
    match pc
    case AppendStarted => CommitStarted
    case AppendHashed => CommitHashed
    case AppendStored => AppendCreated
    case AppendCreated => CommitCreated
    case AppendFailed(e) => CommitFailed(e)
  }

  function AppendDraft(s: Settings, p: Proc): Draft
    requires p.Upload? && AppendPc(p.pc)
  {
    match p.pc
    case AppendStarted => StartedDraft(p)
    case AppendHashed => HashedDraft(s, p)
    case AppendStored => StoredDraft(p)
    case AppendCreated => CreatedDraft(s, p)
    case AppendFailed(e) => FailedDraft(p, e)
  }

  lemma AdvanceTables(s: Settings, w: World, w': World, p: Proc)
    requires p.Upload? && AppendPc(p.pc) && w' == w.(db := w'.db, procs := w'.procs)
    requires w'.db.committed == w.db.committed
    requires FlagsOk(p) && ObjectOk(w, p) && RowOk(s, w, p) && TraceOk(w, p)
    ensures var next := p.(pc := AfterAppend(p.pc));
            FlagsOk(next) && ObjectOk(w', next) && RowOk(s, w', next) && TraceOk(w', next)
  {
    hide Types, KeyOf, RowOf, NoSlash;
    assert KeyOf(p.(pc := AfterAppend(p.pc))) == KeyOf(p) && RowOf(s, p.(pc := AfterAppend(p.pc))) == RowOf(s, p) by {
      SameRow(s, p);
    }
  }

  lemma SameRow(s: Settings, p: Proc)
    requires p.Upload?
    ensures forall next: Proc | next.Upload? && SameUpload(p, next) ::
              KeyOf(next) == KeyOf(p) && RowOf(s, next) == RowOf(s, p)
  {
  }

  /** The parts of an upload that no step changes. */
  predicate SameUpload(p: Proc, q: Proc)
    requires p.Upload? && q.Upload?
  {
    && q.caseId == p.caseId && q.id == p.id && q.name == p.name && q.source == p.source && q.actor == p.actor
    && q.content == p.content
  }

  lemma WaitingExtends(s: Settings, p: Proc)
    requires p.Upload? && AppendPc(p.pc)
    ensures Waiting(s, p.(pc := AfterAppend(p.pc))) == Waiting(s, p) + [AppendDraft(s, p)]
  {
  }

  lemma UploadAppends(s: Settings, w: World, pid: Pid, p: Proc, input: Input, w': World)
    requires pid in w.procs && w.procs[pid] == p && p.Upload? && AppendPc(p.pc) && input.Go?
    requires UploadOk(s, w, pid, p) && UploadGo(s, w, pid, p, input) == Some(w')
    ensures Frame(w, w', pid, p.id) && w' == w.(db := w'.db, procs := w'.procs)
    ensures w'.db.committed == w.db.committed && w'.procs[pid].Upload? && SameUpload(p, w'.procs[pid])
    ensures UploadOk(s, w', pid, w'.procs[pid]) && w'.procs[pid].inserted == p.inserted
  {
    hide AppendMove, Frame, FromDrafts, ObjectOk, RowOk, TraceOk, FlagsOk, Waiting, Appended;
    var next := p.(pc := AfterAppend(p.pc));
    assert AppendMove(s, w, pid, AppendDraft(s, p), next, input) == Some(w');
    AppendMoveEffect(s, w, pid, AppendDraft(s, p), next, input, w', p.id);
    AdvanceTables(s, w, w', p);
    if w'.procs == w.procs {
      SameTablesOk(s, w, w', p);
    } else {
      DraftsExtend(w, w', pid, Waiting(s, p), AppendDraft(s, p));
      WaitingExtends(s, p);
    }
  }

  lemma SameTablesOk(s: Settings, w: World, w': World, p: Proc)
    requires p.Upload? && w' == w.(db := w'.db, procs := w'.procs) && w'.db.committed == w.db.committed
    requires ObjectOk(w, p) && RowOk(s, w, p) && TraceOk(w, p)
    ensures ObjectOk(w', p) && RowOk(s, w', p) && TraceOk(w', p)
  {
    hide Types, KeyOf, RowOf;
  }

  predicate CommitPc(pc: UploadPc) { pc.CommitStarted? || pc.CommitHashed? || pc.CommitFailed? }

  lemma CommitMoveEffect(s: Settings, w: World, pid: Pid, next: Proc, w': World)
    requires pid in w.procs && AuditMove(s, w, A.Commit(pid), next) == Some(w')
    ensures OthersSame(w.db, w'.db, pid) && w' == w.(db := w'.db, procs := w.procs[pid := next])
    ensures w'.db.committed == w.db.committed + PendingOf(w, pid) && PendingOf(w', pid) == []
  {
    hide A.Step;
    AuditEffect(s.audit, w.db, A.Commit(pid), w'.db);
  }

  function AfterCommit(p: Proc): Proc
    requires p.Upload? && CommitPc(p.pc)
  {
    match p.pc
    case CommitStarted => p.(pc := Receive)
    case CommitHashed => p.(pc := Put, hashed := true)
    case CommitFailed(e) => p.(pc := Finished(Rejected(e, true)))
  }

  lemma CommitTables(s: Settings, w: World, w': World, p: Proc, next: Proc)
    requires p.Upload? && CommitPc(p.pc) && next == AfterCommit(p) && w' == w.(db := w'.db, procs := w'.procs)
    requires FlagsOk(p) && ObjectOk(w, p) && RowOk(s, w, p) && TraceOk(w, p)
    requires Types(w'.db.committed, p.id) == Types(w.db.committed, p.id) + [Waiting(s, p)[0].eventType]
    ensures FlagsOk(next) && ObjectOk(w', next) && RowOk(s, w', next) && TraceOk(w', next)
  {
    hide KeyOf, RowOf, NoSlash, Types;
    SameRow(s, p);
  }

  /** Only the entry of evidence `id` has moved, and the transaction of `me`. */
  lemma FrameOf(w: World, w': World, me: Pid, next: Proc, id: string)
    requires me in w.procs && w'.procs == w.procs[me := next] && OthersSame(w.db, w'.db, me)
    requires forall i: string :: i != id ==> SameEntry(w, w', i)
    requires w.emptied <= w'.emptied && w.strays <= w'.strays && w.escaped <= w'.escaped
    requires forall q <- w.procs :: w.procs[q].Upload? && w.procs[q].id != id ==> SameObject(w, w', KeyOf(w.procs[q]))
    ensures Frame(w, w', me, id)
  {
  }

  lemma UploadCommits(s: Settings, w: World, pid: Pid, p: Proc, input: Input, w': World)
    requires pid in w.procs && w.procs[pid] == p && p.Upload? && CommitPc(p.pc) && input.Go?
    requires UploadOk(s, w, pid, p) && LogOk(w) && UploadGo(s, w, pid, p, input) == Some(w')
    ensures Frame(w, w', pid, p.id) && w' == w.(db := w'.db, procs := w'.procs)
    ensures w'.procs == w.procs[pid := AfterCommit(p)] && SameUpload(p, AfterCommit(p))
    ensures AfterCommit(p).inserted == p.inserted
    ensures UploadOk(s, w', pid, w'.procs[pid]) && LogOk(w')
  {
    hide A.Step, KeyOf, RowOf, Types, Paired, Replay, FlagsOk, ObjectOk, RowOk, TraceOk, Frame;
    var d := Waiting(s, p)[0];
    assert AuditMove(s, w, A.Commit(pid), AfterCommit(p)) == Some(w');
    CommitMoveEffect(s, w, pid, AfterCommit(p), w');
    CommitOne(w.db.committed, PendingOf(w, pid), d, p.id);
    CommitTables(s, w, w', p, AfterCommit(p));
    FrameOf(w, w', pid, AfterCommit(p), p.id);
  }

  function AfterAccept(p: Proc): Proc
    requires p.Upload?
  {
    p.(pc := Finished(Accepted), inserted := None)
  }

  lemma AcceptTables(s: Settings, w: World, w': World, p: Proc)
    requires p.Upload? && p.pc.CommitCreated?
    requires w' == w.(db := w'.db, procs := w'.procs, rows := w.rows[p.id := RowOf(s, p)])
    requires FlagsOk(p) && ObjectOk(w, p) && RowOk(s, w, p) && TraceOk(w, p)
    requires Types(w'.db.committed, p.id) == Types(w.db.committed, p.id) + [Stored, Created]
    ensures var next := AfterAccept(p); FlagsOk(next) && ObjectOk(w', next) && RowOk(s, w', next) && TraceOk(w', next)
  {
    hide KeyOf, RowOf, NoSlash, Types;
    SameRow(s, p);
    assert Types(w'.db.committed, p.id) == [UploadStarted, Hashed, Stored, Created];
  }

  lemma AcceptMove(s: Settings, w: World, pid: Pid, p: Proc, input: Input, w': World)
    requires pid in w.procs && w.procs[pid] == p && p.Upload? && p.pc.CommitCreated? && input.Go?
    requires p.inserted == Some(RowOf(s, p)) && UploadGo(s, w, pid, p, input) == Some(w')
    ensures AuditMove(s, w.(rows := w.rows[p.id := RowOf(s, p)]), A.Commit(pid), AfterAccept(p)) == Some(w')
  {
    hide A.Step, AuditMove, AppendMove, NoConflict, Conflicts, RowOf;
  }

  lemma AcceptedLog(s: Settings, w: World, w': World, pid: Pid, p: Proc)
    requires p.Upload? && p.pc.CommitCreated? && PendingOk(s, w, pid, p) && LogOk(w)
    requires w'.db.committed == w.db.committed + PendingOf(w, pid) && w'.rows == w.rows[p.id := RowOf(s, p)]
    ensures LogOk(w')
    ensures Types(w'.db.committed, p.id) == Types(w.db.committed, p.id) + [Stored, Created]
    ensures forall i: string :: i != p.id ==> Types(w'.db.committed, i) == Types(w.db.committed, i)
  {
    hide KeyOf, Types, Paired, Replay;
    CommitPair(w.db.committed, PendingOf(w, pid), StoredDraft(p), CreatedDraft(s, p), p.id);
    forall i: string | i != p.id
      ensures Types(w'.db.committed, i) == Types(w.db.committed, i)
    {
      assert Types(w.db.committed, i) + [] == Types(w.db.committed, i);
    }
    assert Digests(w'.rows) == Digests(w.rows)[p.id := Some(s.audit.sha(p.content))];
  }

  lemma AcceptedFrame(w: World, w': World, pid: Pid, p: Proc, row: Row)
    requires pid in w.procs && w.procs[pid] == p && p.Upload?
    requires w' == w.(db := w'.db, procs := w.procs[pid := AfterAccept(p)], rows := w.rows[p.id := row])
    requires OthersSame(w.db, w'.db, pid)
    requires forall i: string :: i != p.id ==> Types(w'.db.committed, i) == Types(w.db.committed, i)
    ensures Frame(w, w', pid, p.id)
  {
    hide KeyOf, Types;
    FrameOf(w, w', pid, AfterAccept(p), p.id);
  }

  lemma AcceptedOk(s: Settings, w: World, w': World, pid: Pid, p: Proc)
    requires pid in w.procs && w.procs[pid] == p && p.Upload? && p.pc.CommitCreated?
    requires UploadOk(s, w, pid, p) && LogOk(w)
    requires w' == w.(db := w'.db, procs := w.procs[pid := AfterAccept(p)], rows := w.rows[p.id := RowOf(s, p)])
    requires OthersSame(w.db, w'.db, pid) && PendingOf(w', pid) == []
    requires w'.db.committed == w.db.committed + PendingOf(w, pid)
    ensures Frame(w, w', pid, p.id) && UploadOk(s, w', pid, AfterAccept(p)) && LogOk(w')
  {
    hide KeyOf, RowOf, Types, FlagsOk, ObjectOk, RowOk, TraceOk, Frame, LogOk, OthersSame;
    AcceptedLog(s, w, w', pid, p);
    AcceptedFrame(w, w', pid, p, RowOf(s, p));
    AcceptTables(s, w, w', p);
  }

  lemma UploadAccepted(s: Settings, w: World, pid: Pid, p: Proc, input: Input, w': World)
    requires pid in w.procs && w.procs[pid] == p && p.Upload? && p.pc.CommitCreated? && input.Go?
    requires UploadOk(s, w, pid, p) && LogOk(w) && UploadGo(s, w, pid, p, input) == Some(w')
    ensures Frame(w, w', pid, p.id)
    ensures w' == w.(db := w'.db, procs := w.procs[pid := AfterAccept(p)], rows := w.rows[p.id := RowOf(s, p)])
    ensures UploadOk(s, w', pid, w'.procs[pid]) && LogOk(w')
  {
    hide A.Step, AuditMove, KeyOf, FlagsOk, ObjectOk, TraceOk, PendingOk, LogOk, Frame;
    InsertedRow(s, w, p);
    AcceptMove(s, w, pid, p, input, w');
    hide UploadGo, RowOf, RowOk;
    CommitMoveEffect(s, w.(rows := w.rows[p.id := RowOf(s, p)]), pid, AfterAccept(p), w');
    AcceptedOk(s, w, w', pid, p);
  }

  function AfterRollback(p: Proc): Proc
    requires p.Upload? && (p.pc.Undo? || p.pc.Closing?)
  {
    p.(pc := if p.pc.Undo? then Compensate(p.pc.error) else Finished(p.pc.outcome), inserted := None)
  }

  /** Steps that leave rows and log alone, as the parts of the invariant see them. */
  lemma RollbackTables(s: Settings, w: World, w': World, p: Proc)
    requires p.Upload? && (p.pc.Undo? || p.pc.Closing?) && w' == w.(db := w'.db, procs := w'.procs)
    requires w'.db.committed == w.db.committed
    requires FlagsOk(p) && ObjectOk(w, p) && RowOk(s, w, p) && TraceOk(w, p)
    ensures var next := AfterRollback(p); FlagsOk(next) && ObjectOk(w', next) && RowOk(s, w', next) && TraceOk(w', next)
  {
    hide KeyOf, RowOf, NoSlash, Types;
    SameRow(s, p);
  }

  lemma UploadRollsBack(s: Settings, w: World, pid: Pid, p: Proc, input: Input, w': World)
    requires pid in w.procs && w.procs[pid] == p && p.Upload? && (p.pc.Undo? || p.pc.Closing?) && input.Go?
    requires UploadOk(s, w, pid, p) && UploadGo(s, w, pid, p, input) == Some(w')
    ensures Frame(w, w', pid, p.id) && w' == w.(db := w'.db, procs := w.procs[pid := AfterRollback(p)])
    ensures UploadOk(s, w', pid, w'.procs[pid]) && w'.db.committed == w.db.committed
  {
    hide A.Step, KeyOf, RowOf, Types, Frame, FlagsOk, ObjectOk, RowOk, TraceOk;
    assert AuditMove(s, w, A.Rollback(pid), AfterRollback(p)) == Some(w');
    AuditMoveFrame(s, w, A.Rollback(pid), AfterRollback(p), w', p.id);
    RollbackTables(s, w, w', p);
  }

  predicate LocalPc(pc: UploadPc) {
    pc.Receive? || pc.CheckDuplicate? || pc.Put? || pc.Create? || pc.Compensate?
  }

  function AfterLocal(s: Settings, w: World, p: Proc): Proc
    requires p.Upload? && LocalPc(p.pc)
  {
    match p.pc
    case Receive =>
      p.(pc := if |p.content| == 0 then Undo(Empty)
               else if |p.content| > s.maxSize then Undo(TooLarge)
               else CheckDuplicate)
    case CheckDuplicate =>
      p.(pc := if exists id <- w.rows :: Conflicts(w.rows[id], RowOf(s, p)) then Undo(Duplicate) else AppendHashed)
    case Put => p.(pc := Create, stored := true)
    case Create => p.(pc := AppendStored, inserted := Some(RowOf(s, p)))
    case Compensate(e) => p.(pc := AppendFailed(e))
  }

  function LocalObjects(w: World, p: Proc): map<string, seq<Byte>>
    requires p.Upload? && LocalPc(p.pc)
  {
    if p.pc.Put? then w.objects[KeyOf(p) := p.content]
    else if p.pc.Compensate? && p.stored then w.objects - {KeyOf(p)}
    else w.objects
  }

  lemma LocalParts(s: Settings, w: World, pid: Pid, p: Proc, input: Input, w': World)
    requires pid in w.procs && w.procs[pid] == p && p.Upload? && LocalPc(p.pc) && input.Go?
    requires UploadGo(s, w, pid, p, input) == Some(w')
    ensures w' == w.(objects := LocalObjects(w, p), procs := w.procs[pid := AfterLocal(s, w, p)])
    ensures p.pc.Create? ==> NoConflict(w, pid, RowOf(s, p))
  {
    hide KeyOf, RowOf, NoConflict, Conflicts;
  }

  lemma LocalFlags(s: Settings, w: World, w': World, p: Proc)
    requires p.Upload? && LocalPc(p.pc) && w' == w.(objects := w'.objects, procs := w'.procs)
    requires FlagsOk(p) && TraceOk(w, p)
    ensures var next := AfterLocal(s, w, p); FlagsOk(next) && TraceOk(w', next)
  {
    hide KeyOf, RowOf, NoSlash, Types, Conflicts;
  }

  lemma LocalRow(s: Settings, w: World, w': World, p: Proc)
    requires p.Upload? && LocalPc(p.pc) && w' == w.(objects := w'.objects, procs := w'.procs) && RowOk(s, w, p)
    ensures RowOk(s, w', AfterLocal(s, w, p))
  {
    hide KeyOf, RowOf, Conflicts;
    SameRow(s, p);
  }

  lemma LocalTables(s: Settings, w: World, w': World, p: Proc)
    requires p.Upload? && LocalPc(p.pc) && w' == w.(objects := w'.objects, procs := w'.procs)
    requires FlagsOk(p) && RowOk(s, w, p) && TraceOk(w, p)
    ensures var next := AfterLocal(s, w, p); FlagsOk(next) && RowOk(s, w', next) && TraceOk(w', next)
    ensures var next := AfterLocal(s, w, p); SameUpload(p, next) && (Waiting(s, p) == Waiting(s, next) || next.pc.Undo?)
  {
    LocalFlags(s, w, w', p);
    LocalRow(s, w, w', p);
    hide KeyOf, RowOf, Conflicts, FlagsOk, RowOk, TraceOk, EvidenceDraft;
  }

  lemma LocalObject(s: Settings, w: World, w': World, p: Proc)
    requires p.Upload? && LocalPc(p.pc) && w' == w.(objects := LocalObjects(w, p), procs := w'.procs)
    requires ObjectOk(w, p)
    ensures ObjectOk(w', AfterLocal(s, w, p))
  {
    hide KeyOf, RowOf, Conflicts;
    SameRow(s, p);
  }

  lemma UploadMovesOn(s: Settings, w: World, pid: Pid, p: Proc, input: Input, w': World)
    requires pid in w.procs && w.procs[pid] == p && p.Upload? && LocalPc(p.pc) && input.Go?
    requires UploadOk(s, w, pid, p) && UploadGo(s, w, pid, p, input) == Some(w')
    requires forall q <- w.procs :: w.procs[q].Upload? && w.procs[q].id != p.id ==> KeyOf(w.procs[q]) != KeyOf(p)
    ensures Frame(w, w', pid, p.id) && w' == w.(objects := w'.objects, procs := w.procs[pid := w'.procs[pid]])
    ensures w'.procs[pid].Upload? && SameUpload(p, w'.procs[pid]) && UploadOk(s, w', pid, w'.procs[pid])
    ensures w'.objects.Keys <= w.objects.Keys + {KeyOf(p)}
    ensures w'.procs[pid].inserted.Some? ==> p.inserted.Some? || NoConflict(w, pid, RowOf(s, p))
  {
    var next := AfterLocal(s, w, p);
    LocalParts(s, w, pid, p, input, w');
    LocalTables(s, w, w', p);
    LocalObject(s, w, w', p);
    hide UploadGo, KeyOf, RowOf, Types, FromDrafts, NoConflict, FlagsOk, ObjectOk, RowOk, TraceOk, Frame, Waiting,
         Conflicts;
    FrameOf(w, w', pid, next, p.id);
  }

  function AfterRaise(pc: UploadPc, error: Error): UploadPc {
    match pc
    case AppendStarted => Closing(NotStarted)
    case CommitStarted => Closing(NotStarted)
    case Undo(e) => Closing(Escaped(e))
    case Compensate(e) => AppendFailed(e)
    case AppendFailed(e) => Closing(Rejected(e, false))
    case CommitFailed(e) => Closing(Rejected(e, false))
    case _ => Undo(error)
  }

  lemma RaiseParts(w: World, pid: Pid, p: Proc, error: Error, w': World)
    requires pid in w.procs && w.procs[pid] == p && p.Upload? && UploadRaise(w, pid, p, error) == Some(w')
    ensures !p.pc.Closing? && !p.pc.Finished? && (p.pc.Compensate? ==> p.stored)
    ensures w' == w.(procs := w.procs[pid := p.(pc := AfterRaise(p.pc, error))],
                     strays := if p.pc.Compensate? then w.strays + {KeyOf(p)} else w.strays,
                     escaped := if p.pc.Undo? && p.stored then w.escaped + {KeyOf(p)} else w.escaped)
  {
    hide KeyOf;
  }

  lemma RaiseTables(s: Settings, w: World, p: Proc, error: Error, w': World)
    requires p.Upload? && !p.pc.Closing? && !p.pc.Finished?
    requires w' == w.(procs := w'.procs, strays := if p.pc.Compensate? then w.strays + {KeyOf(p)} else w.strays,
                      escaped := if p.pc.Undo? && p.stored then w.escaped + {KeyOf(p)} else w.escaped)
    requires FlagsOk(p) && ObjectOk(w, p) && RowOk(s, w, p) && TraceOk(w, p)
    ensures var next := p.(pc := AfterRaise(p.pc, error));
            FlagsOk(next) && ObjectOk(w', next) && RowOk(s, w', next) && TraceOk(w', next)
  {
    hide KeyOf, RowOf, NoSlash, Types;
    SameRow(s, p);
  }

  lemma UploadRaises(s: Settings, w: World, pid: Pid, p: Proc, error: Error, w': World)
    requires pid in w.procs && w.procs[pid] == p && p.Upload?
    requires UploadOk(s, w, pid, p) && UploadRaise(w, pid, p, error) == Some(w')
    ensures Frame(w, w', pid, p.id)
    ensures w' == w.(strays := w'.strays, escaped := w'.escaped,
                     procs := w.procs[pid := p.(pc := AfterRaise(p.pc, error))])
    ensures UploadOk(s, w', pid, w'.procs[pid])
  {
    RaiseParts(w, pid, p, error, w');
    RaiseTables(s, w, p, error, w');
    hide KeyOf, RowOf, Types, FromDrafts, FlagsOk, ObjectOk, RowOk, TraceOk, Frame, UploadRaise;
    FrameOf(w, w', pid, p.(pc := AfterRaise(p.pc, error)), p.id);
  }

  // ----- the tables as a whole -----

  /** Process `me` keeps its identity. */
  predicate SameProc(w: World, w': World, me: Pid)
    requires me in w.procs && me in w'.procs
  {
    var p, q := w.procs[me], w'.procs[me];
    p.Upload? == q.Upload? && (p.Upload? ==> SameUpload(p, q)) && (p.Delete? ==> p.id == q.id && p.caseId == q.caseId)
  }

  lemma OwnersStay(w: World, w': World, me: Pid)
    requires OtherProcs(w, w', me) && SameProc(w, w', me) && IdsDiffer(w) && ObjectsOwned(w)
    requires forall k <- w'.objects :: k in w.objects || Owner(w, me, k)
    ensures IdsDiffer(w') && ObjectsOwned(w')
  {
    hide ObjectKey;
    forall k | k in w'.objects
      ensures exists u :: Owner(w', u, k)
    {
      var u := if k in w.objects then var v: Pid :| Owner(w, v, k); v else me;
      assert Owner(w', u, k);
    }
  }

  lemma BackgroundStays(w: World, w': World, me: Pid)
    requires BackgroundOk(w) && OtherProcs(w, w', me) && OthersSame(w.db, w'.db, me)
    ensures BackgroundOk(w')
  {
    hide CaseEvent;
    forall t | t in w'.db.open && t !in w'.procs
      ensures forall e <- w'.db.open[t].pending :: CaseEvent(e)
    {
      assert t != me && t in w'.db.open.Keys - {me};
      assert t in w.db.open;
    }
  }

  lemma RowsStayKnown(w: World, w': World, me: Pid)
    requires RowsKnown(w) && OtherProcs(w, w', me) && !(w.procs[me].Upload? && IsAccepted(w.procs[me].pc))
    requires forall id <- w'.rows :: id in w.rows && w'.rows[id] == w.rows[id]
    ensures RowsKnown(w')
  {
    forall id | id in w'.rows
      ensures Known(w', id)
    {
      assert Known(w, id);
      var u :| AcceptedUpload(w, u, id);
      assert AcceptedUpload(w', u, id);
    }
  }

  lemma WaitingStays(w: World, w': World, me: Pid)
    requires WaitingUnique(w) && RowsUnique(w) && OtherProcs(w, w', me)
    requires forall id <- w'.rows :: id in w.rows && w'.rows[id] == w.rows[id]
    requires Waits(w', me) ==> Waits(w, me) && w'.procs[me].inserted == w.procs[me].inserted
    ensures WaitingUnique(w') && RowsUnique(w')
  {
    hide Conflicts;
  }

  lemma FreshStays(w: World, w': World, me: Pid, id: string)
    requires FreshOk(w) && Frame(w, w', me, id) && SameProc(w, w', me) && (Used(w, id) || SameEntry(w, w', id))
    ensures FreshOk(w')
  {
    hide Types, KeyOf;
    forall i: string
      ensures Used(w', i) || (Types(w'.db.committed, i) == [] && i !in w'.emptied)
    {
      if Used(w, i) {
        var u :| HasId(w, u, i);
        assert HasId(w', u, i);
      } else {
        assert SameEntry(w, w', i);
      }
    }
  }

  /** A step that adds no row and starts no insert keeps the tables in order. */
  lemma QuietTables(w: World, w': World, me: Pid, id: string)
    requires TablesOk(w) && LogOk(w') && Frame(w, w', me, id) && SameProc(w, w', me)
    requires !(w.procs[me].Upload? && IsAccepted(w.procs[me].pc))
    requires forall i <- w'.rows :: i in w.rows && w'.rows[i] == w.rows[i]
    requires Waits(w', me) ==> Waits(w, me) && w'.procs[me].inserted == w.procs[me].inserted
    requires forall k <- w'.objects :: k in w.objects || Owner(w, me, k)
    requires Used(w, id) || SameEntry(w, w', id)
    ensures TablesOk(w')
  {
    hide IdsDiffer, ObjectsOwned, RowsKnown, RowsUnique, WaitingUnique, LogOk, BackgroundOk, SameProc, Waits,
         Owner, FreshOk;
    FreshStays(w, w', me, id);
    OwnersStay(w, w', me);
    BackgroundStays(w, w', me);
    RowsStayKnown(w, w', me);
    WaitingStays(w, w', me);
  }

  lemma CreateTables(s: Settings, w: World, w': World, me: Pid, p: Proc)
    requires TablesOk(w) && me in w.procs && w.procs[me] == p && p.Upload? && p.pc.Create?
    requires w' == w.(procs := w.procs[me := p.(pc := AppendStored, inserted := Some(RowOf(s, p)))])
    requires NoConflict(w, me, RowOf(s, p)) && Frame(w, w', me, p.id)
    ensures TablesOk(w')
  {
    assert HasId(w, me, p.id);
    FreshStays(w, w', me, p.id) by { SameRow(s, p); }
    hide RowOf, LogOk, KeyOf, Conflicts, NoConflict, RowsUnique, WaitingUnique;
    SameRow(s, p);
    OwnersStay(w, w', me);
    BackgroundStays(w, w', me);
    RowsStayKnown(w, w', me);
    CreateUnique(s, w, w', me, p);
    SameLog(w, w');
  }

  lemma CreateUnique(s: Settings, w: World, w': World, me: Pid, p: Proc)
    requires RowsUnique(w) && WaitingUnique(w) && me in w.procs && w.procs[me] == p && p.Upload?
    requires w' == w.(procs := w.procs[me := p.(pc := AppendStored, inserted := Some(RowOf(s, p)))])
    requires NoConflict(w, me, RowOf(s, p))
    ensures RowsUnique(w') && WaitingUnique(w')
  {
    hide RowOf;
  }

  lemma AcceptedTables(s: Settings, w: World, w': World, me: Pid, p: Proc)
    requires TablesOk(w) && LogOk(w') && Frame(w, w', me, p.id)
    requires w.procs[me] == p && p.Upload? && p.pc.CommitCreated? && p.inserted == Some(RowOf(s, p)) && p.id !in w.rows
    requires w' == w.(db := w'.db, procs := w.procs[me := AfterAccept(p)], rows := w.rows[p.id := RowOf(s, p)])
    ensures TablesOk(w')
  {
    assert HasId(w, me, p.id);
    FreshStays(w, w', me, p.id);
    hide LogOk, KeyOf, ObjectKey, Conflicts, FreshOk;
    SameRow(s, p);
    OwnersStay(w, w', me);
    BackgroundStays(w, w', me);
    forall id | id in w'.rows
      ensures Known(w', id) && w'.rows[id].id == id
    {
      if id == p.id {
        assert AcceptedUpload(w', me, id);
      } else {
        assert Known(w, id);
        var u :| AcceptedUpload(w, u, id);
        assert AcceptedUpload(w', u, id);
      }
    }
    AcceptedUnique(s, w, w', me, p);
  }

  lemma AcceptedUnique(s: Settings, w: World, w': World, me: Pid, p: Proc)
    requires RowsUnique(w) && WaitingUnique(w) && me in w.procs && w.procs[me] == p && p.Upload?
    requires p.inserted == Some(RowOf(s, p))
    requires w' == w.(db := w'.db, procs := w.procs[me := AfterAccept(p)], rows := w.rows[p.id := RowOf(s, p)])
    ensures RowsUnique(w') && WaitingUnique(w')
  {
    hide RowOf;
    assert Waits(w, me);
  }

  // ----- putting an upload's step together -----

  lemma ProcsAfterUpload(s: Settings, w: World, w': World, me: Pid)
    requires Inv(s, w) && me in w.procs && w.procs[me].Upload? && !IsAccepted(w.procs[me].pc)
    requires Frame(w, w', me, w.procs[me].id) && w'.procs[me].Upload? && UploadOk(s, w', me, w'.procs[me])
    ensures ProcsOk(s, w')
  {
    hide Inv, UploadOk, Frame, DeleteOk;
    OthersOkAfterUpload(s, w, w', me);
    assert ProcOk(s, w', me);
  }

  lemma SameLog(w: World, w': World)
    requires LogOk(w) && w'.db.committed == w.db.committed && w'.rows == w.rows
    ensures LogOk(w')
  {
  }

  lemma InsertedRow(s: Settings, w: World, p: Proc)
    requires p.Upload? && RowOk(s, w, p) && p.pc.CommitCreated?
    ensures p.inserted == Some(RowOf(s, p)) && p.id !in w.rows
  {
    hide RowOf;
  }

  lemma NotAccepted(s: Settings, w: World, pid: Pid, p: Proc, input: Input, w': World)
    requires pid in w.procs && w.procs[pid] == p && p.Upload? && TakeStep(s, w, pid, input) == Some(w')
    ensures !IsAccepted(p.pc)
    ensures input.Go? ==>
              AppendPc(p.pc) || CommitPc(p.pc) || p.pc.CommitCreated? || p.pc.Undo? || p.pc.Closing? || LocalPc(p.pc)
    ensures if input.Go? then UploadGo(s, w, pid, p, input) == Some(w')
            else UploadRaise(w, pid, p, input.error) == Some(w')
  {
  }

  lemma RaiseKeeps(s: Settings, w: World, pid: Pid, p: Proc, error: Fault, w': World)
    requires Inv(s, w) && pid in w.procs && w.procs[pid] == p && p.Upload? && UploadRaise(w, pid, p, error) == Some(w')
    ensures ProcsOk(s, w') && TablesOk(w')
  {
    hide UploadGo, UploadRaise, A.Inv, FlagsOk, ObjectOk, RowOk, TraceOk, PendingOk, DeleteOk, KeyOf, RowOf,
         Frame, LogOk;
    assert HasId(w, pid, p.id);
    assert ProcOk(s, w, pid);
    assert LogOk(w);
    SameRow(s, p);
    NotAccepted(s, w, pid, p, Raise(error), w');
    UploadRaises(s, w, pid, p, error, w');
    assert LogOk(w') by { SameLog(w, w'); }
    ProcsAfterUpload(s, w, w', pid);
    QuietTables(w, w', pid, p.id);
  }

  lemma AppendKeeps(s: Settings, w: World, pid: Pid, p: Proc, input: Input, w': World)
    requires Inv(s, w) && pid in w.procs && w.procs[pid] == p && p.Upload? && AppendPc(p.pc) && input.Go?
    requires UploadGo(s, w, pid, p, input) == Some(w')
    ensures ProcsOk(s, w') && TablesOk(w')
  {
    hide UploadGo, UploadRaise, A.Inv, FlagsOk, ObjectOk, RowOk, TraceOk, PendingOk, DeleteOk, KeyOf, RowOf,
         Frame, LogOk;
    assert HasId(w, pid, p.id);
    assert ProcOk(s, w, pid);
    assert LogOk(w);
    SameRow(s, p);
    UploadAppends(s, w, pid, p, input, w');
    assert LogOk(w') by { SameLog(w, w'); }
    ProcsAfterUpload(s, w, w', pid);
    QuietTables(w, w', pid, p.id);
  }

  lemma CommitKeeps(s: Settings, w: World, pid: Pid, p: Proc, input: Input, w': World)
    requires Inv(s, w) && pid in w.procs && w.procs[pid] == p && p.Upload? && CommitPc(p.pc) && input.Go?
    requires UploadGo(s, w, pid, p, input) == Some(w')
    ensures ProcsOk(s, w') && TablesOk(w')
  {
    hide UploadGo, UploadRaise, A.Inv, FlagsOk, ObjectOk, RowOk, TraceOk, PendingOk, DeleteOk, KeyOf, RowOf,
         Frame, LogOk;
    assert HasId(w, pid, p.id);
    assert ProcOk(s, w, pid);
    assert LogOk(w);
    SameRow(s, p);
    UploadCommits(s, w, pid, p, input, w');
    ProcsAfterUpload(s, w, w', pid);
    QuietTables(w, w', pid, p.id);
  }

  lemma AcceptKeeps(s: Settings, w: World, pid: Pid, p: Proc, input: Input, w': World)
    requires Inv(s, w) && pid in w.procs && w.procs[pid] == p && p.Upload? && p.pc.CommitCreated? && input.Go?
    requires UploadGo(s, w, pid, p, input) == Some(w')
    ensures ProcsOk(s, w') && TablesOk(w')
  {
    hide UploadGo, UploadRaise, A.Inv, FlagsOk, ObjectOk, RowOk, TraceOk, PendingOk, DeleteOk, KeyOf, RowOf,
         Frame, LogOk;
    assert HasId(w, pid, p.id);
    assert ProcOk(s, w, pid);
    assert LogOk(w);
    SameRow(s, p);
    UploadAccepted(s, w, pid, p, input, w');
    assert p.inserted == Some(RowOf(s, p)) && p.id !in w.rows by { InsertedRow(s, w, p); }
    ProcsAfterUpload(s, w, w', pid);
    AcceptedTables(s, w, w', pid, p);
  }

  lemma RollbackKeeps(s: Settings, w: World, pid: Pid, p: Proc, input: Input, w': World)
    requires Inv(s, w) && pid in w.procs && w.procs[pid] == p && p.Upload? && (p.pc.Undo? || p.pc.Closing?)
    requires input.Go? && UploadGo(s, w, pid, p, input) == Some(w')
    ensures ProcsOk(s, w') && TablesOk(w')
  {
    hide UploadGo, UploadRaise, A.Inv, FlagsOk, ObjectOk, RowOk, TraceOk, PendingOk, DeleteOk, KeyOf, RowOf,
         Frame, LogOk;
    assert HasId(w, pid, p.id);
    assert ProcOk(s, w, pid);
    assert LogOk(w);
    SameRow(s, p);
    UploadRollsBack(s, w, pid, p, input, w');
    assert LogOk(w') by { SameLog(w, w'); }
    ProcsAfterUpload(s, w, w', pid);
    QuietTables(w, w', pid, p.id);
  }

  lemma LocalKeeps(s: Settings, w: World, pid: Pid, p: Proc, input: Input, w': World)
    requires Inv(s, w) && pid in w.procs && w.procs[pid] == p && p.Upload? && LocalPc(p.pc) && input.Go?
    requires UploadGo(s, w, pid, p, input) == Some(w')
    ensures ProcsOk(s, w') && TablesOk(w')
  {
    hide UploadGo, UploadRaise, A.Inv, FlagsOk, ObjectOk, RowOk, TraceOk, PendingOk, DeleteOk, KeyOf, RowOf,
         Frame, LogOk;
    assert HasId(w, pid, p.id);
    assert ProcOk(s, w, pid);
    assert LogOk(w);
    SameRow(s, p);
    OtherKeys(s, w, pid);
    UploadMovesOn(s, w, pid, p, input, w');
    assert LogOk(w') by { SameLog(w, w'); }
    ProcsAfterUpload(s, w, w', pid);
    if p.pc.Create? {
      LocalParts(s, w, pid, p, input, w');
      CreateTables(s, w, w', pid, p);
    } else {
      LocalParts(s, w, pid, p, input, w');
      QuietTables(w, w', pid, p.id);
    }
  }

  lemma UploadKeeps(s: Settings, w: World, pid: Pid, p: Proc, input: Input, w': World)
    requires Inv(s, w) && pid in w.procs && w.procs[pid] == p && p.Upload? && TakeStep(s, w, pid, input) == Some(w')
    ensures ProcsOk(s, w') && TablesOk(w')
  {
    hide *;
    NotAccepted(s, w, pid, p, input, w');
    if input.Raise? {
      RaiseKeeps(s, w, pid, p, input.error, w');
    } else if AppendPc(p.pc) {
      AppendKeeps(s, w, pid, p, input, w');
    } else if CommitPc(p.pc) {
      CommitKeeps(s, w, pid, p, input, w');
    } else if p.pc.CommitCreated? {
      AcceptKeeps(s, w, pid, p, input, w');
    } else if p.pc.Undo? || p.pc.Closing? {
      RollbackKeeps(s, w, pid, p, input, w');
    } else {
      LocalKeeps(s, w, pid, p, input, w');
    }
  }

  // ----- the steps of a delete -----

  /** Process `me` has touched its own transaction and program counter only. */
  predicate Still(w: World, w': World, me: Pid) {
    && OtherProcs(w, w', me) && OthersSame(w.db, w'.db, me)
    && w' == w.(db := w'.db, procs := w'.procs) && w'.db.committed == w.db.committed
  }

  lemma StillFrame(w: World, w': World, me: Pid, id: string)
    requires Still(w, w', me)
    ensures Frame(w, w', me, id)
  {
  }

  lemma OthersOkAfterStill(s: Settings, w: World, w': World, me: Pid)
    requires ProcsOk(s, w) && Still(w, w', me) && w.procs[me].Delete?
    ensures forall q <- w.procs :: q != me ==> ProcOk(s, w', q)
  {
    hide UploadOk, DeleteOk, Frame;
    forall q | q in w.procs && q != me
      ensures ProcOk(s, w', q)
    {
      assert ProcOk(s, w, q);
      var other := w.procs[q].id + "x";
      assert |other| != |w.procs[q].id|;
      StillFrame(w, w', me, other);
      if w.procs[q].Upload? {
        FrameUpload(s, w, w', me, other, q);
      } else {
        FrameDelete(s, w, w', me, other, q);
      }
    }
  }

  lemma StillTables(w: World, w': World, me: Pid)
    requires TablesOk(w) && Still(w, w', me) && w.procs[me].Delete? && w'.procs[me].Delete?
    requires w'.procs[me].id == w.procs[me].id && w'.procs[me].caseId == w.procs[me].caseId
    ensures TablesOk(w')
  {
    hide TablesOk, LogOk;
    StillFrame(w, w', me, w.procs[me].id);
    assert SameEntry(w, w', w.procs[me].id);
    assert LogOk(w) by { TablesLog(w); }
    SameLog(w, w');
    QuietTables(w, w', me, w.procs[me].id);
  }

  lemma TablesLog(w: World)
    requires TablesOk(w)
    ensures LogOk(w)
  {
  }

  predicate StillPc(at: DeletePc) { at.Lookup? || at.RemoveRow? || at.AppendDeleted? || at.Leaving? }

  function AfterStill(w: World, p: Proc, input: Input): Proc
    requires p.Delete? && (input.Raise? || StillPc(p.at))
  {
    if input.Raise? then p.(at := Leaving(NotDeleted))
    else
      match p.at
      case Lookup =>
        if p.id in w.rows && w.rows[p.id].caseId == p.caseId then p.(at := RemoveObject(w.rows[p.id]))
        else p.(at := Leaving(NotFound))
      case RemoveRow(row) => p.(at := AppendDeleted(row), removed := Some(p.id))
      case AppendDeleted(row) => p.(at := CommitDeleted(row))
      case Leaving(outcome) => p.(at := Left(outcome), removed := None)
  }

  /** The process moves on, or stays inside `append`; its pending events follow. */
  ghost predicate Moved(w: World, w': World, pid: Pid, p: Proc, input: Input)
    requires p.Delete? && (input.Raise? || StillPc(p.at))
  {
    || (w'.procs == w.procs && PendingOf(w', pid) == PendingOf(w, pid))
    || (&& w'.procs == w.procs[pid := AfterStill(w, p, input)]
        && if input.Raise? || p.at.Lookup? || p.at.RemoveRow? then PendingOf(w', pid) == PendingOf(w, pid)
           else if p.at.AppendDeleted? then Appended(w.db, w'.db, pid, DeletedDraft(p, p.at.row))
           else PendingOf(w', pid) == [])
  }

  lemma DeleteStays(s: Settings, w: World, pid: Pid, p: Proc, input: Input, w': World)
    requires pid in w.procs && w.procs[pid] == p && p.Delete? && TakeStep(s, w, pid, input) == Some(w')
    requires input.Raise? || StillPc(p.at)
    ensures Still(w, w', pid) && Moved(w, w', pid, p, input)
  {
    hide A.Step, AppendMove, RowFree, Frame, Appended;
    if input.Go? && p.at.AppendDeleted? {
      AppendMoveEffect(s, w, pid, DeletedDraft(p, p.at.row), p.(at := CommitDeleted(p.at.row)), input, w', p.id);
      FrameOthers(w, w', pid, p.id);
    } else if input.Go? && p.at.Leaving? {
      AuditEffect(s.audit, w.db, A.Rollback(pid), w'.db);
    }
  }

  lemma FrameOthers(w: World, w': World, me: Pid, id: string)
    requires Frame(w, w', me, id)
    ensures OthersSame(w.db, w'.db, me)
  {
  }

  lemma StillDeleteOk(s: Settings, w: World, w': World, pid: Pid, p: Proc, input: Input)
    requires pid in w.procs && w.procs[pid] == p && p.Delete? && (input.Raise? || StillPc(p.at))
    requires DeleteOk(s, w, pid, p) && Still(w, w', pid) && Moved(w, w', pid, p, input)
    requires p.id in w.rows ==> w.rows[p.id].id == p.id && KnownRow(s, w, w.rows[p.id])
    ensures w'.procs[pid].Delete? && w'.procs[pid].id == p.id && w'.procs[pid].caseId == p.caseId
    ensures DeleteOk(s, w', pid, w'.procs[pid])
  {
    hide FromDrafts, Appended, KnownRow, Known;
    KnownStays(s, w, w', pid);
    NoDrafts();
    if input.Go? && p.at.AppendDeleted? && w'.procs != w.procs {
      DraftsExtend(w, w', pid, [], DeletedDraft(p, p.at.row));
      assert [] + [DeletedDraft(p, p.at.row)] == [DeletedDraft(p, p.at.row)];
    }
  }

  lemma NoDrafts()
    ensures FromDrafts([], [])
  {
  }

  lemma StillKeeps(s: Settings, w: World, pid: Pid, p: Proc, input: Input, w': World)
    requires Inv(s, w) && pid in w.procs && w.procs[pid] == p && p.Delete? && TakeStep(s, w, pid, input) == Some(w')
    requires input.Raise? || StillPc(p.at)
    ensures ProcsOk(s, w') && TablesOk(w')
  {
    hide TakeStep, A.Inv, UploadOk, DeleteOk, TablesOk, Moved, RowsKnown, KnownRow;
    DeleteStays(s, w, pid, p, input, w');
    assert ProcOk(s, w, pid);
    assert RowsKnown(w) by { TablesRows(w); }
    if p.id in w.rows {
      RowIsKnown(s, w, p.id);
    }
    StillDeleteOk(s, w, w', pid, p, input);
    OthersOkAfterStill(s, w, w', pid);
    assert ProcOk(s, w', pid);
    StillTables(w, w', pid);
  }

  lemma TablesRows(w: World)
    requires TablesOk(w)
    ensures RowsKnown(w) && IdsDiffer(w)
  {
  }

  lemma KnownStays(s: Settings, w: World, w': World, me: Pid)
    requires Still(w, w', me) && w.procs[me].Delete?
    ensures forall i: string :: Known(w, i) ==> Known(w', i)
    ensures forall row: Row :: KnownRow(s, w, row) ==> KnownRow(s, w', row)
  {
    AcceptedStays(s, w, w', me);
  }

  lemma RowIsKnown(s: Settings, w: World, id: string)
    requires ProcsOk(s, w) && RowsKnown(w) && id in w.rows
    ensures w.rows[id].id == id && KnownRow(s, w, w.rows[id])
  {
    hide ObjectOk, TraceOk, PendingOk, FlagsOk, DeleteOk, KeyOf;
    assert Known(w, id);
    var u :| AcceptedUpload(w, u, id);
    assert ProcOk(s, w, u);
  }

  /** The upload that a held row belongs to, and its key. */
  lemma RowUpload(s: Settings, w: World, row: Row) returns (u: Pid)
    requires KnownRow(s, w, row)
    ensures AcceptedUpload(w, u, row.id) && row.objectKey == KeyOf(w.procs[u]) && row == RowOf(s, w.procs[u])
  {
    u :| AcceptedUpload(w, u, row.id) && RowOf(s, w.procs[u]) == row;
  }

  lemma RemoveObjectEffect(s: Settings, w: World, pid: Pid, p: Proc, input: Input, w': World)
    requires pid in w.procs && w.procs[pid] == p && p.Delete? && p.at.RemoveObject? && input.Go?
    requires TakeStep(s, w, pid, input) == Some(w')
    ensures w' == w.(objects := w.objects - {p.at.row.objectKey}, emptied := w.emptied + {p.id},
                     procs := w.procs[pid := p.(at := RemoveRow(p.at.row))])
  {
  }

  /** An upload keeps its invariant when a delete of its row empties its key. */
  lemma EmptiedUpload(s: Settings, w: World, w': World, me: Pid, q: Pid)
    requires q in w.procs && q != me && w.procs[q].Upload? && IsAccepted(w.procs[q].pc)
    requires UploadOk(s, w, q, w.procs[q]) && OtherProcs(w, w', me)
    requires w' == w.(objects := w.objects - {KeyOf(w.procs[q])}, emptied := w.emptied + {w.procs[q].id},
                      procs := w'.procs)
    ensures UploadOk(s, w', q, w'.procs[q])
  {
    hide FromDrafts, Types, NoSlash, KeyOf, RowOf;
  }

  /** The object of evidence `p.id`, the key of upload `u`, is gone. */
  predicate Emptied(w: World, w': World, pid: Pid, p: Proc, u: Pid)
    requires p.Delete?
  {
    && pid in w.procs && w.procs[pid] == p && p.at.RemoveObject? && AcceptedUpload(w, u, p.id)
    && w' == w.(objects := w.objects - {KeyOf(w.procs[u])}, emptied := w.emptied + {p.id},
                procs := w.procs[pid := p.(at := RemoveRow(p.at.row))])
  }

  lemma EmptiedFrame(s: Settings, w: World, w': World, pid: Pid, p: Proc, u: Pid)
    requires ProcsOk(s, w) && p.Delete? && Emptied(w, w', pid, p, u)
    ensures Frame(w, w', pid, p.id)
  {
    hide ProcsOk, KeyOf, Frame;
    OtherKeys(s, w, u);
    FrameOf(w, w', pid, w'.procs[pid], p.id);
  }

  lemma EmptiedSelf(s: Settings, w: World, w': World, pid: Pid, p: Proc, u: Pid)
    requires p.Delete? && Emptied(w, w', pid, p, u) && DeleteOk(s, w, pid, p)
    ensures DeleteOk(s, w', pid, w'.procs[pid])
  {
    hide KeyOf, RowOf, KnownRow, FromDrafts;
    AcceptedStays(s, w, w', pid);
    KnownBy(w', u, p.id);
  }

  lemma EmptiedOther(s: Settings, w: World, w': World, pid: Pid, p: Proc, u: Pid, q: Pid)
    requires p.Delete? && Emptied(w, w', pid, p, u) && Frame(w, w', pid, p.id) && IdsDiffer(w)
    requires q in w.procs && q != pid && ProcOk(s, w, q)
    ensures ProcOk(s, w', q)
  {
    hide KeyOf, RowOf, UploadOk, DeleteOk, Frame, IdsDiffer;
    FrameProcs(w, w', pid, p.id);
    if w.procs[q].Delete? {
      FrameDelete(s, w, w', pid, p.id, q);
    } else if w.procs[q].id != p.id {
      FrameUpload(s, w, w', pid, p.id, q);
    } else {
      SameIdSameUpload(w, q, u);
      EmptiedUpload(s, w, w', pid, q);
    }
  }

  lemma EmptiedProcs(s: Settings, w: World, w': World, pid: Pid, p: Proc, u: Pid)
    requires ProcsOk(s, w) && IdsDiffer(w) && p.Delete? && Emptied(w, w', pid, p, u) && Frame(w, w', pid, p.id)
    requires pid in w'.procs && ProcOk(s, w', pid) && w'.procs.Keys == w.procs.Keys
    ensures ProcsOk(s, w')
  {
    hide ProcOk, Emptied, Frame, IdsDiffer;
    forall q | q in w.procs && q != pid
      ensures ProcOk(s, w', q)
    {
      assert ProcOk(s, w, q);
      EmptiedOther(s, w, w', pid, p, u, q);
    }
  }

  /** From here on the step counts only as `Emptied`. */
  lemma EmptiedTables(s: Settings, w: World, w': World, pid: Pid, p: Proc, u: Pid)
    requires TablesOk(w) && p.Delete? && Emptied(w, w', pid, p, u) && Frame(w, w', pid, p.id)
    ensures TablesOk(w')
  {
    hide TablesOk, KnownRow, Known, Frame, LogOk, KeyOf, Used;
    UsedBy(w, u, p.id);
    TablesLog(w);
    SameLog(w, w');
    QuietTables(w, w', pid, p.id);
  }

  lemma EmptiedAll(s: Settings, w: World, w': World, pid: Pid, p: Proc, u: Pid)
    requires ProcsOk(s, w) && TablesOk(w) && p.Delete? && Emptied(w, w', pid, p, u) && DeleteOk(s, w, pid, p)
    ensures ProcsOk(s, w') && TablesOk(w')
  {
    EmptiedFrame(s, w, w', pid, p, u);
    EmptiedSelf(s, w, w', pid, p, u);
    TablesRows(w);
    hide ProcsOk, TablesOk, DeleteOk, UploadOk, Frame, KeyOf, IdsDiffer;
    assert ProcOk(s, w', pid);
    EmptiedProcs(s, w, w', pid, p, u);
    EmptiedTables(s, w, w', pid, p, u);
  }

  lemma RemoveObjectKeeps(s: Settings, w: World, pid: Pid, p: Proc, input: Input, w': World)
    requires Inv(s, w) && pid in w.procs && w.procs[pid] == p && p.Delete? && p.at.RemoveObject? && input.Go?
    requires TakeStep(s, w, pid, input) == Some(w')
    ensures ProcsOk(s, w') && TablesOk(w')
  {
    RemoveObjectEffect(s, w, pid, p, input, w');
    hide TakeStep, A.Inv, UploadOk, TablesOk, KnownRow, Known, KeyOf, RowOf, FromDrafts;
    assert ProcOk(s, w, pid);
    var u := RowUpload(s, w, p.at.row);
    EmptiedAll(s, w, w', pid, p, u);
  }

  lemma UsedBy(w: World, u: Pid, id: string)
    requires HasId(w, u, id)
    ensures Used(w, id)
  {
  }

  lemma KnownBy(w: World, u: Pid, id: string)
    requires AcceptedUpload(w, u, id)
    ensures Known(w, id)
  {
  }

  lemma SameIdSameUpload(w: World, q: Pid, u: Pid)
    requires IdsDiffer(w) && q in w.procs && u in w.procs && w.procs[q].Upload? && w.procs[u].Upload?
    requires w.procs[q].id == w.procs[u].id
    ensures q == u
  {
  }

  lemma RowRemovedEffect(s: Settings, w: World, pid: Pid, p: Proc, input: Input, w': World)
    requires pid in w.procs && w.procs[pid] == p && p.Delete? && p.at.CommitDeleted? && input.Go?
    requires TakeStep(s, w, pid, input) == Some(w')
    ensures RowRemoved(w, w', pid, p)
  {
    hide A.Step;
    CommitMoveEffect(s, w.(rows := w.rows - {p.id}), pid, p.(at := Left(Removed), removed := None), w');
  }

  /** The row of evidence `p.id` is gone and its DELETED event committed. */
  predicate RowRemoved(w: World, w': World, pid: Pid, p: Proc)
    requires p.Delete?
  {
    && pid in w.procs && w.procs[pid] == p && p.at.CommitDeleted? && OthersSame(w.db, w'.db, pid)
    && w' == w.(db := w'.db, rows := w.rows - {p.id}, procs := w.procs[pid := p.(at := Left(Removed), removed := None)])
    && w'.db.committed == w.db.committed + PendingOf(w, pid) && PendingOf(w', pid) == []
  }

  lemma RemovedLog(s: Settings, w: World, w': World, pid: Pid, p: Proc)
    requires p.Delete? && RowRemoved(w, w', pid, p) && DeleteOk(s, w, pid, p) && LogOk(w)
    ensures LogOk(w') && Frame(w, w', pid, p.id)
    ensures Types(w'.db.committed, p.id) == Types(w.db.committed, p.id) + [Deleted]
  {
    hide Types, Replay, Paired, KnownRow, Known, Frame, KeyOf;
    CommitOne(w.db.committed, PendingOf(w, pid), DeletedDraft(p, p.at.row), p.id);
    assert Digests(w'.rows) == Digests(w.rows) - {p.id};
    FrameOf(w, w', pid, w'.procs[pid], p.id);
  }

  lemma RemovedUpload(s: Settings, w: World, w': World, pid: Pid, p: Proc, u: Pid)
    requires p.Delete? && RowRemoved(w, w', pid, p) && AcceptedUpload(w, u, p.id) && p.id in w.emptied
    requires UploadOk(s, w, u, w.procs[u])
    requires Types(w'.db.committed, p.id) == Types(w.db.committed, p.id) + [Deleted]
    ensures UploadOk(s, w', u, w'.procs[u])
  {
    hide Types, FromDrafts, KeyOf, RowOf, NoSlash;
    PendingSame(w, w', pid);
  }

  lemma RemovedSelf(s: Settings, w: World, w': World, pid: Pid, p: Proc)
    requires p.Delete? && RowRemoved(w, w', pid, p) && DeleteOk(s, w, pid, p)
    ensures DeleteOk(s, w', pid, w'.procs[pid])
  {
    hide KnownRow, Known;
    AcceptedStays(s, w, w', pid);
  }

  lemma RemovedOther(s: Settings, w: World, w': World, pid: Pid, p: Proc, q: Pid)
    requires p.Delete? && RowRemoved(w, w', pid, p) && Frame(w, w', pid, p.id) && p.id in w.emptied
    requires Types(w'.db.committed, p.id) == Types(w.db.committed, p.id) + [Deleted]
    requires q in w.procs && q != pid && ProcOk(s, w, q) && IdsDiffer(w) && Known(w, p.id)
    ensures ProcOk(s, w', q)
  {
    hide KeyOf, RowOf, UploadOk, DeleteOk, Frame, IdsDiffer, Types;
    FrameProcs(w, w', pid, p.id);
    if w.procs[q].Delete? {
      FrameDelete(s, w, w', pid, p.id, q);
    } else if w.procs[q].id != p.id {
      FrameUpload(s, w, w', pid, p.id, q);
    } else {
      var u :| AcceptedUpload(w, u, p.id);
      SameIdSameUpload(w, q, u);
      RemovedUpload(s, w, w', pid, p, q);
    }
  }

  lemma KnownUsed(w: World, id: string)
    requires Known(w, id)
    ensures Used(w, id)
  {
    var u :| AcceptedUpload(w, u, id);
    assert HasId(w, u, id);
  }

  lemma RemoveRowKeeps(s: Settings, w: World, pid: Pid, p: Proc, input: Input, w': World)
    requires Inv(s, w) && pid in w.procs && w.procs[pid] == p && p.Delete? && p.at.CommitDeleted? && input.Go?
    requires TakeStep(s, w, pid, input) == Some(w')
    ensures ProcsOk(s, w') && TablesOk(w')
  {
    RowRemovedEffect(s, w, pid, p, input, w');
    hide TakeStep, A.Inv, UploadOk, TablesOk, KnownRow, Known, Frame, LogOk, KeyOf, RowOf, IdsDiffer, Types;
    assert ProcOk(s, w, pid);
    TablesRows(w);
    TablesLog(w);
    RemovedLog(s, w, w', pid, p);
    assert Used(w, p.id) by { KnownUsed(w, p.id); }
    RemovedSelf(s, w, w', pid, p);
    forall q | q in w.procs && q != pid
      ensures ProcOk(s, w', q)
    {
      assert ProcOk(s, w, q);
      RemovedOther(s, w, w', pid, p, q);
    }
    assert ProcOk(s, w', pid);
    QuietTables(w, w', pid, p.id);
  }

  // ----- every step -----

  lemma TakeKeeps(s: Settings, w: World, pid: Pid, input: Input, w': World)
    requires Inv(s, w) && TakeStep(s, w, pid, input) == Some(w')
    ensures ProcsOk(s, w') && TablesOk(w')
  {
    hide Inv, ProcsOk, TablesOk, UploadGo, UploadRaise, DeleteRaise;
    var p := w.procs[pid];
    if p.Upload? {
      UploadKeeps(s, w, pid, p, input, w');
    } else if input.Raise? || StillPc(p.at) {
      StillKeeps(s, w, pid, p, input, w');
    } else if p.at.RemoveObject? {
      RemoveObjectKeeps(s, w, pid, p, input, w');
    } else {
      RemoveRowKeeps(s, w, pid, p, input, w');
    }
  }

  lemma KnownStay(s: Settings, w: World, w': World)
    requires forall q <- w.procs :: q in w'.procs && w'.procs[q] == w.procs[q]
    ensures forall i: string :: Known(w, i) ==> Known(w', i)
    ensures forall row: Row :: KnownRow(s, w, row) ==> KnownRow(s, w', row)
    ensures forall i: string :: Used(w, i) ==> Used(w', i)
  {
    assert forall u, i :: AcceptedUpload(w, u, i) ==> AcceptedUpload(w', u, i);
    assert forall u, i :: HasId(w, u, i) ==> HasId(w', u, i);
    forall row: Row | KnownRow(s, w, row)
      ensures KnownRow(s, w', row)
    {
      var u :| AcceptedUpload(w, u, row.id) && RowOf(s, w.procs[u]) == row;
      assert AcceptedUpload(w', u, row.id) && RowOf(s, w'.procs[u]) == row;
    }
  }

  lemma StartOthers(s: Settings, w: World, w': World, pid: Pid, p: Proc)
    requires ProcsOk(s, w) && pid !in w.procs && w' == w.(procs := w.procs[pid := p])
    ensures forall q <- w.procs :: ProcOk(s, w', q)
  {
    hide FromDrafts, Types, KeyOf, RowOf, KnownRow, Known, NoSlash;
    KnownStay(s, w, w');
    forall q | q in w.procs
      ensures ProcOk(s, w', q)
    {
      assert ProcOk(s, w, q);
    }
  }

  lemma StartTables(s: Settings, w: World, w': World, pid: Pid, p: Proc)
    requires TablesOk(w) && pid !in w.procs && pid !in w.db.open && w' == w.(procs := w.procs[pid := p])
    requires p.Upload? ==> FreshId(w, p.id) && p.inserted.None?
    ensures TablesOk(w')
  {
    hide Types, KeyOf, Known, Used, Conflicts, CaseEvent, LogOk;
    KnownStay(s, w, w');
    forall k | k in w'.objects
      ensures exists u :: Owner(w', u, k)
    {
      var u :| Owner(w, u, k);
      assert Owner(w', u, k);
    }
    SameLog(w, w');
  }

  lemma FreshKey(s: Settings, w: World, p: Proc)
    requires ProcsOk(s, w) && ObjectsOwned(w) && p.Upload? && FreshId(w, p.id) && NoSlash(p.caseId) && NoSlash(p.id)
    ensures KeyOf(p) !in w.objects
  {
    hide ObjectOk, RowOk, TraceOk, PendingOk, DeleteOk;
    if KeyOf(p) in w.objects {
      var u :| Owner(w, u, KeyOf(p));
      var q := w.procs[u];
      assert ProcOk(s, w, u);
      ObjectKeyInjective(p.caseId, p.id, p.name, q.caseId, q.id, q.name);
    }
  }

  lemma StartKeeps(s: Settings, w: World, pid: Pid, p: Proc, w': World)
    requires Inv(s, w) && pid !in w.procs && pid !in w.db.open && w' == w.(procs := w.procs[pid := p])
    requires match p
             case Upload(_, _, _, _, _, _, pc, stored, hashed, inserted) =>
               FreshId(w, p.id) && NoSlash(p.caseId) && NoSlash(p.id) && NoSlash(p.name)
               && pc.AppendStarted? && !stored && !hashed && inserted.None?
             case Delete(_, _, at, removed) => at.Lookup? && removed.None?
    ensures ProcsOk(s, w') && TablesOk(w')
  {
    hide A.Inv, KeyOf, Types, NoSlash;
    StartOthers(s, w, w', pid, p);
    StartTables(s, w, w', pid, p);
    if p.Upload? {
      FreshKey(s, w, p);
      assert !Used(w, p.id) && !Known(w, p.id);
      assert UploadOk(s, w', pid, p);
    }
    assert ProcOk(s, w', pid);
  }

  // ----- transactions of other services -----

  lemma BackgroundLog(s: Settings, w: World, l: A.Label, w': World)
    requires TablesOk(w) && l.tx !in w.procs && AboutCases(l)
    requires A.Step(s.audit, w.db, l) == Some(w'.db) && w' == w.(db := w'.db)
    ensures LogOk(w') && OthersSame(w.db, w'.db, l.tx)
    ensures forall id: string :: Types(w'.db.committed, id) == Types(w.db.committed, id)
    ensures BackgroundOk(w')
  {
    hide A.Step, Types, Replay, Paired;
    AuditEffect(s.audit, w.db, l, w'.db);
    if l.Commit? {
      forall id: string
        ensures Types(w'.db.committed, id) == Types(w.db.committed, id)
      {
        CommitCaseEvents(w.db.committed, PendingOf(w, l.tx), id);
      }
      CommitCaseEvents(w.db.committed, PendingOf(w, l.tx), "");
    }
    forall t | t in w'.db.open && t !in w'.procs
      ensures forall e <- w'.db.open[t].pending :: CaseEvent(e)
    {
      assert t != l.tx ==> t in w.db.open.Keys - {l.tx};
    }
  }

  lemma BackgroundKeeps(s: Settings, w: World, l: A.Label, w': World)
    requires Inv(s, w) && l.tx !in w.procs && AboutCases(l)
    requires A.Step(s.audit, w.db, l) == Some(w'.db) && w' == w.(db := w'.db)
    ensures ProcsOk(s, w') && TablesOk(w')
  {
    hide A.Step, A.Inv, TablesOk, ProcOk;
    BackgroundLog(s, w, l, w');
    forall q | q in w'.procs
      ensures ProcOk(s, w', q)
    {
      assert ProcOk(s, w, q);
      BackgroundProc(s, w, w', l.tx, q);
    }
    BackgroundTables(s, w, l, w');
  }

  lemma BackgroundProc(s: Settings, w: World, w': World, t: A.Tx, q: Pid)
    requires t !in w.procs && w' == w.(db := w'.db) && OthersSame(w.db, w'.db, t)
    requires forall id: string :: Types(w'.db.committed, id) == Types(w.db.committed, id)
    requires q in w.procs && ProcOk(s, w, q)
    ensures ProcOk(s, w', q)
  {
    hide Types, KeyOf, RowOf, FromDrafts, NoSlash, AcceptedUpload, KnownRow, Known;
    PendingSame(w, w', t);
    KnownStay(s, w, w');
  }

  lemma BackgroundTables(s: Settings, w: World, l: A.Label, w': World)
    requires TablesOk(w) && w' == w.(db := w'.db) && LogOk(w') && BackgroundOk(w')
    requires forall id: string :: Types(w'.db.committed, id) == Types(w.db.committed, id)
    ensures TablesOk(w')
  {
    hide Types, KeyOf, LogOk, BackgroundOk, Conflicts;
    KnownStay(s, w, w');
    forall k | k in w'.objects
      ensures exists u :: Owner(w', u, k)
    {
      var u :| Owner(w, u, k);
      assert Owner(w', u, k);
    }
  }
}
