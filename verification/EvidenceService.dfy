/** The evidence service in the source's own control flow: flags, early errors, a
    handler that compensates, and other processes running at every awaited call.
    What it does to database and object store is a run of the saga. */
module EvidenceService {
  import opened Wrappers
  import opened Text
  import opened Time
  import opened Utf8
  import Json
  import opened Events
  import opened ObjectKeys
  import opened Saga
  import opened SagaInvariant
  import opened SagaProof
  import opened SagaRun
  import opened SagaTurns
  import opened SagaOrphans
  import opened SagaRefusals
  import opened SagaEvents
  import FV = FileValidation
  import H = Hashing
  import A = AuditRun
  import T = AuditTable
  import C = Chain

  /** What happens around one awaited call: other processes run, then it returns or raises. */
  datatype Answer = Answer(others: seq<Label>, reply: Input)

  /** How a statement ends; `Waiting`: it has not returned yet. */
  datatype Reply = Done | Raised(error: Error) | Waiting

  datatype UploadResult = Invalid(problem: FV.Problem) | Pending | Returned(outcome: Saga.Outcome)

  const PIECE := 1024 * 1024

  /** The transaction holds one more event, which records the draft part by part, links to
      `previous`, and carries the hash of its own content behind that link. */
  predicate Added(s: Settings, draft: Draft, previous: Option<string>, before: seq<Event>, after: seq<Event>) {
    && |after| == |before| + 1 && after[..|before|] == before
    && FromDraft(after[|before|], draft) && C.LinkOk(s.audit.sha, previous, after[|before|])
  }

  /** The same, with whatever link the latest event called for. */
  predicate Extended(s: Settings, draft: Draft, before: seq<Event>, after: seq<Event>) {
    |after| == |before| + 1 && Added(s, draft, after[|before|].previousHash, before, after)
  }

  lemma AddedExtends(s: Settings, draft: Draft, previous: Option<string>, before: seq<Event>, after: seq<Event>)
    ensures Added(s, draft, previous, before, after) ==> Extended(s, draft, before, after)
  {
  }

  predicate EndsWith(xs: seq<Event>, ys: seq<Event>) { |ys| <= |xs| && xs[|xs| - |ys|..] == ys }

  // ----- what a caller can tell from the answers -----

  function ReplyAt(answers: seq<Answer>, turn: nat): Option<Input> {
    if turn < |answers| then Some(answers[turn].reply) else None
  }

  /** The last answer given. */
  function Given(answers: seq<Answer>, turn: nat): Option<Input> {
    if turn == 0 then None else ReplyAt(answers, turn - 1)
  }

  /** The newest event has the id and the time of the last answer given. */
  predicate Stamped(answers: seq<Answer>, turn: nat, xs: seq<Event>) {
    xs != [] && Given(answers, turn) == Some(Go(xs[|xs| - 1].id, xs[|xs| - 1].createdAt))
  }

  function NextTurn(answers: seq<Answer>, turn: nat): nat { if turn < |answers| then turn + 1 else turn }

  /** How one awaited call ends: a raise is passed on, a return goes through when
      nothing holds it up, and without an answer it is still waiting. */
  function EndOf(answers: seq<Answer>, turn: nat, open: bool): Reply {
    match ReplyAt(answers, turn)
    case None => Waiting
    case Some(Raise(error)) => Raised(error)
    case Some(Go(_, _)) => if open then Done else Waiting
  }

  /** The answers have run out within `most` calls. */
  predicate Starved(answers: seq<Answer>, before: nat, turn: nat, most: nat) {
    turn >= |answers| && |answers| < before + most
  }

  /** One of the calls since `before` has raised `error`. */
  predicate RaisedSince(answers: seq<Answer>, before: nat, turn: nat, error: Error) {
    exists i: nat | before <= i < turn && i < |answers| :: answers[i].reply.Raise? && answers[i].reply.error == error
  }

  predicate AnyRaised(answers: seq<Answer>, before: nat, turn: nat) {
    exists i: nat | before <= i < turn && i < |answers| :: answers[i].reply.Raise?
  }

  /** The event can be inserted: its id is new, and it follows every event of its case
      that the transaction sees. */
  predicate Insertable(db: A.Db, pid: Pid, draft: Draft, input: Input) {
    && input.Go? && input.eventId !in db.fates && Json.WellFormedMembers(draft.metadata) && input.now.Valid()
    && forall x <- A.Visible(db, pid) :: x.caseId == Some(draft.caseId) ==>
         Earlier(x.createdAt, input.now) || (x.createdAt == input.now && Precedes(x.id, input.eventId))
  }

  /** Another transaction holds the lock. */
  predicate LockedElsewhere(db: A.Db, pid: Pid, key: int) {
    exists u <- db.open :: u != pid && key in db.open[u].locks
  }

  /** Another upload has inserted a row of this case and digest, uncommitted. */
  predicate InsertedElsewhere(procs: map<Pid, Proc>, pid: Pid, c: string, digest: string) {
    exists q <- procs :: q != pid && procs[q].Upload? && procs[q].inserted.Some?
                         && procs[q].inserted.value.caseId == c && procs[q].inserted.value.sha256 == digest
  }

  /** Another delete has removed the row, uncommitted. */
  predicate RemovedElsewhere(procs: map<Pid, Proc>, pid: Pid, id: string) {
    exists q <- procs :: q != pid && procs[q].Delete? && procs[q].removed == Some(id)
  }

  lemma LockFreeIff(db: A.Db, pid: Pid, key: int)
    ensures A.LockFree(db, pid, key) <==> !LockedElsewhere(db, pid, key)
  {
  }

  lemma NoConflictIff(w: World, pid: Pid, row: Row)
    ensures NoConflict(w, pid, row) <==>
              !Taken(w.rows, row.caseId, row.sha256) && !InsertedElsewhere(w.procs, pid, row.caseId, row.sha256)
  {
    TakenConflicts(w.rows, row);
    if InsertedElsewhere(w.procs, pid, row.caseId, row.sha256) {
      var q :| q in w.procs && q != pid && w.procs[q].Upload? && w.procs[q].inserted.Some?
               && w.procs[q].inserted.value.caseId == row.caseId && w.procs[q].inserted.value.sha256 == row.sha256;
      assert Conflicts(w.procs[q].inserted.value, row);
    }
  }

  lemma RowFreeIff(w: World, pid: Pid, id: string)
    ensures RowFree(w, pid, id) <==> !RemovedElsewhere(w.procs, pid, id)
  {
  }

  /** What the insert waits for, in a state that the service can reach. */
  lemma {:induction false} InsertableIff(s: Settings, log: seq<Label>, pid: Pid, draft: Draft, e: Event, input: Input)
    requires input == Go(e.id, e.createdAt) && FromDraft(e, draft)
    ensures var db := Run(s, EMPTY, log).db;
            Insertable(db, pid, draft, input) <==>
              e.id !in db.fates && Storable(e) && A.ClockAdvanced(db, pid, e, draft.caseId)
  {
    hide Step, Run, ProcsOk, TablesOk, A.LocksOk, A.LinksFresh, A.FatesOk, A.Visible, T.CaseEvents, T.Before, T.List,
         Earlier, Precedes, C.ChainOk;
    var w := Run(s, EMPTY, log);
    LogReaches(s, log);
    ReachableOk(s, w);
    var xs := T.CaseEvents(A.Visible(w.db, pid), draft.caseId);
    assert A.Sees(s.audit, w.db, pid, draft.caseId);
    A.HealthyIsListed(s.audit, A.Visible(w.db, pid), draft.caseId);
    T.CaseEventsAreRows(A.Visible(w.db, pid), draft.caseId);
    if Storable(e) { T.PastLatest(xs, e); }
  }

  function DraftOf(s: Settings, p: Proc): Option<Draft> {
    match p
    case Upload(_, _, _, _, _, _, pc, _, _, _) => if AppendPc(pc) then Some(AppendDraft(s, p)) else None
    case Delete(_, _, at, _) => if at.AppendDeleted? then Some(DeletedDraft(p, at.row)) else None
  }

  /** The append is held up by another transaction's lock, or by the clock or the id it was given. */
  predicate AppendHeld(s: Settings, db: A.Db, pid: Pid, draft: Draft, given: Option<Input>) {
    match A.TxnOf(db, pid).phase
    case Idle => LockedElsewhere(db, pid, s.audit.lockOf(draft.caseId))
    case Locked(_) => false
    case Linked(_, _) => given.Some? && given.value.Go? && !Insertable(db, pid, draft, given.value)
  }

  /** The statement that process `pid` stands at is held up: an append, an insert of a
      row that conflicts with an uncommitted one, or the removal of a row that another
      transaction has removed. */
  predicate Held(s: Settings, w: World, pid: Pid, given: Option<Input>) {
    pid in w.procs &&
    var p := w.procs[pid];
    || (DraftOf(s, p).Some? && AppendHeld(s, w.db, pid, DraftOf(s, p).value, given))
    || (p.Upload? && p.pc.Create? && InsertedElsewhere(w.procs, pid, p.caseId, s.audit.sha(p.content)))
    || (p.Delete? && p.at.RemoveRow? && RemovedElsewhere(w.procs, pid, p.id))
  }

  /** The newest event of the transaction is not visible to others. */
  predicate Unseen(db: A.Db, pid: Pid) {
    var xs := A.TxnOf(db, pid).pending;
    xs != [] && forall e <- db.committed :: e.id != xs[|xs| - 1].id
  }

  lemma {:induction false} NewIdUnseen(s: Settings, log: seq<Label>, id: string)
    ensures var db := Run(s, EMPTY, log).db; id !in db.fates ==> forall e <- db.committed :: e.id != id
  {
    hide Step, A.LocksOk, A.ChainsOk, A.LinksFresh, ProcsOk, TablesOk;
    LogReaches(s, log);
    ReachableOk(s, Run(s, EMPTY, log));
  }

  /** What a transaction reads as the latest hash is the hash of the latest event that it sees. */
  lemma {:induction false} LatestSeen(s: Settings, log: seq<Label>, pid: Pid, c: string)
    ensures var xs := A.Visible(Run(s, EMPTY, log).db, pid); T.LatestIn(xs, c, T.LatestHash(xs, c))
  {
    hide Step, Run, ProcsOk, TablesOk, A.LocksOk, A.LinksFresh, A.FatesOk, A.Visible, T.LatestIn, T.LatestHash,
         T.CaseEvents;
    var w := Run(s, EMPTY, log);
    LogReaches(s, log);
    ReachableOk(s, w);
    assert A.Sees(s.audit, w.db, pid, c);
    T.LatestIs(A.Visible(w.db, pid), c);
  }

  lemma LockStays(db: A.Db, pid: Pid, key: int, txn: A.Txn)
    requires A.LockFree(db, pid, key)
    ensures A.LockFree(db.(open := db.open[pid := txn]), pid, key)
  {
  }

  /** A row of case `c` has this digest. */
  predicate Taken(rows: map<string, Row>, c: string, digest: string) {
    exists id <- rows :: rows[id].caseId == c && rows[id].sha256 == digest
  }

  lemma TakenConflicts(rows: map<string, Row>, row: Row)
    ensures Taken(rows, row.caseId, row.sha256) <==> exists id <- rows :: Conflicts(rows[id], row)
  {
    if Taken(rows, row.caseId, row.sha256) {
      var id :| id in rows && rows[id].caseId == row.caseId && rows[id].sha256 == row.sha256;
      assert Conflicts(rows[id], row);
    }
    if id :| id in rows && Conflicts(rows[id], row) {
      assert rows[id].caseId == row.caseId && rows[id].sha256 == row.sha256;
    }
  }

  /** The committed log ends with the STORED and the CREATED event of upload `p`. */
  predicate CreationLogged(s: Settings, log: seq<Event>, p: Proc)
    requires p.Upload?
  {
    |log| >= 2 && FromDraft(log[|log| - 2], StoredDraft(p)) && FromDraft(log[|log| - 1], CreatedDraft(s, p))
  }

  /** A row with this digest shows in the log of its case. */
  lemma {:induction false} TakenIsLogged(s: Settings, log: seq<Label>, c: string, digest: string)
    requires Taken(Run(s, EMPTY, log).rows, c, digest)
    ensures Logged(Run(s, EMPTY, log).db.committed, c, digest)
  {
    hide Run, Logged, KeyOf;
    var w := Run(s, EMPTY, log);
    RunTruthful(s, log);
    LogReaches(s, log);
    ReachableOk(s, w);
    var id :| id in w.rows && w.rows[id].caseId == c && w.rows[id].sha256 == digest;
    RowIsLogged(s, w, id);
  }

  lemma RowIsLogged(s: Settings, w: World, id: string)
    requires Inv(s, w) && AllTruthful(s, w) && id in w.rows
    ensures Logged(w.db.committed, w.rows[id].caseId, w.rows[id].sha256)
  {
    hide A.Inv, ProcsOk, Logged, KeyOf;
    RowIsKnown(s, w, id);
    var v := RowUpload(s, w, w.rows[id]);
    assert Truthful(s, w, w.procs[v]);
  }

  lemma SameCreation(s: Settings, log: seq<Event>, p: Proc, q: Proc)
    requires p.Upload? && q.Upload? && SameUpload(p, q)
    ensures CreationLogged(s, log, p) <==> CreationLogged(s, log, q)
  {
    hide ObjectKey;
  }

  lemma PairLogged(s: Settings, p: Proc, first: seq<Event>, both: seq<Event>, log: seq<Event>)
    requires p.Upload? && Extended(s, StoredDraft(p), [], first) && Extended(s, CreatedDraft(s, p), first, both)
    requires EndsWith(log, both)
    ensures CreationLogged(s, log, p)
  {
    hide EventHash, KeyOf;
    assert first == both[..1] && log[|log| - 2] == both[0] == first[0] && log[|log| - 1] == both[1];
  }

  /** Every event about the id of upload `p` says what an upload like `p`, so ended, records. */
  predicate Logs(s: Settings, log: seq<Event>, p: Proc)
    requires p.Upload?
  {
    forall e <- log :: About(e, p.id) ==> Recorded(s, p, e)
  }

  lemma {:induction false} LogsWhenFinished(s: Settings, log: seq<Label>, pid: Pid, p: Proc)
    requires var w := Run(s, EMPTY, log); pid in w.procs && w.procs[pid].Upload? && w.procs[pid].pc.Finished?
    requires p.Upload? && SameUpload(p, Run(s, EMPTY, log).procs[pid]) && p.pc == Run(s, EMPTY, log).procs[pid].pc
    ensures Logs(s, Run(s, EMPTY, log).db.committed, p)
  {
    hide Run, Recorded;
    var w := Run(s, EMPTY, log);
    LogReaches(s, log);
    forall e | e in w.db.committed && About(e, p.id) ensures Recorded(s, p, e) {
      UploadEventsExplained(s, w, pid, e);
      RecordStays(s, w.procs[pid], p, e);
    }
  }

  /** The committed log ends with the deletion of evidence `id`, which nobody signs. */
  predicate DeletionLogged(log: seq<Event>, c: string, id: string) {
    log != [] &&
    var e := log[|log| - 1];
    && e.eventType == Deleted && e.caseId == Some(c) && e.resourceType == "evidence" && e.resourceId == Some(id)
    && e.operation == "delete" && e.actorId == None
  }

  lemma DeletionEnds(s: Settings, p: Proc, row: Row, before: seq<Event>, after: seq<Event>, log: seq<Event>)
    requires Extended(s, DeletedDraft(p, row), before, after) && EndsWith(log, after)
    ensures DeletionLogged(log, p.caseId, p.id)
  {
    hide EventHash;
    assert log[|log| - 1] == log[|log| - |after|..][|after| - 1] == after[|after| - 1];
  }

  lemma InsertStays(w: World, pid: Pid, row: Row, next: Proc)
    requires pid in w.procs && NoConflict(w, pid, row)
    ensures NoConflict(w.(procs := w.procs[pid := next]), pid, row)
  {
    hide Conflicts;
  }

  /** What the service's own size check says. */
  function SizeProblem(maxSize: nat, size: nat): Option<Error> {
    match FV.ValidateSize(maxSize, size)
    case Some(EmptyFile) => Some(Empty)
    case Some(FileTooLarge) => Some(TooLarge)
    case _ => None
  }

  lemma AppendIsHeld(s: Settings, w: World, pid: Pid, draft: Draft, next: Proc, given: Option<Input>)
    requires pid in w.procs && Appends(s, w.procs[pid], draft, next) && AppendHeld(s, w.db, pid, draft, given)
    ensures Held(s, w, pid, given)
  {
    hide AppendHeld;
  }

  lemma AppendsCanFail(s: Settings, p: Proc, draft: Draft, next: Proc)
    requires Appends(s, p, draft, next)
    ensures CanFail(p)
  {
  }

  lemma CommitsCanFail(p: Proc, next: Proc)
    requires Commits(p, next)
    ensures CanFail(p)
  {
  }

  /** An object of an upload that is not accepted has not been taken by a delete. */
  lemma {:induction false} NotEmptied(s: Settings, log: seq<Label>, pid: Pid)
    requires var w := Run(s, EMPTY, log); pid in w.procs && w.procs[pid].Upload? && !IsAccepted(w.procs[pid].pc)
    ensures var w := Run(s, EMPTY, log); w.procs[pid].id !in w.emptied
  {
    hide Step, A.Inv, FlagsOk, RowOk, TraceOk, PendingOk, KeyOf;
    var w := Run(s, EMPTY, log);
    assert Reachable(s, w);
    ReachableOk(s, w);
    assert ProcOk(s, w, pid);
  }

  class EvidenceService {
    const s: Settings
    const validator: FV.Validator
    const unicode: FV.Unicode
    const answers: seq<Answer>

    var db: A.Db
    var rows: map<string, Row>
    var objects: map<string, seq<Byte>>
    var procs: map<Pid, Proc>
    var strays: set<string>
    var escaped: set<string>
    var emptied: set<string>
    var temps: map<Pid, seq<Byte>>
    var turn: nat
    ghost var log: seq<Label>

    function W(): World
      reads this
    {
      World(db, rows, objects, procs, strays, escaped, emptied)
    }

    /** The state is what the logged steps of all processes lead to. */
    ghost predicate Valid()
      reads this
    {
      W() == Run(s, EMPTY, log)
    }

    /** Why a call of process `pid` has not returned: of the answers since `before` fewer
        were left than it needs, or its statement is held up. */
    predicate Stuck(pid: Pid, before: nat, most: nat)
      reads this
    {
      Starved(answers, before, turn, most) || Held(s, W(), pid, Given(answers, turn))
    }

    /** Why an attempt raises: a call has, the size does not fit, or the digest is taken. */
    predicate Cause(before: nat, c: string, content: seq<Byte>, error: Error)
      reads this
    {
      || RaisedSince(answers, before, turn, error)
      || SizeProblem(s.maxSize, |content|) == Some(error)
      || ((error.Duplicate? || error.Integrity?) && Taken(rows, c, s.audit.sha(content)))
    }

    /** The same at any later time: that the digest was taken shows in the case's log. */
    predicate Reason(before: nat, c: string, content: seq<Byte>, error: Error)
      reads this
    {
      || RaisedSince(answers, before, turn, error)
      || SizeProblem(s.maxSize, |content|) == Some(error)
      || ((error.Duplicate? || error.Integrity?) && Logged(db.committed, c, s.audit.sha(content)))
    }

    /** An upload ends without a row only for a reason, and unrecorded only if a call has raised. */
    predicate Justified(before: nat, c: string, content: seq<Byte>, outcome: Outcome)
      reads this
    {
      match outcome
      case Accepted => true
      case NotStarted => AnyRaised(answers, before, turn)
      case Rejected(error, recorded) =>
        Reason(before, c, content, error) && (recorded || AnyRaised(answers, before, turn))
      case Escaped(error) => Reason(before, c, content, error) && AnyRaised(answers, before, turn)
    }

    /** Process `pid` is between two appends. */
    predicate Quiet(pid: Pid)
      reads this
    {
      pid in procs && A.TxnOf(db, pid).phase.Idle?
    }

    constructor (s: Settings, validator: FV.Validator, unicode: FV.Unicode, answers: seq<Answer>)
      ensures Valid() && this.s == s && this.validator == validator && this.unicode == unicode
      ensures this.answers == answers
    {
      this.s, this.validator, this.unicode, this.answers := s, validator, unicode, answers;
      db, rows, objects, procs, strays, escaped, emptied := A.EMPTY, map[], map[], map[], {}, {}, {};
      temps, turn, log := map[], 0, [];
    }

    ghost method Record(before: World, l: Label)
      requires before == Run(s, EMPTY, log) && Step(s, before, l) == Some(W())
      modifies this`log
      ensures Valid() && log == old(log) + [l]
    {
      hide Step;
      RunSnoc(s, log, l);
      log := log + [l];
    }

    /** A step of another process, if it is enabled. */
    method Turn(pid: Pid, l: Label)
      requires Valid() && pid in procs && !Owns(l, pid)
      modifies this
      ensures Valid() && old(log) <= log && temps == old(temps) && turn == old(turn)
      ensures Untouched(old(W()), W(), pid)
    {
      hide Step, Run, A.TxnOf;
      var next := Step(s, W(), l);
      if next.Some? {
        ghost var before := W();
        OthersLeaveAlone(s, before, l, next.value, pid);
        var w := next.value;
        db, rows, objects, procs := w.db, w.rows, w.objects, w.procs;
        strays, escaped, emptied := w.strays, w.escaped, w.emptied;
        Record(before, l);
      }
    }

    /** Others run until the awaited call gets its answer. */
    method Await(pid: Pid) returns (reply: Option<Input>)
      requires Valid() && pid in procs
      modifies this
      ensures Valid() && old(log) <= log && temps == old(temps)
      ensures turn == NextTurn(answers, old(turn)) && reply == ReplyAt(answers, old(turn))
      ensures Untouched(old(W()), W(), pid)
    {
      hide Step, Run, A.TxnOf;
      if turn >= |answers| { return None; }
      var answer := answers[turn];
      turn := turn + 1;
      for i := 0 to |answer.others|
        invariant Valid() && old(log) <= log && temps == old(temps) && turn == old(turn) + 1
        invariant Untouched(old(W()), W(), pid)
      {
        if !Owns(answer.others[i], pid) { Turn(pid, answer.others[i]); }
      }
      reply := Some(answer.reply);
    }

    /** A call of process `pid` raises. */
    method Fail(pid: Pid, error: Fault)
      requires Valid() && pid in procs && CanFail(procs[pid])
      modifies this`procs, this`log
      ensures Valid() && old(log) <= log && pid in procs && procs[pid] == Failed(old(procs[pid]), error)
    {
      hide Step;
      ghost var before := W();
      FailTakes(s, before, pid, error);
      procs := procs[pid := Failed(procs[pid], error)];
      Record(before, Take(pid, Raise(error)));
    }

    // ----- the audit log -----

    /** `append`: lock the case's chain, read its latest event, insert the next one. */
    method Append(pid: Pid, draft: Draft, next: Proc) returns (r: Reply)
      requires Valid() && Quiet(pid) && Appends(s, procs[pid], draft, next)
      modifies this
      ensures Valid() && old(log) <= log && temps == old(temps) && pid in procs
      ensures old(turn) <= turn <= old(turn) + 3
      ensures r.Waiting? ==> Stuck(pid, old(turn), 3)
      ensures r.Raised? ==> RaisedSince(answers, old(turn), turn, r.error)
      ensures r.Done? ==> Unseen(db, pid)
      ensures r.Done? ==> procs[pid] == next && Quiet(pid)
      ensures r.Done? ==> Extended(s, draft, old(A.TxnOf(db, pid).pending), A.TxnOf(db, pid).pending)
      ensures r.Done? ==> Stamped(answers, turn, A.TxnOf(db, pid).pending)
      ensures r.Raised? ==> CanFail(old(procs[pid])) && procs[pid] == Failed(old(procs[pid]), r.error)
    {
      hide Step, Run, Appends, Held, A.LockFree, LockedElsewhere, Insertable, T.LatestHash, T.LatestIn, Added, Extended,
           Unseen, Failed, CanFail, A.Visible, Stamped;
      AppendsCanFail(s, procs[pid], draft, next);
      r := Lock(pid, draft, next);
      if !r.Done? {
        if turn == old(turn) + 1 && r.Waiting? { AppendIsHeld(s, W(), pid, draft, next, Given(answers, turn)); }
        return;
      }
      var previous: Option<string>;
      r, previous := Latest(pid, draft, next);
      if !r.Done? { return; }
      ghost var before := turn;
      r := Insert(pid, draft, next, previous);
      if turn == before + 1 && r.Waiting? { AppendIsHeld(s, W(), pid, draft, next, Given(answers, turn)); }
      AddedExtends(s, draft, previous, old(A.TxnOf(db, pid).pending), A.TxnOf(db, pid).pending);
    }

    method Lock(pid: Pid, draft: Draft, ghost next: Proc) returns (r: Reply)
      requires Valid() && Quiet(pid) && Appends(s, procs[pid], draft, next) && CanFail(procs[pid])
      modifies this
      ensures Valid() && old(log) <= log && temps == old(temps) && pid in procs
      ensures turn == NextTurn(answers, old(turn))
      ensures r == EndOf(answers, old(turn), !LockedElsewhere(db, pid, s.audit.lockOf(draft.caseId)))
      ensures r.Waiting? ==> procs[pid] == old(procs[pid]) && A.TxnOf(db, pid) == old(A.TxnOf(db, pid))
      ensures r.Done? ==> procs[pid] == old(procs[pid]) && A.TxnOf(db, pid).phase == A.Locked(draft.caseId)
      ensures r.Done? ==> A.TxnOf(db, pid).pending == old(A.TxnOf(db, pid).pending)
      ensures r.Done? ==> s.audit.lockOf(draft.caseId) in A.TxnOf(db, pid).locks
      ensures r.Raised? ==> procs[pid] == Failed(old(procs[pid]), r.error)
    {
      hide Step, Run, Appends, Failed, A.LockFree, LockedElsewhere;
      var reply := Await(pid);
      if reply.None? { return Waiting; }
      if reply.value.Raise? {
        Fail(pid, reply.value.error);
        return Raised(reply.value.error);
      }
      var key := s.audit.lockOf(draft.caseId);
      LockFreeIff(db, pid, key);
      if !A.LockFree(db, pid, key) { return Waiting; }
      ghost var before := W();
      LockTakes(s, before, pid, draft, next, reply.value);
      LockStays(db, pid, key, TxnLocked(A.TxnOf(db, pid), key, draft.caseId));
      var txn := A.TxnOf(db, pid);
      db := db.(open := db.open[pid := txn.(locks := txn.locks + {key}, phase := A.Locked(draft.caseId))]);
      LockFreeIff(db, pid, key);
      Record(before, Take(pid, reply.value));
      r := Done;
    }

    method Latest(pid: Pid, draft: Draft, ghost next: Proc) returns (r: Reply, previous: Option<string>)
      requires Valid() && pid in procs && Appends(s, procs[pid], draft, next) && CanFail(procs[pid])
      requires A.TxnOf(db, pid).phase == A.Locked(draft.caseId)
      modifies this
      ensures Valid() && old(log) <= log && temps == old(temps) && pid in procs
      ensures turn == NextTurn(answers, old(turn)) && r == EndOf(answers, old(turn), true)
      ensures r.Done? ==> procs[pid] == old(procs[pid]) && A.TxnOf(db, pid).phase == A.Linked(draft.caseId, previous)
      ensures r.Done? ==> T.LatestIn(A.Visible(db, pid), draft.caseId, previous)
      ensures r.Done? ==> A.TxnOf(db, pid).pending == old(A.TxnOf(db, pid).pending)
      ensures r.Raised? ==> procs[pid] == Failed(old(procs[pid]), r.error)
    {
      hide Step, Run, Appends, T.LatestHash, T.LatestIn, Failed;
      previous := None;
      var reply := Await(pid);
      if reply.None? { return Waiting, None; }
      if reply.value.Raise? {
        Fail(pid, reply.value.error);
        return Raised(reply.value.error), None;
      }
      previous := T.LatestHash(A.Visible(db, pid), draft.caseId);
      LatestSeen(s, log, pid, draft.caseId);
      ghost var before := W();
      ReadTakes(s, before, pid, draft, next, reply.value);
      db := db.(open := db.open[pid := A.TxnOf(db, pid).(phase := A.Linked(draft.caseId, previous))]);
      Record(before, Take(pid, reply.value));
      r := Done;
    }

    /** Builds the event, computes its hash last, and adds it. */
    method Insert(pid: Pid, draft: Draft, next: Proc, previous: Option<string>) returns (r: Reply)
      requires Valid() && pid in procs && Appends(s, procs[pid], draft, next) && CanFail(procs[pid])
      requires A.TxnOf(db, pid).phase == A.Linked(draft.caseId, previous)
      modifies this
      ensures Valid() && old(log) <= log && temps == old(temps) && pid in procs
      ensures turn == NextTurn(answers, old(turn))
      ensures match EndOf(answers, old(turn), true)
              case Waiting => r.Waiting?
              case Raised(error) => r == Raised(error)
              case Done => r.Done? || (r.Waiting? && !Insertable(db, pid, draft, answers[old(turn)].reply))
      ensures r.Waiting? ==> procs[pid] == old(procs[pid]) && A.TxnOf(db, pid) == old(A.TxnOf(db, pid))
      ensures r.Done? ==> Unseen(db, pid)
      ensures r.Done? ==> procs[pid] == next && Quiet(pid)
      ensures r.Done? ==> Added(s, draft, previous, old(A.TxnOf(db, pid).pending), A.TxnOf(db, pid).pending)
      ensures r.Done? ==> Stamped(answers, turn, A.TxnOf(db, pid).pending)
      ensures r.Raised? ==> procs[pid] == Failed(old(procs[pid]), r.error)
    {
      hide Step, Run, Appends, A.ClockAdvanced, Storable, EventHash, Failed, Insertable;
      var reply := Await(pid);
      if reply.None? { return Waiting; }
      if reply.value.Raise? {
        Fail(pid, reply.value.error);
        return Raised(reply.value.error);
      }
      var event := Event(reply.value.eventId, Some(draft.caseId), draft.eventType, draft.actorId, draft.resourceType,
                         draft.resourceId, draft.operation, draft.inputHash, draft.outputHash, draft.metadata, previous,
                         "", reply.value.now);
      event := event.(eventHash := EventHash(s.audit.sha, previous, event));
      InsertableIff(s, log, pid, draft, event, reply.value);
      if event.id in db.fates || !Storable(event) || !A.ClockAdvanced(db, pid, event, draft.caseId) { return Waiting; }
      NewIdUnseen(s, log, event.id);
      T.NewEventLinks(s.audit.sha, draft, previous, event.id, event.createdAt);
      ghost var before := W();
      InsertTakes(s, before, pid, draft, next, reply.value, previous, event);
      var txn := A.TxnOf(db, pid);
      db := db.(open := db.open[pid := txn.(pending := txn.pending + [event], phase := A.Idle)],
                fates := db.fates[event.id := A.Pending(pid)]);
      procs := procs[pid := next];
      Record(before, Take(pid, reply.value));
      r := Done;
    }

    /** `verify`: whatever has run, it finds the chain of every case valid. */
    method Verify(caseId: string) returns (v: C.Verdict)
      requires Valid()
      ensures v == C.Verdict(true, |T.CaseEvents(db.committed, caseId)|, None)
    {
      hide Run, C.ChainOk, T.List, T.CaseEvents;
      EverySagaVerifies(s, log, caseId);
      v := C.Verify(s.audit.sha, T.List(db.committed, caseId));
    }

    // ----- the session -----

    /** Commits the events and row changes of the process's transaction. */
    method Commit(pid: Pid, next: Proc) returns (r: Reply)
      requires Valid() && Quiet(pid) && Commits(procs[pid], next)
      modifies this
      ensures Valid() && old(log) <= log && temps == old(temps) && pid in procs
      ensures turn == NextTurn(answers, old(turn)) && r == EndOf(answers, old(turn), true)
      ensures r.Done? ==> procs[pid] == next && Quiet(pid)
      ensures var p := old(procs[pid]);
              && (r.Done? && p.Upload? ==> p.id !in emptied)
              && (r.Done? && p.Upload? && p.inserted.Some? ==> p.id in rows && rows[p.id] == p.inserted.value)
              && (r.Done? && p.Delete? ==> p.id !in rows)
      ensures r.Done? ==> EndsWith(db.committed, old(A.TxnOf(db, pid).pending)) && A.TxnOf(db, pid).pending == []
      ensures r.Raised? ==> CanFail(old(procs[pid])) && procs[pid] == Failed(old(procs[pid]), r.error)
    {
      hide Step, Run, A.Settle, KeyOf;
      CommitsCanFail(procs[pid], next);
      var reply := Await(pid);
      if reply.None? { return Waiting; }
      if reply.value.Raise? {
        Fail(pid, reply.value.error);
        return Raised(reply.value.error);
      }
      if procs[pid].Upload? { NotEmptied(s, log, pid); }
      ghost var before := W();
      CommitTakes(s, before, pid, next, reply.value);
      var p, txn := procs[pid], A.TxnOf(db, pid);
      db := A.Db(db.committed + txn.pending, db.open - {pid}, db.rolledBack, A.Settle(db.fates, pid, A.Committed));
      if p.Upload? && p.inserted.Some? {
        rows := rows[p.id := p.inserted.value];
      } else if p.Delete? && p.removed.Some? {
        rows := rows - {p.removed.value};
      }
      procs := procs[pid := next];
      Record(before, Take(pid, reply.value));
      r := Done;
    }

    /** Rolls the transaction back. */
    method Rollback(pid: Pid, next: Proc, input: Input)
      requires Valid() && pid in procs && RollsBack(procs[pid], next) && input.Go?
      modifies this
      ensures Valid() && old(log) <= log && temps == old(temps) && turn == old(turn)
      ensures procs == old(procs)[pid := next] && Quiet(pid)
      ensures db.committed == old(db.committed) && rows == old(rows) && objects == old(objects)
      ensures A.TxnOf(db, pid).pending == []
    {
      hide Step, Run, A.Settle, KeyOf;
      ghost var before := W();
      RollbackTakes(s, before, pid, next, input);
      var txn := A.TxnOf(db, pid);
      db := A.Db(db.committed, db.open - {pid}, db.rolledBack + txn.pending, A.Settle(db.fates, pid, A.RolledBack));
      procs := procs[pid := next];
      Record(before, Take(pid, input));
    }

    /** The session of a request is closed behind an error: its transaction is over,
        whatever the connection says. */
    method Close(pid: Pid, next: Proc) returns (closed: bool)
      requires Valid() && pid in procs && RollsBack(procs[pid], next)
      modifies this
      ensures Valid() && old(log) <= log && temps == old(temps) && pid in procs
      ensures turn == NextTurn(answers, old(turn)) && (closed <==> old(turn) < |answers|)
      ensures closed ==> procs[pid] == next
    {
      hide Step, Run, RollsBack;
      var reply := Await(pid);
      if reply.None? { return false; }
      Rollback(pid, next, Go("", Instant(0, 0, 0, 0, 0, 0, 0)));
      closed := true;
    }

    // ----- the upload's body -----

    /** Reads one more piece into the temporary file, unless the file would grow past the limit. */
    method ReadPiece(pid: Pid, chunk: seq<Byte>, ghost p: Proc) returns (r: Reply)
      requires Valid() && Quiet(pid) && procs[pid] == p && p.Upload? && p.pc.Receive?
      requires pid in temps && temps[pid] + chunk <= p.content
      modifies this
      ensures Valid() && old(log) <= log && pid in procs
      ensures turn == NextTurn(answers, old(turn))
      ensures var size := |old(temps[pid])| + |chunk|;
              var end := EndOf(answers, old(turn), true);
              r == if end.Done? && size > s.maxSize then Raised(TooLarge) else end
      ensures r.Done? ==> Quiet(pid) && procs[pid] == p && temps == old(temps)[pid := old(temps[pid]) + chunk]
      ensures r.Done? ==> |old(temps[pid]) + chunk| <= s.maxSize
      ensures !r.Done? ==> temps == old(temps)
      ensures r.Raised? ==> procs[pid] == p.(pc := Undo(r.error))
    {
      hide Step, Run, A.TxnOf, KeyOf;
      var reply := Await(pid);
      if reply.None? { return Waiting; }
      if reply.value.Raise? {
        Fail(pid, reply.value.error);
        return Raised(reply.value.error);
      }
      var size := |temps[pid]| + |chunk|;
      if size > s.maxSize {
        Check(pid, p, TooLarge, reply.value);
        return Raised(TooLarge);
      }
      temps := temps[pid := temps[pid] + chunk];
      r := Done;
    }

    /** Reads the upload piece by piece into the temporary file, which never grows
        past the limit. */
    method Receive(pid: Pid, chunks: seq<seq<Byte>>, ghost p: Proc) returns (r: Reply, size: nat)
      requires Valid() && Quiet(pid) && procs[pid] == p && p.Upload? && p.pc.Receive? && p.content == H.Flat(chunks)
      requires forall c <- chunks :: c != []
      modifies this
      ensures Valid() && old(log) <= log && pid in procs && pid in temps && temps == old(temps)[pid := temps[pid]]
      ensures old(turn) <= turn <= old(turn) + |chunks| + 1
      ensures r.Waiting? ==> Stuck(pid, old(turn), |chunks| + 1)
      ensures r.Raised? ==>
                RaisedSince(answers, old(turn), turn, r.error) || SizeProblem(s.maxSize, |p.content|) == Some(r.error)
      ensures |temps[pid]| <= s.maxSize && temps[pid] <= p.content
      ensures r.Done? ==> temps[pid] == p.content && size == |p.content| && 0 < size <= s.maxSize
      ensures r.Done? ==> Quiet(pid) && procs[pid] == p.(pc := CheckDuplicate)
      ensures r.Raised? ==> procs[pid] == p.(pc := Undo(r.error))
    {
      hide Step, Run, KeyOf, A.TxnOf, H.Flat, Failed, CanFail;
      temps := temps[pid := []];
      size := 0;
      H.FlatNothing(chunks);
      for i := 0 to |chunks|
        invariant Valid() && old(log) <= log && Quiet(pid) && procs[pid] == p && turn == old(turn) + i
        invariant pid in temps && temps == old(temps)[pid := temps[pid]]
        invariant temps[pid] == H.Flat(chunks[..i]) && size == |temps[pid]| <= s.maxSize
      {
        H.FlatNext(chunks, i);
        H.FlatPrefix(chunks, i + 1);
        r := ReadPiece(pid, chunks[i], p);
        if !r.Done? {
          H.FlatPrefix(chunks, i);
          assert r.Raised? && r.error != TooLarge ==> RaisedSince(answers, old(turn), turn, r.error);
          return;
        }
        size := size + |chunks[i]|;
      }
      assert chunks[..|chunks|] == chunks;
      r := EndOfUpload(pid, size, p);
    }

    /** The read that finds nothing more, and the size check behind it. */
    method EndOfUpload(pid: Pid, size: nat, ghost p: Proc) returns (r: Reply)
      requires Valid() && Quiet(pid) && procs[pid] == p && p.Upload? && p.pc.Receive?
      requires size == |p.content| <= s.maxSize
      modifies this
      ensures Valid() && old(log) <= log && pid in procs && temps == old(temps)
      ensures turn == NextTurn(answers, old(turn))
      ensures var end := EndOf(answers, old(turn), true);
              r == if end.Done? && size == 0 then Raised(Empty) else end
      ensures r.Done? ==> Quiet(pid) && procs[pid] == p.(pc := CheckDuplicate) && size > 0
      ensures r.Raised? ==> procs[pid] == p.(pc := Undo(r.error))
    {
      hide Step, Run, A.TxnOf, KeyOf;
      var reply := Await(pid);
      if reply.None? { return Waiting; }
      if reply.value.Raise? {
        Fail(pid, reply.value.error);
        return Raised(reply.value.error);
      }
      if FV.ValidateSize(s.maxSize, size).Some? {
        Check(pid, p, Empty, reply.value);
        return Raised(Empty);
      }
      ghost var before := W();
      ReceiveTakes(s, before, pid, p, reply.value);
      procs := procs[pid := procs[pid].(pc := CheckDuplicate)];
      Record(before, Take(pid, reply.value));
      r := Done;
    }

    /** The size check raises. */
    method Check(pid: Pid, ghost p: Proc, error: Error, input: Input)
      requires Valid() && pid in procs && procs[pid] == p && p.Upload? && p.pc.Receive? && input.Go?
      requires error == if |p.content| == 0 then Empty else TooLarge
      requires |p.content| == 0 || |p.content| > s.maxSize
      modifies this`procs, this`log
      ensures Valid() && old(log) <= log && pid in procs && procs[pid] == p.(pc := Undo(error))
    {
      hide Step, Run;
      ghost var before := W();
      ReceiveTakes(s, before, pid, p, input);
      procs := procs[pid := procs[pid].(pc := Undo(error))];
      Record(before, Take(pid, input));
    }

    /** `get_by_hash`: a row of the case with this digest makes the upload a duplicate. */
    method RefuseDuplicate(pid: Pid, digest: string, ghost p: Proc) returns (r: Reply)
      requires Valid() && Quiet(pid) && procs[pid] == p && p.Upload? && p.pc.CheckDuplicate?
      requires digest == s.audit.sha(p.content)
      modifies this
      ensures Valid() && old(log) <= log && pid in procs && temps == old(temps)
      ensures turn == NextTurn(answers, old(turn))
      ensures var end := EndOf(answers, old(turn), true);
              r == if end.Done? && Taken(rows, p.caseId, digest) then Raised(Duplicate) else end
      ensures r.Done? ==> Quiet(pid) && procs[pid] == p.(pc := AppendHashed)
      ensures r.Raised? ==> procs[pid] == p.(pc := Undo(r.error))
    {
      hide Step, Run, A.TxnOf, KeyOf;
      var reply := Await(pid);
      if reply.None? { return Waiting; }
      if reply.value.Raise? {
        Fail(pid, reply.value.error);
        return Raised(reply.value.error);
      }
      ghost var before := W();
      CheckTakes(s, before, pid, p, reply.value);
      var me := procs[pid];
      if Taken(rows, me.caseId, digest) {
        r := Raised(Duplicate);
        procs := procs[pid := me.(pc := Undo(Duplicate))];
      } else {
        r := Done;
        procs := procs[pid := me.(pc := AppendHashed)];
      }
      Record(before, Take(pid, reply.value));
    }

    /** `put`: writes the object or raises. */
    method Put(pid: Pid, key: string, file: seq<Byte>, ghost p: Proc) returns (r: Reply)
      requires Valid() && Quiet(pid) && procs[pid] == p && p.Upload? && p.pc.Put?
      requires key == KeyOf(p) && file == p.content
      modifies this
      ensures Valid() && old(log) <= log && pid in procs && temps == old(temps)
      ensures r.Done? ==> A.TxnOf(db, pid) == old(A.TxnOf(db, pid))
      ensures turn == NextTurn(answers, old(turn)) && r == EndOf(answers, old(turn), true)
      ensures r.Done? ==> Quiet(pid) && procs[pid] == p.(pc := Saga.Create, stored := true)
      ensures r.Done? ==> key in objects && objects[key] == file
      ensures r.Raised? ==> procs[pid] == p.(pc := Undo(r.error))
    {
      hide Step, Run, A.TxnOf, KeyOf;
      var reply := Await(pid);
      if reply.None? { return Waiting; }
      if reply.value.Raise? {
        Fail(pid, reply.value.error);
        return Raised(reply.value.error);
      }
      ghost var before := W();
      PutTakes(s, before, pid, p, reply.value);
      objects := objects[key := file];
      procs := procs[pid := procs[pid].(pc := Saga.Create, stored := true)];
      Record(before, Take(pid, reply.value));
      r := Done;
    }

    /** `create`: a committed row with the same case and digest raises an integrity
        error, one that another transaction has inserted makes the insert wait. */
    method CreateRow(pid: Pid, row: Row, ghost p: Proc) returns (r: Reply)
      requires Valid() && Quiet(pid) && procs[pid] == p && p.Upload? && p.pc.Create? && row == RowOf(s, p)
      modifies this
      ensures Valid() && old(log) <= log && pid in procs && temps == old(temps)
      ensures r.Done? ==> A.TxnOf(db, pid) == old(A.TxnOf(db, pid))
      ensures turn == NextTurn(answers, old(turn))
      ensures var end := EndOf(answers, old(turn), !InsertedElsewhere(procs, pid, row.caseId, row.sha256));
              var taken := Taken(rows, row.caseId, row.sha256);
              r == if EndOf(answers, old(turn), true).Done? && taken then Raised(Integrity) else end
      ensures r.Waiting? ==> Stuck(pid, old(turn), 1)
      ensures r.Done? ==> Quiet(pid) && procs[pid] == p.(pc := AppendStored, inserted := Some(row))
      ensures r.Raised? ==> procs[pid] == p.(pc := Undo(r.error))
    {
      hide Step, Run, A.TxnOf, KeyOf, Conflicts, NoConflict, InsertedElsewhere, Taken;
      var reply := Await(pid);
      if reply.None? { return Waiting; }
      if reply.value.Raise? {
        Fail(pid, reply.value.error);
        return Raised(reply.value.error);
      }
      NoConflictIff(W(), pid, row);
      if Taken(rows, row.caseId, row.sha256) {
        Fail(pid, Integrity);
        return Raised(Integrity);
      }
      if !NoConflict(W(), pid, row) { return Waiting; }
      ghost var before := W();
      CreateTakes(s, before, pid, p, reply.value);
      InsertStays(before, pid, row, p.(pc := AppendStored, inserted := Some(row)));
      procs := procs[pid := procs[pid].(pc := AppendStored, inserted := Some(row))];
      NoConflictIff(W(), pid, row);
      Record(before, Take(pid, reply.value));
      r := Done;
    }

    /** Up to the second commit: the file is received, hashed and no duplicate. */
    method ReceiveAndHash(pid: Pid, chunks: seq<seq<Byte>>, ghost p: Proc) returns (r: Reply, size: nat, digest: string)
      requires Valid() && Quiet(pid) && procs[pid] == p && p.Upload? && p.pc.Receive? && p.content == H.Flat(chunks)
      requires !p.stored && p.inserted == None
      requires forall c <- chunks :: c != []
      modifies this
      ensures Valid() && old(log) <= log && pid in procs && pid in temps && temps == old(temps)[pid := temps[pid]]
      ensures old(turn) <= turn <= old(turn) + |chunks| + 6
      ensures r.Waiting? ==> Stuck(pid, old(turn), |chunks| + 6)
      ensures r.Raised? ==> Cause(old(turn), p.caseId, p.content, r.error)
      ensures r.Done? ==> Quiet(pid) && procs[pid] == p.(pc := Saga.Put, hashed := true)
      ensures r.Done? ==> temps[pid] == p.content && size == |p.content| && digest == s.audit.sha(p.content)
      ensures r.Done? ==> A.TxnOf(db, pid).pending == []
      ensures r.Raised? ==> InHandler(procs[pid], p, r.error, false)
    {
      hide Step, Run, Held, Unseen, Stamped, Extended, EndsWith, A.TxnOf, KeyOf, H.Flat;
      digest := "";
      r, size := Receive(pid, chunks, p);
      if !r.Done? { return; }
      digest := H.Sha256File(s.audit.sha, temps[pid], PIECE);
      r := RefuseDuplicate(pid, digest, procs[pid]);
      if !r.Done? { return; }
      var me := procs[pid];
      r := Append(pid, EvidenceDraft(me, Hashed, "hash", me.actor, None, Some(digest), Json.NoMembers),
                  me.(pc := CommitHashed));
      if !r.Done? { return; }
      r := Commit(pid, me.(pc := Saga.Put, hashed := true));
    }

    /** From the object to the last commit. */
    method Store(pid: Pid, size: nat, digest: string, ghost p: Proc) returns (r: Reply, key: string, stored: bool)
      requires Valid() && Quiet(pid) && procs[pid] == p && p.Upload? && p.pc.Put? && !p.stored && p.inserted == None
      requires A.TxnOf(db, pid).pending == []
      requires pid in temps && temps[pid] == p.content && size == |p.content| && digest == s.audit.sha(p.content)
      modifies this
      ensures Valid() && old(log) <= log && pid in procs && temps == old(temps)
      ensures old(turn) <= turn <= old(turn) + 9
      ensures r.Waiting? ==> Stuck(pid, old(turn), 9)
      ensures r.Raised? ==> Cause(old(turn), p.caseId, p.content, r.error)
      ensures r.Done? ==> procs[pid] == p.(pc := Finished(Accepted), stored := true)
      ensures r.Done? ==> p.id in rows && rows[p.id] == RowOf(s, p) && p.id !in emptied
      ensures r.Done? ==> CreationLogged(s, db.committed, p)
      ensures r.Raised? ==> InHandler(procs[pid], p, r.error, stored) && key == KeyOf(p)
    {
      hide Step, Run, Held, CreationLogged, Unseen, Stamped, Extended, EndsWith, A.TxnOf, ObjectKey, EvidenceDraft;
      stored := false;
      key := ObjectKey(procs[pid].caseId, procs[pid].id, procs[pid].name);
      r := Put(pid, key, temps[pid], p);
      if !r.Done? { return; }
      stored := true;
      var row := Row(procs[pid].id, procs[pid].caseId, key, size, digest);
      r := CreateRow(pid, row, procs[pid]);
      if !r.Done? { return; }
      ghost var q := procs[pid];
      r := RecordCreation(pid, key, digest, q);
      SameCreation(s, db.committed, p, q);
    }

    /** The two events of a creation, and the commit that makes them and the row visible. */
    method RecordCreation(pid: Pid, key: string, digest: string, ghost p: Proc) returns (r: Reply)
      requires Valid() && Quiet(pid) && procs[pid] == p && p.Upload? && p.pc.AppendStored? && p.inserted.Some?
      requires key == KeyOf(p) && digest == s.audit.sha(p.content) && A.TxnOf(db, pid).pending == []
      modifies this
      ensures Valid() && old(log) <= log && pid in procs && temps == old(temps)
      ensures old(turn) <= turn <= old(turn) + 7
      ensures r.Waiting? ==> Stuck(pid, old(turn), 7)
      ensures r.Raised? ==> RaisedSince(answers, old(turn), turn, r.error)
      ensures r.Done? ==>
                procs[pid] == AfterAccept(p) && p.id in rows && rows[p.id] == p.inserted.value && p.id !in emptied
      ensures r.Done? ==> CreationLogged(s, db.committed, p)
      ensures r.Raised? ==> InHandler(procs[pid], p, r.error, p.stored)
    {
      hide Step, Run, Held, CreationLogged, Unseen, Stamped, Extended, EndsWith, A.TxnOf, ObjectKey;
      var me := procs[pid];
      var metadata := Json.Member("object_key", Json.Str(key), Json.NoMembers);
      r := Append(pid, EvidenceDraft(me, Stored, "store", me.actor, None, None, metadata), me.(pc := AppendCreated));
      if !r.Done? { return; }
      ghost var first := A.TxnOf(db, pid).pending;
      var draft := EvidenceDraft(me, Created, "create", me.actor, None, Some(digest), Json.NoMembers);
      assert draft == CreatedDraft(s, procs[pid]);
      r := Append(pid, draft, me.(pc := CommitCreated));
      if !r.Done? { return; }
      ghost var both := A.TxnOf(db, pid).pending;
      r := Commit(pid, AfterAccept(procs[pid]));
      if r.Done? { PairLogged(s, p, first, both, db.committed); }
    }

    // ----- the handler -----

    /** Takes the stored object away again; a failure is logged and swallowed. */
    method CompensateStorage(pid: Pid, key: Option<string>, stored: bool, ghost p: Proc) returns (returned: bool)
      requires Valid() && Quiet(pid) && procs[pid] == p && p.Upload? && p.pc.Compensate?
      requires p.stored == stored && (stored ==> key == Some(KeyOf(p)))
      modifies this
      ensures Valid() && old(log) <= log && pid in procs && temps == old(temps)
      ensures turn == (if stored then NextTurn(answers, old(turn)) else old(turn))
      ensures returned <==> !stored || old(turn) < |answers|
      ensures !stored ==> objects == old(objects) && strays == old(strays)
      ensures returned && stored ==>
                if answers[old(turn)].reply.Go? then key.value !in objects else key.value in strays
      ensures returned ==> Quiet(pid) && procs[pid] == p.(pc := AppendFailed(p.pc.error))
    {
      hide Step, Run, A.TxnOf, KeyOf;
      var error := procs[pid].pc.error;
      if !stored || key.None? {
        ghost var before := W();
        ghost var nothing := Go("", Instant(0, 0, 0, 0, 0, 0, 0));
        CompensateTakes(s, before, pid, p, nothing);
        procs := procs[pid := procs[pid].(pc := AppendFailed(error))];
        Record(before, Take(pid, nothing));
        return true;
      }
      var reply := Await(pid);
      if reply.None? { return false; }
      ghost var before := W();
      CompensateTakes(s, before, pid, p, reply.value);
      if reply.value.Go? {
        objects := objects - {key.value};
      } else {
        strays := strays + {key.value};
      }
      procs := procs[pid := procs[pid].(pc := AppendFailed(error))];
      Record(before, Take(pid, reply.value));
      returned := true;
    }

    /** Appends and commits the failure event; a database error is logged and swallowed. */
    method RecordFailure(pid: Pid, ghost p: Proc) returns (recorded: Option<bool>)
      requires Valid() && Quiet(pid) && procs[pid] == p && p.Upload? && p.pc.AppendFailed? && p.inserted == None
      modifies this
      ensures Valid() && old(log) <= log && pid in procs && temps == old(temps)
      ensures old(turn) <= turn <= old(turn) + 5
      ensures recorded.None? ==> Stuck(pid, old(turn), 5)
      ensures recorded == Some(false) ==> AnyRaised(answers, old(turn), turn)
      ensures recorded.Some? ==> procs[pid] == p.(pc := Finished(Rejected(p.pc.error, recorded.value)))
    {
      hide Step, Run, Held, Unseen, Stamped, Extended, EndsWith, A.TxnOf, KeyOf;
      var me := procs[pid];
      var error := me.pc.error;
      var r := Append(pid, FailedDraft(me, error), me.(pc := CommitFailed(error)));
      if r.Done? {
        r := Commit(pid, me.(pc := Finished(Rejected(error, true))));
      }
      if r.Waiting? { return None; }
      if r.Done? { return Some(true); }
      var closed := Close(pid, AfterRollback(procs[pid]));
      recorded := if closed then Some(false) else None;
    }

    /** The rollback in the handler has raised: the compensation is skipped. */
    method Escape(pid: Pid, key: Option<string>, stored: bool, ghost p: Proc, input: Input) returns (left: bool)
      requires Valid() && pid in procs && procs[pid] == p && p.Upload? && p.pc.Undo? && input.Raise?
      requires p.stored == stored && (stored ==> key == Some(KeyOf(p)))
      modifies this
      ensures Valid() && old(log) <= log && pid in procs && temps == old(temps)
      ensures turn == NextTurn(answers, old(turn)) && (left <==> old(turn) < |answers|)
      ensures left ==> procs[pid] == p.(pc := Finished(Escaped(p.pc.error)), inserted := None)
    {
      hide Step, Run, Held, A.TxnOf, ObjectKey;
      var error := procs[pid].pc.error;
      ghost var before := W();
      EscapeTakes(s, before, pid, p, input);
      if stored { escaped := escaped + {key.value}; }
      procs := procs[pid := procs[pid].(pc := Closing(Escaped(error)))];
      Record(before, Take(pid, input));
      left := Close(pid, AfterRollback(procs[pid]));
    }

    /** What both `except` clauses do. */
    method Handle(pid: Pid, key: Option<string>, stored: bool, ghost p: Proc) returns (outcome: Option<Outcome>)
      requires Valid() && pid in procs && procs[pid] == p && p.Upload? && p.pc.Undo?
      requires p.stored == stored && (stored ==> key == Some(KeyOf(p)))
      modifies this
      ensures Valid() && old(log) <= log && pid in procs && temps == old(temps)
      ensures old(turn) <= turn <= old(turn) + 7
      ensures outcome.None? ==> Stuck(pid, old(turn), 7)
      ensures outcome.Some? && outcome.value != Rejected(p.pc.error, true) ==> AnyRaised(answers, old(turn), turn)
      ensures outcome.Some? ==> procs[pid] == p.(pc := Finished(outcome.value), inserted := None)
      ensures outcome.Some? ==>
                outcome.value in {Escaped(p.pc.error), Rejected(p.pc.error, true), Rejected(p.pc.error, false)}
    {
      hide Step, Run, Held, Unseen, Stamped, Extended, EndsWith, A.TxnOf, ObjectKey;
      var error := procs[pid].pc.error;
      var reply := Await(pid);
      if reply.None? { return None; }
      if reply.value.Raise? {
        var left := Escape(pid, key, stored, procs[pid], reply.value);
        return if left then Some(Escaped(error)) else None;
      }
      Rollback(pid, AfterRollback(procs[pid]), reply.value);
      var returned := CompensateStorage(pid, key, stored, procs[pid]);
      if !returned { return None; }
      var recorded := RecordFailure(pid, procs[pid]);
      outcome := if recorded.Some? then Some(Rejected(error, recorded.value)) else None;
    }

    // ----- the two operations -----

    /** `upload_evidence`, from the metadata check to the last statement of `finally`. */
    method UploadEvidence(pid: Pid, caseId: string, id: string, filename: Option<string>, contentType: Option<string>,
                          source: string, actor: Option<string>, chunks: seq<seq<Byte>>)
      returns (r: UploadResult)
      requires Valid() && FV.LowersWell(unicode)
      requires pid !in procs && pid !in db.open && pid !in temps
      requires FreshId(W(), id) && NoSlash(id) && NoSlash(caseId)
      requires forall c <- chunks :: c != []
      modifies this
      ensures Valid() && old(log) <= log && old(turn) <= turn <= old(turn) + |chunks| + 26
      ensures r.Invalid? <==> FV.ValidateMetadata(validator, unicode, filename, contentType).Err?
      ensures r.Invalid? ==>
                W() == old(W()) && FV.ValidateMetadata(validator, unicode, filename, contentType).error == r.problem
      ensures r.Returned? ==>
                Settled(s, W(), r.outcome, caseId, id,
                        FV.ValidateMetadata(validator, unicode, filename, contentType).value.0, H.Flat(chunks))
      ensures r.Returned? ==>
                var name := FV.ValidateMetadata(validator, unicode, filename, contentType).value.0;
                Logs(s, db.committed, Ended(caseId, id, name, source, actor, H.Flat(chunks), r.outcome))
      ensures r.Pending? ==> Stuck(pid, old(turn), |chunks| + 26)
      ensures r.Returned? ==> Justified(old(turn), caseId, H.Flat(chunks), r.outcome)
      ensures !r.Pending? ==> temps == old(temps)
    {
      hide *;
      var checked := FV.ValidateMetadata(validator, unicode, filename, contentType);
      if checked.Err? { return Invalid(checked.error); }
      FV.AcceptedKeySplits(validator, unicode, filename, contentType, caseId, id, caseId, id, "");
      var outcome := UploadNamed(pid, caseId, id, checked.value.0, source, actor, chunks);
      r := if outcome.Some? then Returned(outcome.value) else Pending;
    }

    method UploadNamed(pid: Pid, caseId: string, id: string, name: string, source: string, actor: Option<string>,
                       chunks: seq<seq<Byte>>)
      returns (outcome: Option<Outcome>)
      requires Valid() && pid !in procs && pid !in db.open && pid !in temps
      requires FreshId(W(), id) && NoSlash(id) && NoSlash(caseId) && NoSlash(name)
      requires forall c <- chunks :: c != []
      modifies this
      ensures Valid() && old(log) <= log && old(turn) <= turn <= old(turn) + |chunks| + 26
      ensures outcome.None? ==> Stuck(pid, old(turn), |chunks| + 26)
      ensures outcome.Some? ==> Justified(old(turn), caseId, H.Flat(chunks), outcome.value)
      ensures outcome.Some? ==> Settled(s, W(), outcome.value, caseId, id, name, H.Flat(chunks))
      ensures outcome.Some? ==>
                Logs(s, db.committed, Ended(caseId, id, name, source, actor, H.Flat(chunks), outcome.value))
      ensures outcome.Some? ==> temps == old(temps)
    {
      hide Step, Run, Held, Logged, Logs, FreshId, NoSlash, Settled, H.Flat, A.TxnOf;
      var me := Saga.Upload(caseId, id, name, source, actor, H.Flat(chunks), AppendStarted, false, false, None);
      StartUploadTakes(s, W(), pid, me);
      Begin(pid, me, StartUpload(pid, caseId, id, name, source, actor, H.Flat(chunks)));
      outcome := RunUpload(pid, chunks, me);
      if outcome.Some? {
        SettledOk(s, log, pid);
        LogsWhenFinished(s, log, pid, Ended(caseId, id, name, source, actor, H.Flat(chunks), outcome.value));
        temps := temps - {pid};
      }
    }

    /** A new process enters. */
    method Begin(pid: Pid, me: Proc, ghost l: Label)
      requires Valid() && Step(s, W(), l) == Some(W().(procs := procs[pid := me])) && pid !in db.open
      modifies this`procs, this`log
      ensures Valid() && old(log) <= log && procs == old(procs)[pid := me] && Quiet(pid)
      ensures A.TxnOf(db, pid).pending == []
    {
      hide Step, Run;
      ghost var before := W();
      procs := procs[pid := me];
      Record(before, l);
    }

    /** The statements behind the metadata check. */
    method RunUpload(pid: Pid, chunks: seq<seq<Byte>>, me: Proc) returns (outcome: Option<Outcome>)
      requires Valid() && Quiet(pid) && procs[pid] == me && me.Upload? && me.pc.AppendStarted?
      requires me.content == H.Flat(chunks)
      requires !me.stored && !me.hashed && me.inserted == None
      requires forall c <- chunks :: c != []
      modifies this
      ensures Valid() && old(log) <= log && pid in procs
      ensures old(turn) <= turn <= old(turn) + |chunks| + 26
      ensures outcome.None? ==> Stuck(pid, old(turn), |chunks| + 26)
      ensures outcome.Some? ==> Justified(old(turn), me.caseId, me.content, outcome.value)
      ensures temps == old(temps) || (pid in temps && temps == old(temps)[pid := temps[pid]])
      ensures outcome.Some? ==>
                && procs[pid].Upload? && SameUpload(me, procs[pid]) && procs[pid].pc == Finished(outcome.value)
                && (outcome.value == Accepted ==> me.id in rows && me.id !in emptied)
    {
      hide Step, Run, Held, Logged, Unseen, Stamped, Extended, EndsWith, A.TxnOf, KeyOf, H.Flat, StartedDraft;
      var r := Append(pid, StartedDraft(me), me.(pc := CommitStarted));
      if r.Done? { r := Commit(pid, me.(pc := Saga.Receive)); }
      if r.Waiting? { return None; }
      if r.Raised? {
        var closed := Close(pid, AfterRollback(procs[pid]));
        return if closed then Some(NotStarted) else None;
      }
      outcome := TryUpload(pid, chunks, procs[pid]);
    }

    /** `try` and `except`. */
    method TryUpload(pid: Pid, chunks: seq<seq<Byte>>, ghost p: Proc) returns (outcome: Option<Outcome>)
      requires Valid() && Quiet(pid) && procs[pid] == p && p.Upload? && p.pc.Receive? && p.content == H.Flat(chunks)
      requires !p.stored && p.inserted == None
      requires forall c <- chunks :: c != []
      modifies this
      ensures Valid() && old(log) <= log && pid in procs && pid in temps && temps == old(temps)[pid := temps[pid]]
      ensures old(turn) <= turn <= old(turn) + |chunks| + 22
      ensures outcome.None? ==> Stuck(pid, old(turn), |chunks| + 22)
      ensures outcome.Some? ==> !outcome.value.NotStarted? && Justified(old(turn), p.caseId, p.content, outcome.value)
      ensures outcome.Some? ==>
                && procs[pid].Upload? && SameUpload(p, procs[pid]) && procs[pid].pc == Finished(outcome.value)
                && (outcome.value == Accepted ==> p.id in rows && p.id !in emptied)
    {
      hide Step, Run, Held, Unseen, Stamped, Extended, EndsWith, A.TxnOf, ObjectKey, H.Flat, Taken, Logged,
           CreationLogged;
      var key: Option<string>, stored := None, false;
      var r, size, digest := ReceiveAndHash(pid, chunks, p);
      if r.Done? {
        var objectKey;
        r, objectKey, stored := Store(pid, size, digest, procs[pid]);
        key := Some(objectKey);
      }
      match r
      case Waiting => outcome := None;
      case Done => outcome := Some(Accepted);
      case Raised(error) =>
        ghost var cause := log;
        if Taken(rows, p.caseId, s.audit.sha(p.content)) { TakenIsLogged(s, log, p.caseId, s.audit.sha(p.content)); }
        outcome := Handle(pid, key, stored, procs[pid]);
        LoggedLater(s, cause, log, p.caseId, s.audit.sha(p.content));
    }

    /** `delete_evidence`: the object first, then the row and its event in one transaction. */
    method DeleteEvidence(pid: Pid, caseId: string, id: string) returns (r: Option<DeleteOutcome>)
      requires Valid() && pid !in procs && pid !in db.open
      modifies this
      ensures Valid() && old(log) <= log && temps == old(temps) && old(turn) <= turn <= old(turn) + 8
      ensures r == None ==> Stuck(pid, old(turn), 8)
      ensures r == Some(NotFound) ==> AbsentSince(s, old(log), log, caseId, id)
      ensures r == Some(NotDeleted) ==> AnyRaised(answers, old(turn), turn)
      ensures r == Some(Removed) ==>
                && id !in rows && DeletionLogged(db.committed, caseId, id)
                && forall u <- procs :: procs[u].Upload? && procs[u].id == id ==> KeyOf(procs[u]) !in objects
    {
      hide Step, Run, Held, AbsentSince, KeyOf, DeletionLogged;
      var me := Saga.Delete(caseId, id, Lookup, None);
      StartDeleteTakes(s, W(), pid, caseId, id);
      Begin(pid, me, StartDelete(pid, caseId, id));
      ghost var begun := log;
      var reply := RemoveAll(pid, me);
      ghost var tried := log;
      if reply.Waiting? { return None; }
      if reply.Raised? {
        var outcome := procs[pid].at.outcome;
        var closed := Close(pid, procs[pid].(at := Left(outcome), removed := None));
        AbsentLater(s, old(log), begun, tried, log, caseId, id);
        return if closed then Some(outcome) else None;
      }
      RemovedForGood(s, log, pid);
      r := Some(Removed);
    }

    method RemoveAll(pid: Pid, ghost p: Proc) returns (r: Reply)
      requires Valid() && Quiet(pid) && procs[pid] == p && p.Delete? && p.at.Lookup? && p.removed == None
      modifies this
      ensures Valid() && old(log) <= log && temps == old(temps) && pid in procs
      ensures old(turn) <= turn <= old(turn) + 7
      ensures r.Waiting? ==> Stuck(pid, old(turn), 7)
      ensures r.Done? ==> procs[pid] == p.(at := Left(Removed)) && DeletionLogged(db.committed, p.caseId, p.id)
      ensures r.Raised? ==> GivenUp(procs[pid], p)
      ensures r.Raised? ==> if procs[pid].at.outcome == NotFound then AbsentSince(s, old(log), log, p.caseId, p.id)
                            else AnyRaised(answers, old(turn), turn)
    {
      hide Step, Run, Held, AbsentSince, Extended, EndsWith, A.TxnOf, RowFree, DeletionLogged, Stamped, Unseen;
      var found;
      r, found := Find(pid, p);
      if !r.Done? {
        if r.Raised? { AbsentNow(s, old(log), log, p.caseId, p.id); }
        return;
      }
      r := DeleteObject(pid, found, procs[pid]);
      if !r.Done? { return; }
      r := DeleteRow(pid, found, procs[pid]);
      if !r.Done? { return; }
      r := RecordDeletion(pid, found, procs[pid]);
    }

    /** The event of a deletion, and the commit that makes both visible. */
    method RecordDeletion(pid: Pid, row: Row, ghost p: Proc) returns (r: Reply)
      requires Valid() && Quiet(pid) && procs[pid] == p && p.Delete? && p.at == AppendDeleted(row)
      requires p.removed == Some(p.id)
      modifies this
      ensures Valid() && old(log) <= log && temps == old(temps) && pid in procs
      ensures old(turn) <= turn <= old(turn) + 4
      ensures r.Waiting? ==> Stuck(pid, old(turn), 4)
      ensures r.Done? ==> procs[pid] == p.(at := Left(Removed), removed := None)
      ensures r.Done? ==> DeletionLogged(db.committed, p.caseId, p.id)
      ensures r.Raised? ==> GivenUp(procs[pid], p) && procs[pid].at.outcome == NotDeleted
      ensures r.Raised? ==> AnyRaised(answers, old(turn), turn)
    {
      hide Step, Run, Held, Extended, EndsWith, A.TxnOf, DeletionLogged, Stamped, Unseen;
      var me := procs[pid];
      ghost var before := A.TxnOf(db, pid).pending;
      r := Append(pid, DeletedDraft(me, row), me.(at := CommitDeleted(row)));
      if !r.Done? { return; }
      ghost var after := A.TxnOf(db, pid).pending;
      r := Commit(pid, me.(at := Left(Removed), removed := None));
      if r.Done? { DeletionEnds(s, me, row, before, after, db.committed); }
    }

    /** `get_evidence`. */
    method Find(pid: Pid, ghost p: Proc) returns (r: Reply, found: Row)
      requires Valid() && Quiet(pid) && procs[pid] == p && p.Delete? && p.at.Lookup? && p.removed == None
      modifies this
      ensures Valid() && old(log) <= log && temps == old(temps) && pid in procs
      ensures turn == NextTurn(answers, old(turn))
      ensures var there := p.id in rows && rows[p.id].caseId == p.caseId;
              var end := EndOf(answers, old(turn), true);
              && r == (if end.Done? && !there then Raised(Other("NotFoundError")) else end)
              && (r.Raised? ==> procs[pid] == p.(at := Leaving(if end.Done? then NotFound else NotDeleted)))
      ensures r.Done? ==> p.id in rows && rows[p.id] == found
      ensures r.Done? ==> Quiet(pid) && procs[pid] == p.(at := RemoveObject(found))
    {
      hide Step, Run, A.TxnOf;
      found := Row("", "", "", 0, "");
      var reply := Await(pid);
      if reply.None? { return Waiting, found; }
      if reply.value.Raise? {
        Fail(pid, reply.value.error);
        return Raised(reply.value.error), found;
      }
      ghost var before := W();
      LookupTakes(s, before, pid, p, reply.value);
      var me := procs[pid];
      if me.id in rows && rows[me.id].caseId == me.caseId {
        found := rows[me.id];
        r := Done;
        procs := procs[pid := me.(at := RemoveObject(found))];
      } else {
        r := Raised(Other("NotFoundError"));
        procs := procs[pid := me.(at := Leaving(NotFound))];
      }
      Record(before, Take(pid, reply.value));
    }

    /** The storage's `delete`: removing a key that is not there succeeds. */
    method DeleteObject(pid: Pid, row: Row, ghost p: Proc) returns (r: Reply)
      requires Valid() && Quiet(pid) && procs[pid] == p && p.Delete? && p.at == RemoveObject(row) && p.removed == None
      modifies this
      ensures Valid() && old(log) <= log && temps == old(temps) && pid in procs
      ensures turn == NextTurn(answers, old(turn)) && r == EndOf(answers, old(turn), true)
      ensures r.Done? ==> A.TxnOf(db, pid) == old(A.TxnOf(db, pid))
      ensures r.Done? ==> Quiet(pid) && procs[pid] == p.(at := RemoveRow(row))
      ensures r.Done? ==> row.objectKey !in objects
      ensures r.Raised? ==> procs[pid] == p.(at := Leaving(NotDeleted))
    {
      hide Step, Run, A.TxnOf, RowFree;
      var reply := Await(pid);
      if reply.None? { return Waiting; }
      if reply.value.Raise? {
        Fail(pid, reply.value.error);
        return Raised(reply.value.error);
      }
      ghost var before := W();
      RemoveObjectTakes(s, before, pid, p, reply.value);
      objects, emptied := objects - {row.objectKey}, emptied + {procs[pid].id};
      procs := procs[pid := procs[pid].(at := RemoveRow(row))];
      Record(before, Take(pid, reply.value));
      r := Done;
    }

    /** The repository's `delete`: it waits while another transaction has deleted the row. */
    method DeleteRow(pid: Pid, row: Row, ghost p: Proc) returns (r: Reply)
      requires Valid() && Quiet(pid) && procs[pid] == p && p.Delete? && p.at == RemoveRow(row) && p.removed == None
      modifies this
      ensures Valid() && old(log) <= log && temps == old(temps) && pid in procs
      ensures turn == NextTurn(answers, old(turn))
      ensures r == EndOf(answers, old(turn), !RemovedElsewhere(procs, pid, p.id))
      ensures r.Waiting? ==> Stuck(pid, old(turn), 1)
      ensures r.Done? ==> A.TxnOf(db, pid) == old(A.TxnOf(db, pid))
      ensures r.Done? ==> Quiet(pid) && procs[pid] == p.(at := AppendDeleted(row), removed := Some(p.id))
      ensures r.Raised? ==> procs[pid] == p.(at := Leaving(NotDeleted))
    {
      hide Step, Run, A.TxnOf, RowFree;
      var reply := Await(pid);
      if reply.None? { return Waiting; }
      if reply.value.Raise? {
        Fail(pid, reply.value.error);
        return Raised(reply.value.error);
      }
      RowFreeIff(W(), pid, procs[pid].id);
      if !RowFree(W(), pid, procs[pid].id) { return Waiting; }
      RemovalStays(W(), pid, procs[pid].id, p.(at := AppendDeleted(row), removed := Some(p.id)));
      ghost var before := W();
      RemoveRowTakes(s, before, pid, p, reply.value);
      procs := procs[pid := procs[pid].(at := AppendDeleted(row), removed := Some(procs[pid].id))];
      Record(before, Take(pid, reply.value));
      r := Done;
    }
  }

  /** At some moment between `before` and `log` the case had no row of that id. */
  ghost predicate AbsentSince(s: Settings, before: seq<Label>, log: seq<Label>, c: string, id: string) {
    exists k: nat | |before| <= k <= |log| :: Absent(Run(s, EMPTY, log[..k]).rows, c, id)
  }

  predicate Absent(rows: map<string, Row>, c: string, id: string) { id in rows ==> rows[id].caseId != c }

  lemma {:induction false} AbsentNow(s: Settings, before: seq<Label>, log: seq<Label>, c: string, id: string)
    requires before <= log
    ensures Absent(Run(s, EMPTY, log).rows, c, id) ==> AbsentSince(s, before, log, c, id)
  {
    hide Run, Absent;
    assert log[..|log|] == log;
  }

  lemma AbsentLater(s: Settings, before: seq<Label>, begun: seq<Label>, log: seq<Label>, more: seq<Label>, c: string,
                    id: string)
    requires before <= begun <= log <= more
    ensures AbsentSince(s, begun, log, c, id) ==> AbsentSince(s, before, more, c, id)
  {
    hide Run, Absent;
    if AbsentSince(s, begun, log, c, id) {
      var k: nat :| |begun| <= k <= |log| && Absent(Run(s, EMPTY, log[..k]).rows, c, id);
      assert more[..k] == log[..k];
    }
  }

  lemma RemovalStays(w: World, pid: Pid, id: string, next: Proc)
    requires pid in w.procs
    ensures RowFree(w.(procs := w.procs[pid := next]), pid, id) <==> RowFree(w, pid, id)
  {
    var w' := w.(procs := w.procs[pid := next]);
    if RowFree(w', pid, id) {
      forall q | q in w.procs && q != pid && w.procs[q].Delete?
        ensures w.procs[q].removed != Some(id)
      {
        assert w'.procs[q] == w.procs[q];
      }
    }
  }

  lemma StartUploadTakes(s: Settings, w: World, pid: Pid, p: Proc)
    requires pid !in w.procs && pid !in w.db.open && p.Upload? && FreshId(w, p.id)
    requires NoSlash(p.caseId) && NoSlash(p.id) && NoSlash(p.name)
    requires p == Saga.Upload(p.caseId, p.id, p.name, p.source, p.actor, p.content, AppendStarted, false, false, None)
    ensures Step(s, w, StartUpload(pid, p.caseId, p.id, p.name, p.source, p.actor, p.content))
         == Some(w.(procs := w.procs[pid := p]))
  {
  }

  lemma StartDeleteTakes(s: Settings, w: World, pid: Pid, c: string, id: string)
    requires pid !in w.procs && pid !in w.db.open
    ensures Step(s, w, StartDelete(pid, c, id)) == Some(w.(procs := w.procs[pid := Saga.Delete(c, id, Lookup, None)]))
  {
  }

  lemma {:induction false} RemovedForGood(s: Settings, log: seq<Label>, d: Pid)
    requires var w := Run(s, EMPTY, log); d in w.procs && w.procs[d].Delete? && w.procs[d].at == Left(Removed)
    ensures var w := Run(s, EMPTY, log);
            && w.procs[d].id !in w.rows
            && forall u <- w.procs ::
                 w.procs[u].Upload? && w.procs[u].id == w.procs[d].id ==> KeyOf(w.procs[u]) !in w.objects
  {
    hide Run, KeyOf;
    var w := Run(s, EMPTY, log);
    assert Reachable(s, w) by { LogReaches(s, log); }
    ReachableOk(s, w);
    assert ProcOk(s, w, d);
    forall u <- w.procs | w.procs[u].Upload? && w.procs[u].id == w.procs[d].id
      ensures KeyOf(w.procs[u]) !in w.objects
    {
      DeletedForGood(s, w, d, u);
    }
  }

  /** What the world holds of an upload at the moment it returns. */
  predicate Settled(s: Settings, w: World, outcome: Outcome, caseId: string, id: string, name: string,
                    content: seq<Byte>)
  {
    var key, ts := ObjectKey(caseId, id, name), Types(w.db.committed, id);
    if outcome == Accepted then
      && id in w.rows && w.rows[id] == Row(id, caseId, key, |content|, s.audit.sha(content))
      && key in w.objects && w.objects[key] == content && 0 < |content| <= s.maxSize
      && ts == [UploadStarted, Hashed, Stored, Created]
    else
      && id !in w.rows
      && (key in w.objects <==> (outcome.Rejected? && key in w.strays) || (outcome.Escaped? && key in w.escaped))
      && match outcome
         case NotStarted => ts == []
         case Rejected(_, true) => ts == [UploadStarted, UploadFailed] || ts == [UploadStarted, Hashed, UploadFailed]
         case _ => ts == [UploadStarted] || ts == [UploadStarted, Hashed]
  }

  function Ended(caseId: string, id: string, name: string, source: string, actor: Option<string>, content: seq<Byte>,
                 outcome: Outcome): (p: Proc)
    ensures p.Upload?
  {
    Saga.Upload(caseId, id, name, source, actor, content, Finished(outcome), false, false, None)
  }

  lemma {:induction false} SettledOk(s: Settings, log: seq<Label>, pid: Pid)
    requires var w := Run(s, EMPTY, log);
             && pid in w.procs && w.procs[pid].Upload? && w.procs[pid].pc.Finished?
             && (w.procs[pid].pc.outcome == Accepted ==> w.procs[pid].id in w.rows && w.procs[pid].id !in w.emptied)
    ensures var w := Run(s, EMPTY, log);
            var p := w.procs[pid];
            Settled(s, w, p.pc.outcome, p.caseId, p.id, p.name, p.content)
  {
    hide Run, Types;
    LogReaches(s, log);
    SettledWhenReachable(s, Run(s, EMPTY, log), pid);
  }

  lemma SettledWhenReachable(s: Settings, w: World, pid: Pid)
    requires Reachable(s, w)
    requires pid in w.procs && w.procs[pid].Upload? && w.procs[pid].pc.Finished?
    requires w.procs[pid].pc.outcome == Accepted ==> w.procs[pid].id in w.rows && w.procs[pid].id !in w.emptied
    ensures var p := w.procs[pid];
            Settled(s, w, p.pc.outcome, p.caseId, p.id, p.name, p.content)
  {
    hide Reachable, ObjectKey, Types, A.Inv, TablesOk, PendingOk, FlagsOk, TraceOk;
    ReachableOk(s, w);
    MarksWhenReachable(s, w);
    assert ProcOk(s, w, pid) && MarkOk(w, pid);
    EventsMatchOutcome(s, w, pid);
    var p := w.procs[pid];
    if p.pc.outcome == Accepted {
      var ts := Types(w.db.committed, p.id);
      assert ts == ts[..4];
    }
  }

  /** A delete that has raised or found nothing, and only has to close its session. */
  predicate GivenUp(q: Proc, p: Proc) { q.Delete? && q.at.Leaving? && q.at.outcome != Removed && q.id == p.id }

  /** The handler is entered with this error and this flag. */
  predicate InHandler(q: Proc, p: Proc, error: Error, stored: bool)
    requires p.Upload?
  {
    q.Upload? && q == p.(pc := Undo(error), stored := stored, hashed := q.hashed, inserted := q.inserted)
  }
}
