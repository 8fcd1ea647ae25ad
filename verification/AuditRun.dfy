/** Concurrent transactions that append audit events.  Each transaction sees the
    committed rows and its own, an advisory lock on the case's chain is held until
    the transaction ends, and any of the three statements of `append` may be
    interleaved with the steps of other transactions. */
module AuditRun {
  import opened Wrappers
  import opened Time
  import opened Events
  import opened Chain
  import opened AuditTable

  /** The digest function, and the key that a case's advisory lock is taken on;
      different cases may share one. */
  datatype Env = Env(sha: Sha, lockOf: string -> int)

  type Tx = nat

  /** Where a transaction is between the statements of `append`. */
  datatype Phase = Idle | Locked(caseId: string) | Linked(caseId: string, previous: Option<string>)

  datatype Txn = Txn(pending: seq<Event>, locks: set<int>, phase: Phase)

  const NO_TXN := Txn([], {}, Idle)

  /** What became of the transaction that an event was added in. */
  datatype Fate = Pending(tx: Tx) | Committed | RolledBack

  /** `rolledBack` and `fates` record the past; no step reads them, except that an
      event id is never issued twice. */
  datatype Db = Db(committed: seq<Event>, open: map<Tx, Txn>, rolledBack: seq<Event>, fates: map<string, Fate>)

  const EMPTY := Db([], map[], [], map[])

  function TxnOf(db: Db, t: Tx): Txn { if t in db.open then db.open[t] else NO_TXN }

  function Visible(db: Db, t: Tx): seq<Event> { db.committed + TxnOf(db, t).pending }

  datatype Label =
    | Lock(tx: Tx, caseId: string)
    | ReadLatest(tx: Tx)
    | Insert(tx: Tx, draft: Draft, id: string, now: Instant)
    | Commit(tx: Tx)
    | Rollback(tx: Tx)

  predicate LockFree(db: Db, t: Tx, key: int) { forall u <- db.open :: u != t ==> key !in db.open[u].locks }

  /** The clock, read under the lock, has moved past the latest visible event. */
  predicate ClockAdvanced(db: Db, t: Tx, e: Event, c: string) {
    var xs := List(Visible(db, t), c);
    xs == [] || Before(xs[|xs| - 1], e)
  }

  function Settle(fates: map<string, Fate>, t: Tx, fate: Fate): map<string, Fate> {
    map id | id in fates :: if fates[id] == Pending(t) then fate else fates[id]
  }

  /** One step, if it is enabled, whatever the clock says: a held lock makes a transaction wait. */
  function FreeStep(env: Env, db: Db, l: Label): Option<Db> {
    var t := l.tx;
    var txn := TxnOf(db, t);
    match l
    case Lock(_, c) =>
      if txn.phase.Idle? && LockFree(db, t, env.lockOf(c)) then
        Some(db.(open := db.open[t := txn.(locks := txn.locks + {env.lockOf(c)}, phase := Locked(c))]))
      else None
    case ReadLatest(_) =>
      if txn.phase.Locked? then
        var previous := LatestHash(Visible(db, t), txn.phase.caseId);
        Some(db.(open := db.open[t := txn.(phase := Linked(txn.phase.caseId, previous))]))
      else None
    case Insert(_, draft, id, now) =>
      if txn.phase.Linked? && txn.phase.caseId == draft.caseId && id !in db.fates then
        var e := NewEvent(env.sha, draft, txn.phase.previous, id, now);
        if Storable(e) then
          Some(db.(open := db.open[t := txn.(pending := txn.pending + [e], phase := Idle)],
                   fates := db.fates[id := Pending(t)]))
        else None
      else None
    case Commit(_) =>
      Some(Db(db.committed + txn.pending, db.open - {t}, db.rolledBack, Settle(db.fates, t, Committed)))
    case Rollback(_) =>
      Some(Db(db.committed, db.open - {t}, db.rolledBack + txn.pending, Settle(db.fates, t, RolledBack)))
  }

  /** The clock condition on an insert. */
  predicate OnTime(env: Env, db: Db, l: Label) {
    l.Insert? && TxnOf(db, l.tx).phase.Linked? ==>
      ClockAdvanced(db, l.tx, NewEvent(env.sha, l.draft, TxnOf(db, l.tx).phase.previous, l.id, l.now), l.draft.caseId)
  }

  /** One step under the clock condition. */
  function Step(env: Env, db: Db, l: Label): Option<Db> { if OnTime(env, db, l) then FreeStep(env, db, l) else None }

  /** A schedule runs label by label; a label that is not enabled does nothing. */
  function Run(env: Env, db: Db, schedule: seq<Label>): Db {
    if schedule == [] then db
    else
      var before := Run(env, db, schedule[..|schedule| - 1]);
      var after := Step(env, before, schedule[|schedule| - 1]);
      if after.Some? then after.value else before
  }

  // ----- the invariant -----

  predicate Healthy(sha: Sha, xs: seq<Event>) { ChainOk(sha, xs) && Increasing(xs) && AllStorable(xs) }

  predicate HoldsLocks(env: Env, txn: Txn) {
    && (forall e <- txn.pending :: e.caseId.Some? && env.lockOf(e.caseId.value) in txn.locks)
    && (txn.phase.Idle? || env.lockOf(txn.phase.caseId) in txn.locks)
  }

  ghost predicate LocksOk(env: Env, db: Db) {
    && (forall t <- db.open :: HoldsLocks(env, db.open[t]))
    && (forall t <- db.open, u <- db.open :: t != u ==> db.open[t].locks !! db.open[u].locks)
  }

  /** What transaction `t` sees of case `c` is a healthy chain. */
  ghost predicate Sees(env: Env, db: Db, t: Tx, c: string) { Healthy(env.sha, CaseEvents(Visible(db, t), c)) }

  ghost predicate ChainsOk(env: Env, db: Db) { forall t: Tx, c: string :: Sees(env, db, t, c) }

  predicate LinkFresh(db: Db, t: Tx) {
    var phase := TxnOf(db, t).phase;
    phase.Linked? ==>
      var xs := CaseEvents(Visible(db, t), phase.caseId);
      phase.previous == HashBefore(xs, |xs|)
  }

  ghost predicate LinksFresh(db: Db) { forall t: Tx :: LinkFresh(db, t) }

  /** `e` carries the hash of its own content behind its own previous hash. */
  ghost predicate Sealed(env: Env, e: Event) {
    Storable(e) && LinkOk(env.sha, e.previousHash, e) && (HexDigests(env.sha) ==> DigestOrNone(e.previousHash))
  }

  ghost predicate FatesOk(env: Env, db: Db) {
    && (forall e <- db.committed :: e.id in db.fates && db.fates[e.id] == Committed)
    && (forall e <- db.rolledBack :: Sealed(env, e) && e.id in db.fates && db.fates[e.id] == RolledBack)
    && (forall t <- db.open, e <- db.open[t].pending :: e.id in db.fates && db.fates[e.id] == Pending(t))
  }

  ghost predicate Inv(env: Env, db: Db) {
    LocksOk(env, db) && ChainsOk(env, db) && LinksFresh(db) && FatesOk(env, db)
  }

  lemma {:induction false} HealthyIsListed(env: Env, table: seq<Event>, c: string)
    requires Healthy(env.sha, CaseEvents(table, c))
    ensures List(table, c) == CaseEvents(table, c)
  {
    SortedStays(CaseEvents(table, c));
  }

  lemma {:induction false} NoPendingNoChange(env: Env, txn: Txn, table: seq<Event>, c: string)
    requires HoldsLocks(env, txn) && env.lockOf(c) !in txn.locks
    ensures CaseEvents(table + txn.pending, c) == CaseEvents(table, c)
  {
    CaseEventsAppend(table, txn.pending, c);
    NoCaseEvents(txn.pending, c);
  }

  lemma InitOk(env: Env)
    ensures Inv(env, EMPTY)
  {
    forall t: Tx, c: string
      ensures Sees(env, EMPTY, t, c)
    {
      assert Visible(EMPTY, t) == [];
    }
  }

  // ----- every step keeps it -----

  lemma LocksKeep(env: Env, db: Db, l: Label, db': Db)
    requires LocksOk(env, db) && FreeStep(env, db, l) == Some(db')
    ensures LocksOk(env, db')
  {
    hide Storable, EventHash, List, Before;
    assert HoldsLocks(env, TxnOf(db, l.tx));
    assert l.tx in db'.open ==> HoldsLocks(env, db'.open[l.tx]);
  }

  lemma FatesKeep(env: Env, db: Db, l: Label, db': Db)
    requires FatesOk(env, db) && Step(env, db, l) == Some(db')
    requires forall e <- TxnOf(db, l.tx).pending :: Sealed(env, e)
    ensures FatesOk(env, db')
  {
    hide Sealed, Storable, EventHash, List, Before;
  }

  lemma PendingSealed(env: Env, db: Db, t: Tx)
    requires ChainsOk(env, db) && LocksOk(env, db)
    ensures forall e <- TxnOf(db, t).pending :: Sealed(env, e)
  {
    hide Storable, EventHash, Before;
    forall e | e in TxnOf(db, t).pending
      ensures Sealed(env, e)
    {
      var c := e.caseId.value;
      var xs := CaseEvents(Visible(db, t), c);
      assert Sees(env, db, t, c);
      CaseEventsAreRows(Visible(db, t), c);
      assert e in Visible(db, t);
      var i :| 0 <= i < |xs| && xs[i] == e;
      assert LinkAt(env.sha, xs, i);
      if HexDigests(env.sha) {
        HashesAreDigests(env.sha, xs, i);
      }
    }
  }

  /** Locking and reading leave every view alone. */
  lemma ViewsStay(env: Env, db: Db, l: Label, db': Db)
    requires ChainsOk(env, db) && LinksFresh(db) && Step(env, db, l) == Some(db')
    requires l.Lock? || l.ReadLatest?
    ensures ChainsOk(env, db') && LinksFresh(db')
  {
    hide Healthy, LatestHash;
    assert forall t: Tx :: Visible(db', t) == Visible(db, t);
    forall t: Tx, c: string
      ensures Sees(env, db', t, c)
    {
      assert Sees(env, db, t, c);
    }
    forall t: Tx
      ensures LinkFresh(db', t)
    {
      assert LinkFresh(db, t);
      if t == l.tx && l.ReadLatest? {
        var c := TxnOf(db, t).phase.caseId;
        assert Sees(env, db, t, c);
        LatestIsLast(env, db, t, c);
      }
    }
  }

  lemma {:induction false} LatestIsLast(env: Env, db: Db, t: Tx, c: string)
    requires Sees(env, db, t, c)
    ensures var xs := CaseEvents(Visible(db, t), c); LatestHash(Visible(db, t), c) == HashBefore(xs, |xs|)
  {
    hide Before, Storable, LinkOk;
    HealthyIsListed(env, Visible(db, t), c);
  }

  lemma InsertViews(env: Env, db: Db, l: Label, db': Db)
    requires ChainsOk(env, db) && LinksFresh(db) && l.Insert? && Step(env, db, l) == Some(db')
    ensures ChainsOk(env, db') && LinksFresh(db')
  {
    hide Healthy, Before, Storable, EventHash, List;
    var me := l.tx;
    forall t: Tx, c: string
      ensures Sees(env, db', t, c)
    {
      assert Sees(env, db, t, c);
      if t == me {
        InsertedView(env, db, l, db', c);
      } else {
        assert Visible(db', t) == Visible(db, t);
      }
    }
    forall t: Tx
      ensures LinkFresh(db', t)
    {
      assert LinkFresh(db, t);
      assert t != me ==> Visible(db', t) == Visible(db, t);
    }
  }

  lemma InsertedView(env: Env, db: Db, l: Label, db': Db, c: string)
    requires Sees(env, db, l.tx, c) && LinkFresh(db, l.tx) && l.Insert? && Step(env, db, l) == Some(db')
    ensures Sees(env, db', l.tx, c)
  {
    hide Healthy, Before, Storable, EventHash, LinkOk;
    var previous := TxnOf(db, l.tx).phase.previous;
    var e := NewEvent(env.sha, l.draft, previous, l.id, l.now);
    var before := Visible(db, l.tx);
    assert Visible(db', l.tx) == before + [e];
    CaseEventsSnoc(before, e, c);
    if c == l.draft.caseId {
      HealthyIsListed(env, before, c);
      NewEventLinks(env.sha, l.draft, previous, l.id, l.now);
      HealthyExtends(env.sha, CaseEvents(before, c), e);
      assert CaseEvent(e, c) == [e];
    } else {
      assert CaseEvents(before, c) + CaseEvent(e, c) == CaseEvents(before, c);
    }
  }

  lemma HealthyExtends(sha: Sha, xs: seq<Event>, e: Event)
    requires Healthy(sha, xs) && LinkOk(sha, HashBefore(xs, |xs|), e) && Storable(e)
    requires xs == [] || Before(xs[|xs| - 1], e)
    ensures Healthy(sha, xs + [e])
  {
    hide Before, Storable, LinkOk;
    ChainExtends(sha, xs, e);
    IncreasingExtends(xs, e);
  }

  lemma CommitViews(env: Env, db: Db, l: Label, db': Db)
    requires Inv(env, db) && l.Commit? && Step(env, db, l) == Some(db')
    ensures ChainsOk(env, db') && LinksFresh(db')
  {
    hide Healthy, Storable;
    var me := l.tx;
    forall t: Tx, c: string
      ensures Sees(env, db', t, c)
    {
      assert Sees(env, db, t, c) && Sees(env, db, me, c);
      CommittedView(env, db, db', me, t, c);
    }
    forall t: Tx
      ensures LinkFresh(db', t)
    {
      assert LinkFresh(db, t);
      var phase := TxnOf(db', t).phase;
      if phase.Linked? {
        assert HoldsLocks(env, db.open[t]);
        CommittedView(env, db, db', me, t, phase.caseId);
      }
    }
  }

  /** `t` is open and holds the lock of case `c`. */
  predicate OwnsCase(env: Env, db: Db, t: Tx, c: string) { t in db.open && env.lockOf(c) in db.open[t].locks }

  /** After a commit by `me`, a transaction sees of a case what it saw before if it
      holds the case's lock, and what `me` saw otherwise. */
  lemma {:induction false} CommittedView(env: Env, db: Db, db': Db, me: Tx, t: Tx, c: string)
    requires LocksOk(env, db) && FreeStep(env, db, Commit(me)) == Some(db')
    ensures CaseEvents(Visible(db', t), c) == CaseEvents(Visible(db, if OwnsCase(env, db, t, c) then t else me), c)
  {
    var mine := TxnOf(db, me);
    if t == me || t !in db.open {
      assert Visible(db', t) == db.committed + mine.pending + [] == Visible(db, me);
    } else {
      assert Visible(db', t) == (db.committed + mine.pending) + db.open[t].pending;
      if OwnsCase(env, db, t, c) {
        assert env.lockOf(c) !in mine.locks;
        NoPendingNoChange(env, mine, db.committed, c);
        CaseEventsAppend(db.committed + mine.pending, db.open[t].pending, c);
        CaseEventsAppend(db.committed, db.open[t].pending, c);
      } else {
        NoPendingNoChange(env, db.open[t], db.committed + mine.pending, c);
      }
    }
  }

  lemma RollbackViews(env: Env, db: Db, l: Label, db': Db)
    requires ChainsOk(env, db) && LinksFresh(db) && l.Rollback? && Step(env, db, l) == Some(db')
    ensures ChainsOk(env, db') && LinksFresh(db')
  {
    hide Healthy, Storable;
    var unused := UnusedTx(db.open.Keys);
    forall t: Tx, c: string
      ensures Sees(env, db', t, c)
    {
      assert Sees(env, db, t, c) && Sees(env, db, unused, c);
      assert Visible(db', t) == Visible(db, if t == l.tx then unused else t);
    }
    forall t: Tx
      ensures LinkFresh(db', t)
    {
      assert LinkFresh(db, t);
      assert t != l.tx ==> Visible(db', t) == Visible(db, t);
    }
  }

  /** Some transaction number is always unused; it sees the committed rows alone. */
  lemma {:induction false} UnusedTx(used: set<Tx>) returns (t: Tx)
    ensures t !in used && forall u <- used :: u < t
    decreases |used|
  {
    if used == {} {
      t := 0;
    } else {
      var u :| u in used;
      var rest := UnusedTx(used - {u});
      t := if rest <= u then u + 1 else rest;
      assert forall v <- used :: v == u || v in used - {u};
    }
  }

  lemma StepKeeps(env: Env, db: Db, l: Label, db': Db)
    requires Inv(env, db) && Step(env, db, l) == Some(db')
    ensures Inv(env, db')
  {
    hide *;
    assert LocksOk(env, db) && ChainsOk(env, db) && LinksFresh(db) && FatesOk(env, db) by { InvParts(env, db); }
    PendingSealed(env, db, l.tx);
    StepIsFree(env, db, l);
    LocksKeep(env, db, l, db');
    FatesKeep(env, db, l, db');
    match l {
      case Lock(_, _) => ViewsStay(env, db, l, db');
      case ReadLatest(_) => ViewsStay(env, db, l, db');
      case Insert(_, _, _, _) => InsertViews(env, db, l, db');
      case Commit(_) => CommitViews(env, db, l, db');
      case Rollback(_) => RollbackViews(env, db, l, db');
    }
    InvFromParts(env, db');
  }

  lemma StepIsFree(env: Env, db: Db, l: Label)
    ensures Step(env, db, l).Some? ==> FreeStep(env, db, l) == Step(env, db, l)
  {
    hide FreeStep, OnTime;
  }

  lemma InvParts(env: Env, db: Db)
    requires Inv(env, db)
    ensures LocksOk(env, db) && ChainsOk(env, db) && LinksFresh(db) && FatesOk(env, db)
  {
  }

  lemma InvFromParts(env: Env, db: Db)
    requires LocksOk(env, db) && ChainsOk(env, db) && LinksFresh(db) && FatesOk(env, db)
    ensures Inv(env, db)
  {
  }

  lemma {:induction false} RunKeeps(env: Env, db: Db, schedule: seq<Label>)
    requires Inv(env, db)
    ensures Inv(env, Run(env, db, schedule))
  {
    if schedule != [] {
      var before := Run(env, db, schedule[..|schedule| - 1]);
      var l := schedule[|schedule| - 1];
      RunKeeps(env, db, schedule[..|schedule| - 1]);
      if Step(env, before, l).Some? {
        StepKeeps(env, before, l, Step(env, before, l).value);
      }
    }
  }

  // ----- what holds at every point of every run -----

  lemma {:induction false} InvVerifies(env: Env, db: Db, t: Tx, c: string)
    requires Inv(env, db)
    ensures List(db.committed, c) == CaseEvents(db.committed, c)
    ensures ChainOk(env.sha, List(db.committed, c)) && ChainOk(env.sha, List(Visible(db, t), c))
    ensures AllStorable(CaseEvents(db.committed, c))
  {
    hide Healthy;
    var unused := UnusedTx(db.open.Keys);
    assert Visible(db, unused) == db.committed;
    assert Sees(env, db, unused, c) && Sees(env, db, t, c);
    HealthyIsListed(env, db.committed, c);
    HealthyIsListed(env, Visible(db, t), c);
    HealthyIsChain(env.sha, CaseEvents(db.committed, c));
    HealthyIsChain(env.sha, CaseEvents(Visible(db, t), c));
  }

  /** Whatever the schedule, the rows of a case as `list` returns them are one
      valid chain, in the order in which they were committed; a transaction that
      verifies before its own commit finds the same. */
  lemma {:induction false} EveryRunVerifies(env: Env, schedule: seq<Label>, t: Tx, c: string)
    ensures var db := Run(env, EMPTY, schedule);
            && List(db.committed, c) == CaseEvents(db.committed, c)
            && ChainOk(env.sha, List(db.committed, c))
            && ChainOk(env.sha, List(Visible(db, t), c))
  {
    hide Inv;
    InitOk(env);
    RunKeeps(env, EMPTY, schedule);
    InvVerifies(env, Run(env, EMPTY, schedule), t, c);
  }

  lemma HealthyIsChain(sha: Sha, xs: seq<Event>)
    requires Healthy(sha, xs)
    ensures ChainOk(sha, xs) && AllStorable(xs)
  {
  }

  lemma {:induction false} CommittedStorable(env: Env, schedule: seq<Label>, c: string)
    ensures AllStorable(CaseEvents(Run(env, EMPTY, schedule).committed, c))
  {
    hide Inv;
    InitOk(env);
    RunKeeps(env, EMPTY, schedule);
    InvVerifies(env, Run(env, EMPTY, schedule), 0, c);
  }

  /** The chain of a case has one root and never forks: every other event follows
      the event committed right before it, and no two follow the same one. */
  lemma {:induction false} EveryRunUnforked(env: Env, schedule: seq<Label>, c: string, xs: seq<Event>, i: nat, j: nat)
    requires xs == CaseEvents(Run(env, EMPTY, schedule).committed, c) && i < |xs| && j < |xs|
    requires HexDigests(env.sha) && NoCollision(env.sha, Materials(xs))
    ensures xs[i].previousHash == HashBefore(xs, i)
    ensures xs[i].previousHash == None <==> i == 0
    ensures xs[i].previousHash == xs[j].previousHash ==> i == j
  {
    hide *;
    EveryRunVerifies(env, schedule, 0, c);
    CommittedStorable(env, schedule, c);
    Unforked(env.sha, xs, i, j);
  }

  /** No committed event points at an event that was rolled back. */
  lemma {:induction false} RolledBackLeavesNoTrace(env: Env, schedule: seq<Label>, c: string, xs: seq<Event>, i: nat,
                                                  r: Event)
    requires xs == CaseEvents(Run(env, EMPTY, schedule).committed, c) && i < |xs|
    requires r in Run(env, EMPTY, schedule).rolledBack
    requires HexDigests(env.sha) && NoCollision(env.sha, Materials(xs) + {Material(r.previousHash, r)})
    ensures xs[i].previousHash != Some(r.eventHash)
  {
    hide *;
    EveryRunVerifies(env, schedule, 0, c);
    CommittedStorable(env, schedule, c);
    RolledBackIsStranger(env, schedule, c, r);
    StrangerNotFollowed(env.sha, xs, i, r);
  }

  lemma {:induction false} RolledBackIsStranger(env: Env, schedule: seq<Label>, c: string, r: Event)
    requires HexDigests(env.sha) && r in Run(env, EMPTY, schedule).rolledBack
    ensures Storable(r) && LinkOk(env.sha, r.previousHash, r) && DigestOrNone(r.previousHash)
    ensures forall x <- CaseEvents(Run(env, EMPTY, schedule).committed, c) :: x.id != r.id
  {
    hide Healthy, Storable, EventHash, DigestOrNone;
    InitOk(env);
    RunKeeps(env, EMPTY, schedule);
    assert Sealed(env, r);
    CaseEventsAreRows(Run(env, EMPTY, schedule).committed, c);
  }
}
