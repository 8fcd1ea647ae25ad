/** The same transactions under any clock, also one that stands still or runs back:
    when `verify` accepts what they leave. */
module AuditClock {
  import opened Wrappers
  import opened Events
  import opened Chain
  import opened AuditTable
  import opened AuditRun
  import opened Time
  import Json

  /** A schedule without the clock condition. */
  function FreeRun(env: Env, db: Db, schedule: seq<Label>): Db {
    if schedule == [] then db
    else
      var before := FreeRun(env, db, schedule[..|schedule| - 1]);
      var after := FreeStep(env, before, schedule[|schedule| - 1]);
      if after.Some? then after.value else before
  }

  // ----- how the rows of a case are built -----

  /** The hash that an append behind the rows `xs` links to: that of the last one in key order. */
  function LatestOf(xs: seq<Event>): Option<string> { HashBefore(SortByKey(xs), |SortByKey(xs)|) }

  predicate BuiltAt(sha: Sha, xs: seq<Event>, i: nat)
    requires i < |xs|
  {
    LinkOk(sha, LatestOf(xs[..i]), xs[i])
  }

  /** Each row links to what was the latest one when it was inserted. */
  predicate Built(sha: Sha, xs: seq<Event>) {
    AllStorable(xs) && DistinctIds(xs) && forall i | 0 <= i < |xs| :: BuiltAt(sha, xs, i)
  }

  lemma BuiltExtends(sha: Sha, xs: seq<Event>, e: Event)
    requires Built(sha, xs) && LinkOk(sha, LatestOf(xs), e) && Storable(e) && forall x <- xs :: x.id != e.id
    ensures Built(sha, xs + [e])
  {
    hide LinkOk, LatestOf, Storable;
    var ys := xs + [e];
    assert ys[..|xs|] == xs;
    forall i | 0 <= i < |ys|
      ensures BuiltAt(sha, ys, i)
    {
      if i < |xs| { assert BuiltAt(sha, xs, i) && ys[..i] == xs[..i]; }
    }
  }

  // ----- the invariant -----

  ghost predicate Sound(env: Env, db: Db, t: Tx, c: string) { Built(env.sha, CaseEvents(Visible(db, t), c)) }

  predicate LinkCurrent(db: Db, t: Tx) {
    var phase := TxnOf(db, t).phase;
    phase.Linked? ==> phase.previous == LatestOf(CaseEvents(Visible(db, t), phase.caseId))
  }

  predicate IdsKnown(db: Db, t: Tx) { forall e <- Visible(db, t) :: e.id in db.fates }

  ghost predicate FreeInv(env: Env, db: Db) {
    && LocksOk(env, db)
    && (forall t: Tx, c: string :: Sound(env, db, t, c))
    && (forall t: Tx :: LinkCurrent(db, t) && IdsKnown(db, t))
  }

  lemma FreeInitOk(env: Env)
    ensures FreeInv(env, EMPTY)
  {
    forall t: Tx, c: string
      ensures Sound(env, EMPTY, t, c) && IdsKnown(EMPTY, t)
    {
      assert Visible(EMPTY, t) == [];
    }
  }

  lemma ReadKeeps(env: Env, db: Db, l: Label, db': Db)
    requires FreeInv(env, db) && FreeStep(env, db, l) == Some(db') && (l.Lock? || l.ReadLatest?)
    ensures FreeInv(env, db')
  {
    LocksKeep(env, db, l, db');
    hide LocksOk, LatestOf, Built;
    assert forall t: Tx :: Visible(db', t) == Visible(db, t);
    forall t: Tx, c: string
      ensures Sound(env, db', t, c)
    {
      assert Sound(env, db, t, c);
    }
    forall t: Tx
      ensures LinkCurrent(db', t) && IdsKnown(db', t)
    {
      assert LinkCurrent(db, t) && IdsKnown(db, t);
      if t == l.tx && l.ReadLatest? { ReadIsLatest(Visible(db, t), TxnOf(db, t).phase.caseId); }
    }
  }

  lemma {:induction false} ReadIsLatest(table: seq<Event>, c: string)
    ensures LatestHash(table, c) == LatestOf(CaseEvents(table, c))
  {
  }

  lemma InsertKeeps(env: Env, db: Db, l: Label, db': Db)
    requires FreeInv(env, db) && FreeStep(env, db, l) == Some(db') && l.Insert?
    ensures FreeInv(env, db')
  {
    LocksKeep(env, db, l, db');
    hide LocksOk, LatestOf, Built, Storable, EventHash;
    forall t: Tx, c: string
      ensures Sound(env, db', t, c)
    {
      assert Sound(env, db, t, c) && LinkCurrent(db, t) && IdsKnown(db, t);
      if t == l.tx {
        InsertedIsSound(env, db, l, db', c);
      } else {
        assert Visible(db', t) == Visible(db, t);
      }
    }
    forall t: Tx
      ensures LinkCurrent(db', t) && IdsKnown(db', t)
    {
      assert LinkCurrent(db, t) && IdsKnown(db, t);
      if t == l.tx {
        assert Sound(env, db, t, l.draft.caseId);
        InsertedIsSound(env, db, l, db', l.draft.caseId);
      } else {
        assert Visible(db', t) == Visible(db, t);
      }
    }
  }

  lemma InsertedIsSound(env: Env, db: Db, l: Label, db': Db, c: string)
    requires Sound(env, db, l.tx, c) && LinkCurrent(db, l.tx) && IdsKnown(db, l.tx)
    requires l.Insert? && FreeStep(env, db, l) == Some(db')
    ensures Sound(env, db', l.tx, c) && IdsKnown(db', l.tx)
  {
    hide Built, LatestOf, Storable, EventHash, LinkOk;
    var previous := TxnOf(db, l.tx).phase.previous;
    var e := NewEvent(env.sha, l.draft, previous, l.id, l.now);
    var before := Visible(db, l.tx);
    assert Visible(db', l.tx) == before + [e];
    CaseEventsSnoc(before, e, c);
    CaseEventsAreRows(before, c);
    if c == l.draft.caseId {
      NewEventLinks(env.sha, l.draft, previous, l.id, l.now);
      BuiltExtends(env.sha, CaseEvents(before, c), e);
    } else {
      assert CaseEvents(before, c) + CaseEvent(e, c) == CaseEvents(before, c);
    }
  }

  lemma CommitKeeps(env: Env, db: Db, l: Label, db': Db)
    requires FreeInv(env, db) && FreeStep(env, db, l) == Some(db') && l.Commit?
    ensures FreeInv(env, db')
  {
    LocksKeep(env, db, l, db');
    hide Built, LatestOf;
    var me := l.tx;
    forall t: Tx, c: string
      ensures Sound(env, db', t, c)
    {
      assert Sound(env, db, t, c) && Sound(env, db, me, c);
      CommittedView(env, db, db', me, t, c);
    }
    forall t: Tx
      ensures LinkCurrent(db', t) && IdsKnown(db', t)
    {
      assert LinkCurrent(db, t) && IdsKnown(db, t) && IdsKnown(db, me);
      var phase := TxnOf(db', t).phase;
      if phase.Linked? {
        assert HoldsLocks(env, db.open[t]);
        CommittedView(env, db, db', me, t, phase.caseId);
      }
    }
  }

  lemma RollbackKeeps(env: Env, db: Db, l: Label, db': Db)
    requires FreeInv(env, db) && FreeStep(env, db, l) == Some(db') && l.Rollback?
    ensures FreeInv(env, db')
  {
    LocksKeep(env, db, l, db');
    hide LocksOk, Built, LatestOf;
    var unused := UnusedTx(db.open.Keys);
    forall t: Tx, c: string
      ensures Sound(env, db', t, c)
    {
      assert Sound(env, db, t, c) && Sound(env, db, unused, c);
      assert Visible(db', t) == Visible(db, if t == l.tx then unused else t);
    }
    forall t: Tx
      ensures LinkCurrent(db', t) && IdsKnown(db', t)
    {
      assert LinkCurrent(db, t) && IdsKnown(db, t) && IdsKnown(db, unused);
      assert Visible(db', t) == Visible(db, if t == l.tx then unused else t);
    }
  }

  lemma {:induction false} FreeRunKeeps(env: Env, schedule: seq<Label>)
    ensures FreeInv(env, FreeRun(env, EMPTY, schedule))
  {
    hide FreeInv, FreeStep;
    if schedule == [] {
      FreeInitOk(env);
    } else {
      var before, l := FreeRun(env, EMPTY, schedule[..|schedule| - 1]), schedule[|schedule| - 1];
      FreeRunKeeps(env, schedule[..|schedule| - 1]);
      var after := FreeStep(env, before, l);
      if after.Some? {
        match l {
          case Lock(_, _) => ReadKeeps(env, before, l, after.value);
          case ReadLatest(_) => ReadKeeps(env, before, l, after.value);
          case Insert(_, _, _, _) => InsertKeeps(env, before, l, after.value);
          case Commit(_) => CommitKeeps(env, before, l, after.value);
          case Rollback(_) => RollbackKeeps(env, before, l, after.value);
        }
      }
    }
  }

  // ----- valid exactly in key order -----

  function OwnMaterials(xs: seq<Event>): set<seq<Utf8.Byte>> { set e | e in xs :: Material(e.previousHash, e) }

  lemma {:induction false} OrderedIsValid(sha: Sha, xs: seq<Event>)
    requires Built(sha, xs) && Increasing(xs)
    ensures ChainOk(sha, SortByKey(xs))
  {
    hide Before, Storable, EventHash, SortByKey;
    SortedStays(xs);
    forall i | 0 <= i < |xs|
      ensures LinkAt(sha, xs, i)
    {
      assert BuiltAt(sha, xs, i);
      assert Increasing(xs[..i]);
      SortedStays(xs[..i]);
    }
  }

  /** The first row that does not follow the one before it in key order. */
  lemma {:induction false} FirstDisorder(xs: seq<Event>) returns (k: nat)
    requires !Increasing(xs)
    ensures 0 < k < |xs| && Increasing(xs[..k]) && !Before(xs[k - 1], xs[k])
  {
    hide Before;
    var n := |xs| - 1;
    if Increasing(xs[..n]) {
      k := n;
      if Before(xs[n - 1], xs[n]) {
        IncreasingExtends(xs[..n], xs[n]);
        assert xs[..n] + [xs[n]] == xs;
      }
    } else {
      k := FirstDisorder(xs[..n]);
      assert xs[..n][..k] == xs[..k];
    }
  }

  lemma IndexIn(xs: seq<Event>, ys: seq<Event>, e: Event) returns (i: nat)
    requires multiset(xs) == multiset(ys) && e in xs
    ensures i < |ys| && ys[i] == e
  {
    assert e in multiset(ys);
    i :| 0 <= i < |ys| && ys[i] == e;
  }

  lemma MaterialsAreOwn(sha: Sha, xs: seq<Event>, ys: seq<Event>)
    requires multiset(xs) == multiset(ys) && ChainOk(sha, ys)
    ensures Materials(ys) <= OwnMaterials(xs)
  {
    hide Material, EventHash;
    forall i | 0 <= i < |ys|
      ensures MaterialAt(ys, i) in OwnMaterials(xs)
    {
      assert LinkAt(sha, ys, i);
      assert ys[i] in multiset(xs);
    }
  }

  lemma {:induction false} ValidIsOrdered(sha: Sha, xs: seq<Event>)
    requires Built(sha, xs) && HexDigests(sha) && NoCollision(sha, OwnMaterials(xs))
    requires ChainOk(sha, SortByKey(xs))
    ensures Increasing(xs)
  {
    hide Before, Storable, EventHash, SortByKey, Material, LinkOk, NoCollision, ChainOk;
    if !Increasing(xs) {
      var k := FirstDisorder(xs);
      SortByKeySorts(xs);
      LinksBack(sha, xs, k);
      LinkedIsBehind(sha, xs, SortByKey(xs), k);
    }
  }

  /** The first row out of order was linked to the one inserted before it. */
  lemma LinksBack(sha: Sha, xs: seq<Event>, k: nat)
    requires Built(sha, xs) && 0 < k < |xs| && Increasing(xs[..k])
    ensures xs[k].previousHash == Some(xs[k - 1].eventHash)
  {
    hide Before, Storable, EventHash, SortByKey, Increasing;
    assert BuiltAt(sha, xs, k);
    SortedStays(xs[..k]);
  }

  /** In a valid chain in key order, a row is behind the one that it links to. */
  lemma LinkedIsBehind(sha: Sha, xs: seq<Event>, ys: seq<Event>, k: nat)
    requires multiset(xs) == multiset(ys) && Increasing(ys) && AllStorable(xs)
    requires HexDigests(sha) && NoCollision(sha, OwnMaterials(xs)) && ChainOk(sha, ys)
    requires 0 < k < |xs| && xs[k].previousHash == Some(xs[k - 1].eventHash)
    ensures Before(xs[k - 1], xs[k])
  {
    hide Before, Storable, EventHash, Material, OwnMaterials, Materials;
    MaterialsAreOwn(sha, xs, ys);
    SameRowsStorable(xs, ys);
    var p := IndexIn(xs, ys, xs[k - 1]);
    var q := IndexIn(xs, ys, xs[k]);
    assert LinkAt(sha, ys, q);
    FewerMaterials(sha, Materials(ys), OwnMaterials(xs));
    HashesDistinct(sha, ys, q - 1, p);
  }

  lemma FewerMaterials(sha: Sha, few: set<seq<Utf8.Byte>>, all: set<seq<Utf8.Byte>>)
    requires few <= all && NoCollision(sha, all)
    ensures NoCollision(sha, few)
  {
  }

  lemma SameRowsStorable(xs: seq<Event>, ys: seq<Event>)
    requires multiset(xs) == multiset(ys) && AllStorable(xs)
    ensures AllStorable(ys)
  {
    hide Storable;
    forall e | e in ys
      ensures Storable(e)
    {
      assert e in multiset(xs);
    }
  }

  /** Whatever the clock does, at every point of every run: `verify` accepts the rows
      of a case exactly when they were committed in the order of their sort keys. */
  lemma {:induction false} VerifyIffKeyOrder(env: Env, schedule: seq<Label>, c: string)
    requires HexDigests(env.sha)
    requires NoCollision(env.sha, OwnMaterials(CaseEvents(FreeRun(env, EMPTY, schedule).committed, c)))
    ensures var table := FreeRun(env, EMPTY, schedule).committed;
            ChainOk(env.sha, List(table, c)) <==> Increasing(CaseEvents(table, c))
  {
    hide FreeRun, Built, LocksOk, ChainOk, Increasing, SortByKey, NoCollision, OwnMaterials;
    var db := FreeRun(env, EMPTY, schedule);
    FreeRunKeeps(env, schedule);
    var unused := UnusedTx(db.open.Keys);
    assert Visible(db, unused) == db.committed;
    assert Sound(env, db, unused, c);
    var xs := CaseEvents(db.committed, c);
    if Increasing(xs) {
      OrderedIsValid(env.sha, xs);
    } else if ChainOk(env.sha, SortByKey(xs)) {
      ValidIsOrdered(env.sha, xs);
    }
  }

  // ----- a clock that stands still -----

  /** One append and its commit, with nothing in between. */
  function Alone(t: Tx, draft: Draft, id: string, now: Instant): seq<Label> {
    [Lock(t, draft.caseId), ReadLatest(t), Insert(t, draft, id, now), Commit(t)]
  }

  lemma {:induction false} FreeRunJoins(env: Env, db: Db, a: seq<Label>, b: seq<Label>)
    ensures FreeRun(env, db, a + b) == FreeRun(env, FreeRun(env, db, a), b)
  {
    hide FreeStep;
    if b == [] {
      assert a + b == a;
    } else {
      FreeRunJoins(env, db, a, b[..|b| - 1]);
      assert (a + b)[..|a + b| - 1] == a + b[..|b| - 1];
    }
  }

  lemma {:induction false} FreeRunOne(env: Env, db: Db, l: Label)
    requires FreeStep(env, db, l).Some?
    ensures FreeRun(env, db, [l]) == FreeStep(env, db, l).value
  {
    hide FreeStep;
    assert [l][..0] == [];
    assert FreeRun(env, db, []) == db;
  }

  lemma AppendsAlone(env: Env, db: Db, t: Tx, draft: Draft, id: string, now: Instant) returns (e: Event, after: Db)
    requires db.open == map[] && id !in db.fates
    requires forall previous :: Storable(NewEvent(env.sha, draft, previous, id, now))
    ensures FreeRun(env, db, Alone(t, draft, id, now)) == after
    ensures after.open == map[] && after.committed == db.committed + [e] && after.fates.Keys == db.fates.Keys + {id}
    ensures e.id == id && e.createdAt == now && e.caseId == Some(draft.caseId)
  {
    hide Storable, EventHash, List, LatestHash;
    var labels := Alone(t, draft, id, now);
    var key, c := env.lockOf(draft.caseId), draft.caseId;
    var previous := LatestHash(db.committed, c);
    e := NewEvent(env.sha, draft, previous, id, now);
    var locked := NO_TXN.(locks := NO_TXN.locks + {key}, phase := Locked(c));
    var a := db.(open := db.open[t := locked]);
    assert FreeStep(env, db, labels[0]) == Some(a);
    assert Visible(a, t) == db.committed;
    var linked := locked.(phase := Linked(c, previous));
    var b := a.(open := a.open[t := linked]);
    assert FreeStep(env, a, labels[1]) == Some(b);
    var d := b.(open := b.open[t := linked.(pending := linked.pending + [e], phase := Idle)],
                fates := b.fates[id := Pending(t)]);
    assert FreeStep(env, b, labels[2]) == Some(d);
    after := FreeStep(env, d, labels[3]).value;
    FreeRunOne(env, db, labels[0]);
    FreeRunOne(env, a, labels[1]);
    FreeRunOne(env, b, labels[2]);
    FreeRunOne(env, d, labels[3]);
    FreeRunJoins(env, db, [labels[0]], [labels[1]]);
    FreeRunJoins(env, db, [labels[0]] + [labels[1]], [labels[2]]);
    FreeRunJoins(env, db, [labels[0]] + [labels[1]] + [labels[2]], [labels[3]]);
    assert labels == [labels[0]] + [labels[1]] + [labels[2]] + [labels[3]];
  }

  /** Two appends to one case, one after the other, at the same clock reading; the second got the smaller id. */
  function StandsStill(draft: Draft, now: Instant): seq<Label> { Alone(0, draft, "b", now) + Alone(1, draft, "a", now) }

  lemma TwoRows(first: Event, second: Event, c: string)
    requires first.caseId == Some(c) && second.caseId == Some(c)
    ensures CaseEvents([] + [first] + [second], c) == [first, second]
  {
    CaseEventsSnoc([first], second, c);
    CaseEventsSnoc([], first, c);
  }

  lemma SmallerIdFirst(first: Event, second: Event)
    requires first.createdAt == second.createdAt && first.id == "b" && second.id == "a"
    ensures !Before(first, second)
  {
    assert "b"[0] != "a"[0];
  }

  lemma AlwaysStorable(env: Env, draft: Draft, id: string, now: Instant)
    requires Json.WellFormedMembers(draft.metadata) && now.Valid()
    ensures forall previous :: Storable(NewEvent(env.sha, draft, previous, id, now))
  {
    hide EventHash;
  }

  /** What `append` leaves then is refused by `verify`, with nothing tampered with. */
  lemma {:induction false} ClockStandsStill(env: Env, draft: Draft, now: Instant)
    requires Json.WellFormedMembers(draft.metadata) && now.Valid()
    ensures var rows := CaseEvents(FreeRun(env, EMPTY, StandsStill(draft, now)).committed, draft.caseId);
            && |rows| == 2 && rows[0].id == "b" && rows[1].id == "a" && !Increasing(rows)
            && (HexDigests(env.sha) && NoCollision(env.sha, OwnMaterials(rows)) ==>
                  !ChainOk(env.sha, List(FreeRun(env, EMPTY, StandsStill(draft, now)).committed, draft.caseId)))
  {
    hide FreeRun, Built, LocksOk, ChainOk, List, NoCollision, OwnMaterials, NewEvent, Storable, CaseEvents, Before;
    var c := draft.caseId;
    AlwaysStorable(env, draft, "b", now);
    AlwaysStorable(env, draft, "a", now);
    var first, db := AppendsAlone(env, EMPTY, 0, draft, "b", now);
    var second, after := AppendsAlone(env, db, 1, draft, "a", now);
    FreeRunJoins(env, EMPTY, Alone(0, draft, "b", now), Alone(1, draft, "a", now));
    assert after.committed == ([] + [first]) + [second];
    TwoRows(first, second, c);
    SmallerIdFirst(first, second);
    var rows := CaseEvents(after.committed, c);
    assert !Before(rows[0], rows[1]);
    if HexDigests(env.sha) && NoCollision(env.sha, OwnMaterials(rows)) {
      VerifyIffKeyOrder(env, StandsStill(draft, now), c);
    }
  }
}
