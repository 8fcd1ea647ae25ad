/** How the audit table is read: a case's events in `(created_at, id)` order, the
    latest of them, and the event that `append` builds behind it. */
module AuditTable {
  import opened Wrappers
  import opened Text
  import opened Time
  import opened Events
  import opened Chain

  /** The rows of case `c`, in the order in which they were committed or added. */
  function CaseEvents(table: seq<Event>, c: string): seq<Event> {
    if table == [] then []
    else CaseEvents(table[..|table| - 1], c) + CaseEvent(table[|table| - 1], c)
  }

  function CaseEvent(e: Event, c: string): seq<Event> { if e.caseId == Some(c) then [e] else [] }

  /** The sort key: the timestamp, ties broken by the id. */
  predicate Before(a: Event, b: Event) {
    a.createdAt.Rank() < b.createdAt.Rank() || (a.createdAt.Rank() == b.createdAt.Rank() && Less(a.id, b.id))
  }

  function InsertByKey(e: Event, xs: seq<Event>): (r: seq<Event>)
    ensures |r| == |xs| + 1
    ensures r[|xs|] == if xs == [] || Before(xs[|xs| - 1], e) then e else xs[|xs| - 1]
  {
    if xs == [] || Before(xs[|xs| - 1], e) then xs + [e]
    else InsertByKey(e, xs[..|xs| - 1]) + [xs[|xs| - 1]]
  }

  function SortByKey(xs: seq<Event>): seq<Event> {
    if xs == [] then [] else InsertByKey(xs[|xs| - 1], SortByKey(xs[..|xs| - 1]))
  }

  function List(table: seq<Event>, c: string): seq<Event> { SortByKey(CaseEvents(table, c)) }

  function LatestHash(table: seq<Event>, c: string): Option<string> {
    HashBefore(List(table, c), |List(table, c)|)
  }

  function NewEvent(sha: Sha, draft: Draft, previous: Option<string>, id: string, now: Instant): Event {
    var e := Event(id, Some(draft.caseId), draft.eventType, draft.actorId, draft.resourceType, draft.resourceId,
                   draft.operation, draft.inputHash, draft.outputHash, draft.metadata, previous, "", now);
    e.(eventHash := EventHash(sha, previous, e))
  }

  /** The event that `append` builds records its draft, the id, the time and the link that
      it is given, and the hash of its own content behind that link. */
  lemma NewEventLinks(sha: Sha, draft: Draft, previous: Option<string>, id: string, now: Instant)
    ensures var e := NewEvent(sha, draft, previous, id, now);
            FromDraft(e, draft) && e.id == id && e.createdAt == now && LinkOk(sha, previous, e)
  {
    var e := NewEvent(sha, draft, previous, id, now);
    assert Fields(e) == Fields(e.(eventHash := ""));
  }

  lemma BeforeTransitive(a: Event, b: Event, c: Event)
    requires Before(a, b) && Before(b, c)
    ensures Before(a, c)
  {
    if Less(a.id, b.id) && Less(b.id, c.id) {
      LessTransitive(a.id, b.id, c.id);
    }
  }

  lemma BeforeTotal(a: Event, b: Event)
    requires a.id != b.id
    ensures Before(a, b) != Before(b, a)
  {
    LessTotal(a.id, b.id);
  }

  predicate Increasing(xs: seq<Event>) { forall i, j | 0 <= i < j < |xs| :: Before(xs[i], xs[j]) }

  predicate DistinctIds(xs: seq<Event>) { forall i, j | 0 <= i < j < |xs| :: xs[i].id != xs[j].id }

  lemma IncreasingExtends(xs: seq<Event>, e: Event)
    requires Increasing(xs) && (xs == [] || Before(xs[|xs| - 1], e))
    ensures Increasing(xs + [e])
  {
    forall i | 0 <= i < |xs|
      ensures Before(xs[i], e)
    {
      if i < |xs| - 1 {
        BeforeTransitive(xs[i], xs[|xs| - 1], e);
      }
    }
  }

  // ----- sorting -----

  lemma {:induction false} InsertByKeyOrders(e: Event, xs: seq<Event>)
    requires Increasing(xs) && forall x <- xs :: x.id != e.id
    ensures Increasing(InsertByKey(e, xs))
  {
    hide Before;
    if xs == [] || Before(xs[|xs| - 1], e) {
      IncreasingExtends(xs, e);
    } else {
      var front, last := xs[..|xs| - 1], xs[|xs| - 1];
      InsertByKeyOrders(e, front);
      BeforeTotal(last, e);
      IncreasingExtends(InsertByKey(e, front), last);
    }
  }

  lemma {:induction false} InsertByKeyRows(e: Event, xs: seq<Event>)
    ensures multiset(InsertByKey(e, xs)) == multiset(xs) + multiset{e}
  {
    if xs != [] && !Before(xs[|xs| - 1], e) {
      InsertByKeyRows(e, xs[..|xs| - 1]);
      assert xs == xs[..|xs| - 1] + [xs[|xs| - 1]];
    }
  }

  /** `list` returns the rows it selects, each once, in key order. */
  lemma {:induction false} SortByKeySorts(xs: seq<Event>)
    requires DistinctIds(xs)
    ensures multiset(SortByKey(xs)) == multiset(xs) && Increasing(SortByKey(xs))
  {
    hide Before;
    if xs != [] {
      var front, last := xs[..|xs| - 1], xs[|xs| - 1];
      assert xs == front + [last];
      SortByKeySorts(front);
      forall x | x in SortByKey(front)
        ensures x.id != last.id
      {
        assert x in multiset(front);
      }
      InsertByKeyOrders(last, SortByKey(front));
      InsertByKeyRows(last, SortByKey(front));
    }
  }

  lemma {:induction false} SortedStays(xs: seq<Event>)
    requires Increasing(xs)
    ensures SortByKey(xs) == xs
  {
    if xs != [] {
      SortedStays(xs[..|xs| - 1]);
      assert xs == xs[..|xs| - 1] + [xs[|xs| - 1]];
    }
  }

  lemma {:induction false} CaseEventsSnoc(table: seq<Event>, e: Event, c: string)
    ensures CaseEvents(table + [e], c) == CaseEvents(table, c) + CaseEvent(e, c)
  {
    assert (table + [e])[..|table|] == table;
  }

  lemma {:induction false} CaseEventsAppend(a: seq<Event>, b: seq<Event>, c: string)
    ensures CaseEvents(a + b, c) == CaseEvents(a, c) + CaseEvents(b, c)
  {
    if b == [] {
      assert a + b == a;
    } else {
      var front, last := b[..|b| - 1], b[|b| - 1];
      CaseEventsAppend(a, front, c);
      assert a + b == (a + front) + [last];
      CaseEventsSnoc(a + front, last, c);
      Assoc(CaseEvents(a, c), CaseEvents(front, c), CaseEvent(last, c));
    }
  }

  lemma {:induction false} CaseEventsAreRows(table: seq<Event>, c: string)
    ensures forall e :: e in CaseEvents(table, c) <==> e in table && e.caseId == Some(c)
  {
    if table != [] {
      var front, last := table[..|table| - 1], table[|table| - 1];
      assert table == front + [last];
      CaseEventsAreRows(front, c);
    }
  }

  lemma {:induction false} NoCaseEvents(table: seq<Event>, c: string)
    requires forall e <- table :: e.caseId != Some(c)
    ensures CaseEvents(table, c) == []
  {
    if table != [] {
      NoCaseEvents(table[..|table| - 1], c);
    }
  }

  // ----- why the clock matters -----

  /** An event appended behind the latest one of a valid chain keeps `verify` valid
      exactly when its sort key is larger than the latest one's: a clock that
      stands still and a smaller random id break the chain. */
  lemma {:induction false} AppendVerifiesIffLater(sha: Sha, xs: seq<Event>, e: Event)
    requires HexDigests(sha) && ChainOk(sha, xs) && AllStorable(xs) && NoCollision(sha, Materials(xs))
    requires Increasing(xs) && LinkOk(sha, HashBefore(xs, |xs|), e)
    ensures ChainOk(sha, SortByKey(xs + [e])) <==> xs == [] || Before(xs[|xs| - 1], e)
  {
    hide Before, EventHash, Storable, SortByKey, InsertByKey;
    SortedStays(xs);
    SortLast(xs, e);
    ChainExtends(sha, xs, e);
    if xs != [] && !Before(xs[|xs| - 1], e) {
      MisplacedBreaks(sha, xs, e);
    }
  }

  lemma {:induction false} SortLast(xs: seq<Event>, e: Event)
    requires SortByKey(xs) == xs
    ensures SortByKey(xs + [e]) == InsertByKey(e, xs)
    ensures xs == [] || Before(xs[|xs| - 1], e) ==> InsertByKey(e, xs) == xs + [e]
  {
    assert (xs + [e])[..|xs|] == xs;
  }

  lemma {:induction false} MisplacedBreaks(sha: Sha, xs: seq<Event>, e: Event)
    requires HexDigests(sha) && ChainOk(sha, xs) && AllStorable(xs) && NoCollision(sha, Materials(xs))
    requires xs != [] && !Before(xs[|xs| - 1], e) && e.previousHash == HashBefore(xs, |xs|)
    ensures !ChainOk(sha, InsertByKey(e, xs))
  {
    hide Before, Storable, EventHash, InsertByKey;
    var p := InsertPosition(e, xs);
    var ys := InsertByKey(e, xs);
    if ChainOk(sha, ys) {
      assert LinkAt(sha, ys, p);
      assert HashBefore(ys, p) == HashBefore(xs, p);
      HashesDistinct(sha, xs, p - 1, |xs| - 1);
    }
  }

  lemma {:induction false} InsertPosition(e: Event, xs: seq<Event>) returns (p: nat)
    ensures p <= |xs| && InsertByKey(e, xs) == xs[..p] + [e] + xs[p..]
    ensures p < |xs| <==> xs != [] && !Before(xs[|xs| - 1], e)
  {
    if xs == [] || Before(xs[|xs| - 1], e) {
      p := |xs|;
    } else {
      p := InsertPosition(e, xs[..|xs| - 1]);
    }
  }

  // ----- the order in terms of time and text -----

  /** Event `b` follows `a`: it is later, or has the larger id in code point order at the same time. */
  predicate Follows(a: Event, b: Event) {
    Earlier(a.createdAt, b.createdAt) || (a.createdAt == b.createdAt && Precedes(a.id, b.id))
  }

  lemma BeforeIffFollows(a: Event, b: Event)
    requires Storable(a) && Storable(b)
    ensures Before(a, b) <==> Follows(a, b)
  {
    hide Earlier, Less, Precedes;
    RankIsTime(a.createdAt, b.createdAt);
    LessIffPrecedes(a.id, b.id);
  }

  lemma {:induction false} CaseEventsDiffer(table: seq<Event>, c: string)
    requires DistinctIds(table)
    ensures DistinctIds(CaseEvents(table, c))
  {
    if table != [] {
      var front, last := table[..|table| - 1], table[|table| - 1];
      CaseEventsDiffer(front, c);
      CaseEventsAreRows(front, c);
      forall e | e in CaseEvents(front, c) ensures e.id != last.id {
        var i :| 0 <= i < |front| && front[i] == e;
        assert table[i].id != last.id;
      }
    }
  }

  /** `list` returns exactly the events of the case, the earlier ones first and those of
      one instant by id. */
  lemma {:induction false} ListedInTime(table: seq<Event>, c: string)
    requires DistinctIds(table) && AllStorable(CaseEvents(table, c))
    ensures var xs := List(table, c);
            && (forall e :: e in xs <==> e in table && e.caseId == Some(c))
            && forall i, j | 0 <= i < j < |xs| :: Follows(xs[i], xs[j])
  {
    hide Before, Follows, SortByKey, Storable;
    var rows, xs := CaseEvents(table, c), List(table, c);
    CaseEventsDiffer(table, c);
    CaseEventsAreRows(table, c);
    SortByKeySorts(rows);
    assert forall e :: e in xs <==> e in multiset(xs);
    assert forall e :: e in rows <==> e in multiset(rows);
    forall i, j | 0 <= i < j < |xs| ensures Follows(xs[i], xs[j]) {
      assert xs[i] in rows && xs[j] in rows && Before(xs[i], xs[j]);
      BeforeIffFollows(xs[i], xs[j]);
    }
  }

  /** `h` is what the next event of the case links to: nothing if it has no event, and
      otherwise the hash of an event that none of them follows. */
  predicate LatestIn(table: seq<Event>, c: string, h: Option<string>) {
    match h
    case None => forall e <- table :: e.caseId != Some(c)
    case Some(hash) => exists e <- table :: e.eventHash == hash && IsLatest(table, c, e)
  }

  predicate IsLatest(table: seq<Event>, c: string, e: Event) {
    e.caseId == Some(c) && forall x <- table :: x.caseId == Some(c) ==> !Follows(e, x)
  }

  lemma {:induction false} LastIsGreatest(xs: seq<Event>)
    ensures |SortByKey(xs)| == |xs|
    ensures xs != [] ==> var last := SortByKey(xs)[|xs| - 1]; last in xs && forall x <- xs :: !Before(last, x)
  {
    hide Before;
    if xs != [] {
      var front, e := xs[..|xs| - 1], xs[|xs| - 1];
      LastIsGreatest(front);
      assert xs == front + [e];
      NotBeforeItself(e);
      if front != [] {
        var last := SortByKey(front)[|front| - 1];
        if Before(last, e) {
          forall x | x in front ensures !Before(e, x) {
            if Before(e, x) { BeforeTransitive(last, e, x); }
          }
        }
      }
    }
  }

  lemma NotBeforeItself(e: Event)
    ensures !Before(e, e)
  {
    LessIrreflexive(e.id);
  }

  /** `latest` finds the event of the case that no other one follows. */
  lemma {:induction false} LatestIs(table: seq<Event>, c: string)
    requires AllStorable(CaseEvents(table, c))
    ensures LatestIn(table, c, LatestHash(table, c))
  {
    hide Before, Follows, SortByKey, Storable;
    var rows := CaseEvents(table, c);
    CaseEventsAreRows(table, c);
    LastIsGreatest(rows);
    if rows == [] {
      assert forall e | e in table :: e.caseId == Some(c) ==> e in rows;
    } else {
      var e := SortByKey(rows)[|rows| - 1];
      forall x | x in table && x.caseId == Some(c) ensures !Follows(e, x) {
        assert x in rows && e in rows;
        BeforeIffFollows(e, x);
      }
      assert IsLatest(table, c, e);
    }
  }

  /** An event is past the last one of an ordered listing exactly when it follows them all. */
  lemma PastLatest(xs: seq<Event>, e: Event)
    requires Increasing(xs) && AllStorable(xs) && Storable(e)
    ensures (xs == [] || Before(xs[|xs| - 1], e)) <==> forall x <- xs :: Follows(x, e)
  {
    hide Before, Follows, Storable;
    if xs != [] {
      var last := xs[|xs| - 1];
      BeforeIffFollows(last, e);
      forall x | x in xs && Before(last, e) ensures Follows(x, e) {
        var i :| 0 <= i < |xs| && xs[i] == x;
        if i < |xs| - 1 { BeforeTransitive(x, last, e); }
        BeforeIffFollows(x, e);
      }
    }
  }
}
