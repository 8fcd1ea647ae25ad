/** The hash chain of one case: what `verify` decides, what a valid chain binds,
    and where tampering shows. */
module Chain {
  import opened Wrappers
  import opened Utf8
  import opened Events
  import Json

  type Sha = seq<Byte> -> string

  ghost predicate HexDigests(sha: Sha) { forall bytes :: DigestOrNone(Some(sha(bytes))) }

  function HashBefore(xs: seq<Event>, i: nat): Option<string>
    requires i <= |xs|
  {
    if i == 0 then None else Some(xs[i - 1].eventHash)
  }

  predicate LinkOk(sha: Sha, previous: Option<string>, e: Event) {
    e.previousHash == previous && e.eventHash == EventHash(sha, previous, e)
  }

  predicate LinkAt(sha: Sha, xs: seq<Event>, i: nat)
    requires i < |xs|
  {
    LinkOk(sha, HashBefore(xs, i), xs[i])
  }

  predicate ChainOk(sha: Sha, xs: seq<Event>) {
    forall i | 0 <= i < |xs| :: LinkAt(sha, xs, i)
  }

  predicate AllStorable(xs: seq<Event>) { forall e <- xs :: Storable(e) }

  /** Event `k` is the first one past the longest valid prefix. */
  predicate FirstBroken(sha: Sha, xs: seq<Event>, k: nat) {
    k < |xs| && ChainOk(sha, xs[..k]) && !ChainOk(sha, xs[..k + 1])
  }

  datatype Verdict = Verdict(valid: bool, eventCount: nat, brokenEventId: Option<string>)

  method Verify(sha: Sha, events: seq<Event>) returns (r: Verdict)
    ensures r.eventCount == |events|
    ensures r.valid <==> ChainOk(sha, events)
    ensures r.valid ==> r.brokenEventId == None
    ensures !r.valid ==> exists k: nat :: FirstBroken(sha, events, k) && r.brokenEventId == Some(events[k].id)
  {
    hide EventHash;
    var previous: Option<string> := None;
    for i := 0 to |events|
      invariant previous == HashBefore(events, i)
      invariant ChainOk(sha, events[..i])
    {
      var expected := EventHash(sha, previous, events[i]);
      PrefixLinks(sha, events, i);
      if events[i].previousHash != previous || events[i].eventHash != expected {
        assert FirstBroken(sha, events, i);
        return Verdict(false, |events|, Some(events[i].id));
      }
      previous := Some(events[i].eventHash);
    }
    assert events[..|events|] == events;
    return Verdict(true, |events|, None);
  }

  lemma PrefixLinks(sha: Sha, xs: seq<Event>, i: nat)
    requires i < |xs|
    ensures ChainOk(sha, xs[..i + 1]) <==> ChainOk(sha, xs[..i]) && LinkAt(sha, xs, i)
  {
    hide LinkOk;
    var p, q := xs[..i], xs[..i + 1];
    assert forall j | 0 <= j < i :: LinkAt(sha, p, j) == LinkAt(sha, q, j);
    assert LinkAt(sha, q, i) == LinkAt(sha, xs, i);
  }

  /** Validity is prefix closed, so at most one event is the first broken one. */
  lemma PrefixClosed(sha: Sha, xs: seq<Event>, n: nat)
    requires n <= |xs| && ChainOk(sha, xs)
    ensures ChainOk(sha, xs[..n])
  {
    hide LinkOk;
    var p := xs[..n];
    assert forall j | 0 <= j < n :: LinkAt(sha, p, j) == LinkAt(sha, xs, j);
  }

  lemma FirstBrokenUnique(sha: Sha, xs: seq<Event>, k: nat, m: nat)
    requires FirstBroken(sha, xs, k) && FirstBroken(sha, xs, m)
    ensures k == m
  {
    hide LinkOk;
    var low := if k < m then k + 1 else m + 1;
    if k != m {
      var high := if k < m then m else k;
      assert xs[..high][..low] == xs[..low];
      PrefixClosed(sha, xs[..high], low);
    }
  }

  lemma ChainExtends(sha: Sha, xs: seq<Event>, e: Event)
    ensures ChainOk(sha, xs + [e]) <==> ChainOk(sha, xs) && LinkOk(sha, HashBefore(xs, |xs|), e)
  {
    hide LinkOk;
    var ys := xs + [e];
    assert LinkAt(sha, ys, |xs|) == LinkOk(sha, HashBefore(xs, |xs|), e);
    PrefixLinks(sha, ys, |xs|);
    assert ys[..|xs|] == xs && ys[..|xs| + 1] == ys;
  }

  // ----- reading back -----

  /** A table may give metadata back with its keys in another order (JSONB does):
      the verdict stays the same. */
  lemma ReadBackKeepsVerdict(sha: Sha, xs: seq<Event>, ys: seq<Event>)
    requires |xs| == |ys| && AllStorable(xs) && AllStorable(ys)
    requires forall i | 0 <= i < |xs| :: SameEvent(xs[i], ys[i])
    ensures ChainOk(sha, xs) <==> ChainOk(sha, ys)
  {
    hide Content, Storable, Json.CanonicalJson;
    forall i | 0 <= i < |xs|
      ensures LinkAt(sha, xs, i) <==> LinkAt(sha, ys, i)
    {
      assert HashBefore(xs, i) == HashBefore(ys, i);
      ContentIffSame(xs[i], ys[i]);
    }
  }

  // ----- binding -----

  function MaterialAt(xs: seq<Event>, i: nat): seq<Byte>
    requires i < |xs|
  {
    Material(HashBefore(xs, i), xs[i])
  }

  function Materials(xs: seq<Event>): set<seq<Byte>> {
    set i | 0 <= i < |xs| :: MaterialAt(xs, i)
  }

  predicate NoCollision(sha: Sha, inputs: set<seq<Byte>>) {
    forall a <- inputs, b <- inputs :: sha(a) == sha(b) ==> a == b
  }

  /** Unless the hash function collides on what the two chains hash, an event hash
      fixes its position and everything up to it. */
  lemma {:induction false} BindingAt(sha: Sha, xs: seq<Event>, i: nat, ys: seq<Event>, j: nat)
    requires HexDigests(sha) && ChainOk(sha, xs) && ChainOk(sha, ys) && AllStorable(xs) && AllStorable(ys)
    requires NoCollision(sha, Materials(xs) + Materials(ys))
    requires i < |xs| && j < |ys| && xs[i].eventHash == ys[j].eventHash
    ensures i == j && forall k | 0 <= k <= i :: SameEvent(xs[k], ys[k])
  {
    hide Material, Storable, SameContent;
    var p, q := HashBefore(xs, i), HashBefore(ys, j);
    assert LinkAt(sha, xs, i) && LinkAt(sha, ys, j);
    assert MaterialAt(xs, i) in Materials(xs) && MaterialAt(ys, j) in Materials(ys);
    HashesAreDigests(sha, xs, i);
    HashesAreDigests(sha, ys, j);
    MaterialIffSame(p, xs[i], q, ys[j]);
    assert p == q;
    if i > 0 {
      assert j > 0;
      BindingAt(sha, xs, i - 1, ys, j - 1);
    }
  }

  lemma HashesAreDigests(sha: Sha, xs: seq<Event>, i: nat)
    requires HexDigests(sha) && ChainOk(sha, xs) && i <= |xs|
    ensures DigestOrNone(HashBefore(xs, i))
  {
    hide Material, Storable;
    if i > 0 {
      assert LinkAt(sha, xs, i - 1);
    }
  }

  /** Two valid chains that end in the same hash are the same chain, event by event. */
  lemma Binding(sha: Sha, xs: seq<Event>, ys: seq<Event>)
    requires HexDigests(sha) && ChainOk(sha, xs) && ChainOk(sha, ys) && AllStorable(xs) && AllStorable(ys)
    requires NoCollision(sha, Materials(xs) + Materials(ys))
    requires |xs| > 0 && |ys| > 0 && xs[|xs| - 1].eventHash == ys[|ys| - 1].eventHash
    ensures |xs| == |ys| && forall k | 0 <= k < |xs| :: SameEvent(xs[k], ys[k])
  {
    hide Material, Storable, SameContent;
    BindingAt(sha, xs, |xs| - 1, ys, |ys| - 1);
  }

  lemma HashesDistinct(sha: Sha, xs: seq<Event>, i: nat, j: nat)
    requires HexDigests(sha) && ChainOk(sha, xs) && AllStorable(xs) && NoCollision(sha, Materials(xs))
    requires i < |xs| && j < |xs| && xs[i].eventHash == xs[j].eventHash
    ensures i == j
  {
    hide Material, Storable;
    assert Materials(xs) + Materials(xs) == Materials(xs);
    BindingAt(sha, xs, i, xs, j);
  }

  /** One root, no fork. */
  lemma Unforked(sha: Sha, xs: seq<Event>, i: nat, j: nat)
    requires HexDigests(sha) && ChainOk(sha, xs) && AllStorable(xs) && NoCollision(sha, Materials(xs))
    requires i < |xs| && j < |xs|
    ensures xs[i].previousHash == HashBefore(xs, i)
    ensures xs[i].previousHash == None <==> i == 0
    ensures xs[i].previousHash == xs[j].previousHash ==> i == j
  {
    hide EventHash, Storable, Materials;
    assert LinkAt(sha, xs, i) && LinkAt(sha, xs, j);
    if i > 0 && j > 0 && xs[i - 1].eventHash == xs[j - 1].eventHash {
      HashesDistinct(sha, xs, i - 1, j - 1);
    }
  }

  /** An event with another id that carries its own hash is pointed at from nowhere. */
  lemma StrangerNotFollowed(sha: Sha, xs: seq<Event>, i: nat, r: Event)
    requires HexDigests(sha) && ChainOk(sha, xs) && AllStorable(xs) && i < |xs|
    requires Storable(r) && LinkOk(sha, r.previousHash, r) && DigestOrNone(r.previousHash)
    requires forall x <- xs :: x.id != r.id
    requires NoCollision(sha, Materials(xs) + {Material(r.previousHash, r)})
    ensures xs[i].previousHash != Some(r.eventHash)
  {
    hide Material, Storable;
    assert LinkAt(sha, xs, i);
    if i > 0 {
      var before := HashBefore(xs, i - 1);
      assert LinkAt(sha, xs, i - 1) && MaterialAt(xs, i - 1) in Materials(xs);
      HashesAreDigests(sha, xs, i - 1);
      MaterialIffSame(before, xs[i - 1], r.previousHash, r);
    }
  }

  // ----- tampering -----

  /** One event rewritten in place, hashes and position kept: `verify` names it. */
  lemma RewriteIsNamed(sha: Sha, xs: seq<Event>, k: nat, e: Event)
    requires HexDigests(sha) && ChainOk(sha, xs) && AllStorable(xs) && Storable(e) && k < |xs|
    requires e.previousHash == xs[k].previousHash && e.eventHash == xs[k].eventHash && !SameContent(e, xs[k])
    requires NoCollision(sha, Materials(xs) + {Material(HashBefore(xs, k), e)})
    ensures FirstBroken(sha, xs[k := e], k)
  {
    hide Material, Storable, SameContent;
    var ys, p := xs[k := e], HashBefore(xs, k);
    assert ys[..k] == xs[..k];
    PrefixClosed(sha, xs, k);
    PrefixLinks(sha, ys, k);
    assert HashBefore(ys, k) == p;
    assert LinkAt(sha, xs, k) && LinkAt(sha, ys, k) == LinkOk(sha, p, e) && MaterialAt(xs, k) in Materials(xs);
    HashesAreDigests(sha, xs, k);
    MaterialIffSame(p, e, p, xs[k]);
  }

  /** Events of a valid chain in any selection, order and multiplicity verify
      exactly when they are a prefix of it: only cutting off the tail goes unseen. */
  lemma {:induction false} RearrangedIffPrefix(sha: Sha, xs: seq<Event>, ys: seq<Event>)
    requires HexDigests(sha) && ChainOk(sha, xs) && AllStorable(xs) && NoCollision(sha, Materials(xs))
    requires forall e <- ys :: e in xs
    ensures ChainOk(sha, ys) <==> ys <= xs
  {
    hide Material, Storable;
    if ys <= xs {
      PrefixClosed(sha, xs, |ys|);
      assert ys == xs[..|ys|];
    } else {
      var n := |ys| - 1;
      var front, e := ys[..n], ys[n];
      assert ys == front + [e];
      ChainExtends(sha, front, e);
      if ChainOk(sha, ys) {
        RearrangedIffPrefix(sha, xs, front);
        NextIsForced(sha, xs, front, e);
      }
    }
  }

  lemma NextIsForced(sha: Sha, xs: seq<Event>, front: seq<Event>, e: Event)
    requires HexDigests(sha) && ChainOk(sha, xs) && AllStorable(xs) && NoCollision(sha, Materials(xs))
    requires front <= xs && e in xs && LinkOk(sha, HashBefore(front, |front|), e)
    ensures front + [e] <= xs
  {
    hide Material, Storable;
    var m :| 0 <= m < |xs| && xs[m] == e;
    assert LinkAt(sha, xs, m);
    assert HashBefore(xs, m) == HashBefore(front, |front|);
    if m > 0 && |front| > 0 {
      HashesDistinct(sha, xs, m - 1, |front| - 1);
    }
    assert m == |front|;
  }

  /** Where such a rearrangement is reported: at the first event that leaves the chain. */
  lemma RearrangementIsNamed(sha: Sha, xs: seq<Event>, ys: seq<Event>, k: nat)
    requires HexDigests(sha) && ChainOk(sha, xs) && AllStorable(xs) && NoCollision(sha, Materials(xs))
    requires forall e <- ys :: e in xs
    requires k < |ys|
    ensures FirstBroken(sha, ys, k) <==> ys[..k] <= xs && !(ys[..k + 1] <= xs)
  {
    hide Material, Storable;
    RearrangedIffPrefix(sha, xs, ys[..k]);
    RearrangedIffPrefix(sha, xs, ys[..k + 1]);
  }
}
