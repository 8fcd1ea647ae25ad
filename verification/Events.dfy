/** Audit events, the content that their hash covers, and what a hash determines. */
module Events {
  import opened Wrappers
  import opened Text
  import opened Json
  import opened Time
  import opened Utf8

  datatype EventType =
    | CaseCreated | CaseUpdated
    | UploadStarted | Hashed | Stored | Created | UploadFailed | Deleted
    | ChainVerified

  function TypeName(t: EventType): string {
    match t
    case CaseCreated => "CASE_CREATED"
    case CaseUpdated => "CASE_UPDATED"
    case UploadStarted => "EVIDENCE_UPLOAD_STARTED"
    case Hashed => "EVIDENCE_HASHED"
    case Stored => "EVIDENCE_STORED"
    case Created => "EVIDENCE_CREATED"
    case UploadFailed => "EVIDENCE_UPLOAD_FAILED"
    case Deleted => "EVIDENCE_DELETED"
    case ChainVerified => "AUDIT_CHAIN_VERIFIED"
  }

  lemma TypeNameInjective(a: EventType, b: EventType)
    requires TypeName(a) == TypeName(b)
    ensures a == b
  {
    var s, t := TypeName(a), TypeName(b);
    assert |s| == |t| && s[5] == t[5] && s[9] == t[9];
  }

  // ----- events -----

  /** What a caller of `append` provides. */
  datatype Draft = Draft(
    caseId: string, eventType: EventType, resourceType: string, operation: string,
    resourceId: Option<string>, actorId: Option<string>,
    inputHash: Option<string>, outputHash: Option<string>, metadata: Members)

  datatype Event = Event(
    id: string, caseId: Option<string>, eventType: EventType, actorId: Option<string>,
    resourceType: string, resourceId: Option<string>, operation: string,
    inputHash: Option<string>, outputHash: Option<string>, metadata: Members,
    previousHash: Option<string>, eventHash: string, createdAt: Instant)

  /** The event records what its caller gave: all nine parts of the draft. */
  predicate FromDraft(e: Event, d: Draft) {
    && e.caseId == Some(d.caseId) && e.eventType == d.eventType && e.actorId == d.actorId
    && e.resourceType == d.resourceType && e.resourceId == d.resourceId && e.operation == d.operation
    && e.inputHash == d.inputHash && e.outputHash == d.outputHash && e.metadata == d.metadata
  }

  predicate Storable(e: Event) { WellFormedMembers(e.metadata) && e.createdAt.Valid() }

  function Nullable(s: Option<string>): Json { if s.Some? then Str(s.value) else Null }

  /** A dict display. */
  function Dict(fields: seq<(string, Json)>): Members {
    if fields == [] then NoMembers else Member(fields[0].0, fields[0].1, Dict(fields[1..]))
  }

  function Fields(e: Event): seq<(string, Json)> {
    [("id", Str(e.id)),
     ("case_id", Nullable(e.caseId)),
     ("event_type", Str(TypeName(e.eventType))),
     ("actor_id", Nullable(e.actorId)),
     ("resource_type", Str(e.resourceType)),
     ("resource_id", Nullable(e.resourceId)),
     ("operation", Str(e.operation)),
     ("input_hash", Nullable(e.inputHash)),
     ("output_hash", Nullable(e.outputHash)),
     ("metadata_json", Obj(e.metadata)),
     ("created_at", Str(e.createdAt.Iso()))]
  }

  function Content(e: Event): Json { Obj(Dict(Fields(e))) }

  /** The two events agree on everything that the content covers; metadata is
      compared as a value, so the order in which its keys come back does not count. */
  predicate SameContent(a: Event, b: Event) {
    && a.id == b.id && a.caseId == b.caseId && a.eventType == b.eventType && a.actorId == b.actorId
    && a.resourceType == b.resourceType && a.resourceId == b.resourceId && a.operation == b.operation
    && a.inputHash == b.inputHash && a.outputHash == b.outputHash
    && MembersOf(a.metadata) == MembersOf(b.metadata) && a.createdAt == b.createdAt
  }

  predicate SameEvent(a: Event, b: Event) {
    SameContent(a, b) && a.previousHash == b.previousHash && a.eventHash == b.eventHash
  }

  /** The bytes that are hashed for `e` behind the hash `previous`. */
  function Material(previous: Option<string>, e: Event): seq<Byte> {
    Encode((if previous.Some? then previous.value else "") + CanonicalJson(Content(e)))
  }

  function EventHash(sha: seq<Byte> -> string, previous: Option<string>, e: Event): string {
    sha(Material(previous, e))
  }

  predicate IsHex(c: char) { '0' <= c <= '9' || 'a' <= c <= 'f' }

  /** A hex digest of 256 bits, or no hash at all. */
  predicate DigestOrNone(h: Option<string>) {
    h.Some? ==> |h.value| == 64 && forall c <- h.value :: IsHex(c)
  }

  // ----- the content of an event, key by key -----

  predicate DistinctKeys(fields: seq<(string, Json)>) {
    forall i, j | 0 <= i < j < |fields| :: fields[i].0 != fields[j].0
  }

  /** The entries of `m` are those fields. */
  predicate DictOf(m: map<string, Value>, fields: seq<(string, Json)>) {
    && (forall k <- m :: exists i | 0 <= i < |fields| :: fields[i].0 == k)
    && forall i | 0 <= i < |fields| :: fields[i].0 in m && m[fields[i].0] == ValueOf(fields[i].1)
  }

  lemma OneMore(m: map<string, Value>, field: (string, Json), rest: seq<(string, Json)>)
    requires DictOf(m, rest) && DistinctKeys([field] + rest)
    ensures field.0 !in m && DictOf(m[field.0 := ValueOf(field.1)], [field] + rest)
  {
    hide ValueOf;
    var all := [field] + rest;
    forall i | 0 <= i < |rest| ensures rest[i].0 != field.0 {
      assert all[0].0 != all[i + 1].0;
    }
    var m' := m[field.0 := ValueOf(field.1)];
    forall k | k in m' ensures exists i | 0 <= i < |all| :: all[i].0 == k {
      if k == field.0 {
        assert all[0].0 == k;
      } else {
        var i :| 0 <= i < |rest| && rest[i].0 == k;
        assert all[i + 1].0 == k;
      }
    }
  }

  /** A dict of different keys holds each key with its own value, and no other key. */
  lemma {:induction false} DictHolds(fields: seq<(string, Json)>)
    requires DistinctKeys(fields) && forall f <- fields :: WellFormed(f.1)
    ensures WellFormedMembers(Dict(fields)) && DictOf(MembersOf(Dict(fields)), fields)
  {
    hide DictOf, DistinctKeys;
    if fields == [] {
      NoFields();
    } else {
      FewerKeys(fields);
      DictHolds(fields[1..]);
      assert fields == [fields[0]] + fields[1..];
      OneMore(MembersOf(Dict(fields[1..])), fields[0], fields[1..]);
    }
  }

  lemma NoFields()
    ensures WellFormedMembers(Dict([])) && DictOf(MembersOf(Dict([])), [])
  {
  }

  lemma FewerKeys(fields: seq<(string, Json)>)
    requires fields != [] && DistinctKeys(fields)
    ensures DistinctKeys(fields[1..])
  {
  }

  /** Length and first character: enough to tell the content's keys apart. */
  function Code(k: string): int { if k == "" then 0 else |k| * 1000 + k[0] as int }

  lemma FieldsDistinct(e: Event)
    ensures DistinctKeys(Fields(e))
  {
    var fs := Fields(e);
    var codes := [2105, 7099, 10101, 8097, 13114, 11114, 9111, 10105, 11111, 13109, 10099];
    assert forall i | 0 <= i < |fs| :: Code(fs[i].0) == codes[i];
    assert forall i, j | 0 <= i < j < |codes| :: codes[i] != codes[j];
  }

  // ----- the content read back -----

  /** The names under which the event types are stored. */
  predicate Named(t: EventType, name: string) {
    || (t.CaseCreated? && name == "CASE_CREATED")
    || (t.CaseUpdated? && name == "CASE_UPDATED")
    || (t.UploadStarted? && name == "EVIDENCE_UPLOAD_STARTED")
    || (t.Hashed? && name == "EVIDENCE_HASHED")
    || (t.Stored? && name == "EVIDENCE_STORED")
    || (t.Created? && name == "EVIDENCE_CREATED")
    || (t.UploadFailed? && name == "EVIDENCE_UPLOAD_FAILED")
    || (t.Deleted? && name == "EVIDENCE_DELETED")
    || (t.ChainVerified? && name == "AUDIT_CHAIN_VERIFIED")
  }

  lemma NamedByType(t: EventType)
    ensures Named(t, TypeName(t))
  {
  }

  /** The members that spell out an event: exactly eleven keys, each with its own field. */
  predicate SpellsOut(m: map<string, Value>, e: Event) {
    && m.Keys == {"id", "case_id", "event_type", "actor_id", "resource_type", "resource_id", "operation",
                  "input_hash", "output_hash", "metadata_json", "created_at"}
    && m["id"] == VStr(e.id)
    && m["case_id"] == (if e.caseId.Some? then VStr(e.caseId.value) else VNull)
    && m["event_type"].VStr? && Named(e.eventType, m["event_type"].text)
    && m["actor_id"] == (if e.actorId.Some? then VStr(e.actorId.value) else VNull)
    && m["resource_type"] == VStr(e.resourceType)
    && m["resource_id"] == (if e.resourceId.Some? then VStr(e.resourceId.value) else VNull)
    && m["operation"] == VStr(e.operation)
    && m["input_hash"] == (if e.inputHash.Some? then VStr(e.inputHash.value) else VNull)
    && m["output_hash"] == (if e.outputHash.Some? then VStr(e.outputHash.value) else VNull)
    && m["metadata_json"] == VObj(MembersOf(e.metadata))
    && m["created_at"].VStr? && ReadsAs(m["created_at"].text, e.createdAt)
  }

  /** The same, with the texts that the type and the time are rendered to. */
  predicate Rendered(m: map<string, Value>, e: Event) {
    && SpellsOut(m, e)
    && m["event_type"].text == TypeName(e.eventType) && m["created_at"].text == e.createdAt.Iso()
  }

  lemma FieldKeys(e: Event, m: map<string, Value>)
    requires DictOf(m, Fields(e))
    ensures m.Keys == {"id", "case_id", "event_type", "actor_id", "resource_type", "resource_id", "operation",
                       "input_hash", "output_hash", "metadata_json", "created_at"}
  {
    hide Fields, ValueOf;
    var fs := Fields(e);
    FieldNames(e);
    forall i | 0 <= i < 11 ensures fs[i].0 in m {}
  }

  lemma FieldNames(e: Event)
    ensures var fs := Fields(e);
            && |fs| == 11
            && fs[0].0 == "id" && fs[1].0 == "case_id" && fs[2].0 == "event_type" && fs[3].0 == "actor_id"
            && fs[4].0 == "resource_type" && fs[5].0 == "resource_id" && fs[6].0 == "operation"
            && fs[7].0 == "input_hash" && fs[8].0 == "output_hash" && fs[9].0 == "metadata_json"
            && fs[10].0 == "created_at"
  {
    hide TypeName, Instant.Iso;
  }

  lemma FieldValues(e: Event, m: map<string, Value>)
    requires DictOf(m, Fields(e)) && e.createdAt.Valid()
    ensures Rendered(m, e)
  {
    hide TypeName, Instant.Iso, Named, ReadsAs, MembersOf;
    FieldKeys(e, m);
    NamedByType(e.eventType);
    IsoReads(e.createdAt);
    var fs := Fields(e);
    assert m[fs[0].0] == VStr(e.id) && m[fs[2].0] == VStr(TypeName(e.eventType));
    assert m[fs[4].0] == VStr(e.resourceType) && m[fs[6].0] == VStr(e.operation);
    assert m[fs[1].0] == ValueOf(fs[1].1) && m[fs[3].0] == ValueOf(fs[3].1) && m[fs[5].0] == ValueOf(fs[5].1);
    assert m[fs[7].0] == ValueOf(fs[7].1) && m[fs[8].0] == ValueOf(fs[8].1);
    assert m[fs[9].0] == VObj(MembersOf(e.metadata)) && m[fs[10].0] == VStr(e.createdAt.Iso());
  }

  lemma FieldsWellFormed(e: Event)
    requires Storable(e)
    ensures forall f <- Fields(e) :: WellFormed(f.1)
  {
    hide TypeName, Instant.Iso;
  }

  lemma ContentByKey(e: Event)
    requires Storable(e)
    ensures WellFormed(Content(e)) && ValueOf(Content(e)) == VObj(MembersOf(Content(e).members))
    ensures Rendered(MembersOf(Content(e).members), e)
  {
    hide MembersOf, Dict, Rendered, DictOf, Fields, DistinctKeys;
    FieldsDistinct(e);
    FieldsWellFormed(e);
    DictHolds(Fields(e));
    FieldValues(e, MembersOf(Dict(Fields(e))));
  }

  /** What the hash of an event behind a previous hash is taken over: the UTF-8 bytes of
      that hash and then of a text that a JSON parser reads as one object, sorted by key,
      whose members spell out the event. */
  lemma EventHashReads(sha: seq<Byte> -> string, previous: Option<string>, e: Event) returns (text: string, read: Json)
    requires Storable(e)
    ensures EventHash(sha, previous, e) == sha((if previous.Some? then Encode(previous.value) else []) + Encode(text))
    ensures ParseValue(text) == Done(read, "") && text == Print(read) && IsSorted(read)
    ensures ValueOf(read).VObj? && SpellsOut(ValueOf(read).members, e)
  {
    hide MembersOf, Content, SpellsOut, IsSorted, Encode, CanonicalJson;
    ContentByKey(e);
    text, read := CanonicalJson(Content(e)), Sorted(Content(e));
    CanonicalReadsBack(Content(e));
    EncodeJoins(if previous.Some? then previous.value else "", text);
    if previous.None? { NothingEncoded(); }
  }

  lemma NothingEncoded()
    ensures Encode("") == []
  {
  }

  // ----- what a hash determines -----

  lemma FieldsDetermined(m: map<string, Value>, a: Event, b: Event)
    requires Storable(a) && Storable(b) && Rendered(m, a) && Rendered(m, b)
    ensures SameContent(a, b)
  {
    hide MembersOf, Instant.Iso, TypeName, Named, ReadsAs;
    TypeNameInjective(a.eventType, b.eventType);
    IsoInjective(a.createdAt, b.createdAt);
  }

  lemma FieldsDetermine(m: map<string, Value>, n: map<string, Value>, a: Event, b: Event)
    requires SameContent(a, b) && Rendered(m, a) && Rendered(n, b)
    ensures m == n
  {
    hide MembersOf, Instant.Iso, TypeName, Named, ReadsAs;
    assert forall k | k in m :: m[k] == n[k];
  }

  /** The canonical texts of two events agree exactly when their contents do. */
  lemma ContentIffSame(a: Event, b: Event)
    requires Storable(a) && Storable(b)
    ensures CanonicalJson(Content(a)) == CanonicalJson(Content(b)) <==> SameContent(a, b)
  {
    hide MembersOf, Content, CanonicalJson, Rendered, SameContent;
    ContentByKey(a);
    ContentByKey(b);
    CanonicalIffSameValue(Content(a), Content(b));
    var m, n := MembersOf(Content(a).members), MembersOf(Content(b).members);
    if m == n { FieldsDetermined(m, a, b); }
    if SameContent(a, b) { FieldsDetermine(m, n, a, b); }
  }

  /** The hashed bytes split uniquely into previous hash and content: a digest
      holds hex digits only and the content starts with a brace. */
  lemma MaterialIffSame(p: Option<string>, a: Event, q: Option<string>, b: Event)
    requires Storable(a) && Storable(b) && DigestOrNone(p) && DigestOrNone(q)
    ensures Material(p, a) == Material(q, b) <==> p == q && SameContent(a, b)
  {
    ContentIffSame(a, b);
    if Material(p, a) == Material(q, b) {
      var s := if p.Some? then p.value else "";
      var t := if q.Some? then q.value else "";
      var c, d := CanonicalJson(Content(a)), CanonicalJson(Content(b));
      CanonicalStart(a);
      CanonicalStart(b);
      EncodeInjective(s + c, t + d);
      if p.Some? {
        NoBraceInDigest(s, c, d);
      }
      if q.Some? {
        NoBraceInDigest(t, d, c);
      }
      SplitAt(s, c, t, d);
    }
  }

  lemma NoBraceInDigest(digest: string, rest: string, content: string)
    requires DigestOrNone(Some(digest)) && content != "" && content[0] == '{'
    ensures digest + rest != content
    ensures "" + content == content
  {
    assert digest[0] in digest;
    assert (digest + rest)[0] == digest[0];
  }

  lemma CanonicalStart(e: Event)
    ensures |CanonicalJson(Content(e))| > 0 && CanonicalJson(Content(e))[0] == '{'
  {
    var sorted := SortedMembers(Content(e).members);
    assert Sorted(Content(e)) == Obj(sorted);
  }
}
