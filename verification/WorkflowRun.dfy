/** Whole runs of the review workflow: a start, then any sequence of resume
    requests, accepted or refused.  The recorded history alone determines the
    rest of the review state, and the histories that occur form a small language. */
module WorkflowRun {
  import opened Wrappers
  import opened Workflow

  /** One resume call: the request, the clock and the number of evidence rows it found. */
  datatype Call = Call(request: Request, reviewedAt: string, evidence: nat)

  /** How a thread was started. */
  datatype Opening = Opening(caseId: string, caseName: string, scope: string, evidenceCount: nat, maxRounds: int)

  function Begin(o: Opening): Stop { Start(o.caseId, o.caseName, o.scope, o.evidenceCount, o.maxRounds) }

  function After(t: Stop, c: Call): Stop {
    var outcome := Resume(t, c.request, c.reviewedAt, c.evidence);
    if outcome.Ok? then outcome.value else t
  }

  function Run(o: Opening, calls: seq<Call>): Stop {
    if calls == [] then Begin(o) else After(Run(o, calls[..|calls| - 1]), calls[|calls| - 1])
  }

  lemma {:induction false} RunStarts(o: Opening)
    ensures Run(o, []) == Begin(o)
  {
  }

  lemma {:induction false} RunExtends(o: Opening, calls: seq<Call>, c: Call)
    ensures Run(o, calls + [c]) == After(Run(o, calls), c)
  {
    assert (calls + [c])[..|calls|] == calls;
  }

  // ----- the history determines the rest -----

  /** What a caller sees of a thread, apart from texts that only copy the case. */
  datatype View = View(
    status: Status, node: Option<Node>, round: int, decision: Option<Action>, approved: Option<bool>,
    comment: Option<string>, reviewer: Option<string>, reviewedAt: Option<string>, result: Option<ResultText>,
    reanalyzed: bool)

  function ViewOf(t: Stop): View
    requires !t.Raised?
  {
    var s := t.state;
    View(s.status, if t.Paused? then Some(t.node) else None, s.round, s.decision, s.approved, s.comment, s.reviewer,
         s.reviewedAt, s.result, s.summary.Reanalyzed?)
  }

  const OPENED := View(WAITING_REVIEW, Some(HUMAN_REVIEW), 1, None, None, None, None, None, None, false)

  /** The effect of one history entry, with no reference to the graph. */
  function Apply(v: View, r: Record, maxRounds: int): View {
    var w := v.(comment := r.comment, reviewer := r.reviewer, reviewedAt := Some(r.reviewedAt));
    match r.action
    case APPROVE =>
      w.(status := COMPLETED, node := None, decision := Some(APPROVE), approved := Some(true),
         result := Some(Approved(v.round)))
    case CANCEL =>
      w.(status := CANCELLED, node := None, decision := Some(CANCEL), approved := Some(false),
         result := Some(Terminated))
    case REQUEST_EVIDENCE =>
      w.(status := WAITING_EVIDENCE, node := Some(AWAIT_EVIDENCE), decision := Some(REQUEST_EVIDENCE), approved := None,
         result := Some(AwaitingEvidence))
    case EVIDENCE_READY =>
      w.(status := WAITING_REVIEW, node := Some(HUMAN_REVIEW), round := v.round + 1, reanalyzed := false)
    case REANALYZE =>
      var x := w.(decision := Some(REANALYZE), approved := None);
      if v.round >= maxRounds then x.(status := CANCELLED, node := None, result := Some(LimitReached(maxRounds)))
      else x.(status := WAITING_REVIEW, node := Some(HUMAN_REVIEW), round := v.round + 1, reanalyzed := true)
  }

  function Replay(history: seq<Record>, maxRounds: int): View {
    if history == [] then OPENED
    else Apply(Replay(history[..|history| - 1], maxRounds), history[|history| - 1], maxRounds)
  }

  /** The round that an entry records: an answered evidence request counts for the round it opens. */
  predicate RecordsRound(history: seq<Record>, maxRounds: int, i: nat)
    requires i < |history|
  {
    history[i].round == Replay(history[..i], maxRounds).round + (if history[i].action == EVIDENCE_READY then 1 else 0)
  }

  /** Everything a thread keeps between invocations. */
  predicate Kept(o: Opening, t: Stop) {
    && !t.Raised?
    && t.state.caseId == o.caseId && t.state.caseName == o.caseName && t.state.scope == o.scope
    && t.state.maxRounds == o.maxRounds
    && ViewOf(t) == Replay(t.state.history, o.maxRounds)
    && (forall i | 0 <= i < |t.state.history| :: RecordsRound(t.state.history, o.maxRounds, i))
    && t.state.summary == Rendered(t.state)
  }

  /** The summary text for the state's own round and evidence count. */
  function Rendered(s: CaseState): Summary {
    if s.summary.Reanalyzed? then Reanalyzed(s.caseName, s.round, s.evidenceCount)
    else Prepared(s.caseName, s.round, s.evidenceCount, s.scope)
  }

  lemma BeginKeeps(o: Opening)
    ensures Kept(o, Begin(o))
    ensures Begin(o).state.history == []
  {
    var s := InitialState(o.caseId, o.caseName, o.scope, o.evidenceCount, o.maxRounds);
    assert Execute(s, PREPARE_CASE, None) == Execute(Merge(s, PrepareCase(s)), HUMAN_REVIEW, None);
  }

  /** Where a thread can be paused, and what is known about it there. */
  lemma {:induction false} PausedAt(o: Opening, t: Stop)
    requires Kept(o, t) && t.Paused?
    ensures t.node == HUMAN_REVIEW || t.node == AWAIT_EVIDENCE
  {
    ReplayStops(t.state.history, o.maxRounds);
  }

  lemma {:induction false} ReplayStops(history: seq<Record>, maxRounds: int)
    ensures var v := Replay(history, maxRounds);
            && (v.node == Some(HUMAN_REVIEW) <==> v.status == WAITING_REVIEW)
            && (v.node == Some(AWAIT_EVIDENCE) <==> v.status == WAITING_EVIDENCE)
            && (v.node == None <==> v.status == COMPLETED || v.status == CANCELLED)
            && v.status !in {PREPARING, REANALYZING, REJECTED}
  {
    if history != [] { ReplayStops(history[..|history| - 1], maxRounds); }
  }

  /** The payload that the service hands to the graph. */
  function PayloadOf(c: Call, action: Action): Payload {
    Payload(action, c.request.comment, c.request.reviewer, c.reviewedAt,
            if action == EVIDENCE_READY then Some(c.evidence) else None)
  }

  function EntryOf(s: CaseState, p: Payload): Record {
    Record(p.action, p.comment, p.reviewer, p.reviewedAt, s.round + (if p.action == EVIDENCE_READY then 1 else 0))
  }

  /** One invocation at the review adds one entry and moves the view by it. */
  lemma {:induction false} ReviewStep(s: CaseState, p: Payload)
    requires p.action in Allowed(CASE_ANALYSIS_REVIEW) && s.summary == Rendered(s)
    ensures var n := Execute(s, HUMAN_REVIEW, Some(p));
            && !n.Raised?
            && n.state.history == s.history + [EntryOf(s, p)]
            && ViewOf(n) == Apply(ViewOf(Paused(s, HUMAN_REVIEW)), EntryOf(s, p), s.maxRounds)
            && n.state.summary == Rendered(n.state)
            && (n.state.caseId, n.state.caseName, n.state.scope, n.state.maxRounds)
               == (s.caseId, s.caseName, s.scope, s.maxRounds)
            && n.state.evidenceCount == s.evidenceCount
  {
    var reviewed := Merge(s, RequestHumanReview(s, p));
    var edge := RouteReviewDecision(reviewed);
    assert edge.Some? && edge.value != EVIDENCE_READY;
    assert Execute(s, HUMAN_REVIEW, Some(p)) == Execute(reviewed, Target(edge.value), None);
    match edge.value {
      case APPROVE =>
      case CANCEL =>
      case REANALYZE =>
        var again := Merge(reviewed, ReanalyzeCase(reviewed));
        assert Execute(again, HUMAN_REVIEW, None) == Paused(again, HUMAN_REVIEW);
        assert Execute(reviewed, REANALYZE_CASE, None) == Execute(again, HUMAN_REVIEW, None);
        assert again.history == reviewed.history;
      case REQUEST_EVIDENCE =>
        var marked := Merge(reviewed, MarkEvidenceRequired(reviewed));
        assert Execute(marked, AWAIT_EVIDENCE, None) == Paused(marked, AWAIT_EVIDENCE);
        assert Execute(reviewed, MARK_EVIDENCE_REQUIRED, None) == Execute(marked, AWAIT_EVIDENCE, None);
        assert marked.history == reviewed.history;
    }
  }

  lemma {:induction false} EvidenceStep(s: CaseState, p: Payload)
    requires p.action == EVIDENCE_READY && p.evidenceCount.Some?
    ensures var n := Execute(s, AWAIT_EVIDENCE, Some(p));
            && !n.Raised?
            && n.state.history == s.history + [EntryOf(s, p)]
            && ViewOf(n) == Apply(ViewOf(Paused(s, AWAIT_EVIDENCE)), EntryOf(s, p), s.maxRounds)
            && n.state.summary == Rendered(n.state)
            && (n.state.caseId, n.state.caseName, n.state.scope, n.state.maxRounds)
               == (s.caseId, s.caseName, s.scope, s.maxRounds)
            && n.state.evidenceCount == p.evidenceCount.value
  {
    var answered := Merge(s, AwaitEvidence(s, p).value);
    var prepared := Merge(answered, PrepareCase(answered));
    assert Execute(s, AWAIT_EVIDENCE, Some(p)) == Execute(answered, PREPARE_CASE, None);
    assert Execute(prepared, HUMAN_REVIEW, None) == Paused(prepared, HUMAN_REVIEW);
    assert Execute(answered, PREPARE_CASE, None) == Execute(prepared, HUMAN_REVIEW, None);
    assert prepared.history == answered.history;
  }

  /** An accepted resume adds exactly its own entry; a refused one changes nothing. */
  lemma ResumeAppends(o: Opening, t: Stop, c: Call)
    requires Kept(o, t)
    ensures var r := Resume(t, c.request, c.reviewedAt, c.evidence);
            var n := After(t, c);
            && (r.Err? ==> n == t)
            && (r.Err? <==>
                  !Acceptable(c.request) || t.Ended? || ResolvedDecision(c.request) !in Allowed(InterruptOf(t.node)))
            && (r.Ok? ==>
                  && !n.Raised?
                  && n.state.history == t.state.history + [EntryOf(t.state, PayloadOf(c, ResolvedDecision(c.request)))]
                  && n.state.evidenceCount
                     == (if ResolvedDecision(c.request) == EVIDENCE_READY then c.evidence else t.state.evidenceCount))
    ensures Kept(o, After(t, c))
  {
    hide Execute, Replay, Apply;
    var r := Resume(t, c.request, c.reviewedAt, c.evidence);
    if r.Ok? {
      PausedAt(o, t);
      var action := ResolvedDecision(c.request);
      var p := PayloadOf(c, action);
      if t.node == HUMAN_REVIEW { ReviewStep(t.state, p); } else { EvidenceStep(t.state, p); }
      HistoryGrows(t.state.history, EntryOf(t.state, p), o.maxRounds);
    }
  }

  lemma {:induction false} HistoryGrows(history: seq<Record>, r: Record, maxRounds: int)
    requires forall i | 0 <= i < |history| :: RecordsRound(history, maxRounds, i)
    requires r.round == Replay(history, maxRounds).round + (if r.action == EVIDENCE_READY then 1 else 0)
    ensures Replay(history + [r], maxRounds) == Apply(Replay(history, maxRounds), r, maxRounds)
    ensures forall i | 0 <= i < |history| + 1 :: RecordsRound(history + [r], maxRounds, i)
  {
    hide Apply;
    var longer := history + [r];
    assert longer[..|history|] == history;
    forall i | 0 <= i < |longer| ensures RecordsRound(longer, maxRounds, i) {
      if i < |history| {
        assert RecordsRound(history, maxRounds, i);
        assert longer[..i] == history[..i];
      }
    }
  }

  /** At every pause or end of every run, whatever was accepted or refused on the
      way, the visible review state is the replay of the history, every entry
      records the round it was made in, and the summary shows the current round
      and evidence count. */
  lemma {:induction false} RunReplaysHistory(o: Opening, calls: seq<Call>)
    ensures Kept(o, Run(o, calls))
  {
    if calls == [] {
      BeginKeeps(o);
    } else {
      RunReplaysHistory(o, calls[..|calls| - 1]);
      ResumeAppends(o, Run(o, calls[..|calls| - 1]), calls[|calls| - 1]);
    }
  }

  /** No run ever reaches an error branch of the graph. */
  lemma {:induction false} NeverRaises(o: Opening, calls: seq<Call>)
    ensures Kept(o, Run(o, calls)) && !Run(o, calls).Raised?
  {
    RunReplaysHistory(o, calls);
  }

  /** The service's guard is exactly what keeps the graph out of its error branches:
      at every pause of every run, a decision handed to the graph without it raises
      if and only if the guard refuses it. */
  lemma {:induction false} GuardIsExact(o: Opening, calls: seq<Call>, c: Call, action: Action)
    requires Run(o, calls).Paused?
    ensures var t := Run(o, calls);
            Execute(t.state, t.node, Some(PayloadOf(c, action))).Raised? <==> action !in Allowed(InterruptOf(t.node))
  {
    hide Run;
    RunReplaysHistory(o, calls);
    var t, p := Run(o, calls), PayloadOf(c, action);
    PausedAt(o, t);
    if action in Allowed(InterruptOf(t.node)) {
      if t.node == HUMAN_REVIEW { ReviewStep(t.state, p); } else { EvidenceStep(t.state, p); }
    }
  }

  /** An ended thread answers every later request as a conflict and stays as it is. */
  lemma {:induction false} EndedAbsorbs(o: Opening, calls: seq<Call>, more: seq<Call>)
    requires Run(o, calls).Ended?
    ensures Run(o, calls + more) == Run(o, calls)
    ensures forall c: Call :: Acceptable(c.request) ==>
                                Resume(Run(o, calls), c.request, c.reviewedAt, c.evidence) == Err(NotWaiting)
  {
    if more == [] {
      assert calls + more == calls;
    } else {
      var front := more[..|more| - 1];
      EndedAbsorbs(o, calls, front);
      assert (calls + more)[..|calls + more| - 1] == calls + front;
    }
  }

  // ----- bounded invocations -----

  /** How an invocation from a node of the graph goes: so many nodes, and a stop in the last one. */
  predicate Bounded(s: CaseState, node: Node, resume: Option<Payload>, most: nat) {
    var nodes := Entered(s, node, resume);
    2 <= |nodes| <= most && !Execute(s, node, resume).Raised? && StopsIn(Execute(s, node, resume), nodes[|nodes| - 1])
  }

  /** Every start visits two nodes and every accepted resume of any run two or three; the
      last one is where the thread then is paused or has ended. */
  lemma {:induction false} InvocationsStop(o: Opening, calls: seq<Call>, c: Call)
    ensures Bounded(InitialState(o.caseId, o.caseName, o.scope, o.evidenceCount, o.maxRounds), PREPARE_CASE, None, 2)
    ensures var t := Run(o, calls);
            Resume(t, c.request, c.reviewedAt, c.evidence).Ok? ==>
              Bounded(t.state, t.node, Some(PayloadOf(c, ResolvedDecision(c.request))), 3)
  {
    hide Run, Execute, Entered, StopsIn;
    RunReplaysHistory(o, calls);
    BeginKeeps(o);
    var s := InitialState(o.caseId, o.caseName, o.scope, o.evidenceCount, o.maxRounds);
    StartStops(s);
    StopsInLast(s, PREPARE_CASE, None);
    var t := Run(o, calls);
    if Resume(t, c.request, c.reviewedAt, c.evidence).Ok? {
      PausedAt(o, t);
      var p := PayloadOf(c, ResolvedDecision(c.request));
      StopsInLast(t.state, t.node, Some(p));
      ResumeAppends(o, t, c);
      if t.node == HUMAN_REVIEW { ReviewStops(t.state, p); } else { EvidenceStops(t.state, p); }
    }
  }

  lemma {:induction false} StartStops(s: CaseState)
    ensures Entered(s, PREPARE_CASE, None) == [PREPARE_CASE, HUMAN_REVIEW]
  {
    assert Entered(Merge(s, PrepareCase(s)), HUMAN_REVIEW, None) == [HUMAN_REVIEW];
  }

  lemma {:induction false} ReviewStops(s: CaseState, p: Payload)
    requires p.action in Allowed(CASE_ANALYSIS_REVIEW)
    ensures 2 <= |Entered(s, HUMAN_REVIEW, Some(p))| <= 3
  {
    var reviewed := Merge(s, RequestHumanReview(s, p));
    var edge := RouteReviewDecision(reviewed);
    assert edge.Some? && edge.value != EVIDENCE_READY;
    assert Entered(s, HUMAN_REVIEW, Some(p)) == [HUMAN_REVIEW] + Entered(reviewed, Target(edge.value), None);
    match edge.value {
      case APPROVE =>
      case CANCEL =>
      case REANALYZE => assert Entered(Merge(reviewed, ReanalyzeCase(reviewed)), HUMAN_REVIEW, None) == [HUMAN_REVIEW];
      case REQUEST_EVIDENCE =>
        assert Entered(Merge(reviewed, MarkEvidenceRequired(reviewed)), AWAIT_EVIDENCE, None) == [AWAIT_EVIDENCE];
    }
  }

  lemma {:induction false} EvidenceStops(s: CaseState, p: Payload)
    requires p.evidenceCount.Some?
    ensures |Entered(s, AWAIT_EVIDENCE, Some(p))| == 3
  {
    StartStops(Merge(s, AwaitEvidence(s, p).value));
  }
}
