/** What each request does to a thread at any point of any run, in the words of the
    request: its two fields, the pause that it meets, and literal texts. */
module WorkflowRequests {
  import opened Wrappers
  import opened Workflow
  import opened WorkflowRun
  import opened WorkflowHistory

  function Answer(o: Opening, calls: seq<Call>, c: Call): Result<Stop, Refusal> {
    Resume(Run(o, calls), c.request, c.reviewedAt, c.evidence)
  }

  // ----- which requests are accepted -----

  /** A request without a decision and without the older flag is malformed; an ended
      thread refuses every other one; a review takes every decision but
      EVIDENCE_READY, the flag included, and an evidence request takes that one only. */
  lemma {:induction false} RequestsAnswered(o: Opening, calls: seq<Call>, c: Call)
    ensures var t := Run(o, calls);
            var (decision, flag) := (c.request.decision, c.request.approved);
            var review := t.Paused? && t.node == HUMAN_REVIEW;
            var evidence := t.Paused? && t.node == AWAIT_EVIDENCE;
            var r := Answer(o, calls, c);
            && (t.Ended? || review || evidence)
            && (r == Err(MissingDecision) <==> decision == None && flag == None)
            && (r == Err(NotWaiting) <==> (decision.Some? || flag.Some?) && t.Ended?)
            && (r.Ok? <==>
                  || (review && (if decision.Some? then decision.value in {APPROVE, REANALYZE, REQUEST_EVIDENCE, CANCEL}
                                 else flag.Some?))
                  || (evidence && decision == Some(EVIDENCE_READY)))
            && (r.Err? ==> r.error in {MissingDecision, NotWaiting, InvalidDecision})
  {
    hide Run, Execute, Replay;
    NeverRaises(o, calls);
    if Run(o, calls).Paused? { PausedAt(o, Run(o, calls)); }
  }

  // ----- what an accepted request does -----

  /** The thread that decision `a` leads to: where it stops, its round, what it shows. */
  predicate LeadsTo(t: Stop, a: Action, evidence: nat, n: Stop)
    requires t.Paused? && !n.Raised?
  {
    var s, k := t.state, n.state;
    && (k.caseId, k.caseName, k.scope, k.maxRounds) == (s.caseId, s.caseName, s.scope, s.maxRounds)
    && k.evidenceCount == (if a == EVIDENCE_READY then evidence else s.evidenceCount)
    && match a
       case APPROVE =>
         n.Ended? && k.status == COMPLETED && k.approved == Some(true) && k.round == s.round
         && k.result == Some(Approved(s.round))
       case CANCEL =>
         n.Ended? && k.status == CANCELLED && k.approved == Some(false) && k.round == s.round
         && k.result == Some(Terminated)
       case REQUEST_EVIDENCE =>
         n.Paused? && n.node == AWAIT_EVIDENCE && k.status == WAITING_EVIDENCE && k.approved == None
         && k.round == s.round && k.result == Some(AwaitingEvidence)
       case EVIDENCE_READY =>
         n.Paused? && n.node == HUMAN_REVIEW && k.status == WAITING_REVIEW && k.round == s.round + 1
         && k.summary == Prepared(s.caseName, s.round + 1, evidence, s.scope)
       case REANALYZE =>
         if s.round < s.maxRounds then
           n.Paused? && n.node == HUMAN_REVIEW && k.status == WAITING_REVIEW && k.approved == None
           && k.round == s.round + 1 && k.summary == Reanalyzed(s.caseName, s.round + 1, s.evidenceCount)
         else
           n.Ended? && k.status == CANCELLED && k.approved == None && k.round == s.round
           && k.result == Some(LimitReached(s.maxRounds))
  }

  /** The one entry that a request adds, and the last review data that it leaves. */
  predicate Records(t: Stop, a: Action, c: Call, n: Stop)
    requires t.Paused? && !n.Raised?
  {
    var round := if a == EVIDENCE_READY then t.state.round + 1 else t.state.round;
    && n.state.history == t.state.history + [Record(a, c.request.comment, c.request.reviewer, c.reviewedAt, round)]
    && n.state.comment == c.request.comment && n.state.reviewer == c.request.reviewer
    && n.state.reviewedAt == Some(c.reviewedAt)
    && n.state.decision == (if a == EVIDENCE_READY then t.state.decision else Some(a))
  }

  lemma AppliedLeads(t: Stop, a: Action, c: Call, evidence: nat, n: Stop)
    requires t.Paused? && !n.Raised? && n.state.summary == Rendered(n.state)
    requires (n.state.caseId, n.state.caseName, n.state.scope, n.state.maxRounds)
          == (t.state.caseId, t.state.caseName, t.state.scope, t.state.maxRounds)
    requires n.state.evidenceCount == if a == EVIDENCE_READY then evidence else t.state.evidenceCount
    requires ViewOf(n) == Apply(ViewOf(t), EntryOf(t.state, PayloadOf(c, a)), t.state.maxRounds)
    requires n.state.history == t.state.history + [EntryOf(t.state, PayloadOf(c, a))]
    ensures LeadsTo(t, a, evidence, n) && Records(t, a, c, n)
  {
    match a
    case APPROVE =>
    case CANCEL =>
    case REQUEST_EVIDENCE =>
    case EVIDENCE_READY =>
    case REANALYZE =>
  }

  lemma AcceptedLeads(o: Opening, t: Stop, c: Call)
    requires Kept(o, t) && Resume(t, c.request, c.reviewedAt, c.evidence).Ok?
    ensures var a := ResolvedDecision(c.request);
            var n := After(t, c);
            t.Paused? && !n.Raised? && LeadsTo(t, a, c.evidence, n) && Records(t, a, c, n)
  {
    hide After, Resume, Replay, Actions, Apply, LeadsTo, Records, Rendered, ViewOf, EntryOf, PayloadOf, LastAction,
         ResolvedDecision, Allowed;
    AcceptedStep(o, t, c);
    ResumeAppends(o, t, c);
    AppliedLeads(t, ResolvedDecision(c.request), c, c.evidence, After(t, c));
  }

  /** A request with a decision records and does that decision, whatever the flag says. */
  lemma {:induction false} DecisionRequests(o: Opening, calls: seq<Call>, c: Call, a: Action)
    requires Answer(o, calls, c).Ok? && c.request.decision == Some(a)
    ensures var t, n := Run(o, calls), Answer(o, calls, c).value;
            t.Paused? && !n.Raised? && Run(o, calls + [c]) == n && LeadsTo(t, a, c.evidence, n) && Records(t, a, c, n)
  {
    hide Run, Execute, Kept, LeadsTo, Records;
    NeverRaises(o, calls);
    RunExtends(o, calls, c);
    AcceptedLeads(o, Run(o, calls), c);
  }

  /** At every review of every run, the older flag alone ends the thread: approved
      with an APPROVE entry if it is true, cancelled with a CANCEL entry if it is not. */
  lemma {:induction false} FlagRequests(o: Opening, calls: seq<Call>, c: Call, b: bool)
    requires var t := Run(o, calls); t.Paused? && t.node == HUMAN_REVIEW
    requires c.request.decision == None && c.request.approved == Some(b)
    ensures Answer(o, calls, c).Ok? && Answer(o, calls, c).value.Ended?
    ensures var t, n := Run(o, calls), Answer(o, calls, c).value;
            var entry := Record(if b then APPROVE else CANCEL, c.request.comment, c.request.reviewer, c.reviewedAt,
                                t.state.round);
            && n == Run(o, calls + [c])
            && n.state.status == (if b then COMPLETED else CANCELLED)
            && n.state.approved == Some(b)
            && n.state.history == t.state.history + [entry]
            && n.state.result == Some(if b then Approved(t.state.round) else Terminated)
            && LeadsTo(t, entry.action, c.evidence, n) && Records(t, entry.action, c, n)
  {
    hide Run, Execute, Kept;
    NeverRaises(o, calls);
    RunExtends(o, calls, c);
    AcceptedLeads(o, Run(o, calls), c);
  }

  // ----- the evidence that a thread knows of -----

  /** How many evidence rows the thread was last told of: at its start, or by the last
      answered evidence request. */
  function LastTold(o: Opening, calls: seq<Call>): nat {
    if calls == [] then o.evidenceCount
    else
      var front, c := calls[..|calls| - 1], calls[|calls| - 1];
      if c.request.decision == Some(EVIDENCE_READY) && Answer(o, front, c).Ok? then c.evidence else LastTold(o, front)
  }

  /** A thread starts paused at its first review, and at every point of every run shows
      the case it was started for and the evidence that it was last told of. */
  lemma {:induction false} EvidenceIsLastTold(o: Opening, calls: seq<Call>)
    ensures var t := Run(o, calls);
            && !t.Raised?
            && t.state.evidenceCount == LastTold(o, calls)
            && (t.state.caseId, t.state.caseName, t.state.scope, t.state.maxRounds)
               == (o.caseId, o.caseName, o.scope, o.maxRounds)
            && (calls == [] ==>
                  && t.Paused? && t.node == HUMAN_REVIEW && t.state.status == WAITING_REVIEW && t.state.round == 1
                  && t.state.summary == Prepared(o.caseName, 1, o.evidenceCount, o.scope) && t.state.history == [])
  {
    hide Execute, Replay;
    if calls == [] {
      Opens(o);
    } else {
      var front, c := calls[..|calls| - 1], calls[|calls| - 1];
      EvidenceIsLastTold(o, front);
      NeverRaises(o, front);
      if Answer(o, front, c).Ok? { AcceptedLeads(o, Run(o, front), c); }
    }
  }

  lemma Opens(o: Opening)
    ensures var t := Begin(o);
            && t.Paused? && t.node == HUMAN_REVIEW && t.state.status == WAITING_REVIEW && t.state.round == 1
            && (t.state.caseId, t.state.caseName, t.state.scope, t.state.maxRounds)
               == (o.caseId, o.caseName, o.scope, o.maxRounds)
            && t.state.evidenceCount == o.evidenceCount
            && t.state.summary == Prepared(o.caseName, 1, o.evidenceCount, o.scope) && t.state.history == []
  {
    var s := InitialState(o.caseId, o.caseName, o.scope, o.evidenceCount, o.maxRounds);
    var prepared := Merge(s, PrepareCase(s));
    assert Execute(s, PREPARE_CASE, None) == Execute(prepared, HUMAN_REVIEW, None);
    assert Execute(prepared, HUMAN_REVIEW, None) == Paused(prepared, HUMAN_REVIEW);
  }

  // ----- three rounds -----

  /** With the service's limit of three rounds, a reanalysis loops in the first two
      rounds only: at most two of them in any run, and every later one ends it. */
  lemma {:induction false} AtMostTwoReanalyses(o: Opening, calls: seq<Call>, c: Call)
    requires o.maxRounds == 3
    ensures !Run(o, calls).Raised? && Looped(Run(o, calls)) <= 2
    ensures Answer(o, calls, c).Ok? && c.request.decision == Some(REANALYZE) ==>
              var t, n := Run(o, calls), Answer(o, calls, c).value;
              && !n.Raised?
              && (t.state.round < 3 ==> n.Paused? && n.node == HUMAN_REVIEW)
              && (t.state.round >= 3 ==> n.Ended? && n.state.result == Some(LimitReached(3)))
  {
    hide Run, Execute, Looped, Count;
    RoundCounts(o, calls);
    EvidenceIsLastTold(o, calls);
    if Answer(o, calls, c).Ok? && c.request.decision == Some(REANALYZE) { DecisionRequests(o, calls, c, REANALYZE); }
  }
}
