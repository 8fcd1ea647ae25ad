/** The service around the graph: it keeps one checkpoint per thread, guards
    every resume, and projects a checkpoint to a response. */
module WorkflowService {
  import opened Wrappers
  import opened Workflow
  import opened WorkflowRun
  import opened WorkflowHistory
  import opened WorkflowRequests

  /** What a paused thread asks for. */
  datatype Question =
    | ReviewQuestion(caseId: string, summary: Summary, round: int, maxRounds: int, allowed: set<Action>)
    | EvidenceQuestion(caseId: string, round: int, allowed: set<Action>)

  datatype Response = Response(caseId: string, status: Status, nextNodes: seq<Node>, interrupt: Option<Question>,
                               state: CaseState)

  function QuestionOf(t: Stop): Option<Question> {
    if !t.Paused? then None
    else if t.node == HUMAN_REVIEW then
      Some(ReviewQuestion(t.state.caseId, t.state.summary, t.state.round, t.state.maxRounds,
                          Allowed(CASE_ANALYSIS_REVIEW)))
    else Some(EvidenceQuestion(t.state.caseId, t.state.round, Allowed(EVIDENCE_REQUIRED)))
  }

  function ToResponse(t: Stop): Response
    requires !t.Raised?
  {
    Response(t.state.caseId, t.state.status, if t.Paused? then [t.node] else [], QuestionOf(t), t.state)
  }

  /** A response tells its reader exactly which decisions the next resume accepts. */
  lemma {:induction false} ResponseOffersWhatIsAccepted(o: Opening, calls: seq<Call>, c: Call)
    requires Acceptable(c.request)
    ensures var t := Run(o, calls);
            && !t.Raised?
            && (Resume(t, c.request, c.reviewedAt, c.evidence).Ok? <==>
                  && ToResponse(t).interrupt.Some?
                  && ResolvedDecision(c.request) in ToResponse(t).interrupt.value.allowed)
            && (ToResponse(t).nextNodes == [] <==> ToResponse(t).status in {COMPLETED, CANCELLED})
            && (ToResponse(t).interrupt == None <==> ToResponse(t).status in {COMPLETED, CANCELLED})
  {
    hide Run, Execute, Replay;
    RunReplaysHistory(o, calls);
    ReplayStops(Run(o, calls).state.history, o.maxRounds);
    if Run(o, calls).Paused? { PausedAt(o, Run(o, calls)); }
  }

  /** At every point of every run a response shows the thread: its state, the node it
      is paused in, and the question asked there with the thread's own round and limit. */
  lemma {:induction false} ResponseShows(o: Opening, calls: seq<Call>)
    ensures var t := Run(o, calls);
            && !t.Raised?
            && var r := ToResponse(t);
            && r.caseId == o.caseId && r.state == t.state && r.status == t.state.status
            && r.status in {WAITING_REVIEW, WAITING_EVIDENCE, COMPLETED, CANCELLED}
            && (r.status == WAITING_REVIEW ==>
                  && r.nextNodes == [HUMAN_REVIEW]
                  && r.interrupt == Some(ReviewQuestion(o.caseId, t.state.summary, t.state.round, o.maxRounds,
                                                        {APPROVE, REANALYZE, REQUEST_EVIDENCE, CANCEL})))
            && (r.status == WAITING_EVIDENCE ==>
                  && r.nextNodes == [AWAIT_EVIDENCE]
                  && r.interrupt == Some(EvidenceQuestion(o.caseId, t.state.round, {EVIDENCE_READY})))
            && (r.status == COMPLETED || r.status == CANCELLED ==> r.nextNodes == [] && r.interrupt == None)
            && (r.status == COMPLETED <==> LastAction(t) == Some(APPROVE))
            && (r.status == WAITING_EVIDENCE <==> LastAction(t) == Some(REQUEST_EVIDENCE))
  {
    hide Run, Execute, LastTold, Actions, Replay;
    RunsMeanWhatTheySay(o, calls);
    EvidenceIsLastTold(o, calls);
  }

  /** The action that a request asks for: its decision, or what the older flag stands for. */
  function Asked(r: Request): Action {
    if r.decision.Some? then r.decision.value else if r.approved == Some(true) then APPROVE else CANCEL
  }

  lemma ResumeCases(t: Stop, c: Call)
    requires Acceptable(c.request)
    ensures var action := ResolvedDecision(c.request);
            var r := Workflow.Resume(t, c.request, c.reviewedAt, c.evidence);
            if !t.Paused? then r == Err(NotWaiting) && After(t, c) == t
            else if action !in Allowed(InterruptOf(t.node)) then r == Err(InvalidDecision) && After(t, c) == t
            else r == Ok(After(t, c)) && After(t, c) == Execute(t.state, t.node, Some(PayloadOf(c, action)))
  {
  }

  class WorkflowService {
    var threads: map<string, Stop>
    ghost var openings: map<string, Opening>
    ghost var calls: map<string, seq<Call>>

    /** Every checkpoint is a run of the calls made on its thread. */
    ghost predicate Valid()
      reads this
    {
      && threads.Keys == openings.Keys == calls.Keys
      && forall id | id in threads :: threads[id] == Run(openings[id], calls[id]) && openings[id].maxRounds == 3
    }

    constructor ()
      ensures Valid() && threads == map[]
    {
      threads, openings, calls := map[], map[], map[];
    }

    /** Starts a thread under a new id. */
    method Start(threadId: string, caseId: string, caseName: Option<string>, scope: string, evidenceCount: nat)
      returns (r: Result<Response, Refusal>)
      requires Valid() && threadId !in threads
      modifies this
      ensures Valid()
      ensures caseName == None ==> r == Err(CaseNotFound) && threads == old(threads)
      ensures caseName.Some? ==>
                var o := Opening(caseId, caseName.value, scope, evidenceCount, 3);
                && threads == old(threads)[threadId := Begin(o)]
                && openings == old(openings)[threadId := o]
                && calls == old(calls)[threadId := []]
                && !Begin(o).Raised? && r == Ok(ToResponse(Begin(o)))
    {
      hide Execute, Run, Replay, Rendered;
      if caseName.None? { return Err(CaseNotFound); }
      ghost var o := Opening(caseId, caseName.value, scope, evidenceCount, MAX_REVIEW_ROUNDS);
      BeginKeeps(o);
      RunStarts(o);
      var initial := InitialState(caseId, caseName.value, scope, evidenceCount, MAX_REVIEW_ROUNDS);
      var stop := Execute(initial, PREPARE_CASE, None);
      threads := threads[threadId := stop];
      openings, calls := openings[threadId := o], calls[threadId := []];
      r := Ok(ToResponse(stop));
    }

    method Get(threadId: string) returns (r: Result<Response, Refusal>)
      requires Valid()
      ensures threadId !in threads ==> r == Err(WorkflowNotFound)
      ensures threadId in threads ==> !threads[threadId].Raised? && r == Ok(ToResponse(threads[threadId]))
    {
      if threadId !in threads { return Err(WorkflowNotFound); }
      RunReplaysHistory(openings[threadId], calls[threadId]);
      r := Ok(ToResponse(threads[threadId]));
    }

    /** Resumes a thread; `evidenceOf` lists the evidence rows of a case at that moment. */
    method Resume(threadId: string, data: Request, now: string, evidenceOf: string -> nat)
      returns (r: Result<Response, Refusal>)
      requires Valid()
      modifies this
      ensures Valid()
      ensures openings == old(openings)
      ensures !Acceptable(data) ==> r == Err(MissingDecision) && threads == old(threads)
      ensures Acceptable(data) && threadId !in old(threads) ==> r == Err(WorkflowNotFound) && threads == old(threads)
      ensures Acceptable(data) && threadId in old(threads) ==>
                var t := old(threads)[threadId];
                && !t.Raised?
                && var c := Call(data, now, evidenceOf(t.state.caseId));
                && var outcome := Workflow.Resume(t, data, now, c.evidence);
                && threads == old(threads)[threadId := After(t, c)]
                && (r.Ok? <==> outcome.Ok?)
                && (r.Ok? ==> !After(t, c).Raised? && r.value == ToResponse(After(t, c)))
                && (r.Err? ==> r.error == outcome.error && threads == old(threads) && calls == old(calls))
                && (r.Ok? ==> calls == old(calls)[threadId := old(calls)[threadId] + [c]])
                && (r.Ok? ==>
                      && t.Paused? && LeadsTo(t, Asked(data), c.evidence, threads[threadId])
                      && Records(t, Asked(data), c, threads[threadId]))
    {
      hide Execute, Run, Replay, Kept, EntryOf, After, Workflow.Resume, Allowed, InterruptOf, ToResponse,
           LeadsTo, Records;
      if !Acceptable(data) { return Err(MissingDecision); }
      if threadId !in threads { return Err(WorkflowNotFound); }
      var snapshot := threads[threadId];
      NeverRaises(openings[threadId], calls[threadId]);
      ghost var c := Call(data, now, evidenceOf(snapshot.state.caseId));
      ResumeAppends(openings[threadId], snapshot, c);
      ResumeCases(snapshot, c);
      if !snapshot.Paused? { return Err(NotWaiting); }
      var decision := ResolvedDecision(data);
      if decision !in Allowed(InterruptOf(snapshot.node)) { return Err(InvalidDecision); }
      var count: Option<nat> := None;
      if decision == EVIDENCE_READY {
        count := Some(evidenceOf(snapshot.state.caseId));
      }
      var payload := Payload(decision, data.comment, data.reviewer, now, count);
      var stop := Execute(snapshot.state, snapshot.node, Some(payload));
      threads := threads[threadId := stop];
      calls := calls[threadId := calls[threadId] + [c]];
      RunExtends(openings[threadId], old(calls[threadId]), c);
      AcceptedLeads(openings[threadId], snapshot, c);
      r := Ok(ToResponse(stop));
    }
  }
}
