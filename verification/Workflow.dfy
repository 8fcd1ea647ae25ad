/** The human review workflow as a graph of nodes: each node turns the case state
    into an update, two nodes pause for a decision, and a router picks the edge
    behind the review.  Texts that the nodes render are kept as the template and
    the values put into it. */
module Workflow {
  import opened Wrappers

  datatype Status = PREPARING | REANALYZING | WAITING_REVIEW | WAITING_EVIDENCE | COMPLETED | REJECTED | CANCELLED

  datatype Action = APPROVE | REANALYZE | REQUEST_EVIDENCE | CANCEL | EVIDENCE_READY

  datatype Record = Record(action: Action, comment: Option<string>, reviewer: Option<string>, reviewedAt: string,
                           round: int)

  datatype Summary =
    | Blank
    | Prepared(caseName: string, round: int, evidenceCount: nat, scope: string)
    | Reanalyzed(caseName: string, round: int, evidenceCount: nat)

  datatype ResultText = Approved(round: int) | AwaitingEvidence | LimitReached(maxRounds: int) | Terminated

  datatype CaseState = CaseState(
    caseId: string, caseName: string, evidenceCount: nat, scope: string, status: Status, summary: Summary,
    approved: Option<bool>, decision: Option<Action>, comment: Option<string>, reviewer: Option<string>,
    reviewedAt: Option<string>, round: int, maxRounds: int, history: seq<Record>, result: Option<ResultText>)

  /** What a node writes: absent fields stay, history entries are appended. */
  datatype Update = Update(
    status: Option<Status>, summary: Option<Summary>, evidenceCount: Option<nat>, approved: Option<Option<bool>>,
    decision: Option<Action>, comment: Option<Option<string>>, reviewer: Option<Option<string>>,
    reviewedAt: Option<string>, round: Option<int>, history: seq<Record>, result: Option<ResultText>)

  const NOTHING := Update(None, None, None, None, None, None, None, None, None, [], None)

  function Or<T>(o: Option<T>, default: T): T { if o.Some? then o.value else default }

  function Merge(s: CaseState, u: Update): CaseState {
    s.(status := Or(u.status, s.status), summary := Or(u.summary, s.summary),
       evidenceCount := Or(u.evidenceCount, s.evidenceCount), approved := Or(u.approved, s.approved),
       decision := if u.decision.Some? then u.decision else s.decision,
       comment := Or(u.comment, s.comment), reviewer := Or(u.reviewer, s.reviewer),
       reviewedAt := if u.reviewedAt.Some? then u.reviewedAt else s.reviewedAt,
       round := Or(u.round, s.round), history := s.history + u.history,
       result := if u.result.Some? then u.result else s.result)
  }

  /** The value that a paused node is resumed with; only evidence decisions carry a count. */
  datatype Payload = Payload(action: Action, comment: Option<string>, reviewer: Option<string>, reviewedAt: string,
                             evidenceCount: Option<nat>)

  // ----- nodes -----

  function PrepareCase(s: CaseState): Update {
    NOTHING.(status := Some(WAITING_REVIEW), summary := Some(Prepared(s.caseName, s.round, s.evidenceCount, s.scope)))
  }

  function RequestHumanReview(s: CaseState, d: Payload): Update {
    NOTHING.(approved := Some(if d.action == APPROVE then Some(true)
                              else if d.action == CANCEL then Some(false)
                              else None),
             decision := Some(d.action), comment := Some(d.comment), reviewer := Some(d.reviewer),
             reviewedAt := Some(d.reviewedAt),
             history := [Record(d.action, d.comment, d.reviewer, d.reviewedAt, s.round)])
  }

  function FinalizeCase(s: CaseState): Update {
    NOTHING.(status := Some(COMPLETED), result := Some(Approved(s.round)))
  }

  function ReanalyzeCase(s: CaseState): Update {
    NOTHING.(status := Some(WAITING_REVIEW), round := Some(s.round + 1),
             summary := Some(Reanalyzed(s.caseName, s.round + 1, s.evidenceCount)))
  }

  function MarkEvidenceRequired(s: CaseState): Update {
    NOTHING.(status := Some(WAITING_EVIDENCE), result := Some(AwaitingEvidence))
  }

  /** Fails when the decision carries no evidence count. */
  function AwaitEvidence(s: CaseState, d: Payload): Option<Update> {
    if d.evidenceCount.None? then None
    else Some(NOTHING.(status := Some(PREPARING), evidenceCount := d.evidenceCount, round := Some(s.round + 1),
                       comment := Some(d.comment), reviewer := Some(d.reviewer), reviewedAt := Some(d.reviewedAt),
                       history := [Record(EVIDENCE_READY, d.comment, d.reviewer, d.reviewedAt, s.round + 1)]))
  }

  function CancelCase(s: CaseState): Update {
    var limitReached := s.decision == Some(REANALYZE) && s.round >= s.maxRounds;
    NOTHING.(status := Some(CANCELLED), result := Some(if limitReached then LimitReached(s.maxRounds) else Terminated))
  }

  /** The edge behind the review; fails on a decision that the graph does not know. */
  function RouteReviewDecision(s: CaseState): Option<Action> {
    if s.decision == Some(REANALYZE) && s.round >= s.maxRounds then Some(CANCEL)
    else if s.decision.None? || s.decision.value == EVIDENCE_READY then None
    else s.decision
  }

  // ----- the graph -----

  datatype Node =
    | PREPARE_CASE | HUMAN_REVIEW | REANALYZE_CASE | MARK_EVIDENCE_REQUIRED | AWAIT_EVIDENCE
    | FINALIZE_CASE | CANCEL_CASE

  datatype Interrupt = CASE_ANALYSIS_REVIEW | EVIDENCE_REQUIRED

  /** Where an invocation stops: paused in a node, at the end, or in an error. */
  datatype Stop = Paused(state: CaseState, node: Node) | Ended(state: CaseState) | Raised

  function Target(edge: Action): Node
    requires edge != EVIDENCE_READY
  {
    match edge
    case APPROVE => FINALIZE_CASE
    case REANALYZE => REANALYZE_CASE
    case REQUEST_EVIDENCE => MARK_EVIDENCE_REQUIRED
    case CANCEL => CANCEL_CASE
  }

  /** How many more nodes an invocation can reach: a decision is used up once. */
  function Measure(node: Node, resume: Option<Payload>): nat {
    (if resume.Some? then 5 else 0)
    + match node
      case CANCEL_CASE => 0
      case FINALIZE_CASE => 0
      case HUMAN_REVIEW => 1
      case AWAIT_EVIDENCE => 1
      case PREPARE_CASE => 2
      case REANALYZE_CASE => 2
      case MARK_EVIDENCE_REQUIRED => 2
  }

  /** What one visit of a node leads to: the next node, or a stop. */
  datatype Move = Enter(state: CaseState, node: Node, resume: Option<Payload>) | Halt(stop: Stop)

  /** One node, and the edge behind it; a decision is used up by the node that takes it. */
  function Visit(s: CaseState, node: Node, resume: Option<Payload>): (m: Move)
    ensures m.Enter? ==> Measure(m.node, m.resume) < Measure(node, resume)
  {
    match node
    case PREPARE_CASE => Enter(Merge(s, PrepareCase(s)), HUMAN_REVIEW, resume)
    case HUMAN_REVIEW =>
      if resume.None? then Halt(Paused(s, HUMAN_REVIEW))
      else
        var reviewed := Merge(s, RequestHumanReview(s, resume.value));
        var edge := RouteReviewDecision(reviewed);
        if edge.None? || edge.value == EVIDENCE_READY then Halt(Raised)
        else Enter(reviewed, Target(edge.value), None)
    case REANALYZE_CASE => Enter(Merge(s, ReanalyzeCase(s)), HUMAN_REVIEW, resume)
    case MARK_EVIDENCE_REQUIRED => Enter(Merge(s, MarkEvidenceRequired(s)), AWAIT_EVIDENCE, resume)
    case AWAIT_EVIDENCE =>
      if resume.None? then Halt(Paused(s, AWAIT_EVIDENCE))
      else
        var update := AwaitEvidence(s, resume.value);
        if update.None? then Halt(Raised) else Enter(Merge(s, update.value), PREPARE_CASE, None)
    case FINALIZE_CASE => Halt(Ended(Merge(s, FinalizeCase(s))))
    case CANCEL_CASE => Halt(Ended(Merge(s, CancelCase(s))))
  }

  /** Runs the graph from `node` to the next pause or the end. */
  function Execute(s: CaseState, node: Node, resume: Option<Payload>): Stop
    decreases Measure(node, resume)
  {
    match Visit(s, node, resume)
    case Enter(next, target, rest) => Execute(next, target, rest)
    case Halt(stop) => stop
  }

  /** The nodes that such an invocation visits, in order. */
  function Entered(s: CaseState, node: Node, resume: Option<Payload>): (nodes: seq<Node>)
    ensures nodes != []
    decreases Measure(node, resume)
  {
    match Visit(s, node, resume)
    case Enter(next, target, rest) => [node] + Entered(next, target, rest)
    case Halt(_) => [node]
  }

  /** An invocation stops in the last node that it visits: it is paused there, has ended
      there, or the node or the router behind it has raised. */
  predicate StopsIn(stop: Stop, node: Node) {
    match stop
    case Paused(_, at) => at == node && (node == HUMAN_REVIEW || node == AWAIT_EVIDENCE)
    case Ended(_) => node == FINALIZE_CASE || node == CANCEL_CASE
    case Raised => node == HUMAN_REVIEW || node == AWAIT_EVIDENCE
  }

  lemma {:induction false} StopsInLast(s: CaseState, node: Node, resume: Option<Payload>)
    ensures var nodes := Entered(s, node, resume); StopsIn(Execute(s, node, resume), nodes[|nodes| - 1])
    decreases Measure(node, resume)
  {
    var m := Visit(s, node, resume);
    if m.Enter? { StopsInLast(m.state, m.node, m.resume); }
  }

  // ----- requests -----

  /** A resume request: a decision, or the older approval flag. */
  datatype Request = Request(decision: Option<Action>, approved: Option<bool>, comment: Option<string>,
                             reviewer: Option<string>)

  predicate Acceptable(r: Request) { r.decision.Some? || r.approved.Some? }

  function ResolvedDecision(r: Request): Action
    requires Acceptable(r)
  {
    if r.decision.Some? then r.decision.value else if r.approved.value then APPROVE else CANCEL
  }

  function InterruptOf(node: Node): Interrupt {
    if node == HUMAN_REVIEW then CASE_ANALYSIS_REVIEW else EVIDENCE_REQUIRED
  }

  function Allowed(i: Interrupt): set<Action> {
    if i == CASE_ANALYSIS_REVIEW then {APPROVE, REANALYZE, REQUEST_EVIDENCE, CANCEL} else {EVIDENCE_READY}
  }

  datatype Refusal = MissingDecision | CaseNotFound | WorkflowNotFound | NotWaiting | InvalidDecision

  const MAX_REVIEW_ROUNDS := 3

  function InitialState(caseId: string, caseName: string, scope: string, evidenceCount: nat,
                        maxRounds: int): CaseState {
    CaseState(caseId, caseName, evidenceCount, scope, PREPARING, Blank, None, None, None, None, None, 1, maxRounds,
              [], None)
  }

  function Start(caseId: string, caseName: string, scope: string, evidenceCount: nat, maxRounds: int): Stop {
    Execute(InitialState(caseId, caseName, scope, evidenceCount, maxRounds), PREPARE_CASE, None)
  }

  /** What a resume request does to a thread: the next stop, or a refusal. */
  function Resume(t: Stop, r: Request, reviewedAt: string, evidence: nat): Result<Stop, Refusal> {
    if !Acceptable(r) then Err(MissingDecision)
    else if !t.Paused? then Err(NotWaiting)
    else
      var decision := ResolvedDecision(r);
      if decision !in Allowed(InterruptOf(t.node)) then Err(InvalidDecision)
      else
        var count := if decision == EVIDENCE_READY then Some(evidence) else None;
        Ok(Execute(t.state, t.node, Some(Payload(decision, r.comment, r.reviewer, reviewedAt, count))))
  }
}
