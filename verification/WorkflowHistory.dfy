/** Which review histories occur, and what they say: the language of action
    sequences, the round counter, the approval flag and the result text. */
module WorkflowHistory {
  import opened Wrappers
  import opened Workflow
  import opened WorkflowRun

  function Actions(history: seq<Record>): (r: seq<Action>)
    ensures |r| == |history|
  {
    if history == [] then [] else Actions(history[..|history| - 1]) + [history[|history| - 1].action]
  }

  function LastAction(t: Stop): Option<Action>
    requires !t.Raised?
  {
    var h := t.state.history;
    if h == [] then None else Some(h[|h| - 1].action)
  }

  /** What an accepted request does, in terms of the view alone. */
  lemma AcceptedStep(o: Opening, t: Stop, c: Call)
    requires Kept(o, t) && Resume(t, c.request, c.reviewedAt, c.evidence).Ok?
    ensures var a := ResolvedDecision(c.request);
            var e := EntryOf(t.state, PayloadOf(c, a));
            var n := After(t, c);
            && e.action == a && a in Allowed(InterruptOf(t.node)) && t.Paused?
            && (t.node == HUMAN_REVIEW || t.node == AWAIT_EVIDENCE)
            && !n.Raised?
            && n.state.history == t.state.history + [e]
            && ViewOf(n) == Apply(ViewOf(t), e, o.maxRounds)
            && Actions(n.state.history) == Actions(t.state.history) + [a]
            && LastAction(n) == Some(a)
  {
    hide Execute, Apply;
    ResumeAppends(o, t, c);
    PausedAt(o, t);
    var e := EntryOf(t.state, PayloadOf(c, ResolvedDecision(c.request)));
    HistoryGrows(t.state.history, e, o.maxRounds);
    assert (t.state.history + [e])[..|t.state.history|] == t.state.history;
  }

  // ----- the flag, the status and the texts -----

  predicate Meaning(o: Opening, t: Stop)
    requires !t.Raised?
  {
    var s, last := t.state, LastAction(t);
    && s.status in {WAITING_REVIEW, WAITING_EVIDENCE, COMPLETED, CANCELLED}
    && (s.status == WAITING_REVIEW <==> t.Paused? && t.node == HUMAN_REVIEW)
    && (s.status == WAITING_EVIDENCE <==> t.Paused? && t.node == AWAIT_EVIDENCE)
    && (s.status == WAITING_EVIDENCE <==> last == Some(REQUEST_EVIDENCE))
    && (t.Ended? <==> s.status == COMPLETED || s.status == CANCELLED)
    && (s.approved == Some(true) <==> s.status == COMPLETED)
    && (s.status == COMPLETED <==> last == Some(APPROVE))
    && (s.approved == Some(false) <==> last == Some(CANCEL))
    && (s.result.Some? && s.result.value.LimitReached? <==> t.Ended? && last == Some(REANALYZE))
    && (s.result.Some? && s.result.value.LimitReached? ==> s.result.value.maxRounds == o.maxRounds <= s.round)
    && (s.result == None <==> t.Paused? && REQUEST_EVIDENCE !in Actions(s.history))
    && (t.Paused? && s.result.Some? ==> s.result == Some(AwaitingEvidence))
  }

  lemma MeaningMoves(o: Opening, t: Stop, n: Stop, e: Record)
    requires t.Paused? && !n.Raised? && Meaning(o, t) && e.action in Allowed(InterruptOf(t.node))
    requires t.node == HUMAN_REVIEW || t.node == AWAIT_EVIDENCE
    requires ViewOf(n) == Apply(ViewOf(t), e, o.maxRounds) && LastAction(n) == Some(e.action)
    requires Actions(n.state.history) == Actions(t.state.history) + [e.action]
    requires LastAction(t) == Some(REQUEST_EVIDENCE) ==> REQUEST_EVIDENCE in Actions(t.state.history)
    ensures Meaning(o, n)
  {
    hide Actions, LastAction;
  }

  lemma MeaningKept(o: Opening, t: Stop, c: Call)
    requires Kept(o, t) && Meaning(o, t)
    ensures !After(t, c).Raised? && Meaning(o, After(t, c))
  {
    hide Execute, Apply, Meaning, Replay;
    ResumeAppends(o, t, c);
    if Resume(t, c.request, c.reviewedAt, c.evidence).Ok? {
      AcceptedStep(o, t, c);
      ActionsEnd(t.state.history);
      MeaningMoves(o, t, After(t, c), EntryOf(t.state, PayloadOf(c, ResolvedDecision(c.request))));
    }
  }

  lemma {:induction false} ActionsEnd(history: seq<Record>)
    ensures history != [] ==> Actions(history)[|history| - 1] == history[|history| - 1].action
  {
  }

  /** At every pause or end: four statuses occur and tell where the thread is, the
      approval flag is true exactly when the status is
      COMPLETED and false exactly after CANCEL, the limit text appears exactly when
      the run ended on REANALYZE, and the result is empty exactly while the thread
      waits and no evidence was ever requested. */
  lemma {:induction false} RunsMeanWhatTheySay(o: Opening, calls: seq<Call>)
    ensures Kept(o, Run(o, calls)) && Meaning(o, Run(o, calls))
  {
    RunReplaysHistory(o, calls);
    if calls == [] {
      BeginKeeps(o);
    } else {
      hide Kept, Meaning, After, Execute;
      RunsMeanWhatTheySay(o, calls[..|calls| - 1]);
      MeaningKept(o, Run(o, calls[..|calls| - 1]), calls[|calls| - 1]);
    }
  }

  // ----- the language of histories -----

  /** One lap back to the review. */
  datatype Lap = Reanalysis | Supplement

  function Spell(laps: seq<Lap>): seq<Action> {
    if laps == [] then []
    else
      Spell(laps[..|laps| - 1])
      + (if laps[|laps| - 1].Reanalysis? then [REANALYZE] else [REQUEST_EVIDENCE, EVIDENCE_READY])
  }

  function Word(laps: seq<Lap>, tail: Option<Action>): seq<Action> {
    Spell(laps) + if tail.Some? then [tail.value] else []
  }

  /** A reanalysis loops back only below the limit, and ends the run at it. */
  predicate Legal(laps: seq<Lap>, tail: Option<Action>, maxRounds: int) {
    && (forall i | 0 <= i < |laps| :: laps[i].Reanalysis? ==> i + 1 < maxRounds)
    && tail != Some(EVIDENCE_READY)
    && (tail == Some(REANALYZE) ==> |laps| + 1 >= maxRounds)
  }

  predicate Spelled(o: Opening, t: Stop, laps: seq<Lap>, tail: Option<Action>) {
    && !t.Raised?
    && Legal(laps, tail, o.maxRounds)
    && Actions(t.state.history) == Word(laps, tail)
    && t.state.round == 1 + |laps|
    && ViewOf(t).node == (if tail == None then Some(HUMAN_REVIEW)
                          else if tail == Some(REQUEST_EVIDENCE) then Some(AWAIT_EVIDENCE)
                          else None)
  }

  lemma SpellLap(laps: seq<Lap>, lap: Lap)
    ensures lap == Reanalysis ==> Word(laps + [lap], None) == Word(laps, None) + [REANALYZE]
    ensures lap == Supplement ==> Word(laps + [lap], None) == Word(laps, Some(REQUEST_EVIDENCE)) + [EVIDENCE_READY]
  {
    assert (laps + [lap])[..|laps|] == laps;
  }

  /** How one more action continues a word that is not at its end. */
  function Continued(laps: seq<Lap>, tail: Option<Action>, a: Action, maxRounds: int): (seq<Lap>, Option<Action>) {
    if tail.Some? then (laps + [Supplement], None)
    else if a == REANALYZE && |laps| + 1 < maxRounds then (laps + [Reanalysis], None)
    else (laps, Some(a))
  }

  lemma ContinuedLegal(laps: seq<Lap>, tail: Option<Action>, a: Action, maxRounds: int)
    requires Legal(laps, tail, maxRounds)
    requires if tail == None then a != EVIDENCE_READY else tail == Some(REQUEST_EVIDENCE) && a == EVIDENCE_READY
    ensures var (longer, end) := Continued(laps, tail, a, maxRounds);
            Legal(longer, end, maxRounds) && Word(longer, end) == Word(laps, tail) + [a]
  {
    SpellLap(laps, Reanalysis);
    SpellLap(laps, Supplement);
    assert Word(laps, None) == Spell(laps);
  }

  lemma AcceptedSpelling(o: Opening, t: Stop, c: Call, laps: seq<Lap>, tail: Option<Action>)
    requires Kept(o, t) && Spelled(o, t, laps, tail) && Resume(t, c.request, c.reviewedAt, c.evidence).Ok?
    ensures var (longer, end) := Continued(laps, tail, ResolvedDecision(c.request), o.maxRounds);
            Spelled(o, After(t, c), longer, end)
  {
    AcceptedStep(o, t, c);
    hide Execute, After, Resume, Kept, Actions, Replay, Spell, Word, Legal;
    ContinuedLegal(laps, tail, ResolvedDecision(c.request), o.maxRounds);
  }

  /** Every run's history is a legal word, and the round counts the laps. */
  lemma {:induction false} HistorySpelled(o: Opening, calls: seq<Call>) returns (laps: seq<Lap>, tail: Option<Action>)
    ensures Spelled(o, Run(o, calls), laps, tail)
  {
    hide Execute;
    if calls == [] {
      BeginKeeps(o);
      laps, tail := [], None;
    } else {
      var front, c := calls[..|calls| - 1], calls[|calls| - 1];
      laps, tail := HistorySpelled(o, front);
      RunReplaysHistory(o, front);
      if Resume(Run(o, front), c.request, c.reviewedAt, c.evidence).Ok? {
        AcceptedSpelling(o, Run(o, front), c, laps, tail);
        var next := Continued(laps, tail, ResolvedDecision(c.request), o.maxRounds);
        laps, tail := next.0, next.1;
      } else {
        ResumeAppends(o, Run(o, front), c);
      }
    }
  }

  function Ask(a: Action): Call { Call(Request(Some(a), None, None, None), "", 0) }

  lemma CallAccepted(o: Opening, t: Stop, laps: seq<Lap>, tail: Option<Action>, a: Action)
    requires Kept(o, t) && Spelled(o, t, laps, tail)
    requires tail == None || tail == Some(REQUEST_EVIDENCE)
    requires (a == EVIDENCE_READY) == (tail != None)
    ensures var (longer, end) := Continued(laps, tail, a, o.maxRounds);
            Spelled(o, After(t, Ask(a)), longer, end)
  {
    hide Execute;
    AcceptedSpelling(o, t, Ask(a), laps, tail);
  }

  /** Calls that spell out the given laps. */
  lemma {:induction false} LapsOccur(o: Opening, laps: seq<Lap>) returns (calls: seq<Call>)
    requires Legal(laps, None, o.maxRounds)
    ensures Spelled(o, Run(o, calls), laps, None)
  {
    hide Execute, After;
    if laps == [] {
      calls := [];
      BeginKeeps(o);
    } else {
      var front := laps[..|laps| - 1];
      calls := LapsOccur(o, front);
      RunReplaysHistory(o, calls);
      assert laps == front + [laps[|laps| - 1]];
      if laps[|laps| - 1].Reanalysis? {
        CallAccepted(o, Run(o, calls), front, None, REANALYZE);
        RunExtends(o, calls, Ask(REANALYZE));
        calls := calls + [Ask(REANALYZE)];
      } else {
        CallAccepted(o, Run(o, calls), front, None, REQUEST_EVIDENCE);
        RunExtends(o, calls, Ask(REQUEST_EVIDENCE));
        calls := calls + [Ask(REQUEST_EVIDENCE)];
        RunReplaysHistory(o, calls);
        CallAccepted(o, Run(o, calls), front, Some(REQUEST_EVIDENCE), EVIDENCE_READY);
        RunExtends(o, calls, Ask(EVIDENCE_READY));
        calls := calls + [Ask(EVIDENCE_READY)];
      }
    }
  }

  lemma WordOccurs(o: Opening, laps: seq<Lap>, tail: Option<Action>) returns (calls: seq<Call>)
    requires Legal(laps, tail, o.maxRounds)
    ensures Spelled(o, Run(o, calls), laps, tail)
  {
    hide Execute, After;
    calls := LapsOccur(o, laps);
    if tail.Some? {
      RunReplaysHistory(o, calls);
      CallAccepted(o, Run(o, calls), laps, None, tail.value);
      RunExtends(o, calls, Ask(tail.value));
      calls := calls + [Ask(tail.value)];
    }
  }

  ghost predicate Occurs(o: Opening, actions: seq<Action>) {
    exists calls: seq<Call> :: !Run(o, calls).Raised? && Actions(Run(o, calls).state.history) == actions
  }

  /** The reachable action histories are exactly the legal words: reanalyses below
      the limit and answered evidence requests, then at most one last action. */
  lemma ReachableHistories(o: Opening, actions: seq<Action>)
    ensures Occurs(o, actions) <==> exists laps, tail :: Legal(laps, tail, o.maxRounds) && Word(laps, tail) == actions
  {
    hide Run, Word, Legal, Actions;
    if Occurs(o, actions) {
      var calls: seq<Call> :| !Run(o, calls).Raised? && Actions(Run(o, calls).state.history) == actions;
      var laps, tail := HistorySpelled(o, calls);
      assert Legal(laps, tail, o.maxRounds) && Word(laps, tail) == actions;
    }
    if laps, tail :| Legal(laps, tail, o.maxRounds) && Word(laps, tail) == actions {
      var calls := WordOccurs(o, laps, tail);
      assert Actions(Run(o, calls).state.history) == actions;
    }
  }

  // ----- the round counter -----

  function Count<T(==)>(xs: seq<T>, x: T): nat {
    if xs == [] then 0 else Count(xs[..|xs| - 1], x) + (if xs[|xs| - 1] == x then 1 else 0)
  }

  lemma {:induction false} CountAppend<T>(xs: seq<T>, y: T, x: T)
    ensures Count(xs + [y], x) == Count(xs, x) + (if y == x then 1 else 0)
  {
    assert (xs + [y])[..|xs|] == xs;
  }

  lemma {:induction false} LapsCounted(laps: seq<Lap>)
    ensures Count(Spell(laps), REANALYZE) == Count(laps, Reanalysis)
    ensures Count(Spell(laps), EVIDENCE_READY) == Count(laps, Supplement)
    ensures |laps| == Count(laps, Reanalysis) + Count(laps, Supplement)
  {
    hide Count;
    if laps == [] {
      assert Count(laps, Reanalysis) == 0 && Count<Action>([], REANALYZE) == 0 by { NothingCounted(); }
      assert Count(laps, Supplement) == 0 && Count<Action>([], EVIDENCE_READY) == 0 by { NothingCounted(); }
    } else {
      var front, last := laps[..|laps| - 1], laps[|laps| - 1];
      LapsCounted(front);
      assert laps == front + [last];
      CountAppend(front, last, Reanalysis);
      CountAppend(front, last, Supplement);
      if last.Reanalysis? {
        CountAppend(Spell(front), REANALYZE, REANALYZE);
        CountAppend(Spell(front), REANALYZE, EVIDENCE_READY);
      } else {
        CountAppend(Spell(front), REQUEST_EVIDENCE, REANALYZE);
        CountAppend(Spell(front), REQUEST_EVIDENCE, EVIDENCE_READY);
        CountAppend(Spell(front) + [REQUEST_EVIDENCE], EVIDENCE_READY, REANALYZE);
        CountAppend(Spell(front) + [REQUEST_EVIDENCE], EVIDENCE_READY, EVIDENCE_READY);
        assert Spell(laps) == Spell(front) + [REQUEST_EVIDENCE] + [EVIDENCE_READY];
      }
    }
  }

  lemma NothingCounted()
    ensures Count<Lap>([], Reanalysis) == Count<Lap>([], Supplement) == 0
    ensures Count<Action>([], REANALYZE) == Count<Action>([], EVIDENCE_READY) == 0
  {
  }

  lemma {:induction false} ReanalysesBounded(laps: seq<Lap>, maxRounds: int)
    requires forall i | 0 <= i < |laps| :: laps[i].Reanalysis? ==> i + 1 < maxRounds
    ensures Count(laps, Reanalysis) <= |laps|
    ensures Count(laps, Reanalysis) > 0 ==> Count(laps, Reanalysis) < maxRounds
  {
    if laps != [] { ReanalysesBounded(laps[..|laps| - 1], maxRounds); }
  }

  /** How many reanalyses of a run led back to the review. */
  function Looped(t: Stop): int
    requires !t.Raised?
  {
    Count(Actions(t.state.history), REANALYZE) - (if t.Ended? && LastAction(t) == Some(REANALYZE) then 1 else 0)
  }

  /** The round is one plus the looped reanalyses plus the answered evidence
      requests; fewer than the maximum reanalyses loop, so only evidence can take
      the round past the maximum. */
  lemma {:induction false} RoundCounts(o: Opening, calls: seq<Call>)
    ensures var t := Run(o, calls);
            && !t.Raised?
            && var answered := Count(Actions(t.state.history), EVIDENCE_READY);
            && t.state.round == 1 + Looped(t) + answered
            && 0 <= Looped(t) <= (if o.maxRounds < 1 then 0 else o.maxRounds - 1)
            && (o.maxRounds >= 1 && t.state.round > o.maxRounds ==> answered >= t.state.round - o.maxRounds)
  {
    hide Run, Execute, Count, Spell;
    var laps, tail := HistorySpelled(o, calls);
    RunsMeanWhatTheySay(o, calls);
    LapsCounted(laps);
    ReanalysesBounded(laps, o.maxRounds);
    var t := Run(o, calls);
    ActionsEnd(t.state.history);
    if tail.Some? {
      CountAppend(Spell(laps), tail.value, REANALYZE);
      CountAppend(Spell(laps), tail.value, EVIDENCE_READY);
      assert Word(laps, tail)[|Word(laps, tail)| - 1] == tail.value;
    } else {
      assert Word(laps, tail) == Spell(laps);
    }
  }

  /** Recorded rounds start at one, never fall and rise by at most one; the last
      one is the current round, or one less when a reanalysis has just looped. */
  predicate RoundsClimb(t: Stop)
    requires !t.Raised?
  {
    var h := t.state.history;
    && (h == [] ==> t.state.round == 1)
    && (h != [] ==> h[0].round == 1)
    && (h != [] ==> t.state.round == h[|h| - 1].round + (if t.Paused? && h[|h| - 1].action == REANALYZE then 1 else 0))
    && forall i | 0 < i < |h| :: Climbs(h, i)
  }

  predicate Climbs(h: seq<Record>, i: nat)
    requires 0 < i < |h|
  {
    h[i - 1].round <= h[i].round <= h[i - 1].round + 1
  }

  lemma ClimbsOn(t: Stop, n: Stop, e: Record)
    requires !t.Raised? && RoundsClimb(t) && !n.Raised?
    requires n.state.history == t.state.history + [e]
    requires n.state.round == e.round + (if n.Paused? && e.action == REANALYZE then 1 else 0)
    requires e.round == t.state.round + (if e.action == EVIDENCE_READY then 1 else 0)
    requires e.action == EVIDENCE_READY ==> LastAction(t) == Some(REQUEST_EVIDENCE)
    ensures RoundsClimb(n)
  {
    var h, k := t.state.history, n.state.history;
    forall i | 0 < i < |k| ensures Climbs(k, i) {
      if i < |h| { assert Climbs(h, i); }
    }
  }

  lemma ClimbKept(o: Opening, t: Stop, c: Call)
    requires Kept(o, t) && Meaning(o, t) && RoundsClimb(t)
    ensures !After(t, c).Raised? && RoundsClimb(After(t, c))
  {
    hide Execute, RoundsClimb, Actions, Replay;
    ResumeAppends(o, t, c);
    if Resume(t, c.request, c.reviewedAt, c.evidence).Ok? {
      AcceptedStep(o, t, c);
      ClimbsOn(t, After(t, c), EntryOf(t.state, PayloadOf(c, ResolvedDecision(c.request))));
    }
  }

  lemma {:induction false} RecordedRoundsClimb(o: Opening, calls: seq<Call>)
    ensures !Run(o, calls).Raised? && RoundsClimb(Run(o, calls))
  {
    hide After, Execute, RoundsClimb, Meaning;
    if calls == [] {
      StartClimbs(o);
    } else {
      var front := calls[..|calls| - 1];
      RecordedRoundsClimb(o, front);
      RunsMeanWhatTheySay(o, front);
      ClimbKept(o, Run(o, front), calls[|calls| - 1]);
    }
  }

  lemma StartClimbs(o: Opening)
    ensures !Begin(o).Raised? && RoundsClimb(Begin(o))
  {
    hide Execute;
    BeginKeeps(o);
  }
}
