/** What a run that stayed on course has spent, reviews included, and the run of the policy its
    verdicts are. */
module Books {
  import opened Records
  import opened ControlStore
  import opened Policy
  import opened PolicyRuns
  import opened Controller
  import opened RunLoop
  import opened Bootstrap
  import opened CrashRecovery
  import opened CrashTheorems
  import opened ReviewTimes
  import opened ReviewedRuns
  import opened TurnEnds
  import opened Carries
  import opened Tracks
  import opened Replays
  import opened Barriers

  // ---- Money ----

  /** What the heads were charged on being reached. */
  function Charges(heads: seq<StateSnapshot>): real {
    if heads == [] then 0.0 else Charges(heads[..|heads| - 1]) + Charge(heads[|heads| - 1])
  }

  /** Any turn of any kind charges what its last snapshot says, and leaves a state the run can pay
      for and the loop can go on from. */
  lemma TurnAccounts(c: Config, s: StateSnapshot, answer: Answer)
    requires CanGoOn(c, s) && TurnOf(c, s, answer).Commit?
    ensures CanGoOn(c, TurnOf(c, s, answer).next) && Accounts(c, s, TurnOf(c, s, answer).next)
  {
    hide DataTurn, CandidateTurn, DataReviewTurn, ModelReviewTurn;
    match s.state
    case Diagnose =>
      DataTurnDescends(c, s, answer.data);
      DataTurnAccounts(c, s, answer.data);
    case Train =>
      CandidateTurnDescends(c, s, answer.candidate);
      CandidateTurnAccounts(c, s, answer.candidate);
    case DataReviewPending =>
      DataReviewDescends(c, s, answer.review);
      DataReviewAccounts(c, s, answer.review);
    case ModelReviewPending =>
      ModelReviewDescends(c, s, answer.review);
      ModelReviewAccounts(c, s, answer.review);
    case _ =>
  }

  lemma BeginsSolvent(c: Config, s: StateSnapshot)
    requires Begins(s)
    ensures CanGoOn(c, s) && Charges([s]) == Charge(s)
  {
    assert [s][..0] == [];
  }

  lemma {:induction false} HeadsBalance(c: Config, d: Disk, heads: seq<StateSnapshot>, answers: seq<Answer>, k: nat)
    requires Booked(c, d, heads, answers) && k < |heads| && Begins(heads[0])
    ensures CanGoOn(c, heads[k]) && heads[k].totalCost == Charges(heads[1..k + 1])
  {
    hide Booked, TurnOf, AlreadyCommitted, Fit, EndsWell, CanGoOn, Begins;
    if k == 0 {
      BeginsSolvent(c, heads[0]);
      NothingSpent(heads[0]);
    } else {
      HeadsBalance(c, d, heads, answers, k - 1);
      EntryAt(c, d, heads, answers, k - 1);
      TurnAccounts(c, heads[k - 1], answers[k - 1]);
      assert heads[1..k + 1][..k - 1] == heads[1..k];
    }
  }

  lemma NothingSpent(s: StateSnapshot)
    requires Begins(s)
    ensures s.totalCost == 0.0
  {
  }

  lemma EntryAt(c: Config, d: Disk, heads: seq<StateSnapshot>, answers: seq<Answer>, k: nat)
    requires Booked(c, d, heads, answers) && k + 1 < |heads|
    ensures k < |answers| && TurnOf(c, heads[k], answers[k]).Commit? && TurnOf(c, heads[k], answers[k]).next == heads[k + 1]
    ensures Fit(heads[k])
  {
    hide TurnOf, AlreadyCommitted, FitPending, EndsWell, KeepsTime;
    assert Entry(c, d, heads[k], answers[k], heads[k + 1]);
  }

  /** In every state of every run that has stayed on course, reviews included: the total at each head
      is what the heads up to it were charged, a head that is not ABORTED is within the total limit, and
      so is what an outstanding review will still charge. */
  lemma BudgetIsConservedOnCourse(c: Config, rank: Id -> int, e: BootEvidence, states: seq<Process>, steps: seq<ProcessStep>, n: nat)
    requires IsAnyRun(c, rank, e, states, steps) && n < |states| && OnCourse(states, steps, n)
    ensures var heads := states[n].heads;
      && heads != []
      && forall i :: 0 <= i < |heads| ==>
           && heads[i].totalCost == Charges(heads[1..i + 1])
           && (heads[i].state != Aborted ==> heads[i].totalCost <= c.limits.total + EPSILON)
           && (AwaitsReview(heads[i].state) ==> heads[i].totalCost + heads[i].metadata.iterationCost <= c.limits.total + EPSILON)
  {
    hide IsAnyRun, OnCourse, RunInv, Track, Booked, Charges, Begins, AllFinalised;
    OnCourseIsTracked(c, rank, e, states, steps, n);
    var p := states[n];
    var answers :| Track(c, p, answers);
    TrackBooks(c, p, answers);
    forall i | 0 <= i < |p.heads|
      ensures CanGoOn(c, p.heads[i]) && p.heads[i].totalCost == Charges(p.heads[1..i + 1])
    {
      HeadsBalance(c, p.stores.writer.disk, p.heads, answers, i);
    }
  }

  // ---- Verdicts ----

  /** The first head, and every head a verdict of the policy led to. */
  function Verdicts(heads: seq<StateSnapshot>): seq<StateSnapshot> {
    if |heads| <= 1 then heads
    else
      var last := heads[|heads| - 1];
      Verdicts(heads[..|heads| - 1]) + if last.metadata.materialization.Some? then [last] else []
  }

  /** The policy reads nothing else of the snapshot it judges in. */
  lemma PolicyReads(limits: Limits, a: StateSnapshot, b: StateSnapshot, o: Observation)
    requires a.run == b.run && a.iteration == b.iteration && a.state == b.state && SameCarry(a, b) && a.candidate == b.candidate
    ensures EvaluateCandidate(limits, a, o) == EvaluateCandidate(limits, b, o)
  {
    hide Advance;
  }

  /** The candidate behind a verdict. */
  predicate Judged(o: Observation, next: StateSnapshot) {
    && next.metadata.candidate.Some? && next.metadata.candidate.value.checkpoint == o.checkpoint
    && next.metadata.candidate.value.score == o.score
  }

  lemma PolicyTurnContinues(
    c: Config, begun: StateSnapshot, evaluate: StateSnapshot, f: CandidateFacts, o: Observation, step: PolicyStep,
    before: seq<Record>, tag: Tag)
    requires EvaluateCandidate(c.limits, evaluate, o) == Verdict.Decided(step) && step.snapshots != [] && step.decisions != []
    requires begun.state == Diagnose && evaluate.state == Evaluate && SameCarry(evaluate, begun)
    requires evaluate.run == begun.run && evaluate.iteration == begun.iteration && evaluate.candidate == Some(o.checkpoint)
    requires f.checkpoint == o.checkpoint && f.score == o.score
    ensures var next := PolicyTurn(c, evaluate, f, step, before, tag).next;
      Continues(c.limits, begun, o, next) && Judged(o, next)
  {
    PolicyReads(c.limits, evaluate, Entering(begun, o), o);
    hide EvaluateCandidate, FinalOf, PolicyRecords;
  }

  lemma CarriesOn(a: StateSnapshot, b: StateSnapshot, d: StateSnapshot)
    requires SameCarry(a, b) && SameCarry(b, d)
    ensures SameCarry(a, d)
  {
  }

  lemma CandidateContinues(c: Config, begun: StateSnapshot, s: StateSnapshot, input: CandidateInput) returns (o: Observation)
    requires CandidateTurn(c, s, input).Commit? && CandidateTurn(c, s, input).next.metadata.materialization.Some?
    requires s.state == Train && Fit(s) && begun.state == Diagnose && SameCarry(s, begun) && s.run == begun.run
    requires s.iteration == begun.iteration
    ensures Continues(c.limits, begun, o, CandidateTurn(c, s, input).next) && Judged(o, CandidateTurn(c, s, input).next)
  {
    hide EvaluateCandidate, EvidenceRecords, CandidateRecords, PolicyTurn, ReviewModel, AbortAfterData, Ids, Continues, Judged;
    AbortAsksForNothing(c, s);
    var f := FactsOf(input);
    var m := s.metadata.(iterationCost := s.metadata.iterationCost + input.cost, candidate := Some(f));
    var evaluate := EvaluateSnapshot(s, f, At(c, s.iteration, 80), EvaluateStage, m);
    var step := JudgeCandidate(c, evaluate, f).step;
    var before := EvidenceRecords(input.evidence) + CandidateRecords(c, s, input, evaluate);
    ReviewAsksForNothing(c, evaluate, f, input.reviewRequest, before);
    o := Observe(f, evaluate.iteration, m.iterationCost, evaluate.enteredAt).value;
    PolicyTurnContinues(c, begun, evaluate, f, o, step, before, CandidateTx);
  }

  lemma AbortAsksForNothing(c: Config, s: StateSnapshot)
    requires s.metadata.materialization.None?
    ensures AbortAfterData(c, s).Commit? && AbortAfterData(c, s).next.metadata.materialization.None?
  {
  }

  lemma ReviewAsksForNothing(c: Config, evaluate: StateSnapshot, f: CandidateFacts, request: Evidence, before: seq<Record>)
    requires evaluate.metadata.materialization.None?
    ensures ReviewModel(c, evaluate, f, request, before).Commit?
    ensures ReviewModel(c, evaluate, f, request, before).next.metadata.materialization.None?
  {
    hide AddId;
  }

  lemma ApprovalContinues(c: Config, begun: StateSnapshot, s: StateSnapshot, review: Review) returns (o: Observation)
    requires ModelReviewTurn(c, s, review).Commit? && ModelReviewTurn(c, s, review).next.metadata.materialization.Some?
    requires s.state == ModelReviewPending && Fit(s) && begun.state == Diagnose && SameCarry(s, begun)
    requires s.run == begun.run && s.iteration == begun.iteration
    ensures Continues(c.limits, begun, o, ModelReviewTurn(c, s, review).next) && Judged(o, ModelReviewTurn(c, s, review).next)
  {
    hide EvaluateCandidate, PolicyTurn, Continues, Judged, AddId;
    var f := s.metadata.candidate.value;
    var evaluate := EvaluateSnapshot(s, f, review.decidedAt, EvaluateAfterApproval, s.metadata);
    var step := JudgeCandidate(c, evaluate, f).step;
    o := Observe(f, evaluate.iteration, evaluate.metadata.iterationCost, evaluate.enteredAt).value;
    PolicyTurnContinues(c, begun, evaluate, f, o, step,
      [EvidenceRecord(review.evidence), DecisionRecord(review.decision), SnapshotRecord(evaluate)], ModelReviewApproved);
  }

  /** The run stands in the iteration its last verdict began, with what that verdict left. */
  predicate StandsIn(s: StateSnapshot, begun: StateSnapshot) {
    && (s.state == Diagnose ==> s == begun)
    && (IsWorking(s.state) ==> begun.state == Diagnose && s.run == begun.run && s.iteration == begun.iteration && SameCarry(s, begun))
  }

  /** The verdicts so far are a run of the policy, and the head stands in its last iteration. */
  ghost predicate VerdictsRun(c: Config, heads: seq<StateSnapshot>, obs: seq<Observation>) {
    && heads != [] && IsPolicyRun(c.limits, Verdicts(heads), obs)
    && (forall i :: 0 <= i < |obs| ==> Judged(obs[i], Verdicts(heads)[i + 1]))
    && StandsIn(heads[|heads| - 1], Verdicts(heads)[|obs|])
  }

  /** A turn that leads to no verdict stays in the iteration. */
  lemma TurnStaysIn(c: Config, s: StateSnapshot, answer: Answer, begun: StateSnapshot)
    requires TurnOf(c, s, answer).Commit? && Fit(s) && StandsIn(s, begun)
    requires TurnOf(c, s, answer).next.metadata.materialization.None?
    requires TurnOf(c, s, answer).next.state == Diagnose ==> TurnOf(c, s, answer).next.iteration != s.iteration
    ensures StandsIn(TurnOf(c, s, answer).next, begun)
  {
    hide TurnOf, SameCarry, Fit, VerifiedIn;
    var t := TurnOf(c, s, answer);
    RequestOf(c, s, answer);
    TurnPasses(c, s, answer);
    assert Passes(c, s, t, t.next);
    TurnTakesState(c, s, answer);
    if t.next.iteration != s.iteration { TurnLeadsOn(c, s, answer, t.next); }
    SameAsItself(begun);
    if SameCarry(t.next, s) && SameCarry(s, begun) { CarriesOn(t.next, s, begun); }
  }

  lemma SameAsItself(s: StateSnapshot)
    ensures SameCarry(s, s)
  {
  }

  lemma VerdictFacts(c: Config, s: StateSnapshot, answer: Answer)
    requires TurnOf(c, s, answer).Commit? && Fit(s) && CanGoOn(c, s) && TurnOf(c, s, answer).next.metadata.materialization.Some?
    ensures s.state == Train || s.state == ModelReviewPending
  {
    hide DataTurn, CandidateTurn, DataReviewTurn, ModelReviewTurn, Affordable;
    match s.state
    case Diagnose => DataTurnAsksNothing(c, s, answer.data);
    case DataReviewPending => DataReviewAsksNothing(c, s, answer.review);
    case _ =>
  }

  lemma DataTurnAsksNothing(c: Config, s: StateSnapshot, input: DataInput)
    requires s.iteration <= c.limits.maxIterations
    ensures DataTurn(c, s, input).Commit? && DataTurn(c, s, input).next.metadata.materialization.None?
  {
    hide StageRecords, EvidenceRecords, AllDataEvidence, Ids, AcceptanceRate;
  }

  lemma DataReviewAsksNothing(c: Config, s: StateSnapshot, review: Review)
    requires s.metadata.materialization.None?
    ensures DataReviewTurn(c, s, review).Commit? ==> DataReviewTurn(c, s, review).next.metadata.materialization.None?
  {
    hide AddId;
  }

  lemma TurnContinues(c: Config, begun: StateSnapshot, s: StateSnapshot, answer: Answer) returns (o: Observation)
    requires TurnOf(c, s, answer).Commit? && Fit(s) && CanGoOn(c, s) && StandsIn(s, begun)
    requires TurnOf(c, s, answer).next.metadata.materialization.Some?
    ensures Continues(c.limits, begun, o, TurnOf(c, s, answer).next) && Judged(o, TurnOf(c, s, answer).next)
  {
    hide DataTurn, CandidateTurn, DataReviewTurn, ModelReviewTurn, Affordable, Continues, Judged, SameCarry, Fit;
    VerdictFacts(c, s, answer);
    if s.state == Train {
      o := CandidateContinues(c, begun, s, answer.candidate);
    } else {
      o := ApprovalContinues(c, begun, s, answer.review);
    }
  }

  lemma ChainGoesOn(limits: Limits, chain: seq<StateSnapshot>, obs: seq<Observation>, o: Observation, next: StateSnapshot)
    requires IsPolicyRun(limits, chain, obs) && Continues(limits, chain[|obs|], o, next)
    ensures IsPolicyRun(limits, chain + [next], obs + [o])
  {
    hide Continues;
  }

  lemma VerdictsOfOne(c: Config, s: StateSnapshot)
    requires Begins(s)
    ensures VerdictsRun(c, [s], [])
  {
    assert Verdicts([s]) == [s];
  }

  /** One more turn. */
  lemma VerdictsGoOn(c: Config, heads: seq<StateSnapshot>, answer: Answer, obs: seq<Observation>) returns (obs': seq<Observation>)
    requires VerdictsRun(c, heads, obs)
    requires var s := heads[|heads| - 1]; TurnOf(c, s, answer).Commit? && Fit(s) && CanGoOn(c, s)
    requires var s, t := heads[|heads| - 1], TurnOf(c, heads[|heads| - 1], answer);
      t.next.state == Diagnose ==> t.next.iteration != s.iteration
    ensures VerdictsRun(c, heads + [TurnOf(c, heads[|heads| - 1], answer).next], obs')
  {
    hide TurnOf, Continues, Judged, Fit, CanGoOn, SameCarry;
    var s := heads[|heads| - 1];
    var next, chain := TurnOf(c, s, answer).next, Verdicts(heads);
    assert (heads + [next])[..|heads|] == heads;
    if next.metadata.materialization.None? {
      obs' := obs;
      TurnStaysIn(c, s, answer, chain[|obs|]);
      assert Verdicts(heads + [next]) == chain;
    } else {
      var o := TurnContinues(c, chain[|obs|], s, answer);
      obs' := obs + [o];
      ChainGoesOn(c.limits, chain, obs, o, next);
      assert Verdicts(heads + [next]) == chain + [next];
      VerdictStands(c, s, answer);
    }
  }

  /** No turn is taken from a verdict's head but the next data turn. */
  lemma VerdictStands(c: Config, s: StateSnapshot, answer: Answer)
    requires TurnOf(c, s, answer).Commit? && Fit(s) && TurnOf(c, s, answer).next.metadata.materialization.Some?
    ensures StandsIn(TurnOf(c, s, answer).next, TurnOf(c, s, answer).next)
  {
    hide TurnOf, SameCarry, VerifiedIn;
    TurnPasses(c, s, answer);
    RequestOf(c, s, answer);
    assert Passes(c, s, TurnOf(c, s, answer), TurnOf(c, s, answer).next);
  }

  lemma {:induction false} HeadsAreVerdicts(c: Config, d: Disk, heads: seq<StateSnapshot>, answers: seq<Answer>, k: nat)
    returns (obs: seq<Observation>)
    requires Booked(c, d, heads, answers) && k < |heads| && Begins(heads[0])
    ensures VerdictsRun(c, heads[..k + 1], obs)
  {
    hide Booked, TurnOf, Entry, CanGoOn, Begins, VerdictsRun, Fit;
    if k == 0 {
      VerdictsOfOne(c, heads[0]);
      assert heads[..1] == [heads[0]];
      obs := [];
    } else {
      var before := HeadsAreVerdicts(c, d, heads, answers, k - 1);
      EntryAt(c, d, heads, answers, k - 1);
      HeadsBalance(c, d, heads, answers, k - 1);
      EntryIs(c, d, heads, answers, k - 1);
      EntryRises(c, d, heads[k - 1], answers[k - 1], heads[k]);
      assert heads[..k][|heads[..k]| - 1] == heads[k - 1];
      obs := VerdictsGoOn(c, heads[..k], answers[k - 1], before);
      assert heads[..k] + [heads[k]] == heads[..k + 1];
    }
  }

  lemma EntryIs(c: Config, d: Disk, heads: seq<StateSnapshot>, answers: seq<Answer>, k: nat)
    requires Booked(c, d, heads, answers) && k + 1 < |heads|
    ensures k < |answers| && Entry(c, d, heads[k], answers[k], heads[k + 1])
  {
    hide Entry;
  }

  /** In every state of every run that has stayed on course, crashes and reviews included: the verdicts
      at its heads are one run of the policy, so what is proved of such runs holds of the controller. */
  lemma VerdictsAreAPolicyRun(c: Config, rank: Id -> int, e: BootEvidence, states: seq<Process>, steps: seq<ProcessStep>, n: nat)
    returns (obs: seq<Observation>)
    requires IsAnyRun(c, rank, e, states, steps) && n < |states| && OnCourse(states, steps, n)
    ensures VerdictsRun(c, states[n].heads, obs)
  {
    hide IsAnyRun, OnCourse, RunInv, Track, Booked, Begins, AllFinalised, VerdictsRun;
    OnCourseIsTracked(c, rank, e, states, steps, n);
    var p := states[n];
    var answers :| Track(c, p, answers);
    TrackBooks(c, p, answers);
    obs := HeadsAreVerdicts(c, p.stores.writer.disk, p.heads, answers, |p.heads| - 1);
    assert p.heads[..|p.heads|] == p.heads;
  }

  /** A run with P promotions has decided at most (P + 1) * plateau_patience candidates, its Peak has
      gained at least P * min_improvement, and no candidate it decided scored more than min_improvement
      above the Peak it ends with. */
  lemma ControllerKeepsPace(c: Config, rank: Id -> int, e: BootEvidence, states: seq<Process>, steps: seq<ProcessStep>, n: nat)
    returns (obs: seq<Observation>)
    requires IsAnyRun(c, rank, e, states, steps) && n < |states| && OnCourse(states, steps, n)
    ensures VerdictsRun(c, states[n].heads, obs)
    ensures var chain, length := Verdicts(states[n].heads), |obs|;
      && MovesRun(c.limits, chain, obs)
      && (forall i :: 0 <= i < length ==> Judged(obs[i], chain[i + 1]))
      && var promoted, decided := Promotions(c.limits, chain, obs, length), Decisions(c.limits, chain, obs, length);
      && length - 1 <= decided <= length && decided <= (promoted + 1) * c.limits.patience
      && chain[0].peakScore.value + promoted as real * c.limits.minImprovement <= chain[length].peakScore.value
      && forall i :: 0 <= i < length && Disposed(c.limits, chain, obs, i) != Abort ==>
           obs[i].score <= chain[length].peakScore.value + c.limits.minImprovement
  {
    hide IsAnyRun, OnCourse, Judged, IsPolicyRun, MovesRun, Promotions, Decisions, Disposed, PeakHasSource, StandsIn;
    obs := VerdictsAreAPolicyRun(c, rank, e, states, steps, n);
    RunLengthBound(c.limits, Verdicts(states[n].heads), obs);
    PeakIsNearOptimal(c.limits, Verdicts(states[n].heads), obs);
  }
}
