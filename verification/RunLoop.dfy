/** The control flow of `run`: which states a pass of the loop can meet, and how many passes a
    run needs, reviews included. */
module RunLoop {
  import opened Records
  import opened Policy
  import opened Controller

  datatype Answers = Answers(data: DataInput, candidate: CandidateInput, review: Review)

  predicate AwaitsReview(s: ControlState) {
    s == DataReviewPending || s == ModelReviewPending
  }

  /** States `run` knows how to go on from, no later than the last iteration. */
  predicate Resumable(c: Config, s: StateSnapshot) {
    && s.iteration <= c.limits.maxIterations
    && (TerminalState(s.state) || AwaitsReview(s.state) || s.state == Train || s.state == Diagnose)
  }

  /** `_train_evaluate_decide` right after the commit that leads to TRAIN. */
  function Onwards(c: Config, t: Turn, a: Answers): Option<StateSnapshot> {
    match t
    case Commit(_, next, _, _) =>
      if next.state == Train then
        var u := CandidateTurn(c, next, a.candidate);
        if u.Commit? then Some(u.next) else None
      else
        Some(next)
    case _ => None
  }

  /** One pass of the loop body: the snapshot it continues with, or nothing if it raises. */
  function PassNext(c: Config, s: StateSnapshot, a: Answers): Option<StateSnapshot> {
    match s.state
    case DataReviewPending =>
      var t := DataReviewTurn(c, s, a.review);
      if t.Wait? then Some(s) else Onwards(c, t, a)
    case ModelReviewPending =>
      var t := ModelReviewTurn(c, s, a.review);
      if t.Wait? then Some(s) else if t.Commit? then Some(t.next) else None
    case Train =>
      var u := CandidateTurn(c, s, a.candidate);
      if u.Commit? then Some(u.next) else None
    case Diagnose => Onwards(c, DataTurn(c, s, a.data), a)
    case _ => None
  }

  /** How many more passes a run can make: at most three per iteration. */
  function Fuel(c: Config, s: StateSnapshot): int {
    3 * (c.limits.maxIterations - s.iteration)
    + match s.state
      case Diagnose => 3
      case DataReviewPending => 2
      case Train => 2
      case ModelReviewPending => 1
      case _ => 0
  }

  predicate Descends(c: Config, s: StateSnapshot, next: StateSnapshot) {
    && Resumable(c, next) && s.iteration <= next.iteration
    && (TerminalState(next.state) || Fuel(c, next) < Fuel(c, s))
  }

  lemma DataTurnDescends(c: Config, s: StateSnapshot, input: DataInput)
    requires Resumable(c, s) && s.state == Diagnose && DataTurn(c, s, input).Commit?
    ensures Descends(c, s, DataTurn(c, s, input).next)
  {
    hide EvidenceRecords, StageRecords, AllDataEvidence, Ids;
  }

  lemma PolicyTurnDescends(
    c: Config, s: StateSnapshot, evaluate: StateSnapshot, f: CandidateFacts, o: Observation, step: PolicyStep,
    before: seq<Record>, tag: Tag)
    requires Resumable(c, s) && (s.state == Train || s.state == ModelReviewPending)
    requires evaluate.iteration == s.iteration
    requires EvaluateCandidate(c.limits, evaluate, o) == Decided(step) && step.snapshots != [] && step.decisions != []
    ensures Descends(c, s, PolicyTurn(c, evaluate, f, step, before, tag).next)
  {
    hide EvaluateCandidate, Disposition, PolicyRecords, FinalOf;
    DecidedFrom(c.limits, evaluate, o);
    EvaluationMoves(c.limits, evaluate, o);
  }

  lemma DecidedFrom(limits: Limits, s: StateSnapshot, o: Observation)
    requires EvaluateCandidate(limits, s, o).Decided?
    ensures s.peakScore.Some?
  {
  }

  lemma CandidateTurnDescends(c: Config, s: StateSnapshot, input: CandidateInput)
    requires Resumable(c, s) && s.state == Train && CandidateTurn(c, s, input).Commit?
    ensures Descends(c, s, CandidateTurn(c, s, input).next)
  {
    hide EvaluateCandidate, EvidenceRecords, CandidateRecords, PolicyTurn, Ids;
    if input.Evaluated? {
      var f := FactsOf(input);
      var m := s.metadata.(iterationCost := s.metadata.iterationCost + input.cost, candidate := Some(f));
      var evaluate := EvaluateSnapshot(s, f, At(c, s.iteration, 80), EvaluateStage, m);
      var o := Observe(f, evaluate.iteration, m.iterationCost, evaluate.enteredAt);
      var step := JudgeCandidate(c, evaluate, f).step;
      var before := EvidenceRecords(input.evidence) + CandidateRecords(c, s, input, evaluate);
      PolicyTurnDescends(c, s, evaluate, f, o.value, step, before, CandidateTx);
    }
  }

  lemma DataReviewDescends(c: Config, s: StateSnapshot, review: Review)
    requires Resumable(c, s) && s.state == DataReviewPending && DataReviewTurn(c, s, review).Commit?
    ensures Descends(c, s, DataReviewTurn(c, s, review).next)
      || (DataReviewTurn(c, s, review).next.state == Train && Resumable(c, DataReviewTurn(c, s, review).next)
          && Fuel(c, DataReviewTurn(c, s, review).next) == Fuel(c, s) && DataReviewTurn(c, s, review).next.iteration == s.iteration)
  {
  }

  lemma ModelReviewDescends(c: Config, s: StateSnapshot, review: Review)
    requires Resumable(c, s) && s.state == ModelReviewPending && ModelReviewTurn(c, s, review).Commit?
    ensures Descends(c, s, ModelReviewTurn(c, s, review).next)
  {
    hide EvaluateCandidate, PolicyTurn;
    if review.ReviewDecided? && review.approved {
      var f := s.metadata.candidate.value;
      var evaluate := EvaluateSnapshot(s, f, review.decidedAt, EvaluateAfterApproval, s.metadata);
      var o := Observe(f, evaluate.iteration, evaluate.metadata.iterationCost, evaluate.enteredAt);
      var step := JudgeCandidate(c, evaluate, f).step;
      PolicyTurnDescends(c, s, evaluate, f, o.value, step,
        [EvidenceRecord(review.evidence), DecisionRecord(review.decision), SnapshotRecord(evaluate)], ModelReviewApproved);
    }
  }

  /** Every pass from a state that is not terminal and not left waiting goes down. */
  lemma PassDescends(c: Config, s: StateSnapshot, a: Answers)
    requires Resumable(c, s) && !TerminalState(s.state) && PassNext(c, s, a).Some?
    ensures var next := PassNext(c, s, a).value;
      Descends(c, s, next) || (next == s && AwaitsReview(s.state))
  {
    hide DataTurn, CandidateTurn, DataReviewTurn, ModelReviewTurn;
    match s.state
    case Diagnose =>
      var t := DataTurn(c, s, a.data);
      DataTurnDescends(c, s, a.data);
      if t.next.state == Train { CandidateTurnDescends(c, t.next, a.candidate); }
    case Train => CandidateTurnDescends(c, s, a.candidate);
    case DataReviewPending =>
      var t := DataReviewTurn(c, s, a.review);
      if t.Commit? {
        DataReviewDescends(c, s, a.review);
        if t.next.state == Train { CandidateTurnDescends(c, t.next, a.candidate); }
      }
    case ModelReviewPending =>
      if ModelReviewTurn(c, s, a.review).Commit? { ModelReviewDescends(c, s, a.review); }
  }

  // ---- What a pass costs ----

  /** What the run total is charged on reaching a snapshot: nothing while a candidate or a
      review is outstanding, nothing for an abort before a candidate was decided, and the
      iteration's cost otherwise. */
  function Charge(next: StateSnapshot): real {
    if next.state == Train || AwaitsReview(next.state) then 0.0
    else if next.state == Aborted && next.metadata.materialization.None? then 0.0
    else next.metadata.iterationCost
  }

  /** A snapshot the run can pay for, counting what an outstanding review will charge. */
  predicate Affordable(c: Config, s: StateSnapshot) {
    && (s.state != Aborted ==> s.totalCost <= c.limits.total + EPSILON)
    && (AwaitsReview(s.state) ==> s.totalCost + s.metadata.iterationCost <= c.limits.total + EPSILON)
  }

  predicate Accounts(c: Config, s: StateSnapshot, next: StateSnapshot) {
    next.totalCost == s.totalCost + Charge(next) && Affordable(c, next) && Trainable(next)
  }

  /** A training snapshot never carries a materialisation. */
  predicate Trainable(s: StateSnapshot) {
    s.state == Train ==> s.metadata.materialization.None?
  }

  /** A snapshot the loop can start from, with books that balance. */
  predicate CanGoOn(c: Config, s: StateSnapshot) {
    Resumable(c, s) && Affordable(c, s) && Trainable(s)
  }

  lemma DataTurnAccounts(c: Config, s: StateSnapshot, input: DataInput)
    requires Resumable(c, s) && s.state == Diagnose && DataTurn(c, s, input).Commit? && Affordable(c, s)
    ensures Accounts(c, s, DataTurn(c, s, input).next)
  {
    hide EvidenceRecords, StageRecords, AllDataEvidence, Ids;
  }

  lemma PolicyTurnAccounts(
    c: Config, s: StateSnapshot, evaluate: StateSnapshot, f: CandidateFacts, o: Observation, step: PolicyStep,
    before: seq<Record>, tag: Tag)
    requires evaluate.totalCost == s.totalCost && o.cost == evaluate.metadata.iterationCost
    requires EvaluateCandidate(c.limits, evaluate, o) == Decided(step) && step.snapshots != [] && step.decisions != []
    ensures Accounts(c, s, PolicyTurn(c, evaluate, f, step, before, tag).next)
    ensures step.decisions[0].action != Abort ==> s.totalCost + o.cost <= c.limits.total + EPSILON
  {
    hide EvaluateCandidate, PolicyRecords, FinalOf;
    DecidedFrom(c.limits, evaluate, o);
    EvaluationMoves(c.limits, evaluate, o);
  }

  lemma AbortAfterDataAccounts(c: Config, s: StateSnapshot)
    requires s.state == Train && Affordable(c, s) && Trainable(s)
    ensures Accounts(c, s, AbortAfterData(c, s).next)
  {
  }

  lemma ReviewModelAccounts(c: Config, s: StateSnapshot, evaluate: StateSnapshot, f: CandidateFacts, request: Evidence, before: seq<Record>)
    requires evaluate.totalCost == s.totalCost && Affordable(c, s) && s.state == Train
    requires s.totalCost + evaluate.metadata.iterationCost <= c.limits.total + EPSILON
    ensures Accounts(c, s, ReviewModel(c, evaluate, f, request, before).next)
  {
  }

  lemma CandidateTurnAccounts(c: Config, s: StateSnapshot, input: CandidateInput)
    requires s.state == Train && CandidateTurn(c, s, input).Commit? && Affordable(c, s) && Trainable(s)
    ensures Accounts(c, s, CandidateTurn(c, s, input).next)
  {
    hide EvaluateCandidate, EvidenceRecords, CandidateRecords, PolicyTurn, ReviewModel, AbortAfterData, Ids, Accounts, Affordable;
    if input.ExecutionFailed? {
      AbortAfterDataAccounts(c, s);
    } else {
      var f := FactsOf(input);
      var m := s.metadata.(iterationCost := s.metadata.iterationCost + input.cost, candidate := Some(f));
      var evaluate := EvaluateSnapshot(s, f, At(c, s.iteration, 80), EvaluateStage, m);
      var o := Observe(f, evaluate.iteration, m.iterationCost, evaluate.enteredAt);
      var step := JudgeCandidate(c, evaluate, f).step;
      var before := EvidenceRecords(input.evidence) + CandidateRecords(c, s, input, evaluate);
      PolicyTurnAccounts(c, s, evaluate, f, o.value, step, before, CandidateTx);
      if step.decisions[0].action == Promote && c.checkpointReview {
        ReviewModelAccounts(c, s, evaluate, f, input.reviewRequest, before);
      }
    }
  }

  lemma ModelReviewAccounts(c: Config, s: StateSnapshot, review: Review)
    requires s.state == ModelReviewPending && ModelReviewTurn(c, s, review).Commit? && Affordable(c, s)
    ensures Accounts(c, s, ModelReviewTurn(c, s, review).next)
  {
    hide EvaluateCandidate, PolicyTurn;
    if review.ReviewDecided? && review.approved {
      var f := s.metadata.candidate.value;
      var evaluate := EvaluateSnapshot(s, f, review.decidedAt, EvaluateAfterApproval, s.metadata);
      var o := Observe(f, evaluate.iteration, evaluate.metadata.iterationCost, evaluate.enteredAt);
      var step := JudgeCandidate(c, evaluate, f).step;
      PolicyTurnAccounts(c, s, evaluate, f, o.value, step,
        [EvidenceRecord(review.evidence), DecisionRecord(review.decision), SnapshotRecord(evaluate)], ModelReviewApproved);
    }
  }

  lemma DataReviewAccounts(c: Config, s: StateSnapshot, review: Review)
    requires s.state == DataReviewPending && DataReviewTurn(c, s, review).Commit? && Affordable(c, s)
    ensures Accounts(c, s, DataReviewTurn(c, s, review).next)
  {
  }

  /** Reviews included, every pass charges exactly what its last snapshot says its iteration
      cost, and leaves a state the run can pay for. */
  lemma PassAccounts(c: Config, s: StateSnapshot, a: Answers)
    requires Resumable(c, s) && Affordable(c, s) && Trainable(s)
    requires !TerminalState(s.state) && PassNext(c, s, a).Some? && PassNext(c, s, a).value != s
    ensures Accounts(c, s, PassNext(c, s, a).value)
  {
    hide DataTurn, CandidateTurn, DataReviewTurn, ModelReviewTurn;
    match s.state
    case Diagnose =>
      var t := DataTurn(c, s, a.data);
      DataTurnAccounts(c, s, a.data);
      if t.next.state == Train { CandidateTurnAccounts(c, t.next, a.candidate); }
    case Train => CandidateTurnAccounts(c, s, a.candidate);
    case DataReviewPending =>
      var t := DataReviewTurn(c, s, a.review);
      if t.Commit? {
        DataReviewAccounts(c, s, a.review);
        if t.next.state == Train { CandidateTurnAccounts(c, t.next, a.candidate); }
      }
    case ModelReviewPending =>
      if ModelReviewTurn(c, s, a.review).Commit? { ModelReviewAccounts(c, s, a.review); }
  }
}
