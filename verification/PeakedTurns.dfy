/** No turn of any kind forgets that the run has an accepted checkpoint: each snapshot it commits
    names one, and a candidate it decides names one as its parent. */
module PeakedTurns {
  import opened Records
  import opened ControlStore
  import opened Policy
  import opened Controller
  import opened CrashRecovery
  import Ledger = CostLedger

  predicate Peaked(s: StateSnapshot) {
    && s.active.Some?
    && (s.metadata.materialization.Some? && s.metadata.candidate.Some? ==> s.metadata.candidate.value.parent.Some?)
  }

  ghost predicate AllPeaked(records: seq<Record>) {
    forall r :: r in records && r.SnapshotRecord? ==> Peaked(r.snapshot)
  }

  ghost predicate PeakedTurn(t: Turn) {
    t.Commit? && AllPeaked(t.req.records) && Peaked(t.next)
  }

  lemma PeakedJoins(a: seq<Record>, b: seq<Record>)
    requires AllPeaked(a) && AllPeaked(b)
    ensures AllPeaked(a + b)
  {
  }

  lemma EvidenceIsPeaked(evidence: seq<Evidence>)
    ensures AllPeaked(EvidenceRecords(evidence))
  {
  }

  lemma StagesArePeaked(c: Config, s: StateSnapshot, e: DataEvidence, cost: real)
    requires Peaked(s)
    ensures AllPeaked(StageRecords(c, s, e, cost))
  {
  }

  lemma StagedIsPeaked(c: Config, s: StateSnapshot, e: DataEvidence, cost: real, rest: seq<Record>)
    requires Peaked(s) && AllPeaked(rest)
    ensures AllPeaked(EvidenceRecords(AllDataEvidence(e)) + StageRecords(c, s, e, cost) + rest)
  {
    hide AllPeaked, EvidenceRecords, StageRecords, AllDataEvidence;
    EvidenceIsPeaked(AllDataEvidence(e));
    StagesArePeaked(c, s, e, cost);
    PeakedJoins(EvidenceRecords(AllDataEvidence(e)), StageRecords(c, s, e, cost));
    PeakedJoins(EvidenceRecords(AllDataEvidence(e)) + StageRecords(c, s, e, cost), rest);
  }

  lemma AbortIsPeaked(c: Config, s: StateSnapshot, evidence: seq<Evidence>, stop: StopReason)
    requires Peaked(s)
    ensures PeakedTurn(AbortBeforeCandidate(c, s, evidence, stop))
  {
    hide EvidenceRecords, Ids;
    EvidenceIsPeaked(evidence);
  }

  lemma RejectIsPeaked(c: Config, s: StateSnapshot, e: DataEvidence, dataset: Id, accepted: nat, cost: real)
    requires Peaked(s)
    ensures PeakedTurn(RejectData(c, s, e, dataset, accepted, cost))
  {
    hide EvidenceRecords, StageRecords, AllDataEvidence, Ids;
    var t := RejectData(c, s, e, dataset, accepted, cost);
    var front := EvidenceRecords(AllDataEvidence(e)) + StageRecords(c, s, e, cost);
    var rest := t.req.records[|front|..];
    StagedIsPeaked(c, s, e, cost, rest);
    assert t.req.records == front + rest;
  }

  lemma ReviewIsPeaked(c: Config, s: StateSnapshot, e: DataEvidence, request: Evidence, dataset: Id, cost: real)
    requires Peaked(s)
    ensures PeakedTurn(ReviewData(c, s, e, request, dataset, cost))
  {
    hide EvidenceRecords, StageRecords, AllDataEvidence, Ids;
    var t := ReviewData(c, s, e, request, dataset, cost);
    var front := EvidenceRecords(AllDataEvidence(e)) + StageRecords(c, s, e, cost);
    var rest := t.req.records[|front|..];
    StagedIsPeaked(c, s, e, cost, rest);
    assert t.req.records == front + rest;
  }

  lemma AcceptIsPeaked(c: Config, s: StateSnapshot, e: DataEvidence, cost: real)
    requires Peaked(s)
    ensures PeakedTurn(AcceptData(c, s, e, cost))
  {
    hide EvidenceRecords, StageRecords, AllDataEvidence, Ids;
    var t := AcceptData(c, s, e, cost);
    var front := EvidenceRecords(AllDataEvidence(e)) + StageRecords(c, s, e, cost);
    var rest := t.req.records[|front|..];
    StagedIsPeaked(c, s, e, cost, rest);
    assert t.req.records == front + rest;
  }

  lemma StopAtMaximumIsPeaked(c: Config, s: StateSnapshot)
    requires Peaked(s)
    ensures PeakedTurn(StopAtMaximum(c, s))
  {
  }

  lemma DataTurnIsPeaked(c: Config, s: StateSnapshot, input: DataInput)
    requires Peaked(s)
    ensures PeakedTurn(DataTurn(c, s, input))
  {
    hide AbortBeforeCandidate, RejectData, ReviewData, AcceptData, StopAtMaximum, Peaked, PeakedTurn;
    var e := input.evidence;
    var begun := [e.diagnostic, e.hypothesis];
    if s.iteration > c.limits.maxIterations {
      StopAtMaximumIsPeaked(c, s);
    } else {
      match input.teacher
      case CircuitOpen => AbortIsPeaked(c, s, begun, ProviderCircuitOpen);
      case TeacherFailed => AbortIsPeaked(c, s, begun, InternalError);
      case Batch(cost, accepted, rejected, dataset) =>
        match Ledger.Guard(c.limits, 0.0, s.totalCost, cost)
        case NegativeAmount => AbortIsPeaked(c, s, begun, InternalError);
        case IterationBudget => AbortIsPeaked(c, s, begun, PerIterationBudgetExceeded);
        case TotalBudget => AbortIsPeaked(c, s, begun, TotalBudgetExceeded);
        case Charged =>
          RejectIsPeaked(c, s, e, dataset, accepted, cost);
          ReviewIsPeaked(c, s, e, input.reviewRequest, dataset, cost);
          AcceptIsPeaked(c, s, e, cost);
    }
  }

  // ---- Candidates ----

  lemma AbortAfterIsPeaked(c: Config, s: StateSnapshot)
    requires Peaked(s)
    ensures PeakedTurn(AbortAfterData(c, s))
  {
  }

  lemma PolicySnapshotIsPeaked(limits: Limits, s: StateSnapshot, o: Observation, i: nat)
    requires EvaluateCandidate(limits, s, o).Decided? && s.active.Some? && i < |EvaluateCandidate(limits, s, o).step.snapshots|
    ensures Peaked(EvaluateCandidate(limits, s, o).step.snapshots[i])
  {
  }

  lemma PolicyRecordsArePeaked(limits: Limits, s: StateSnapshot, o: Observation)
    requires EvaluateCandidate(limits, s, o).Decided? && s.active.Some?
    ensures AllPeaked(PolicyRecords(EvaluateCandidate(limits, s, o).step))
  {
    var step := EvaluateCandidate(limits, s, o).step;
    hide EvaluateCandidate, Peaked;
    forall r | r in PolicyRecords(step) && r.SnapshotRecord? ensures Peaked(r.snapshot) {
      var i :| 0 <= i < |step.snapshots| && step.snapshots[i] == r.snapshot;
      PolicySnapshotIsPeaked(limits, s, o, i);
    }
  }

  lemma FinalIsActive(limits: Limits, s: StateSnapshot, o: Observation)
    requires EvaluateCandidate(limits, s, o).Decided? && s.active.Some?
    ensures var step := EvaluateCandidate(limits, s, o).step; step.snapshots != [] && FinalOf(step).active.Some?
  {
    hide Moves;
    EvaluationMoves(limits, s, o);
    PolicySnapshotIsPeaked(limits, s, o, |EvaluateCandidate(limits, s, o).step.snapshots| - 1);
  }

  lemma PolicyTurnIsPeaked(
    c: Config, evaluate: StateSnapshot, f: CandidateFacts, o: Observation, step: PolicyStep, before: seq<Record>, tag: Tag)
    requires evaluate.active.Some? && EvaluateCandidate(c.limits, evaluate, o) == Verdict.Decided(step)
    requires step.snapshots != [] && step.decisions != [] && f.parent.Some? && AllPeaked(before)
    ensures PeakedTurn(PolicyTurn(c, evaluate, f, step, before, tag))
  {
    hide EvaluateCandidate, PolicyRecords, FinalOf, AllPeaked;
    var t := PolicyTurn(c, evaluate, f, step, before, tag);
    PolicyRecordsArePeaked(c.limits, evaluate, o);
    FinalIsActive(c.limits, evaluate, o);
    PeakedJoins(before, PolicyRecords(step));
    OnePeaked(t.next);
    PeakedJoins(before + PolicyRecords(step), [SnapshotRecord(t.next)]);
  }

  lemma OnePeaked(s: StateSnapshot)
    requires Peaked(s)
    ensures AllPeaked([SnapshotRecord(s)])
  {
  }

  lemma CandidateRecordsArePeaked(c: Config, s: StateSnapshot, input: CandidateInput, evaluate: StateSnapshot)
    requires input.Evaluated? && Peaked(s) && Peaked(evaluate)
    ensures AllPeaked(EvidenceRecords(input.evidence) + CandidateRecords(c, s, input, evaluate))
  {
    hide Ids;
  }

  lemma ReviewModelIsPeaked(c: Config, evaluate: StateSnapshot, f: CandidateFacts, request: Evidence, before: seq<Record>)
    requires Peaked(evaluate) && AllPeaked(before)
    ensures PeakedTurn(ReviewModel(c, evaluate, f, request, before))
  {
    hide AddId;
  }

  lemma DecidedHasActiveParent(limits: Limits, s: StateSnapshot, o: Observation)
    requires EvaluateCandidate(limits, s, o).Decided?
    ensures o.parent == s.active
  {
  }

  lemma CandidateTurnIsPeaked(c: Config, s: StateSnapshot, input: CandidateInput)
    requires Peaked(s) && CandidateTurn(c, s, input).Commit?
    ensures PeakedTurn(CandidateTurn(c, s, input))
  {
    hide EvaluateCandidate, EvidenceRecords, CandidateRecords, PolicyTurn, ReviewModel, AbortAfterData, PeakedTurn, AllPeaked;
    if input.ExecutionFailed? {
      AbortAfterIsPeaked(c, s);
    } else {
      var f := FactsOf(input);
      var m := s.metadata.(iterationCost := s.metadata.iterationCost + input.cost, candidate := Some(f));
      var evaluate := EvaluateSnapshot(s, f, At(c, s.iteration, 80), EvaluateStage, m);
      var o := Observe(f, evaluate.iteration, m.iterationCost, evaluate.enteredAt);
      var step := JudgeCandidate(c, evaluate, f).step;
      var before := EvidenceRecords(input.evidence) + CandidateRecords(c, s, input, evaluate);
      DecidedHasActiveParent(c.limits, evaluate, o.value);
      CandidateRecordsArePeaked(c, s, input, evaluate);
      if step.decisions[0].action == Promote && c.checkpointReview {
        ReviewModelIsPeaked(c, evaluate, f, input.reviewRequest, before);
      } else {
        PolicyTurnIsPeaked(c, evaluate, f, o.value, step, before, CandidateTx);
      }
    }
  }

  // ---- Reviews ----

  lemma StopIsPeaked(c: Config, s: StateSnapshot, review: Review)
    requires Peaked(s) && (review.ReviewExpired? || review.ReviewDecided?)
    ensures PeakedTurn(StopForApproval(c, s, review))
  {
    hide AddId;
  }

  lemma DataReviewIsPeaked(c: Config, s: StateSnapshot, review: Review)
    requires Peaked(s) && DataReviewTurn(c, s, review).Commit?
    ensures PeakedTurn(DataReviewTurn(c, s, review))
  {
    hide AddId, StopForApproval;
    if !(review.ReviewDecided? && review.approved) { StopIsPeaked(c, s, review); }
  }

  lemma ApprovalIsPeaked(review: Review, evaluate: StateSnapshot)
    requires review.ReviewDecided? && Peaked(evaluate)
    ensures AllPeaked([EvidenceRecord(review.evidence), DecisionRecord(review.decision), SnapshotRecord(evaluate)])
  {
  }

  lemma ModelReviewIsPeaked(c: Config, s: StateSnapshot, review: Review)
    requires Peaked(s) && ModelReviewTurn(c, s, review).Commit?
    ensures PeakedTurn(ModelReviewTurn(c, s, review))
  {
    hide StopForApproval, EvaluateCandidate, PolicyTurn, PeakedTurn, AllPeaked;
    if review.ReviewDecided? && review.approved {
      var f := s.metadata.candidate.value;
      var evaluate := EvaluateSnapshot(s, f, review.decidedAt, EvaluateAfterApproval, s.metadata);
      var o := Observe(f, evaluate.iteration, evaluate.metadata.iterationCost, evaluate.enteredAt);
      var step := JudgeCandidate(c, evaluate, f).step;
      DecidedHasActiveParent(c.limits, evaluate, o.value);
      ApprovalIsPeaked(review, evaluate);
      PolicyTurnIsPeaked(c, evaluate, f, o.value, step,
        [EvidenceRecord(review.evidence), DecisionRecord(review.decision), SnapshotRecord(evaluate)], ModelReviewApproved);
    } else {
      StopIsPeaked(c, s, review);
    }
  }

  lemma TurnIsPeaked(c: Config, s: StateSnapshot, answer: Answer)
    requires Peaked(s) && TurnOf(c, s, answer).Commit?
    ensures PeakedTurn(TurnOf(c, s, answer))
  {
    hide DataTurn, CandidateTurn, DataReviewTurn, ModelReviewTurn, Peaked, PeakedTurn;
    match s.state
    case Diagnose => DataTurnIsPeaked(c, s, answer.data);
    case Train => CandidateTurnIsPeaked(c, s, answer.candidate);
    case DataReviewPending => DataReviewIsPeaked(c, s, answer.review);
    case ModelReviewPending => ModelReviewIsPeaked(c, s, answer.review);
    case _ =>
  }
}
