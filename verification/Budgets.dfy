/** No turn of any kind writes a snapshot the run cannot pay for, unless it is the one that aborts it
    over its budget. */
module Budgets {
  import opened Records
  import opened Policy
  import opened Controller
  import opened RunLoop
  import opened CrashRecovery

  ghost predicate AllPaid(c: Config, records: seq<Record>) {
    forall x :: SnapshotRecord(x) in records ==> Affordable(c, x)
  }

  lemma PaidJoins(c: Config, a: seq<Record>, b: seq<Record>)
    requires AllPaid(c, a) && AllPaid(c, b)
    ensures AllPaid(c, a + b)
  {
  }

  lemma OnePaid(c: Config, s: StateSnapshot)
    requires Affordable(c, s)
    ensures AllPaid(c, [SnapshotRecord(s)])
  {
  }

  // ---- Data turns ----

  lemma StagesArePaid(c: Config, s: StateSnapshot, e: DataEvidence, cost: real)
    requires s.totalCost <= c.limits.total + EPSILON
    ensures AllPaid(c, EvidenceRecords(AllDataEvidence(e)) + StageRecords(c, s, e, cost))
  {
  }

  lemma RejectIsPaid(c: Config, s: StateSnapshot, e: DataEvidence, dataset: Id, accepted: nat, cost: real)
    requires s.totalCost <= c.limits.total + EPSILON && s.totalCost + cost <= c.limits.total + EPSILON
    ensures AllPaid(c, RejectData(c, s, e, dataset, accepted, cost).req.records)
  {
    hide AllDataEvidence, Ids, EvidenceRecords, StageRecords;
    var t := RejectData(c, s, e, dataset, accepted, cost);
    var front := EvidenceRecords(AllDataEvidence(e)) + StageRecords(c, s, e, cost);
    StagesArePaid(c, s, e, cost);
    var rest := t.req.records[|front|..];
    assert t.req.records == front + rest;
    PaidJoins(c, front, rest);
  }

  lemma ReviewIsPaid(c: Config, s: StateSnapshot, e: DataEvidence, request: Evidence, dataset: Id, cost: real)
    requires s.totalCost <= c.limits.total + EPSILON && s.totalCost + cost <= c.limits.total + EPSILON
    ensures AllPaid(c, ReviewData(c, s, e, request, dataset, cost).req.records)
  {
    hide AllDataEvidence, Ids, EvidenceRecords, StageRecords;
    var t := ReviewData(c, s, e, request, dataset, cost);
    var front := EvidenceRecords(AllDataEvidence(e)) + StageRecords(c, s, e, cost);
    StagesArePaid(c, s, e, cost);
    var rest := t.req.records[|front|..];
    assert t.req.records == front + rest;
    PaidJoins(c, front, rest);
  }

  lemma AcceptIsPaid(c: Config, s: StateSnapshot, e: DataEvidence, cost: real)
    requires s.totalCost <= c.limits.total + EPSILON
    ensures AllPaid(c, AcceptData(c, s, e, cost).req.records)
  {
    hide AllDataEvidence, Ids, EvidenceRecords, StageRecords;
    var t := AcceptData(c, s, e, cost);
    var front := EvidenceRecords(AllDataEvidence(e)) + StageRecords(c, s, e, cost);
    StagesArePaid(c, s, e, cost);
    var rest := t.req.records[|front|..];
    assert t.req.records == front + rest;
    PaidJoins(c, front, rest);
  }

  lemma AbortIsPaid(c: Config, s: StateSnapshot, evidence: seq<Evidence>, stop: StopReason)
    ensures AllPaid(c, AbortBeforeCandidate(c, s, evidence, stop).req.records)
  {
    hide Ids;
  }

  lemma StopAtMaximumIsPaid(c: Config, s: StateSnapshot)
    requires s.totalCost <= c.limits.total + EPSILON
    ensures AllPaid(c, StopAtMaximum(c, s).req.records)
  {
  }

  lemma AbortAfterIsPaid(c: Config, s: StateSnapshot)
    ensures AllPaid(c, AbortAfterData(c, s).req.records)
  {
  }

  lemma DataTurnIsPaid(c: Config, s: StateSnapshot, input: DataInput)
    requires s.state == Diagnose && Affordable(c, s)
    ensures AllPaid(c, DataTurn(c, s, input).req.records)
  {
    hide RejectData, ReviewData, AcceptData, AbortBeforeCandidate, StopAtMaximum, AllPaid, AcceptanceRate;
    var e := input.evidence;
    var begun := [e.diagnostic, e.hypothesis];
    StopAtMaximumIsPaid(c, s);
    AbortIsPaid(c, s, begun, InternalError);
    AbortIsPaid(c, s, begun, ProviderCircuitOpen);
    AbortIsPaid(c, s, begun, PerIterationBudgetExceeded);
    AbortIsPaid(c, s, begun, TotalBudgetExceeded);
    if input.teacher.Batch? && Ledger.Guard(c.limits, 0.0, s.totalCost, input.teacher.cost).Charged? {
      var x := input.teacher;
      RejectIsPaid(c, s, e, x.dataset, x.accepted, x.cost);
      ReviewIsPaid(c, s, e, input.reviewRequest, x.dataset, x.cost);
      AcceptIsPaid(c, s, e, x.cost);
    }
  }

  // ---- Candidate turns ----

  lemma CandidateIsPaid(c: Config, s: StateSnapshot, input: CandidateInput, evaluate: StateSnapshot)
    requires input.Evaluated? && s.totalCost <= c.limits.total + EPSILON && evaluate.totalCost == s.totalCost && evaluate.state == Evaluate
    ensures AllPaid(c, EvidenceRecords(input.evidence) + CandidateRecords(c, s, input, evaluate))
  {
    hide Ids;
  }

  lemma ReviewModelIsPaid(c: Config, evaluate: StateSnapshot, f: CandidateFacts, request: Evidence, before: seq<Record>)
    requires AllPaid(c, before) && evaluate.totalCost <= c.limits.total + EPSILON
    requires evaluate.totalCost + evaluate.metadata.iterationCost <= c.limits.total + EPSILON
    ensures AllPaid(c, ReviewModel(c, evaluate, f, request, before).req.records)
  {
    hide AddId;
    var t := ReviewModel(c, evaluate, f, request, before);
    var rest := t.req.records[|before|..];
    assert t.req.records == before + rest;
    PaidJoins(c, before, rest);
  }

  lemma PolicySnapshotIsPaid(limits: Limits, s: StateSnapshot, o: Observation, i: nat)
    requires EvaluateCandidate(limits, s, o).Decided? && i < |EvaluateCandidate(limits, s, o).step.snapshots|
    ensures var x := EvaluateCandidate(limits, s, o).step.snapshots[i];
      !AwaitsReview(x.state) && (x.state != Aborted ==> x.totalCost <= limits.total + EPSILON)
  {
  }

  lemma PolicyIsPaid(c: Config, s: StateSnapshot, o: Observation)
    requires EvaluateCandidate(c.limits, s, o).Decided?
    ensures AllPaid(c, PolicyRecords(EvaluateCandidate(c.limits, s, o).step))
  {
    var step := EvaluateCandidate(c.limits, s, o).step;
    hide EvaluateCandidate;
    forall x | SnapshotRecord(x) in PolicyRecords(step) ensures Affordable(c, x) {
      var i :| 0 <= i < |step.snapshots| && step.snapshots[i] == x;
      PolicySnapshotIsPaid(c.limits, s, o, i);
    }
  }

  lemma PolicyTurnIsPaid(
    c: Config, evaluate: StateSnapshot, f: CandidateFacts, o: Observation, step: PolicyStep, before: seq<Record>, tag: Tag)
    requires EvaluateCandidate(c.limits, evaluate, o) == Verdict.Decided(step) && step.snapshots != [] && step.decisions != []
    requires AllPaid(c, before)
    ensures AllPaid(c, PolicyTurn(c, evaluate, f, step, before, tag).req.records)
  {
    hide EvaluateCandidate, PolicyRecords, AllPaid;
    PolicyIsPaid(c, evaluate, o);
    PolicySnapshotIsPaid(c.limits, evaluate, o, |step.snapshots| - 1);
    var t := PolicyTurn(c, evaluate, f, step, before, tag);
    OnePaid(c, t.next);
    PaidJoins(c, before, PolicyRecords(step));
    PaidJoins(c, before + PolicyRecords(step), [SnapshotRecord(t.next)]);
  }

  lemma CandidateTurnIsPaid(c: Config, s: StateSnapshot, input: CandidateInput)
    requires CandidateTurn(c, s, input).Commit? && s.state == Train && Affordable(c, s)
    ensures AllPaid(c, CandidateTurn(c, s, input).req.records)
  {
    hide EvaluateCandidate, EvidenceRecords, CandidateRecords, PolicyTurn, ReviewModel, AbortAfterData, Observe, AllPaid, Ids;
    if input.ExecutionFailed? {
      AbortAfterIsPaid(c, s);
    } else {
      var f := FactsOf(input);
      var m := s.metadata.(iterationCost := s.metadata.iterationCost + input.cost, candidate := Some(f));
      var evaluate := EvaluateSnapshot(s, f, At(c, s.iteration, 80), EvaluateStage, m);
      ObservedCost(f, s.iteration, m.iterationCost, evaluate.enteredAt);
      var o := Observe(f, evaluate.iteration, m.iterationCost, evaluate.enteredAt);
      var step := JudgeCandidate(c, evaluate, f).step;
      var before := EvidenceRecords(input.evidence) + CandidateRecords(c, s, input, evaluate);
      CandidateIsPaid(c, s, input, evaluate);
      if step.decisions[0].action == Promote && c.checkpointReview {
        PolicyTurnAccounts(c, s, evaluate, f, o.value, step, before, CandidateTx);
        ReviewModelIsPaid(c, evaluate, f, input.reviewRequest, before);
      } else {
        PolicyTurnIsPaid(c, evaluate, f, o.value, step, before, CandidateTx);
      }
    }
  }

  lemma ObservedCost(f: CandidateFacts, iteration: nat, cost: real, at: int)
    ensures Observe(f, iteration, cost, at).Some? ==> Observe(f, iteration, cost, at).value.cost == cost
  {
  }

  // ---- Reviews ----

  lemma StopIsPaid(c: Config, s: StateSnapshot, review: Review)
    requires (review.ReviewExpired? || review.ReviewDecided?) && AwaitsReview(s.state) && Affordable(c, s)
    ensures AllPaid(c, StopForApproval(c, s, review).req.records)
  {
    hide AddId;
  }

  lemma DataReviewIsPaid(c: Config, s: StateSnapshot, review: Review)
    requires s.state == DataReviewPending && Affordable(c, s) && DataReviewTurn(c, s, review).Commit?
    ensures AllPaid(c, DataReviewTurn(c, s, review).req.records)
  {
    hide AddId, StopForApproval;
    if !(review.ReviewDecided? && review.approved) { StopIsPaid(c, s, review); }
  }

  lemma ApprovalIsPaid(c: Config, review: Review, evaluate: StateSnapshot)
    requires review.ReviewDecided? && Affordable(c, evaluate)
    ensures AllPaid(c, [EvidenceRecord(review.evidence), DecisionRecord(review.decision), SnapshotRecord(evaluate)])
  {
  }

  lemma ModelReviewIsPaid(c: Config, s: StateSnapshot, review: Review)
    requires s.state == ModelReviewPending && Affordable(c, s) && ModelReviewTurn(c, s, review).Commit?
    ensures AllPaid(c, ModelReviewTurn(c, s, review).req.records)
  {
    hide StopForApproval, EvaluateCandidate, PolicyTurn, AllPaid, Observe;
    if review.ReviewDecided? && review.approved {
      var f := s.metadata.candidate.value;
      var evaluate := EvaluateSnapshot(s, f, review.decidedAt, EvaluateAfterApproval, s.metadata);
      var o := Observe(f, evaluate.iteration, evaluate.metadata.iterationCost, evaluate.enteredAt);
      var step := JudgeCandidate(c, evaluate, f).step;
      ApprovalIsPaid(c, review, evaluate);
      PolicyTurnIsPaid(c, evaluate, f, o.value, step,
        [EvidenceRecord(review.evidence), DecisionRecord(review.decision), SnapshotRecord(evaluate)], ModelReviewApproved);
    } else {
      StopIsPaid(c, s, review);
    }
  }

  lemma TurnIsPaid(c: Config, s: StateSnapshot, answer: Answer)
    requires Affordable(c, s) && TurnOf(c, s, answer).Commit?
    ensures AllPaid(c, TurnOf(c, s, answer).req.records)
  {
    hide DataTurn, CandidateTurn, DataReviewTurn, ModelReviewTurn, AllPaid, Affordable;
    match s.state
    case Diagnose => DataTurnIsPaid(c, s, answer.data);
    case Train => CandidateTurnIsPaid(c, s, answer.candidate);
    case DataReviewPending => DataReviewIsPaid(c, s, answer.review);
    case ModelReviewPending => ModelReviewIsPaid(c, s, answer.review);
    case _ =>
  }
}
