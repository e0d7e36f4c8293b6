/** How any turn ends, reviews included: what is left to be written after its commit, and which of
    the snapshots entered at a decision the run can go on from. */
module TurnEnds {
  import opened Records
  import opened Policy
  import opened Controller
  import opened Materialization
  import opened CrashRecovery
  import opened ReviewTimes
  import opened RunLoop

  /** A snapshot waiting for a model review carries a candidate, and nothing to materialise. */
  predicate FitPending(s: StateSnapshot) {
    && (AwaitsReview(s.state) ==> s.metadata.materialization.None?)
    && (s.state == ModelReviewPending ==>
          && s.candidate.Some? && s.metadata.candidate.Some?
          && s.metadata.candidate.value.parent != Some(s.metadata.candidate.value.checkpoint))
  }

  /** A snapshot a turn can be taken from asks for no materialisation, except between two iterations. */
  predicate Fit(s: StateSnapshot) {
    FitPending(s) && (s.state == Train ==> s.metadata.materialization.None?)
  }

  /** Only a refusal leaves anything to be written that its snapshot does not ask for. */
  predicate EndsWell(s: StateSnapshot, t: Turn) {
    && t.Commit? && FitPending(t.next)
    && (t.marker.Some? || t.refused.Some? ==> t.next.state == Stopped && t.next.metadata.materialization.None?)
    && (t.marker.Some? ==> t.marker.value.subjectType == DatasetSubject && t.marker.value.tx == t.req.tx)
    && (t.refused.Some? ==>
          && t.marker.None? && s.state == ModelReviewPending && s.metadata.candidate.Some? && Materializable(t.refused.value)
          && CheckpointOf(t.refused.value) == s.metadata.candidate.value.checkpoint
          && t.refused.value.metadata.materialization.value.sourceIteration == s.iteration
          && t.refused.value.metadata.materialization.value.tx == t.req.tx
          && ActionOf(t.refused.value) == Action.Reject)
  }

  lemma RejectEnds(c: Config, s: StateSnapshot, e: DataEvidence, dataset: Id, accepted: nat, cost: real)
    ensures EndsWell(s, RejectData(c, s, e, dataset, accepted, cost))
  {
    hide StageRecords, EvidenceRecords, AllDataEvidence, Ids;
  }

  lemma OtherDataEnds(c: Config, s: StateSnapshot, e: DataEvidence, request: Evidence, dataset: Id, cost: real)
    ensures EndsWell(s, ReviewData(c, s, e, request, dataset, cost)) && EndsWell(s, AcceptData(c, s, e, cost))
  {
    hide StageRecords, EvidenceRecords, AllDataEvidence, Ids;
  }

  lemma EarlyEnds(c: Config, s: StateSnapshot, evidence: seq<Evidence>, stop: StopReason)
    ensures EndsWell(s, AbortBeforeCandidate(c, s, evidence, stop)) && EndsWell(s, StopAtMaximum(c, s))
    ensures EndsWell(s, AbortAfterData(c, s))
  {
    hide EvidenceRecords, Ids;
  }

  lemma DataTurnEnds(c: Config, s: StateSnapshot, input: DataInput)
    ensures EndsWell(s, DataTurn(c, s, input))
  {
    hide RejectData, ReviewData, AcceptData, AbortBeforeCandidate, StopAtMaximum, AbortAfterData, EndsWell, AcceptanceRate;
    var e := input.evidence;
    var begun := [e.diagnostic, e.hypothesis];
    if s.iteration > c.limits.maxIterations {
      EarlyEnds(c, s, begun, InternalError);
    } else {
      match input.teacher
      case CircuitOpen => EarlyEnds(c, s, begun, ProviderCircuitOpen);
      case TeacherFailed => EarlyEnds(c, s, begun, InternalError);
      case Batch(cost, accepted, rejected, dataset) =>
        match Ledger.Guard(c.limits, 0.0, s.totalCost, cost)
        case NegativeAmount => EarlyEnds(c, s, begun, InternalError);
        case IterationBudget => EarlyEnds(c, s, begun, PerIterationBudgetExceeded);
        case TotalBudget => EarlyEnds(c, s, begun, TotalBudgetExceeded);
        case Charged =>
          RejectEnds(c, s, e, dataset, accepted, cost);
          OtherDataEnds(c, s, e, input.reviewRequest, dataset, cost);
    }
  }

  lemma ReviewModelEnds(c: Config, s: StateSnapshot, evaluate: StateSnapshot, f: CandidateFacts, request: Evidence, before: seq<Record>)
    requires evaluate.metadata.candidate == Some(f) && f.parent != Some(f.checkpoint) && evaluate.metadata.materialization.None?
    ensures EndsWell(s, ReviewModel(c, evaluate, f, request, before))
  {
    hide AddId;
  }

  lemma PolicyTurnEnds(
    c: Config, s: StateSnapshot, evaluate: StateSnapshot, f: CandidateFacts, o: Observation, step: PolicyStep, before: seq<Record>,
    tag: Tag)
    requires EvaluateCandidate(c.limits, evaluate, o) == Verdict.Decided(step) && step.snapshots != [] && step.decisions != []
    ensures EndsWell(s, PolicyTurn(c, evaluate, f, step, before, tag))
  {
    hide EvaluateCandidate, PolicyRecords, FinalOf;
    FinalIsNotPending(c.limits, evaluate, o);
  }

  lemma FinalIsNotPending(limits: Limits, s: StateSnapshot, o: Observation)
    requires EvaluateCandidate(limits, s, o).Decided?
    ensures var step := EvaluateCandidate(limits, s, o).step; step.snapshots != [] && !AwaitsReview(FinalOf(step).state)
  {
  }

  lemma ObservedIsNoParent(f: CandidateFacts, iteration: nat, cost: real, at: int)
    ensures Observe(f, iteration, cost, at).Some? ==> f.parent != Some(f.checkpoint)
  {
  }

  lemma CandidateTurnEnds(c: Config, s: StateSnapshot, input: CandidateInput)
    requires CandidateTurn(c, s, input).Commit? && s.metadata.materialization.None?
    ensures EndsWell(s, CandidateTurn(c, s, input))
  {
    hide EvaluateCandidate, EvidenceRecords, CandidateRecords, PolicyTurn, ReviewModel, AbortAfterData, EndsWell, Observe;
    if input.ExecutionFailed? {
      EarlyEnds(c, s, [], InternalError);
    } else {
      var f := FactsOf(input);
      var m := s.metadata.(iterationCost := s.metadata.iterationCost + input.cost, candidate := Some(f));
      var evaluate := EvaluateSnapshot(s, f, At(c, s.iteration, 80), EvaluateStage, m);
      ObservedIsNoParent(f, s.iteration, m.iterationCost, evaluate.enteredAt);
      var o := Observe(f, evaluate.iteration, m.iterationCost, evaluate.enteredAt);
      var step := JudgeCandidate(c, evaluate, f).step;
      var before := EvidenceRecords(input.evidence) + CandidateRecords(c, s, input, evaluate);
      if step.decisions[0].action == Promote && c.checkpointReview {
        ReviewModelEnds(c, s, evaluate, f, input.reviewRequest, before);
      } else {
        PolicyTurnEnds(c, s, evaluate, f, o.value, step, before, CandidateTx);
      }
    }
  }

  // ---- Reviews ----

  lemma StopEnds(c: Config, s: StateSnapshot, review: Review)
    requires review.ReviewExpired? || review.ReviewDecided?
    requires AwaitsReview(s.state) && FitPending(s)
    ensures EndsWell(s, StopForApproval(c, s, review))
  {
    hide AddId;
  }

  lemma DataReviewEnds(c: Config, s: StateSnapshot, review: Review)
    requires s.state == DataReviewPending && FitPending(s) && DataReviewTurn(c, s, review).Commit?
    ensures EndsWell(s, DataReviewTurn(c, s, review))
  {
    hide AddId, StopForApproval;
    if !(review.ReviewDecided? && review.approved) { StopEnds(c, s, review); }
  }

  lemma ModelReviewEnds(c: Config, s: StateSnapshot, review: Review)
    requires s.state == ModelReviewPending && FitPending(s) && ModelReviewTurn(c, s, review).Commit?
    ensures EndsWell(s, ModelReviewTurn(c, s, review))
  {
    hide StopForApproval, EvaluateCandidate, PolicyTurn, EndsWell;
    if review.ReviewDecided? && review.approved {
      var f := s.metadata.candidate.value;
      var evaluate := EvaluateSnapshot(s, f, review.decidedAt, EvaluateAfterApproval, s.metadata);
      var o := Observe(f, evaluate.iteration, evaluate.metadata.iterationCost, evaluate.enteredAt);
      var step := JudgeCandidate(c, evaluate, f).step;
      PolicyTurnEnds(c, s, evaluate, f, o.value, step,
        [EvidenceRecord(review.evidence), DecisionRecord(review.decision), SnapshotRecord(evaluate)], ModelReviewApproved);
    } else {
      StopEnds(c, s, review);
    }
  }

  lemma TurnEnding(c: Config, s: StateSnapshot, answer: Answer)
    requires TurnOf(c, s, answer).Commit? && Fit(s)
    ensures EndsWell(s, TurnOf(c, s, answer))
  {
    hide DataTurn, CandidateTurn, DataReviewTurn, ModelReviewTurn, FitPending, EndsWell;
    match s.state
    case Diagnose => DataTurnEnds(c, s, answer.data);
    case Train => CandidateTurnEnds(c, s, answer.candidate);
    case DataReviewPending => DataReviewEnds(c, s, answer.review);
    case ModelReviewPending => ModelReviewEnds(c, s, answer.review);
    case _ =>
  }

  // ---- Where the snapshots entered at a decision come from ----

  /** The same place to go on from: what the next turn reads of the two is equal. */
  predicate Twin(a: StateSnapshot, b: StateSnapshot) {
    a == b.(id := a.id, enteredAt := a.enteredAt, metadata := a.metadata) && a.metadata.materialization.None?
  }

  predicate TwinFor(x: StateSnapshot, twin: StateSnapshot, next: StateSnapshot) {
    Twin(twin, next) && twin.enteredAt == x.enteredAt && (x == twin || x.iteration < twin.iteration)
  }

  /** Beside a stop stand the evaluation, the promotion and the policy's own stop. */
  predicate BesideStop(x: StateSnapshot, next: StateSnapshot) {
    && next.state == Stopped && x.iteration == next.iteration
    && (x.state == Evaluate || x.state == Promoted || x.state == Stopped)
  }

  /** What the policy decided after an approval stands beside the snapshot it was made into. */
  ghost predicate ComesFrom(records: seq<Record>, x: StateSnapshot, next: StateSnapshot) {
    || x == next
    || (&& next.metadata.materialization.Some?
        && (next.state == Diagnose ==> exists twin :: SnapshotRecord(twin) in records && TwinFor(x, twin, next))
        && (next.state != Diagnose ==> BesideStop(x, next)))
  }

  lemma PolicySnapshotsAre(limits: Limits, s: StateSnapshot, o: Observation, x: StateSnapshot)
    requires EvaluateCandidate(limits, s, o).Decided? && x in EvaluateCandidate(limits, s, o).step.snapshots
    ensures var step := EvaluateCandidate(limits, s, o).step;
      && step.snapshots != [] && FinalOf(step) in step.snapshots
      && FinalOf(step).enteredAt == o.evaluatedAt == x.enteredAt && FinalOf(step).metadata.materialization.None?
      && x.metadata.materialization.None?
      && (FinalOf(step).state == Diagnose ==> FinalOf(step).iteration == s.iteration + 1)
      && (x != FinalOf(step) ==> x.iteration == s.iteration)
  {
  }

  lemma PromotionsEndIn(limits: Limits, s: StateSnapshot, o: Observation, x: StateSnapshot)
    requires EvaluateCandidate(limits, s, o).Decided? && EvaluateCandidate(limits, s, o).step.decisions != []
    requires EvaluateCandidate(limits, s, o).step.decisions[0].action == Promote && x in EvaluateCandidate(limits, s, o).step.snapshots
    ensures var step := EvaluateCandidate(limits, s, o).step;
      && step.snapshots != []
      && (FinalOf(step).state != Diagnose ==>
            && FinalOf(step).state == Stopped && FinalOf(step).iteration == s.iteration == x.iteration
            && (x.state == Promoted || x.state == Stopped))
  {
  }

  lemma FinalIsAmong(step: PolicyStep)
    requires step.snapshots != []
    ensures FinalOf(step) in step.snapshots && SnapshotRecord(FinalOf(step)) in SnapshotRecords(step.snapshots)
  {
    assert SnapshotRecords(step.snapshots)[|step.snapshots| - 1] == SnapshotRecord(FinalOf(step));
  }

  lemma PolicyComesFrom(c: Config, evaluate: StateSnapshot, o: Observation, step: PolicyStep, records: seq<Record>, x: StateSnapshot,
    next: StateSnapshot)
    requires EvaluateCandidate(c.limits, evaluate, o) == Verdict.Decided(step) && step.snapshots != [] && step.decisions != []
    requires step.decisions[0].action == Promote && evaluate.state == Evaluate && evaluate.enteredAt == o.evaluatedAt
    requires x == evaluate || x in step.snapshots
    requires SnapshotRecord(FinalOf(step)) in records && next.metadata.materialization.Some?
    requires var final := FinalOf(step); next == final.(id := next.id, enteredAt := next.enteredAt, metadata := next.metadata)
    ensures ComesFrom(records, x, next)
  {
    hide EvaluateCandidate, FinalOf;
    var final := FinalOf(step);
    FinalIsAmong(step);
    PolicySnapshotsAre(c.limits, evaluate, o, final);
    PromotionsEndIn(c.limits, evaluate, o, final);
    if x != evaluate {
      PolicySnapshotsAre(c.limits, evaluate, o, x);
      PromotionsEndIn(c.limits, evaluate, o, x);
    }
  }

  lemma ApprovalComesFrom(c: Config, s: StateSnapshot, review: Review, x: StateSnapshot)
    requires review.ReviewDecided? && review.approved && ModelReviewTurn(c, s, review).Commit? && s.metadata.materialization.None?
    requires SnapshotRecord(x) in ModelReviewTurn(c, s, review).req.records
    ensures ComesFrom(ModelReviewTurn(c, s, review).req.records, x, ModelReviewTurn(c, s, review).next)
  {
    hide EvaluateCandidate, FinalOf, ComesFrom;
    var t := ModelReviewTurn(c, s, review);
    var f := s.metadata.candidate.value;
    var evaluate := EvaluateSnapshot(s, f, review.decidedAt, EvaluateAfterApproval, s.metadata);
    var o := Observe(f, evaluate.iteration, evaluate.metadata.iterationCost, evaluate.enteredAt);
    var step := JudgeCandidate(c, evaluate, f).step;
    SameComesFrom(t.req.records, x, t.next);
    if x != t.next {
      FinalIsAmong(step);
      assert SnapshotRecord(FinalOf(step)) in t.req.records;
      assert x == evaluate || SnapshotRecord(x) in SnapshotRecords(step.snapshots);
      PolicyComesFrom(c, evaluate, o.value, step, t.req.records, x, t.next);
    }
  }

  lemma OwnTurnsAreNotHuman(c: Config, s: StateSnapshot, answer: Answer)
    requires TurnOf(c, s, answer).Commit? && (s.state == Diagnose || s.state == Train)
    ensures var tx := TurnOf(c, s, answer).req.tx; tx.Minted? && !HumanTag(tx.tag)
  {
    hide StageRecords, EvidenceRecords, AllDataEvidence, Ids, AcceptanceRate, JudgeCandidate, PolicyRecords, CandidateRecords,
      AddId, FinalOf;
  }

  lemma DataApprovalComesFrom(c: Config, s: StateSnapshot, review: Review, x: StateSnapshot)
    requires review.ReviewDecided? && review.approved && SnapshotRecord(x) in DataReviewTurn(c, s, review).req.records
    ensures x == DataReviewTurn(c, s, review).next
  {
    hide AddId;
  }

  /** Every snapshot a decision enters is the one the run goes on from, or stands beside it. */
  lemma DecidedComesFrom(c: Config, s: StateSnapshot, answer: Answer, x: StateSnapshot)
    requires TurnOf(c, s, answer).Commit? && FitPending(s) && TurnOf(c, s, answer).req.tx.Minted?
    requires HumanTag(TurnOf(c, s, answer).req.tx.tag) && SnapshotRecord(x) in TurnOf(c, s, answer).req.records
    ensures ComesFrom(TurnOf(c, s, answer).req.records, x, TurnOf(c, s, answer).next)
  {
    hide DataTurn, CandidateTurn, ComesFrom, HumanTag, StopForApproval, PolicyTurn, JudgeCandidate, AddId;
    if s.state == Diagnose || s.state == Train {
      OwnTurnsAreNotHuman(c, s, answer);
    } else {
      var review, t := answer.review, TurnOf(c, s, answer);
      SameComesFrom(t.req.records, x, t.next);
      if review.ReviewDecided? && review.approved {
        if s.state == ModelReviewPending { ApprovalComesFrom(c, s, review, x); } else { DataApprovalComesFrom(c, s, review, x); }
      } else if review.ReviewDecided? {
        StopSnapshots(c, s, review, x);
      } else {
        ExpiryIsNotHuman(c, s, review);
      }
    }
  }

  lemma SameComesFrom(records: seq<Record>, x: StateSnapshot, next: StateSnapshot)
    ensures x == next ==> ComesFrom(records, x, next)
  {
  }

  lemma ExpiryIsNotHuman(c: Config, s: StateSnapshot, review: Review)
    requires review.ReviewExpired?
    ensures StopForApproval(c, s, review).Commit? && StopForApproval(c, s, review).req.tx == Tx(s, ApprovalExpired)
    ensures !HumanTag(ApprovalExpired)
  {
    hide AddId;
  }
}
