/** What a candidate turn and the answers to reviews leave, in terms of what was given to them. */
module CandidateOutcomes {
  import opened Records
  import opened QuarantineStore
  import opened Policy
  import opened Controller
  import opened TurnOutcomes

  /** The facts on record are the candidate that was evaluated. */
  predicate RecordsCandidate(f: CandidateFacts, input: CandidateInput)
    requires input.Evaluated?
  {
    && f.checkpoint == input.checkpoint && f.model == input.model && f.parent == input.parent
    && f.artifact == input.artifact && f.score == input.score && NamesAll(f.evidence, input.evidence)
  }

  /** What the iteration has cost once the candidate is evaluated. */
  function CostWith(s: StateSnapshot, input: CandidateInput): real
    requires input.Evaluated?
  {
    s.metadata.iterationCost + input.cost
  }

  /** What the policy can be asked about: a candidate that was trained from the Peak and has evidence. */
  predicate CanBeJudged(s: StateSnapshot, f: CandidateFacts) {
    && s.peakScore.Some? && s.active == s.peak && f.parent == s.peak && f.parent != Some(f.checkpoint)
    && 1 <= s.iteration && f.evidence != []
  }

  /** The verdict on a score and a cost, in the policy's order. */
  function VerdictOn(c: Config, s: StateSnapshot, score: real, cost: real): Action
    requires s.peakScore.Some?
  {
    if cost > c.limits.perIteration + EPSILON || s.totalCost + cost > c.limits.total + EPSILON then Abort
    else if s.peakScore.value + c.limits.minImprovement < score then Promote
    else if score + c.limits.regressionTolerance + EPSILON < s.peakScore.value then Rollback
    else Action.Reject
  }

  /** The reason on record for a verdict. */
  function ReasonFor(c: Config, action: Action, cost: real): ReasonCode {
    match action
    case Abort =>
      PolicyBudget(if cost > c.limits.perIteration + EPSILON then PerIterationBudgetExceeded else TotalBudgetExceeded)
    case Promote => CandidateAbovePeak
    case Rollback => CandidateRegressed
    case _ => CandidateNotAbovePeak
  }

  function StatusFor(action: Action): CheckpointStatus {
    match action
    case Promote => StatusPeak
    case Rollback => StatusRolledBack
    case Abort => StatusAborted
    case _ => StatusRejected
  }

  /** The decision about the candidate that a verdict puts on record. */
  predicate Judges(c: Config, s: StateSnapshot, f: CandidateFacts, cost: real, at: int, d: Decision)
    requires s.peakScore.Some?
  {
    var action := VerdictOn(c, s, f.score, cost);
    && d.run == s.run && d.iteration == s.iteration && d.subjectType == CheckpointSubject && d.subject == f.checkpoint
    && d.action == action && d.reasonCode == ReasonFor(c, action, cost)
    && d.stop == (match d.reasonCode case PolicyBudget(limit) => Some(limit)
                                     case CandidateRegressed => Some(RegressionRollback) case _ => None)
    && d.evidence == f.evidence && d.createdAt == at
  }

  /** The snapshot a verdict leads to asks for exactly the materialisation the decision calls for. */
  predicate AsksToMaterialize(s: StateSnapshot, t: Turn, f: CandidateFacts, d: Decision)
    requires t.Commit?
  {
    && t.next.metadata.candidate == Some(f)
    && t.next.metadata.materialization == Some(Materialization(t.req.tx, d.id, d.action, StatusFor(d.action), s.iteration))
  }

  /** How a verdict moves the accepted state, the plateau and the total, and where the run goes on. */
  predicate MovesBy(c: Config, s: StateSnapshot, f: CandidateFacts, cost: real, action: Action, next: StateSnapshot) {
    && next.run == s.run && next.totalCost == s.totalCost + cost && next.metadata.iterationCost == cost
    && next.active == next.peak
    && next.peak == (if action == Promote then Some(f.checkpoint) else s.peak)
    && next.peakScore == (if action == Promote then Some(f.score) else s.peakScore)
    && next.plateau == (if action == Promote then 0 else if action == Abort then s.plateau else s.plateau + 1)
    && (action == Abort ==>
          && next.state == Aborted && next.iteration == s.iteration
          && next.stop == Some(if cost > c.limits.perIteration + EPSILON then PerIterationBudgetExceeded else TotalBudgetExceeded))
    && (action == Rollback ==> next.state == RolledBack && next.iteration == s.iteration && next.stop == Some(RegressionRollback))
    && (action == Promote || action == Action.Reject ==>
          if next.plateau >= c.limits.patience then
            next.state == Stopped && next.iteration == s.iteration && next.stop == Some(Plateau)
          else if s.iteration >= c.limits.maxIterations then
            next.state == Stopped && next.iteration == s.iteration && next.stop == Some(MaxIterations)
          else next.state == Diagnose && next.iteration == s.iteration + 1 && next.stop == None)
  }

  /** A turn that carries a verdict. */
  ghost predicate CarriesVerdict(c: Config, s: StateSnapshot, t: Turn, f: CandidateFacts, cost: real, at: int)
    requires s.peakScore.Some?
  {
    && t.Commit? && t.marker == None && t.refused == None
    && t.next.enteredAt == c.started + 3600 * s.iteration + 110
    && MovesBy(c, s, f, cost, VerdictOn(c, s, f.score, cost), t.next)
    && exists d :: DecisionRecord(d) in t.req.records && Judges(c, s, f, cost, at, d) && AsksToMaterialize(s, t, f, d)
  }

  // ---- The policy behind it ----

  /** The policy, asked in an EVALUATE snapshot that carries what s carries. */
  predicate EvaluatesFrom(s: StateSnapshot, evaluate: StateSnapshot, f: CandidateFacts) {
    && evaluate.state == Evaluate && evaluate.run == s.run && evaluate.iteration == s.iteration
    && evaluate.active == s.active && evaluate.peak == s.peak && evaluate.peakScore == s.peakScore
    && evaluate.plateau == s.plateau && evaluate.totalCost == s.totalCost && evaluate.candidate == Some(f.checkpoint)
  }

  lemma JudgedIff(c: Config, s: StateSnapshot, evaluate: StateSnapshot, f: CandidateFacts)
    requires EvaluatesFrom(s, evaluate, f)
    ensures JudgeCandidate(c, evaluate, f).Decided? <==> CanBeJudged(s, f) && 0.0 <= evaluate.metadata.iterationCost
  {
    var o := Observe(f, evaluate.iteration, evaluate.metadata.iterationCost, evaluate.enteredAt);
    if o.Some? { DecidedIff(c.limits, evaluate, o.value); }
    hide EvaluateCandidate;
  }

  lemma JudgedStep(c: Config, s: StateSnapshot, evaluate: StateSnapshot, f: CandidateFacts)
    requires EvaluatesFrom(s, evaluate, f) && JudgeCandidate(c, evaluate, f).Decided?
    ensures s.peakScore.Some?
    ensures var step := JudgeCandidate(c, evaluate, f).step;
      && step.decisions != [] && step.snapshots != []
      && Judges(c, s, f, evaluate.metadata.iterationCost, evaluate.enteredAt, step.decisions[0])
  {
    hide EvaluateCandidate, Moves, Disposition;
    var o := Observe(f, evaluate.iteration, evaluate.metadata.iterationCost, evaluate.enteredAt).value;
    VerdictIsExact(c.limits, evaluate, o);
    StepRecordsTheCandidate(c.limits, evaluate, o);
    EvaluationMoves(c.limits, evaluate, o);
  }

  lemma JudgedMoves(c: Config, s: StateSnapshot, evaluate: StateSnapshot, f: CandidateFacts)
    requires EvaluatesFrom(s, evaluate, f) && JudgeCandidate(c, evaluate, f).Decided?
    ensures s.peakScore.Some?
    ensures var step, cost := JudgeCandidate(c, evaluate, f).step, evaluate.metadata.iterationCost;
      && step.snapshots != []
      && MovesBy(c, s, f, cost, VerdictOn(c, s, f.score, cost),
                 FinalOf(step).(metadata := FinalOf(step).metadata.(iterationCost := cost)))
  {
    hide EvaluateCandidate;
    var o := Observe(f, evaluate.iteration, evaluate.metadata.iterationCost, evaluate.enteredAt).value;
    DecidedIff(c.limits, evaluate, o);
    EvaluationMoves(c.limits, evaluate, o);
  }

  lemma PolicyTurnDecides(
    c: Config, s: StateSnapshot, evaluate: StateSnapshot, f: CandidateFacts, before: seq<Record>, tag: Tag)
    requires EvaluatesFrom(s, evaluate, f) && JudgeCandidate(c, evaluate, f).Decided?
    requires JudgeCandidate(c, evaluate, f).step.decisions != [] && JudgeCandidate(c, evaluate, f).step.snapshots != []
    ensures s.peakScore.Some?
    ensures var t := PolicyTurn(c, evaluate, f, JudgeCandidate(c, evaluate, f).step, before, tag);
      && t.Commit? && CarriesVerdict(c, s, t, f, evaluate.metadata.iterationCost, evaluate.enteredAt)
      && CommitsAt(s, t, tag, c.started + 3600 * s.iteration + 110)
  {
    hide JudgeCandidate;
    var step, cost := JudgeCandidate(c, evaluate, f).step, evaluate.metadata.iterationCost;
    JudgedStep(c, s, evaluate, f);
    JudgedMoves(c, s, evaluate, f);
    var t := PolicyTurn(c, evaluate, f, step, before, tag);
    assert t.req.records[|before|] == DecisionRecord(step.decisions[0]);
    assert AsksToMaterialize(s, t, f, step.decisions[0]);
    LastRecord(t.req.records, t.next);
  }

  // ---- TRAIN ----

  /** The adapters failed: the run ends ABORTED, and the batch is not charged. */
  ghost predicate AbortsAfter(c: Config, s: StateSnapshot, t: Turn) {
    && CommitsAt(s, t, CandidateExecutionAbort, c.started + 3600 * s.iteration + 75)
    && t.next.state == Aborted && RunDecision(s, t, Abort, CandidateExecutionFailed, InternalError)
    && KeepsPeak(s, t.next) && t.next.totalCost == s.totalCost && t.next.evidence == s.evidence
    && t.next.candidate == None && t.marker == None && t.refused == None
  }

  lemma AbortAfterOutcome(c: Config, s: StateSnapshot)
    ensures AbortsAfter(c, s, AbortAfterData(c, s))
  {
    var t, at := AbortAfterData(c, s), At(c, s.iteration, 75);
    var d := Judge(s, CandidateExecutionAbort, RunSubject, s.run, Abort, CandidateExecutionFailed, at, Some(InternalError), s.evidence);
    assert t.req.records[0] == DecisionRecord(d);
    assert EndsRun(s, t.next, d, Abort, CandidateExecutionFailed, InternalError);
    LastRecord(t.req.records, t.next);
  }

  /** The ids on record are those there were and these, and none of these is listed twice. */
  ghost predicate AddsIds(before: seq<Id>, more: set<Id>, after: seq<Id>) {
    && before <= after
    && (forall id :: id in after <==> id in before || id in more)
    && forall i, j :: 0 <= i < j < |after| && |before| <= j ==> after[i] != after[j]
  }

  /** The run waits for a human to let the candidate become the Peak; nothing is charged yet. */
  ghost predicate AsksAboutCandidate(c: Config, s: StateSnapshot, t: Turn, input: CandidateInput)
    requires input.Evaluated?
  {
    && CommitsAt(s, t, CandidatePendingReview, c.started + 3600 * s.iteration + 90)
    && t.next.state == ModelReviewPending && t.next.stop == None && KeepsPeak(s, t.next)
    && t.next.totalCost == s.totalCost && t.next.metadata.iterationCost == CostWith(s, input)
    && t.next.candidate == Some(input.checkpoint) && t.next.candidateScore == Some(input.score)
    && t.next.metadata.candidate.Some? && RecordsCandidate(t.next.metadata.candidate.value, input)
    && t.next.metadata.materialization == s.metadata.materialization && t.marker == None && t.refused == None
    && AsksFor(s, t, CheckpointSubject, input.checkpoint, ModelReviewRequired)
    && EvidenceRecord(input.reviewRequest) in t.req.records
    && |input.evidence| <= |t.next.evidence|
    && NamesAll(t.next.evidence[..|input.evidence|], input.evidence)
    && AddsIds(t.next.evidence[..|input.evidence|], {input.reviewRequest.id}, t.next.evidence)
  }

  lemma FactsAreRecorded(input: CandidateInput)
    requires input.Evaluated?
    ensures RecordsCandidate(FactsOf(input), input)
  {
  }

  lemma ReviewModelOutcome(
    c: Config, s: StateSnapshot, evaluate: StateSnapshot, input: CandidateInput, before: seq<Record>)
    requires input.Evaluated? && EvaluatesFrom(s, evaluate, FactsOf(input))
    requires evaluate.metadata == s.metadata.(iterationCost := CostWith(s, input), candidate := Some(FactsOf(input)))
    ensures ReviewModel(c, evaluate, FactsOf(input), input.reviewRequest, before).Commit?
    ensures AsksAboutCandidate(c, s, ReviewModel(c, evaluate, FactsOf(input), input.reviewRequest, before), input)
  {
    var f, request := FactsOf(input), input.reviewRequest;
    FactsAreRecorded(input);
    AddedIds(f.evidence, request.id, request.id);
    assert AddId(f.evidence, request.id)[..|f.evidence|] == f.evidence;
    hide FactsOf, AddId, AddsIds;
    var t := ReviewModel(c, evaluate, f, request, before);
    var d := Judge(evaluate, ModelReview, CheckpointSubject, f.checkpoint, RequestApproval, ModelReviewRequired,
                   At(c, evaluate.iteration, 90), None, AddId(f.evidence, request.id));
    assert t.req.records[|before|] == EvidenceRecord(request) && t.req.records[|before| + 1] == DecisionRecord(d);
    assert Asks(s, t.next, d, CheckpointSubject, input.checkpoint, ModelReviewRequired);
    LastRecord(t.req.records, t.next);
  }

  /** The candidate was evaluated. */
  lemma EvaluatedOutcome(c: Config, s: StateSnapshot, input: CandidateInput)
    requires input.Evaluated?
    ensures var t, f, cost := CandidateTurn(c, s, input), FactsOf(input), CostWith(s, input);
      && RecordsCandidate(f, input)
      && (t.Raise? <==> !(CanBeJudged(s, f) && 0.0 <= cost))
      && (!t.Raise? ==>
            if c.checkpointReview && VerdictOn(c, s, f.score, cost) == Promote then AsksAboutCandidate(c, s, t, input)
            else CommitsAt(s, t, CandidateTx, c.started + 3600 * s.iteration + 110)
                 && CarriesVerdict(c, s, t, f, cost, c.started + 3600 * s.iteration + 80))
  {
    hide JudgeCandidate, EvidenceRecords, CandidateRecords, PolicyTurn, ReviewModel, FactsOf, CarriesVerdict, AsksAboutCandidate, CommitsAt;
    var f, cost := FactsOf(input), CostWith(s, input);
    var m := s.metadata.(iterationCost := cost, candidate := Some(f));
    var evaluate := EvaluateSnapshot(s, f, At(c, s.iteration, 80), EvaluateStage, m);
    var before := EvidenceRecords(input.evidence) + CandidateRecords(c, s, input, evaluate);
    FactsAreRecorded(input);
    JudgedIff(c, s, evaluate, f);
    if JudgeCandidate(c, evaluate, f).Decided? {
      JudgedStep(c, s, evaluate, f);
      PolicyTurnDecides(c, s, evaluate, f, before, CandidateTx);
      ReviewModelOutcome(c, s, evaluate, input, before);
    }
  }

  /** A candidate turn. A failed execution ends the run at no charge. An evaluated candidate is put to the
      policy exactly when it was trained from the Peak and has evidence; what the policy says of its score
      and of the whole cost of the iteration is what the turn carries, unless it is a promotion a human
      is to be asked about. */
  lemma CandidateTurnOutcome(c: Config, s: StateSnapshot, input: CandidateInput)
    ensures input.ExecutionFailed? ==> AbortsAfter(c, s, CandidateTurn(c, s, input))
    ensures input.Evaluated? ==>
      (CandidateTurn(c, s, input).Raise? <==>
         !(&& s.peakScore.Some? && s.active == s.peak && input.parent == s.peak && input.parent != Some(input.checkpoint)
           && 1 <= s.iteration && input.evidence != [] && 0.0 <= CostWith(s, input)))
    ensures input.Evaluated? && !CandidateTurn(c, s, input).Raise? ==>
      var t, cost := CandidateTurn(c, s, input), CostWith(s, input);
      && t.Commit? && t.next.metadata.candidate.Some?
      && var f := t.next.metadata.candidate.value;
      && RecordsCandidate(f, input)
      && if c.checkpointReview && VerdictOn(c, s, input.score, cost) == Promote then AsksAboutCandidate(c, s, t, input)
         else CommitsAt(s, t, CandidateTx, c.started + 3600 * s.iteration + 110)
              && CarriesVerdict(c, s, t, f, cost, c.started + 3600 * s.iteration + 80)
  {
    if input.ExecutionFailed? {
      AbortAfterOutcome(c, s);
    } else {
      EvaluatedOutcome(c, s, input);
      hide CandidateTurn, FactsOf, RunDecision, AsksFor, Judges, MovesBy, VerdictOn;
    }
  }

  // ---- Reviews ----

  /** A human did not agree: the run stops, and what the iteration has cost so far is charged. */
  ghost predicate StopsForHuman(c: Config, s: StateSnapshot, t: Turn, tag: Tag, at: int, d: Decision, added: set<Id>) {
    && CommitsAt(s, t, tag, at)
    && t.next.state == Stopped && t.next.stop == Some(ApprovalNotGranted)
    && DecisionRecord(d) in t.req.records && t.next.metadata.decision == Some(d.id)
    && KeepsPeak(s, t.next) && t.next.totalCost == s.totalCost + s.metadata.iterationCost
    && t.next.candidate == s.candidate && t.next.candidateScore == s.candidateScore
    && t.next.metadata.candidate == s.metadata.candidate && t.next.metadata.materialization == s.metadata.materialization
    && AddsIds(s.evidence, added, t.next.evidence)
    && (if s.state == DataReviewPending then MarksDataset(s, t, d) else SendsToQuarantine(s, t, d))
  }

  /** The decision the controller makes itself when nobody answered in time. */
  predicate ExpiredDecision(c: Config, s: StateSnapshot, subject: Id, evidence: seq<Id>, d: Decision) {
    && d.run == s.run && d.iteration == s.iteration && d.subject == subject
    && d.subjectType == (if s.state == DataReviewPending then DatasetSubject else CheckpointSubject)
    && d.action == Action.Reject && d.reasonCode == ApprovalNotGivenCode(false) && d.stop == Some(ApprovalNotGranted)
    && d.evidence == evidence && d.createdAt == c.started + 3600 * s.iteration + 120
  }

  /** A refused dataset is marked: run, iteration and kind are the pending snapshot's, the rest is the
      decision's. */
  predicate MarksDataset(s: StateSnapshot, t: Turn, d: Decision)
    requires t.Commit?
  {
    && t.refused == None
    && t.marker == Some(QuarantineMarker(s.run, s.iteration, DatasetSubject, d.subject, d.id, t.req.tx, d.reasonCode,
                                         d.evidence, d.createdAt))
  }

  /** A refused candidate is to be materialised as one a human refused, from a snapshot that is not
      committed but otherwise the committed one. */
  predicate SendsToQuarantine(s: StateSnapshot, t: Turn, d: Decision)
    requires t.Commit?
  {
    && t.marker == None
    && (s.candidate == None ==> t.refused == None)
    && (s.candidate.Some? ==>
          && t.refused.Some? && t.refused.value.id != t.next.id
          && t.refused.value == t.next.(
               id := t.refused.value.id,
               metadata := t.next.metadata.(materialization :=
                 Some(Materialization(t.req.tx, d.id, Action.Reject, StatusRejectedByHuman, s.iteration)))))
  }

  lemma AddedIds(before: seq<Id>, a: Id, b: Id)
    ensures AddsIds(before, {a}, AddId(before, a))
    ensures AddsIds(before, {a, b}, AddId(AddId(before, a), b))
  {
  }

  lemma DeniedOutcome(c: Config, s: StateSnapshot, review: Review)
    requires review.ReviewDecided?
    ensures StopsForHuman(c, s, StopForApproval(c, s, review), ApprovalDenied, review.decidedAt, review.decision,
                          {review.request.id, review.evidence.id})
    ensures EvidenceRecord(review.evidence) in StopForApproval(c, s, review).req.records
  {
    AddedIds(s.evidence, review.request.id, review.evidence.id);
    hide AddId, AddsIds;
    var t := StopForApproval(c, s, review);
    assert t.req.records[0] == EvidenceRecord(review.evidence) && t.req.records[1] == DecisionRecord(review.decision);
    LastRecord(t.req.records, t.next);
  }

  /** The decision an expiry puts on record. */
  function DecisionMade(t: Turn): Option<Decision> {
    if t.Commit? && |t.req.records| > 1 && t.req.records[1].DecisionRecord? then Some(t.req.records[1].decision) else None
  }

  lemma ExpiryDecides(c: Config, s: StateSnapshot, review: Review)
    requires review.ReviewExpired?
    ensures var t := StopForApproval(c, s, review);
      t.Commit? && DecisionMade(t).Some? && ExpiredDecision(c, s, review.subject, t.next.evidence, DecisionMade(t).value)
  {
    hide AddId;
  }

  lemma ExpiryStops(c: Config, s: StateSnapshot, review: Review)
    requires review.ReviewExpired?
    ensures var t := StopForApproval(c, s, review);
      && DecisionMade(t).Some?
      && StopsForHuman(c, s, t, ApprovalExpired, c.started + 3600 * s.iteration + 120, DecisionMade(t).value, {review.request.id})
  {
    AddedIds(s.evidence, review.request.id, review.request.id);
    hide AddId, AddsIds;
    LastRecord(StopForApproval(c, s, review).req.records, StopForApproval(c, s, review).next);
  }

  lemma ExpiredOutcome(c: Config, s: StateSnapshot, review: Review)
    requires review.ReviewExpired?
    ensures var t := StopForApproval(c, s, review);
      exists d :: StopsForHuman(c, s, t, ApprovalExpired, c.started + 3600 * s.iteration + 120, d, {review.request.id})
                  && ExpiredDecision(c, s, review.subject, t.next.evidence, d)
  {
    hide StopsForHuman, ExpiredDecision, StopForApproval;
    ExpiryDecides(c, s, review);
    ExpiryStops(c, s, review);
  }

  /** An answer to a dataset review: nothing happens until there is one; a denial or an expiry stops the run
      and marks the dataset; an approval trains on it, at the time of the approval. */
  lemma DataReviewOutcome(c: Config, s: StateSnapshot, review: Review)
    requires s.state == DataReviewPending
    ensures review.ReviewPending? <==> DataReviewTurn(c, s, review) == Wait
    ensures review.ReviewMissing? <==> DataReviewTurn(c, s, review) == Raise
    ensures review.ReviewExpired? ==>
      var t := DataReviewTurn(c, s, review);
      exists d :: StopsForHuman(c, s, t, ApprovalExpired, c.started + 3600 * s.iteration + 120, d, {review.request.id})
                  && ExpiredDecision(c, s, review.subject, t.next.evidence, d)
    ensures review.ReviewDecided? && !review.approved ==>
      StopsForHuman(c, s, DataReviewTurn(c, s, review), ApprovalDenied, review.decidedAt, review.decision,
                    {review.request.id, review.evidence.id})
    ensures review.ReviewDecided? && review.approved ==>
      var t := DataReviewTurn(c, s, review);
      && CommitsAt(s, t, DataReviewApproved, review.decidedAt)
      && t.next.state == Train && t.next.stop == None && KeepsPeak(s, t.next) && t.next.totalCost == s.totalCost
      && t.next.metadata.iterationCost == s.metadata.iterationCost
      && t.next.metadata.decision == Some(review.decision.id) && t.next.metadata.materialization == None
      && t.next.candidate == None && t.marker == None && t.refused == None
      && AddsIds(s.evidence, {review.request.id, review.evidence.id}, t.next.evidence)
      && DecisionRecord(review.decision) in t.req.records && EvidenceRecord(review.evidence) in t.req.records
  {
    match review
    case ReviewPending =>
    case ReviewMissing =>
    case ReviewExpired(_, _) =>
      hide StopsForHuman, StopForApproval;
      ExpiredOutcome(c, s, review);
    case ReviewDecided(approved, decidedAt, request, evidence, decision) =>
      hide StopsForHuman, StopForApproval;
      DeniedOutcome(c, s, review);
      if approved { DataApprovalOutcome(c, s, review); }
  }

  lemma DataApprovalOutcome(c: Config, s: StateSnapshot, review: Review)
    requires review.ReviewDecided? && review.approved
    ensures var t := DataReviewTurn(c, s, review);
      && CommitsAt(s, t, DataReviewApproved, review.decidedAt)
      && t.next.state == Train && t.next.stop == None && KeepsPeak(s, t.next) && t.next.totalCost == s.totalCost
      && t.next.metadata.iterationCost == s.metadata.iterationCost
      && t.next.metadata.decision == Some(review.decision.id) && t.next.metadata.materialization == None
      && t.next.candidate == None && t.marker == None && t.refused == None
      && AddsIds(s.evidence, {review.request.id, review.evidence.id}, t.next.evidence)
      && DecisionRecord(review.decision) in t.req.records && EvidenceRecord(review.evidence) in t.req.records
  {
    AddedIds(s.evidence, review.request.id, review.evidence.id);
    hide AddId, AddsIds;
    var t := DataReviewTurn(c, s, review);
    assert t.req.records[0] == EvidenceRecord(review.evidence) && t.req.records[1] == DecisionRecord(review.decision);
    LastRecord(t.req.records, t.next);
  }

  /** What an approved candidate is judged by: the facts on record, again. */
  predicate IsPromotable(c: Config, s: StateSnapshot) {
    && s.metadata.candidate.Some?
    && var f := s.metadata.candidate.value;
    && CanBeJudged(s, f) && 0.0 <= s.metadata.iterationCost
    && VerdictOn(c, s, f.score, s.metadata.iterationCost) == Promote
  }

  /** An answer to a model review: a denial or an expiry stops the run and sends the candidate to quarantine;
      an approval promotes the candidate, if the policy still would, and is an error if not. */
  lemma ModelReviewOutcome(c: Config, s: StateSnapshot, review: Review)
    requires s.state == ModelReviewPending
    ensures review.ReviewPending? <==> ModelReviewTurn(c, s, review) == Wait
    ensures ModelReviewTurn(c, s, review) == Raise <==>
      review.ReviewMissing? || (review.ReviewDecided? && review.approved && !IsPromotable(c, s))
    ensures review.ReviewExpired? ==>
      var t := ModelReviewTurn(c, s, review);
      exists d :: StopsForHuman(c, s, t, ApprovalExpired, c.started + 3600 * s.iteration + 120, d, {review.request.id})
                  && ExpiredDecision(c, s, review.subject, t.next.evidence, d)
    ensures review.ReviewDecided? && !review.approved ==>
      StopsForHuman(c, s, ModelReviewTurn(c, s, review), ApprovalDenied, review.decidedAt, review.decision,
                    {review.request.id, review.evidence.id})
    ensures review.ReviewDecided? && review.approved && IsPromotable(c, s) ==>
      var t := ModelReviewTurn(c, s, review);
      && CommitsAt(s, t, ModelReviewApproved, c.started + 3600 * s.iteration + 110)
      && CarriesVerdict(c, s, t, s.metadata.candidate.value, s.metadata.iterationCost, review.decidedAt)
      && DecisionRecord(review.decision) in t.req.records && EvidenceRecord(review.evidence) in t.req.records
  {
    match review
    case ReviewPending =>
    case ReviewMissing =>
    case ReviewExpired(_, _) =>
      hide StopsForHuman, StopForApproval;
      ExpiredOutcome(c, s, review);
    case ReviewDecided(approved, decidedAt, request, evidence, decision) =>
      hide StopsForHuman, StopForApproval, CarriesVerdict, IsPromotable;
      DeniedOutcome(c, s, review);
      if approved { ModelApprovalOutcome(c, s, review); }
  }

  lemma ModelApprovalOutcome(c: Config, s: StateSnapshot, review: Review)
    requires review.ReviewDecided? && review.approved
    ensures ModelReviewTurn(c, s, review) == Raise <==> !IsPromotable(c, s)
    ensures !ModelReviewTurn(c, s, review).Wait?
    ensures IsPromotable(c, s) ==>
      var t := ModelReviewTurn(c, s, review);
      && CommitsAt(s, t, ModelReviewApproved, c.started + 3600 * s.iteration + 110)
      && CarriesVerdict(c, s, t, s.metadata.candidate.value, s.metadata.iterationCost, review.decidedAt)
      && DecisionRecord(review.decision) in t.req.records && EvidenceRecord(review.evidence) in t.req.records
  {
    hide JudgeCandidate, CarriesVerdict, PolicyTurn, CommitsAt;
    if s.metadata.candidate.Some? {
      var f := s.metadata.candidate.value;
      var evaluate := EvaluateSnapshot(s, f, review.decidedAt, EvaluateAfterApproval, s.metadata);
      var before := [EvidenceRecord(review.evidence), DecisionRecord(review.decision), SnapshotRecord(evaluate)];
      JudgedIff(c, s, evaluate, f);
      if JudgeCandidate(c, evaluate, f).Decided? {
        JudgedStep(c, s, evaluate, f);
        PolicyTurnDecides(c, s, evaluate, f, before, ModelReviewApproved);
        BeforeIsRecorded(c, evaluate, f, JudgeCandidate(c, evaluate, f).step, before, ModelReviewApproved);
      }
    }
  }

  lemma BeforeIsRecorded(c: Config, evaluate: StateSnapshot, f: CandidateFacts, step: PolicyStep, before: seq<Record>, tag: Tag)
    requires step.snapshots != [] && step.decisions != []
    ensures PolicyTurn(c, evaluate, f, step, before, tag).Commit?
    ensures forall r :: r in before ==> r in PolicyTurn(c, evaluate, f, step, before, tag).req.records
  {
    hide PolicyRecords, Materialized;
  }
}
