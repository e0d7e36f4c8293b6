/** ConvergedRSIController: what each turn commits and which snapshot it continues from.

    Teacher, verifier, trainer, server and approver are oracles: their answers are inputs of
    a turn, and so are the evidence records the adapters write. A turn is one control
    transaction; the source chains the data turn and the candidate turn in one call. */
module Controller {
  import opened Records
  import opened ControlStore
  import opened QuarantineStore
  import opened Policy
  import Ledger = CostLedger

  datatype Config = Config(
    run: Id, started: int, limits: Limits, minAcceptance: real,
    datasetReview: bool, checkpointReview: bool,
    model: Id, initialScore: real, base: Id, baseArtifact: string)

  /** `LogicalRunClock.at`: an hour per iteration, and fixed offsets inside it. */
  function At(c: Config, iteration: nat, offset: nat): int {
    c.started + 3600 * iteration + offset
  }

  /** What a turn does: one commit, nothing because a review is pending, or an exception. After
      the commit a refused dataset gets a quarantine marker, and a candidate a human refused is
      materialised from a snapshot that is not itself committed. */
  datatype Turn =
    | Commit(req: Request, next: StateSnapshot, marker: Option<QuarantineMarker>, refused: Option<StateSnapshot>)
    | Wait
    | Raise

  // ---- Oracles ----

  datatype DataEvidence = DataEvidence(
    diagnostic: Evidence, hypothesis: Evidence, synthesis: Evidence, raw: Evidence,
    audit: Evidence, accepted: Evidence, quarantine: Evidence, cost: Evidence)

  datatype Teacher =
    | CircuitOpen
    | TeacherFailed
    | Batch(cost: real, accepted: nat, rejected: nat, dataset: Id)

  datatype DataInput = DataInput(teacher: Teacher, evidence: DataEvidence, reviewRequest: Evidence)

  datatype CandidateInput =
    | ExecutionFailed
    | Evaluated(checkpoint: Id, model: Id, parent: Option<Id>, artifact: string, score: real, cost: real,
                serving: Evidence, evidence: seq<Evidence>, reviewRequest: Evidence)

  datatype Review =
    | ReviewPending
    | ReviewMissing
    | ReviewExpired(request: Evidence, subject: Id)
    | ReviewDecided(approved: bool, decidedAt: int, request: Evidence, evidence: Evidence, decision: Decision)

  // ---- Record builders ----

  /** `_snapshot`: everything the policy carries forward comes from the base. */
  function Snap(
    base: StateSnapshot, state: ControlState, enteredAt: int, tag: Tag,
    candidate: Option<Id>, candidateScore: Option<real>, evidence: seq<Id>, metadata: Metadata): StateSnapshot
  {
    StateSnapshot(
      Minted(SnapshotId, base.run, base.iteration, tag), base.run, base.iteration, state, enteredAt,
      base.active, candidate, base.peak, candidateScore, base.peakScore, base.plateau, base.totalCost,
      None, evidence, metadata)
  }

  /** A snapshot that ends the run without a candidate decision. */
  function Ending(
    base: StateSnapshot, state: ControlState, enteredAt: int, tag: Tag, cost: real,
    stop: StopReason, evidence: seq<Id>, metadata: Metadata): StateSnapshot
  {
    Snap(base, state, enteredAt, tag, None, None, evidence, metadata)
      .(totalCost := base.totalCost + cost, stop := Some(stop))
  }

  function Move(
    base: StateSnapshot, tag: Tag, target: ControlState, from: ControlState, at: int,
    decision: Option<Id>, evidence: seq<Id>): Record
  {
    TransitionRecord(Transition(
      Minted(TransitionId, base.run, base.iteration, tag), base.run, base.iteration, Some(from), target, at,
      decision, evidence))
  }

  function Judge(
    base: StateSnapshot, tag: Tag, subjectType: Subject, subject: Id, action: Action,
    reasonCode: ReasonCode, at: int, stop: Option<StopReason>, evidence: seq<Id>): Decision
  {
    Decision(Minted(DecisionId, base.run, base.iteration, tag), base.run, base.iteration, subjectType, subject,
             action, reasonCode, evidence, at, stop)
  }

  function Ids(evidence: seq<Evidence>): seq<Id> {
    seq(|evidence|, i requires 0 <= i < |evidence| => evidence[i].id)
  }

  /** `dict.fromkeys`: an id that is already listed is not listed again. */
  function AddId(ids: seq<Id>, id: Id): seq<Id> {
    if id in ids then ids else ids + [id]
  }

  function EvidenceRecords(evidence: seq<Evidence>): seq<Record> {
    seq(|evidence|, i requires 0 <= i < |evidence| => EvidenceRecord(evidence[i]))
  }

  function DecisionRecords(ds: seq<Decision>): seq<Record> {
    seq(|ds|, i requires 0 <= i < |ds| => DecisionRecord(ds[i]))
  }

  function TransitionRecords(ts: seq<Transition>): seq<Record> {
    seq(|ts|, i requires 0 <= i < |ts| => TransitionRecord(ts[i]))
  }

  function SnapshotRecords(ss: seq<StateSnapshot>): seq<Record> {
    seq(|ss|, i requires 0 <= i < |ss| => SnapshotRecord(ss[i]))
  }

  function Tx(s: StateSnapshot, tag: Tag): Id {
    Minted(TxId, s.run, s.iteration, tag)
  }

  /** Every turn writes the snapshot it continues from last. */
  function CommitOf(
    s: StateSnapshot, tag: Tag, createdAt: int, before: seq<Record>, next: StateSnapshot): Turn
  {
    Commit(Request(Tx(s, tag), s.run, s.iteration, createdAt, before + [SnapshotRecord(next)]), next, None, None)
  }

  function MarkerFor(d: Decision, tx: Id): QuarantineMarker {
    QuarantineMarker(d.run, d.iteration, d.subjectType, d.subject, d.id, tx, d.reasonCode, d.evidence, d.createdAt)
  }

  // ---- DIAGNOSE: teacher, gate, dataset ----

  function AllDataEvidence(e: DataEvidence): seq<Evidence> {
    [e.diagnostic, e.hypothesis, e.synthesis, e.raw, e.audit, e.accepted, e.quarantine, e.cost]
  }

  function DataMetadata(cost: real): Metadata {
    EMPTY_METADATA.(iterationCost := cost)
  }

  /** `_data_stage_records`. */
  function StageRecords(c: Config, s: StateSnapshot, e: DataEvidence, cost: real): seq<Record> {
    var i, m := s.iteration, DataMetadata(cost);
    var verify := [e.synthesis.id, e.raw.id, e.cost.id, e.audit.id, e.accepted.id, e.quarantine.id];
    [ Move(s, HypothesisStage, Hypothesis, Diagnose, At(c, i, 10), None, [e.diagnostic.id]),
      SnapshotRecord(Snap(s, Hypothesis, At(c, i, 10), HypothesisStage, None, None, [e.diagnostic.id], m)),
      Move(s, SynthesizeStage, Synthesize, Hypothesis, At(c, i, 20), None, [e.hypothesis.id]),
      SnapshotRecord(Snap(s, Synthesize, At(c, i, 20), SynthesizeStage, None, None, [e.hypothesis.id], m)),
      Move(s, VerifyStage, Verify, Synthesize, At(c, i, 40), None, verify),
      SnapshotRecord(Snap(s, Verify, At(c, i, 40), VerifyStage, None, None, verify, m)) ]
  }

  /** `_abort_before_candidate`: nothing is charged. */
  function AbortBeforeCandidate(c: Config, s: StateSnapshot, evidence: seq<Evidence>, stop: StopReason): Turn {
    var at := At(c, s.iteration, 35);
    var d := Judge(s, PreCandidateAbort, RunSubject, s.run, Abort, StopCode(stop), at, Some(stop), Ids(evidence));
    var next := Ending(s, Aborted, at, PreCandidateAbort, 0.0, stop, d.evidence,
                       EMPTY_METADATA.(decision := Some(d.id)));
    CommitOf(s, PreCandidateAbort, at,
      EvidenceRecords(evidence)
      + [DecisionRecord(d), Move(s, PreCandidateAbort, Aborted, s.state, at, Some(d.id), d.evidence)],
      next)
  }

  /** `_commit_data_rejection`: the run stops, and its cost is charged. */
  function RejectData(c: Config, s: StateSnapshot, e: DataEvidence, dataset: Id, accepted: nat, cost: real): Turn {
    var stop := if accepted == 0 then NoAcceptedData else LowAcceptance;
    var evidence := Ids(AllDataEvidence(e));
    var at, later := At(c, s.iteration, 50), At(c, s.iteration, 51);
    var q := Judge(s, DatasetQuarantine, DatasetSubject, dataset, Quarantine, StopCode(stop), at, Some(stop), evidence);
    var d := Judge(s, DatasetStop, RunSubject, s.run, Stop, StopCode(stop), later, Some(stop), evidence);
    var next := Ending(s, Stopped, later, DatasetStop, cost, stop, evidence,
                       DataMetadata(cost).(decision := Some(d.id)));
    CommitOf(s, DataTx, later,
      EvidenceRecords(AllDataEvidence(e)) + StageRecords(c, s, e, cost)
      + [DecisionRecord(q), Move(s, DatasetQuarantine, Quarantined, Verify, at, Some(q.id), evidence),
         SnapshotRecord(Snap(s, Quarantined, at, DatasetQuarantine, None, None, evidence,
                             DataMetadata(cost).(decision := Some(q.id)))),
         DecisionRecord(d), Move(s, DatasetStop, Stopped, Quarantined, later, Some(d.id), evidence)],
      next).(marker := Some(MarkerFor(q, Tx(s, DataTx))))
  }

  function ReviewData(c: Config, s: StateSnapshot, e: DataEvidence, request: Evidence, dataset: Id, cost: real): Turn {
    var at := At(c, s.iteration, 50);
    var d := Judge(s, DatasetReview, DatasetSubject, dataset, RequestApproval, DatasetReviewRequired,
                   at, None, [e.accepted.id, e.audit.id, request.id]);
    var next := Snap(s, DataReviewPending, at, DatasetReview, None, None, d.evidence,
                     DataMetadata(cost).(decision := Some(d.id)));
    CommitOf(s, DataTx, at,
      EvidenceRecords(AllDataEvidence(e)) + StageRecords(c, s, e, cost)
      + [EvidenceRecord(request), DecisionRecord(d),
         Move(s, DatasetReview, DataReviewPending, Verify, at, Some(d.id), d.evidence)],
      next)
  }

  /** `_data_train_records`. */
  function TrainSnapshot(s: StateSnapshot, at: int, evidence: seq<Id>, cost: real, decision: Option<Id>): StateSnapshot {
    Snap(s, Train, at, TrainStage, None, None, evidence, DataMetadata(cost).(decision := decision))
  }

  function AcceptData(c: Config, s: StateSnapshot, e: DataEvidence, cost: real): Turn {
    var at, evidence := At(c, s.iteration, 50), Ids(AllDataEvidence(e));
    var next := TrainSnapshot(s, at, evidence, cost, None);
    CommitOf(s, DataTx, at,
      EvidenceRecords(AllDataEvidence(e)) + StageRecords(c, s, e, cost)
      + [Move(s, TrainStage, Train, Verify, at, None, evidence)],
      next)
  }

  /** `_stop_without_candidate`, behind the guard on the iteration number. */
  function StopAtMaximum(c: Config, s: StateSnapshot): Turn {
    var at, tag := At(c, s.iteration, 5), MaximumBeforeSynthesis;
    var d := Judge(s, tag, RunSubject, s.run, Stop, MaximumBeforeSynthesisCode, at, Some(MaxIterations), s.evidence);
    var next := s.(id := Minted(SnapshotId, s.run, s.iteration, tag), state := Stopped, enteredAt := at,
                   stop := Some(MaxIterations), metadata := s.metadata.(decision := Some(d.id)));
    CommitOf(s, tag, at,
      [DecisionRecord(d), Move(s, tag, Stopped, s.state, at, Some(d.id), s.evidence)], next)
  }

  function AcceptanceRate(accepted: nat, rejected: nat): real {
    if accepted + rejected == 0 then 0.0 else accepted as real / (accepted + rejected) as real
  }

  /** `_run_iteration` up to its commit. The ledger is fresh, opened at the run total. */
  function DataTurn(c: Config, s: StateSnapshot, input: DataInput): Turn {
    var e := input.evidence;
    var begun := [e.diagnostic, e.hypothesis];
    if s.iteration > c.limits.maxIterations then StopAtMaximum(c, s)
    else match input.teacher
      case CircuitOpen => AbortBeforeCandidate(c, s, begun, ProviderCircuitOpen)
      case TeacherFailed => AbortBeforeCandidate(c, s, begun, InternalError)
      case Batch(cost, accepted, rejected, dataset) =>
        match Ledger.Guard(c.limits, 0.0, s.totalCost, cost)
        case NegativeAmount => AbortBeforeCandidate(c, s, begun, InternalError)
        case IterationBudget => AbortBeforeCandidate(c, s, begun, PerIterationBudgetExceeded)
        case TotalBudget => AbortBeforeCandidate(c, s, begun, TotalBudgetExceeded)
        case Charged =>
          if accepted == 0 || AcceptanceRate(accepted, rejected) < c.minAcceptance then
            RejectData(c, s, e, dataset, accepted, cost)
          else if c.datasetReview then ReviewData(c, s, e, input.reviewRequest, dataset, cost)
          else AcceptData(c, s, e, cost)
  }

  // ---- TRAIN: candidate, policy ----

  /** `_abort_after_data`: the iteration's cost is not added to the total. */
  function AbortAfterData(c: Config, s: StateSnapshot): Turn {
    var at := At(c, s.iteration, 75);
    var d := Judge(s, CandidateExecutionAbort, RunSubject, s.run, Abort, CandidateExecutionFailed, at,
                   Some(InternalError), s.evidence);
    var next := Ending(s, Aborted, at, CandidateExecutionAbort, 0.0, InternalError, s.evidence,
                       s.metadata.(decision := Some(d.id)));
    CommitOf(s, CandidateExecutionAbort, at,
      [DecisionRecord(d), Move(s, CandidateExecutionAbort, Aborted, s.state, at, Some(d.id), s.evidence)],
      next)
  }

  /** `_checkpoint_status`. */
  function StatusOf(action: Action): CheckpointStatus {
    match action
    case Promote => StatusPeak
    case Rollback => StatusRolledBack
    case Reject => StatusRejected
    case Abort => StatusAborted
    case _ => StatusNone
  }

  function FactsOf(input: CandidateInput): CandidateFacts
    requires input.Evaluated?
  {
    CandidateFacts(input.checkpoint, input.model, input.parent, input.artifact, input.score, Ids(input.evidence))
  }

  /** The observation handed to the policy, if it can be constructed at all. */
  function Observe(f: CandidateFacts, iteration: nat, cost: real, at: int): Option<Observation> {
    var o := ObservationFields(f.checkpoint, f.parent, iteration, f.score, cost, at, f.evidence);
    if o.parent != Some(o.checkpoint) && 1 <= o.iteration && 0.0 <= o.cost && o.evidence != [] then Some(o) else None
  }

  function JudgeCandidate(c: Config, evaluate: StateSnapshot, f: CandidateFacts): Verdict {
    var o := Observe(f, evaluate.iteration, evaluate.metadata.iterationCost, evaluate.enteredAt);
    if o.None? then InvariantError else EvaluateCandidate(c.limits, evaluate, o.value)
  }

  function EvaluateSnapshot(s: StateSnapshot, f: CandidateFacts, at: int, tag: Tag, m: Metadata): StateSnapshot {
    Snap(s, Evaluate, at, tag, Some(f.checkpoint), Some(f.score), f.evidence, m)
  }

  /** The snapshot `_commit_policy_step` adds to the policy's own: the final one, moved to a
      fixed offset and carrying what is needed to materialise the checkpoint. */
  function Materialized(c: Config, evaluate: StateSnapshot, f: CandidateFacts, step: PolicyStep, tag: Tag): StateSnapshot
    requires step.snapshots != [] && step.decisions != []
  {
    var final, primary := FinalOf(step), step.decisions[0];
    final.(
      id := MintedFor(SnapshotId, evaluate.run, evaluate.iteration, tag, f.checkpoint),
      enteredAt := At(c, evaluate.iteration, 110),
      metadata := evaluate.metadata.(
        decision := final.metadata.decision,
        candidate := Some(f),
        materialization := Some(Materialization(
          Tx(evaluate, tag), primary.id, primary.action, StatusOf(primary.action), evaluate.iteration))))
  }

  function PolicyRecords(step: PolicyStep): seq<Record> {
    DecisionRecords(step.decisions) + TransitionRecords(step.transitions) + SnapshotRecords(step.snapshots)
  }

  /** `_commit_policy_step` up to its commit. */
  function PolicyTurn(
    c: Config, evaluate: StateSnapshot, f: CandidateFacts, step: PolicyStep,
    before: seq<Record>, tag: Tag): Turn
    requires step.snapshots != [] && step.decisions != []
  {
    var next := Materialized(c, evaluate, f, step, tag);
    CommitOf(evaluate, tag, next.enteredAt, before + PolicyRecords(step), next)
  }

  function CandidateRecords(c: Config, s: StateSnapshot, input: CandidateInput, evaluate: StateSnapshot): seq<Record>
    requires input.Evaluated?
  {
    var i, ids := s.iteration, Ids(input.evidence);
    [ Move(s, ServeStage, Serve, Train, At(c, i, 70), None, [input.serving.id]),
      SnapshotRecord(Snap(s, Serve, At(c, i, 70), ServeStage, Some(input.checkpoint), None, [input.serving.id], s.metadata)),
      Move(s, EvaluateStage, Evaluate, Serve, At(c, i, 80), None, ids),
      SnapshotRecord(evaluate) ]
  }

  function ReviewModel(c: Config, evaluate: StateSnapshot, f: CandidateFacts, request: Evidence, before: seq<Record>): Turn {
    var at := At(c, evaluate.iteration, 90);
    var d := Judge(evaluate, ModelReview, CheckpointSubject, f.checkpoint, RequestApproval,
                   ModelReviewRequired, at, None, AddId(f.evidence, request.id));
    var next := Snap(evaluate, ModelReviewPending, at, ModelReview, Some(f.checkpoint), Some(f.score),
                     d.evidence, evaluate.metadata.(decision := Some(d.id)));
    CommitOf(evaluate, CandidatePendingReview, at,
      before + [EvidenceRecord(request), DecisionRecord(d),
                Move(evaluate, ModelReview, ModelReviewPending, Evaluate, at, Some(d.id), d.evidence)],
      next)
  }

  /** `_train_evaluate_decide` up to its commit. */
  function CandidateTurn(c: Config, s: StateSnapshot, input: CandidateInput): Turn {
    if input.ExecutionFailed? then AbortAfterData(c, s)
    else
      var f := FactsOf(input);
      var m := s.metadata.(iterationCost := s.metadata.iterationCost + input.cost, candidate := Some(f));
      var evaluate := EvaluateSnapshot(s, f, At(c, s.iteration, 80), EvaluateStage, m);
      var verdict := JudgeCandidate(c, evaluate, f);
      if verdict.InvariantError? || verdict.step.decisions == [] || verdict.step.snapshots == [] then Raise
      else
        var before := EvidenceRecords(input.evidence) + CandidateRecords(c, s, input, evaluate);
        if verdict.step.decisions[0].action == Promote && c.checkpointReview then
          ReviewModel(c, evaluate, f, input.reviewRequest, before)
        else
          PolicyTurn(c, evaluate, f, verdict.step, before, CandidateTx)
  }

  // ---- Reviews ----

  function RefusedByHuman(stopped: StateSnapshot, tag: Tag, tx: Id, d: Decision): StateSnapshot {
    stopped.(
      id := MintedFor(SnapshotId, stopped.run, stopped.iteration, tag, stopped.id),
      metadata := stopped.metadata.(materialization :=
        Some(Materialization(tx, d.id, Action.Reject, StatusRejectedByHuman, stopped.iteration))))
  }

  /** Run, iteration and kind are the pending snapshot's; the rest is the decision's. */
  function DatasetMarker(pending: StateSnapshot, d: Decision, tx: Id): QuarantineMarker {
    MarkerFor(d, tx).(run := pending.run, iteration := pending.iteration, subjectType := DatasetSubject)
  }

  /** `_stop_for_approval_failure`: denied, or expired before the controller resumed. */
  function StopForApproval(c: Config, pending: StateSnapshot, review: Review): Turn
    requires review.ReviewDecided? || review.ReviewExpired?
  {
    var dataset := pending.state == DataReviewPending;
    var tag := if review.ReviewDecided? then ApprovalDenied else ApprovalExpired;
    var at := if review.ReviewDecided? then review.decidedAt else At(c, pending.iteration, 120);
    var asked := AddId(pending.evidence, review.request.id);
    var evidence := if review.ReviewDecided? then AddId(asked, review.evidence.id) else asked;
    var d :=
      if review.ReviewDecided? then review.decision
      else Judge(pending, tag, if dataset then DatasetSubject else CheckpointSubject, review.subject,
                 Action.Reject, ApprovalNotGivenCode(false), at, Some(ApprovalNotGranted), evidence);
    var next := Ending(pending, Stopped, at, tag, pending.metadata.iterationCost,
                       ApprovalNotGranted, evidence, pending.metadata.(decision := Some(d.id)))
      .(candidate := pending.candidate, candidateScore := pending.candidateScore);
    CommitOf(pending, tag, at,
      [if review.ReviewDecided? then EvidenceRecord(review.evidence) else EvidenceRecord(review.request),
       DecisionRecord(d), Move(pending, tag, Stopped, pending.state, at, Some(d.id), evidence)],
      next).(marker := if dataset then Some(DatasetMarker(pending, d, Tx(pending, tag))) else None,
             refused := if dataset || pending.candidate.None? then None else Some(RefusedByHuman(next, tag, Tx(pending, tag), d)))
  }

  /** `_resume_data_review` up to its commit. */
  function DataReviewTurn(c: Config, pending: StateSnapshot, review: Review): Turn {
    match review
    case ReviewPending => Wait
    case ReviewMissing => Raise
    case ReviewExpired(_, _) => StopForApproval(c, pending, review)
    case ReviewDecided(approved, decidedAt, request, evidence, decision) =>
      if !approved then StopForApproval(c, pending, review)
      else
        var ids := AddId(AddId(pending.evidence, request.id), evidence.id);
        var next := TrainSnapshot(pending, decidedAt, ids, pending.metadata.iterationCost, Some(decision.id));
        CommitOf(pending, DataReviewApproved, decidedAt,
          [EvidenceRecord(evidence), DecisionRecord(decision),
           Move(pending, ReviewedTrain, Train, DataReviewPending, decidedAt, Some(decision.id), ids)],
          next)
  }

  /** `_resume_model_review` up to its commit: the policy judges again, and must promote. */
  function ModelReviewTurn(c: Config, pending: StateSnapshot, review: Review): Turn {
    match review
    case ReviewPending => Wait
    case ReviewMissing => Raise
    case ReviewExpired(_, _) => StopForApproval(c, pending, review)
    case ReviewDecided(approved, decidedAt, request, evidence, decision) =>
      if !approved then StopForApproval(c, pending, review)
      else if pending.metadata.candidate.None? then Raise
      else
        var f := pending.metadata.candidate.value;
        var evaluate := EvaluateSnapshot(pending, f, decidedAt, EvaluateAfterApproval, pending.metadata);
        var verdict := JudgeCandidate(c, evaluate, f);
        if verdict.InvariantError? || verdict.step.decisions == [] || verdict.step.snapshots == []
          || verdict.step.decisions[0].action != Promote then Raise
        else
          PolicyTurn(c, evaluate, f, verdict.step,
            [EvidenceRecord(evidence), DecisionRecord(decision), SnapshotRecord(evaluate)], ModelReviewApproved)
  }
}
