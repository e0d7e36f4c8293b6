/** The schema-v1 control records and the vocabulary every store shares.

    SHA-256 over canonical JSON is modelled as a free (injective) constructor: two digests
    are equal exactly when the contents are. Identifiers minted by hashing a tuple of parts
    are free constructors for the same reason. Times are whole seconds. */
module Records {

  datatype Option<+T> = None | Some(value: T)

  datatype Sha<+T> = Sha256(of: T)

  /** What a store call raises: a malformed request, an immutable id reused with other
      bytes, committed bytes that do not fit together, or a lock that is held. */
  datatype StoreError = ContractError | ConflictError | IntegrityError | LockTimeout

  datatype Result<+T> = Ok(value: T) | Err(error: StoreError)

  /** How a store call that writes ends; a crash leaves its lock behind. */
  datatype Outcome<+T> = Committed(value: T) | Failed(error: StoreError) | Crashed

  datatype IdKind = TxId | SnapshotId | DecisionId | TransitionId

  /** The last part of a minted identifier: the step that mints it. */
  datatype Tag =
    | BootstrapTx | BootstrapPromote | BootstrapPromoted | BootstrapContinue | BootstrapDiagnose | FirstDiagnose
    | HypothesisStage | SynthesizeStage | VerifyStage | TrainStage | ServeStage | EvaluateStage
    | DataTx | DatasetQuarantine | DatasetStop | DatasetReview | ReviewedTrain | DataReviewApproved
    | CandidateTx | CandidatePendingReview | ModelReview | EvaluateAfterApproval | ModelReviewApproved
    | ApprovalDenied | ApprovalExpired
    | PreCandidateAbort | CandidateExecutionAbort | MaximumBeforeSynthesis
    | PolicyPhase(target: ControlState)

  datatype Id =
    | Text(name: string)
    | Minted(kind: IdKind, run: Id, iteration: nat, tag: Tag)
    | MintedFor(kind: IdKind, run: Id, iteration: nat, tag: Tag, subject: Id)

  datatype ControlState =
    | Diagnose | Hypothesis | Synthesize | Verify | Quarantined | DataReviewPending
    | Train | Serve | Evaluate | ModelReviewPending
    | Promoted | Rejected | RolledBack | Stopped | Aborted | Completed

  datatype Action =
    Continue | RequestApproval | Accept | Promote | Reject | Quarantine | Rollback | Stop | Abort

  datatype Subject = RunSubject | DatasetSubject | CheckpointSubject | HarnessSubject

  datatype StopReason =
    | MaxIterations | Plateau | PerIterationBudgetExceeded | TotalBudgetExceeded
    | ProviderCircuitOpen | NoAcceptedData | LowAcceptance | ApprovalNotGranted
    | RegressionRollback | InternalError

  datatype ReasonCode =
    | BootstrapPeak | BootstrapComplete
    | CandidateAbovePeak | CandidateRegressed | CandidateNotAbovePeak | PolicyBudget(limit: StopReason)
    | PlateauReached | MaxIterationsReached | NextIteration
    | StopCode(stop: StopReason)
    | DatasetReviewRequired | ModelReviewRequired | ApprovalNotGivenCode(denied: bool)
    | CandidateExecutionFailed | MaximumBeforeSynthesisCode
    | OtherCode(name: string)

  datatype CheckpointStatus =
    StatusPeak | StatusRolledBack | StatusRejected | StatusAborted | StatusRejectedByHuman | StatusNone

  predicate TerminalState(s: ControlState) {
    s == Completed || s == Stopped || s == Aborted || s == RolledBack
  }

  /** The candidate half of a snapshot's metadata: enough to rebuild the training and
      evaluation results after a restart. */
  datatype CandidateFacts = CandidateFacts(
    checkpoint: Id, model: Id, parent: Option<Id>, artifact: string, score: real, evidence: seq<Id>)

  /** The keys a policy step adds to the metadata of its materialised snapshot. */
  datatype Materialization = Materialization(
    tx: Id, decision: Id, action: Action, status: CheckpointStatus, sourceIteration: nat)

  datatype Metadata = Metadata(
    decision: Option<Id>, iterationCost: real,
    candidate: Option<CandidateFacts>, materialization: Option<Materialization>)

  const EMPTY_METADATA := Metadata(None, 0.0, None, None)

  datatype StateSnapshot = StateSnapshot(
    id: Id, run: Id, iteration: nat, state: ControlState, enteredAt: int,
    active: Option<Id>, candidate: Option<Id>, peak: Option<Id>,
    candidateScore: Option<real>, peakScore: Option<real>,
    plateau: nat, totalCost: real, stop: Option<StopReason>,
    evidence: seq<Id>, metadata: Metadata)

  datatype Decision = Decision(
    id: Id, run: Id, iteration: nat, subjectType: Subject, subject: Id, action: Action,
    reasonCode: ReasonCode, evidence: seq<Id>, createdAt: int, stop: Option<StopReason>)

  datatype Transition = Transition(
    id: Id, run: Id, iteration: nat, fromState: Option<ControlState>, toState: ControlState,
    occurredAt: int, decision: Option<Id>, evidence: seq<Id>)

  datatype Evidence = Evidence(id: Id, run: Id, iteration: nat, createdAt: int, body: string)

  datatype Record =
    | EvidenceRecord(evidence: Evidence)
    | DecisionRecord(decision: Decision)
    | TransitionRecord(transition: Transition)
    | SnapshotRecord(snapshot: StateSnapshot)

  datatype RecordKind = EvidenceKind | DecisionKind | TransitionKind | SnapshotKind

  datatype Key = Key(kind: RecordKind, id: Id)

  function KeyOf(r: Record): Key {
    match r
    case EvidenceRecord(e) => Key(EvidenceKind, e.id)
    case DecisionRecord(d) => Key(DecisionKind, d.id)
    case TransitionRecord(t) => Key(TransitionKind, t.id)
    case SnapshotRecord(s) => Key(SnapshotKind, s.id)
  }

  function RunOf(r: Record): Id {
    match r
    case EvidenceRecord(e) => e.run
    case DecisionRecord(d) => d.run
    case TransitionRecord(t) => t.run
    case SnapshotRecord(s) => s.run
  }

  function IterationOf(r: Record): nat {
    match r
    case EvidenceRecord(e) => e.iteration
    case DecisionRecord(d) => d.iteration
    case TransitionRecord(t) => t.iteration
    case SnapshotRecord(s) => s.iteration
  }

  /** The evidence ids a record relies on; evidence itself relies on nothing. */
  function EvidenceIds(r: Record): seq<Id> {
    match r
    case EvidenceRecord(_) => []
    case DecisionRecord(d) => d.evidence
    case TransitionRecord(t) => t.evidence
    case SnapshotRecord(s) => s.evidence
  }

  /** The decision a transition or a snapshot names, if any. */
  function DecisionRef(r: Record): Option<Id> {
    match r
    case TransitionRecord(t) => t.decision
    case SnapshotRecord(s) => s.metadata.decision
    case _ => None
  }

  /** Numbers within the slack the source gives every budget and score comparison. */
  const EPSILON: real := 0.000000000001
}
