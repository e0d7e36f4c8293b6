/** What each turn leaves, in terms of what it was given: which way it goes, why it stops, what is
    charged, and what its decisions, its last snapshot and its marker say. */
module TurnOutcomes {
  import opened Records
  import opened QuarantineStore
  import opened Controller

  /** A turn that commits under this id at this time, and goes on from a snapshot of that time. */
  predicate CommitsAt(s: StateSnapshot, t: Turn, tag: Tag, at: int) {
    && t.Commit?
    && t.req.tx == Minted(TxId, s.run, s.iteration, tag)
    && t.req.run == s.run && t.req.iteration == s.iteration && t.req.createdAt == at && t.next.enteredAt == at
    && t.next.run == s.run && SnapshotRecord(t.next) in t.req.records
  }

  /** The accepted state is untouched. */
  predicate KeepsPeak(s: StateSnapshot, next: StateSnapshot) {
    && next.active == s.active && next.peak == s.peak && next.peakScore == s.peakScore && next.plateau == s.plateau
    && next.iteration == s.iteration
  }

  predicate NamesAll(ids: seq<Id>, evidence: seq<Evidence>) {
    |ids| == |evidence| && forall i :: 0 <= i < |ids| ==> ids[i] == evidence[i].id
  }

  /** The last snapshot names a decision of the transaction about the whole run, made for this reason. */
  ghost predicate RunDecision(s: StateSnapshot, t: Turn, action: Action, reason: ReasonCode, stop: StopReason)
    requires t.Commit?
  {
    && t.next.stop == Some(stop)
    && exists d :: DecisionRecord(d) in t.req.records && EndsRun(s, t.next, d, action, reason, stop)
  }

  predicate EndsRun(s: StateSnapshot, next: StateSnapshot, d: Decision, action: Action, reason: ReasonCode, stop: StopReason) {
    && next.metadata.decision == Some(d.id) && d.run == s.run && d.iteration == s.iteration
    && d.subjectType == RunSubject && d.subject == s.run
    && d.action == action && d.reasonCode == reason && d.stop == Some(stop)
    && d.evidence == next.evidence && d.createdAt == next.enteredAt
  }

  /** The last snapshot asks a human about this subject. */
  ghost predicate AsksFor(s: StateSnapshot, t: Turn, subjectType: Subject, subject: Id, reason: ReasonCode)
    requires t.Commit?
  {
    exists d :: DecisionRecord(d) in t.req.records && Asks(s, t.next, d, subjectType, subject, reason)
  }

  predicate Asks(s: StateSnapshot, next: StateSnapshot, d: Decision, subjectType: Subject, subject: Id, reason: ReasonCode) {
    && next.metadata.decision == Some(d.id) && d.run == s.run && d.iteration == s.iteration
    && d.subjectType == subjectType && d.subject == subject
    && d.action == RequestApproval && d.reasonCode == reason && d.stop == None
    && d.evidence == next.evidence && d.createdAt == next.enteredAt
  }

  // ---- DIAGNOSE ----

  /** The batch can be paid: within the limit of one iteration, and within what is left of the total. */
  predicate CanPay(c: Config, s: StateSnapshot, cost: real) {
    0.0 <= cost <= c.limits.perIteration + EPSILON && s.totalCost + cost <= c.limits.total + EPSILON
  }

  /** Something was accepted, and of all rows at least the share the configuration asks for. */
  predicate Enough(c: Config, accepted: nat, rejected: nat) {
    0 < accepted && c.minAcceptance * (accepted + rejected) as real <= accepted as real
  }

  lemma RateIsEnough(c: Config, accepted: nat, rejected: nat)
    ensures accepted == 0 || AcceptanceRate(accepted, rejected) < c.minAcceptance <==> !Enough(c, accepted, rejected)
  {
    if 0 < accepted { RateIsShare(AcceptanceRate(accepted, rejected), accepted, accepted + rejected, c.minAcceptance); }
  }

  lemma RateIsShare(rate: real, part: nat, whole: nat, limit: real)
    requires 0 < whole && rate == part as real / whole as real
    ensures rate < limit <==> part as real < limit * whole as real
  {
    assert rate * whole as real == part as real;
    ProductsCompare(rate, limit, whole as real);
  }

  lemma ProductsCompare(x: real, y: real, n: real)
    requires 0.0 < n
    ensures x < y <==> x * n < y * n
  {
  }

  /** Nothing is charged, no candidate is named, and the run ends ABORTED for this reason. */
  ghost predicate AbortsBefore(c: Config, s: StateSnapshot, t: Turn, begun: seq<Evidence>, stop: StopReason) {
    && CommitsAt(s, t, PreCandidateAbort, c.started + 3600 * s.iteration + 35)
    && t.next.state == Aborted && RunDecision(s, t, Abort, StopCode(stop), stop)
    && KeepsPeak(s, t.next) && t.next.totalCost == s.totalCost && NamesAll(t.next.evidence, begun)
    && t.next.candidate == None && t.next.metadata.materialization == None && t.marker == None && t.refused == None
  }

  lemma AbortBeforeOutcome(c: Config, s: StateSnapshot, evidence: seq<Evidence>, stop: StopReason)
    ensures AbortsBefore(c, s, AbortBeforeCandidate(c, s, evidence, stop), evidence, stop)
  {
    hide EvidenceRecords;
    var t, at := AbortBeforeCandidate(c, s, evidence, stop), At(c, s.iteration, 35);
    var d := Judge(s, PreCandidateAbort, RunSubject, s.run, Abort, StopCode(stop), at, Some(stop), Ids(evidence));
    assert t.req.records[|EvidenceRecords(evidence)|] == DecisionRecord(d);
    assert EndsRun(s, t.next, d, Abort, StopCode(stop), stop);
    LastRecord(t.req.records, t.next);
  }

  lemma LastRecord(records: seq<Record>, next: StateSnapshot)
    requires records != [] && records[|records| - 1] == SnapshotRecord(next)
    ensures SnapshotRecord(next) in records
  {
  }

  /** What is on file when the teacher is asked. */
  function Begun(input: DataInput): seq<Evidence> {
    [input.evidence.diagnostic, input.evidence.hypothesis]
  }

  /** A decision of the transaction puts the dataset in quarantine, and the marker to be written repeats it. */
  ghost predicate Quarantines(s: StateSnapshot, t: Turn, dataset: Id, stop: StopReason, evidence: seq<Evidence>)
    requires t.Commit?
  {
    exists q :: DecisionRecord(q) in t.req.records && QuarantinesBy(s, t, q, dataset, stop, evidence)
  }

  predicate QuarantinesBy(s: StateSnapshot, t: Turn, q: Decision, dataset: Id, stop: StopReason, evidence: seq<Evidence>)
    requires t.Commit?
  {
    && q.run == s.run && q.iteration == s.iteration && q.subjectType == DatasetSubject && q.subject == dataset
    && q.action == Action.Quarantine && q.reasonCode == StopCode(stop) && q.stop == Some(stop) && NamesAll(q.evidence, evidence)
    && t.marker == Some(QuarantineMarker(s.run, s.iteration, DatasetSubject, dataset, q.id, t.req.tx, StopCode(stop),
                                         q.evidence, q.createdAt))
  }

  predicate EightOf(e: DataEvidence, evidence: seq<Evidence>) {
    evidence == [e.diagnostic, e.hypothesis, e.synthesis, e.raw, e.audit, e.accepted, e.quarantine, e.cost]
  }

  /** The run stops, the batch is charged, and the dataset goes into quarantine. */
  ghost predicate RefusesBatch(c: Config, s: StateSnapshot, t: Turn, e: DataEvidence, dataset: Id, cost: real, stop: StopReason) {
    && CommitsAt(s, t, DataTx, c.started + 3600 * s.iteration + 51)
    && t.next.state == Stopped && RunDecision(s, t, Stop, StopCode(stop), stop)
    && KeepsPeak(s, t.next) && t.next.totalCost == s.totalCost + cost && t.next.metadata.iterationCost == cost
    && t.next.candidate == None && t.next.metadata.materialization == None && t.refused == None
    && exists evidence :: EightOf(e, evidence) && NamesAll(t.next.evidence, evidence) && Quarantines(s, t, dataset, stop, evidence)
  }

  lemma RejectQuarantines(c: Config, s: StateSnapshot, e: DataEvidence, dataset: Id, accepted: nat, cost: real)
    ensures Quarantines(s, RejectData(c, s, e, dataset, accepted, cost), dataset,
                        if accepted == 0 then NoAcceptedData else LowAcceptance, AllDataEvidence(e))
  {
    hide EvidenceRecords, StageRecords, AllDataEvidence, Ids, Ending, Snap;
    var t := RejectData(c, s, e, dataset, accepted, cost);
    var stop := if accepted == 0 then NoAcceptedData else LowAcceptance;
    var q := Judge(s, DatasetQuarantine, DatasetSubject, dataset, Quarantine, StopCode(stop), At(c, s.iteration, 50), Some(stop),
                   Ids(AllDataEvidence(e)));
    EightIds(e);
    assert t.req.records[|EvidenceRecords(AllDataEvidence(e)) + StageRecords(c, s, e, cost)|] == DecisionRecord(q);
    assert QuarantinesBy(s, t, q, dataset, stop, AllDataEvidence(e));
  }

  lemma RejectStops(c: Config, s: StateSnapshot, e: DataEvidence, dataset: Id, accepted: nat, cost: real)
    ensures var stop := if accepted == 0 then NoAcceptedData else LowAcceptance;
      RunDecision(s, RejectData(c, s, e, dataset, accepted, cost), Stop, StopCode(stop), stop)
  {
    hide EvidenceRecords, StageRecords, AllDataEvidence, Ids;
    var t := RejectData(c, s, e, dataset, accepted, cost);
    var stop := if accepted == 0 then NoAcceptedData else LowAcceptance;
    var d := Judge(s, DatasetStop, RunSubject, s.run, Stop, StopCode(stop), At(c, s.iteration, 51), Some(stop), Ids(AllDataEvidence(e)));
    assert t.req.records[|EvidenceRecords(AllDataEvidence(e)) + StageRecords(c, s, e, cost)| + 3] == DecisionRecord(d);
    assert EndsRun(s, t.next, d, Stop, StopCode(stop), stop);
  }

  lemma RejectOutcome(c: Config, s: StateSnapshot, e: DataEvidence, dataset: Id, accepted: nat, cost: real)
    ensures RefusesBatch(c, s, RejectData(c, s, e, dataset, accepted, cost), e, dataset, cost,
                         if accepted == 0 then NoAcceptedData else LowAcceptance)
  {
    hide EvidenceRecords, StageRecords, AllDataEvidence, Ids, Quarantines, RunDecision;
    var t := RejectData(c, s, e, dataset, accepted, cost);
    RejectQuarantines(c, s, e, dataset, accepted, cost);
    RejectStops(c, s, e, dataset, accepted, cost);
    EightIds(e);
    LastRecord(t.req.records, t.next);
  }

  lemma EightIds(e: DataEvidence)
    ensures EightOf(e, AllDataEvidence(e)) && NamesAll(Ids(AllDataEvidence(e)), AllDataEvidence(e))
  {
  }

  /** The run goes on to train, with the batch's cost still to be charged. */
  ghost predicate Trains(c: Config, s: StateSnapshot, t: Turn, e: DataEvidence, cost: real) {
    && CommitsAt(s, t, DataTx, c.started + 3600 * s.iteration + 50)
    && t.next.state == Train && t.next.stop == None && KeepsPeak(s, t.next) && t.next.totalCost == s.totalCost
    && t.next.metadata.iterationCost == cost && t.next.candidate == None
    && t.next.metadata.decision == None && t.next.metadata.materialization == None && t.marker == None && t.refused == None
    && exists evidence :: EightOf(e, evidence) && NamesAll(t.next.evidence, evidence)
  }

  /** The run waits for a human, with the batch's cost still to be charged. */
  ghost predicate AsksAboutBatch(c: Config, s: StateSnapshot, t: Turn, input: DataInput, dataset: Id, cost: real) {
    && CommitsAt(s, t, DataTx, c.started + 3600 * s.iteration + 50)
    && t.next.state == DataReviewPending && t.next.stop == None && KeepsPeak(s, t.next) && t.next.totalCost == s.totalCost
    && t.next.metadata.iterationCost == cost && t.next.candidate == None
    && t.next.metadata.materialization == None && t.marker == None && t.refused == None
    && AsksFor(s, t, DatasetSubject, dataset, DatasetReviewRequired)
    && t.next.evidence == [input.evidence.accepted.id, input.evidence.audit.id, input.reviewRequest.id]
    && EvidenceRecord(input.reviewRequest) in t.req.records
  }

  lemma AcceptOutcome(c: Config, s: StateSnapshot, e: DataEvidence, cost: real)
    ensures Trains(c, s, AcceptData(c, s, e, cost), e, cost)
  {
    hide EvidenceRecords, StageRecords, AllDataEvidence, Ids;
    EightIds(e);
    LastRecord(AcceptData(c, s, e, cost).req.records, AcceptData(c, s, e, cost).next);
  }

  lemma ReviewOutcome(c: Config, s: StateSnapshot, input: DataInput, dataset: Id, cost: real)
    ensures AsksAboutBatch(c, s, ReviewData(c, s, input.evidence, input.reviewRequest, dataset, cost), input, dataset, cost)
  {
    hide EvidenceRecords, StageRecords, AllDataEvidence;
    var e, request := input.evidence, input.reviewRequest;
    var t := ReviewData(c, s, e, request, dataset, cost);
    var d := Judge(s, DatasetReview, DatasetSubject, dataset, RequestApproval, DatasetReviewRequired,
                   At(c, s.iteration, 50), None, [e.accepted.id, e.audit.id, request.id]);
    var staged := |EvidenceRecords(AllDataEvidence(e)) + StageRecords(c, s, e, cost)|;
    assert t.req.records[staged] == EvidenceRecord(request) && t.req.records[staged + 1] == DecisionRecord(d);
    assert Asks(s, t.next, d, DatasetSubject, dataset, DatasetReviewRequired);
    LastRecord(t.req.records, t.next);
  }

  /** A data turn of an iteration within the maximum. What the teacher or the ledger refuses ends the run
      before a candidate, at no charge. A batch that can be paid is trained on, or put before a human first,
      exactly when enough of it was accepted; otherwise the run stops, with nothing accepted told apart
      from too little. */
  lemma DataTurnOutcome(c: Config, s: StateSnapshot, input: DataInput)
    requires s.iteration <= c.limits.maxIterations
    ensures input.teacher.CircuitOpen? ==> AbortsBefore(c, s, DataTurn(c, s, input), Begun(input), ProviderCircuitOpen)
    ensures input.teacher.TeacherFailed? ==> AbortsBefore(c, s, DataTurn(c, s, input), Begun(input), InternalError)
    ensures input.teacher.Batch? ==>
      var t, cost, accepted := DataTurn(c, s, input), input.teacher.cost, input.teacher.accepted;
      && (cost < 0.0 ==> AbortsBefore(c, s, t, Begun(input), InternalError))
      && (cost > c.limits.perIteration + EPSILON ==> AbortsBefore(c, s, t, Begun(input), PerIterationBudgetExceeded))
      && (0.0 <= cost <= c.limits.perIteration + EPSILON && s.totalCost + cost > c.limits.total + EPSILON ==>
            AbortsBefore(c, s, t, Begun(input), TotalBudgetExceeded))
      && (CanPay(c, s, cost) && Enough(c, accepted, input.teacher.rejected) ==>
            if c.datasetReview then AsksAboutBatch(c, s, t, input, input.teacher.dataset, cost)
            else Trains(c, s, t, input.evidence, cost))
      && (CanPay(c, s, cost) && !Enough(c, accepted, input.teacher.rejected) ==>
            RefusesBatch(c, s, t, input.evidence, input.teacher.dataset, cost,
                         if accepted == 0 then NoAcceptedData else LowAcceptance))
  {
    hide AbortsBefore, AsksAboutBatch, Trains, RefusesBatch, AbortBeforeCandidate, RejectData, ReviewData, AcceptData, AcceptanceRate,
      Enough;
    var e, begun := input.evidence, Begun(input);
    AbortBeforeOutcome(c, s, begun, ProviderCircuitOpen);
    AbortBeforeOutcome(c, s, begun, InternalError);
    AbortBeforeOutcome(c, s, begun, PerIterationBudgetExceeded);
    AbortBeforeOutcome(c, s, begun, TotalBudgetExceeded);
    if input.teacher.Batch? {
      var cost, accepted := input.teacher.cost, input.teacher.accepted;
      RateIsEnough(c, accepted, input.teacher.rejected);
      RejectOutcome(c, s, e, input.teacher.dataset, accepted, cost);
      ReviewOutcome(c, s, input, input.teacher.dataset, cost);
      AcceptOutcome(c, s, e, cost);
    }
  }

  /** Which way a batch that can be paid sends the run. */
  lemma BatchGoesOnIff(c: Config, s: StateSnapshot, input: DataInput)
    requires s.iteration <= c.limits.maxIterations && input.teacher.Batch? && CanPay(c, s, input.teacher.cost)
    ensures DataTurn(c, s, input).Commit?
    ensures var t, accepted, rejected := DataTurn(c, s, input), input.teacher.accepted, input.teacher.rejected;
      var enough := accepted > 0 && accepted as real >= c.minAcceptance * (accepted + rejected) as real;
      && (t.next.state == Train <==> enough && !c.datasetReview)
      && (t.next.state == DataReviewPending <==> enough && c.datasetReview)
      && (t.next.state == Stopped <==> !enough)
      && (t.next.stop == None <==> enough)
      && (t.next.stop == Some(NoAcceptedData) <==> accepted == 0)
      && (t.next.stop == Some(LowAcceptance) <==> accepted > 0 && !enough)
      && (t.marker.Some? <==> !enough)
  {
    hide DataTurn, EndsRun, AsksFor, NamesAll, EightOf;
    DataTurnOutcome(c, s, input);
  }

  /** The three stages before the verdict on the batch, with their times and what each relies on. */
  ghost predicate StageRecorded(
    c: Config, s: StateSnapshot, t: Turn, state: ControlState, offset: nat, evidence: seq<Evidence>, cost: real)
    requires t.Commit?
  {
    exists x :: SnapshotRecord(x) in t.req.records && IsStage(c, s, x, state, offset, evidence, cost)
  }

  predicate IsStage(c: Config, s: StateSnapshot, x: StateSnapshot, state: ControlState, offset: nat, evidence: seq<Evidence>, cost: real) {
    && x.state == state && x.enteredAt == c.started + 3600 * s.iteration + offset && NamesAll(x.evidence, evidence)
    && x.run == s.run && KeepsPeak(s, x) && x.totalCost == s.totalCost && x.metadata.iterationCost == cost
  }

  lemma StageAt(records: seq<Record>, staged: seq<Record>, front: seq<Record>, rest: seq<Record>, i: nat)
    requires records == front + staged + rest && i < |staged|
    ensures staged[i] in records
  {
    assert records[|front| + i] == staged[i];
  }

  /** Every batch that can be paid is on record with its three stages, whatever becomes of it. */
  lemma StagesAreRecorded(c: Config, s: StateSnapshot, input: DataInput)
    requires s.iteration <= c.limits.maxIterations && input.teacher.Batch? && CanPay(c, s, input.teacher.cost)
    ensures var t, e, cost := DataTurn(c, s, input), input.evidence, input.teacher.cost;
      && t.Commit?
      && StageRecorded(c, s, t, Hypothesis, 10, [e.diagnostic], cost)
      && StageRecorded(c, s, t, Synthesize, 20, [e.hypothesis], cost)
      && StageRecorded(c, s, t, Verify, 40, [e.synthesis, e.raw, e.cost, e.audit, e.accepted, e.quarantine], cost)
  {
    hide EvidenceRecords, AllDataEvidence, Ids, Ending, Judge, AcceptanceRate;
    var t, e, cost := DataTurn(c, s, input), input.evidence, input.teacher.cost;
    var front, staged := EvidenceRecords(AllDataEvidence(e)), StageRecords(c, s, e, cost);
    hide StageRecords;
    assert t.req.records == front + staged + t.req.records[|front + staged|..];
    StageAt(t.req.records, staged, front, t.req.records[|front + staged|..], 1);
    StageAt(t.req.records, staged, front, t.req.records[|front + staged|..], 3);
    StageAt(t.req.records, staged, front, t.req.records[|front + staged|..], 5);
    StagesAre(c, s, e, cost);
  }

  lemma StagesAre(c: Config, s: StateSnapshot, e: DataEvidence, cost: real)
    ensures var staged := StageRecords(c, s, e, cost);
      && |staged| == 6 && staged[1].SnapshotRecord? && staged[3].SnapshotRecord? && staged[5].SnapshotRecord?
      && IsStage(c, s, staged[1].snapshot, Hypothesis, 10, [e.diagnostic], cost)
      && IsStage(c, s, staged[3].snapshot, Synthesize, 20, [e.hypothesis], cost)
      && IsStage(c, s, staged[5].snapshot, Verify, 40, [e.synthesis, e.raw, e.cost, e.audit, e.accepted, e.quarantine], cost)
  {
  }

  /** A data turn past the maximum stops the run before the teacher is asked. */
  lemma NoTurnPastTheMaximum(c: Config, s: StateSnapshot, input: DataInput)
    requires s.iteration > c.limits.maxIterations
    ensures var t := DataTurn(c, s, input);
      && CommitsAt(s, t, MaximumBeforeSynthesis, c.started + 3600 * s.iteration + 5)
      && t.next.state == Stopped && RunDecision(s, t, Stop, MaximumBeforeSynthesisCode, MaxIterations)
      && KeepsPeak(s, t.next) && t.next.totalCost == s.totalCost && t.marker == None && t.refused == None
      && t.next.evidence == s.evidence
  {
    var t := DataTurn(c, s, input);
    var d := Judge(s, MaximumBeforeSynthesis, RunSubject, s.run, Stop, MaximumBeforeSynthesisCode, At(c, s.iteration, 5),
                   Some(MaxIterations), s.evidence);
    assert t.req.records[0] == DecisionRecord(d);
    assert EndsRun(s, t.next, d, Stop, MaximumBeforeSynthesisCode, MaxIterations);
    LastRecord(t.req.records, t.next);
  }
}
