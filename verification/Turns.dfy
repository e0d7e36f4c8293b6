/** What any turn of a review-free run guarantees about the state it leaves behind. */
module Turns {
  import opened Records
  import opened ControlStore
  import opened QuarantineStore
  import opened Policy
  import opened Controller

  predicate ReviewFree(c: Config) {
    !c.datasetReview && !c.checkpointReview
  }

  predicate WithinBudget(c: Config, total: real) {
    total <= c.limits.total + EPSILON
  }

  /** A snapshot the run can stand at between two transactions. */
  predicate Standing(c: Config, s: StateSnapshot) {
    && s.run == c.run
    && 1 <= s.iteration <= c.limits.maxIterations
    && s.active == s.peak && s.peak.Some? && s.peakScore.Some?
    && (s.state != Aborted ==> WithinBudget(c, s.totalCost))
    && (match s.state
        case Diagnose => s.enteredAt < At(c, s.iteration, 10)
        case Train => s.enteredAt == At(c, s.iteration, 50) && 0.0 <= s.metadata.iterationCost
          && s.metadata.decision.None? && s.metadata.materialization.None?
        case Stopped => true
        case Aborted => true
        case RolledBack => true
        case _ => false)
  }

  /** What an iteration has cost once its last snapshot is written. A training snapshot has
      not been charged yet, and an abort before a candidate is decided never is. */
  function ChargedBy(s: StateSnapshot): real {
    if s.state == Train || (s.state == Aborted && s.metadata.materialization.None?) then 0.0
    else s.metadata.iterationCost
  }

  /** All snapshots of a record list were entered before t. */
  ghost predicate Before(records: seq<Record>, t: int) {
    forall r :: r in records && r.SnapshotRecord? ==> r.snapshot.enteredAt < t
  }

  /** No decision of the list is about a checkpoint. */
  ghost predicate NoVerdict(records: seq<Record>) {
    forall r :: r in records && r.DecisionRecord? ==> r.decision.subjectType != CheckpointSubject
  }

  predicate IsVerdict(a: Action) {
    a == Promote || a == Action.Reject || a == Rollback || a == Abort
  }

  /** The snapshot carries a decided candidate to be materialised, and the accepted state
      is what that decision makes of it. */
  predicate Decides(s: StateSnapshot, next: StateSnapshot, tx: Id) {
    && next.metadata.candidate.Some? && next.metadata.materialization.Some?
    && var f, m := next.metadata.candidate.value, next.metadata.materialization.value;
    && m.tx == tx && m.sourceIteration == s.iteration && IsVerdict(m.action)
    && f.parent == s.peak && f.parent != Some(f.checkpoint)
    && next.peak == (if m.action == Promote then Some(f.checkpoint) else s.peak)
    && next.peakScore == (if m.action == Promote then Some(f.score) else s.peakScore)
    && (m.action == Promote ==> s.peakScore.Some? && s.peakScore.value < f.score)
  }

  predicate IsDecisionOf(d: Decision, next: StateSnapshot)
    requires next.metadata.candidate.Some? && next.metadata.materialization.Some?
  {
    var f, m := next.metadata.candidate.value, next.metadata.materialization.value;
    && d.id == m.decision && d.run == next.run && d.iteration == m.sourceIteration
    && d.subjectType == CheckpointSubject && d.subject == f.checkpoint && d.action == m.action
  }

  ghost predicate OneVerdict(records: seq<Record>, next: StateSnapshot)
    requires next.metadata.candidate.Some? && next.metadata.materialization.Some?
  {
    && (exists d :: DecisionRecord(d) in records && IsDecisionOf(d, next))
    && forall r :: r in records && r.DecisionRecord? && r.decision.subjectType == CheckpointSubject ==> IsDecisionOf(r.decision, next)
  }

  /** The accepted state, the clock and the budget after a turn. */
  predicate Advances(c: Config, s: StateSnapshot, next: StateSnapshot) {
    && Standing(c, next)
    && s.enteredAt < next.enteredAt && s.iteration <= next.iteration
    && next.totalCost == s.totalCost + ChargedBy(next)
  }

  /** What a transaction writes before its last record, the snapshot the run goes on from. */
  ghost predicate Writes(before: seq<Record>, s: StateSnapshot, req: Request, next: StateSnapshot) {
    && req.run == s.run && req.iteration == s.iteration
    && req.records == before + [SnapshotRecord(next)]
    && Before(before, next.enteredAt)
    && if next.metadata.materialization.None? then
         next.peak == s.peak && next.peakScore == s.peakScore && NoVerdict(before)
       else
         Decides(s, next, req.tx) && OneVerdict(before, next)
  }

  /** Where in its iteration a run stands, and the earliest place its transactions start from. */
  function Place(s: ControlState): nat {
    match s
    case Diagnose => 0
    case DataReviewPending => 1
    case Train => 2
    case ModelReviewPending => 3
    case _ => 4
  }

  function PlaceOfTx(tag: Tag): nat {
    match tag
    case DataTx => 0
    case PreCandidateAbort => 0
    case MaximumBeforeSynthesis => 0
    case DataReviewApproved => 1
    case CandidateTx => 2
    case CandidatePendingReview => 2
    case CandidateExecutionAbort => 2
    case _ => 3
  }

  /** A transaction's id names its iteration and a place the run has reached and then leaves. */
  predicate NextTx(s: StateSnapshot, tx: Id, next: StateSnapshot) {
    && tx.Minted? && tx.run == s.run && tx.iteration == s.iteration
    && Place(s.state) <= PlaceOfTx(tx.tag)
    && (s.iteration < next.iteration || (s.iteration == next.iteration && PlaceOfTx(tx.tag) < Place(next.state)))
  }

  ghost predicate GoodTurn(c: Config, s: StateSnapshot, t: Turn) {
    && t.Commit? && t.refused.None?
    && Advances(c, s, t.next) && NextTx(s, t.req.tx, t.next)
    && (exists before :: Writes(before, s, t.req, t.next))
    && (t.marker.Some? ==> t.next.metadata.materialization.None? && t.next.state == Stopped && GoodMarker(t.req, t.marker.value))
  }

  /** The marker of a refused dataset points at a quarantine decision of the transaction. */
  ghost predicate GoodMarker(req: Request, m: QuarantineMarker) {
    && m.subjectType == DatasetSubject && m.run == req.run && m.iteration == req.iteration && m.tx == req.tx
    && exists d :: DecisionRecord(d) in req.records && d.id == m.decision && DecisionFitsMarker(d, m)
  }

  // ---- Record lists ----

  /** No snapshot as late as t, and no decision about a checkpoint. */
  ghost predicate Plain(records: seq<Record>, t: int) {
    Before(records, t) && NoVerdict(records)
  }

  lemma PlainJoins(a: seq<Record>, b: seq<Record>, t: int)
    requires Plain(a, t) && Plain(b, t)
    ensures Plain(a + b, t)
  {
  }

  lemma EvidenceIsPlain(evidence: seq<Evidence>, t: int)
    ensures Plain(EvidenceRecords(evidence), t)
  {
  }

  lemma RunDecisionIsPlain(d: Decision, m: Record, t: int)
    requires d.subjectType != CheckpointSubject && m.TransitionRecord?
    ensures Plain([DecisionRecord(d), m], t)
  {
  }

  lemma StagesArePlain(c: Config, s: StateSnapshot, e: DataEvidence, cost: real)
    ensures Plain(StageRecords(c, s, e, cost), At(c, s.iteration, 50))
  {
  }

  // ---- Data turns ----

  /** The snapshot a turn goes on from is its last record, later than its other snapshots, and
      none of its decisions is about a checkpoint. */
  ghost predicate EndsPlainly(t: Turn)
    requires t.Commit?
  {
    exists before :: t.req.records == before + [SnapshotRecord(t.next)] && Plain(before, t.next.enteredAt)
  }

  lemma PlainEnding(s: StateSnapshot, tag: Tag, at: int, before: seq<Record>, next: StateSnapshot)
    requires Plain(before, next.enteredAt)
    ensures EndsPlainly(CommitOf(s, tag, at, before, next))
  {
    hide Plain;
    assert CommitOf(s, tag, at, before, next).req.records == before + [SnapshotRecord(next)];
  }

  lemma EndsPlainlyWrites(s: StateSnapshot, t: Turn)
    requires t.Commit? && EndsPlainly(t) && t.next.metadata.materialization.None?
    requires t.next.peak == s.peak && t.next.peakScore == s.peakScore && t.req.run == s.run && t.req.iteration == s.iteration
    ensures exists before :: Writes(before, s, t.req, t.next)
  {
    var before :| t.req.records == before + [SnapshotRecord(t.next)] && Plain(before, t.next.enteredAt);
    assert Writes(before, s, t.req, t.next);
  }

  lemma AbortEndsPlainly(c: Config, s: StateSnapshot, evidence: seq<Evidence>, stop: StopReason)
    ensures EndsPlainly(AbortBeforeCandidate(c, s, evidence, stop))
  {
    hide EvidenceRecords, Ids, Plain, EndsPlainly;
    var t, at := AbortBeforeCandidate(c, s, evidence, stop), At(c, s.iteration, 35);
    var d := Judge(s, PreCandidateAbort, RunSubject, s.run, Abort, StopCode(stop), at, Some(stop), Ids(evidence));
    var tail := [DecisionRecord(d), Move(s, PreCandidateAbort, Aborted, s.state, at, Some(d.id), d.evidence)];
    EvidenceIsPlain(evidence, at);
    RunDecisionIsPlain(d, tail[1], at);
    PlainJoins(EvidenceRecords(evidence), tail, at);
    PlainEnding(s, PreCandidateAbort, at, EvidenceRecords(evidence) + tail, t.next);
  }

  lemma AbortIsGood(c: Config, s: StateSnapshot, evidence: seq<Evidence>, stop: StopReason)
    requires Standing(c, s) && s.state == Diagnose
    ensures GoodTurn(c, s, AbortBeforeCandidate(c, s, evidence, stop))
  {
    hide EvidenceRecords, Ids, Plain, Writes, EndsPlainly;
    AbortEndsPlainly(c, s, evidence, stop);
    EndsPlainlyWrites(s, AbortBeforeCandidate(c, s, evidence, stop));
  }

  lemma AcceptEndsPlainly(c: Config, s: StateSnapshot, e: DataEvidence, cost: real)
    ensures EndsPlainly(AcceptData(c, s, e, cost))
  {
    hide EvidenceRecords, StageRecords, AllDataEvidence, Ids, Plain, EndsPlainly;
    var t, at, evidence := AcceptData(c, s, e, cost), At(c, s.iteration, 50), Ids(AllDataEvidence(e));
    var staged := EvidenceRecords(AllDataEvidence(e)) + StageRecords(c, s, e, cost);
    var tail := [Move(s, TrainStage, Train, Verify, at, None, evidence)];
    EvidenceIsPlain(AllDataEvidence(e), at);
    StagesArePlain(c, s, e, cost);
    PlainJoins(EvidenceRecords(AllDataEvidence(e)), StageRecords(c, s, e, cost), at);
    TransitionIsPlain(tail[0], at);
    PlainJoins(staged, tail, at);
    PlainEnding(s, DataTx, at, staged + tail, t.next);
  }

  lemma AcceptIsGood(c: Config, s: StateSnapshot, e: DataEvidence, cost: real)
    requires Standing(c, s) && s.state == Diagnose && 0.0 <= cost
    ensures GoodTurn(c, s, AcceptData(c, s, e, cost)) && AcceptData(c, s, e, cost).next.state == Train
  {
    hide EvidenceRecords, StageRecords, AllDataEvidence, Ids, Plain, Writes, EndsPlainly;
    AcceptEndsPlainly(c, s, e, cost);
    EndsPlainlyWrites(s, AcceptData(c, s, e, cost));
  }

  lemma TransitionIsPlain(m: Record, t: int)
    requires m.TransitionRecord?
    ensures Plain([m], t)
  {
  }

  lemma PlainLater(records: seq<Record>, t: int, u: int)
    requires Plain(records, t) && t <= u
    ensures Plain(records, u)
  {
  }

  /** The records of a refused dataset between its stages and the final snapshot. */
  lemma RefusalIsPlain(q: Decision, m: Record, s: StateSnapshot, d: Decision, n: Record, t: int)
    requires q.subjectType != CheckpointSubject && m.TransitionRecord? && s.enteredAt < t
    requires d.subjectType != CheckpointSubject && n.TransitionRecord?
    ensures Plain([DecisionRecord(q), m, SnapshotRecord(s), DecisionRecord(d), n], t)
  {
  }

  lemma RejectEndsPlainly(c: Config, s: StateSnapshot, e: DataEvidence, dataset: Id, accepted: nat, cost: real)
    ensures EndsPlainly(RejectData(c, s, e, dataset, accepted, cost))
    ensures var t := RejectData(c, s, e, dataset, accepted, cost); t.marker.Some? && GoodMarker(t.req, t.marker.value)
  {
    hide EvidenceRecords, StageRecords, AllDataEvidence, Ids, Plain, EndsPlainly, GoodMarker;
    var t := RejectData(c, s, e, dataset, accepted, cost);
    var stop := if accepted == 0 then NoAcceptedData else LowAcceptance;
    var evidence := Ids(AllDataEvidence(e));
    var at, later := At(c, s.iteration, 50), At(c, s.iteration, 51);
    var q := Judge(s, DatasetQuarantine, DatasetSubject, dataset, Quarantine, StopCode(stop), at, Some(stop), evidence);
    var d := Judge(s, DatasetStop, RunSubject, s.run, Stop, StopCode(stop), later, Some(stop), evidence);
    var quarantined := Snap(s, Quarantined, at, DatasetQuarantine, None, None, evidence,
                            DataMetadata(cost).(decision := Some(q.id)));
    var moved := Move(s, DatasetQuarantine, Quarantined, Verify, at, Some(q.id), evidence);
    var stopped := Move(s, DatasetStop, Stopped, Quarantined, later, Some(d.id), evidence);
    var staged := EvidenceRecords(AllDataEvidence(e)) + StageRecords(c, s, e, cost);
    var tail := [DecisionRecord(q), moved, SnapshotRecord(quarantined), DecisionRecord(d), stopped];
    EvidenceIsPlain(AllDataEvidence(e), later);
    StagesArePlain(c, s, e, cost);
    PlainLater(StageRecords(c, s, e, cost), at, later);
    PlainJoins(EvidenceRecords(AllDataEvidence(e)), StageRecords(c, s, e, cost), later);
    RefusalIsPlain(q, moved, quarantined, d, stopped, later);
    PlainJoins(staged, tail, later);
    PlainEnding(s, DataTx, later, staged + tail, t.next);
    assert t.req.records == staged + tail + [SnapshotRecord(t.next)];
    MarkerIsGood(t.req, staged, tail, t.next, q);
    assert t == CommitOf(s, DataTx, later, staged + tail, t.next).(marker := t.marker);
    MarkersAside(t, CommitOf(s, DataTx, later, staged + tail, t.next));
  }

  lemma MarkersAside(t: Turn, u: Turn)
    requires t.Commit? && u.Commit? && t.req == u.req && t.next == u.next
    ensures EndsPlainly(t) <==> EndsPlainly(u)
  {
  }

  lemma RejectIsGood(c: Config, s: StateSnapshot, e: DataEvidence, dataset: Id, accepted: nat, cost: real)
    requires Standing(c, s) && s.state == Diagnose && WithinBudget(c, s.totalCost + cost)
    ensures GoodTurn(c, s, RejectData(c, s, e, dataset, accepted, cost))
    ensures RejectData(c, s, e, dataset, accepted, cost).next.state == Stopped
  {
    hide EvidenceRecords, StageRecords, AllDataEvidence, Ids, Plain, Writes, EndsPlainly, GoodMarker;
    RejectEndsPlainly(c, s, e, dataset, accepted, cost);
    EndsPlainlyWrites(s, RejectData(c, s, e, dataset, accepted, cost));
  }

  lemma MarkerIsGood(req: Request, staged: seq<Record>, tail: seq<Record>, next: StateSnapshot, q: Decision)
    requires req.records == staged + tail + [SnapshotRecord(next)] && tail != [] && tail[0] == DecisionRecord(q)
    requires q.run == req.run && q.iteration == req.iteration && q.subjectType == DatasetSubject
    requires q.action == Action.Quarantine
    ensures GoodMarker(req, MarkerFor(q, req.tx))
  {
    assert req.records[|staged|] == DecisionRecord(q);
    assert DecisionFitsMarker(q, MarkerFor(q, req.tx));
  }

  /** Every data turn of a review-free run is good. */
  lemma DataTurnIsGood(c: Config, s: StateSnapshot, input: DataInput)
    requires ReviewFree(c) && Standing(c, s) && s.state == Diagnose
    ensures GoodTurn(c, s, DataTurn(c, s, input))
  {
    hide GoodTurn, EvidenceRecords, StageRecords, AllDataEvidence, Ids, CommitOf;
    var e := input.evidence;
    var begun := [e.diagnostic, e.hypothesis];
    match input.teacher
    case CircuitOpen => AbortIsGood(c, s, begun, ProviderCircuitOpen);
    case TeacherFailed => AbortIsGood(c, s, begun, InternalError);
    case Batch(cost, accepted, rejected, dataset) =>
      match Ledger.Guard(c.limits, 0.0, s.totalCost, cost)
      case NegativeAmount => AbortIsGood(c, s, begun, InternalError);
      case IterationBudget => AbortIsGood(c, s, begun, PerIterationBudgetExceeded);
      case TotalBudget => AbortIsGood(c, s, begun, TotalBudgetExceeded);
      case Charged =>
        RejectIsGood(c, s, e, dataset, accepted, cost);
        AcceptIsGood(c, s, e, cost);
  }

  // ---- Candidate turns ----

  lemma AbortAfterEndsPlainly(c: Config, s: StateSnapshot)
    ensures EndsPlainly(AbortAfterData(c, s))
  {
    hide Plain, EndsPlainly;
    var t, at := AbortAfterData(c, s), At(c, s.iteration, 75);
    var d := Judge(s, CandidateExecutionAbort, RunSubject, s.run, Abort, CandidateExecutionFailed, at,
                   Some(InternalError), s.evidence);
    var tail := [DecisionRecord(d), Move(s, CandidateExecutionAbort, Aborted, s.state, at, Some(d.id), s.evidence)];
    RunDecisionIsPlain(d, tail[1], at);
    PlainEnding(s, CandidateExecutionAbort, at, tail, t.next);
  }

  lemma AbortAfterDataIsGood(c: Config, s: StateSnapshot)
    requires Standing(c, s) && s.state == Train
    ensures GoodTurn(c, s, AbortAfterData(c, s))
  {
    hide Plain, Writes, EndsPlainly;
    AbortAfterEndsPlainly(c, s);
    EndsPlainlyWrites(s, AbortAfterData(c, s));
  }

  lemma PolicyRecordsBefore(step: PolicyStep, o: Observation, t: int)
    requires SoundStep(step, o) && o.evaluatedAt < t
    ensures Before(PolicyRecords(step), t)
  {
    hide Paired, TerminalHasReason;
    forall r | r in PolicyRecords(step) && r.SnapshotRecord? ensures r.snapshot.enteredAt < t {
      var i :| 0 <= i < |step.snapshots| && step.snapshots[i] == r.snapshot;
    }
  }

  /** The first decision of a step is about the candidate; the others are about the run. */
  predicate LeadsWithVerdict(step: PolicyStep, run: Id, iteration: nat, checkpoint: Id, action: Action) {
    && step.decisions != []
    && var d := step.decisions[0];
    && d.run == run && d.iteration == iteration && d.subjectType == CheckpointSubject && d.subject == checkpoint
    && d.action == action
    && forall i :: 0 < i < |step.decisions| ==> step.decisions[i].subjectType == RunSubject
  }

  lemma PolicyVerdict(before: seq<Record>, step: PolicyStep, next: StateSnapshot)
    requires next.metadata.candidate.Some? && next.metadata.materialization.Some?
    requires NoVerdict(before) && step.decisions != []
    requires var f, m := next.metadata.candidate.value, next.metadata.materialization.value;
      && LeadsWithVerdict(step, next.run, m.sourceIteration, f.checkpoint, m.action)
      && m.decision == step.decisions[0].id
    ensures OneVerdict(before + PolicyRecords(step), next)
  {
    var records := before + PolicyRecords(step);
    assert records[|before|] == DecisionRecord(step.decisions[0]);
    assert IsDecisionOf(step.decisions[0], next);
    forall r | r in records && r.DecisionRecord? && r.decision.subjectType == CheckpointSubject
      ensures IsDecisionOf(r.decision, next)
    {
      var i :| 0 <= i < |step.decisions| && step.decisions[i] == r.decision;
    }
  }

  /** What the policy's verdict makes of a training snapshot. */
  lemma MaterializedAdvances(
    c: Config, s: StateSnapshot, evaluate: StateSnapshot, f: CandidateFacts, o: Observation, step: PolicyStep, tag: Tag)
    requires Standing(c, s) && s.state == Train
    requires evaluate.run == s.run && evaluate.iteration == s.iteration && evaluate.totalCost == s.totalCost
    requires evaluate.peak == s.peak && evaluate.peakScore == s.peakScore && evaluate.plateau == s.plateau
    requires o.cost == evaluate.metadata.iterationCost && o.checkpoint == f.checkpoint && o.score == f.score
    requires f.parent == s.peak && f.parent != Some(f.checkpoint)
    requires step.snapshots != [] && step.decisions != []
    requires Moves(c.limits, evaluate, o, FinalOf(step))
    requires step.decisions[0].action == Disposition(c.limits, evaluate, o)
    ensures Advances(c, s, Materialized(c, evaluate, f, step, tag))
    ensures Decides(s, Materialized(c, evaluate, f, step, tag), Tx(evaluate, tag))
    ensures PlaceOfTx(tag) == 2 ==> NextTx(s, Tx(evaluate, tag), Materialized(c, evaluate, f, step, tag))
    ensures Materialized(c, evaluate, f, step, tag).run == s.run
  {
  }

  lemma CandidateRecordsArePlain(c: Config, s: StateSnapshot, input: CandidateInput, evaluate: StateSnapshot)
    requires input.Evaluated? && evaluate.enteredAt == At(c, s.iteration, 80)
    ensures Plain(CandidateRecords(c, s, input, evaluate), At(c, s.iteration, 110))
  {
    hide Ids;
  }

  lemma PolicyWrites(
    c: Config, s: StateSnapshot, evaluate: StateSnapshot, f: CandidateFacts, step: PolicyStep,
    before: seq<Record>, tag: Tag)
    requires evaluate.run == s.run && evaluate.iteration == s.iteration
    requires step.snapshots != [] && step.decisions != []
    requires Before(before, At(c, s.iteration, 110)) && Before(PolicyRecords(step), At(c, s.iteration, 110))
    requires var next := Materialized(c, evaluate, f, step, tag);
      Decides(s, next, Tx(evaluate, tag)) && OneVerdict(before + PolicyRecords(step), next)
    ensures var t := PolicyTurn(c, evaluate, f, step, before, tag);
      Writes(before + PolicyRecords(step), s, t.req, t.next)
  {
    hide PolicyRecords, OneVerdict, Decides, FinalOf;
  }

  /** A turn that commits a policy step on top of plain records is good. */
  lemma PolicyTurnIsGood(
    c: Config, s: StateSnapshot, evaluate: StateSnapshot, f: CandidateFacts, o: Observation, step: PolicyStep,
    before: seq<Record>, tag: Tag)
    requires Standing(c, s) && s.state == Train
    requires evaluate.run == s.run && evaluate.iteration == s.iteration && evaluate.totalCost == s.totalCost
    requires evaluate.peak == s.peak && evaluate.peakScore == s.peakScore && evaluate.plateau == s.plateau
    requires o.cost == evaluate.metadata.iterationCost && o.checkpoint == f.checkpoint && o.score == f.score
    requires o.evaluatedAt < At(c, s.iteration, 110)
    requires f.parent == s.peak && f.parent != Some(f.checkpoint)
    requires EvaluateCandidate(c.limits, evaluate, o) == Decided(step)
    requires step.snapshots != [] && step.decisions != []
    requires Plain(before, At(c, s.iteration, 110)) && PlaceOfTx(tag) == 2
    ensures GoodTurn(c, s, PolicyTurn(c, evaluate, f, step, before, tag))
  {
    hide EvaluateCandidate, Moves, Disposition, PolicyRecords, FinalOf, SoundStep, OneVerdict, Writes, Decides, Advances, NextTx;
    var next := Materialized(c, evaluate, f, step, tag);
    EvaluationMoves(c.limits, evaluate, o);
    PolicyStepIsSound(c.limits, evaluate, o);
    MaterializedAdvances(c, s, evaluate, f, o, step, tag);
    PolicyRecordsBefore(step, o, At(c, s.iteration, 110));
    PolicyVerdict(before, step, next);
    PolicyWrites(c, s, evaluate, f, step, before, tag);
  }

  /** Every candidate turn of a review-free run is good, unless the policy refuses its input. */
  lemma CandidateTurnIsGood(c: Config, s: StateSnapshot, input: CandidateInput)
    requires ReviewFree(c) && Standing(c, s) && s.state == Train
    ensures CandidateTurn(c, s, input).Raise? || GoodTurn(c, s, CandidateTurn(c, s, input))
  {
    hide GoodTurn, EvaluateCandidate, EvidenceRecords, CandidateRecords, PolicyTurn, Plain, Standing;
    if input.ExecutionFailed? {
      AbortAfterDataIsGood(c, s);
    } else {
      var f := FactsOf(input);
      var m := s.metadata.(iterationCost := s.metadata.iterationCost + input.cost, candidate := Some(f));
      var evaluate := EvaluateSnapshot(s, f, At(c, s.iteration, 80), EvaluateStage, m);
      var o := Observe(f, evaluate.iteration, m.iterationCost, evaluate.enteredAt);
      var before := EvidenceRecords(input.evidence) + CandidateRecords(c, s, input, evaluate);
      var at := At(c, s.iteration, 110);
      EvidenceIsPlain(input.evidence, at);
      CandidateRecordsArePlain(c, s, input, evaluate);
      PlainJoins(EvidenceRecords(input.evidence), CandidateRecords(c, s, input, evaluate), at);
      if !CandidateTurn(c, s, input).Raise? {
        var step := EvaluateCandidate(c.limits, evaluate, o.value).step;
        DecidedHasParent(c.limits, evaluate, o.value);
        PolicyTurnIsGood(c, s, evaluate, f, o.value, step, before, CandidateTx);
      }
    }
  }

  lemma DecidedHasParent(limits: Limits, s: StateSnapshot, o: Observation)
    requires EvaluateCandidate(limits, s, o).Decided?
    ensures o.parent == s.active == s.peak
  {
  }

  /** The cost a candidate is judged by, and later charged, is what the teacher and the
      evaluation cost. */
  lemma IterationCostIsWhatWasSpent(c: Config, s: StateSnapshot, data: DataInput, candidate: CandidateInput)
    requires data.teacher.Batch? && candidate.Evaluated?
    ensures var t := DataTurn(c, s, data);
      t.Commit? && (t.next.state == Train || t.next.state == DataReviewPending) ==>
        && t.next.metadata.iterationCost == data.teacher.cost
        && var u := CandidateTurn(c, t.next, candidate);
           u.Commit? ==> u.next.metadata.iterationCost == data.teacher.cost + candidate.cost
  {
    hide StageRecords, EvidenceRecords, AllDataEvidence, Ids, PolicyRecords, CandidateRecords, JudgeCandidate;
  }
}
