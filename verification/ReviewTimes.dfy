/** When the snapshots of any turn were entered: the controller's own at fixed offsets of its
    logical clock, an approver's at the moment of the decision. */
module ReviewTimes {
  import opened Records
  import opened ControlStore
  import opened Policy
  import opened Controller
  import opened Turns
  import opened CrashRecovery
  import Ledger = CostLedger

  /** The transactions an approver's decision leads to. */
  predicate HumanTag(tag: Tag) {
    tag == DataReviewApproved || tag == ModelReviewApproved || tag == ApprovalDenied
  }

  /** What the snapshots entered at a decision look like; no other turn leaves one like it. */
  predicate HumanShape(s: StateSnapshot) {
    && s.metadata.materialization.None? && !s.id.Text?
    && (|| (s.id.tag == TrainStage && s.metadata.decision.Some?)
        || s.id.tag == ApprovalDenied || s.id.tag == EvaluateAfterApproval || s.id.tag.PolicyPhase?)
  }

  ghost predicate AllHuman(records: seq<Record>) {
    forall r :: r in records && r.SnapshotRecord? ==> HumanShape(r.snapshot)
  }

  predicate NoSnapshot(records: seq<Record>) {
    forall i :: 0 <= i < |records| ==> !records[i].SnapshotRecord?
  }

  /** Where a run can stand, with the time up to which the logical clock has come; `decided`
      tells whether the snapshot it stands at was entered at a decision. */
  predicate Poised(c: Config, s: StateSnapshot, clock: int, decided: bool) {
    && (s.state == Diagnose ==> !decided && clock < At(c, s.iteration, 5))
    && (s.state == Train ==> clock == At(c, s.iteration, 50))
    && (s.state == DataReviewPending ==> !decided && clock == At(c, s.iteration, 50))
    && (s.state == ModelReviewPending ==> !decided && clock == At(c, s.iteration, 90))
    && (s.state == Train || s.state == DataReviewPending || s.state == ModelReviewPending ==> s.metadata.materialization.None?)
  }

  predicate IsDecided(t: Turn)
    requires t.Commit? && t.req.tx.Minted?
  {
    HumanTag(t.req.tx.tag) && t.next.metadata.materialization.None?
  }

  function ClockAfter(clock: int, t: Turn): int
    requires t.Commit? && t.req.tx.Minted?
  {
    if IsDecided(t) then clock else t.next.enteredAt
  }

  /** The records of a turn before its last one. */
  ghost predicate Timed(head: StateSnapshot, clock: int, t: Turn, before: seq<Record>)
    requires t.Commit? && t.req.tx.Minted?
  {
    && t.req.records == before + [SnapshotRecord(t.next)]
    && if !HumanTag(t.req.tx.tag) then
         clock < t.next.enteredAt && Before(before, t.next.enteredAt) && !HumanShape(t.next)
       else if t.next.metadata.materialization.Some? then
         clock < t.next.enteredAt && AllHuman(before)
       else
         NoSnapshot(before) && HumanShape(t.next) && t.next.state != head.state
         && (head.state == DataReviewPending || head.state == ModelReviewPending)
  }

  /** A turn never goes back on the logical clock, and the snapshots it enters by another clock
      are the ones a decision led to. */
  ghost predicate KeepsTime(c: Config, head: StateSnapshot, clock: int, t: Turn) {
    && t.Commit? && t.req.tx.Minted? && t.req.run == head.run && t.next.run == head.run
    && NextTx(head, t.req.tx, t.next)
    && (exists before :: Timed(head, clock, t, before))
    && Poised(c, t.next, ClockAfter(clock, t), IsDecided(t))
  }

  lemma PlainTurnKeepsTime(c: Config, head: StateSnapshot, clock: int, t: Turn)
    requires t.Commit? && t.req.tx.Minted? && !HumanTag(t.req.tx.tag) && t.req.run == head.run && t.next.run == head.run
    requires EndsPlainly(t) && clock < t.next.enteredAt && !HumanShape(t.next)
    requires NextTx(head, t.req.tx, t.next) && Poised(c, t.next, t.next.enteredAt, false)
    ensures KeepsTime(c, head, clock, t)
  {
    hide Poised, NextTx, HumanShape, HumanTag;
    var before :| t.req.records == before + [SnapshotRecord(t.next)] && Plain(before, t.next.enteredAt);
    assert Timed(head, clock, t, before);
  }

  lemma ReviewDataEndsPlainly(c: Config, s: StateSnapshot, e: DataEvidence, request: Evidence, dataset: Id, cost: real)
    ensures EndsPlainly(ReviewData(c, s, e, request, dataset, cost))
    ensures ReviewData(c, s, e, request, dataset, cost).next.enteredAt == At(c, s.iteration, 50)
  {
    hide EvidenceRecords, StageRecords, AllDataEvidence, Ids, Plain, EndsPlainly;
    var t, at := ReviewData(c, s, e, request, dataset, cost), At(c, s.iteration, 50);
    var d := Judge(s, DatasetReview, DatasetSubject, dataset, RequestApproval, DatasetReviewRequired,
                   at, None, [e.accepted.id, e.audit.id, request.id]);
    var staged := EvidenceRecords(AllDataEvidence(e)) + StageRecords(c, s, e, cost);
    var tail := [EvidenceRecord(request), DecisionRecord(d),
                 Move(s, DatasetReview, DataReviewPending, Verify, at, Some(d.id), d.evidence)];
    EvidenceIsPlain(AllDataEvidence(e), at);
    StagesArePlain(c, s, e, cost);
    PlainJoins(EvidenceRecords(AllDataEvidence(e)), StageRecords(c, s, e, cost), at);
    assert Plain(tail, at) by { RequestIsPlain(request, d, tail[2], at); }
    PlainJoins(staged, tail, at);
    PlainEnding(s, DataTx, at, staged + tail, t.next);
  }

  lemma RequestIsPlain(request: Evidence, d: Decision, m: Record, t: int)
    requires d.subjectType != CheckpointSubject && m.TransitionRecord?
    ensures Plain([EvidenceRecord(request), DecisionRecord(d), m], t)
  {
  }

  lemma StopAtMaximumEndsPlainly(c: Config, s: StateSnapshot)
    ensures EndsPlainly(StopAtMaximum(c, s))
  {
    hide Plain, EndsPlainly;
    var t, at, tag := StopAtMaximum(c, s), At(c, s.iteration, 5), MaximumBeforeSynthesis;
    var d := Judge(s, tag, RunSubject, s.run, Stop, MaximumBeforeSynthesisCode, at, Some(MaxIterations), s.evidence);
    var m := Move(s, tag, Stopped, s.state, at, Some(d.id), s.evidence);
    RunDecisionIsPlain(d, m, at);
    PlainEnding(s, tag, at, [DecisionRecord(d), m], t.next);
  }

  lemma AbortKeepsTime(c: Config, s: StateSnapshot, clock: int, evidence: seq<Evidence>, stop: StopReason)
    requires Poised(c, s, clock, false) && s.state == Diagnose
    ensures KeepsTime(c, s, clock, AbortBeforeCandidate(c, s, evidence, stop))
  {
    hide EvidenceRecords, Ids, KeepsTime, EndsPlainly;
    AbortEndsPlainly(c, s, evidence, stop);
    PlainTurnKeepsTime(c, s, clock, AbortBeforeCandidate(c, s, evidence, stop));
  }

  lemma RejectKeepsTime(c: Config, s: StateSnapshot, clock: int, e: DataEvidence, dataset: Id, accepted: nat, cost: real)
    requires Poised(c, s, clock, false) && s.state == Diagnose
    ensures KeepsTime(c, s, clock, RejectData(c, s, e, dataset, accepted, cost))
  {
    hide EvidenceRecords, StageRecords, AllDataEvidence, Ids, KeepsTime, EndsPlainly, GoodMarker;
    RejectEndsPlainly(c, s, e, dataset, accepted, cost);
    PlainTurnKeepsTime(c, s, clock, RejectData(c, s, e, dataset, accepted, cost));
  }

  lemma ReviewDataKeepsTime(c: Config, s: StateSnapshot, clock: int, e: DataEvidence, request: Evidence, dataset: Id, cost: real)
    requires Poised(c, s, clock, false) && s.state == Diagnose
    ensures KeepsTime(c, s, clock, ReviewData(c, s, e, request, dataset, cost))
  {
    hide EvidenceRecords, StageRecords, AllDataEvidence, Ids, KeepsTime, EndsPlainly;
    ReviewDataEndsPlainly(c, s, e, request, dataset, cost);
    PlainTurnKeepsTime(c, s, clock, ReviewData(c, s, e, request, dataset, cost));
  }

  lemma AcceptKeepsTime(c: Config, s: StateSnapshot, clock: int, e: DataEvidence, cost: real)
    requires Poised(c, s, clock, false) && s.state == Diagnose
    ensures KeepsTime(c, s, clock, AcceptData(c, s, e, cost))
  {
    hide EvidenceRecords, StageRecords, AllDataEvidence, Ids, KeepsTime, EndsPlainly;
    AcceptEndsPlainly(c, s, e, cost);
    PlainTurnKeepsTime(c, s, clock, AcceptData(c, s, e, cost));
  }

  lemma StopAtMaximumKeepsTime(c: Config, s: StateSnapshot, clock: int)
    requires Poised(c, s, clock, false) && s.state == Diagnose
    ensures KeepsTime(c, s, clock, StopAtMaximum(c, s))
  {
    hide KeepsTime, EndsPlainly;
    StopAtMaximumEndsPlainly(c, s);
    PlainTurnKeepsTime(c, s, clock, StopAtMaximum(c, s));
  }

  lemma DataTurnKeepsTime(c: Config, s: StateSnapshot, clock: int, input: DataInput)
    requires Poised(c, s, clock, false) && s.state == Diagnose
    ensures KeepsTime(c, s, clock, DataTurn(c, s, input))
  {
    hide AbortBeforeCandidate, RejectData, ReviewData, AcceptData, StopAtMaximum, KeepsTime, Poised;
    var e := input.evidence;
    var begun := [e.diagnostic, e.hypothesis];
    if s.iteration > c.limits.maxIterations {
      StopAtMaximumKeepsTime(c, s, clock);
    } else {
      match input.teacher
      case CircuitOpen => AbortKeepsTime(c, s, clock, begun, ProviderCircuitOpen);
      case TeacherFailed => AbortKeepsTime(c, s, clock, begun, InternalError);
      case Batch(cost, accepted, rejected, dataset) =>
        match Ledger.Guard(c.limits, 0.0, s.totalCost, cost)
        case NegativeAmount => AbortKeepsTime(c, s, clock, begun, InternalError);
        case IterationBudget => AbortKeepsTime(c, s, clock, begun, PerIterationBudgetExceeded);
        case TotalBudget => AbortKeepsTime(c, s, clock, begun, TotalBudgetExceeded);
        case Charged =>
          RejectKeepsTime(c, s, clock, e, dataset, accepted, cost);
          ReviewDataKeepsTime(c, s, clock, e, input.reviewRequest, dataset, cost);
          AcceptKeepsTime(c, s, clock, e, cost);
    }
  }

  // ---- Candidate turns ----

  lemma AbortAfterKeepsTime(c: Config, s: StateSnapshot, clock: int, decided: bool)
    requires Poised(c, s, clock, decided) && s.state == Train
    ensures KeepsTime(c, s, clock, AbortAfterData(c, s))
  {
    hide KeepsTime, EndsPlainly;
    AbortAfterEndsPlainly(c, s);
    PlainTurnKeepsTime(c, s, clock, AbortAfterData(c, s));
  }

  lemma BeforeJoins(a: seq<Record>, b: seq<Record>, t: int)
    requires Before(a, t) && Before(b, t)
    ensures Before(a + b, t)
  {
  }

  lemma ReviewModelKeepsTime(
    c: Config, s: StateSnapshot, clock: int, decided: bool, evaluate: StateSnapshot, f: CandidateFacts, request: Evidence,
    before: seq<Record>)
    requires Poised(c, s, clock, decided) && s.state == Train
    requires evaluate.run == s.run && evaluate.iteration == s.iteration && evaluate.metadata.materialization.None?
    requires Before(before, At(c, s.iteration, 90))
    ensures KeepsTime(c, s, clock, ReviewModel(c, evaluate, f, request, before))
  {
    hide Poised, NextTx, AddId;
    var t := ReviewModel(c, evaluate, f, request, before);
    var x := Judge(evaluate, ModelReview, CheckpointSubject, f.checkpoint, RequestApproval, ModelReviewRequired,
                   At(c, s.iteration, 90), None, AddId(f.evidence, request.id));
    var tail := [EvidenceRecord(request), DecisionRecord(x),
                 Move(evaluate, ModelReview, ModelReviewPending, Evaluate, At(c, s.iteration, 90), Some(x.id), x.evidence)];
    BeforeJoins(before, tail, At(c, s.iteration, 90));
    assert Timed(s, clock, t, before + tail) by { ReviewModelClock(c, s, clock, decided, t.next); }
    ReviewModelClock(c, s, clock, decided, t.next);
  }

  lemma ReviewModelClock(c: Config, s: StateSnapshot, clock: int, decided: bool, next: StateSnapshot)
    requires Poised(c, s, clock, decided) && s.state == Train
    requires next.state == ModelReviewPending && next.run == s.run && next.iteration == s.iteration && next.metadata.materialization.None?
    requires next.enteredAt == At(c, s.iteration, 90)
    ensures clock < next.enteredAt && Poised(c, next, next.enteredAt, false) && NextTx(s, Tx(s, CandidatePendingReview), next)
  {
  }

  /** The snapshot the policy's verdict leads to. */
  lemma MaterializedClock(
    c: Config, s: StateSnapshot, evaluate: StateSnapshot, f: CandidateFacts, o: Observation, step: PolicyStep, tag: Tag)
    requires evaluate.run == s.run && evaluate.iteration == s.iteration && Place(s.state) <= PlaceOfTx(tag)
    requires evaluate.peakScore.Some? && step.snapshots != [] && step.decisions != []
    requires Moves(c.limits, evaluate, o, FinalOf(step))
    ensures var next := Materialized(c, evaluate, f, step, tag);
      && next.run == s.run && next.enteredAt == At(c, s.iteration, 110) && next.metadata.materialization.Some?
      && Poised(c, next, next.enteredAt, false) && NextTx(s, Tx(evaluate, tag), next)
  {
  }

  lemma PolicySnapshotsAreHuman(limits: Limits, s: StateSnapshot, o: Observation)
    requires EvaluateCandidate(limits, s, o).Decided?
    ensures AllHuman(PolicyRecords(EvaluateCandidate(limits, s, o).step))
  {
    var step := EvaluateCandidate(limits, s, o).step;
    hide EvaluateCandidate, HumanShape;
    forall r | r in PolicyRecords(step) && r.SnapshotRecord? ensures HumanShape(r.snapshot) {
      var i :| 0 <= i < |step.snapshots| && step.snapshots[i] == r.snapshot;
      PolicySnapshotIsHuman(limits, s, o, i);
    }
  }

  lemma PolicySnapshotIsHuman(limits: Limits, s: StateSnapshot, o: Observation, i: nat)
    requires EvaluateCandidate(limits, s, o).Decided? && i < |EvaluateCandidate(limits, s, o).step.snapshots|
    ensures HumanShape(EvaluateCandidate(limits, s, o).step.snapshots[i])
    ensures EvaluateCandidate(limits, s, o).step.snapshots[i].enteredAt == o.evaluatedAt
  {
  }

  lemma PolicyTurnKeepsTime(
    c: Config, s: StateSnapshot, clock: int, evaluate: StateSnapshot, f: CandidateFacts, o: Observation, step: PolicyStep,
    before: seq<Record>, tag: Tag)
    requires evaluate.run == s.run && evaluate.iteration == s.iteration && Place(s.state) <= PlaceOfTx(tag)
    requires clock < At(c, s.iteration, 110)
    requires EvaluateCandidate(c.limits, evaluate, o) == Decided(step) && step.snapshots != [] && step.decisions != []
    requires if HumanTag(tag) then AllHuman(before) else Before(before, At(c, s.iteration, 110)) && o.evaluatedAt < At(c, s.iteration, 110)
    ensures KeepsTime(c, s, clock, PolicyTurn(c, evaluate, f, step, before, tag))
  {
    hide EvaluateCandidate, Moves, PolicyRecords, FinalOf, SoundStep, Poised, NextTx, Materialized, HumanShape;
    var t, next := PolicyTurn(c, evaluate, f, step, before, tag), Materialized(c, evaluate, f, step, tag);
    DecidedHasPeakScore(c.limits, evaluate, o);
    EvaluationMoves(c.limits, evaluate, o);
    MaterializedClock(c, s, evaluate, f, o, step, tag);
    if HumanTag(tag) {
      PolicySnapshotsAreHuman(c.limits, evaluate, o);
    } else {
      PolicyStepIsSound(c.limits, evaluate, o);
      PolicyRecordsBefore(step, o, next.enteredAt);
      BeforeJoins(before, PolicyRecords(step), next.enteredAt);
    }
    NotHumanShape(next);
    assert Timed(s, clock, t, before + PolicyRecords(step));
  }

  lemma NotHumanShape(s: StateSnapshot)
    requires s.metadata.materialization.Some?
    ensures !HumanShape(s)
  {
  }

  lemma DecidedHasPeakScore(limits: Limits, s: StateSnapshot, o: Observation)
    requires EvaluateCandidate(limits, s, o).Decided?
    ensures s.peakScore.Some?
  {
  }

  lemma CandidateRecordsBefore(c: Config, s: StateSnapshot, input: CandidateInput, evaluate: StateSnapshot)
    requires input.Evaluated? && evaluate.enteredAt == At(c, s.iteration, 80)
    ensures Before(CandidateRecords(c, s, input, evaluate), At(c, s.iteration, 90))
    ensures Before(EvidenceRecords(input.evidence) + CandidateRecords(c, s, input, evaluate), At(c, s.iteration, 90))
  {
    hide Ids;
  }

  lemma CandidateTurnKeepsTime(c: Config, s: StateSnapshot, clock: int, decided: bool, input: CandidateInput)
    requires Poised(c, s, clock, decided) && s.state == Train && CandidateTurn(c, s, input).Commit?
    ensures KeepsTime(c, s, clock, CandidateTurn(c, s, input))
  {
    hide EvaluateCandidate, EvidenceRecords, CandidateRecords, PolicyTurn, ReviewModel, AbortAfterData, KeepsTime, Before,
      Poised, AllHuman, Ids;
    TrainClock(c, s, clock, decided);
    if input.ExecutionFailed? {
      AbortAfterKeepsTime(c, s, clock, decided);
    } else {
      var f := FactsOf(input);
      var m := s.metadata.(iterationCost := s.metadata.iterationCost + input.cost, candidate := Some(f));
      var evaluate := EvaluateSnapshot(s, f, At(c, s.iteration, 80), EvaluateStage, m);
      var o := Observe(f, evaluate.iteration, m.iterationCost, evaluate.enteredAt);
      var step := JudgeCandidate(c, evaluate, f).step;
      var before := EvidenceRecords(input.evidence) + CandidateRecords(c, s, input, evaluate);
      CandidateRecordsBefore(c, s, input, evaluate);
      BeforeLater(before, At(c, s.iteration, 90), At(c, s.iteration, 110));
      if step.decisions[0].action == Promote && c.checkpointReview {
        ReviewModelKeepsTime(c, s, clock, decided, evaluate, f, input.reviewRequest, before);
      } else {
        PolicyTurnKeepsTime(c, s, clock, evaluate, f, o.value, step, before, CandidateTx);
      }
    }
  }

  lemma TrainClock(c: Config, s: StateSnapshot, clock: int, decided: bool)
    requires Poised(c, s, clock, decided) && s.state == Train
    ensures clock == At(c, s.iteration, 50) && s.metadata.materialization.None?
  {
  }

  lemma BeforeLater(records: seq<Record>, t: int, u: int)
    requires Before(records, t) && t <= u
    ensures Before(records, u)
  {
  }

  // ---- Reviews ----

  lemma StopShape(c: Config, s: StateSnapshot, review: Review)
    requires review.ReviewExpired? || review.ReviewDecided?
    ensures var t, tag := StopForApproval(c, s, review), if review.ReviewDecided? then ApprovalDenied else ApprovalExpired;
      && t.Commit? && t.req.tx == Tx(s, tag) && t.req.run == s.run
      && |t.req.records| == 4 && NoSnapshot(t.req.records[..3]) && t.req.records[3] == SnapshotRecord(t.next)
      && t.next.id == Minted(SnapshotId, s.run, s.iteration, tag) && t.next.run == s.run && t.next.iteration == s.iteration
      && t.next.state == Stopped && t.next.metadata.materialization == s.metadata.materialization
      && t.next.enteredAt == if review.ReviewDecided? then review.decidedAt else At(c, s.iteration, 120)
  {
    hide AddId;
  }

  lemma NoSnapshotBefore(records: seq<Record>, t: int)
    requires NoSnapshot(records)
    ensures Before(records, t)
  {
  }

  lemma StopKeepsTime(c: Config, s: StateSnapshot, clock: int, review: Review)
    requires Poised(c, s, clock, false) && (s.state == DataReviewPending || s.state == ModelReviewPending)
    requires review.ReviewExpired? || review.ReviewDecided?
    ensures KeepsTime(c, s, clock, StopForApproval(c, s, review))
  {
    hide StopForApproval, Before, NoSnapshot;
    var t := StopForApproval(c, s, review);
    StopShape(c, s, review);
    var before := t.req.records[..3];
    assert t.req.records == before + [SnapshotRecord(t.next)];
    NoSnapshotBefore(before, t.next.enteredAt);
    assert Timed(s, clock, t, before);
  }

  lemma DataReviewKeepsTime(c: Config, s: StateSnapshot, clock: int, review: Review)
    requires Poised(c, s, clock, false) && s.state == DataReviewPending && DataReviewTurn(c, s, review).Commit?
    ensures KeepsTime(c, s, clock, DataReviewTurn(c, s, review))
  {
    hide AddId, StopForApproval;
    if review.ReviewDecided? && review.approved {
      var t := DataReviewTurn(c, s, review);
      var before := t.req.records[..3];
      assert t.req.records == before + [SnapshotRecord(t.next)];
      assert Timed(s, clock, t, before);
    } else {
      StopKeepsTime(c, s, clock, review);
    }
  }

  lemma ApprovedBeginning(review: Review, evaluate: StateSnapshot)
    requires review.ReviewDecided? && HumanShape(evaluate)
    ensures AllHuman([EvidenceRecord(review.evidence), DecisionRecord(review.decision), SnapshotRecord(evaluate)])
  {
  }

  lemma ModelReviewKeepsTime(c: Config, s: StateSnapshot, clock: int, review: Review)
    requires Poised(c, s, clock, false) && s.state == ModelReviewPending && ModelReviewTurn(c, s, review).Commit?
    ensures KeepsTime(c, s, clock, ModelReviewTurn(c, s, review))
  {
    hide StopForApproval, EvaluateCandidate, PolicyTurn, KeepsTime, AllHuman;
    if review.ReviewDecided? && review.approved {
      var f := s.metadata.candidate.value;
      var evaluate := EvaluateSnapshot(s, f, review.decidedAt, EvaluateAfterApproval, s.metadata);
      var o := Observe(f, evaluate.iteration, evaluate.metadata.iterationCost, evaluate.enteredAt);
      var step := JudgeCandidate(c, evaluate, f).step;
      ApprovedBeginning(review, evaluate);
      PolicyTurnKeepsTime(c, s, clock, evaluate, f, o.value, step,
        [EvidenceRecord(review.evidence), DecisionRecord(review.decision), SnapshotRecord(evaluate)], ModelReviewApproved);
    } else {
      StopKeepsTime(c, s, clock, review);
    }
  }

  /** Every turn, of any kind, keeps time. */
  lemma TurnKeepsTime(c: Config, s: StateSnapshot, clock: int, decided: bool, answer: Answer)
    requires Poised(c, s, clock, decided) && TurnOf(c, s, answer).Commit?
    ensures KeepsTime(c, s, clock, TurnOf(c, s, answer))
  {
    hide DataTurn, CandidateTurn, DataReviewTurn, ModelReviewTurn, KeepsTime;
    match s.state
    case Diagnose => DataTurnKeepsTime(c, s, clock, answer.data);
    case Train => CandidateTurnKeepsTime(c, s, clock, decided, answer.candidate);
    case DataReviewPending => DataReviewKeepsTime(c, s, clock, answer.review);
    case ModelReviewPending => ModelReviewKeepsTime(c, s, clock, answer.review);
    case _ =>
  }

  // ---- What the times are ----

  /** Every snapshot a decision leads to was entered when the decision was made, except the one
      that asks for the materialisation, which has its fixed place on the logical clock. */
  lemma EnteredAtTheDecision(c: Config, s: StateSnapshot, review: Review, x: StateSnapshot)
    requires review.ReviewDecided? && (s.state == DataReviewPending || s.state == ModelReviewPending)
    requires s.metadata.materialization.None? && TurnOf(c, s, ReviewAnswer(review)).Commit?
    requires SnapshotRecord(x) in TurnOf(c, s, ReviewAnswer(review)).req.records
    ensures var t := TurnOf(c, s, ReviewAnswer(review));
      && t.req.tx.Minted? && HumanTag(t.req.tx.tag)
      && if x.metadata.materialization.None? then x.enteredAt == review.decidedAt
         else x == t.next && x.enteredAt == At(c, s.iteration, 110)
  {
    hide StopForApproval, PolicyTurn, JudgeCandidate, AddId;
    if !review.approved {
      StopShape(c, s, review);
      StopSnapshots(c, s, review, x);
    } else if s.state == ModelReviewPending {
      ApprovalSnapshots(c, s, review, x);
    }
  }

  lemma StopSnapshots(c: Config, s: StateSnapshot, review: Review, x: StateSnapshot)
    requires review.ReviewDecided? && SnapshotRecord(x) in StopForApproval(c, s, review).req.records
    ensures x == StopForApproval(c, s, review).next
  {
    hide AddId;
  }

  lemma ApprovalSnapshots(c: Config, s: StateSnapshot, review: Review, x: StateSnapshot)
    requires review.ReviewDecided? && review.approved && ModelReviewTurn(c, s, review).Commit? && s.metadata.materialization.None?
    requires SnapshotRecord(x) in ModelReviewTurn(c, s, review).req.records
    ensures var t := ModelReviewTurn(c, s, review);
      && t.req.tx == Tx(s, ModelReviewApproved)
      && if x.metadata.materialization.None? then x.enteredAt == review.decidedAt
         else x == t.next && x.enteredAt == At(c, s.iteration, 110)
  {
    hide EvaluateCandidate, PolicyRecords, FinalOf;
    var f := s.metadata.candidate.value;
    var evaluate := EvaluateSnapshot(s, f, review.decidedAt, EvaluateAfterApproval, s.metadata);
    var o := Observe(f, evaluate.iteration, evaluate.metadata.iterationCost, evaluate.enteredAt);
    var step := JudgeCandidate(c, evaluate, f).step;
    if SnapshotRecord(x) in PolicyRecords(step) { PolicySnapshotTime(c.limits, evaluate, o.value, x); }
  }

  lemma PolicySnapshotTime(limits: Limits, s: StateSnapshot, o: Observation, x: StateSnapshot)
    requires EvaluateCandidate(limits, s, o).Decided?
    requires SnapshotRecord(x) in PolicyRecords(EvaluateCandidate(limits, s, o).step)
    ensures x.enteredAt == o.evaluatedAt && x.metadata.materialization.None?
  {
    var step := EvaluateCandidate(limits, s, o).step;
    hide EvaluateCandidate, HumanShape;
    var i :| 0 <= i < |step.snapshots| && step.snapshots[i] == x;
    PolicySnapshotIsHuman(limits, s, o, i);
    HumanShapeAsksForNothing(x);
  }

  lemma HumanShapeAsksForNothing(s: StateSnapshot)
    ensures HumanShape(s) ==> s.metadata.materialization.None?
  {
  }

  /** A candidate turn ends no later than its fixed place on the logical clock. */
  lemma CandidateTurnClock(c: Config, s: StateSnapshot, input: CandidateInput)
    requires CandidateTurn(c, s, input).Commit?
    ensures CandidateTurn(c, s, input).next.enteredAt <= At(c, s.iteration, 110)
  {
    hide JudgeCandidate, EvidenceRecords, CandidateRecords, PolicyRecords, Ids, FinalOf;
  }
}
