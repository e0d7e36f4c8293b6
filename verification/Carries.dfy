/** What a turn passes on: within an iteration every snapshot a turn can be taken from carries the
    accepted state its dataset was verified under, and only the policy leads to the next iteration. */
module Carries {
  import opened Records
  import opened Policy
  import opened Controller
  import opened RunLoop
  import opened Materialization
  import opened CrashRecovery
  import opened TurnEnds

  predicate IsWorking(s: ControlState) {
    s == Train || AwaitsReview(s)
  }

  /** The accepted state, the patience used and the money spent. */
  predicate SameCarry(a: StateSnapshot, b: StateSnapshot) {
    && a.active == b.active && a.peak == b.peak && a.peakScore == b.peakScore
    && a.plateau == b.plateau && a.totalCost == b.totalCost
  }

  function VerifiedId(run: Id, iteration: nat): Id {
    Minted(SnapshotId, run, iteration, VerifyStage)
  }

  ghost predicate VerifiedIn(records: seq<Record>, s: StateSnapshot) {
    exists v :: SnapshotRecord(v) in records && v.id == VerifiedId(s.run, s.iteration) && SameCarry(v, s)
  }

  /** A snapshot of the turn that a turn can be taken from in the same iteration. */
  predicate PassedOn(c: Config, s: StateSnapshot, x: StateSnapshot) {
    && x.run == s.run && x.iteration == s.iteration && SameCarry(x, s) && Fit(x)
    && (x.state == ModelReviewPending ==> c.checkpointReview)
  }

  ghost predicate Passes(c: Config, s: StateSnapshot, t: Turn, x: StateSnapshot)
    requires t.Commit?
  {
    && (IsWorking(x.state) ==> PassedOn(c, s, x) && (IsWorking(s.state) || VerifiedIn(t.req.records, s)))
    && (x.metadata.materialization.Some? ==> x == t.next)
  }

  /** What the snapshot the turn ends in asks for is from this iteration, or was asked for already. */
  predicate AsksFor(s: StateSnapshot, next: StateSnapshot) {
    next.metadata.materialization.Some? ==>
      || next.metadata.materialization == s.metadata.materialization
      || next.metadata.materialization.value.sourceIteration == s.iteration
  }

  ghost predicate PassesAll(c: Config, s: StateSnapshot, t: Turn) {
    && t.Commit? && AsksFor(s, t.next)
    && forall x :: SnapshotRecord(x) in t.req.records ==> Passes(c, s, t, x)
  }

  /** No turn can be taken from these, and they ask for nothing. */
  ghost predicate OnTheWay(records: seq<Record>) {
    forall x :: SnapshotRecord(x) in records ==> !IsWorking(x.state) && x.metadata.materialization.None?
  }

  lemma WaysJoin(a: seq<Record>, b: seq<Record>)
    requires OnTheWay(a) && OnTheWay(b)
    ensures OnTheWay(a + b)
  {
  }

  lemma EndPasses(c: Config, s: StateSnapshot, t: Turn, before: seq<Record>)
    requires t.Commit? && t.req.records == before + [SnapshotRecord(t.next)] && OnTheWay(before) && AsksFor(s, t.next)
    requires IsWorking(t.next.state) ==> PassedOn(c, s, t.next) && (IsWorking(s.state) || VerifiedIn(before, s))
    ensures PassesAll(c, s, t)
  {
    if VerifiedIn(before, s) {
      var v :| SnapshotRecord(v) in before && v.id == VerifiedId(s.run, s.iteration) && SameCarry(v, s);
      assert SnapshotRecord(v) in t.req.records;
    }
  }

  lemma VerifiedJoins(a: seq<Record>, b: seq<Record>, s: StateSnapshot)
    ensures VerifiedIn(a, s) || VerifiedIn(b, s) ==> VerifiedIn(a + b, s)
  {
    if VerifiedIn(a, s) || VerifiedIn(b, s) {
      var v :| (SnapshotRecord(v) in a || SnapshotRecord(v) in b) && v.id == VerifiedId(s.run, s.iteration) && SameCarry(v, s);
      assert SnapshotRecord(v) in a + b;
    }
  }

  // ---- Data turns ----

  lemma StagesVerify(c: Config, s: StateSnapshot, e: DataEvidence, cost: real)
    ensures VerifiedIn(StageRecords(c, s, e, cost), s) && OnTheWay(StageRecords(c, s, e, cost))
  {
    assert SnapshotRecord(StageRecords(c, s, e, cost)[5].snapshot) in StageRecords(c, s, e, cost);
  }

  lemma EvidenceIsOnTheWay(evidence: seq<Evidence>)
    ensures OnTheWay(EvidenceRecords(evidence))
  {
  }

  /** A data turn that got as far as its dataset: evidence, the stages, and the rest. */
  lemma StagedPasses(
    c: Config, s: StateSnapshot, e: DataEvidence, cost: real, rest: seq<Record>, t: Turn)
    requires t.Commit? && OnTheWay(rest)
    requires t.req.records == EvidenceRecords(AllDataEvidence(e)) + StageRecords(c, s, e, cost) + rest + [SnapshotRecord(t.next)]
    requires t.next.metadata.materialization.None? && (IsWorking(t.next.state) ==> PassedOn(c, s, t.next))
    ensures PassesAll(c, s, t) && VerifiedIn(t.req.records, s)
  {
    hide OnTheWay, StageRecords, EvidenceRecords, AllDataEvidence, PassedOn, VerifiedIn;
    var front, stages := EvidenceRecords(AllDataEvidence(e)), StageRecords(c, s, e, cost);
    EvidenceIsOnTheWay(AllDataEvidence(e));
    StagesVerify(c, s, e, cost);
    WaysJoin(front, stages);
    WaysJoin(front + stages, rest);
    VerifiedJoins(front, stages, s);
    VerifiedJoins(front + stages, rest, s);
    VerifiedJoins(front + stages + rest, [SnapshotRecord(t.next)], s);
    EndPasses(c, s, t, front + stages + rest);
  }

  lemma RefusalIsOnTheWay(a: Decision, b: Transition, x: StateSnapshot, d: Decision, e: Transition)
    requires x.state == Quarantined && x.metadata.materialization.None?
    ensures OnTheWay([DecisionRecord(a), TransitionRecord(b), SnapshotRecord(x), DecisionRecord(d), TransitionRecord(e)])
  {
  }

  lemma RejectPasses(c: Config, s: StateSnapshot, e: DataEvidence, dataset: Id, accepted: nat, cost: real)
    ensures PassesAll(c, s, RejectData(c, s, e, dataset, accepted, cost))
    ensures VerifiedIn(RejectData(c, s, e, dataset, accepted, cost).req.records, s)
  {
    hide AllDataEvidence, Ids, EvidenceRecords, StageRecords, PassesAll, VerifiedIn, OnTheWay, PassedOn;
    var t := RejectData(c, s, e, dataset, accepted, cost);
    var front := EvidenceRecords(AllDataEvidence(e)) + StageRecords(c, s, e, cost);
    var rest := t.req.records[|front|..|front| + 5];
    assert t.req.records == front + rest + [SnapshotRecord(t.next)];
    assert rest == [DecisionRecord(rest[0].decision), TransitionRecord(rest[1].transition), SnapshotRecord(rest[2].snapshot),
                    DecisionRecord(rest[3].decision), TransitionRecord(rest[4].transition)];
    RefusalIsOnTheWay(rest[0].decision, rest[1].transition, rest[2].snapshot, rest[3].decision, rest[4].transition);
    StagedPasses(c, s, e, cost, rest, t);
  }

  lemma ReviewPasses(c: Config, s: StateSnapshot, e: DataEvidence, request: Evidence, dataset: Id, cost: real)
    ensures PassesAll(c, s, ReviewData(c, s, e, request, dataset, cost))
    ensures VerifiedIn(ReviewData(c, s, e, request, dataset, cost).req.records, s)
  {
    hide AllDataEvidence, Ids, EvidenceRecords, StageRecords, PassesAll, VerifiedIn;
    var t := ReviewData(c, s, e, request, dataset, cost);
    var front := EvidenceRecords(AllDataEvidence(e)) + StageRecords(c, s, e, cost);
    var rest := t.req.records[|front|..|t.req.records| - 1];
    assert t.req.records == front + rest + [SnapshotRecord(t.next)];
    StagedPasses(c, s, e, cost, rest, t);
  }

  lemma AcceptPasses(c: Config, s: StateSnapshot, e: DataEvidence, cost: real)
    ensures PassesAll(c, s, AcceptData(c, s, e, cost))
    ensures VerifiedIn(AcceptData(c, s, e, cost).req.records, s)
  {
    hide AllDataEvidence, Ids, EvidenceRecords, StageRecords, PassesAll, VerifiedIn;
    var t := AcceptData(c, s, e, cost);
    var front := EvidenceRecords(AllDataEvidence(e)) + StageRecords(c, s, e, cost);
    var rest := t.req.records[|front|..|t.req.records| - 1];
    assert t.req.records == front + rest + [SnapshotRecord(t.next)];
    StagedPasses(c, s, e, cost, rest, t);
  }

  /** A data turn that verifies no dataset ends the run where it stands. */
  ghost predicate StopsShort(s: StateSnapshot, t: Turn) {
    && t.Commit? && t.marker.None? && t.refused.None?
    && (t.next.state == Aborted || t.next.state == Stopped) && t.next.iteration == s.iteration && t.next.run == s.run
    && forall x :: SnapshotRecord(x) in t.req.records ==> x == t.next
  }

  lemma AbortPasses(c: Config, s: StateSnapshot, evidence: seq<Evidence>, stop: StopReason)
    ensures var t := AbortBeforeCandidate(c, s, evidence, stop); PassesAll(c, s, t) && StopsShort(s, t)
  {
    hide Ids;
  }

  lemma StopAtMaximumPasses(c: Config, s: StateSnapshot)
    ensures var t := StopAtMaximum(c, s); PassesAll(c, s, t) && StopsShort(s, t)
  {
  }

  lemma DataTurnPasses(c: Config, s: StateSnapshot, input: DataInput)
    ensures var t := DataTurn(c, s, input);
      && PassesAll(c, s, t)
      && (StopsShort(s, t) || (t.req.tx == Tx(s, DataTx) && VerifiedIn(t.req.records, s)))
  {
    hide RejectData, ReviewData, AcceptData, AbortBeforeCandidate, StopAtMaximum, PassesAll, StopsShort, VerifiedIn, AcceptanceRate;
    var e := input.evidence;
    var begun := [e.diagnostic, e.hypothesis];
    if s.iteration > c.limits.maxIterations {
      StopAtMaximumPasses(c, s);
    } else {
      match input.teacher
      case CircuitOpen => AbortPasses(c, s, begun, ProviderCircuitOpen);
      case TeacherFailed => AbortPasses(c, s, begun, InternalError);
      case Batch(cost, accepted, rejected, dataset) =>
        match Ledger.Guard(c.limits, 0.0, s.totalCost, cost)
        case NegativeAmount => AbortPasses(c, s, begun, InternalError);
        case IterationBudget => AbortPasses(c, s, begun, PerIterationBudgetExceeded);
        case TotalBudget => AbortPasses(c, s, begun, TotalBudgetExceeded);
        case Charged =>
          DataTxOf(c, s, e, input.reviewRequest, dataset, accepted, cost);
          RejectPasses(c, s, e, dataset, accepted, cost);
          ReviewPasses(c, s, e, input.reviewRequest, dataset, cost);
          AcceptPasses(c, s, e, cost);
    }
  }

  lemma DataTxOf(c: Config, s: StateSnapshot, e: DataEvidence, request: Evidence, dataset: Id, accepted: nat, cost: real)
    ensures RejectData(c, s, e, dataset, accepted, cost).Commit? && ReviewData(c, s, e, request, dataset, cost).Commit?
    ensures AcceptData(c, s, e, cost).Commit?
    ensures RejectData(c, s, e, dataset, accepted, cost).req.tx == Tx(s, DataTx)
    ensures ReviewData(c, s, e, request, dataset, cost).req.tx == Tx(s, DataTx)
    ensures AcceptData(c, s, e, cost).req.tx == Tx(s, DataTx)
  {
    hide AllDataEvidence, Ids, EvidenceRecords, StageRecords;
  }

  // ---- Candidate turns ----

  lemma AbortAfterPasses(c: Config, s: StateSnapshot)
    requires s.state == Train
    ensures PassesAll(c, s, AbortAfterData(c, s))
  {
  }

  lemma CandidateIsOnTheWay(c: Config, s: StateSnapshot, input: CandidateInput, evaluate: StateSnapshot)
    requires input.Evaluated? && s.metadata.materialization.None? && evaluate.metadata.materialization.None? && evaluate.state == Evaluate
    ensures OnTheWay(EvidenceRecords(input.evidence) + CandidateRecords(c, s, input, evaluate))
  {
    hide Ids;
  }

  lemma ReviewModelPasses(c: Config, s: StateSnapshot, evaluate: StateSnapshot, f: CandidateFacts, request: Evidence, before: seq<Record>)
    requires IsWorking(s.state) && c.checkpointReview && OnTheWay(before)
    requires evaluate.run == s.run && evaluate.iteration == s.iteration && SameCarry(evaluate, s)
    requires evaluate.metadata.candidate == Some(f) && f.parent != Some(f.checkpoint) && evaluate.metadata.materialization.None?
    ensures PassesAll(c, s, ReviewModel(c, evaluate, f, request, before))
  {
    hide AddId, OnTheWay;
    var t := ReviewModel(c, evaluate, f, request, before);
    var tail := t.req.records[|before|..|before| + 3];
    assert t.req.records == before + tail + [SnapshotRecord(t.next)];
    assert OnTheWay(tail) by { NoneOnTheWay(tail); }
    WaysJoin(before, tail);
    EndPasses(c, s, t, before + tail);
  }

  lemma NoneOnTheWay(records: seq<Record>)
    requires forall r :: r in records ==> !r.SnapshotRecord?
    ensures OnTheWay(records)
  {
  }

  lemma PolicyIsOnTheWay(limits: Limits, s: StateSnapshot, o: Observation)
    requires EvaluateCandidate(limits, s, o).Decided?
    ensures OnTheWay(PolicyRecords(EvaluateCandidate(limits, s, o).step))
  {
    var step := EvaluateCandidate(limits, s, o).step;
    hide EvaluateCandidate, IsWorking;
    forall x | SnapshotRecord(x) in PolicyRecords(step) ensures !IsWorking(x.state) && x.metadata.materialization.None? {
      var i :| 0 <= i < |step.snapshots| && step.snapshots[i] == x;
      PolicySnapshotState(limits, s, o, i);
    }
  }

  /** Nothing of the policy's own is a snapshot a turn can be taken from in its iteration. */
  predicate NoneWorks(step: PolicyStep) {
    forall i :: 0 <= i < |step.snapshots| ==> !IsWorking(step.snapshots[i].state) && step.snapshots[i].metadata.materialization.None?
  }

  lemma AppendedWorksNot(
    step: PolicyStep, o: Observation, target: ControlState, action: Action, code: ReasonCode, stop: Option<StopReason>, iteration: nat)
    requires step.snapshots != [] && NoneWorks(step) && !IsWorking(target)
    ensures NoneWorks(AppendRunDecision(step, o, target, action, code, stop, iteration))
  {
  }

  lemma AdvanceWorksNot(limits: Limits, step: PolicyStep, o: Observation)
    requires step.snapshots != [] && NoneWorks(step)
    ensures NoneWorks(Advance(limits, step, o))
  {
    hide AppendRunDecision, NoneWorks;
    var i := FinalOf(step).iteration;
    AppendedWorksNot(step, o, Stopped, Stop, PlateauReached, Some(Plateau), i);
    AppendedWorksNot(step, o, Stopped, Stop, MaxIterationsReached, Some(MaxIterations), i);
    AppendedWorksNot(step, o, Diagnose, Continue, NextIteration, None, i + 1);
  }

  lemma FirstWorksNot(s: StateSnapshot, o: Observation, edge: Edge)
    requires !IsWorking(edge.target)
    ensures CandidateStep(s, o, edge).snapshots != [] && NoneWorks(CandidateStep(s, o, edge))
  {
  }

  lemma PolicyWorksNot(limits: Limits, s: StateSnapshot, o: Observation)
    requires EvaluateCandidate(limits, s, o).Decided?
    ensures NoneWorks(EvaluateCandidate(limits, s, o).step)
  {
    hide CandidateStep, Advance, NoneWorks;
    var edge := PrimaryEdge(limits, s, o);
    FirstWorksNot(s, o, edge);
    AdvanceWorksNot(limits, CandidateStep(s, o, edge), o);
  }

  lemma PolicySnapshotState(limits: Limits, s: StateSnapshot, o: Observation, i: nat)
    requires EvaluateCandidate(limits, s, o).Decided? && i < |EvaluateCandidate(limits, s, o).step.snapshots|
    ensures var x := EvaluateCandidate(limits, s, o).step.snapshots[i]; !IsWorking(x.state) && x.metadata.materialization.None?
  {
    hide EvaluateCandidate;
    PolicyWorksNot(limits, s, o);
  }

  lemma PolicyTurnPasses(
    c: Config, s: StateSnapshot, evaluate: StateSnapshot, f: CandidateFacts, o: Observation, step: PolicyStep, before: seq<Record>,
    tag: Tag)
    requires EvaluateCandidate(c.limits, evaluate, o) == Verdict.Decided(step) && step.snapshots != [] && step.decisions != []
    requires evaluate.iteration == s.iteration && OnTheWay(before)
    ensures PassesAll(c, s, PolicyTurn(c, evaluate, f, step, before, tag))
  {
    PolicyIsOnTheWay(c.limits, evaluate, o);
    PolicySnapshotState(c.limits, evaluate, o, |step.snapshots| - 1);
    hide EvaluateCandidate, PolicyRecords, OnTheWay;
    WaysJoin(before, PolicyRecords(step));
    EndPasses(c, s, PolicyTurn(c, evaluate, f, step, before, tag), before + PolicyRecords(step));
  }

  lemma CandidateTurnPasses(c: Config, s: StateSnapshot, input: CandidateInput)
    requires CandidateTurn(c, s, input).Commit? && s.state == Train && Fit(s)
    ensures PassesAll(c, s, CandidateTurn(c, s, input))
  {
    hide EvaluateCandidate, EvidenceRecords, CandidateRecords, PolicyTurn, ReviewModel, AbortAfterData, PassesAll, Observe, OnTheWay, Ids;
    if input.ExecutionFailed? {
      AbortAfterPasses(c, s);
    } else {
      var f := FactsOf(input);
      var m := s.metadata.(iterationCost := s.metadata.iterationCost + input.cost, candidate := Some(f));
      var evaluate := EvaluateSnapshot(s, f, At(c, s.iteration, 80), EvaluateStage, m);
      ObservedIsNoParent(f, s.iteration, m.iterationCost, evaluate.enteredAt);
      var o := Observe(f, evaluate.iteration, m.iterationCost, evaluate.enteredAt);
      var step := JudgeCandidate(c, evaluate, f).step;
      var before := EvidenceRecords(input.evidence) + CandidateRecords(c, s, input, evaluate);
      CandidateIsOnTheWay(c, s, input, evaluate);
      if step.decisions[0].action == Promote && c.checkpointReview {
        ReviewModelPasses(c, s, evaluate, f, input.reviewRequest, before);
      } else {
        PolicyTurnPasses(c, s, evaluate, f, o.value, step, before, CandidateTx);
      }
    }
  }

  // ---- Reviews ----

  lemma StopPasses(c: Config, s: StateSnapshot, review: Review)
    requires (review.ReviewExpired? || review.ReviewDecided?) && AwaitsReview(s.state) && Fit(s)
    ensures PassesAll(c, s, StopForApproval(c, s, review))
  {
    hide AddId;
  }

  lemma DataReviewPasses(c: Config, s: StateSnapshot, review: Review)
    requires s.state == DataReviewPending && Fit(s) && DataReviewTurn(c, s, review).Commit?
    ensures PassesAll(c, s, DataReviewTurn(c, s, review))
  {
    hide AddId, StopForApproval;
    if !(review.ReviewDecided? && review.approved) { StopPasses(c, s, review); }
  }

  lemma ApprovalIsOnTheWay(review: Review, evaluate: StateSnapshot)
    requires review.ReviewDecided? && evaluate.state == Evaluate && evaluate.metadata.materialization.None?
    ensures OnTheWay([EvidenceRecord(review.evidence), DecisionRecord(review.decision), SnapshotRecord(evaluate)])
  {
  }

  lemma ModelReviewPasses(c: Config, s: StateSnapshot, review: Review)
    requires s.state == ModelReviewPending && Fit(s) && ModelReviewTurn(c, s, review).Commit?
    ensures PassesAll(c, s, ModelReviewTurn(c, s, review))
  {
    hide StopForApproval, EvaluateCandidate, PolicyTurn, PassesAll, OnTheWay, Observe;
    if review.ReviewDecided? && review.approved {
      var f := s.metadata.candidate.value;
      var evaluate := EvaluateSnapshot(s, f, review.decidedAt, EvaluateAfterApproval, s.metadata);
      var o := Observe(f, evaluate.iteration, evaluate.metadata.iterationCost, evaluate.enteredAt);
      var step := JudgeCandidate(c, evaluate, f).step;
      ApprovalIsOnTheWay(review, evaluate);
      PolicyTurnPasses(c, s, evaluate, f, o.value, step,
        [EvidenceRecord(review.evidence), DecisionRecord(review.decision), SnapshotRecord(evaluate)], ModelReviewApproved);
    } else {
      StopPasses(c, s, review);
    }
  }

  lemma TurnPasses(c: Config, s: StateSnapshot, answer: Answer)
    requires Fit(s) && TurnOf(c, s, answer).Commit?
    ensures PassesAll(c, s, TurnOf(c, s, answer))
  {
    hide DataTurn, CandidateTurn, DataReviewTurn, ModelReviewTurn, PassesAll, VerifiedIn, StopsShort;
    match s.state
    case Diagnose => DataTurnPasses(c, s, answer.data);
    case Train => CandidateTurnPasses(c, s, answer.candidate);
    case DataReviewPending => DataReviewPasses(c, s, answer.review);
    case ModelReviewPending => ModelReviewPasses(c, s, answer.review);
    case _ =>
  }

  // ---- The way into the next iteration ----

  /** The policy's verdict on the candidate, seen in a snapshot of the next iteration. */
  predicate LeadsOn(c: Config, s: StateSnapshot, t: Turn, x: StateSnapshot)
    requires t.Commit?
  {
    && x.state == Diagnose && x.iteration == s.iteration + 1 && x.run == s.run
    && (|| (s.state == Train && t.req.tx == Tx(s, CandidateTx))
        || (s.state == ModelReviewPending && t.req.tx == Tx(s, ModelReviewApproved)))
    && Materializable(t.next) && t.next.metadata.materialization.value.sourceIteration == s.iteration
    && s.peakScore.Some? && x.peakScore.Some? && x.peakScore == t.next.peakScore
    && (if ActionOf(t.next) == Promote then s.peakScore.value < x.peakScore.value else x.peakScore == s.peakScore)
    && (s.state == ModelReviewPending ==> ActionOf(t.next) == Promote)
    && (s.state == Train && ActionOf(t.next) == Promote ==> !c.checkpointReview)
  }

  lemma PolicyRises(limits: Limits, s: StateSnapshot, o: Observation, x: StateSnapshot)
    requires EvaluateCandidate(limits, s, o).Decided?
    requires x in EvaluateCandidate(limits, s, o).step.snapshots && x.iteration != s.iteration
    ensures var step := EvaluateCandidate(limits, s, o).step;
      && step.snapshots != [] && step.decisions != [] && x == FinalOf(step) && x.state == Diagnose && x.iteration == s.iteration + 1
      && s.peakScore.Some? && x.peakScore.Some? && x.run == s.run
      && (if step.decisions[0].action == Promote then s.peakScore.value < x.peakScore.value else x.peakScore == s.peakScore)
  {
    PolicySnapshotsAre(limits, s, o, x);
    EvaluationMoves(limits, s, o);
    hide EvaluateCandidate;
  }

  lemma PolicyTurnLeadsOn(
    c: Config, s: StateSnapshot, evaluate: StateSnapshot, f: CandidateFacts, o: Observation, step: PolicyStep, before: seq<Record>,
    tag: Tag, x: StateSnapshot)
    requires EvaluateCandidate(c.limits, evaluate, o) == Verdict.Decided(step) && step.snapshots != [] && step.decisions != []
    requires evaluate.iteration == s.iteration && evaluate.run == s.run && evaluate.peakScore == s.peakScore
    requires f.parent != Some(f.checkpoint)
    requires forall r :: r in before ==> IterationOf(r) == s.iteration || !r.SnapshotRecord?
    requires (s.state == Train && tag == CandidateTx) || (s.state == ModelReviewPending && tag == ModelReviewApproved)
    requires s.state == ModelReviewPending ==> step.decisions[0].action == Promote
    requires s.state == Train && step.decisions[0].action == Promote ==> !c.checkpointReview
    requires SnapshotRecord(x) in PolicyTurn(c, evaluate, f, step, before, tag).req.records && x.iteration != s.iteration
    ensures LeadsOn(c, s, PolicyTurn(c, evaluate, f, step, before, tag), x)
  {
    hide EvaluateCandidate, FinalOf, IterationOf;
    var t := PolicyTurn(c, evaluate, f, step, before, tag);
    FinalIsAmong(step);
    NotBefore(before, s, x);
    if x == t.next {
      PolicyRises(c.limits, evaluate, o, FinalOf(step));
    } else {
      assert SnapshotRecord(x) in SnapshotRecords(step.snapshots);
      PolicyRises(c.limits, evaluate, o, x);
    }
  }

  lemma NotBefore(before: seq<Record>, s: StateSnapshot, x: StateSnapshot)
    requires (forall r :: r in before ==> IterationOf(r) == s.iteration || !r.SnapshotRecord?) && x.iteration != s.iteration
    ensures SnapshotRecord(x) !in before
  {
  }

  // ---- All other turns stay in their iteration ----

  ghost predicate Stays(records: seq<Record>, s: StateSnapshot) {
    forall x :: SnapshotRecord(x) in records ==> x.iteration == s.iteration
  }

  lemma StagedStays(c: Config, s: StateSnapshot, e: DataEvidence, cost: real)
    ensures Stays(EvidenceRecords(AllDataEvidence(e)) + StageRecords(c, s, e, cost), s)
  {
  }

  lemma DatasetStays(c: Config, s: StateSnapshot, e: DataEvidence, request: Evidence, dataset: Id, accepted: nat, cost: real)
    ensures var t := RejectData(c, s, e, dataset, accepted, cost); t.Commit? && Stays(t.req.records, s)
    ensures var t := ReviewData(c, s, e, request, dataset, cost); t.Commit? && Stays(t.req.records, s)
    ensures var t := AcceptData(c, s, e, cost); t.Commit? && Stays(t.req.records, s)
  {
    hide AllDataEvidence, Ids, EvidenceRecords, StageRecords;
    var front := EvidenceRecords(AllDataEvidence(e)) + StageRecords(c, s, e, cost);
    StagedStays(c, s, e, cost);
    var r := RejectData(c, s, e, dataset, accepted, cost).req.records;
    assert r == front + r[|front|..];
    var v := ReviewData(c, s, e, request, dataset, cost).req.records;
    assert v == front + v[|front|..];
    var a := AcceptData(c, s, e, cost).req.records;
    assert a == front + a[|front|..];
  }

  lemma EarlyStays(c: Config, s: StateSnapshot, evidence: seq<Evidence>, stop: StopReason)
    ensures var t := AbortBeforeCandidate(c, s, evidence, stop); t.Commit? && Stays(t.req.records, s)
    ensures var t := StopAtMaximum(c, s); t.Commit? && Stays(t.req.records, s)
    ensures var t := AbortAfterData(c, s); t.Commit? && Stays(t.req.records, s)
  {
    hide Ids;
  }

  lemma DataTurnStays(c: Config, s: StateSnapshot, input: DataInput)
    ensures var t := DataTurn(c, s, input); t.Commit? && Stays(t.req.records, s)
  {
    hide RejectData, ReviewData, AcceptData, AbortBeforeCandidate, StopAtMaximum, AbortAfterData, Stays, AcceptanceRate;
    var e := input.evidence;
    var begun := [e.diagnostic, e.hypothesis];
    if s.iteration > c.limits.maxIterations {
      EarlyStays(c, s, begun, InternalError);
    } else {
      match input.teacher
      case CircuitOpen => EarlyStays(c, s, begun, ProviderCircuitOpen);
      case TeacherFailed => EarlyStays(c, s, begun, InternalError);
      case Batch(cost, accepted, rejected, dataset) =>
        match Ledger.Guard(c.limits, 0.0, s.totalCost, cost)
        case NegativeAmount => EarlyStays(c, s, begun, InternalError);
        case IterationBudget => EarlyStays(c, s, begun, PerIterationBudgetExceeded);
        case TotalBudget => EarlyStays(c, s, begun, TotalBudgetExceeded);
        case Charged => DatasetStays(c, s, e, input.reviewRequest, dataset, accepted, cost);
    }
  }

  lemma CandidateRecordsStay(c: Config, s: StateSnapshot, input: CandidateInput, evaluate: StateSnapshot)
    requires input.Evaluated? && evaluate.iteration == s.iteration
    ensures forall r :: r in EvidenceRecords(input.evidence) + CandidateRecords(c, s, input, evaluate) ==>
      IterationOf(r) == s.iteration || !r.SnapshotRecord?
  {
    hide Ids;
  }

  lemma ReviewModelStays(
    c: Config, s: StateSnapshot, evaluate: StateSnapshot, f: CandidateFacts, request: Evidence, before: seq<Record>, x: StateSnapshot)
    requires (forall r :: r in before ==> IterationOf(r) == s.iteration || !r.SnapshotRecord?) && evaluate.iteration == s.iteration
    requires SnapshotRecord(x) in ReviewModel(c, evaluate, f, request, before).req.records
    ensures x.iteration == s.iteration
  {
    hide AddId;
    if SnapshotRecord(x) in before { assert IterationOf(SnapshotRecord(x)) == s.iteration; }
  }

  lemma CandidateLeadsOn(c: Config, s: StateSnapshot, input: CandidateInput, x: StateSnapshot)
    requires CandidateTurn(c, s, input).Commit? && s.state == Train
    requires SnapshotRecord(x) in CandidateTurn(c, s, input).req.records && x.iteration != s.iteration
    ensures LeadsOn(c, s, CandidateTurn(c, s, input), x)
  {
    hide EvaluateCandidate, EvidenceRecords, CandidateRecords, PolicyTurn, ReviewModel, AbortAfterData, Observe, LeadsOn, Ids,
      IterationOf, Stays;
    if input.ExecutionFailed? {
      EarlyStays(c, s, [], InternalError);
      StaysMeans(AbortAfterData(c, s).req.records, s, x);
    } else {
      var f := FactsOf(input);
      var m := s.metadata.(iterationCost := s.metadata.iterationCost + input.cost, candidate := Some(f));
      var evaluate := EvaluateSnapshot(s, f, At(c, s.iteration, 80), EvaluateStage, m);
      ObservedIsNoParent(f, s.iteration, m.iterationCost, evaluate.enteredAt);
      var o := Observe(f, evaluate.iteration, m.iterationCost, evaluate.enteredAt);
      var step := JudgeCandidate(c, evaluate, f).step;
      var before := EvidenceRecords(input.evidence) + CandidateRecords(c, s, input, evaluate);
      CandidateRecordsStay(c, s, input, evaluate);
      if step.decisions[0].action == Promote && c.checkpointReview {
        ReviewModelStays(c, s, evaluate, f, input.reviewRequest, before, x);
      } else {
        PolicyTurnLeadsOn(c, s, evaluate, f, o.value, step, before, CandidateTx, x);
      }
    }
  }

  lemma StaysMeans(records: seq<Record>, s: StateSnapshot, x: StateSnapshot)
    requires Stays(records, s) && SnapshotRecord(x) in records
    ensures x.iteration == s.iteration
  {
  }

  lemma StopStays(c: Config, s: StateSnapshot, review: Review)
    requires review.ReviewExpired? || review.ReviewDecided?
    ensures var t := StopForApproval(c, s, review); t.Commit? && Stays(t.req.records, s)
  {
    hide AddId;
  }

  lemma ReviewLeadsOn(c: Config, s: StateSnapshot, review: Review, x: StateSnapshot)
    requires ModelReviewTurn(c, s, review).Commit? && s.state == ModelReviewPending && Fit(s)
    requires SnapshotRecord(x) in ModelReviewTurn(c, s, review).req.records && x.iteration != s.iteration
    ensures LeadsOn(c, s, ModelReviewTurn(c, s, review), x)
  {
    hide StopForApproval, EvaluateCandidate, PolicyTurn, LeadsOn, Observe, Stays;
    if review.ReviewDecided? && review.approved {
      var f := s.metadata.candidate.value;
      var evaluate := EvaluateSnapshot(s, f, review.decidedAt, EvaluateAfterApproval, s.metadata);
      var o := Observe(f, evaluate.iteration, evaluate.metadata.iterationCost, evaluate.enteredAt);
      var step := JudgeCandidate(c, evaluate, f).step;
      PolicyTurnLeadsOn(c, s, evaluate, f, o.value, step,
        [EvidenceRecord(review.evidence), DecisionRecord(review.decision), SnapshotRecord(evaluate)], ModelReviewApproved, x);
    } else {
      StopStays(c, s, review);
      StaysMeans(StopForApproval(c, s, review).req.records, s, x);
    }
  }

  lemma DataReviewStays(c: Config, s: StateSnapshot, review: Review)
    requires DataReviewTurn(c, s, review).Commit?
    ensures Stays(DataReviewTurn(c, s, review).req.records, s)
  {
    hide AddId, StopForApproval;
    if !(review.ReviewDecided? && review.approved) { StopStays(c, s, review); }
  }

  /** A snapshot of another iteration is the policy's. */
  lemma TurnLeadsOn(c: Config, s: StateSnapshot, answer: Answer, x: StateSnapshot)
    requires Fit(s) && TurnOf(c, s, answer).Commit?
    requires SnapshotRecord(x) in TurnOf(c, s, answer).req.records && x.iteration != s.iteration
    ensures LeadsOn(c, s, TurnOf(c, s, answer), x)
  {
    hide DataTurn, CandidateTurn, DataReviewTurn, ModelReviewTurn, LeadsOn, Stays, Fit;
    match s.state
    case Diagnose =>
      DataTurnStays(c, s, answer.data);
      StaysMeans(DataTurn(c, s, answer.data).req.records, s, x);
    case Train => CandidateLeadsOn(c, s, answer.candidate, x);
    case DataReviewPending =>
      DataReviewStays(c, s, answer.review);
      StaysMeans(DataReviewTurn(c, s, answer.review).req.records, s, x);
    case ModelReviewPending => ReviewLeadsOn(c, s, answer.review, x);
    case _ =>
  }

  // ---- What a turn writes under ----

  predicate RequestFits(s: StateSnapshot, t: Turn) {
    && t.Commit? && t.req.run == s.run && t.req.iteration == s.iteration
    && t.req.tx.Minted? && t.req.tx == Tx(s, t.req.tx.tag) && SnapshotRecord(t.next) in t.req.records
  }

  lemma DataRequestFits(c: Config, s: StateSnapshot, input: DataInput)
    ensures RequestFits(s, DataTurn(c, s, input))
  {
    hide StageRecords, EvidenceRecords, AllDataEvidence, Ids, AcceptanceRate, AddId;
  }

  lemma CandidateRequestFits(c: Config, s: StateSnapshot, input: CandidateInput)
    requires CandidateTurn(c, s, input).Commit?
    ensures RequestFits(s, CandidateTurn(c, s, input))
  {
    hide EvidenceRecords, CandidateRecords, Ids, EvaluateCandidate, PolicyRecords, AddId;
  }

  lemma ReviewRequestFits(c: Config, s: StateSnapshot, review: Review)
    ensures DataReviewTurn(c, s, review).Commit? ==> RequestFits(s, DataReviewTurn(c, s, review))
    ensures ModelReviewTurn(c, s, review).Commit? ==> RequestFits(s, ModelReviewTurn(c, s, review))
  {
    hide EvaluateCandidate, PolicyRecords, AddId;
  }

  lemma RequestOf(c: Config, s: StateSnapshot, answer: Answer)
    requires TurnOf(c, s, answer).Commit?
    ensures RequestFits(s, TurnOf(c, s, answer))
  {
    hide DataTurn, CandidateTurn, DataReviewTurn, ModelReviewTurn, RequestFits;
    match s.state
    case Diagnose => DataRequestFits(c, s, answer.data);
    case Train => CandidateRequestFits(c, s, answer.candidate);
    case DataReviewPending => ReviewRequestFits(c, s, answer.review);
    case ModelReviewPending => ReviewRequestFits(c, s, answer.review);
    case _ =>
  }
}
