/** The transition records of a turn describe how the run got from one snapshot to the next:
    except after an approved model review. */
module TurnPaths {
  import opened Records
  import opened Policy
  import opened Controller
  import opened RunLoop

  /** The transitions among the records of a turn, in order. */
  function TransitionsOf(records: seq<Record>): seq<Transition> {
    if records == [] then []
    else
      var last := records[|records| - 1];
      TransitionsOf(records[..|records| - 1]) + if last.TransitionRecord? then [last.transition] else []
  }

  /** Each transition leaves the state the one before it entered. */
  ghost predicate Path(ts: seq<Transition>, from: ControlState, to: ControlState) {
    if ts == [] then from == to
    else
      && ts[0].fromState == Some(from) && ts[|ts| - 1].toState == to
      && forall i :: 0 < i < |ts| ==> ts[i].fromState == Some(ts[i - 1].toState)
  }

  lemma {:induction false} TransitionsJoin(a: seq<Record>, b: seq<Record>)
    ensures TransitionsOf(a + b) == TransitionsOf(a) + TransitionsOf(b)
  {
    if b == [] {
      assert a + b == a;
    } else {
      TransitionsJoin(a, b[..|b| - 1]);
      assert (a + b)[..|a + b| - 1] == a + b[..|b| - 1];
    }
  }

  lemma PathsJoin(a: seq<Transition>, b: seq<Transition>, from: ControlState, mid: ControlState, to: ControlState)
    requires Path(a, from, mid) && Path(b, mid, to)
    ensures Path(a + b, from, to)
  {
    if a == [] {
      assert a + b == b;
    } else if b == [] {
      assert a + b == a;
    } else {
      var ts := a + b;
      forall i | 0 < i < |ts| ensures ts[i].fromState == Some(ts[i - 1].toState) {
        if i < |a| { assert ts[i] == a[i] && ts[i - 1] == a[i - 1]; }
        else if i == |a| { assert ts[i] == b[0] && ts[i - 1] == a[|a| - 1]; }
        else { assert ts[i] == b[i - |a|] && ts[i - 1] == b[i - |a| - 1]; }
      }
    }
  }

  /** A list of records that takes the run from one state to another. */
  ghost predicate Takes(records: seq<Record>, from: ControlState, to: ControlState) {
    Path(TransitionsOf(records), from, to)
  }

  lemma TakesJoin(a: seq<Record>, b: seq<Record>, from: ControlState, mid: ControlState, to: ControlState)
    requires Takes(a, from, mid) && Takes(b, mid, to)
    ensures Takes(a + b, from, to)
  {
    hide TransitionsOf, Path;
    TransitionsJoin(a, b);
    PathsJoin(TransitionsOf(a), TransitionsOf(b), from, mid, to);
  }

  lemma {:induction false} StaysPut(records: seq<Record>, s: ControlState)
    requires forall i :: 0 <= i < |records| ==> !records[i].TransitionRecord?
    ensures Takes(records, s, s) && TransitionsOf(records) == []
  {
    if records != [] { StaysPut(records[..|records| - 1], s); }
  }

  lemma OneMove(t: Transition, from: ControlState)
    requires t.fromState == Some(from)
    ensures Takes([TransitionRecord(t)], from, t.toState)
  {
    assert TransitionsOf([TransitionRecord(t)]) == [t];
  }

  /** Other records, one move, other records. */
  lemma MoveBetween(a: seq<Record>, m: Record, b: seq<Record>, from: ControlState, to: ControlState)
    requires m.TransitionRecord? && m.transition.fromState == Some(from) && m.transition.toState == to
    requires forall i :: 0 <= i < |a| ==> !a[i].TransitionRecord?
    requires forall i :: 0 <= i < |b| ==> !b[i].TransitionRecord?
    ensures Takes(a + [m] + b, from, to)
  {
    hide Takes;
    StaysPut(a, from);
    OneMove(m.transition, from);
    StaysPut(b, to);
    TakesJoin(a, [m], from, from, to);
    TakesJoin(a + [m], b, from, to, to);
  }

  lemma StagesTake(c: Config, s: StateSnapshot, e: DataEvidence, cost: real)
    ensures Takes(EvidenceRecords(AllDataEvidence(e)) + StageRecords(c, s, e, cost), Diagnose, Verify)
  {
    var r, front := StageRecords(c, s, e, cost), EvidenceRecords(AllDataEvidence(e));
    hide Takes, StageRecords, AllDataEvidence, EvidenceRecords;
    StageMoves(c, s, e, cost);
    EvidenceDoesNotMove(AllDataEvidence(e));
    StaysPut(front, Diagnose);
    MoveBetween([], r[0], [r[1]], Diagnose, Hypothesis);
    MoveBetween([], r[2], [r[3]], Hypothesis, Synthesize);
    MoveBetween([], r[4], [r[5]], Synthesize, Verify);
    var one, two, three := [] + [r[0]] + [r[1]], [] + [r[2]] + [r[3]], [] + [r[4]] + [r[5]];
    TakesJoin(one, two, Diagnose, Hypothesis, Synthesize);
    TakesJoin(one + two, three, Diagnose, Synthesize, Verify);
    assert r == one + two + three;
    TakesJoin(front, r, Diagnose, Diagnose, Verify);
  }

  lemma StageMoves(c: Config, s: StateSnapshot, e: DataEvidence, cost: real)
    ensures var r := StageRecords(c, s, e, cost);
      && |r| == 6 && r[0].TransitionRecord? && r[2].TransitionRecord? && r[4].TransitionRecord?
      && r[1].SnapshotRecord? && r[3].SnapshotRecord? && r[5].SnapshotRecord?
      && r[0].transition.fromState == Some(Diagnose) && r[0].transition.toState == Hypothesis
      && r[2].transition.fromState == Some(Hypothesis) && r[2].transition.toState == Synthesize
      && r[4].transition.fromState == Some(Synthesize) && r[4].transition.toState == Verify
  {
  }

  lemma EvidenceDoesNotMove(evidence: seq<Evidence>)
    ensures forall i :: 0 <= i < |EvidenceRecords(evidence)| ==> !EvidenceRecords(evidence)[i].TransitionRecord?
  {
  }

  // ---- Data turns ----

  /** After records that led to some state, one more move and the snapshot it ends in. */
  lemma ThenMove(front: seq<Record>, a: seq<Record>, m: Record, b: seq<Record>, from: ControlState, mid: ControlState, to: ControlState)
    requires Takes(front, from, mid)
    requires m.TransitionRecord? && m.transition.fromState == Some(mid) && m.transition.toState == to
    requires forall i :: 0 <= i < |a| ==> !a[i].TransitionRecord?
    requires forall i :: 0 <= i < |b| ==> !b[i].TransitionRecord?
    ensures Takes(front + (a + [m] + b), from, to)
  {
    hide Takes;
    MoveBetween(a, m, b, mid, to);
    TakesJoin(front, a + [m] + b, from, mid, to);
  }

  lemma AbortTakes(c: Config, s: StateSnapshot, evidence: seq<Evidence>, stop: StopReason)
    ensures var t := AbortBeforeCandidate(c, s, evidence, stop); Takes(t.req.records, s.state, t.next.state)
  {
    var t := AbortBeforeCandidate(c, s, evidence, stop);
    hide Takes, EvidenceRecords, Ids;
    var n := |EvidenceRecords(evidence)|;
    var r := t.req.records;
    EvidenceDoesNotMove(evidence);
    StaysPut(EvidenceRecords(evidence), s.state);
    ThenMove(EvidenceRecords(evidence), [r[n]], r[n + 1], [r[n + 2]], s.state, s.state, Aborted);
    assert r == EvidenceRecords(evidence) + ([r[n]] + [r[n + 1]] + [r[n + 2]]);
  }

  lemma AcceptTakes(c: Config, s: StateSnapshot, e: DataEvidence, cost: real)
    ensures var t := AcceptData(c, s, e, cost); Takes(t.req.records, Diagnose, t.next.state)
  {
    var t := AcceptData(c, s, e, cost);
    hide Takes, EvidenceRecords, StageRecords, AllDataEvidence, Ids;
    var front, r := EvidenceRecords(AllDataEvidence(e)) + StageRecords(c, s, e, cost), t.req.records;
    var n := |front|;
    StagesTake(c, s, e, cost);
    ThenMove(front, [], r[n], [r[n + 1]], Diagnose, Verify, Train);
    assert r == front + ([] + [r[n]] + [r[n + 1]]);
  }

  lemma RejectTakes(c: Config, s: StateSnapshot, e: DataEvidence, dataset: Id, accepted: nat, cost: real)
    ensures var t := RejectData(c, s, e, dataset, accepted, cost); Takes(t.req.records, Diagnose, t.next.state)
  {
    var t := RejectData(c, s, e, dataset, accepted, cost);
    hide Takes, EvidenceRecords, StageRecords, AllDataEvidence, Ids;
    var front, r := EvidenceRecords(AllDataEvidence(e)) + StageRecords(c, s, e, cost), t.req.records;
    var n := |front|;
    StagesTake(c, s, e, cost);
    ThenMove(front, [r[n]], r[n + 1], [r[n + 2]], Diagnose, Verify, Quarantined);
    var more := front + ([r[n]] + [r[n + 1]] + [r[n + 2]]);
    ThenMove(more, [r[n + 3]], r[n + 4], [r[n + 5]], Diagnose, Quarantined, Stopped);
    assert r == more + ([r[n + 3]] + [r[n + 4]] + [r[n + 5]]);
  }

  lemma ReviewDataTakes(c: Config, s: StateSnapshot, e: DataEvidence, request: Evidence, dataset: Id, cost: real)
    ensures var t := ReviewData(c, s, e, request, dataset, cost); Takes(t.req.records, Diagnose, t.next.state)
  {
    var t := ReviewData(c, s, e, request, dataset, cost);
    hide Takes, EvidenceRecords, StageRecords, AllDataEvidence, Ids;
    var front, r := EvidenceRecords(AllDataEvidence(e)) + StageRecords(c, s, e, cost), t.req.records;
    var n := |front|;
    StagesTake(c, s, e, cost);
    ThenMove(front, [r[n], r[n + 1]], r[n + 2], [r[n + 3]], Diagnose, Verify, DataReviewPending);
    assert r == front + ([r[n], r[n + 1]] + [r[n + 2]] + [r[n + 3]]);
  }

  lemma AloneTakes(a: seq<Record>, m: Record, b: seq<Record>, records: seq<Record>, from: ControlState, to: ControlState)
    requires records == a + [m] + b
    requires m.TransitionRecord? && m.transition.fromState == Some(from) && m.transition.toState == to
    requires forall i :: 0 <= i < |a| ==> !a[i].TransitionRecord?
    requires forall i :: 0 <= i < |b| ==> !b[i].TransitionRecord?
    ensures Takes(records, from, to)
  {
    hide Takes;
    MoveBetween(a, m, b, from, to);
  }

  /** Every data turn's transitions are a path from DIAGNOSE to the state it leaves. */
  lemma DataTurnTakes(c: Config, s: StateSnapshot, input: DataInput)
    requires s.state == Diagnose && DataTurn(c, s, input).Commit?
    ensures Takes(DataTurn(c, s, input).req.records, s.state, DataTurn(c, s, input).next.state)
  {
    hide Takes, AbortBeforeCandidate, RejectData, ReviewData, AcceptData;
    var e := input.evidence;
    var begun := [e.diagnostic, e.hypothesis];
    if s.iteration > c.limits.maxIterations {
      var r := StopAtMaximum(c, s).req.records;
      AloneTakes([r[0]], r[1], [r[2]], r, s.state, Stopped);
    } else {
      match input.teacher
      case CircuitOpen => AbortTakes(c, s, begun, ProviderCircuitOpen);
      case TeacherFailed => AbortTakes(c, s, begun, InternalError);
      case Batch(cost, accepted, rejected, dataset) =>
        AbortTakes(c, s, begun, InternalError);
        AbortTakes(c, s, begun, PerIterationBudgetExceeded);
        AbortTakes(c, s, begun, TotalBudgetExceeded);
        RejectTakes(c, s, e, dataset, accepted, cost);
        ReviewDataTakes(c, s, e, input.reviewRequest, dataset, cost);
        AcceptTakes(c, s, e, cost);
    }
  }

  // ---- Policy steps ----

  predicate StepPath(step: PolicyStep) {
    && 1 <= |step.transitions| == |step.snapshots| <= 2
    && step.transitions[0].fromState == Some(Evaluate) && step.transitions[0].toState == step.snapshots[0].state
    && (|step.transitions| == 2 ==>
          step.transitions[1].fromState == Some(step.snapshots[0].state) && step.transitions[1].toState == step.snapshots[1].state)
  }

  lemma EvaluationPath(limits: Limits, s: StateSnapshot, o: Observation)
    requires EvaluateCandidate(limits, s, o).Decided?
    ensures StepPath(EvaluateCandidate(limits, s, o).step)
  {
  }

  lemma PolicyRecordsTake(step: PolicyStep)
    requires StepPath(step)
    ensures step.snapshots != [] && Takes(PolicyRecords(step), Evaluate, FinalOf(step).state)
  {
    var d, t, n := DecisionRecords(step.decisions), TransitionRecords(step.transitions), SnapshotRecords(step.snapshots);
    TransitionsAre(step.transitions);
    assert Takes(t, Evaluate, FinalOf(step).state);
    hide Takes;
    StaysPut(d, Evaluate);
    StaysPut(n, FinalOf(step).state);
    TakesJoin(d, t, Evaluate, Evaluate, FinalOf(step).state);
    TakesJoin(d + t, n, Evaluate, FinalOf(step).state, FinalOf(step).state);
  }

  lemma {:induction false} TransitionsAre(ts: seq<Transition>)
    ensures TransitionsOf(TransitionRecords(ts)) == ts
  {
    if ts != [] {
      var rest := ts[..|ts| - 1];
      TransitionsAre(rest);
      assert TransitionRecords(ts)[..|ts| - 1] == TransitionRecords(rest);
      assert rest + [ts[|ts| - 1]] == ts;
    }
  }

  lemma PolicyTurnTakes(
    c: Config, evaluate: StateSnapshot, f: CandidateFacts, step: PolicyStep, before: seq<Record>, tag: Tag, from: ControlState)
    requires step.snapshots != [] && step.decisions != [] && StepPath(step) && Takes(before, from, Evaluate)
    ensures var t := PolicyTurn(c, evaluate, f, step, before, tag); Takes(t.req.records, from, t.next.state)
  {
    hide Takes, PolicyRecords, StepPath;
    var t := PolicyTurn(c, evaluate, f, step, before, tag);
    PolicyRecordsTake(step);
    TakesJoin(before, PolicyRecords(step), from, Evaluate, FinalOf(step).state);
    StaysPut([SnapshotRecord(t.next)], FinalOf(step).state);
    TakesJoin(before + PolicyRecords(step), [SnapshotRecord(t.next)], from, FinalOf(step).state, FinalOf(step).state);
  }

  // ---- Candidate turns ----

  lemma CandidateRecordsTake(c: Config, s: StateSnapshot, input: CandidateInput, evaluate: StateSnapshot)
    requires input.Evaluated?
    ensures Takes(EvidenceRecords(input.evidence) + CandidateRecords(c, s, input, evaluate), Train, Evaluate)
  {
    var r, front := CandidateRecords(c, s, input, evaluate), EvidenceRecords(input.evidence);
    hide Takes, EvidenceRecords, Ids;
    EvidenceDoesNotMove(input.evidence);
    StaysPut(front, Train);
    ThenMove(front, [], r[0], [r[1]], Train, Train, Serve);
    var more := front + ([] + [r[0]] + [r[1]]);
    ThenMove(more, [], r[2], [r[3]], Train, Serve, Evaluate);
    assert front + r == more + ([] + [r[2]] + [r[3]]);
  }

  lemma ReviewModelTakes(c: Config, evaluate: StateSnapshot, f: CandidateFacts, request: Evidence, before: seq<Record>, from: ControlState)
    requires Takes(before, from, Evaluate)
    ensures var t := ReviewModel(c, evaluate, f, request, before); Takes(t.req.records, from, t.next.state)
  {
    hide Takes;
    var t, n := ReviewModel(c, evaluate, f, request, before), |before|;
    var r := t.req.records;
    ThenMove(before, [r[n], r[n + 1]], r[n + 2], [r[n + 3]], from, Evaluate, ModelReviewPending);
    assert r == before + ([r[n], r[n + 1]] + [r[n + 2]] + [r[n + 3]]);
  }

  /** So are every candidate turn's, from TRAIN. */
  lemma CandidateTurnTakes(c: Config, s: StateSnapshot, input: CandidateInput)
    requires s.state == Train && CandidateTurn(c, s, input).Commit?
    ensures Takes(CandidateTurn(c, s, input).req.records, s.state, CandidateTurn(c, s, input).next.state)
  {
    hide Takes, EvidenceRecords, CandidateRecords, PolicyTurn, ReviewModel, EvaluateCandidate, StepPath, Ids;
    if input.ExecutionFailed? {
      var r := AbortAfterData(c, s).req.records;
      AloneTakes([r[0]], r[1], [r[2]], r, s.state, Aborted);
    } else {
      var f := FactsOf(input);
      var m := s.metadata.(iterationCost := s.metadata.iterationCost + input.cost, candidate := Some(f));
      var evaluate := EvaluateSnapshot(s, f, At(c, s.iteration, 80), EvaluateStage, m);
      var o := Observe(f, evaluate.iteration, m.iterationCost, evaluate.enteredAt);
      var step := JudgeCandidate(c, evaluate, f).step;
      var before := EvidenceRecords(input.evidence) + CandidateRecords(c, s, input, evaluate);
      CandidateRecordsTake(c, s, input, evaluate);
      EvaluationPath(c.limits, evaluate, o.value);
      PolicyTurnTakes(c, evaluate, f, step, before, CandidateTx, Train);
      ReviewModelTakes(c, evaluate, f, input.reviewRequest, before, Train);
    }
  }

  // ---- Reviews ----

  lemma StopTakes(c: Config, pending: StateSnapshot, review: Review)
    requires review.ReviewDecided? || review.ReviewExpired?
    ensures var t := StopForApproval(c, pending, review); Takes(t.req.records, pending.state, t.next.state)
  {
    var r := StopForApproval(c, pending, review).req.records;
    AloneTakes([r[0], r[1]], r[2], [r[3]], r, pending.state, Stopped);
  }

  /** And every data review's. */
  lemma DataReviewTakes(c: Config, pending: StateSnapshot, review: Review)
    requires pending.state == DataReviewPending && DataReviewTurn(c, pending, review).Commit?
    ensures Takes(DataReviewTurn(c, pending, review).req.records, pending.state, DataReviewTurn(c, pending, review).next.state)
  {
    hide Takes, StopForApproval;
    if review.ReviewDecided? && review.approved {
      var r := DataReviewTurn(c, pending, review).req.records;
      AloneTakes([r[0], r[1]], r[2], [r[3]], r, DataReviewPending, Train);
    } else {
      StopTakes(c, pending, review);
    }
  }

  lemma ApprovedModelTakes(c: Config, pending: StateSnapshot, review: Review)
    requires pending.state == ModelReviewPending && ModelReviewTurn(c, pending, review).Commit?
    requires review.ReviewDecided? && review.approved
    ensures Takes(ModelReviewTurn(c, pending, review).req.records, Evaluate, ModelReviewTurn(c, pending, review).next.state)
    ensures TransitionsOf(ModelReviewTurn(c, pending, review).req.records) != []
  {
    hide Takes, PolicyRecords, EvaluateCandidate, TransitionsOf;
    var f := pending.metadata.candidate.value;
    var evaluate := EvaluateSnapshot(pending, f, review.decidedAt, EvaluateAfterApproval, pending.metadata);
    var o := Observe(f, evaluate.iteration, evaluate.metadata.iterationCost, evaluate.enteredAt);
    var step := JudgeCandidate(c, evaluate, f).step;
    var before := [EvidenceRecord(review.evidence), DecisionRecord(review.decision), SnapshotRecord(evaluate)];
    StaysPut(before, Evaluate);
    EvaluationPath(c.limits, evaluate, o.value);
    PolicyTurnTakes(c, evaluate, f, step, before, ModelReviewApproved, Evaluate);
    PolicyHasTransitions(step);
    TransitionsJoin(before, PolicyRecords(step));
    TransitionsJoin(before + PolicyRecords(step), [SnapshotRecord(ModelReviewTurn(c, pending, review).next)]);
  }

  lemma PolicyHasTransitions(step: PolicyStep)
    requires StepPath(step)
    ensures TransitionsOf(PolicyRecords(step)) != []
  {
    var d, t, n := DecisionRecords(step.decisions), TransitionRecords(step.transitions), SnapshotRecords(step.snapshots);
    hide TransitionsOf;
    TransitionsAre(step.transitions);
    TransitionsJoin(d, t);
    TransitionsJoin(d + t, n);
  }

  lemma PathsDiffer(ts: seq<Transition>, a: ControlState, b: ControlState, to: ControlState)
    requires Path(ts, a, to) && ts != [] && a != b
    ensures !Path(ts, b, to)
  {
  }

  /** A model review's transitions start from where the run stood exactly when the model was
      not approved: an approval is recorded as if the run were still at EVALUATE, so no
      transition ever leaves MODEL_REVIEW_PENDING for PROMOTED. */
  lemma ModelReviewTakes(c: Config, pending: StateSnapshot, review: Review)
    requires pending.state == ModelReviewPending && ModelReviewTurn(c, pending, review).Commit?
    ensures var t := ModelReviewTurn(c, pending, review);
      Takes(t.req.records, pending.state, t.next.state) <==> !(review.ReviewDecided? && review.approved)
  {
    hide ModelReviewTurn, StopForApproval, TransitionsOf, Path;
    var t := ModelReviewTurn(c, pending, review);
    if review.ReviewDecided? && review.approved {
      ApprovedModelTakes(c, pending, review);
      PathsDiffer(TransitionsOf(t.req.records), Evaluate, ModelReviewPending, t.next.state);
    } else {
      NotApprovedStops(c, pending, review);
      StopTakes(c, pending, review);
    }
  }

  lemma NotApprovedStops(c: Config, pending: StateSnapshot, review: Review)
    requires ModelReviewTurn(c, pending, review).Commit? && !(review.ReviewDecided? && review.approved)
    ensures review.ReviewDecided? || review.ReviewExpired?
    ensures ModelReviewTurn(c, pending, review) == StopForApproval(c, pending, review)
  {
  }
}
