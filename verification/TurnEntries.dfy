/** The snapshots of a turn and the transitions that enter them tell the same story. */
module TurnEntries {
  import opened Records
  import opened Policy
  import opened Controller

  /** The transition leads to the snapshot's state, at its time, on its evidence, and names its decision; the
      decision of the snapshot the turn began at may also be carried along. */
  predicate Enters(s: StateSnapshot, m: Transition, x: StateSnapshot) {
    && m.run == x.run && m.toState == x.state && m.occurredAt == x.enteredAt && m.evidence == x.evidence
    && m.iteration == s.iteration
    && (m.decision == x.metadata.decision || (m.decision == None && x.metadata.decision == s.metadata.decision))
  }

  ghost predicate EnteredBy(s: StateSnapshot, records: seq<Record>, x: StateSnapshot) {
    exists m :: TransitionRecord(m) in records && Enters(s, m, x)
  }

  /** Every snapshot of the list is entered by a transition of the list. */
  ghost predicate AllEntered(s: StateSnapshot, records: seq<Record>) {
    forall x :: SnapshotRecord(x) in records ==> EnteredBy(s, records, x)
  }

  lemma EnteredInMore(s: StateSnapshot, some: seq<Record>, all: seq<Record>, x: StateSnapshot)
    requires EnteredBy(s, some, x) && forall r :: r in some ==> r in all
    ensures EnteredBy(s, all, x)
  {
    hide Enters;
  }

  lemma EnteredJoins(s: StateSnapshot, a: seq<Record>, b: seq<Record>)
    requires AllEntered(s, a) && AllEntered(s, b)
    ensures AllEntered(s, a + b)
  {
    hide EnteredBy;
    forall x | SnapshotRecord(x) in a + b ensures EnteredBy(s, a + b, x) {
      if SnapshotRecord(x) in a { EnteredInMore(s, a, a + b, x); } else { EnteredInMore(s, b, a + b, x); }
    }
  }

  lemma NoSnapshots(s: StateSnapshot, records: seq<Record>)
    requires forall i :: 0 <= i < |records| ==> !records[i].SnapshotRecord?
    ensures AllEntered(s, records)
  {
  }

  lemma OneEntered(s: StateSnapshot, before: seq<Record>, m: Record, x: StateSnapshot)
    requires m.TransitionRecord? && Enters(s, m.transition, x)
    requires forall i :: 0 <= i < |before| ==> !before[i].SnapshotRecord?
    ensures AllEntered(s, before + [m] + [SnapshotRecord(x)])
  {
    hide Enters;
    var all := before + [m] + [SnapshotRecord(x)];
    assert all[|before|] == m;
    assert forall i :: 0 <= i < |all| - 1 ==> !all[i].SnapshotRecord?;
    assert forall y :: SnapshotRecord(y) in all ==> y == x;
  }

  // ---- Data turns ----

  lemma StagesAreEntered(c: Config, s: StateSnapshot, e: DataEvidence, cost: real)
    ensures AllEntered(s, EvidenceRecords(AllDataEvidence(e)) + StageRecords(c, s, e, cost))
  {
    hide AllEntered;
    var r, front := StageRecords(c, s, e, cost), EvidenceRecords(AllDataEvidence(e));
    OneEntered(s, [], r[0], r[1].snapshot);
    OneEntered(s, [], r[2], r[3].snapshot);
    OneEntered(s, [], r[4], r[5].snapshot);
    assert r == ([] + [r[0]] + [r[1]]) + ([] + [r[2]] + [r[3]]) + ([] + [r[4]] + [r[5]]);
    hide StageRecords;
    EnteredJoins(s, [] + [r[0]] + [r[1]], [] + [r[2]] + [r[3]]);
    EnteredJoins(s, ([] + [r[0]] + [r[1]]) + ([] + [r[2]] + [r[3]]), [] + [r[4]] + [r[5]]);
    NoSnapshots(s, front);
    EnteredJoins(s, front, r);
  }

  /** A commit of some entered records and then a last move. */
  lemma LastIsEntered(s: StateSnapshot, t: Turn, front: seq<Record>, before: seq<Record>, m: Record)
    requires t.Commit? && AllEntered(s, front) && t.req.records == front + (before + [m] + [SnapshotRecord(t.next)])
    requires m.TransitionRecord? && Enters(s, m.transition, t.next)
    requires forall i :: 0 <= i < |before| ==> !before[i].SnapshotRecord?
    ensures AllEntered(s, t.req.records)
  {
    hide AllEntered, Enters;
    OneEntered(s, before, m, t.next);
    EnteredJoins(s, front, before + [m] + [SnapshotRecord(t.next)]);
  }

  lemma AbortEnters(c: Config, s: StateSnapshot, evidence: seq<Evidence>, stop: StopReason)
    ensures AllEntered(s, AbortBeforeCandidate(c, s, evidence, stop).req.records)
  {
    hide AllEntered, Ids;
    var t := AbortBeforeCandidate(c, s, evidence, stop);
    var k := |EvidenceRecords(evidence)|;
    NoSnapshots(s, []);
    var before := EvidenceRecords(evidence) + [t.req.records[k]];
    assert t.req.records == [] + (before + [t.req.records[k + 1]] + [SnapshotRecord(t.next)]);
    LastIsEntered(s, t, [], before, t.req.records[k + 1]);
  }

  lemma RejectEnters(c: Config, s: StateSnapshot, e: DataEvidence, dataset: Id, accepted: nat, cost: real)
    ensures AllEntered(s, RejectData(c, s, e, dataset, accepted, cost).req.records)
  {
    hide AllEntered, Ids, EvidenceRecords, StageRecords, AllDataEvidence;
    var t := RejectData(c, s, e, dataset, accepted, cost);
    var staged := EvidenceRecords(AllDataEvidence(e)) + StageRecords(c, s, e, cost);
    var r, k := t.req.records, |staged|;
    assert r[k].DecisionRecord? && r[k + 1].TransitionRecord? && r[k + 2].SnapshotRecord? && r[k + 3].DecisionRecord?;
    assert r == staged + ([r[k]] + [r[k + 1]] + [r[k + 2]]) + ([r[k + 3]] + [r[k + 4]] + [SnapshotRecord(t.next)]);
    StagesAreEntered(c, s, e, cost);
    OneEntered(s, [r[k]], r[k + 1], r[k + 2].snapshot);
    EnteredJoins(s, staged, [r[k]] + [r[k + 1]] + [r[k + 2]]);
    LastIsEntered(s, t, staged + ([r[k]] + [r[k + 1]] + [r[k + 2]]), [r[k + 3]], r[k + 4]);
  }

  lemma ReviewEnters(c: Config, s: StateSnapshot, e: DataEvidence, request: Evidence, dataset: Id, cost: real)
    ensures AllEntered(s, ReviewData(c, s, e, request, dataset, cost).req.records)
  {
    hide AllEntered, EvidenceRecords, StageRecords, AllDataEvidence;
    var t := ReviewData(c, s, e, request, dataset, cost);
    var staged := EvidenceRecords(AllDataEvidence(e)) + StageRecords(c, s, e, cost);
    var r, k := t.req.records, |staged|;
    assert r[k].EvidenceRecord? && r[k + 1].DecisionRecord? && r[k + 2].TransitionRecord?;
    assert r == staged + ([r[k], r[k + 1]] + [r[k + 2]] + [SnapshotRecord(t.next)]);
    StagesAreEntered(c, s, e, cost);
    LastIsEntered(s, t, staged, [r[k], r[k + 1]], r[k + 2]);
  }

  lemma AcceptEnters(c: Config, s: StateSnapshot, e: DataEvidence, cost: real)
    ensures AllEntered(s, AcceptData(c, s, e, cost).req.records)
  {
    hide AllEntered, EvidenceRecords, StageRecords, AllDataEvidence, Ids;
    var t := AcceptData(c, s, e, cost);
    var staged := EvidenceRecords(AllDataEvidence(e)) + StageRecords(c, s, e, cost);
    var r, k := t.req.records, |staged|;
    assert r[k].TransitionRecord?;
    assert r == staged + ([] + [r[k]] + [SnapshotRecord(t.next)]);
    StagesAreEntered(c, s, e, cost);
    LastIsEntered(s, t, staged, [], r[k]);
  }

  /** Every snapshot of a data turn is entered by a transition of its time, evidence and decision. */
  lemma DataTurnEnters(c: Config, s: StateSnapshot, input: DataInput)
    ensures DataTurn(c, s, input).Commit? && AllEntered(s, DataTurn(c, s, input).req.records)
  {
    var e := input.evidence;
    if s.iteration > c.limits.maxIterations {
      var t := DataTurn(c, s, input);
      hide AllEntered;
      NoSnapshots(s, []);
      assert t.req.records == [] + ([t.req.records[0]] + [t.req.records[1]] + [SnapshotRecord(t.next)]);
      LastIsEntered(s, t, [], [t.req.records[0]], t.req.records[1]);
    } else {
      hide AllEntered, AbortBeforeCandidate, RejectData, ReviewData, AcceptData, AcceptanceRate;
      match input.teacher
      case CircuitOpen => AbortEnters(c, s, [e.diagnostic, e.hypothesis], ProviderCircuitOpen);
      case TeacherFailed => AbortEnters(c, s, [e.diagnostic, e.hypothesis], InternalError);
      case Batch(cost, accepted, rejected, dataset) =>
        AbortEnters(c, s, [e.diagnostic, e.hypothesis], InternalError);
        AbortEnters(c, s, [e.diagnostic, e.hypothesis], PerIterationBudgetExceeded);
        AbortEnters(c, s, [e.diagnostic, e.hypothesis], TotalBudgetExceeded);
        RejectEnters(c, s, e, dataset, accepted, cost);
        ReviewEnters(c, s, e, input.reviewRequest, dataset, cost);
        AcceptEnters(c, s, e, cost);
      DataTurnCommits(c, s, input);
    }
  }

  lemma DataTurnCommits(c: Config, s: StateSnapshot, input: DataInput)
    ensures DataTurn(c, s, input).Commit?
  {
    hide EvidenceRecords, StageRecords, AllDataEvidence, Ids, AcceptanceRate;
  }

  // ---- Candidate turns ----

  lemma PolicyIsEntered(s: StateSnapshot, evaluate: StateSnapshot, o: Observation, step: PolicyStep)
    requires OneStory(step, evaluate, o) && evaluate.iteration == s.iteration
    ensures AllEntered(s, PolicyRecords(step))
  {
    var r, n := PolicyRecords(step), |step.decisions|;
    forall x | SnapshotRecord(x) in r ensures EnteredBy(s, r, x) {
      var i :| 0 <= i < n && step.snapshots[i] == x;
      assert TellsAt(step, evaluate, o, i);
      assert r[n + i] == TransitionRecord(step.transitions[i]);
      assert Enters(s, step.transitions[i], x);
    }
  }

  lemma CandidateIsEntered(c: Config, s: StateSnapshot, input: CandidateInput, evaluate: StateSnapshot)
    requires input.Evaluated? && evaluate.run == s.run && evaluate.state == Evaluate && evaluate.enteredAt == At(c, s.iteration, 80)
    requires evaluate.evidence == Ids(input.evidence) && evaluate.metadata.decision == s.metadata.decision
    ensures AllEntered(s, CandidateRecords(c, s, input, evaluate))
  {
    hide AllEntered, Ids;
    var r := CandidateRecords(c, s, input, evaluate);
    OneEntered(s, [], r[0], r[1].snapshot);
    OneEntered(s, [], r[2], evaluate);
    assert r == ([] + [r[0]] + [r[1]]) + ([] + [r[2]] + [SnapshotRecord(evaluate)]);
    EnteredJoins(s, [] + [r[0]] + [r[1]], [] + [r[2]] + [SnapshotRecord(evaluate)]);
  }

  /** The last snapshot of a decided candidate is one of the policy's, moved to a later time under an id of
      its own, with the keys it is materialised by. */
  ghost predicate CopiesOne(t: Turn)
    requires t.Commit?
  {
    exists x :: SnapshotRecord(x) in t.req.records && IsCopy(x, t.next)
  }

  predicate IsCopy(x: StateSnapshot, next: StateSnapshot) {
    && next.id != x.id && x.enteredAt <= next.enteredAt && next.metadata.decision == x.metadata.decision
    && next == x.(id := next.id, enteredAt := next.enteredAt, metadata := next.metadata)
  }

  /** Every snapshot of the turn but its last is entered by a transition of the turn, or there before it. */
  ghost predicate EnteredButLast(s: StateSnapshot, t: Turn, known: set<StateSnapshot>)
    requires t.Commit?
  {
    forall x :: SnapshotRecord(x) in t.req.records && x != t.next && x !in known ==> EnteredBy(s, t.req.records, x)
  }

  lemma PolicyTurnEnters(
    c: Config, s: StateSnapshot, evaluate: StateSnapshot, f: CandidateFacts, o: Observation, step: PolicyStep,
    before: seq<Record>, tag: Tag, known: set<StateSnapshot>)
    requires OneStory(step, evaluate, o) && evaluate.iteration == s.iteration && o.evaluatedAt <= At(c, s.iteration, 110)
    requires FinalOf(step).id != MintedFor(SnapshotId, evaluate.run, evaluate.iteration, tag, f.checkpoint)
    requires forall x :: SnapshotRecord(x) in before && x !in known ==> EnteredBy(s, before, x)
    ensures step.snapshots != [] && step.decisions != []
    ensures var t := PolicyTurn(c, evaluate, f, step, before, tag);
      t.Commit? && EnteredButLast(s, t, known) && CopiesOne(t)
  {
    hide EnteredBy;
    PolicyIsEntered(s, evaluate, o, step);
    hide OneStory;
    assert TellsAt(step, evaluate, o, |step.snapshots| - 1);
    var t := PolicyTurn(c, evaluate, f, step, before, tag);
    var r := t.req.records;
    assert r == before + PolicyRecords(step) + [SnapshotRecord(t.next)];
    assert r[|before| + |step.decisions| + |step.transitions| + |step.snapshots| - 1] == SnapshotRecord(FinalOf(step));
    assert IsCopy(FinalOf(step), t.next);
    forall x | SnapshotRecord(x) in r && x != t.next && x !in known ensures EnteredBy(s, r, x) {
      if SnapshotRecord(x) in before { EnteredInMore(s, before, r, x); } else { EnteredInMore(s, PolicyRecords(step), r, x); }
    }
  }

  /** The ids of a policy step are not those of the snapshot it is copied to. */
  lemma CopyHasItsOwnId(limits: Limits, s: StateSnapshot, o: Observation, tag: Tag)
    requires EvaluateCandidate(limits, s, o).Decided? && (tag == CandidateTx || tag == ModelReviewApproved)
    ensures var step := EvaluateCandidate(limits, s, o).step;
      step.snapshots != [] && FinalOf(step).id != MintedFor(SnapshotId, s.run, s.iteration, tag, o.checkpoint)
  {
    hide PrimaryEdge;
  }

  lemma AbortAfterEnters(c: Config, s: StateSnapshot)
    ensures AbortAfterData(c, s).Commit? && AllEntered(s, AbortAfterData(c, s).req.records)
  {
    hide AllEntered;
    var t := AbortAfterData(c, s);
    NoSnapshots(s, []);
    assert t.req.records == [] + ([t.req.records[0]] + [t.req.records[1]] + [SnapshotRecord(t.next)]);
    LastIsEntered(s, t, [], [t.req.records[0]], t.req.records[1]);
  }

  lemma ReviewModelEnters(
    c: Config, s: StateSnapshot, evaluate: StateSnapshot, f: CandidateFacts, request: Evidence, before: seq<Record>)
    requires AllEntered(s, before) && evaluate.iteration == s.iteration
    ensures ReviewModel(c, evaluate, f, request, before).Commit?
    ensures AllEntered(s, ReviewModel(c, evaluate, f, request, before).req.records)
  {
    hide AllEntered, AddId;
    var t := ReviewModel(c, evaluate, f, request, before);
    var r, k := t.req.records, |before|;
    assert r[k].EvidenceRecord? && r[k + 1].DecisionRecord? && r[k + 2].TransitionRecord?;
    assert r == before + ([r[k], r[k + 1]] + [r[k + 2]] + [SnapshotRecord(t.next)]);
    LastIsEntered(s, t, before, [r[k], r[k + 1]], r[k + 2]);
  }

  /** What the serving and the evaluation of a candidate put on record. */
  predicate IsServed(c: Config, s: StateSnapshot, input: CandidateInput, x: StateSnapshot)
    requires input.Evaluated?
  {
    && x.state == Serve && x.enteredAt == c.started + 3600 * s.iteration + 70 && x.candidate == Some(input.checkpoint)
    && x.evidence == [input.serving.id] && x.candidateScore == None
  }

  predicate IsEvaluated(c: Config, s: StateSnapshot, input: CandidateInput, x: StateSnapshot)
    requires input.Evaluated?
  {
    && x.state == Evaluate && x.enteredAt == c.started + 3600 * s.iteration + 80 && x.candidate == Some(input.checkpoint)
    && x.evidence == Ids(input.evidence) && x.candidateScore == Some(input.score)
    && x.metadata.iterationCost == s.metadata.iterationCost + input.cost
  }

  lemma CandidateIsOnRecord(c: Config, s: StateSnapshot, input: CandidateInput, evaluate: StateSnapshot, records: seq<Record>)
    requires input.Evaluated? && IsEvaluated(c, s, input, evaluate)
    requires forall r :: r in CandidateRecords(c, s, input, evaluate) ==> r in records
    ensures exists x :: SnapshotRecord(x) in records && IsServed(c, s, input, x)
    ensures exists x :: SnapshotRecord(x) in records && IsEvaluated(c, s, input, x)
  {
    var r := CandidateRecords(c, s, input, evaluate);
    assert r[1] in r && r[3] in r && IsServed(c, s, input, r[1].snapshot);
    hide CandidateRecords;
  }

  /** Every snapshot of a candidate turn is entered by a transition of its time, evidence and decision, except
      that the last one of a decided candidate is a copy of the policy's. An evaluated candidate is on record
      as served and as evaluated, with its score and what the iteration has cost. */
  lemma CandidateTurnEnters(c: Config, s: StateSnapshot, input: CandidateInput)
    requires CandidateTurn(c, s, input).Commit?
    ensures var t := CandidateTurn(c, s, input);
      AllEntered(s, t.req.records) || (EnteredButLast(s, t, {}) && CopiesOne(t))
    ensures input.Evaluated? ==>
      var records := CandidateTurn(c, s, input).req.records;
      && (exists x :: SnapshotRecord(x) in records && IsServed(c, s, input, x))
      && (exists x :: SnapshotRecord(x) in records && IsEvaluated(c, s, input, x))
  {
    hide AllEntered, EnteredBy, CandidateRecords, EvidenceRecords, EvaluateCandidate, OneStory, CopiesOne, IsServed;
    if input.ExecutionFailed? {
      AbortAfterEnters(c, s);
    } else {
      var f := FactsOf(input);
      var m := s.metadata.(iterationCost := s.metadata.iterationCost + input.cost, candidate := Some(f));
      var evaluate := EvaluateSnapshot(s, f, At(c, s.iteration, 80), EvaluateStage, m);
      var o := Observe(f, evaluate.iteration, m.iterationCost, evaluate.enteredAt).value;
      var step := JudgeCandidate(c, evaluate, f).step;
      var before := EvidenceRecords(input.evidence) + CandidateRecords(c, s, input, evaluate);
      CandidateIsOnRecord(c, s, input, evaluate, before);
      hide IsEvaluated;
      BeforeIsEntered(c, s, input, evaluate);
      PolicyStepIsOneStory(c.limits, evaluate, o);
      CopyHasItsOwnId(c.limits, evaluate, o, CandidateTx);
      EnteredMeans(s, before);
      PolicyTurnEnters(c, s, evaluate, f, o, step, before, CandidateTx, {});
      ReviewModelEnters(c, s, evaluate, f, input.reviewRequest, before);
      MoreIsOnRecord(c, evaluate, f, step, input.reviewRequest, before);
    }
  }

  lemma EnteredMeans(s: StateSnapshot, records: seq<Record>)
    requires AllEntered(s, records)
    ensures forall x :: SnapshotRecord(x) in records ==> EnteredBy(s, records, x)
  {
  }

  lemma BeforeIsEntered(c: Config, s: StateSnapshot, input: CandidateInput, evaluate: StateSnapshot)
    requires input.Evaluated? && evaluate.run == s.run && evaluate.state == Evaluate && evaluate.enteredAt == At(c, s.iteration, 80)
    requires evaluate.evidence == Ids(input.evidence) && evaluate.metadata.decision == s.metadata.decision
    ensures AllEntered(s, EvidenceRecords(input.evidence) + CandidateRecords(c, s, input, evaluate))
  {
    hide AllEntered;
    NoSnapshots(s, EvidenceRecords(input.evidence));
    CandidateIsEntered(c, s, input, evaluate);
    EnteredJoins(s, EvidenceRecords(input.evidence), CandidateRecords(c, s, input, evaluate));
  }

  lemma MoreIsOnRecord(
    c: Config, evaluate: StateSnapshot, f: CandidateFacts, step: PolicyStep, request: Evidence, before: seq<Record>)
    requires step.snapshots != [] && step.decisions != []
    ensures PolicyTurn(c, evaluate, f, step, before, CandidateTx).Commit? && ReviewModel(c, evaluate, f, request, before).Commit?
    ensures forall r :: r in before ==>
      && r in PolicyTurn(c, evaluate, f, step, before, CandidateTx).req.records
      && r in ReviewModel(c, evaluate, f, request, before).req.records
  {
    hide PolicyRecords, Materialized, AddId;
  }

  // ---- Reviews ----

  lemma StopEnters(c: Config, s: StateSnapshot, review: Review)
    requires review.ReviewDecided? || review.ReviewExpired?
    ensures StopForApproval(c, s, review).Commit? && AllEntered(s, StopForApproval(c, s, review).req.records)
  {
    hide AllEntered, AddId;
    var t := StopForApproval(c, s, review);
    var r := t.req.records;
    NoSnapshots(s, []);
    assert r == [] + ([r[0], r[1]] + [r[2]] + [SnapshotRecord(t.next)]);
    LastIsEntered(s, t, [], [r[0], r[1]], r[2]);
  }

  lemma DataReviewEnters(c: Config, s: StateSnapshot, review: Review)
    requires DataReviewTurn(c, s, review).Commit?
    ensures AllEntered(s, DataReviewTurn(c, s, review).req.records)
  {
    hide AllEntered, AddId, StopForApproval;
    if review.ReviewDecided? && review.approved {
      var t := DataReviewTurn(c, s, review);
      var r := t.req.records;
      NoSnapshots(s, []);
      assert r == [] + ([r[0], r[1]] + [r[2]] + [SnapshotRecord(t.next)]);
      LastIsEntered(s, t, [], [r[0], r[1]], r[2]);
    } else {
      StopEnters(c, s, review);
    }
  }

  /** An approved candidate is evaluated again at the time of the approval: no transition enters that
      snapshot, and the policy's own follow from it. */
  lemma ModelReviewEnters(c: Config, s: StateSnapshot, review: Review)
    requires ModelReviewTurn(c, s, review).Commit?
    ensures !(review.ReviewDecided? && review.approved) ==> AllEntered(s, ModelReviewTurn(c, s, review).req.records)
    ensures review.ReviewDecided? && review.approved ==>
      var t := ModelReviewTurn(c, s, review);
      exists x :: SnapshotRecord(x) in t.req.records && x.state == Evaluate && x.enteredAt == review.decidedAt
                  && EnteredButLast(s, t, {x})
  {
    hide AllEntered, EnteredBy, AddId, StopForApproval, EvaluateCandidate, OneStory, PolicyTurn, EnteredButLast, CopiesOne;
    if review.ReviewDecided? && review.approved {
      var f := s.metadata.candidate.value;
      var evaluate := EvaluateSnapshot(s, f, review.decidedAt, EvaluateAfterApproval, s.metadata);
      var o := Observe(f, evaluate.iteration, s.metadata.iterationCost, evaluate.enteredAt).value;
      var step := JudgeCandidate(c, evaluate, f).step;
      var before := [EvidenceRecord(review.evidence), DecisionRecord(review.decision), SnapshotRecord(evaluate)];
      PolicyStepIsOneStory(c.limits, evaluate, o);
      ApprovalEnters(c, s, evaluate, f, o, step, before);
    } else {
      StopEnters(c, s, review);
    }
  }

  lemma ApprovalEnters(
    c: Config, s: StateSnapshot, evaluate: StateSnapshot, f: CandidateFacts, o: Observation, step: PolicyStep, before: seq<Record>)
    requires OneStory(step, evaluate, o) && evaluate.iteration == s.iteration
    requires |before| == 3 && before[0].EvidenceRecord? && before[1].DecisionRecord? && before[2] == SnapshotRecord(evaluate)
    ensures step.snapshots != [] && step.decisions != []
    ensures var t := PolicyTurn(c, evaluate, f, step, before, ModelReviewApproved);
      t.Commit? && SnapshotRecord(evaluate) in t.req.records && EnteredButLast(s, t, {evaluate})
  {
    hide EnteredBy;
    PolicyIsEntered(s, evaluate, o, step);
    hide OneStory;
    var t := PolicyTurn(c, evaluate, f, step, before, ModelReviewApproved);
    var r := t.req.records;
    assert r == before + PolicyRecords(step) + [SnapshotRecord(t.next)];
    assert r[2] == before[2];
    EnteredMeans(s, PolicyRecords(step));
    forall x | SnapshotRecord(x) in r && x != t.next && x != evaluate ensures EnteredBy(s, r, x) {
      assert SnapshotRecord(x) in PolicyRecords(step);
      EnteredInMore(s, PolicyRecords(step), r, x);
    }
  }
}
