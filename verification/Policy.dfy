/** RSIDecisionPolicy: the pure promote / reject / rollback / plateau / budget policy for one
    evaluated candidate. */
module Policy {
  import opened Records

  datatype LimitFields = LimitFields(
    maxIterations: nat, patience: nat, minImprovement: real, regressionTolerance: real,
    perIteration: real, total: real)

  /** Limits that fail these checks cannot be constructed. */
  type Limits = l: LimitFields |
      && 1 <= l.maxIterations && 1 <= l.patience
      && 0.0 <= l.minImprovement && 0.0 <= l.regressionTolerance
      && 0.0 < l.perIteration <= l.total
    witness LimitFields(1, 1, 0.0, 0.0, 1.0, 1.0)

  datatype ObservationFields = ObservationFields(
    checkpoint: Id, parent: Option<Id>, iteration: nat, score: real, cost: real,
    evaluatedAt: int, evidence: seq<Id>)

  type Observation = o: ObservationFields |
      && o.parent != Some(o.checkpoint) && 1 <= o.iteration && 0.0 <= o.cost && o.evidence != []
    witness ObservationFields(Text("c"), None, 1, 0.0, 0.0, 0, [Text("e")])

  datatype PolicyStep = PolicyStep(
    decisions: seq<Decision>, transitions: seq<Transition>, snapshots: seq<StateSnapshot>)

  datatype Verdict = Decided(step: PolicyStep) | InvariantError

  /** `_record_id`: run, iteration, phase and candidate all enter the digest. */
  function PolicyId(kind: IdKind, s: StateSnapshot, target: ControlState, candidate: Observation): Id {
    MintedFor(kind, s.run, s.iteration, PolicyPhase(target), candidate.checkpoint)
  }

  predicate InputConsistent(current: StateSnapshot, candidate: Observation) {
    && current.state == Evaluate
    && current.iteration == candidate.iteration
    && current.active == current.peak
    && candidate.parent == current.active
    && (current.candidate.Some? ==> current.candidate.value == candidate.checkpoint)
    && current.peakScore.Some?
  }

  function Regression(peak: real, score: real): real {
    if 0.0 < peak - score then peak - score else 0.0
  }

  /** Where the decision about the candidate leads, and what it makes of the Peak. */
  datatype Edge = Edge(
    target: ControlState, action: Action, reasonCode: ReasonCode, peak: Option<Id>, peakScore: real,
    plateau: nat, stop: Option<StopReason>)

  function PrimaryEdge(limits: Limits, current: StateSnapshot, candidate: Observation): Edge
    requires current.peakScore.Some?
  {
    var peak := current.peakScore.value;
    if candidate.cost > limits.perIteration + EPSILON then
      Edge(Aborted, Abort, PolicyBudget(PerIterationBudgetExceeded), current.peak, peak, current.plateau,
           Some(PerIterationBudgetExceeded))
    else if current.totalCost + candidate.cost > limits.total + EPSILON then
      Edge(Aborted, Abort, PolicyBudget(TotalBudgetExceeded), current.peak, peak, current.plateau,
           Some(TotalBudgetExceeded))
    else if candidate.score > peak + limits.minImprovement then
      Edge(Promoted, Promote, CandidateAbovePeak, Some(candidate.checkpoint), candidate.score, 0, None)
    else if Regression(peak, candidate.score) > limits.regressionTolerance + EPSILON then
      Edge(RolledBack, Rollback, CandidateRegressed, current.peak, peak, current.plateau + 1,
           Some(RegressionRollback))
    else
      Edge(Rejected, Action.Reject, CandidateNotAbovePeak, current.peak, peak, current.plateau + 1, None)
  }

  function CandidateStep(current: StateSnapshot, candidate: Observation, edge: Edge): PolicyStep {
    var decision := PolicyId(DecisionId, current, edge.target, candidate);
    PolicyStep(
      [Decision(decision, current.run, current.iteration, CheckpointSubject, candidate.checkpoint,
                edge.action, edge.reasonCode, candidate.evidence, candidate.evaluatedAt, edge.stop)],
      [Transition(PolicyId(TransitionId, current, edge.target, candidate), current.run, current.iteration,
                  Some(current.state), edge.target, candidate.evaluatedAt, Some(decision), candidate.evidence)],
      [StateSnapshot(
        PolicyId(SnapshotId, current, edge.target, candidate), current.run, current.iteration, edge.target,
        candidate.evaluatedAt,
        if edge.target == Promoted then Some(candidate.checkpoint) else current.active,
        Some(candidate.checkpoint), edge.peak, Some(candidate.score), Some(edge.peakScore), edge.plateau,
        current.totalCost + candidate.cost, edge.stop, candidate.evidence,
        EMPTY_METADATA.(decision := Some(decision)))])
  }

  function FinalOf(step: PolicyStep): StateSnapshot
    requires step.snapshots != []
  {
    step.snapshots[|step.snapshots| - 1]
  }

  function AppendRunDecision(
    step: PolicyStep, candidate: Observation, target: ControlState, action: Action,
    reasonCode: ReasonCode, stop: Option<StopReason>, iteration: nat): PolicyStep
    requires step.snapshots != []
  {
    var current := FinalOf(step);
    var decision := PolicyId(DecisionId, current, target, candidate);
    var terminal := target == Stopped;
    PolicyStep(
      step.decisions + [
        Decision(decision, current.run, current.iteration, RunSubject, current.run, action, reasonCode,
                 candidate.evidence, candidate.evaluatedAt, stop)],
      step.transitions + [
        Transition(PolicyId(TransitionId, current, target, candidate), current.run, current.iteration,
                   Some(current.state), target, candidate.evaluatedAt, Some(decision), candidate.evidence)],
      step.snapshots + [
        StateSnapshot(
          PolicyId(SnapshotId, current, target, candidate), current.run, iteration, target,
          candidate.evaluatedAt, current.active,
          if terminal then current.candidate else None, current.peak,
          if terminal then current.candidateScore else None, current.peakScore, current.plateau,
          current.totalCost, stop, candidate.evidence, EMPTY_METADATA.(decision := Some(decision)))])
  }

  /** Plateau before maximum iterations before the next iteration. */
  function Advance(limits: Limits, step: PolicyStep, candidate: Observation): PolicyStep
    requires step.snapshots != []
  {
    var current := FinalOf(step);
    if current.plateau >= limits.patience then
      AppendRunDecision(step, candidate, Stopped, Stop, PlateauReached, Some(Plateau), current.iteration)
    else if current.iteration >= limits.maxIterations then
      AppendRunDecision(step, candidate, Stopped, Stop, MaxIterationsReached, Some(MaxIterations), current.iteration)
    else
      AppendRunDecision(step, candidate, Diagnose, Continue, NextIteration, None, current.iteration + 1)
  }

  /** `evaluate`: promoted and rejected candidates also decide how the run goes on. */
  function EvaluateCandidate(limits: Limits, current: StateSnapshot, candidate: Observation): Verdict {
    if !InputConsistent(current, candidate) then InvariantError
    else
      var edge := PrimaryEdge(limits, current, candidate);
      var step := CandidateStep(current, candidate, edge);
      if edge.target == Promoted || edge.target == Rejected then
        Decided(Advance(limits, step, candidate))
      else
        Decided(step)
  }

  // ---- What one evaluation guarantees ----

  /** `RSIPolicyStep.__post_init__`: each edge is one decision, one transition and one
      snapshot that name the same decision and run. */
  predicate Paired(step: PolicyStep) {
    && 0 < |step.decisions| == |step.transitions| == |step.snapshots|
    && forall i :: 0 <= i < |step.decisions| ==>
      && step.transitions[i].decision == Some(step.decisions[i].id)
      && step.snapshots[i].metadata.decision == Some(step.decisions[i].id)
      && step.decisions[i].run == step.transitions[i].run == step.snapshots[i].run
  }

  predicate TerminalHasReason(s: StateSnapshot) {
    TerminalState(s.state) <==> s.stop.Some?
  }

  ghost predicate SoundStep(step: PolicyStep, candidate: Observation) {
    && Paired(step)
    && forall i :: 0 <= i < |step.snapshots| ==>
      && step.snapshots[i].active == step.snapshots[i].peak
      && TerminalHasReason(step.snapshots[i])
      && step.snapshots[i].enteredAt == candidate.evaluatedAt
      && step.snapshots[i].evidence == candidate.evidence
  }

  lemma AppendKeepsSound(
    step: PolicyStep, candidate: Observation, target: ControlState, action: Action,
    reasonCode: ReasonCode, stop: Option<StopReason>, iteration: nat)
    requires SoundStep(step, candidate) && (TerminalState(target) <==> stop.Some?)
    ensures SoundStep(AppendRunDecision(step, candidate, target, action, reasonCode, stop, iteration), candidate)
  {
  }

  lemma AdvanceKeepsSound(limits: Limits, step: PolicyStep, candidate: Observation)
    requires SoundStep(step, candidate)
    ensures SoundStep(Advance(limits, step, candidate), candidate)
  {
    var n := FinalOf(step).iteration;
    AppendKeepsSound(step, candidate, Stopped, Stop, PlateauReached, Some(Plateau), n);
    AppendKeepsSound(step, candidate, Stopped, Stop, MaxIterationsReached, Some(MaxIterations), n);
    AppendKeepsSound(step, candidate, Diagnose, Continue, NextIteration, None, n + 1);
  }

  /** The step the policy builds is always well paired, every snapshot keeps the accepted
      checkpoint active, and a stop reason is present exactly in terminal states. */
  lemma PolicyStepIsSound(limits: Limits, current: StateSnapshot, candidate: Observation)
    requires EvaluateCandidate(limits, current, candidate).Decided?
    ensures SoundStep(EvaluateCandidate(limits, current, candidate).step, candidate)
  {
    hide Advance, CandidateStep;
    var edge := PrimaryEdge(limits, current, candidate);
    CandidateStepIsSound(current, candidate, edge);
    AdvanceKeepsSound(limits, CandidateStep(current, candidate, edge), candidate);
  }

  lemma CandidateStepIsSound(current: StateSnapshot, candidate: Observation, edge: Edge)
    requires edge.peak == if edge.target == Promoted then Some(candidate.checkpoint) else current.active
    requires TerminalState(edge.target) <==> edge.stop.Some?
    ensures SoundStep(CandidateStep(current, candidate, edge), candidate)
  {
  }

  /** Decision, transition and snapshot of one edge tell the same story: the evidence and the time of the
      observation, one reason to stop, and a move from where the edge before it ended. */
  ghost predicate OneStory(step: PolicyStep, s: StateSnapshot, o: Observation) {
    && 0 < |step.decisions| == |step.transitions| == |step.snapshots|
    && forall i :: 0 <= i < |step.decisions| ==> TellsAt(step, s, o, i)
  }

  ghost predicate TellsAt(step: PolicyStep, s: StateSnapshot, o: Observation, i: nat)
    requires i < |step.decisions| == |step.transitions| == |step.snapshots|
  {
    EdgeTells(step.decisions[i], step.transitions[i], step.snapshots[i], s, o, if i == 0 then s.state else step.snapshots[i - 1].state)
  }

  predicate EdgeTells(d: Decision, t: Transition, f: StateSnapshot, s: StateSnapshot, o: Observation, from: ControlState) {
    && d.evidence == o.evidence && t.evidence == o.evidence && f.evidence == o.evidence
    && d.createdAt == o.evaluatedAt && t.occurredAt == o.evaluatedAt && f.enteredAt == o.evaluatedAt
    && d.stop == f.stop && t.fromState == Some(from) && t.toState == f.state
    && d.run == s.run && t.run == s.run && f.run == s.run && d.iteration == s.iteration && t.iteration == s.iteration
    && t.decision == Some(d.id) && f.metadata == Metadata(Some(d.id), 0.0, None, None)
  }

  lemma AppendKeepsStory(
    step: PolicyStep, s: StateSnapshot, o: Observation, target: ControlState, action: Action,
    reasonCode: ReasonCode, stop: Option<StopReason>, iteration: nat)
    requires OneStory(step, s, o) && FinalOf(step).iteration == s.iteration
    ensures OneStory(AppendRunDecision(step, o, target, action, reasonCode, stop, iteration), s, o)
  {
    var more, n := AppendRunDecision(step, o, target, action, reasonCode, stop, iteration), |step.decisions|;
    assert TellsAt(step, s, o, n - 1);
    forall i | 0 <= i < |more.decisions| ensures TellsAt(more, s, o, i) {
      if i < n { assert TellsAt(step, s, o, i); }
    }
  }

  /** Every record of a policy step is about the observation, and its moves form a path out of the snapshot
      it was asked in. */
  lemma PolicyStepIsOneStory(limits: Limits, current: StateSnapshot, candidate: Observation)
    requires EvaluateCandidate(limits, current, candidate).Decided?
    ensures OneStory(EvaluateCandidate(limits, current, candidate).step, current, candidate)
  {
    hide AppendRunDecision, PrimaryEdge, OneStory;
    var step, n := CandidateStep(current, candidate, PrimaryEdge(limits, current, candidate)), current.iteration;
    CandidateStepIsOneStory(current, candidate, PrimaryEdge(limits, current, candidate));
    AppendKeepsStory(step, current, candidate, Stopped, Stop, PlateauReached, Some(Plateau), n);
    AppendKeepsStory(step, current, candidate, Stopped, Stop, MaxIterationsReached, Some(MaxIterations), n);
    AppendKeepsStory(step, current, candidate, Diagnose, Continue, NextIteration, None, n + 1);
  }

  lemma CandidateStepIsOneStory(current: StateSnapshot, candidate: Observation, edge: Edge)
    ensures var step := CandidateStep(current, candidate, edge);
      OneStory(step, current, candidate) && FinalOf(step).iteration == current.iteration
  {
    assert TellsAt(CandidateStep(current, candidate, edge), current, candidate, 0);
  }

  /** The four dispositions of a candidate, in the policy's order of precedence. */
  function Disposition(limits: Limits, s: StateSnapshot, o: Observation): Action
    requires s.peakScore.Some?
  {
    if o.cost > limits.perIteration + EPSILON || s.totalCost + o.cost > limits.total + EPSILON then Abort
    else if o.score > s.peakScore.value + limits.minImprovement then Promote
    else if s.peakScore.value - o.score > limits.regressionTolerance + EPSILON then Rollback
    else Action.Reject
  }

  /** The state the first decision of a step leads to. */
  function Reached(action: Action): ControlState {
    match action
    case Promote => Promoted
    case Rollback => RolledBack
    case Abort => Aborted
    case _ => Rejected
  }

  /** After a promotion or a rejection: patience used up is reported before the last iteration,
      and otherwise the next iteration begins. */
  predicate GoesOn(limits: Limits, plateau: nat, iteration: nat, f: StateSnapshot) {
    if plateau >= limits.patience then f.state == Stopped && f.iteration == iteration && f.stop == Some(Plateau)
    else if iteration >= limits.maxIterations then f.state == Stopped && f.iteration == iteration && f.stop == Some(MaxIterations)
    else f.state == Diagnose && f.iteration == iteration + 1 && f.stop == None
  }

  /** How the accepted state moves, by outcome. */
  ghost predicate Moves(limits: Limits, s: StateSnapshot, o: Observation, f: StateSnapshot)
    requires s.peakScore.Some?
  {
    var action := Disposition(limits, s, o);
    && f.run == s.run
    && f.totalCost == s.totalCost + o.cost
    && f.active == f.peak
    && f.peak == (if action == Promote then Some(o.checkpoint) else s.peak)
    && f.peakScore == (if action == Promote then Some(o.score) else s.peakScore)
    && f.plateau == (if action == Promote then 0 else if action == Abort then s.plateau else s.plateau + 1)
    && (match action
        case Abort =>
          f.state == Aborted && f.iteration == s.iteration
          && f.stop == Some(if o.cost > limits.perIteration + EPSILON then PerIterationBudgetExceeded else TotalBudgetExceeded)
        case Rollback => f.state == RolledBack && f.iteration == s.iteration && f.stop == Some(RegressionRollback)
        case _ => GoesOn(limits, f.plateau, s.iteration, f))
  }

  lemma AdvanceMoves(limits: Limits, step: PolicyStep, candidate: Observation)
    requires |step.snapshots| == |step.decisions| == |step.transitions| == 1
    ensures var a, s := Advance(limits, step, candidate), step.snapshots[0];
      && |a.snapshots| == |a.decisions| == |a.transitions| == 2
      && a.transitions[0] == step.transitions[0] && a.snapshots[0] == s
      && a.decisions[0] == step.decisions[0] && a.decisions[1].subjectType == RunSubject
      && a.decisions[1].stop == FinalOf(a).stop
      && a.decisions[1].reasonCode == (if s.plateau >= limits.patience then PlateauReached
                                       else if s.iteration >= limits.maxIterations then MaxIterationsReached
                                       else NextIteration)
      && var f := FinalOf(a);
      && f.run == s.run && f.totalCost == s.totalCost && f.active == s.active && f.peak == s.peak
      && f.peakScore == s.peakScore && f.plateau == s.plateau
      && f.candidate == (if f.state == Stopped then s.candidate else None)
      && f.candidateScore == (if f.state == Stopped then s.candidateScore else None)
      && a.decisions[1].action == (if f.state == Stopped then Stop else Continue)
      && a.transitions[1].fromState == Some(s.state) && a.transitions[1].toState == f.state
      && GoesOn(limits, s.plateau, s.iteration, f)
  {
  }

  lemma PrimaryEdgeMoves(limits: Limits, current: StateSnapshot, candidate: Observation)
    requires current.peakScore.Some?
    ensures var edge, action := PrimaryEdge(limits, current, candidate), Disposition(limits, current, candidate);
      && edge.action == action
      && edge.peak == (if action == Promote then Some(candidate.checkpoint) else current.peak)
      && edge.peakScore == (if action == Promote then candidate.score else current.peakScore.value)
      && edge.plateau == (if action == Promote then 0 else if action == Abort then current.plateau else current.plateau + 1)
      && edge.target == Reached(action)
      && (action == Abort ==>
            edge.stop == Some(if candidate.cost > limits.perIteration + EPSILON then PerIterationBudgetExceeded else TotalBudgetExceeded))
      && (action == Rollback ==> edge.stop == Some(RegressionRollback))
      && (action == Promote || action == Action.Reject ==> edge.stop == None)
      && edge.reasonCode == (match action case Abort => PolicyBudget(edge.stop.value) case Promote => CandidateAbovePeak
                                          case Rollback => CandidateRegressed case _ => CandidateNotAbovePeak)
  {
  }

  lemma CandidateStepMoves(current: StateSnapshot, candidate: Observation, edge: Edge)
    ensures var step := CandidateStep(current, candidate, edge);
      && |step.decisions| == |step.transitions| == |step.snapshots| == 1
      && var d, t, f := step.decisions[0], step.transitions[0], step.snapshots[0];
      && d.action == edge.action && d.reasonCode == edge.reasonCode && d.stop == edge.stop
      && d.evidence == candidate.evidence && d.createdAt == candidate.evaluatedAt
      && t.fromState == Some(current.state) && t.toState == edge.target
      && f.candidate == Some(candidate.checkpoint) && f.candidateScore == Some(candidate.score)
      && d.subjectType == CheckpointSubject && d.subject == candidate.checkpoint
      && d.run == current.run && d.iteration == current.iteration
      && f.run == current.run && f.iteration == current.iteration && f.state == edge.target
      && f.totalCost == current.totalCost + candidate.cost
      && f.active == (if edge.target == Promoted then Some(candidate.checkpoint) else current.active)
      && f.peak == edge.peak && f.peakScore == Some(edge.peakScore) && f.plateau == edge.plateau
      && f.stop == edge.stop
  {
  }

  /** The boundaries the documentation promises: a score equal to the threshold is a
      rejection, a cost equal to a limit is allowed, and an improvement in the last iteration
      is accepted before the run stops. */
  lemma BoundariesAreAsDocumented(limits: Limits, s: StateSnapshot, o: Observation)
    requires InputConsistent(s, o)
    ensures var verdict := EvaluateCandidate(limits, s, o);
      && verdict.Decided? && verdict.step.decisions != []
      && var action := verdict.step.decisions[0].action;
      && (o.score == s.peakScore.value + limits.minImprovement ==> action != Promote)
      && (o.cost <= limits.perIteration && s.totalCost + o.cost <= limits.total ==> action != Abort)
      && (action == Promote && s.iteration == limits.maxIterations ==>
            && |verdict.step.snapshots| == 2
            && verdict.step.snapshots[0].state == Promoted && verdict.step.snapshots[1].state == Stopped
            && verdict.step.snapshots[1].peak == Some(o.checkpoint)
            && verdict.step.snapshots[1].stop == Some(MaxIterations))
  {
    hide CandidateStep, AppendRunDecision, PrimaryEdge;
    BoundaryEdge(limits, s, o);
    BoundaryStep(limits, s, o, PrimaryEdge(limits, s, o));
  }

  lemma BoundaryEdge(limits: Limits, s: StateSnapshot, o: Observation)
    requires s.peakScore.Some?
    ensures var edge := PrimaryEdge(limits, s, o);
      && (o.score == s.peakScore.value + limits.minImprovement ==> edge.action != Promote)
      && (o.cost <= limits.perIteration && s.totalCost + o.cost <= limits.total ==> edge.action != Abort)
      && (edge.action == Promote <==> edge.target == Promoted)
      && (edge.action == Promote ==> edge.plateau == 0 && edge.peak == Some(o.checkpoint))
  {
  }

  lemma BoundaryStep(limits: Limits, s: StateSnapshot, o: Observation, edge: Edge)
    ensures var step := CandidateStep(s, o, edge);
      && step.snapshots != [] && |step.decisions| == 1 && step.decisions[0].action == edge.action
      && var a := Advance(limits, step, o);
      && |a.decisions| == 2 && a.decisions[0] == step.decisions[0]
      && (edge.target == Promoted && edge.plateau == 0 && s.iteration == limits.maxIterations ==>
            && |a.snapshots| == 2 && a.snapshots[0].state == Promoted && a.snapshots[1].state == Stopped
            && a.snapshots[1].peak == edge.peak && a.snapshots[1].stop == Some(MaxIterations))
  {
  }

  predicate OverBudget(limits: Limits, s: StateSnapshot, o: Observation) {
    o.cost > limits.perIteration + EPSILON || s.totalCost + o.cost > limits.total + EPSILON
  }

  predicate Improves(limits: Limits, peak: real, o: Observation) {
    peak + limits.minImprovement < o.score
  }

  predicate Regresses(limits: Limits, peak: real, o: Observation) {
    o.score + limits.regressionTolerance + EPSILON < peak
  }

  /** Exactly which inputs the policy decides: an evaluated snapshot whose active checkpoint is its Peak,
      and a candidate of its iteration that was trained from that Peak. */
  lemma DecidedIff(limits: Limits, s: StateSnapshot, o: Observation)
    ensures EvaluateCandidate(limits, s, o).Decided? <==>
      && s.state == Evaluate && s.iteration == o.iteration && s.peakScore.Some?
      && s.peak == s.active && o.parent == s.peak
      && (s.candidate == None || s.candidate == Some(o.checkpoint))
  {
  }

  /** Exactly when each verdict is given, and with which reason. An improvement is never also a
      regression, so only the budget takes precedence over another verdict that would apply. */
  lemma VerdictIsExact(limits: Limits, s: StateSnapshot, o: Observation)
    requires EvaluateCandidate(limits, s, o).Decided?
    ensures s.peakScore.Some? && EvaluateCandidate(limits, s, o).step.decisions != []
    ensures var action, peak := EvaluateCandidate(limits, s, o).step.decisions[0].action, s.peakScore.value;
      && !(Improves(limits, peak, o) && Regresses(limits, peak, o))
      && (action == Abort <==> OverBudget(limits, s, o))
      && (action == Promote <==> !OverBudget(limits, s, o) && Improves(limits, peak, o))
      && (action == Rollback <==> !OverBudget(limits, s, o) && Regresses(limits, peak, o))
      && (action == Action.Reject <==>
            !OverBudget(limits, s, o) && !Improves(limits, peak, o) && !Regresses(limits, peak, o))
    ensures var d, peak := EvaluateCandidate(limits, s, o).step.decisions[0], s.peakScore.value;
      && (d.reasonCode == PolicyBudget(PerIterationBudgetExceeded) <==> o.cost > limits.perIteration + EPSILON)
      && (d.reasonCode == PolicyBudget(TotalBudgetExceeded) <==>
            OverBudget(limits, s, o) && o.cost <= limits.perIteration + EPSILON)
      && (d.reasonCode == CandidateAbovePeak <==> !OverBudget(limits, s, o) && Improves(limits, peak, o))
      && (d.reasonCode == CandidateRegressed <==> !OverBudget(limits, s, o) && Regresses(limits, peak, o))
      && (d.reasonCode == CandidateNotAbovePeak <==>
            !OverBudget(limits, s, o) && !Improves(limits, peak, o) && !Regresses(limits, peak, o))
      && d.stop == (match d.reasonCode case PolicyBudget(limit) => Some(limit)
                                       case CandidateRegressed => Some(RegressionRollback) case _ => None)
  {
    hide Advance, PrimaryEdge, CandidateStep, EvaluateCandidate;
    StepBegins(limits, s, o);
    PrimaryEdgeMoves(limits, s, o);
    CandidateStepMoves(s, o, PrimaryEdge(limits, s, o));
  }

  lemma StepBegins(limits: Limits, s: StateSnapshot, o: Observation)
    requires EvaluateCandidate(limits, s, o).Decided?
    ensures s.peakScore.Some? && s.state == Evaluate
    ensures var step, first := EvaluateCandidate(limits, s, o).step, CandidateStep(s, o, PrimaryEdge(limits, s, o));
      && step.decisions != [] && |step.transitions| == |step.snapshots| == |step.decisions|
      && |first.decisions| == |first.transitions| == |first.snapshots| == 1
      && step.decisions[0] == first.decisions[0] && step.transitions[0] == first.transitions[0]
      && step.snapshots[0] == first.snapshots[0]
  {
    hide PrimaryEdge;
  }

  /** What a decided step records of the candidate: the evidence and the time of the observation, the move
      out of EVALUATE the verdict calls for, and the candidate with its score. */
  lemma StepRecordsTheCandidate(limits: Limits, s: StateSnapshot, o: Observation)
    requires EvaluateCandidate(limits, s, o).Decided?
    ensures var step := EvaluateCandidate(limits, s, o).step;
      && step.decisions != [] && |step.transitions| == |step.snapshots| == |step.decisions|
      && var d, t, f := step.decisions[0], step.transitions[0], step.snapshots[0];
      && d.evidence == o.evidence && d.createdAt == o.evaluatedAt
      && t.fromState == Some(Evaluate) && t.toState == f.state == Reached(d.action)
      && f.candidate == Some(o.checkpoint) && f.candidateScore == Some(o.score)
      && f.totalCost == s.totalCost + o.cost
  {
    hide Advance, PrimaryEdge, CandidateStep, EvaluateCandidate;
    StepBegins(limits, s, o);
    PrimaryEdgeMoves(limits, s, o);
    CandidateStepMoves(s, o, PrimaryEdge(limits, s, o));
  }

  /** One evaluation moves the accepted state as its disposition says, and emits one decision
      about the candidate and at most one about the run. */
  lemma EvaluationMoves(limits: Limits, current: StateSnapshot, candidate: Observation)
    requires EvaluateCandidate(limits, current, candidate).Decided?
    ensures var step := EvaluateCandidate(limits, current, candidate).step;
      && step.snapshots != [] && step.decisions != []
      && Moves(limits, current, candidate, FinalOf(step))
      && step.decisions[0].action == Disposition(limits, current, candidate)
      && step.decisions[0].subjectType == CheckpointSubject
      && step.decisions[0].subject == candidate.checkpoint
      && step.decisions[0].run == current.run
      && step.decisions[0].iteration == current.iteration
      && (forall i :: 0 < i < |step.decisions| ==> step.decisions[i].subjectType == RunSubject)
  {
    hide Advance, PrimaryEdge, CandidateStep, Disposition;
    PrimaryEdgeMoves(limits, current, candidate);
    CandidateStepMoves(current, candidate, PrimaryEdge(limits, current, candidate));
    AdvanceMoves(limits, CandidateStep(current, candidate, PrimaryEdge(limits, current, candidate)), candidate);
  }
}
