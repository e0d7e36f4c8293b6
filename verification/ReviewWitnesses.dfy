/** Runs with reviews that really go wrong: a dataset approved too late for a restart to find where
    the run stands, and a crash after a refusal that leaves the refused candidate without a trace. */
module ReviewWitnesses {
  import opened Records
  import opened ControlStore
  import opened StoreSystem
  import opened Policy
  import opened Controller
  import opened TurnCommits
  import opened TurnRuns
  import opened RunState
  import opened Materialization
  import opened Bootstrap
  import opened CrashRecovery
  import opened CrashSafety
  import opened CrashTheorems
  import opened FirstTurns
  import opened LostMarkers
  import opened ReviewTimes
  import opened ReviewedRuns

  /** A run without a crash that has come to p. */
  ghost predicate Journey(c: Config, rank: Id -> int, e: BootEvidence, states: seq<Process>, steps: seq<ProcessStep>, p: Process) {
    IsAnyRun(c, rank, e, states, steps) && Smooth(steps) && states[|steps|] == p
  }

  lemma JourneyBegins(c: Config, rank: Id -> int, e: BootEvidence)
    requires FitEvidence(c, e)
    ensures Journey(c, rank, e, [BootProcess(c, e)], [], BootProcess(c, e))
  {
  }

  lemma JourneyGoesOn(
    c: Config, rank: Id -> int, e: BootEvidence, states: seq<Process>, steps: seq<ProcessStep>, p: Process, answer: Answer)
    returns (more: seq<Process>, taken: seq<ProcessStep>)
    requires Journey(c, rank, e, states, steps, p) && CanTake(c, p, answer)
    ensures Journey(c, rank, e, more, taken, AfterTurn(p, TurnOf(c, p.pc.head, answer)))
    ensures states <= more && steps <= taken
    ensures taken != [] && EndsInCommit(p, TurnOf(c, p.pc.head, answer), more[|taken| - 1], taken[|taken| - 1])
  {
    hide FitEvidence, BootProcess, ProcessNext, CanTake, AfterTurn, TurnOf;
    var onwards, walk := TurnReachesItsCommit(c, rank, p, answer);
    Joined(c, rank, states, steps, onwards, walk);
    more, taken := states + onwards[1..], steps + walk;
  }

  lemma JourneyInv(c: Config, rank: Id -> int, e: BootEvidence, states: seq<Process>, steps: seq<ProcessStep>, p: Process)
    requires Journey(c, rank, e, states, steps, p)
    ensures OnCourse(states, steps, |steps|) && RunInv(c, p)
  {
    hide RunInv, FitEvidence, BootProcess, ProcessNext;
    OnCourseKeepsInv(c, rank, e, states, steps, |steps|);
  }

  /** What a journey's disk offers the next turn. */
  lemma JourneyDisk(c: Config, p: Process)
    requires RunInv(c, p) && p.pc.Ready?
    ensures var d := p.stores.writer.disk;
      && Intact(d) && Closed(CommittedView(d)) && InView(CommittedView(d), c.run, p.pc.head) && p.pc.head.run == c.run
  {
    hide ByDecision, KeepsTime, TxInv, Poised, HumanShape, BundlesLoad, HistorySound, QuarantineSound, PeakInv, CommittedView, AnchorOf;
    StoresAreIntact(p.stores);
  }

  // ---- A late dataset approval ----

  predicate AcceptsDataset(c: Config, input: DataInput) {
    && input.teacher.Batch?
    && Ledger.Guard(c.limits, 0.0, 0.0, input.teacher.cost) == Ledger.Charged
    && input.teacher.accepted != 0 && AcceptanceRate(input.teacher.accepted, input.teacher.rejected) >= c.minAcceptance
  }

  function AllWithRequest(input: DataInput): seq<Evidence> {
    AllDataEvidence(input.evidence) + [input.reviewRequest]
  }

  lemma WithoutRequest(c: Config, e: BootEvidence, all: seq<Evidence>, request: Evidence)
    requires NewEvidence(c, e, all + [request])
    ensures NewEvidence(c, e, all) && Named(all, IdSet(all + [request])) && request.id.Text? && request.id in IdSet(all + [request])
    ensures {e.model.id, e.score.id} !! IdSet(all + [request])
  {
    var both := all + [request];
    NamesAreApart(c, e, both);
    OneMoreEvidence(c.run, 1, all, request, {}, {});
    assert both[|all|] == request;
    forall i | 0 <= i < |all| ensures all[i].id.Text? && all[i].id !in BootIds(e) && all[i].id in IdSet(both) { assert both[i] == all[i]; }
  }

  lemma ReviewIsCommit(c: Config, s: StateSnapshot, e: DataEvidence, request: Evidence, dataset: Id, cost: real)
    ensures var t := ReviewData(c, s, e, request, dataset, cost);
      && t.Commit? && t.req.tx == Tx(s, DataTx) && t.next.metadata.materialization.None? && t.marker.None? && t.refused.None?
      && t.next.state == DataReviewPending && t.next.evidence == [e.accepted.id, e.audit.id, request.id]
      && t.next.run == s.run && t.next.iteration == s.iteration && t.req.run == s.run && t.req.iteration == s.iteration
  {
    hide StageRecords, EvidenceRecords, AllDataEvidence, Ids;
  }

  function BootNames(e: BootEvidence): set<Id> {
    {e.model.id, e.score.id}
  }

  /** The first data turn asks for a review. */
  lemma ReviewIsAsked(c: Config, e: BootEvidence, input: DataInput)
    requires c.datasetReview && FitEvidence(c, e) && AcceptsDataset(c, input) && NewEvidence(c, e, AllWithRequest(input))
    ensures CanTake(c, BootProcess(c, e), DataAnswer(input))
    ensures var t := TurnOf(c, FirstHead(c, e), DataAnswer(input));
      && t == ReviewData(c, FirstHead(c, e), input.evidence, input.reviewRequest, input.teacher.dataset, input.teacher.cost)
      && FilesCovered(Finished(BootDisk(c, e), t.req).files, BootNames(e) + IdSet(AllWithRequest(input)), BOOT_TAGS + ASKED_TAGS)
  {
    hide RejectData, AcceptData, ReviewData, AbortBeforeCandidate, GoodEvidence, AllDataEvidence, IdSet, CanTake, Finished, BootDisk,
      FilesCovered, RecordsCovered, Named;
    var head, x, names := FirstHead(c, e), input.evidence, IdSet(AllWithRequest(input));
    ReviewIsCommit(c, head, x, input.reviewRequest, input.teacher.dataset, input.teacher.cost);
    WithoutRequest(c, e, AllDataEvidence(x), input.reviewRequest);
    ReviewIsCovered(c, head, x, input.reviewRequest, input.teacher.dataset, input.teacher.cost, names);
    FirstTurnCanBeTaken(c, e, input, names, ASKED_TAGS);
  }

  /** A decision resting on the request, under names of its own. */
  ghost predicate NewDecision(c: Config, request: Evidence, review: Review, names: set<Id>) {
    && review.ReviewDecided? && review.request == request
    && review.evidence.run == c.run && review.evidence.iteration == 1
    && review.decision.run == c.run && review.decision.iteration == 1
    && review.evidence.id.Text? && review.evidence.id !in names && review.decision.id.Text? && review.decision.id !in names
    && forall id :: id in review.decision.evidence ==> id == request.id || id == review.evidence.id
  }

  ghost predicate NewApproval(c: Config, request: Evidence, review: Review, names: set<Id>) {
    NewDecision(c, request, review, names) && review.approved
  }

  lemma ApprovalRecords(c: Config, pending: StateSnapshot, review: Review)
    requires review.ReviewDecided? && review.approved && pending.state == DataReviewPending
    ensures var t := DataReviewTurn(c, pending, review);
      && t.Commit? && t.req.tx == Tx(pending, DataReviewApproved) && t.marker.None? && t.refused.None?
      && t.next.state == Train && t.next.metadata.materialization.None? && t.next.enteredAt == review.decidedAt
      && t.next.run == pending.run && t.next.iteration == pending.iteration
      && SnapshotRecord(t.next) in t.req.records
      && forall r :: r in t.req.records ==>
           || KeyOf(r).id == review.evidence.id || KeyOf(r).id == review.decision.id
           || (KeyOf(r).id.Minted? && (KeyOf(r).id.tag == ReviewedTrain || KeyOf(r).id.tag == TrainStage))
  {
    hide AddId;
  }

  lemma FreshWithoutCandidate(bundles: map<Id, CheckpointStore.Bundle>, s: StateSnapshot)
    requires s.metadata.materialization.None?
    requires s.state == ModelReviewPending && s.metadata.candidate.Some? ==> s.metadata.candidate.value.checkpoint !in bundles
    ensures FreshCandidate(bundles, s)
  {
  }

  lemma RequestIsFound(c: Config, d: Disk, pending: StateSnapshot, review: Review, names: set<Id>)
    requires Closed(CommittedView(d)) && InView(CommittedView(d), c.run, pending) && pending.run == c.run && pending.iteration == 1
    requires review.ReviewDecided? && review.request.id in pending.evidence
    requires NewDecision(c, review.request, review, names)
    ensures FitReview(d, pending, review)
  {
    hide CommittedView, Closed, InView, Finds;
    CommittedEvidenceIsFound(d, pending, review.request.id);
  }

  lemma ApprovalCanBeTaken(c: Config, p: Process, review: Review, names: set<Id>, tags: set<Tag>)
    requires RunInv(c, p) && p.pc.Ready? && p.stores.writer.pending.None? && !p.stores.writer.locked
    requires p.pc.head.state == DataReviewPending && p.pc.head.iteration == 1 && review.ReviewDecided?
    requires review.request.id in p.pc.head.evidence && NewApproval(c, review.request, review, names)
    requires FilesCovered(p.stores.writer.disk.files, names, tags) && ReviewedTrain !in tags && TrainStage !in tags
    ensures CanTake(c, p, ReviewAnswer(review))
    ensures TurnOf(c, p.pc.head, ReviewAnswer(review)) == DataReviewTurn(c, p.pc.head, review)
  {
    hide RunInv, DataReviewTurn, Intact, Closed, CommittedView, InView, FitReview, MayStart, NoConflict, PayloadOf,
      FilesCovered, FreshCandidate;
    var d, head := p.stores.writer.disk, p.pc.head;
    var t := DataReviewTurn(c, head, review);
    JourneyDisk(c, p);
    ApprovalRecords(c, head, review);
    TurnIdIsFree(c, p, ReviewAnswer(review));
    RequestIsFound(c, d, head, review, names);
    DataReviewMayStart(c, head, d, review);
    forall r | r in t.req.records ensures !Covered(KeyOf(r).id, names, tags) {}
    NothingInCommon(d, t.req, names, tags);
    FreshWithoutCandidate(p.stores.bundles, t.next);
  }

  lemma AbortRecords(c: Config, s: StateSnapshot)
    ensures var t := AbortAfterData(c, s);
      && t.Commit? && t.req.tx == Tx(s, CandidateExecutionAbort) && t.marker.None? && t.refused.None?
      && t.next.state == Aborted && t.next.metadata.materialization == s.metadata.materialization
      && t.next.enteredAt == At(c, s.iteration, 75)
      && forall r :: r in t.req.records ==> KeyOf(r).id.Minted? && KeyOf(r).id.tag == CandidateExecutionAbort
  {
  }

  lemma FailureCanBeTaken(c: Config, p: Process, names: set<Id>, tags: set<Tag>)
    requires RunInv(c, p) && p.pc.Ready? && p.stores.writer.pending.None? && !p.stores.writer.locked
    requires p.pc.head.state == Train && p.pc.head.metadata.materialization.None?
    requires FilesCovered(p.stores.writer.disk.files, names, tags) && CandidateExecutionAbort !in tags
    ensures CanTake(c, p, CandidateAnswer(ExecutionFailed))
    ensures TurnOf(c, p.pc.head, CandidateAnswer(ExecutionFailed)) == AbortAfterData(c, p.pc.head)
  {
    hide RunInv, AbortAfterData, Intact, Closed, CommittedView, InView, MayStart, NoConflict, PayloadOf, FilesCovered, FreshCandidate;
    var d, head := p.stores.writer.disk, p.pc.head;
    var t := AbortAfterData(c, head);
    JourneyDisk(c, p);
    AbortRecords(c, head);
    TurnIdIsFree(c, p, CandidateAnswer(ExecutionFailed));
    AbortAfterDataMayStart(c, head, d);
    forall r | r in t.req.records ensures !Covered(KeyOf(r).id, names, tags) {}
    NothingInCommon(d, t.req, names, tags);
    FreshWithoutCandidate(p.stores.bundles, t.next);
  }

  /** The snapshot an approval leads to is one entered at a decision. */
  lemma ApprovedIsByDecision(c: Config, p: Process, review: Review)
    requires RunInv(c, p) && CanTake(c, p, ReviewAnswer(review)) && p.pc.head.state == DataReviewPending
    requires review.ReviewDecided? && review.approved
    ensures var t := DataReviewTurn(c, p.pc.head, review);
      t.Commit? && ByDecision(AfterTurn(p, t).stores.writer.disk, c.run, t.next)
  {
    hide RunInv, DataReviewTurn, Intact, CommittedView, InView, MayStart, NoConflict, PayloadOf, ByDecision, FreshCandidate, Finished;
    JourneyDisk(c, p);
    ApprovalRecords(c, p.pc.head, review);
    var d, t := p.stores.writer.disk, DataReviewTurn(c, p.pc.head, review);
    StartsWithNewId(d, t.req);
    FinishedView(d, t.req);
    DecidedAfter(d, t.req, c.run, t.next);
  }

  lemma StartsWithNewId(d: Disk, req: Request)
    requires MayStart(d, req)
    ensures req.tx !in d.markers
  {
  }

  /** After a turn with nothing left to write the process stands between two turns. */
  lemma AfterPlainTurn(p: Process, t: Turn)
    requires t.Commit? && t.marker.None? && t.refused.None? && t.next.metadata.materialization.None?
    ensures var q := AfterTurn(p, t);
      && q.pc == Ready(t.next) && q.heads == p.heads + [t.next] && HeadOf(q) == t.next
      && q.stores.writer.pending.None? && !q.stores.writer.locked
      && q.stores.writer.disk == Finished(p.stores.writer.disk, t.req)
      && q.stores.bundles == p.stores.bundles && q.stores.quarantined == p.stores.quarantined
  {
    hide Finished;
  }

  lemma ApprovalIsCovered(c: Config, pending: StateSnapshot, review: Review)
    requires review.ReviewDecided? && review.approved && pending.state == DataReviewPending
    requires review.evidence.id.Text? && review.decision.id.Text?
    ensures DataReviewTurn(c, pending, review).Commit?
    ensures RecordsCovered(DataReviewTurn(c, pending, review).req.records, {review.evidence.id, review.decision.id},
                           {ReviewedTrain, TrainStage})
  {
    hide DataReviewTurn;
    ApprovalRecords(c, pending, review);
  }

  /** The run up to an approval. */
  lemma ApprovedJourney(c: Config, rank: Id -> int, e: BootEvidence, input: DataInput, review: Review)
    returns (states: seq<Process>, steps: seq<ProcessStep>, p: Process)
    requires c.datasetReview && FitEvidence(c, e) && AcceptsDataset(c, input) && NewEvidence(c, e, AllWithRequest(input))
    requires NewApproval(c, input.reviewRequest, review, BootNames(e) + IdSet(AllWithRequest(input)))
    ensures Journey(c, rank, e, states, steps, p) && RunInv(c, p)
    ensures p.heads != [] && p.pc == Ready(HeadOf(p)) && HeadOf(p).state == Train && HeadOf(p).iteration == 1
    ensures HeadOf(p).metadata.materialization.None? && HeadOf(p).enteredAt == review.decidedAt
    ensures ByDecision(p.stores.writer.disk, c.run, HeadOf(p))
    ensures p.stores.writer.pending.None? && !p.stores.writer.locked
    ensures FilesCovered(p.stores.writer.disk.files,
      BootNames(e) + IdSet(AllWithRequest(input)) + {review.evidence.id, review.decision.id},
      BOOT_TAGS + ASKED_TAGS + {ReviewedTrain, TrainStage})
  {
    hide RunInv, CanTake, Journey, FitEvidence, BootStores, ProcessNext, AfterTurn, TurnOf, DataReviewTurn, ReviewData,
      FilesCovered, NewEvidence, AllWithRequest, IdSet, CommittedView, ByDecision, Finished, BootDisk, RecordsCovered;
    var names, tags := BootNames(e) + IdSet(AllWithRequest(input)), BOOT_TAGS + ASKED_TAGS;
    var p0, head := BootProcess(c, e), FirstHead(c, e);
    var t0 := TurnOf(c, head, DataAnswer(input));
    ReviewIsAsked(c, e, input);
    ReviewIsCommit(c, head, input.evidence, input.reviewRequest, input.teacher.dataset, input.teacher.cost);
    AfterPlainTurn(p0, t0);
    JourneyBegins(c, rank, e);
    states, steps := JourneyGoesOn(c, rank, e, [p0], [], p0, DataAnswer(input));
    var p1 := AfterTurn(p0, t0);
    JourneyInv(c, rank, e, states, steps, p1);
    BootDiskIs(c, e);
    ApprovalCanBeTaken(c, p1, review, names, tags);
    ApprovedIsByDecision(c, p1, review);
    states, steps := JourneyGoesOn(c, rank, e, states, steps, p1, ReviewAnswer(review));
    var t1 := DataReviewTurn(c, t0.next, review);
    ApprovalRecords(c, t0.next, review);
    AfterPlainTurn(p1, t1);
    p := AfterTurn(p1, t1);
    JourneyInv(c, rank, e, states, steps, p);
    ApprovalIsCovered(c, t0.next, review);
    CoverGrows(p1.stores.writer.disk, t1.req, names, tags, {review.evidence.id, review.decision.id}, {ReviewedTrain, TrainStage});
  }

  lemma BootDiskIs(c: Config, e: BootEvidence)
    ensures BootProcess(c, e).stores.writer.disk == BootDisk(c, e)
  {
    hide BootDisk;
  }

  /** Any first dataset that is approved later than the first iteration's logical end leads, even
      without a crash, to a state in which a restart does not go on from the last snapshot. */
  lemma LateApprovalHappens(c: Config, rank: Id -> int, e: BootEvidence, input: DataInput, review: Review)
    returns (states: seq<Process>, steps: seq<ProcessStep>)
    requires c.datasetReview && FitEvidence(c, e) && AcceptsDataset(c, input) && NewEvidence(c, e, AllWithRequest(input))
    requires NewApproval(c, input.reviewRequest, review, BootNames(e) + IdSet(AllWithRequest(input)))
    requires At(c, 1, 110) < review.decidedAt
    ensures IsAnyRun(c, rank, e, states, steps) && OnCourse(states, steps, |steps|)
    ensures var p := states[|steps|];
      && p.heads != [] && p.pc == Ready(HeadOf(p))
      && !IsLatest(CommittedView(p.stores.writer.disk), c.run, rank, HeadOf(p))
  {
    hide RunInv, CanTake, FitEvidence, BootProcess, ProcessNext, AfterTurn, TurnOf, AbortAfterData,
      FilesCovered, NewEvidence, AllWithRequest, IdSet, CommittedView, IsLatest, ByDecision, Finished;
    var before, walk, p := ApprovedJourney(c, rank, e, input, review);
    FailureCanBeTaken(c, p, BootNames(e) + IdSet(AllWithRequest(input)) + {review.evidence.id, review.decision.id},
                      BOOT_TAGS + ASKED_TAGS + {ReviewedTrain, TrainStage});
    states, steps := JourneyGoesOn(c, rank, e, before, walk, p, CandidateAnswer(ExecutionFailed));
    var t := AbortAfterData(c, HeadOf(p));
    AbortRecords(c, HeadOf(p));
    AfterPlainTurn(p, t);
    JourneyInv(c, rank, e, states, steps, AfterTurn(p, t));
    assert states[|walk|] == p;
    LateDecisionDefeats(c, rank, e, states, steps, |walk|, |steps|, HeadOf(p));
  }

  // ---- A refused candidate ----

  lemma AcceptIsCommit(c: Config, s: StateSnapshot, e: DataEvidence, cost: real)
    ensures var t := AcceptData(c, s, e, cost);
      && t.Commit? && t.req.tx == Tx(s, DataTx) && t.marker.None? && t.refused.None?
      && t.next.state == Train && t.next.metadata == DataMetadata(cost) && t.next.totalCost == s.totalCost
      && t.next.active == s.active && t.next.peak == s.peak && t.next.peakScore == s.peakScore
      && t.next.run == s.run && t.next.iteration == s.iteration
  {
    hide StageRecords, EvidenceRecords, AllDataEvidence, Ids;
  }

  /** The first data turn leads to training. */
  lemma DataIsAccepted(c: Config, e: BootEvidence, input: DataInput)
    requires !c.datasetReview && FitEvidence(c, e) && AcceptsDataset(c, input) && NewEvidence(c, e, AllDataEvidence(input.evidence))
    ensures CanTake(c, BootProcess(c, e), DataAnswer(input))
    ensures var t := TurnOf(c, FirstHead(c, e), DataAnswer(input));
      && t == AcceptData(c, FirstHead(c, e), input.evidence, input.teacher.cost)
      && FilesCovered(Finished(BootDisk(c, e), t.req).files,
                      BootNames(e) + IdSet(AllDataEvidence(input.evidence)), BOOT_TAGS + ACCEPTED_TAGS)
  {
    hide RejectData, AcceptData, ReviewData, AbortBeforeCandidate, GoodEvidence, AllDataEvidence, IdSet, CanTake, Finished, BootDisk,
      FilesCovered, RecordsCovered, Named;
    var head, x, all := FirstHead(c, e), input.evidence, AllDataEvidence(input.evidence);
    AcceptIsCommit(c, head, x, input.teacher.cost);
    NamesAreApart(c, e, all);
    AcceptIsCovered(c, head, x, input.teacher.cost, IdSet(all));
    FirstTurnCanBeTaken(c, e, input, IdSet(all), ACCEPTED_TAGS);
  }

  /** A candidate of the first iteration that the policy would promote. */
  predicate Promising(c: Config, cost: real, input: CandidateInput) {
    && input.Evaluated? && input.parent == Some(c.base) && input.checkpoint != c.base
    && input.evidence != [] && 0.0 <= cost + input.cost
    && cost + input.cost <= c.limits.perIteration && cost + input.cost <= c.limits.total
    && input.score > c.initialScore + c.limits.minImprovement
  }

  lemma PromisingIsPromoted(c: Config, s: StateSnapshot, cost: real, input: CandidateInput, f: CandidateFacts, evaluate: StateSnapshot)
    requires Promising(c, cost, input) && f == FactsOf(input)
    requires s.active == s.peak == Some(c.base) && s.peakScore == Some(c.initialScore) && s.totalCost == 0.0 && s.iteration == 1
    requires s.metadata == DataMetadata(cost)
    requires var m := s.metadata.(iterationCost := s.metadata.iterationCost + input.cost, candidate := Some(f));
      evaluate == EvaluateSnapshot(s, f, At(c, s.iteration, 80), EvaluateStage, m)
    ensures var v := JudgeCandidate(c, evaluate, f);
      v.Decided? && v.step.decisions != [] && v.step.snapshots != [] && v.step.decisions[0].action == Promote
  {
    hide Advance;
    var o := Observe(f, evaluate.iteration, evaluate.metadata.iterationCost, evaluate.enteredAt);
    assert o.Some?;
    EvaluationMoves(c.limits, evaluate, o.value);
  }

  function Asked(c: Config, s: StateSnapshot, input: CandidateInput): Turn
    requires input.Evaluated?
  {
    var f := FactsOf(input);
    var m := s.metadata.(iterationCost := s.metadata.iterationCost + input.cost, candidate := Some(f));
    var evaluate := EvaluateSnapshot(s, f, At(c, s.iteration, 80), EvaluateStage, m);
    ReviewModel(c, evaluate, f, input.reviewRequest, EvidenceRecords(input.evidence) + CandidateRecords(c, s, input, evaluate))
  }

  lemma PromisingIsAsked(c: Config, s: StateSnapshot, cost: real, input: CandidateInput)
    requires Promising(c, cost, input) && c.checkpointReview
    requires s.active == s.peak == Some(c.base) && s.peakScore == Some(c.initialScore) && s.totalCost == 0.0 && s.iteration == 1
    requires s.metadata == DataMetadata(cost)
    ensures CandidateTurn(c, s, input) == Asked(c, s, input)
  {
    hide JudgeCandidate, EvidenceRecords, CandidateRecords, ReviewModel, PolicyTurn;
    var f := FactsOf(input);
    var m := s.metadata.(iterationCost := s.metadata.iterationCost + input.cost, candidate := Some(f));
    PromisingIsPromoted(c, s, cost, input, f, EvaluateSnapshot(s, f, At(c, s.iteration, 80), EvaluateStage, m));
  }

  const CANDIDATE_TAGS := {ServeStage, EvaluateStage, ModelReview}

  lemma AskedRecords(c: Config, s: StateSnapshot, input: CandidateInput, names: set<Id>)
    requires input.Evaluated? && Named(input.evidence, names) && input.reviewRequest.id.Text? && input.reviewRequest.id in names
    ensures var t := Asked(c, s, input);
      && t.Commit? && t.req.tx == Tx(s, CandidatePendingReview) && t.marker.None? && t.refused.None?
      && t.next.state == ModelReviewPending && t.next.metadata.materialization == s.metadata.materialization
      && t.next.metadata.candidate == Some(FactsOf(input)) && t.next.candidate == Some(input.checkpoint)
      && t.next.run == s.run && t.next.iteration == s.iteration && t.next.enteredAt == At(c, s.iteration, 90)
      && t.next.id == Minted(SnapshotId, s.run, s.iteration, ModelReview)
      && t.next.active == s.active && t.next.peak == s.peak && t.next.peakScore == s.peakScore && t.next.totalCost == s.totalCost
      && t.next.metadata.iterationCost == s.metadata.iterationCost + input.cost
      && t.next.evidence == AddId(Ids(input.evidence), input.reviewRequest.id)
      && EvidenceRecord(input.reviewRequest) in t.req.records
      && RecordsCovered(t.req.records, names, CANDIDATE_TAGS)
  {
    hide EvidenceRecords, CandidateRecords, Ids, AddId, Named;
    var t, front := Asked(c, s, input), EvidenceRecords(input.evidence);
    var f := FactsOf(input);
    var m := s.metadata.(iterationCost := s.metadata.iterationCost + input.cost, candidate := Some(f));
    var evaluate := EvaluateSnapshot(s, f, At(c, s.iteration, 80), EvaluateStage, m);
    var stages := CandidateRecords(c, s, input, evaluate);
    var rest := t.req.records[|front + stages|..];
    assert t.req.records == front + stages + rest;
    assert t.req.records[|front + stages|] == EvidenceRecord(input.reviewRequest);
    EvidenceIsCovered(input.evidence, names, CANDIDATE_TAGS);
    CandidateIsCovered(c, s, input, evaluate, names);
    CoveredJoins(front, stages, names, CANDIDATE_TAGS);
    CoveredJoins(front + stages, rest, names, CANDIDATE_TAGS);
  }

  lemma CandidateIsCovered(c: Config, s: StateSnapshot, input: CandidateInput, evaluate: StateSnapshot, names: set<Id>)
    requires input.Evaluated? && evaluate.id == Minted(SnapshotId, s.run, s.iteration, EvaluateStage)
    ensures RecordsCovered(CandidateRecords(c, s, input, evaluate), names, CANDIDATE_TAGS)
  {
    hide Ids;
  }

  /** Evidence of the candidate, and of the request to review it, under names of its own. */
  ghost predicate NewCandidate(c: Config, input: CandidateInput, names: set<Id>) {
    && input.Evaluated? && GoodEvidence(c.run, 1, input.evidence + [input.reviewRequest])
    && input.serving.id in IdSet(input.evidence)
    && Named(input.evidence + [input.reviewRequest], IdSet(input.evidence + [input.reviewRequest]))
    && names !! IdSet(input.evidence + [input.reviewRequest])
  }

  lemma CandidateNames(c: Config, input: CandidateInput, names: set<Id>)
    requires NewCandidate(c, input, names)
    ensures var own := IdSet(input.evidence + [input.reviewRequest]);
      Named(input.evidence, own) && input.reviewRequest.id.Text? && input.reviewRequest.id in own
    ensures GoodEvidence(c.run, 1, input.evidence)
  {
    var both := input.evidence + [input.reviewRequest];
    OneMoreEvidence(c.run, 1, input.evidence, input.reviewRequest, {}, {});
    assert both[|input.evidence|] == input.reviewRequest;
    forall i | 0 <= i < |input.evidence| ensures input.evidence[i].id.Text? && input.evidence[i].id in IdSet(both) {
      assert both[i] == input.evidence[i];
    }
  }

  lemma CandidateCanBeTaken(c: Config, p: Process, cost: real, input: CandidateInput, names: set<Id>, tags: set<Tag>)
    requires RunInv(c, p) && p.pc.Ready? && p.stores.writer.pending.None? && !p.stores.writer.locked
    requires c.checkpointReview && Promising(c, cost, input) && NewCandidate(c, input, names) && tags !! CANDIDATE_TAGS
    requires var s := p.pc.head;
      && s.state == Train && s.active == s.peak == Some(c.base) && s.peakScore == Some(c.initialScore) && s.totalCost == 0.0
      && s.iteration == 1 && s.metadata == DataMetadata(cost)
    requires FilesCovered(p.stores.writer.disk.files, names, tags) && p.stores.bundles.Keys == {c.base}
    ensures CanTake(c, p, CandidateAnswer(input))
    ensures TurnOf(c, p.pc.head, CandidateAnswer(input)) == Asked(c, p.pc.head, input)
  {
    hide RunInv, CandidateTurn, Asked, Intact, Closed, CommittedView, InView, MayStart, NoConflict, PayloadOf, FilesCovered, RecordsCovered,
      FreshCandidate, GoodEvidence, IdSet, Named, Covered, FindsDecision;
    var d, head, own := p.stores.writer.disk, p.pc.head, IdSet(input.evidence + [input.reviewRequest]);
    var t := Asked(c, head, input);
    JourneyDisk(c, p);
    PromisingIsAsked(c, head, cost, input);
    CandidateNames(c, input, names);
    AskedRecords(c, head, input, own);
    TurnIdIsFree(c, p, CandidateAnswer(input));
    CandidateTurnMayStart(c, head, d, input);
    OthersAreNotCovered(t.req.records, names, tags, own, CANDIDATE_TAGS);
    NothingInCommon(d, t.req, names, tags);
    FreshWithoutCandidate(p.stores.bundles, t.next);
  }

  lemma ExpiryRecords(c: Config, pending: StateSnapshot, review: Review)
    requires review.ReviewExpired? && pending.state == ModelReviewPending
    ensures var t := StopForApproval(c, pending, review);
      && t.Commit? && t.req.tx == Tx(pending, ApprovalExpired) && t.req.run == pending.run && t.marker.None?
      && t.next.state == Stopped && t.next.metadata.materialization == pending.metadata.materialization
      && (forall r :: r in t.req.records ==>
            r == EvidenceRecord(review.request) || (KeyOf(r).id.Minted? && KeyOf(r).id.tag == ApprovalExpired))
      && (pending.candidate.Some? ==>
            && t.refused.Some? && t.refused.value.metadata.candidate == pending.metadata.candidate
            && t.refused.value.metadata.materialization.Some?
            && t.refused.value.metadata.materialization.value.action == Action.Reject)
  {
    hide AddId;
  }

  lemma ExpiryCanBeTaken(c: Config, p: Process, review: Review, names: set<Id>, tags: set<Tag>)
    requires RunInv(c, p) && p.pc.Ready? && p.stores.writer.pending.None? && !p.stores.writer.locked
    requires p.pc.head.state == ModelReviewPending && p.pc.head.metadata.materialization.None? && review.ReviewExpired?
    requires review.request.run == c.run && review.request.iteration == p.pc.head.iteration
    requires var k := KeyOf(EvidenceRecord(review.request));
      k in p.stores.writer.disk.files && p.stores.writer.disk.files[k] == EvidenceRecord(review.request)
    requires FilesCovered(p.stores.writer.disk.files, names, tags) && ApprovalExpired !in tags
    ensures CanTake(c, p, ReviewAnswer(review))
    ensures TurnOf(c, p.pc.head, ReviewAnswer(review)) == StopForApproval(c, p.pc.head, review)
  {
    hide RunInv, StopForApproval, Intact, Closed, CommittedView, InView, MayStart, NoConflict, PayloadOf, FilesCovered, FreshCandidate;
    var d, head := p.stores.writer.disk, p.pc.head;
    var t := StopForApproval(c, head, review);
    JourneyDisk(c, p);
    ExpiryRecords(c, head, review);
    assert TurnOf(c, head, ReviewAnswer(review)) == t;
    TurnIdIsFree(c, p, ReviewAnswer(review));
    StopMayStart(c, head, d, review);
    NothingInCommon(d, t.req, names, tags);
    FreshWithoutCandidate(p.stores.bundles, t.next);
  }

  /** No approver has decided anything. */
  ghost predicate Undecided(d: Disk) {
    forall tx :: tx in d.markers && tx.Minted? ==> !HumanTag(tx.tag)
  }

  lemma StaysUndecided(d: Disk, req: Request)
    requires Undecided(d) && req.tx.Minted? && !HumanTag(req.tx.tag)
    ensures Undecided(Finished(d, req))
  {
    hide PayloadOf, HumanTag;
  }

  lemma UndecidedMeansNone(d: Disk, run: Id)
    requires Undecided(d)
    ensures forall s :: !ByDecision(d, run, s)
  {
    hide InView, CommittedView, HumanTag;
  }

  lemma BootIsUndecided(c: Config, e: BootEvidence)
    ensures Undecided(BootDisk(c, e))
  {
    hide PayloadOf, BootRecords;
  }

  lemma RequestIsOnDisk(d: Disk, req: Request, e: Evidence)
    requires MayStart(d, req) && EvidenceRecord(e) in req.records
    ensures var k := KeyOf(EvidenceRecord(e)); k in Finished(d, req).files && Finished(d, req).files[k] == EvidenceRecord(e)
  {
    MayStartIsAdmissible(d, req);
    hide PayloadOf, MayStart;
    PayloadKeeps(req, EvidenceRecord(e));
  }

  /** Nothing has been decided about a candidate yet. */
  predicate NoneDecided(heads: seq<StateSnapshot>) {
    forall i :: 0 <= i < |heads| ==> heads[i].metadata.materialization.None?
  }

  /** The run up to its first training. */
  lemma TrainingJourney(c: Config, rank: Id -> int, e: BootEvidence, input: DataInput)
    returns (states: seq<Process>, steps: seq<ProcessStep>, p: Process)
    requires !c.datasetReview && FitEvidence(c, e) && AcceptsDataset(c, input) && NewEvidence(c, e, AllDataEvidence(input.evidence))
    ensures Journey(c, rank, e, states, steps, p) && RunInv(c, p) && Undecided(p.stores.writer.disk)
    ensures p.heads != [] && p.pc == Ready(HeadOf(p)) && p.stores.writer.pending.None? && !p.stores.writer.locked
    ensures var s := HeadOf(p);
      && s.state == Train && s.active == s.peak == Some(c.base) && s.peakScore == Some(c.initialScore) && s.totalCost == 0.0
      && s.iteration == 1 && s.metadata == DataMetadata(input.teacher.cost)
    ensures p.stores.quarantined == map[] && p.stores.bundles.Keys == {c.base} && NoneDecided(p.heads)
    ensures FilesCovered(p.stores.writer.disk.files, BootNames(e) + IdSet(AllDataEvidence(input.evidence)), BOOT_TAGS + ACCEPTED_TAGS)
  {
    hide RunInv, Journey, FitEvidence, ProcessNext, AfterTurn, TurnOf, AcceptData, CanTake, FilesCovered, NewEvidence,
      AllDataEvidence, IdSet,
      CommittedView, Finished, BootDisk, Undecided;
    var p0, head := BootProcess(c, e), FirstHead(c, e);
    var t := TurnOf(c, head, DataAnswer(input));
    DataIsAccepted(c, e, input);
    AcceptIsCommit(c, head, input.evidence, input.teacher.cost);
    AfterPlainTurn(p0, t);
    JourneyBegins(c, rank, e);
    states, steps := JourneyGoesOn(c, rank, e, [p0], [], p0, DataAnswer(input));
    p := AfterTurn(p0, t);
    JourneyInv(c, rank, e, states, steps, p);
    BootIsUndecided(c, e);
    StaysUndecided(BootDisk(c, e), t.req);
  }

  /** The run up to the request to review a promotion. */
  lemma PendingJourney(c: Config, rank: Id -> int, e: BootEvidence, input: DataInput, candidate: CandidateInput)
    returns (states: seq<Process>, steps: seq<ProcessStep>, p: Process)
    requires !c.datasetReview && c.checkpointReview && FitEvidence(c, e) && AcceptsDataset(c, input)
    requires NewEvidence(c, e, AllDataEvidence(input.evidence)) && Promising(c, input.teacher.cost, candidate)
    requires NewCandidate(c, candidate, BootNames(e) + IdSet(AllDataEvidence(input.evidence)))
    ensures Journey(c, rank, e, states, steps, p) && RunInv(c, p) && Undecided(p.stores.writer.disk)
    ensures p.heads != [] && p.pc == Ready(HeadOf(p)) && p.stores.writer.pending.None? && !p.stores.writer.locked
    ensures var s := HeadOf(p);
      && s.state == ModelReviewPending && s.metadata.materialization.None? && s.iteration == 1
      && s.candidate == Some(candidate.checkpoint) && s.metadata.candidate == Some(FactsOf(candidate))
      && s.enteredAt == At(c, 1, 90) && s.id == Minted(SnapshotId, c.run, 1, ModelReview)
      && s.active == s.peak == Some(c.base) && s.peakScore == Some(c.initialScore)
      && s.totalCost == 0.0 && s.metadata.iterationCost == input.teacher.cost + candidate.cost
      && s.evidence == AddId(Ids(candidate.evidence), candidate.reviewRequest.id)
    ensures p.stores.quarantined == map[] && p.stores.bundles.Keys == {c.base} && NoneDecided(p.heads)
    ensures var k := KeyOf(EvidenceRecord(candidate.reviewRequest));
      k in p.stores.writer.disk.files && p.stores.writer.disk.files[k] == EvidenceRecord(candidate.reviewRequest)
    ensures FilesCovered(p.stores.writer.disk.files,
      BootNames(e) + IdSet(AllDataEvidence(input.evidence)) + IdSet(candidate.evidence + [candidate.reviewRequest]),
      BOOT_TAGS + ACCEPTED_TAGS + CANDIDATE_TAGS)
  {
    hide RunInv, Journey, FitEvidence, ProcessNext, AfterTurn, TurnOf, Asked, MayStart, PayloadOf, NoConflict, FreshCandidate,
      FilesCovered, NewEvidence, AllDataEvidence, IdSet, CommittedView, Finished, RecordsCovered, Undecided;
    var names, tags := BootNames(e) + IdSet(AllDataEvidence(input.evidence)), BOOT_TAGS + ACCEPTED_TAGS;
    var own := IdSet(candidate.evidence + [candidate.reviewRequest]);
    var on, walk, p1 := TrainingJourney(c, rank, e, input);
    CandidateCanBeTaken(c, p1, input.teacher.cost, candidate, names, tags);
    var t := Asked(c, HeadOf(p1), candidate);
    CandidateNames(c, candidate, names);
    AskedRecords(c, HeadOf(p1), candidate, own);
    states, steps := JourneyGoesOn(c, rank, e, on, walk, p1, CandidateAnswer(candidate));
    AfterPlainTurn(p1, t);
    p := AfterTurn(p1, t);
    JourneyInv(c, rank, e, states, steps, p);
    JourneyDisk(c, p);
    StaysUndecided(p1.stores.writer.disk, t.req);
    RequestIsOnDisk(p1.stores.writer.disk, t.req, candidate.reviewRequest);
    CoverGrows(p1.stores.writer.disk, t.req, names, tags, own, CANDIDATE_TAGS);
  }

  lemma AfterRefusal(p: Process, t: Turn)
    requires t.Commit? && t.marker.None? && t.refused.Some?
    ensures var q := AfterTurn(p, t);
      && q.pc == PublishingRefused(t.next, t.refused.value) && q.heads != [] && HeadOf(q) == t.next
      && q.stores.writer.disk == Finished(p.stores.writer.disk, t.req)
      && q.stores.bundles == p.stores.bundles && q.stores.quarantined == p.stores.quarantined
  {
    hide Finished;
  }

  /** The snapshot a refused candidate is materialised from. */
  predicate RefusedFor(refused: StateSnapshot, candidate: CandidateInput)
    requires candidate.Evaluated?
  {
    Materializable(refused) && CheckpointOf(refused) == candidate.checkpoint
  }

  lemma RefusedIsMaterializable(c: Config, pending: StateSnapshot, review: Review, cost: real, candidate: CandidateInput)
    requires review.ReviewExpired? && pending.state == ModelReviewPending && Promising(c, cost, candidate)
    requires pending.candidate == Some(candidate.checkpoint) && pending.metadata.candidate == Some(FactsOf(candidate))
    ensures var t := StopForApproval(c, pending, review); t.Commit? && t.refused.Some? && RefusedFor(t.refused.value, candidate)
  {
    hide StopForApproval;
    ExpiryRecords(c, pending, review);
  }

  /** The run up to the moment the refused candidate is about to be published. */
  lemma RefusedJourney(
    c: Config, rank: Id -> int, e: BootEvidence, input: DataInput, candidate: CandidateInput, review: Review)
    returns (states: seq<Process>, steps: seq<ProcessStep>, q: Process)
    requires !c.datasetReview && c.checkpointReview && FitEvidence(c, e) && AcceptsDataset(c, input)
    requires NewEvidence(c, e, AllDataEvidence(input.evidence)) && Promising(c, input.teacher.cost, candidate)
    requires NewCandidate(c, candidate, BootNames(e) + IdSet(AllDataEvidence(input.evidence)))
    requires review.ReviewExpired? && review.request == candidate.reviewRequest
    ensures Journey(c, rank, e, states, steps, q)
    ensures q.pc.PublishingRefused? && RefusedFor(q.pc.refused, candidate)
    ensures IsHead(CommittedView(q.stores.writer.disk), c.run, q.pc.head)
    ensures q.pc.head.state == Stopped && q.pc.head.metadata.materialization.None?
    ensures q.stores.quarantined == map[] && q.stores.bundles.Keys == {c.base}
  {
    hide RunInv, Journey, FitEvidence, BootProcess, ProcessNext, AfterTurn, TurnOf, StopForApproval, CanTake, FilesCovered, NewEvidence,
      AllDataEvidence, IdSet, CommittedView, IsHead, Finished, NewCandidate, Undecided, RefusedFor;
    var on, walk, p := PendingJourney(c, rank, e, input, candidate);
    RequestBelongs(c, candidate, BootNames(e) + IdSet(AllDataEvidence(input.evidence)));
    ExpiryCanBeTaken(c, p, review,
      BootNames(e) + IdSet(AllDataEvidence(input.evidence)) + IdSet(candidate.evidence + [candidate.reviewRequest]),
      BOOT_TAGS + ACCEPTED_TAGS + CANDIDATE_TAGS);
    var t := StopForApproval(c, HeadOf(p), review);
    ExpiryRecords(c, HeadOf(p), review);
    RefusedIsMaterializable(c, HeadOf(p), review, input.teacher.cost, candidate);
    states, steps := JourneyGoesOn(c, rank, e, on, walk, p, ReviewAnswer(review));
    AfterRefusal(p, t);
    q := AfterTurn(p, t);
    StaysUndecided(p.stores.writer.disk, t.req);
    UndecidedJourney(c, rank, e, states, steps, q);
  }

  lemma UndecidedJourney(c: Config, rank: Id -> int, e: BootEvidence, states: seq<Process>, steps: seq<ProcessStep>, q: Process)
    requires Journey(c, rank, e, states, steps, q) && Undecided(q.stores.writer.disk)
    ensures q.heads != [] && IsHead(CommittedView(q.stores.writer.disk), c.run, HeadOf(q))
  {
    hide RunInv, FitEvidence, BootProcess, ProcessNext, Undecided, ByDecision, CommittedView, IsHead;
    JourneyInv(c, rank, e, states, steps, q);
    UndecidedMeansNone(q.stores.writer.disk, c.run);
    UndecidedHeadIsHead(c, rank, e, states, steps, |steps|);
  }

  /** Any promising first candidate whose review expires is lost by one crash right after the stop
      is committed: no run that goes on from there ever writes its marker or its bundle. */
  lemma RefusedCandidateIsLost(
    c: Config, rank: Id -> int, e: BootEvidence, input: DataInput, candidate: CandidateInput, review: Review)
    returns (states: seq<Process>, steps: seq<ProcessStep>)
    requires !c.datasetReview && c.checkpointReview && FitEvidence(c, e) && AcceptsDataset(c, input)
    requires NewEvidence(c, e, AllDataEvidence(input.evidence)) && Promising(c, input.teacher.cost, candidate)
    requires NewCandidate(c, candidate, BootNames(e) + IdSet(AllDataEvidence(input.evidence)))
    requires review.ReviewExpired? && review.request == candidate.reviewRequest
    ensures IsAnyRun(c, rank, e, states, steps) && steps != [] && steps[|steps| - 1].Die?
    ensures var before := states[|steps| - 1];
      && before.pc.PublishingRefused? && RefusedFor(before.pc.refused, candidate)
      && NeverMarked(c, rank, states[|steps|], RefusalKey(before.pc.refused))
      && NeverPublished(c, rank, states[|steps|], candidate.checkpoint)
  {
    hide FitEvidence, BootProcess, ProcessNext, NewEvidence, AllDataEvidence, IdSet, CommittedView, IsHead, MustFind,
      AcceptsDataset, NewCandidate, NeverMarked, NeverPublished, AtTheEnd;
    var on, walk, q := RefusedJourney(c, rank, e, input, candidate, review);
    var r := q.(stores := Interrupted(q.stores, false, false), pc := Down);
    DieIsAStep(c, rank, q);
    HeadMustBeFound(c, rank, q.stores.writer.disk, q.pc.head);
    DyingIsTheEnd(c, rank, q, Die(false, false), r, q.pc.head);
    OneStep(c, rank, q, Die(false, false), r);
    Joined(c, rank, on, walk, [q, r], [Die(false, false)]);
    NothingMarksAtTheEnd(c, rank, r, q.pc.head, RefusalKey(q.pc.refused));
    NothingPublishedAtTheEnd(c, rank, r, q.pc.head, candidate.checkpoint);
    states, steps := on + [q, r][1..], walk + [Die(false, false)];
  }

  lemma RequestBelongs(c: Config, input: CandidateInput, names: set<Id>)
    requires NewCandidate(c, input, names)
    ensures input.reviewRequest.run == c.run && input.reviewRequest.iteration == 1
  {
    var both := input.evidence + [input.reviewRequest];
    assert both[|input.evidence|] == input.reviewRequest;
  }

  /** No run that goes on from here ever publishes the checkpoint's bundle. */
  ghost predicate NeverPublished(c: Config, rank: Id -> int, p: Process, checkpoint: Id) {
    forall more: seq<Process>, taken: seq<ProcessStep> :: Follows(c, rank, more, taken) && more[0] == p ==>
      forall n :: 0 <= n < |more| ==> checkpoint !in more[n].stores.bundles
  }

  lemma NothingPublishedAtTheEnd(c: Config, rank: Id -> int, p: Process, head: StateSnapshot, checkpoint: Id)
    requires AtTheEnd(c, rank, p, head) && checkpoint !in p.stores.bundles
    ensures NeverPublished(c, rank, p, checkpoint)
  {
    hide AtTheEnd, ProcessNext;
    forall more: seq<Process>, taken: seq<ProcessStep>, n: nat | Follows(c, rank, more, taken) && more[0] == p && n < |more|
      ensures checkpoint !in more[n].stores.bundles
    {
      TheEndIsForGood(c, rank, more, taken, 0, n, head);
    }
  }
}