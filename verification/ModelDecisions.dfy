/** Runs in which an approver decides about the first candidate: a denial made at the very time of
    the request, which a crash does not lose, and an approval made too late for a restart to find. */
module ModelDecisions {
  import opened Records
  import opened ControlStore
  import opened StoreSystem
  import opened Policy
  import opened Controller
  import opened TurnCommits
  import opened TurnRuns
  import opened RunState
  import opened Bootstrap
  import opened RunLoop
  import opened CrashRecovery
  import opened CrashTheorems
  import opened FirstTurns
  import opened LostMarkers
  import opened ReviewTimes
  import opened ReviewedRuns
  import opened TurnEnds
  import opened Forks
  import opened Tracks
  import opened Replays
  import opened Barriers
  import opened Loading
  import opened Refusals
  import opened ReviewWitnesses

  // ---- A denial ----

  /** A denial as the approval service writes it: its decision rejects the candidate. */
  ghost predicate NewDenial(c: Config, candidate: CandidateInput, review: Review, names: set<Id>)
    requires candidate.Evaluated?
  {
    && NewDecision(c, candidate.reviewRequest, review, names) && !review.approved
    && review.decision.action == Action.Reject && review.decision.subjectType == CheckpointSubject
    && review.decision.subject == candidate.checkpoint
  }

  lemma DenialRecords(c: Config, pending: StateSnapshot, review: Review)
    requires review.ReviewDecided? && pending.state == ModelReviewPending
    ensures var t := StopForApproval(c, pending, review);
      && t.Commit? && t.req.tx == Tx(pending, ApprovalDenied) && t.req.run == pending.run && t.marker.None?
      && t.next.state == Stopped && t.next.metadata.materialization == pending.metadata.materialization
      && t.next.enteredAt == review.decidedAt && t.next.iteration == pending.iteration && t.next.run == pending.run
      && t.next.id == Minted(SnapshotId, pending.run, pending.iteration, ApprovalDenied)
      && SnapshotRecord(t.next) in t.req.records
      && (forall r :: r in t.req.records ==>
            || KeyOf(r).id == review.evidence.id || KeyOf(r).id == review.decision.id
            || (KeyOf(r).id.Minted? && KeyOf(r).id.tag == ApprovalDenied))
      && (pending.candidate.Some? ==>
            && t.refused.Some? && t.refused.value.metadata.candidate == pending.metadata.candidate
            && t.refused.value.metadata.materialization.Some?)
  {
    hide AddId;
  }

  lemma DenialCanBeTaken(c: Config, p: Process, review: Review, names: set<Id>, tags: set<Tag>)
    requires RunInv(c, p) && p.pc.Ready? && p.stores.writer.pending.None? && !p.stores.writer.locked
    requires p.pc.head.state == ModelReviewPending && p.pc.head.metadata.materialization.None? && p.pc.head.iteration == 1
    requires review.ReviewDecided? && !review.approved && NewDecision(c, review.request, review, names)
    requires review.request.id in p.pc.head.evidence
    requires FilesCovered(p.stores.writer.disk.files, names, tags) && ApprovalDenied !in tags
    ensures CanTake(c, p, ReviewAnswer(review))
    ensures TurnOf(c, p.pc.head, ReviewAnswer(review)) == StopForApproval(c, p.pc.head, review)
  {
    hide RunInv, StopForApproval, Intact, Closed, CommittedView, InView, MayStart, NoConflict, PayloadOf, FilesCovered, FreshCandidate,
      FitReview;
    var d, head := p.stores.writer.disk, p.pc.head;
    var t := StopForApproval(c, head, review);
    JourneyDisk(c, p);
    DenialRecords(c, head, review);
    assert TurnOf(c, head, ReviewAnswer(review)) == t;
    TurnIdIsFree(c, p, ReviewAnswer(review));
    RequestIsFound(c, d, head, review, names);
    StopMayStart(c, head, d, review);
    forall r | r in t.req.records ensures !Covered(KeyOf(r).id, names, tags) {}
    NothingInCommon(d, t.req, names, tags);
    FreshWithoutCandidate(p.stores.bundles, t.next);
  }

  /** The stop is entered at the denial, and the decision behind it refuses the candidate. */
  lemma DenialIsRefusal(c: Config, p: Process, review: Review, candidate: CandidateInput, names: set<Id>)
    requires RunInv(c, p) && p.heads != [] && p.pc == Ready(HeadOf(p)) && candidate.Evaluated?
    requires CanTake(c, p, ReviewAnswer(review)) && NewDenial(c, candidate, review, names)
    requires TurnOf(c, HeadOf(p), ReviewAnswer(review)) == StopForApproval(c, HeadOf(p), review)
    requires var s := HeadOf(p);
      && s.state == ModelReviewPending && s.metadata.materialization.None? && s.iteration == 1 && s.run == c.run
      && s.candidate == Some(candidate.checkpoint) && s.metadata.candidate == Some(FactsOf(candidate))
      && candidate.parent != Some(candidate.checkpoint)
    ensures var t := StopForApproval(c, HeadOf(p), review); t.Commit? && t.refused.Some? && t.marker.None?
    ensures var t, q := StopForApproval(c, HeadOf(p), review), AfterTurn(p, StopForApproval(c, HeadOf(p), review));
      && HasRefused(q.pc) && CanStillMark(q) && ByDecision(q.stores.writer.disk, c.run, t.next)
      && RefusedFor(t.refused.value, candidate)
  {
    hide RunInv, StopForApproval, Intact, CommittedView, InView, MayStart, NoConflict, PayloadOf, ByDecision, FreshCandidate, Finished,
      CanStillMark, AlreadyCommitted;
    var d, t := p.stores.writer.disk, StopForApproval(c, HeadOf(p), review);
    JourneyDisk(c, p);
    DenialRecords(c, HeadOf(p), review);
    AfterRefusal(p, t);
    StartsWithNewId(d, t.req);
    FinishedView(d, t.req);
    DecidedAfter(d, t.req, c.run, t.next);
    FinishedIsCommitted(d, t.req);
    RefusalCanBeMarked(c, AfterTurn(p, t), HeadOf(p), ReviewAnswer(review));
  }

  lemma DenialFacts(c: Config, cost: real, candidate: CandidateInput, review: Review, names: set<Id>)
    requires Promising(c, cost, candidate) && NewDenial(c, candidate, review, names)
    ensures candidate.Evaluated? && review.ReviewDecided? && !review.approved && review.request == candidate.reviewRequest
    ensures NewDecision(c, review.request, review, names) && candidate.parent != Some(candidate.checkpoint)
  {
  }

  /** The process right after a denial's commit. */
  ghost predicate Denied(c: Config, q: Process, candidate: CandidateInput, review: Review)
    requires candidate.Evaluated? && review.ReviewDecided?
  {
    && |q.heads| >= 2 && NoneDecided(q.heads)
    && q.pc.PublishingRefused? && RefusedFor(q.pc.refused, candidate) && CanStillMark(q)
    && ByDecision(q.stores.writer.disk, c.run, HeadOf(q))
    && var stop, pending := HeadOf(q), q.heads[|q.heads| - 2];
    && stop.enteredAt == review.decidedAt && stop.iteration == pending.iteration == 1 && pending.enteredAt == At(c, 1, 90)
    && stop.id == Minted(SnapshotId, c.run, 1, ApprovalDenied) && pending.id == Minted(SnapshotId, c.run, 1, ModelReview)
  }

  lemma DenialIsDenied(c: Config, p: Process, review: Review, candidate: CandidateInput, names: set<Id>)
    requires RunInv(c, p) && p.heads != [] && p.pc == Ready(HeadOf(p)) && candidate.Evaluated?
    requires CanTake(c, p, ReviewAnswer(review)) && NewDenial(c, candidate, review, names) && NoneDecided(p.heads)
    requires TurnOf(c, HeadOf(p), ReviewAnswer(review)) == StopForApproval(c, HeadOf(p), review)
    requires var s := HeadOf(p);
      && s.state == ModelReviewPending && s.metadata.materialization.None? && s.iteration == 1 && s.run == c.run
      && s.candidate == Some(candidate.checkpoint) && s.metadata.candidate == Some(FactsOf(candidate))
      && candidate.parent != Some(candidate.checkpoint)
      && s.enteredAt == At(c, 1, 90) && s.id == Minted(SnapshotId, c.run, 1, ModelReview)
    ensures StopForApproval(c, HeadOf(p), review).Commit?
    ensures Denied(c, AfterTurn(p, StopForApproval(c, HeadOf(p), review)), candidate, review)
  {
    hide RunInv, StopForApproval, CanTake, AfterTurn, RefusedFor, CanStillMark, ByDecision, TurnOf;
    DenialIsRefusal(c, p, review, candidate, names);
    DenialRecords(c, HeadOf(p), review);
    var t := StopForApproval(c, HeadOf(p), review);
    AfterRefusal(p, t);
    AfterTurnHeads(p, t);
  }

  /** The run up to a denied candidate that is about to be published. */
  lemma DeniedJourney(
    c: Config, rank: Id -> int, e: BootEvidence, input: DataInput, candidate: CandidateInput, review: Review, names: set<Id>)
    returns (states: seq<Process>, steps: seq<ProcessStep>, q: Process)
    requires !c.datasetReview && c.checkpointReview && FitEvidence(c, e) && AcceptsDataset(c, input)
    requires NewEvidence(c, e, AllDataEvidence(input.evidence)) && Promising(c, input.teacher.cost, candidate)
    requires NewCandidate(c, candidate, BootNames(e) + IdSet(AllDataEvidence(input.evidence)))
    requires names == BootNames(e) + IdSet(AllDataEvidence(input.evidence)) + IdSet(candidate.evidence + [candidate.reviewRequest])
    requires NewDenial(c, candidate, review, names)
    ensures Journey(c, rank, e, states, steps, q) && Denied(c, q, candidate, review)
  {
    hide RunInv, Journey, FitEvidence, BootProcess, ProcessNext, AfterTurn, TurnOf, StopForApproval, CanTake, FilesCovered, NewEvidence,
      AllDataEvidence, IdSet, CommittedView, Finished, NewCandidate, Undecided, AddId, Ids, Covered, NewDenial, NewDecision, Promising,
      InView, Closed, Intact, FactsOf, Denied, NoneDecided;
    DenialFacts(c, input.teacher.cost, candidate, review, names);
    var on, walk, p := PendingJourney(c, rank, e, input, candidate);
    JourneyDisk(c, p);
    AskedFor(HeadOf(p).evidence, Ids(candidate.evidence), candidate.reviewRequest.id);
    DenialCanBeTaken(c, p, review, names, BOOT_TAGS + ACCEPTED_TAGS + CANDIDATE_TAGS);
    DenialIsDenied(c, p, review, candidate, names);
    states, steps := JourneyGoesOn(c, rank, e, on, walk, p, ReviewAnswer(review));
    q := AfterTurn(p, StopForApproval(c, HeadOf(p), review));
  }

  lemma AskedFor(all: seq<Id>, ids: seq<Id>, id: Id)
    requires all == AddId(ids, id)
    ensures id in all
  {
  }

  lemma AfterTurnHeads(p: Process, t: Turn)
    requires t.Commit? && p.heads != []
    ensures var q := AfterTurn(p, t);
      q.heads == p.heads + [t.next] && |q.heads| >= 2 && q.heads[|q.heads| - 2] == HeadOf(p) && HeadOf(q) == t.next
  {
    hide Finished;
  }

  lemma NoneOvertaken(heads: seq<StateSnapshot>, x: StateSnapshot)
    requires NoneDecided(heads)
    ensures !Overtaken(heads, x)
  {
  }

  /** A denial that does not sort after the pending snapshot is not all a restart can find. */
  lemma TieIsFound(c: Config, rank: Id -> int, e: BootEvidence, states: seq<Process>, steps: seq<ProcessStep>, q: Process)
    requires Journey(c, rank, e, states, steps, q) && OnCourse(states, steps, |steps|) && |q.heads| >= 2
    requires ByDecision(q.stores.writer.disk, c.run, HeadOf(q)) && NotAfter(rank, HeadOf(q), q.heads[|q.heads| - 2])
    ensures exists x :: IsLatest(CommittedView(q.stores.writer.disk), c.run, rank, x) && x != HeadOf(q)
  {
    hide FitEvidence, BootProcess, ProcessNext, ByDecision, CommittedView, IsLatest, NotAfter, OnCourse;
    OnlyHeadIsFoundIff(c, rank, e, states, steps, |steps|);
  }

  /** Any promising first candidate that is denied at the very time its review was requested, by a stop
      whose id does not sort after the pending snapshot's: a crash right after the commit is repaired.
      The restart goes on from the pending snapshot and makes the refusal again, marker included. */
  lemma TiedDenialIsRepaired(
    c: Config, rank: Id -> int, e: BootEvidence, input: DataInput, candidate: CandidateInput, review: Review, names: set<Id>)
    returns (states: seq<Process>, steps: seq<ProcessStep>, m: nat)
    requires !c.datasetReview && c.checkpointReview && FitEvidence(c, e) && AcceptsDataset(c, input)
    requires NewEvidence(c, e, AllDataEvidence(input.evidence)) && Promising(c, input.teacher.cost, candidate)
    requires NewCandidate(c, candidate, BootNames(e) + IdSet(AllDataEvidence(input.evidence)))
    requires names == BootNames(e) + IdSet(AllDataEvidence(input.evidence)) + IdSet(candidate.evidence + [candidate.reviewRequest])
    requires NewDenial(c, candidate, review, names) && review.decidedAt == At(c, 1, 90)
    requires rank(Minted(SnapshotId, c.run, 1, ApprovalDenied)) <= rank(Minted(SnapshotId, c.run, 1, ModelReview))
    ensures IsAnyRun(c, rank, e, states, steps) && m < |steps| && steps[m].Die?
    ensures states[m].pc.PublishingRefused? && RefusedFor(states[m].pc.refused, candidate)
    ensures RefusalKey(states[m].pc.refused) !in states[m].stores.quarantined
    ensures RefusalKey(states[m].pc.refused) in states[|steps|].stores.quarantined
  {
    hide RunInv, FitEvidence, BootProcess, ProcessNext, NewEvidence, AllDataEvidence, IdSet, CommittedView, AcceptsDataset, NewCandidate,
      NewDenial, Promising, CanStillMark, ByDecision, IsLatest, MustFind, LostUnlessFirst, TrackInv, Overtaken, NoneDecided;
    var on, walk, q := DeniedJourney(c, rank, e, input, candidate, review, names);
    JourneyInv(c, rank, e, on, walk, q);
    OnCourseIsTracked(c, rank, e, on, walk, |walk|);
    RefusalIsFresh(c, q);
    TieIsFound(c, rank, e, on, walk, q);
    var x :| IsLatest(CommittedView(q.stores.writer.disk), c.run, rank, x) && x != HeadOf(q);
    NoneOvertaken(q.heads, x);
    var more, taken := RestartRepairs(c, rank, q, x);
    Joined(c, rank, on, walk, more, taken);
    m := |walk|;
    states, steps := on + more[1..], walk + taken;
  }

  // ---- A late approval ----

  /** The decision the next snapshot names is in the same transaction. */
  ghost predicate WritesItsDecision(t: Turn)
    requires t.Commit?
  {
    && t.next.metadata.decision.Some?
    && exists x ::
         && DecisionRecord(x) in t.req.records && x.id == t.next.metadata.decision.value
         && x.run == t.next.run && x.iteration == t.next.iteration
  }

  /** A turn that asks for a model's review writes the decision its snapshot names. */
  lemma AskingWritesDecision(c: Config, s: StateSnapshot, answer: Answer)
    requires TurnOf(c, s, answer).Commit? && TurnOf(c, s, answer).next.state == ModelReviewPending
    ensures var t := TurnOf(c, s, answer);
      t.Commit? && t.next.run == s.run && t.next.iteration == s.iteration && WritesItsDecision(t)
  {
    hide DataTurn, DataReviewTurn, ModelReviewTurn, CandidateTurn;
    match s.state
    case Diagnose => DataAsksNoModelReview(c, s, answer.data);
    case Train => CandidateAsks(c, s, answer.candidate);
    case DataReviewPending => ReviewsAskNothing(c, s, answer.review);
    case ModelReviewPending => ReviewsAskNothing(c, s, answer.review);
    case _ =>
  }

  lemma DataAsksNoModelReview(c: Config, s: StateSnapshot, input: DataInput)
    ensures DataTurn(c, s, input).Commit? && DataTurn(c, s, input).next.state != ModelReviewPending
  {
    hide StageRecords, EvidenceRecords, AllDataEvidence, Ids, AcceptanceRate, AddId;
  }

  lemma CandidateAsks(c: Config, s: StateSnapshot, input: CandidateInput)
    requires CandidateTurn(c, s, input).Commit? && CandidateTurn(c, s, input).next.state == ModelReviewPending
    ensures var t := CandidateTurn(c, s, input);
      t.Commit? && t.next.run == s.run && t.next.iteration == s.iteration && WritesItsDecision(t)
  {
    hide EvaluateCandidate, EvidenceRecords, CandidateRecords, PolicyTurn, ReviewModel, AbortAfterData, Observe, Ids;
    if input.ExecutionFailed? {
      AbortRecords(c, s);
    } else {
      var f := FactsOf(input);
      var m := s.metadata.(iterationCost := s.metadata.iterationCost + input.cost, candidate := Some(f));
      var evaluate := EvaluateSnapshot(s, f, At(c, s.iteration, 80), EvaluateStage, m);
      var before := EvidenceRecords(input.evidence) + CandidateRecords(c, s, input, evaluate);
      var step := JudgeCandidate(c, evaluate, f).step;
      if step.decisions[0].action == Promote && c.checkpointReview {
        ReviewDecision(c, evaluate, f, input.reviewRequest, before);
      } else {
        var o := Observe(f, evaluate.iteration, m.iterationCost, evaluate.enteredAt);
        PolicyTurnIsNotPending(c, evaluate, f, o.value, step, before);
      }
    }
  }

  lemma PolicyTurnIsNotPending(c: Config, evaluate: StateSnapshot, f: CandidateFacts, o: Observation, step: PolicyStep, before: seq<Record>)
    requires EvaluateCandidate(c.limits, evaluate, o) == Verdict.Decided(step) && step.snapshots != [] && step.decisions != []
    ensures var t := PolicyTurn(c, evaluate, f, step, before, CandidateTx); t.Commit? && t.next.state != ModelReviewPending
  {
    FinalIsNotPending(c.limits, evaluate, o);
    hide EvaluateCandidate, PolicyRecords, FinalOf;
  }

  lemma ReviewDecision(c: Config, evaluate: StateSnapshot, f: CandidateFacts, request: Evidence, before: seq<Record>)
    ensures var t := ReviewModel(c, evaluate, f, request, before);
      t.Commit? && t.next.run == evaluate.run && t.next.iteration == evaluate.iteration && WritesItsDecision(t)
  {
    hide AddId;
    var t := ReviewModel(c, evaluate, f, request, before);
    assert t.req.records[|before| + 1].DecisionRecord?;
    assert DecisionRecord(t.req.records[|before| + 1].decision) in t.req.records;
  }

  lemma ReviewsAskNothing(c: Config, s: StateSnapshot, review: Review)
    ensures DataReviewTurn(c, s, review).Commit? ==> DataReviewTurn(c, s, review).next.state != ModelReviewPending
    ensures ModelReviewTurn(c, s, review).Commit? ==> ModelReviewTurn(c, s, review).next.state != ModelReviewPending
  {
    hide EvaluateCandidate, PolicyRecords, FinalOf, AddId, Observe;
    if review.ReviewDecided? && review.approved && ModelReviewTurn(c, s, review).Commit? {
      var f := s.metadata.candidate.value;
      var evaluate := EvaluateSnapshot(s, f, review.decidedAt, EvaluateAfterApproval, s.metadata);
      var o := Observe(f, evaluate.iteration, evaluate.metadata.iterationCost, evaluate.enteredAt);
      FinalIsNotPending(c.limits, evaluate, o.value);
    }
  }

  /** Wherever an on-course run waits for a model's review, the decision that asked for it is found. */
  lemma PendingDecisionIsFound(c: Config, p: Process)
    requires TrackInv(c, p) && p.heads != [] && HeadOf(p).state == ModelReviewPending
    ensures DecisionFound(p.stores.writer.disk, HeadOf(p))
  {
    hide RunInv, Track, Booked, TurnOf, AlreadyCommitted, CommittedView, Intact, StoresInv, EndsWell, Fit, AllFinalised;
    var answers :| Track(c, p, answers);
    TrackBooks(c, p, answers);
    RunInvParts(c, p);
    StoresAreIntact(p.stores);
    var d, k := p.stores.writer.disk, |answers| - 1;
    EntryFacts(c, d, p.heads, answers, k);
    AskingWritesDecision(c, p.heads[k], answers[k]);
    var t := TurnOf(c, p.heads[k], answers[k]);
    var x :| DecisionRecord(x) in t.req.records && x.id == t.next.metadata.decision.value
      && x.run == t.next.run && x.iteration == t.next.iteration;
    NamedRecordIsCommitted(d, t.req, DecisionRecord(x));
  }

  /** The policy judges an approved first candidate as it judged it before the review. */
  lemma ApprovedIsPromoted(c: Config, pending: StateSnapshot, cost: real, candidate: CandidateInput, review: Review)
    requires Promising(c, cost, candidate) && review.ReviewDecided? && review.approved
    requires pending.active == pending.peak == Some(c.base) && pending.peakScore == Some(c.initialScore)
    requires pending.totalCost == 0.0 && pending.iteration == 1
    requires pending.metadata.candidate == Some(FactsOf(candidate)) && pending.metadata.iterationCost == cost + candidate.cost
    ensures ModelReviewTurn(c, pending, review).Commit?
  {
    hide Advance, Materialized, PolicyRecords;
    var f := FactsOf(candidate);
    var evaluate := EvaluateSnapshot(pending, f, review.decidedAt, EvaluateAfterApproval, pending.metadata);
    var o := Observe(f, evaluate.iteration, evaluate.metadata.iterationCost, evaluate.enteredAt);
    assert o.Some?;
    EvaluationMoves(c.limits, evaluate, o.value);
  }

  const APPROVAL_TAGS := POLICY_TAGS + {ModelReviewApproved, EvaluateAfterApproval}

  lemma ApprovalsAreCovered(c: Config, pending: StateSnapshot, review: Review)
    requires review.ReviewDecided? && review.approved && ModelReviewTurn(c, pending, review).Commit?
    requires review.evidence.id.Text? && review.decision.id.Text?
    ensures RecordsCovered(ModelReviewTurn(c, pending, review).req.records, {review.evidence.id, review.decision.id}, APPROVAL_TAGS)
  {
    hide PolicyRecords, FinalOf, EvaluateCandidate;
    var f := pending.metadata.candidate.value;
    var evaluate := EvaluateSnapshot(pending, f, review.decidedAt, EvaluateAfterApproval, pending.metadata);
    var o := Observe(f, evaluate.iteration, evaluate.metadata.iterationCost, evaluate.enteredAt);
    PolicyIsTagged(c.limits, evaluate, o.value);
  }

  lemma PolicyIsTagged(limits: Limits, s: StateSnapshot, o: Observation)
    requires EvaluateCandidate(limits, s, o).Decided?
    ensures forall r :: r in PolicyRecords(EvaluateCandidate(limits, s, o).step) ==> !KeyOf(r).id.Text? && KeyOf(r).id.tag in POLICY_TAGS
  {
    var step := EvaluateCandidate(limits, s, o).step;
    StepHasEdges(limits, s, o);
    PolicyRecordsAreNeat(step, s, o, (set e | e in o.evidence), DecisionIds(step));
    hide EvaluateCandidate, PolicyRecords, HasEdges, Neat;
    forall r | r in PolicyRecords(step) ensures !KeyOf(r).id.Text? && KeyOf(r).id.tag in POLICY_TAGS {
      var i :| 0 <= i < |PolicyRecords(step)| && PolicyRecords(step)[i] == r;
      assert HasTag(PolicyRecords(step)[i], POLICY_TAGS);
    }
  }

  lemma PolicyTagsApart()
    ensures APPROVAL_TAGS !! BOOT_TAGS + ACCEPTED_TAGS + CANDIDATE_TAGS
  {
  }

  lemma LateApprovalCanBeTaken(
    c: Config, p: Process, cost: real, candidate: CandidateInput, review: Review, names: set<Id>, tags: set<Tag>)
    requires TrackInv(c, p) && p.heads != [] && p.pc == Ready(HeadOf(p)) && p.stores.writer.pending.None? && !p.stores.writer.locked
    requires Promising(c, cost, candidate) && NewApproval(c, candidate.reviewRequest, review, names)
    requires var s := HeadOf(p);
      && s.state == ModelReviewPending && s.iteration == 1 && s.metadata.candidate == Some(FactsOf(candidate))
      && s.active == s.peak == Some(c.base) && s.peakScore == Some(c.initialScore)
      && s.totalCost == 0.0 && s.metadata.iterationCost == cost + candidate.cost
      && s.evidence == AddId(Ids(candidate.evidence), candidate.reviewRequest.id)
    requires p.stores.bundles.Keys == {c.base} && FilesCovered(p.stores.writer.disk.files, names, tags) && tags !! APPROVAL_TAGS
    ensures CanTake(c, p, ReviewAnswer(review))
    ensures TurnOf(c, HeadOf(p), ReviewAnswer(review)) == ModelReviewTurn(c, HeadOf(p), review)
  {
    hide RunInv, Track, ModelReviewTurn, Intact, Closed, CommittedView, InView, MayStart, NoConflict, PayloadOf, FilesCovered,
      RecordsCovered, Covered, FitReview, DecisionFound, Ids;
    var d, head := p.stores.writer.disk, HeadOf(p);
    var t := ModelReviewTurn(c, head, review);
    JourneyDisk(c, p);
    ApprovedIsPromoted(c, head, cost, candidate, review);
    PendingDecisionIsFound(c, p);
    TurnIdIsFree(c, p, ReviewAnswer(review));
    RequestIsFound(c, d, head, review, names);
    ModelReviewMayStart(c, head, d, review);
    ApprovalsAreCovered(c, head, review);
    OthersAreNotCovered(t.req.records, names, tags, {review.evidence.id, review.decision.id}, APPROVAL_TAGS);
    NothingInCommon(d, t.req, names, tags);
    PromotedIsFresh(c, p, head, candidate, review);
  }

  lemma PromotedIsFresh(c: Config, p: Process, pending: StateSnapshot, candidate: CandidateInput, review: Review)
    requires candidate.Evaluated? && candidate.checkpoint != c.base && pending.metadata.candidate == Some(FactsOf(candidate))
    requires review.ReviewDecided? && review.approved && ModelReviewTurn(c, pending, review).Commit? && p.stores.bundles.Keys == {c.base}
    ensures FreshCandidate(p.stores.bundles, ModelReviewTurn(c, pending, review).next)
  {
    hide PolicyRecords, FinalOf, JudgeCandidate;
  }

  /** A journey that ends in the commit of an approval of the first candidate. */
  ghost predicate Approves(
    c: Config, rank: Id -> int, e: BootEvidence, states: seq<Process>, steps: seq<ProcessStep>, p: Process, review: Review)
  {
    && RunInv(c, p) && CanTake(c, p, ReviewAnswer(review)) && Undecided(p.stores.writer.disk)
    && p.heads != [] && p.pc == Ready(HeadOf(p)) && HeadOf(p).state == ModelReviewPending && HeadOf(p).iteration == 1
    && FitPending(HeadOf(p)) && review.ReviewDecided? && review.approved
    && var t := ModelReviewTurn(c, HeadOf(p), review);
    && TurnOf(c, HeadOf(p), ReviewAnswer(review)) == t && t.Commit?
    && Journey(c, rank, e, states, steps, AfterTurn(p, t))
    && steps != [] && EndsInCommit(p, t, states[|steps| - 1], steps[|steps| - 1])
  }

  lemma TrackedIsFit(c: Config, p: Process)
    requires TrackInv(c, p)
    ensures p.heads != [] && FitPending(HeadOf(p))
  {
    hide RunInv, FitPending, LocalTrack, Booked, AllFinalised, DecidedTrack;
  }

  lemma ApprovedCandidateJourney(
    c: Config, rank: Id -> int, e: BootEvidence, input: DataInput, candidate: CandidateInput, review: Review, names: set<Id>)
    returns (states: seq<Process>, steps: seq<ProcessStep>, p: Process)
    requires !c.datasetReview && c.checkpointReview && FitEvidence(c, e) && AcceptsDataset(c, input)
    requires NewEvidence(c, e, AllDataEvidence(input.evidence)) && Promising(c, input.teacher.cost, candidate)
    requires NewCandidate(c, candidate, BootNames(e) + IdSet(AllDataEvidence(input.evidence)))
    requires names == BootNames(e) + IdSet(AllDataEvidence(input.evidence)) + IdSet(candidate.evidence + [candidate.reviewRequest])
    requires NewApproval(c, candidate.reviewRequest, review, names)
    ensures Approves(c, rank, e, states, steps, p, review)
  {
    hide RunInv, FitEvidence, BootProcess, ProcessNext, TurnOf, ModelReviewTurn, CanTake, FilesCovered, NewEvidence, AllDataEvidence,
      IdSet, CommittedView, NewCandidate, NewDecision, Promising, TrackInv, Ids, FactsOf, InView, Intact, Closed, Undecided,
      NoneDecided, AfterTurn, EndsInCommit;
    var on, walk;
    on, walk, p := PendingJourney(c, rank, e, input, candidate);
    JourneyInv(c, rank, e, on, walk, p);
    OnCourseIsTracked(c, rank, e, on, walk, |walk|);
    TrackedIsFit(c, p);
    PolicyTagsApart();
    LateApprovalCanBeTaken(c, p, input.teacher.cost, candidate, review, names, BOOT_TAGS + ACCEPTED_TAGS + CANDIDATE_TAGS);
    ApprovalFacts(c, input.teacher.cost, candidate, review, names);
    TakenIsCommit(c, p, ReviewAnswer(review));
    states, steps := JourneyGoesOn(c, rank, e, on, walk, p, ReviewAnswer(review));
  }

  /** Any promising first candidate that is approved later than the first iteration's logical end: the
      run comes to the commit of the approval, and right after it a restart does not find the
      snapshot that asks for the promotion. */
  lemma LateModelApprovalHappens(
    c: Config, rank: Id -> int, e: BootEvidence, input: DataInput, candidate: CandidateInput, review: Review, names: set<Id>)
    returns (states: seq<Process>, steps: seq<ProcessStep>)
    requires !c.datasetReview && c.checkpointReview && FitEvidence(c, e) && AcceptsDataset(c, input)
    requires NewEvidence(c, e, AllDataEvidence(input.evidence)) && Promising(c, input.teacher.cost, candidate)
    requires NewCandidate(c, candidate, BootNames(e) + IdSet(AllDataEvidence(input.evidence)))
    requires names == BootNames(e) + IdSet(AllDataEvidence(input.evidence)) + IdSet(candidate.evidence + [candidate.reviewRequest])
    requires NewApproval(c, candidate.reviewRequest, review, names) && At(c, 1, 110) < review.decidedAt
    ensures IsAnyRun(c, rank, e, states, steps) && OnCourse(states, steps, |steps|) && steps != []
    ensures var n := |steps| - 1;
      && states[n].heads != [] && HeadOf(states[n]).state == ModelReviewPending
      && Commits(c, states, steps, n, ModelReviewTurn(c, HeadOf(states[n]), review))
    ensures states[|steps|].heads != [] && HeadOf(states[|steps|]).metadata.materialization.Some?
    ensures !IsLatest(CommittedView(states[|steps|].stores.writer.disk), c.run, rank, HeadOf(states[|steps|]))
  {
    hide RunInv, FitEvidence, BootProcess, ProcessNext, TurnOf, ModelReviewTurn, CanTake, NewEvidence, AllDataEvidence, IdSet,
      CommittedView, IsLatest, NewCandidate, NewApproval, Promising, Undecided, AfterTurn, AcceptsDataset;
    var p;
    states, steps, p := ApprovedCandidateJourney(c, rank, e, input, candidate, review, names);
    JourneyInv(c, rank, e, states, steps, states[|steps|]);
    LateModelApproval(c, rank, e, states, steps, |steps| - 1, review);
  }

  // ---- A snapshot the loop has no case for ----

  /** In the last iteration the policy stops. */
  lemma LastIterationStops(c: Config, s: StateSnapshot, review: Review)
    requires c.limits.maxIterations == 1 && s.iteration == 1 && s.state == ModelReviewPending && FitPending(s)
    requires review.ReviewDecided? && review.approved && ModelReviewTurn(c, s, review).Commit?
    ensures ModelReviewTurn(c, s, review).next.state != Diagnose
  {
    hide EvaluateCandidate, PolicyRecords, FinalOf, Observe;
    var f := s.metadata.candidate.value;
    var evaluate := EvaluateSnapshot(s, f, review.decidedAt, EvaluateAfterApproval, s.metadata);
    var o := Observe(f, evaluate.iteration, evaluate.metadata.iterationCost, evaluate.enteredAt);
    LastVerdictStops(c.limits, evaluate, o.value);
  }

  lemma LastVerdictStops(limits: Limits, s: StateSnapshot, o: Observation)
    requires limits.maxIterations == 1 && s.iteration == 1 && EvaluateCandidate(limits, s, o).Decided?
    ensures var step := EvaluateCandidate(limits, s, o).step; step.snapshots != [] && FinalOf(step).state != Diagnose
  {
  }

  /** The evaluation's id sorts last. */
  ghost predicate EvaluationSortsLast(c: Config, rank: Id -> int) {
    forall id :: rank(id) <= rank(Minted(SnapshotId, c.run, 1, EvaluateAfterApproval))
  }

  lemma PendingAsks(s: StateSnapshot)
    requires s.state == ModelReviewPending && FitPending(s)
    ensures s.metadata.materialization.None?
  {
  }

  /** What an approval enters at its decision, one by one. */
  lemma EnteredWithEvaluation(c: Config, pending: StateSnapshot, review: Review, x: StateSnapshot, s: StateSnapshot)
    requires review.ReviewDecided? && review.approved && pending.state == ModelReviewPending && FitPending(pending)
    requires ModelReviewTurn(c, pending, review).Commit? && ModelReviewTurn(c, pending, review).next.state != Diagnose
    requires var t := ModelReviewTurn(c, pending, review);
      && SnapshotRecord(x) in t.req.records && SnapshotRecord(s) in t.req.records
      && x.metadata.materialization.None? && s.metadata.materialization.None?
    ensures s.enteredAt == x.enteredAt && s.iteration == x.iteration
  {
    hide ModelReviewTurn, FitPending;
    var t := ModelReviewTurn(c, pending, review);
    PendingAsks(pending);
    ApprovalSnapshots(c, pending, review, x);
    ApprovalSnapshots(c, pending, review, s);
    ApprovalComesFrom(c, pending, review, x);
    ApprovalComesFrom(c, pending, review, s);
  }

  /** Nothing entered at a decision sorts after the evaluation. */
  lemma EvaluationIsLast(c: Config, rank: Id -> int, p: Process, review: Review) returns (x: StateSnapshot)
    requires RunInv(c, p) && p.heads != [] && p.pc == Ready(HeadOf(p)) && CanTake(c, p, ReviewAnswer(review))
    requires Undecided(p.stores.writer.disk)
    requires HeadOf(p).state == ModelReviewPending && FitPending(HeadOf(p)) && HeadOf(p).iteration == 1
    requires review.ReviewDecided? && review.approved && At(c, 1, 110) < review.decidedAt && EvaluationSortsLast(c, rank)
    requires var t := ModelReviewTurn(c, HeadOf(p), review);
      TurnOf(c, HeadOf(p), ReviewAnswer(review)) == t && t.Commit? && t.next.state != Diagnose
    ensures var t, d' := ModelReviewTurn(c, HeadOf(p), review), AfterTurn(p, ModelReviewTurn(c, HeadOf(p), review)).stores.writer.disk;
      && x.state == Evaluate && ByDecision(d', c.run, x) && NotAfter(rank, t.next, x) && t.next.metadata.materialization.Some?
      && forall s :: ByDecision(d', c.run, s) ==> NotAfter(rank, s, x)
  {
    hide RunInv, ModelReviewTurn, Intact, CommittedView, InView, MayStart, NoConflict, PayloadOf, ByDecision, FreshCandidate, Finished,
      Closed, Undecided, FitPending;
    var d, pending, t := p.stores.writer.disk, HeadOf(p), ModelReviewTurn(c, HeadOf(p), review);
    JourneyDisk(c, p);
    UndecidedMeansNone(d, c.run);
    StartsWithNewId(d, t.req);
    FinishedView(d, t.req);
    PendingAsks(pending);
    x := ApprovalHasEvaluation(c, pending, review);
    DecidedAfter(d, t.req, c.run, x);
    forall s | ByDecision(Finished(d, t.req), c.run, s) ensures NotAfter(rank, s, x) {
      DecidedAfter(d, t.req, c.run, s);
      EnteredWithEvaluation(c, pending, review, x, s);
    }
  }

  /** With one iteration, and an order of ids in which the evaluation's comes last, a late approval
      leaves a run whose restart loads EVALUATE, from which `run` does not go on. */
  lemma UnsupportedIsLoaded(
    c: Config, rank: Id -> int, e: BootEvidence, input: DataInput, candidate: CandidateInput, review: Review, names: set<Id>)
    returns (states: seq<Process>, steps: seq<ProcessStep>, x: StateSnapshot)
    requires !c.datasetReview && c.checkpointReview && FitEvidence(c, e) && AcceptsDataset(c, input)
    requires NewEvidence(c, e, AllDataEvidence(input.evidence)) && Promising(c, input.teacher.cost, candidate)
    requires NewCandidate(c, candidate, BootNames(e) + IdSet(AllDataEvidence(input.evidence)))
    requires names == BootNames(e) + IdSet(AllDataEvidence(input.evidence)) + IdSet(candidate.evidence + [candidate.reviewRequest])
    requires NewApproval(c, candidate.reviewRequest, review, names) && At(c, 1, 110) < review.decidedAt
    requires c.limits.maxIterations == 1 && EvaluationSortsLast(c, rank)
    ensures IsAnyRun(c, rank, e, states, steps) && OnCourse(states, steps, |steps|)
    ensures IsLatest(CommittedView(states[|steps|].stores.writer.disk), c.run, rank, x)
    ensures x.state == Evaluate && !CanGoOn(c, x)
  {
    hide RunInv, FitEvidence, BootProcess, ProcessNext, TurnOf, ModelReviewTurn, CanTake, NewEvidence, AllDataEvidence, IdSet,
      CommittedView, IsLatest, NewCandidate, NewApproval, Promising, Undecided, AfterTurn, AcceptsDataset, CanGoOn, ByDecision,
      EvaluationSortsLast, NotAfter;
    var p;
    states, steps, p := ApprovedCandidateJourney(c, rank, e, input, candidate, review, names);
    var t := ModelReviewTurn(c, HeadOf(p), review);
    JourneyInv(c, rank, e, states, steps, states[|steps|]);
    LastIterationStops(c, HeadOf(p), review);
    x := EvaluationIsLast(c, rank, p, review);
    AfterTurnHeads(p, t);
    UnsupportedIsLoadedIff(c, rank, e, states, steps, |steps|, x);
  }

  lemma ApprovalFacts(c: Config, cost: real, candidate: CandidateInput, review: Review, names: set<Id>)
    requires Promising(c, cost, candidate) && NewApproval(c, candidate.reviewRequest, review, names)
    ensures candidate.Evaluated? && review.ReviewDecided? && review.approved
  {
  }

  lemma TakenIsCommit(c: Config, p: Process, answer: Answer)
    requires CanTake(c, p, answer)
    ensures p.pc.Ready? && TurnOf(c, p.pc.head, answer).Commit?
  {
    hide TurnOf, FreshCandidate, MayStart, NoConflict, PayloadOf;
  }
}
