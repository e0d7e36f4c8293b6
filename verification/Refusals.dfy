/** A refusal in any run, by the gate or by a human, of a dataset or of a candidate: the exact
    condition under which its quarantine marker is lost unless it is written before the process
    first dies. */
module Refusals {
  import opened Records
  import opened ControlStore
  import opened CheckpointStore
  import opened QuarantineStore
  import opened StoreSystem
  import opened Controller
  import opened Turns
  import opened RunState
  import opened Materialization
  import opened Bootstrap
  import opened CrashRecovery
  import opened CrashSafety
  import opened CrashTheorems
  import opened LostMarkers
  import opened ReviewTimes
  import opened ReviewedRuns
  import opened TurnEnds
  import opened TurnRuns
  import opened Tracks
  import opened Replays
  import opened Carries
  import opened Forks
  import opened Barriers

  // ---- What a refusal finds ----

  /** A refusal is committed, and the process has written nothing since. */
  predicate HasRefused(pc: Pc) {
    pc.PublishingRefused? || (pc.Marking? && pc.marker.subjectType == DatasetSubject)
  }

  /** Whatever is still to be written of a refusal is new. */
  lemma RefusalIsFresh(c: Config, p: Process)
    requires TrackInv(c, p) && HasRefused(p.pc)
    ensures JustRefused(p) && p.heads != [] && p.pc.head == HeadOf(p) && StoresInv(p.stores)
  {
    hide RunInv, StoresInv, Booked, AllFinalised, DecidedTrack, LastIsOnTop, TurnOf, AfterCommit, FitPending, BundleCommits, LoadedRecord;
    RunInvParts(c, p);
    var answers :| Track(c, p, answers);
  }

  // ---- The same turn is taken from it ----

  /** The data turn reads nothing else of a snapshot. */
  lemma TwinTurn(c: Config, a: StateSnapshot, b: StateSnapshot, input: DataInput)
    requires Twin(a, b) && b.iteration <= c.limits.maxIterations
    ensures DataTurn(c, a, input) == DataTurn(c, b, input)
  {
    hide AcceptanceRate, AllDataEvidence;
  }

  lemma TurnFromTwin(c: Config, x: StateSnapshot, head: StateSnapshot, answer: Answer)
    requires StandsFor(x, head) && TurnOf(c, head, answer).Commit?
    requires var t := TurnOf(c, head, answer); t.next.state != Stopped || HasRefused(AfterCommit(t))
    ensures TurnOf(c, x, answer) == TurnOf(c, head, answer)
  {
    hide CandidateTurn, DataReviewTurn, ModelReviewTurn, RejectData, ReviewData, AcceptData, AbortBeforeCandidate, AcceptanceRate;
    if x != head && head.iteration <= c.limits.maxIterations { TwinTurn(c, x, head, answer.data); }
  }

  // ---- Promotions in between ----

  lemma NotOvertakenIsPassable(c: Config, s: Stores, heads: seq<StateSnapshot>, answers: seq<Answer>, k: nat, x: StateSnapshot)
    requires Booked(c, s.writer.disk, heads, answers) && k < |answers| && |heads| == |answers| + 1
    requires LastIsOnTop(s, heads, |answers|) && !Overtaken(heads, x) && StandsFor(x, heads[k])
    ensures Passable(s, heads, k, |answers|)
  {
    hide Booked, OnTop;
    forall i | k < i < |answers| && Promotes(heads[i]) ensures OnTop(s, heads[i]) {
      PastHeadIsBetween(c, s.writer.disk, heads, answers, i);
      HeadsRise(c, s.writer.disk, heads, answers, k, i);
    }
  }

  // ---- The last two writes ----

  /** The decision behind the refusal says so: nothing but a crash can keep the marker from being written. */
  ghost predicate CanStillMark(p: Process) {
    && (p.pc.Marking? ==> MarkerLinksHold(p.stores.writer.disk, p.pc.marker))
    && (p.pc.PublishingRefused? && Materializable(p.pc.refused) ==>
          exists d :: DecisionLoads(p.stores.writer.disk, p.pc.refused, d))
  }

  lemma MarkIsAStep(c: Config, rank: Id -> int, p: Process)
    requires p.pc.Marking? && MarkerCommits(p.stores.writer.disk, p.stores.quarantined, p.pc.marker)
    ensures var q := p.(stores := p.stores.(quarantined := p.stores.quarantined[QuarantineKeyOf(p.pc.marker) := p.pc.marker]),
                        pc := Ready(p.pc.head));
      ProcessNext(c, rank, p, Mark, q) && QuarantineKeyOf(p.pc.marker) in q.stores.quarantined
  {
    hide MarkerCommits;
  }

  lemma PublishRefusedIsAStep(c: Config, rank: Id -> int, p: Process, d: Decision)
    requires p.pc.PublishingRefused? && Materializable(p.pc.refused) && CheckpointOf(p.pc.refused) !in p.stores.bundles
    requires DecisionLoads(p.stores.writer.disk, p.pc.refused, d)
    ensures var req := BundleRequestOf(p.pc.refused);
      ProcessNext(c, rank, p, PublishRefused(d),
                  p.(stores := p.stores.(bundles := p.stores.bundles[req.checkpoint := BundleOf(req)]),
                     pc := Marking(p.pc.head, MarkerOf(p.pc.refused, d))))
  {
    hide MayBundle, LoadedTransaction, LoadedRecord, BundleOf;
    BundleMayBePublished(p.stores.writer.disk, p.pc.refused, d);
  }

  lemma MarkingEnds(c: Config, rank: Id -> int, p: Process) returns (states: seq<Process>, steps: seq<ProcessStep>)
    requires JustRefused(p) && HasRefused(p.pc) && CanStillMark(p) && (p.pc.PublishingRefused? ==> ActionOf(p.pc.refused) == Action.Reject)
    ensures Follows(c, rank, states, steps) && states[0] == p && KeyToMark(p.pc) in states[|steps|].stores.quarantined
  {
    hide ProcessNext, MarkerLinksHold, DecisionLoads, BundleOf, MarkerOf;
    if p.pc.Marking? {
      MarkIsAStep(c, rank, p);
      var q := p.(stores := p.stores.(quarantined := p.stores.quarantined[QuarantineKeyOf(p.pc.marker) := p.pc.marker]),
                  pc := Ready(p.pc.head));
      states, steps := [p, q], [Mark];
    } else {
      var d :| DecisionLoads(p.stores.writer.disk, p.pc.refused, d);
      var req, m := BundleRequestOf(p.pc.refused), MarkerOf(p.pc.refused, d);
      PublishRefusedIsAStep(c, rank, p, d);
      var q := p.(stores := p.stores.(bundles := p.stores.bundles[req.checkpoint := BundleOf(req)]), pc := Marking(p.pc.head, m));
      MarkerLinks(p.stores.writer.disk, p.pc.refused, d);
      KeyOfRefused(p.pc.refused, d);
      MarkIsAStep(c, rank, q);
      var r := q.(stores := q.stores.(quarantined := q.stores.quarantined[QuarantineKeyOf(m) := m]), pc := Ready(p.pc.head));
      states, steps := [p, q, r], [PublishRefused(d), Mark];
    }
  }

  lemma KeyOfRefused(x: StateSnapshot, d: Decision)
    requires Materializable(x)
    ensures QuarantineKeyOf(MarkerOf(x, d)) == RefusalKey(x)
  {
  }

  // ---- A restart that makes the refusal again ----

  function PeakUnlocked(s: Stores): Stores {
    s.(peakLocked := false)
  }

  lemma RestartElsewhere(c: Config, rank: Id -> int, p: Process, x: StateSnapshot)
    returns (states: seq<Process>, steps: seq<ProcessStep>)
    requires JustRefused(p) && IsLatest(CommittedView(p.stores.writer.disk), c.run, rank, x) && x.metadata.materialization.None?
    ensures Follows(c, rank, states, steps) && states[0] == p && steps != [] && steps[0].Die?
    ensures states[|steps|] == Process(PeakUnlocked(p.stores), Ready(x), p.heads)
  {
    hide CommittedView, IsLatest, KeyToMark;
    var down := p.(pc := Down);
    var free := down.(stores := PeakUnlocked(p.stores));
    assert Interrupted(p.stores, false, false) == p.stores;
    states := [p, down, free, free.(pc := Ready(x))];
    steps := [Die(false, false), HumanRemovesLock(RemoveStalePeakLock), Resume(x)];
  }

  lemma UnlockedStaysTracked(c: Config, s: Stores, heads: seq<StateSnapshot>, answers: seq<Answer>)
    requires StoresInv(s) && s.installing.None? && |heads| == |answers| + 1
    requires AllFinalised(s, heads[..|answers|]) && LastIsOnTop(s, heads, |answers|)
    ensures var s' := PeakUnlocked(s);
      StoresInv(s') && AllFinalised(s', heads[..|answers|]) && LastIsOnTop(s', heads, |answers|)
  {
    hide AllFinalised, LastIsOnTop, StoresInv;
    StoresStepKeepsInv(s, RemoveStalePeakLock, PeakUnlocked(s));
    StoresAreIntact(PeakUnlocked(s));
    AllFinalisedGrow(s, PeakUnlocked(s), heads[..|answers|]);
    LastIsOnTopGrows(s, PeakUnlocked(s), heads, |answers|);
  }

  lemma DiedFirst(steps: seq<ProcessStep>, n: nat)
    requires n <= |steps| && steps != [] && steps[0].Die?
    ensures !MarksFirst(steps, 0, n)
  {
  }

  /** What the last turn of the heads is, in a process that has just refused. */
  lemma LastTurn(c: Config, p: Process, answers: seq<Answer>)
    requires Track(c, p, answers) && HasRefused(p.pc) && JustRefused(p)
    ensures answers != [] && |p.heads| == |answers| + 1
    ensures var t := TurnOf(c, p.heads[|answers| - 1], answers[|answers| - 1]); t.Commit? && AfterCommit(t) == p.pc
    ensures Booked(c, p.stores.writer.disk, p.heads, answers) && AllFinalised(p.stores, p.heads[..|answers|])
    ensures LastIsOnTop(p.stores, p.heads, |answers|) && Ended(HeadOf(p))
    ensures p.pc.PublishingRefused? ==> ActionOf(p.pc.refused) == Action.Reject
  {
    hide TurnOf, Booked, AllFinalised, LastIsOnTop, DecidedTrack, AfterCommit, FitPending, Bundled, KeyToMark;
  }

  /** From another latest snapshot that two promotions have not overtaken, a crash is followed by a
      run that makes the same turns again, up to the refusal, and then writes the marker. */
  lemma RestartRepairs(c: Config, rank: Id -> int, p: Process, x: StateSnapshot)
    returns (more: seq<Process>, taken: seq<ProcessStep>)
    requires TrackInv(c, p) && HasRefused(p.pc) && CanStillMark(p) && JustRefused(p) && p.heads != [] && p.pc.head == HeadOf(p)
    requires IsLatest(CommittedView(p.stores.writer.disk), c.run, rank, x) && x != p.pc.head && !Overtaken(p.heads, x)
    ensures Follows(c, rank, more, taken) && more[0] == p
    ensures KeyToMark(p.pc) in more[|taken|].stores.quarantined && taken != [] && taken[0].Die? && !MarksFirst(taken, 0, |taken|)
  {
    hide RunInv, Track, JustRefused, StoresInv, TurnOf, Booked, AllFinalised, LastIsOnTop, CommittedView, IsLatest, CanStillMark, Follows,
      AfterCommit, KeyToMark, Overtaken, MarksFirst, StandsFor, Passable;
    var answers :| Track(c, p, answers);
    RunInvParts(c, p);
    LastTurn(c, p, answers);
    var k := FoundIsPast(c, p, rank, answers, x);
    more, taken := RestartElsewhere(c, rank, p, x);
    var s := PeakUnlocked(p.stores);
    RefusedIsIdle(p);
    UnlockedStaysTracked(c, p.stores, p.heads, answers);
    NotOvertakenIsPassable(c, s, p.heads, answers, k, x);
    SameTurnAgain(c, p, answers, k, x);
    var on, walk := TurnsAgain(c, rank, s, x, p.heads, p.heads, answers, k);
    more, taken := Chained(c, rank, more, taken, on, walk);
    var q := more[|taken|];
    JustRefusedAgain(p, q);
    var last, end := MarkingEnds(c, rank, q);
    more, taken := Chained(c, rank, more, taken, last, end);
    DiedFirst(taken, |taken|);
  }

  lemma RefusedIsIdle(p: Process)
    requires JustRefused(p)
    ensures Idle(PeakUnlocked(p.stores)) && p.stores.installing.None?
  {
    hide KeyToMark;
  }

  lemma JustRefusedAgain(p: Process, q: Process)
    requires JustRefused(p) && HasRefused(p.pc) && CanStillMark(p) && q.stores == PeakUnlocked(p.stores) && q.pc == p.pc
    ensures JustRefused(q) && CanStillMark(q)
  {
    hide MarkerLinksHold, DecisionLoads, KeyToMark;
  }

  lemma SameTurnAgain(c: Config, p: Process, answers: seq<Answer>, k: nat, x: StateSnapshot)
    requires |p.heads| == |answers| + 1 && Booked(c, p.stores.writer.disk, p.heads, answers) && k < |answers|
    requires StandsFor(x, p.heads[k]) && HasRefused(p.pc)
    requires var t := TurnOf(c, p.heads[|answers| - 1], answers[|answers| - 1]); t.Commit? && AfterCommit(t) == p.pc
    ensures TurnOf(c, x, answers[k]) == TurnOf(c, p.heads[k], answers[k])
  {
    hide TurnOf, Booked, AfterCommit, StandsFor, AlreadyCommitted, Fit, EndsWell;
    EntryFacts(c, p.stores.writer.disk, p.heads, answers, k);
    if k + 1 < |answers| {
      EntryFacts(c, p.stores.writer.disk, p.heads, answers, k + 1);
      TurnTakesState(c, p.heads[k + 1], answers[k + 1]);
    }
    TurnFromTwin(c, x, p.heads[k], answers[k]);
  }

  // ---- A restart that never makes it again ----

  lemma KeyIsOfThisIteration(c: Config, p: Process, answers: seq<Answer>)
    requires Track(c, p, answers) && HasRefused(p.pc) && JustRefused(p) && CanStillMark(p)
    ensures answers != [] && |p.heads| == |answers| + 1 && KeyToMark(p.pc).iteration == p.heads[|answers| - 1].iteration
  {
    hide Track, TurnOf, Booked, AllFinalised, LastIsOnTop, JustRefused, ManifestIntact, Admissible, PayloadOf, LoadedRecord, FitPending,
      Fit, DecisionLoads;
    LastTurn(c, p, answers);
    var k := |answers| - 1;
    EntryFacts(c, p.stores.writer.disk, p.heads, answers, k);
    RequestOf(c, p.heads[k], answers[k]);
  }

  /** A process behind a barrier that dies before it has marked. */
  lemma DyingBehind(
    c: Config, rank: Id -> int, p: Process, b: StateSnapshot, key: QuarantineKey, states: seq<Process>, steps: seq<ProcessStep>,
    n: nat)
    requires LatestIsLow(c, rank, CommittedView(p.stores.writer.disk), b) && IsBarrier(c, p.stores.writer.disk, b) && Sunk(p.stores, b)
    requires Follows(c, rank, states, steps) && 1 <= n < |states| && steps[0].Die? && WorkInv(c, states[0])
    requires states[0].stores.writer.disk == p.stores.writer.disk && StoresGrow(p.stores, states[0].stores)
    requires key !in states[0].stores.quarantined && b.iteration < key.iteration
    ensures key !in states[n].stores.quarantined
  {
    hide LatestIsLow, IsBarrier, Sunk, WorkInv, StoresInv, CommittedView, ProcessNext, StoresGrow, Held;
    var r, q := states[0], states[1];
    assert ProcessNext(c, rank, r, steps[0], q);
    WorkStep(c, rank, r, steps[0], q);
    WorkIsIntact(c, r);
    ProcessKeepsStoresInv(c, rank, r, steps[0], q);
    StoresGrowTransitive(p.stores, r.stores, q.stores);
    DeathLeaves(c, rank, r, steps[0], q);
    DeathIsHeld(c, rank, p, b, q);
    HeldForGood(c, rank, CommittedView(p.stores.writer.disk), b, states[1..], steps[1..], n - 1, key);
  }

  lemma DeathLeaves(c: Config, rank: Id -> int, p: Process, step: ProcessStep, q: Process)
    requires step.Die? && ProcessNext(c, rank, p, step, q)
    ensures q.pc.Down? && q.stores.writer.disk == p.stores.writer.disk && q.stores.quarantined == p.stores.quarantined
  {
  }

  lemma MarkedBehindIffFirst(
    c: Config, rank: Id -> int, p: Process, b: StateSnapshot, states: seq<Process>, steps: seq<ProcessStep>, n: nat)
    requires LatestIsLow(c, rank, CommittedView(p.stores.writer.disk), b) && IsBarrier(c, p.stores.writer.disk, b) && Sunk(p.stores, b)
    requires Follows(c, rank, states, steps) && n < |states| && WorkInv(c, states[0]) && states[0].pc.Marking?
    requires states[0].stores.writer.disk == p.stores.writer.disk && StoresGrow(p.stores, states[0].stores)
    requires var key := QuarantineKeyOf(states[0].pc.marker);
      key !in states[0].stores.quarantined && b.iteration < key.iteration
    ensures QuarantineKeyOf(states[0].pc.marker) in states[n].stores.quarantined <==> MarksFirst(steps, 0, n)
  {
    hide LatestIsLow, IsBarrier, Sunk, WorkInv, CommittedView, ProcessNext, StoresGrow;
    if n > 0 {
      OnlyMarkOrDie(c, rank, states[0], steps[0], states[1]);
      if steps[0].Mark? {
        QuarantineKeeps(c, rank, states, steps, 1, n);
        assert SurvivesTo(steps, 0, 0);
      } else {
        DyingBehind(c, rank, p, b, QuarantineKeyOf(states[0].pc.marker), states, steps, n);
        DiedFirst(steps, n);
      }
    }
  }

  lemma PublishingLeaves(c: Config, rank: Id -> int, p: Process, step: ProcessStep, q: Process)
    requires JustRefused(p) && p.pc.PublishingRefused? && ProcessNext(c, rank, p, step, q) && StoresInv(p.stores)
    ensures step.PublishRefused? || step.Die?
    ensures step.PublishRefused? ==>
      && q.pc.Marking? && QuarantineKeyOf(q.pc.marker) == KeyToMark(p.pc) && KeyToMark(p.pc) !in q.stores.quarantined
      && q.stores.writer.disk == p.stores.writer.disk && StoresGrow(p.stores, q.stores)
  {
    hide StoresInv, ProcessNext, StoresGrow;
    OnlyPublishRefusedOrDie(c, rank, p, step, q);
    ProcessKeepsStoresInv(c, rank, p, step, q);
  }

  lemma StoresGrowRefl(s: Stores)
    ensures StoresGrow(s, s)
  {
  }

  /** Behind a barrier the marker is there exactly when it was written before the process first died. */
  lemma BehindMarkedIff(
    c: Config, rank: Id -> int, p: Process, b: StateSnapshot, states: seq<Process>, steps: seq<ProcessStep>, n: nat)
    requires LatestIsLow(c, rank, CommittedView(p.stores.writer.disk), b) && IsBarrier(c, p.stores.writer.disk, b) && Sunk(p.stores, b)
    requires JustRefused(p) && WorkInv(c, p) && b.iteration < KeyToMark(p.pc).iteration
    requires Follows(c, rank, states, steps) && n < |states| && states[0] == p
    ensures KeyToMark(p.pc) in states[n].stores.quarantined <==> MarksFirst(steps, 0, n)
  {
    hide LatestIsLow, IsBarrier, Sunk, WorkInv, StoresInv, CommittedView, ProcessNext, StoresGrow, MarksFirst;
    StoresGrowRefl(p.stores);
    if p.pc.Marking? {
      MarkedBehindIffFirst(c, rank, p, b, states, steps, n);
    } else if n > 0 {
      assert ProcessNext(c, rank, p, steps[0], states[1]);
      WorkIsIntact(c, p);
      PublishingLeaves(c, rank, p, steps[0], states[1]);
      if steps[0].Die? {
        DyingBehind(c, rank, p, b, KeyToMark(p.pc), states, steps, n);
        DiedFirst(steps, n);
      } else {
        WorkStep(c, rank, p, steps[0], states[1]);
        MarkedBehindIffFirst(c, rank, p, b, states[1..], steps[1..], n - 1);
        MarksShift(steps, 0, n);
        MarksLater(steps, n);
      }
    } else {
      NothingFirst(steps);
    }
  }

  lemma NothingFirst(steps: seq<ProcessStep>)
    ensures !MarksFirst(steps, 0, 0)
  {
  }

  lemma MarksLater(steps: seq<ProcessStep>, n: nat)
    requires 1 <= n <= |steps|
    ensures MarksFirst(steps, 1, n) <==> MarksFirst(steps[1..], 0, n - 1)
  {
    if MarksFirst(steps, 1, n) {
      var j :| 1 <= j < n && steps[j].Mark? && SurvivesTo(steps, 1, j);
      assert steps[1..][j - 1].Mark? && SurvivesTo(steps[1..], 0, j - 1);
    }
    if MarksFirst(steps[1..], 0, n - 1) {
      var j :| 0 <= j < n - 1 && steps[1..][j].Mark? && SurvivesTo(steps[1..], 0, j);
      forall i | 1 <= i < j + 1 ensures !steps[i].Die? { assert steps[i] == steps[1..][i - 1]; }
      assert steps[j + 1].Mark? && SurvivesTo(steps, 1, j + 1);
    }
  }

  // ---- Nothing but a crash keeps the marker from being written ----

  /** The decision a human's refusal rests on refuses its subject, as the approval service writes it. */
  predicate FitRefusal(s: StateSnapshot, answer: Answer) {
    answer.ReviewAnswer? ==>
      match answer.review
      case ReviewDecided(approved, _, _, _, d) =>
        && d.action == Action.Reject && d.run == s.run && d.iteration == s.iteration
        && (s.state == DataReviewPending ==> d.subjectType == DatasetSubject)
        && (s.state == ModelReviewPending && s.metadata.candidate.Some? ==>
              d.subjectType == CheckpointSubject && d.subject == s.metadata.candidate.value.checkpoint)
      case ReviewExpired(_, subject) =>
        s.state == ModelReviewPending && s.metadata.candidate.Some? ==> subject == s.metadata.candidate.value.checkpoint
      case _ => true
  }

  lemma CommittedMarkerLinks(d: Disk, req: Request, m: QuarantineMarker)
    requires AlreadyCommitted(d, req) && Intact(d) && GoodMarker(req, m)
    ensures MarkerLinksHold(d, m)
  {
    var x :| DecisionRecord(x) in req.records && x.id == m.decision && DecisionFitsMarker(x, m);
    NamedRecordIsCommitted(d, req, DecisionRecord(x));
    PayloadKeeps(req, DecisionRecord(x));
    hide PayloadOf, Admissible, CommittedView, Intact;
    assert KeyOf(DecisionRecord(x)) in RefsOf(PayloadOf(req.records));
    ViewIsFiles(d, KeyOf(DecisionRecord(x)));
  }

  lemma ViewIsFiles(d: Disk, k: Key)
    ensures k in CommittedView(d) ==> k in d.files && CommittedView(d)[k] == d.files[k]
  {
  }

  lemma CommittedDecisionLoads(d: Disk, req: Request, x: StateSnapshot, decision: Decision)
    requires AlreadyCommitted(d, req) && Intact(d) && DecisionRecord(decision) in req.records && Materializable(x)
    requires var f, m := x.metadata.candidate.value, x.metadata.materialization.value;
      && m.tx == req.tx && m.decision == decision.id && m.sourceIteration == req.iteration && x.run == req.run
      && decision.run == x.run && decision.iteration == m.sourceIteration && decision.subjectType == CheckpointSubject
      && decision.subject == f.checkpoint && decision.action == m.action
    ensures DecisionLoads(d, x, decision)
  {
    NamedRecordIsCommitted(d, req, DecisionRecord(decision));
    PayloadKeeps(req, DecisionRecord(decision));
    hide PayloadOf, Admissible, CommittedView, Intact;
    assert KeyOf(DecisionRecord(decision)) in RefsOf(PayloadOf(req.records));
    ViewIsFiles(d, KeyOf(DecisionRecord(decision)));
  }

  lemma StopMarker(c: Config, s: StateSnapshot, review: Review)
    requires (review.ReviewDecided? && !review.approved) || review.ReviewExpired?
    requires s.state == DataReviewPending && FitRefusal(s, ReviewAnswer(review))
    ensures var t := StopForApproval(c, s, review); t.Commit? && t.marker.Some? && GoodMarker(t.req, t.marker.value)
  {
    hide AddId;
    var t := StopForApproval(c, s, review);
    assert t.req.records[1].DecisionRecord? && t.req.records[1] in t.req.records;
    assert DecisionFitsMarker(t.req.records[1].decision, t.marker.value);
  }

  lemma StopDecision(c: Config, s: StateSnapshot, review: Review) returns (d: Decision)
    requires (review.ReviewDecided? && !review.approved) || review.ReviewExpired?
    requires s.state == ModelReviewPending && FitPending(s) && FitRefusal(s, ReviewAnswer(review))
    ensures var t := StopForApproval(c, s, review);
      && t.Commit? && t.marker.None? && t.refused.Some? && Materializable(t.refused.value)
      && DecisionRecord(d) in t.req.records && t.refused.value.run == t.req.run
      && var f, m := t.refused.value.metadata.candidate.value, t.refused.value.metadata.materialization.value;
      && m.tx == t.req.tx && m.decision == d.id && m.sourceIteration == t.req.iteration && d.run == t.req.run
      && d.iteration == m.sourceIteration && d.subjectType == CheckpointSubject && d.subject == f.checkpoint && d.action == m.action
  {
    hide AddId;
    d := StopForApproval(c, s, review).req.records[1].decision;
  }

  lemma DataMarker(c: Config, s: StateSnapshot, input: DataInput)
    ensures var t := DataTurn(c, s, input); t.Commit? && t.refused.None? && (t.marker.Some? ==> GoodMarker(t.req, t.marker.value))
  {
    hide StageRecords, EvidenceRecords, AllDataEvidence, Ids, AcceptanceRate, GoodMarker, EndsPlainly;
    if s.iteration <= c.limits.maxIterations && input.teacher.Batch? {
      var x := input.teacher;
      RejectEndsPlainly(c, s, input.evidence, x.dataset, x.accepted, x.cost);
    }
  }

  lemma CandidateMarksNothing(c: Config, s: StateSnapshot, input: CandidateInput)
    requires CandidateTurn(c, s, input).Commit?
    ensures CandidateTurn(c, s, input).marker.None? && CandidateTurn(c, s, input).refused.None?
  {
    hide JudgeCandidate, EvidenceRecords, CandidateRecords, PolicyRecords, Ids, AddId;
  }

  /** Right after a refusal whose decision refuses its subject the marker can be written. */
  lemma RefusalCanBeMarked(c: Config, p: Process, s: StateSnapshot, answer: Answer)
    requires TurnOf(c, s, answer).Commit? && p.pc == AfterCommit(TurnOf(c, s, answer)) && HasRefused(p.pc)
    requires AlreadyCommitted(p.stores.writer.disk, TurnOf(c, s, answer).req) && Intact(p.stores.writer.disk)
    requires Fit(s) && FitRefusal(s, answer)
    ensures CanStillMark(p)
  {
    hide DataTurn, CandidateTurn, StopForApproval, PolicyRecords, Materialized, AlreadyCommitted, Intact, GoodMarker, MarkerLinksHold,
      DecisionLoads, FitPending, JudgeCandidate, FitRefusal;
    var d, t := p.stores.writer.disk, TurnOf(c, s, answer);
    match s.state
    case Diagnose =>
      DataMarker(c, s, answer.data);
      CommittedMarkerLinks(d, t.req, t.marker.value);
    case Train => CandidateMarksNothing(c, s, answer.candidate);
    case DataReviewPending =>
      StopMarker(c, s, answer.review);
      CommittedMarkerLinks(d, t.req, t.marker.value);
    case ModelReviewPending =>
      var decision := StopDecision(c, s, answer.review);
      CommittedDecisionLoads(d, t.req, t.refused.value, decision);
    case _ =>
  }

  // ---- The exact condition ----

  /** Whatever happens from here, the marker is there exactly when it was written before the process
      first died: no restart ever repairs it. */
  ghost predicate LostUnlessFirst(c: Config, rank: Id -> int, p: Process)
    requires Refusing(p.pc)
  {
    forall more: seq<Process>, taken: seq<ProcessStep> :: Follows(c, rank, more, taken) && more[0] == p ==>
      forall n :: 0 <= n < |more| ==> (KeyToMark(p.pc) in more[n].stores.quarantined <==> MarksFirst(taken, 0, n))
  }

  /** All a restart can find is the stop, or a snapshot that two promotions have overtaken. */
  ghost predicate NothingToGoBackTo(c: Config, rank: Id -> int, p: Process, stop: StateSnapshot) {
    forall x :: IsLatest(CommittedView(p.stores.writer.disk), c.run, rank, x) ==> x == stop || Overtaken(p.heads, x)
  }

  lemma NothingIsLost(c: Config, rank: Id -> int, p: Process, more: seq<Process>, taken: seq<ProcessStep>, n: nat)
    requires TrackInv(c, p) && WorkInv(c, p) && HasRefused(p.pc) && CanStillMark(p) && JustRefused(p)
    requires p.heads != [] && p.pc.head == HeadOf(p) && NothingToGoBackTo(c, rank, p, p.pc.head)
    requires Follows(c, rank, more, taken) && more[0] == p && n < |more|
    ensures KeyToMark(p.pc) in more[n].stores.quarantined <==> MarksFirst(taken, 0, n)
  {
    hide RunInv, Track, WorkInv, JustRefused, CommittedView, IsLatest, Overtaken, CanStillMark, Follows, KeyToMark, MarksFirst, LatestIsLow,
      IsBarrier, Sunk;
    var view := CommittedView(p.stores.writer.disk);
    if x :| IsLatest(view, c.run, rank, x) && x != p.pc.head {
      var answers :| Track(c, p, answers);
      LastTurn(c, p, answers);
      var b := OvertakenIsBehind(c, p, rank, answers, x);
      KeyIsOfThisIteration(c, p, answers);
      BehindMarkedIff(c, rank, p, b, more, taken, n);
    } else {
      EndedRefusalMarkedIff(c, rank, more, taken, 0, n);
    }
  }

  /** In every run that stayed on course up to a refusal, by the gate or by a human, with or without
      reviews: its marker is lost unless it is written before the process first dies, if and only
      if a restart can find nothing but the stop, or what two promotions have overtaken. Otherwise
      there is a run that loses it in a crash and has it in the end. */
  lemma RefusalIsLostIff(c: Config, rank: Id -> int, e: BootEvidence, states: seq<Process>, steps: seq<ProcessStep>, m: nat)
    requires IsAnyRun(c, rank, e, states, steps) && m < |states| && OnCourse(states, steps, m)
    requires HasRefused(states[m].pc) && CanStillMark(states[m])
    ensures Refusing(states[m].pc) && states[m].heads != []
    ensures LostUnlessFirst(c, rank, states[m]) <==> NothingToGoBackTo(c, rank, states[m], HeadOf(states[m]))
  {
    hide IsAnyRun, TrackInv, WorkInv, CommittedView, IsLatest, Overtaken, CanStillMark, ProcessNext, KeyToMark, MarksFirst,
      OnCourse, StoresInv;
    var p := states[m];
    OnCourseIsTracked(c, rank, e, states, steps, m);
    EveryRunWorks(c, rank, e, states, steps, m);
    RefusalIsFresh(c, p);
    if NothingToGoBackTo(c, rank, p, HeadOf(p)) {
      forall more: seq<Process>, taken: seq<ProcessStep>, n: nat | Follows(c, rank, more, taken) && more[0] == p && n < |more|
        ensures KeyToMark(p.pc) in more[n].stores.quarantined <==> MarksFirst(taken, 0, n)
      {
        NothingIsLost(c, rank, p, more, taken, n);
      }
    } else {
      var x :| IsLatest(CommittedView(p.stores.writer.disk), c.run, rank, x) && x != HeadOf(p) && !Overtaken(p.heads, x);
      var more, taken := RestartRepairs(c, rank, p, x);
    }
  }

  // ---- What a caller can check ----

  /** The head sorts strictly after every other snapshot entered at a decision and, if it was entered
      at one itself, after the head before it. */
  ghost predicate SortsLast(c: Config, rank: Id -> int, d: Disk, heads: seq<StateSnapshot>)
    requires heads != []
  {
    var head := heads[|heads| - 1];
    && (forall s :: ByDecision(d, c.run, s) && s != head ==> !NotAfter(rank, head, s))
    && (ByDecision(d, c.run, head) ==> 2 <= |heads| && !NotAfter(rank, head, heads[|heads| - 2]))
  }

  lemma ChronicleSorts(c: Config, d: Disk, rank: Id -> int, head: StateSnapshot, anchor: StateSnapshot)
    requires Chronicle(c, d, head, anchor)
    ensures MustFind(c, rank, d, head) <==>
      && (forall s :: ByDecision(d, c.run, s) && s != head ==> !NotAfter(rank, head, s))
      && (ByDecision(d, c.run, head) ==> !NotAfter(rank, head, anchor))
  {
    hide CommittedView, WrittenByHuman, Poised, HumanShape, TxInv, InView, IsLatest;
    OnlyLatestIff(CommittedView(d), c.run, rank, head);
  }

  /** In every state of every run that has stayed on course: a restart can find nothing but the head
      exactly when the head sorts strictly last. */
  lemma OnlyHeadIsFoundIff(c: Config, rank: Id -> int, e: BootEvidence, states: seq<Process>, steps: seq<ProcessStep>, n: nat)
    requires IsAnyRun(c, rank, e, states, steps) && n < |states| && OnCourse(states, steps, n)
    ensures states[n].heads != []
    ensures var d := states[n].stores.writer.disk;
      MustFind(c, rank, d, HeadOf(states[n])) <==> SortsLast(c, rank, d, states[n].heads)
  {
    hide RunInv, IsAnyRun, Chronicle, ByDecision, CommittedView, MustFind, NotAfter, AnchorOf;
    OnCourseKeepsInv(c, rank, e, states, steps, n);
    var p := states[n];
    RunChronicle(c, p);
    ChronicleSorts(c, p.stores.writer.disk, rank, HeadOf(p), AnchorOf(p.stores.writer.disk, c.run, p.heads));
    DecidedHeadHasPrevious(c, p.stores.writer.disk, p.heads);
  }

  /** Before a second promotion only times decide: when the refusal was made, against when its review
      was requested and when earlier decisions were made. */
  lemma RefusalIsLostByTimes(c: Config, rank: Id -> int, e: BootEvidence, states: seq<Process>, steps: seq<ProcessStep>, m: nat)
    requires IsAnyRun(c, rank, e, states, steps) && m < |states| && OnCourse(states, steps, m)
    requires HasRefused(states[m].pc) && CanStillMark(states[m])
    requires forall i, j :: 0 <= i < j < |states[m].heads| ==> !Promotes(states[m].heads[i]) || !Promotes(states[m].heads[j])
    ensures Refusing(states[m].pc) && states[m].heads != []
    ensures LostUnlessFirst(c, rank, states[m]) <==> SortsLast(c, rank, states[m].stores.writer.disk, states[m].heads)
  {
    hide IsAnyRun, CommittedView, IsLatest, CanStillMark, LostUnlessFirst, SortsLast, OnCourse, Promotes, HasRefused, Refusing;
    RefusalIsLostIff(c, rank, e, states, steps, m);
    OnlyHeadIsFoundIff(c, rank, e, states, steps, m);
  }

  /** Right after the commit of any refusal whose decision refuses its subject the marker can be written. */
  lemma CommittedRefusalCanBeMarked(
    c: Config, rank: Id -> int, e: BootEvidence, states: seq<Process>, steps: seq<ProcessStep>, n: nat, answer: Answer)
    requires IsAnyRun(c, rank, e, states, steps) && n < |steps| && OnCourse(states, steps, n) && states[n].heads != []
    requires Commits(c, states, steps, n, TurnOf(c, HeadOf(states[n]), answer)) && HasRefused(states[n + 1].pc)
    requires FitRefusal(HeadOf(states[n]), answer)
    ensures OnCourse(states, steps, n + 1) && CanStillMark(states[n + 1])
  {
    hide RunInv, FitEvidence, BootProcess, ProcessNext, TurnOf, StoresInv, Track, AfterCommit, FitRefusal, CanStillMark, FitPending,
      StoresNext, MayStart, NoConflict, PayloadOf, Finished, CommittedView, HasRefused;
    var t := TurnOf(c, HeadOf(states[n]), answer);
    CommitMovesOn(c, rank, e, states, steps, n, t);
    OnCourseIsTracked(c, rank, e, states, steps, n);
    var answers :| Track(c, states[n], answers);
    TrackParts(c, states[n], answers);
    PlaceOfHead(c, states[n]);
    WritingFacts(c, states[n]);
    WriteMarkerExtendsView(states[n].stores, states[n + 1].stores);
    FinishedIsCommitted(states[n].stores.writer.disk, t.req);
    RefusalCanBeMarked(c, states[n + 1], HeadOf(states[n]), answer);
  }

  /** Where a restart can only find the stop, a refused candidate's bundle is lost in the same way. */
  lemma RefusedBundleIsLost(
    c: Config, rank: Id -> int, e: BootEvidence, states: seq<Process>, steps: seq<ProcessStep>, m: nat, n: nat)
    requires IsAnyRun(c, rank, e, states, steps) && m <= n < |states| && OnCourse(states, steps, m)
    requires states[m].pc.PublishingRefused? && states[m].heads != []
    requires SortsLast(c, rank, states[m].stores.writer.disk, states[m].heads)
    ensures Materializable(states[m].pc.refused)
    ensures RefusalKey(states[m].pc.refused) in states[n].stores.quarantined <==> MarksFirst(steps, m, n)
    ensures CheckpointOf(states[m].pc.refused) in states[n].stores.bundles <==> PublishesFirst(steps, m, n)
  {
    hide FitEvidence, BootProcess, TrackInv, CommittedView, ProcessNext, MarksFirst, PublishesFirst, OnCourse, StoresInv,
      MustFind, SortsLast;
    OnCourseIsTracked(c, rank, e, states, steps, m);
    RefusalIsFresh(c, states[m]);
    OnlyHeadIsFoundIff(c, rank, e, states, steps, m);
    EndedCandidateMarkedIff(c, rank, states, steps, m, n);
  }
}
