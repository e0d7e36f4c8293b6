/** Where the committed records and the bundles of a run come from: the transactions are those of
    turns the process began, and what was published about a candidate is what was evaluated. */
module Evaluations {
  import opened Records
  import opened ControlStore
  import opened ControlProtocol
  import opened CheckpointStore
  import opened PeakStore
  import opened QuarantineStore
  import opened StoreSystem
  import opened Controller
  import opened Turns
  import opened RunState
  import opened Materialization
  import opened Bootstrap
  import opened CrashRecovery
  import opened CrashSafety
  import opened CrashTheorems
  import opened ReviewedRuns
  import opened Tracks
  import TurnOutcomes
  import Outcomes = CandidateOutcomes

  // ---- Every transaction is a turn the process began ----

  function TurnBegun(c: Config, p: Process, step: ProcessStep): Turn {
    if step.BeginTurn? && p.pc.Ready? then TurnOf(c, p.pc.head, step.answer) else Raise
  }

  /** The marker of this transaction is that of a turn begun by this step, and the run went on from where
      the turn left it. */
  ghost predicate IsTransactionOf(c: Config, p: Process, step: ProcessStep, q: Process, tx: Id) {
    var t := TurnBegun(c, p, step);
    && t.Commit? && t.req.tx == tx && t.next in q.heads
    && tx in q.stores.writer.disk.markers && q.stores.writer.disk.markers[tx] == ManifestOf(t.req)
  }

  ghost predicate FromTurn(c: Config, states: seq<Process>, steps: seq<ProcessStep>, n: nat, tx: Id)
    requires n < |states| == |steps| + 1
  {
    exists i :: 0 <= i < n && IsTransactionOf(c, states[i], steps[i], states[n], tx)
  }

  predicate FromBoot(c: Config, e: BootEvidence, d: Disk, tx: Id) {
    tx == BootTx(c) && tx in d.markers && d.markers[tx] == ManifestOf(BootRequest(c, e))
  }

  /** What is being committed is a turn begun earlier. */
  ghost predicate CommitsBegun(c: Config, states: seq<Process>, steps: seq<ProcessStep>, n: nat)
    requires n < |states| == |steps| + 1
  {
    var p := states[n];
    && (p.stores.writer.pending.Some? ==>
          p.pc.Committing? && p.pc.turn.Commit? && p.stores.writer.pending.value.req == p.pc.turn.req)
    && (p.pc.Committing? ==> exists i :: 0 <= i < n && TurnBegun(c, states[i], steps[i]) == p.pc.turn)
  }

  ghost predicate Origins(c: Config, e: BootEvidence, states: seq<Process>, steps: seq<ProcessStep>, n: nat)
    requires n < |states| == |steps| + 1
  {
    && CommitsBegun(c, states, steps, n)
    && forall tx :: tx in states[n].stores.writer.disk.markers ==>
         FromBoot(c, e, states[n].stores.writer.disk, tx) || FromTurn(c, states, steps, n, tx)
  }

  /** A step that writes no marker. */
  ghost predicate SameMarkers(p: Process, p': Process) {
    && p'.stores.writer.disk.markers == p.stores.writer.disk.markers
    && forall x :: x in p.heads ==> x in p'.heads
  }

  lemma QuietStep(c: Config, rank: Id -> int, p: Process, step: ProcessStep, p': Process)
    requires ProcessNext(c, rank, p, step, p') && step != CommitStep(WriteMarker)
    ensures SameMarkers(p, p')
    ensures p'.stores.writer.pending.Some? ==>
      || step.BeginTurn?
      || (p.stores.writer.pending.Some? && p'.stores.writer.pending.value.req == p.stores.writer.pending.value.req
          && (p'.pc == p.pc || !p.pc.Committing?))
    ensures p'.pc.Committing? ==> step.BeginTurn? || p'.pc == p.pc
  {
    hide TurnOf, AlreadyCommitted, BundleCommits, LoadedRecord, BundleRequestOf, MayBundle, MayInstall, AlreadyInstalled, PointerOf,
      MarkerOf, MarkerCommits, MayStart, IsLatest, CommittedView, FreshCandidate;
  }

  lemma OriginsStay(
    c: Config, rank: Id -> int, e: BootEvidence, states: seq<Process>, steps: seq<ProcessStep>, n: nat)
    requires n < |steps| && |states| == |steps| + 1 && Origins(c, e, states, steps, n)
    requires ProcessNext(c, rank, states[n], steps[n], states[n + 1]) && steps[n] != CommitStep(WriteMarker)
    ensures Origins(c, e, states, steps, n + 1)
  {
    hide TurnBegun, ManifestOf, BootRequest;
    QuietStep(c, rank, states[n], steps[n], states[n + 1]);
    var d := states[n + 1].stores.writer.disk;
    forall tx | tx in d.markers ensures FromBoot(c, e, d, tx) || FromTurn(c, states, steps, n + 1, tx)
    {
      if FromTurn(c, states, steps, n, tx) {
        var i :| 0 <= i < n && IsTransactionOf(c, states[i], steps[i], states[n], tx);
        assert IsTransactionOf(c, states[i], steps[i], states[n + 1], tx);
      }
    }
    if steps[n].BeginTurn? { BeginningCommits(c, rank, states, steps, n); }
    assert states[n + 1].pc == states[n].pc && states[n].pc.Committing? ==>
      exists i :: 0 <= i < n + 1 && TurnBegun(c, states[i], steps[i]) == states[n].pc.turn;
  }

  lemma BeginningCommits(c: Config, rank: Id -> int, states: seq<Process>, steps: seq<ProcessStep>, n: nat)
    requires n < |steps| && |states| == |steps| + 1 && steps[n].BeginTurn?
    requires ProcessNext(c, rank, states[n], steps[n], states[n + 1])
    ensures CommitsBegun(c, states, steps, n + 1)
  {
    hide TurnOf, MayStart, FreshCandidate;
    assert TurnBegun(c, states[n], steps[n]) == states[n + 1].pc.turn;
  }

  lemma MarkerWritten(
    c: Config, rank: Id -> int, e: BootEvidence, states: seq<Process>, steps: seq<ProcessStep>, n: nat)
    requires n < |steps| && |states| == |steps| + 1 && Origins(c, e, states, steps, n)
    requires ProcessNext(c, rank, states[n], steps[n], states[n + 1]) && steps[n] == CommitStep(WriteMarker)
    ensures Origins(c, e, states, steps, n + 1)
  {
    hide TurnBegun, ManifestOf, BootRequest, AfterCommit;
    var p, q := states[n], states[n + 1];
    var i :| 0 <= i < n && TurnBegun(c, states[i], steps[i]) == p.pc.turn;
    var t := p.pc.turn;
    assert q.stores.writer.disk.markers == p.stores.writer.disk.markers[t.req.tx := ManifestOf(t.req)];
    assert q.heads[|p.heads|] == t.next;
    assert IsTransactionOf(c, states[i], steps[i], q, t.req.tx);
    NotCommitting(t);
    forall tx | tx in q.stores.writer.disk.markers
      ensures FromBoot(c, e, q.stores.writer.disk, tx) || FromTurn(c, states, steps, n + 1, tx)
    {
      if tx != t.req.tx && FromTurn(c, states, steps, n, tx) {
        var j :| 0 <= j < n && IsTransactionOf(c, states[j], steps[j], p, tx);
        assert IsTransactionOf(c, states[j], steps[j], q, tx);
      }
    }
  }

  lemma NotCommitting(t: Turn)
    requires t.Commit?
    ensures !AfterCommit(t).Committing?
  {
  }

  lemma {:induction false} RunHasOrigins(
    c: Config, rank: Id -> int, e: BootEvidence, states: seq<Process>, steps: seq<ProcessStep>, n: nat)
    requires IsAnyRun(c, rank, e, states, steps) && n < |states|
    ensures Origins(c, e, states, steps, n)
  {
    hide ProcessNext, FitEvidence, Origins;
    if n == 0 {
      BootHasOrigins(c, e, states, steps);
    } else {
      RunHasOrigins(c, rank, e, states, steps, n - 1);
      if steps[n - 1] == CommitStep(WriteMarker) {
        MarkerWritten(c, rank, e, states, steps, n - 1);
      } else {
        OriginsStay(c, rank, e, states, steps, n - 1);
      }
    }
  }

  lemma BootHasOrigins(c: Config, e: BootEvidence, states: seq<Process>, steps: seq<ProcessStep>)
    requires |states| == |steps| + 1 && states[0] == BootProcess(c, e)
    ensures Origins(c, e, states, steps, 0)
  {
    hide BootRecords, PayloadOf;
  }

  // ---- Every committed record is a turn's ----

  /** The record is one the turn begun by this step committed. */
  ghost predicate IsRecordOf(c: Config, p: Process, step: ProcessStep, q: Process, r: Record) {
    var t := TurnBegun(c, p, step);
    t.Commit? && r in t.req.records && t.next in q.heads
  }

  lemma RecordOfMarker(d: Disk, tx: Id, req: Request, k: Key)
    requires Intact(d) && tx in d.markers && d.markers[tx] == ManifestOf(req) && k in d.markers[tx].refs
    ensures k in d.files && d.files[k] in req.records
  {
    PayloadFacts(req.records);
    hide PayloadOf;
    assert FileMatches(d, k, d.markers[tx].refs[k]);
  }

  lemma {:induction false} RunGrowsFromBoot(
    c: Config, rank: Id -> int, e: BootEvidence, states: seq<Process>, steps: seq<ProcessStep>, n: nat)
    requires IsAnyRun(c, rank, e, states, steps) && n < |states|
    ensures StoresInv(states[n].stores) && StoresGrow(BootStores(c, e), states[n].stores)
  {
    hide ProcessNext, FitEvidence, BootStores, StoresInv, StoresGrow;
    if n == 0 {
      StoresCover(BootStores(c, e));
      BootStoresInv(c, e);
    } else {
      RunGrowsFromBoot(c, rank, e, states, steps, n - 1);
      ProcessKeepsStoresInv(c, rank, states[n - 1], steps[n - 1], states[n]);
      StoresGrowTransitive(BootStores(c, e), states[n - 1].stores, states[n].stores);
    }
  }

  lemma StoresCover(s: Stores)
    ensures StoresGrow(s, s)
  {
  }

  lemma RunIsIntact(
    c: Config, rank: Id -> int, e: BootEvidence, states: seq<Process>, steps: seq<ProcessStep>, n: nat)
    requires IsAnyRun(c, rank, e, states, steps) && n < |states|
    ensures Intact(states[n].stores.writer.disk)
  {
    hide IsAnyRun, BundlesLoad, HistorySound, QuarantineSound, PeakInv, CommittedView, StoresGrow;
    RunGrowsFromBoot(c, rank, e, states, steps, n);
  }

  /** The base model stays published as configured, and stays first among the Peaks. */
  lemma BaseStaysPublished(
    c: Config, rank: Id -> int, e: BootEvidence, states: seq<Process>, steps: seq<ProcessStep>, n: nat)
    requires IsAnyRun(c, rank, e, states, steps) && n < |states|
    ensures var s := states[n].stores;
      && c.base in s.bundles && s.installed != []
      && var b, p := s.bundles[c.base], s.installed[0];
      && b.lineage.status == StatusPeak && b.payload.status == StatusPeak
      && b.lineage.model == c.model && b.lineage.parent == None && b.lineage.score == c.initialScore
      && b.lineage.artifact == c.baseArtifact && b.manifest.artifact == c.baseArtifact
      && b.lineage.run == c.run && b.lineage.iteration == 0
      && p.checkpoint == c.base && p.previous == None && p.model == c.model && p.score == c.initialScore && p.iteration == 0
      && p.run == c.run && p.decision == PromoteBase(c, e).id && p.bundle.of == b.manifest
  {
    hide IsAnyRun, StoresInv, Grows, PromoteBase, BootDisk;
    RunGrowsFromBoot(c, rank, e, states, steps, n);
    assert BootStores(c, e).installed[0] == BootPointer(c, e);
  }

  /** In every state of every run, reviews included: a committed record was written by the bootstrap, or by
      a turn that some earlier step of the process began, and the run went on from where that turn left it. */
  lemma EveryRecordIsATurns(
    c: Config, rank: Id -> int, e: BootEvidence, states: seq<Process>, steps: seq<ProcessStep>, n: nat, k: Key)
    requires IsAnyRun(c, rank, e, states, steps) && n < |states| && k in CommittedView(states[n].stores.writer.disk)
    ensures var r := CommittedView(states[n].stores.writer.disk)[k];
      r in BootRecords(c, e) || exists i :: 0 <= i < n && IsRecordOf(c, states[i], steps[i], states[n], r)
  {
    hide ProcessNext, FitEvidence, BootProcess, TurnBegun, ManifestOf, BootRecords, Intact;
    var d := states[n].stores.writer.disk;
    RunIsIntact(c, rank, e, states, steps, n);
    RunHasOrigins(c, rank, e, states, steps, n);
    var tx :| tx in d.markers && k in d.markers[tx].refs;
    if FromBoot(c, e, d, tx) {
      RecordOfMarker(d, tx, BootRequest(c, e), k);
    } else {
      var i :| 0 <= i < n && IsTransactionOf(c, states[i], steps[i], states[n], tx);
      RecordOfMarker(d, tx, TurnBegun(c, states[i], steps[i]).req, k);
      assert IsRecordOf(c, states[i], steps[i], states[n], CommittedView(d)[k]);
    }
  }

  // ---- Verdicts ----

  /** The step asked the controller to decide this candidate, and the decision is what the policy says of its
      score and of the cost of the iteration. */
  predicate DecidedBy(c: Config, p: Process, step: ProcessStep, x: Decision) {
    && step.BeginTurn? && step.answer.CandidateAnswer? && step.answer.candidate.Evaluated?
    && p.pc.Ready? && p.pc.head.state == Train && p.pc.head.peakScore.Some?
    && var s, input := p.pc.head, step.answer.candidate;
    && var cost := s.metadata.iterationCost + input.cost;
    && x.run == c.run && x.iteration == s.iteration && x.subject == input.checkpoint
    && TurnOutcomes.NamesAll(x.evidence, input.evidence)
    && x.action == Outcomes.VerdictOn(c, s, input.score, cost)
    && x.reasonCode == Outcomes.ReasonFor(c, x.action, cost)
  }

  /** The published bundle is about what was evaluated, and its status and decision are those of the
      verdict. */
  predicate Published(c: Config, b: Bundle, x: Decision, input: CandidateInput)
    requires input.Evaluated?
  {
    var status := match x.action
      case Promote => StatusPeak
      case Rollback => StatusRolledBack
      case Abort => StatusAborted
      case _ => StatusRejected;
    && b.lineage.status == status && b.payload.status == status
    && b.payload.decision == Some(x.id) && b.payload.action == Some(x.action)
    && b.lineage.checkpoint == input.checkpoint && b.payload.checkpoint == input.checkpoint
    && b.lineage.score == input.score && b.payload.score == input.score
    && b.lineage.model == input.model && b.payload.model == input.model
    && b.lineage.parent == input.parent && b.payload.parent == input.parent
    && b.lineage.artifact == input.artifact && b.payload.artifact == Some(input.artifact) && b.manifest.artifact == input.artifact
    && b.lineage.run == x.run && b.payload.run == x.run && b.manifest.run == x.run
    && b.lineage.iteration == x.iteration && b.payload.iteration == x.iteration && b.manifest.iteration == x.iteration
    && b.lineage.tx == b.payload.tx == b.manifest.tx
    && b.lineage.createdAt == b.manifest.createdAt == c.started + 3600 * x.iteration + 110
  }

  /** The pointer a promotion installs. */
  predicate PointsTo(p: PeakPointer, b: Bundle, x: Decision, input: CandidateInput)
    requires input.Evaluated?
  {
    && p.run == x.run && p.iteration == x.iteration && p.checkpoint == input.checkpoint && p.decision == x.id
    && p.previous == input.parent && p.model == input.model && p.score == input.score && p.updatedAt == x.createdAt
    && p.bundle.of == b.manifest && p.tx == b.manifest.tx
  }

  /** The marker a rejection or a rollback leaves. */
  predicate Marks(m: QuarantineMarker, b: Bundle, x: Decision) {
    && m.run == x.run && m.iteration == x.iteration && m.subjectType == CheckpointSubject && m.subject == x.subject
    && m.decision == x.id && m.reasonCode == x.reasonCode && m.evidence == x.evidence && m.createdAt == x.createdAt
    && m.tx == b.manifest.tx
  }

  ghost predicate PublishedAs(c: Config, s: Stores, x: Decision, input: CandidateInput)
    requires input.Evaluated?
  {
    && input.checkpoint in s.bundles
    && var b := s.bundles[input.checkpoint];
    && Published(c, b, x, input)
    && (x.action == Promote ==> exists p :: p in s.installed && PointsTo(p, b, x, input))
    && (x.action == Action.Reject || x.action == Rollback ==>
          && QuarantineKey(x.iteration, CheckpointSubject, x.subject) in s.quarantined
          && Marks(s.quarantined[QuarantineKey(x.iteration, CheckpointSubject, x.subject)], b, x))
  }

  lemma ProcessRunIsOnCourse(
    c: Config, rank: Id -> int, e: BootEvidence, states: seq<Process>, steps: seq<ProcessStep>, n: nat)
    requires IsProcessRun(c, rank, e, states, steps) && n < |states|
    ensures OnCourse(states, steps, n)
  {
    hide IsLatest, CommittedView, BootProcess, FitEvidence;
    forall i | 0 <= i < n && steps[i].Resume? ensures states[i].heads != [] && steps[i].head == HeadOf(states[i]) {
      assert ProcessNext(c, rank, states[i], steps[i], states[i + 1]);
      LatestSnapshotIsHead(c, rank, e, states, steps, i, steps[i].head);
    }
  }

  /** Between two turns every head has been materialised as it asks. */
  lemma HeadsAreFinalised(
    c: Config, rank: Id -> int, e: BootEvidence, states: seq<Process>, steps: seq<ProcessStep>, n: nat, h: StateSnapshot)
    requires IsAnyRun(c, rank, e, states, steps) && n < |states| && OnCourse(states, steps, n)
    requires states[n].pc.Ready? && h in states[n].heads
    ensures Finalised(states[n].stores, h)
  {
    hide IsAnyRun, OnCourse, RunInv, Finalised, Booked, Begins, DecidedTrack, LastIsOnTop, QuarantineFits, PendingIsNew;
    OnCourseIsTracked(c, rank, e, states, steps, n);
    var p := states[n];
    var answers :| Track(c, p, answers);
    var k :| 0 <= k < |p.heads| && p.heads[k] == h;
    if k < |answers| { assert p.heads[..|answers|][k] == h; }
  }

  /** A decision about a checkpoint among the records of a good turn is the one its last snapshot asks to
      carry out. */
  lemma VerdictOfTurn(c: Config, s: StateSnapshot, t: Turn, x: Decision)
    requires GoodTurn(c, s, t) && DecisionRecord(x) in t.req.records && x.subjectType == CheckpointSubject
    ensures t.next.metadata.candidate.Some? && t.next.metadata.materialization.Some? && Turns.IsDecisionOf(x, t.next)
  {
    hide Advances, NextTx, GoodMarker, Before;
    var before :| Writes(before, s, t.req, t.next);
    assert DecisionRecord(x) in before;
  }

  lemma SameDecision(req: Request, x: Decision, d: Decision)
    requires Admissible(req) && DecisionRecord(x) in req.records && DecisionRecord(d) in req.records && x.id == d.id
    ensures x == d
  {
    hide FitsTransaction;
    PayloadKeeps(req, DecisionRecord(x));
    PayloadKeeps(req, DecisionRecord(d));
  }

  lemma BeginsAdmissibly(c: Config, rank: Id -> int, p: Process, step: ProcessStep, p': Process)
    requires ProcessNext(c, rank, p, step, p') && TurnBegun(c, p, step).Commit?
    ensures Admissible(TurnBegun(c, p, step).req)
  {
    hide TurnOf, Admissible, FreshCandidate;
  }

  /** A turn of a review-free run that decides about a checkpoint decides the candidate it was given. */
  lemma TurnDecides(c: Config, s: StateSnapshot, answer: Answer, x: Decision)
    requires ReviewFree(c) && Standing(c, s) && TurnOf(c, s, answer).Commit? && Admissible(TurnOf(c, s, answer).req)
    requires DecisionRecord(x) in TurnOf(c, s, answer).req.records && x.subjectType == CheckpointSubject
    ensures s.state == Train && s.peakScore.Some? && answer.CandidateAnswer? && answer.candidate.Evaluated?
    ensures var t, input := TurnOf(c, s, answer), answer.candidate;
      && t.next.metadata.candidate.Some?
      && Outcomes.RecordsCandidate(t.next.metadata.candidate.value, input)
      && Outcomes.Judges(c, s, t.next.metadata.candidate.value, Outcomes.CostWith(s, input), c.started + 3600 * s.iteration + 80, x)
      && Outcomes.AsksToMaterialize(s, t, t.next.metadata.candidate.value, x)
      && t.next.enteredAt == c.started + 3600 * s.iteration + 110
  {
    hide DataTurn, CandidateTurn, GoodTurn, Admissible, Outcomes.Judges, Outcomes.RecordsCandidate, Outcomes.MovesBy,
      Outcomes.AsksAboutCandidate, Outcomes.VerdictOn;
    var t := TurnOf(c, s, answer);
    if s.state == Diagnose {
      DataTurnIsGood(c, s, answer.data);
      VerdictOfTurn(c, s, t, x);
      DataTurnDecidesNothing(c, s, answer.data);
    } else {
      CandidateTurnIsGood(c, s, answer.candidate);
      VerdictOfTurn(c, s, t, x);
      AbortDecidesNothing(c, s, answer.candidate);
      Outcomes.CandidateTurnOutcome(c, s, answer.candidate);
      var f := t.next.metadata.candidate.value;
      var d :| DecisionRecord(d) in t.req.records
        && Outcomes.Judges(c, s, f, Outcomes.CostWith(s, answer.candidate), c.started + 3600 * s.iteration + 80, d)
        && Outcomes.AsksToMaterialize(s, t, f, d);
      SameDecision(t.req, x, d);
    }
  }

  lemma DataTurnDecidesNothing(c: Config, s: StateSnapshot, input: DataInput)
    requires s.state == Diagnose && Standing(c, s)
    ensures DataTurn(c, s, input).Commit? && DataTurn(c, s, input).next.metadata.materialization.None?
  {
    hide DataTurn, TurnOutcomes.RunDecision, TurnOutcomes.Quarantines, TurnOutcomes.AsksFor, TurnOutcomes.NamesAll;
    TurnOutcomes.DataTurnOutcome(c, s, input);
  }

  lemma AbortDecidesNothing(c: Config, s: StateSnapshot, input: CandidateInput)
    requires Standing(c, s) && s.state == Train
    ensures input.ExecutionFailed? ==> CandidateTurn(c, s, input).next.metadata.materialization.None?
  {
  }

  lemma PublishedBundle(c: Config, s: Stores, h: StateSnapshot, x: Decision, input: CandidateInput, t: Turn, from: StateSnapshot)
    requires Finalised(s, h) && t.Commit? && h == t.next && h.run == x.run && from.iteration == x.iteration
    requires input.Evaluated? && h.metadata.candidate.Some? && Outcomes.RecordsCandidate(h.metadata.candidate.value, input)
    requires Outcomes.AsksToMaterialize(from, t, h.metadata.candidate.value, x) && IsVerdict(x.action)
    requires CrashRecovery.Verdict(CommittedView(s.writer.disk), x) && x.subject == input.checkpoint
    requires h.enteredAt == c.started + 3600 * x.iteration + 110
    ensures PublishedAs(c, s, x, input)
  {
    hide MayBundle, Intact, IsCommitted, TurnOutcomes.NamesAll;
    var d :| CarriedThrough(s, h, d);
    assert d == x;
    var b := s.bundles[input.checkpoint];
    assert b == BundleOf(BundleRequestOf(h));
    if x.action == Promote { assert PointsTo(PointerOf(h, x), b, x, input); }
    if x.action == Action.Reject || x.action == Rollback { assert Marks(MarkerOf(h, x), b, x); }
  }

  lemma VerdictsAreFour(c: Config, s: StateSnapshot, score: real, cost: real)
    requires s.peakScore.Some?
    ensures IsVerdict(Outcomes.VerdictOn(c, s, score, cost))
  {
  }

  /** Between two turns of a review-free run, for every committed decision about a checkpoint after the
      bootstrap's: some step of the run asked for a verdict on that candidate, the decision is what the policy
      says of it, with the reason, and the bundle, the Peak pointer and the quarantine marker say of the
      candidate exactly what was evaluated, and of the verdict exactly what was decided. */
  lemma VerdictsAreOfWhatWasEvaluated(
    c: Config, rank: Id -> int, e: BootEvidence, states: seq<Process>, steps: seq<ProcessStep>, n: nat, x: Decision)
    requires IsProcessRun(c, rank, e, states, steps) && n < |states| && states[n].pc.Ready?
    requires CrashRecovery.Verdict(CommittedView(states[n].stores.writer.disk), x) && x != PromoteBase(c, e)
    ensures exists i :: 0 <= i < n && DecidedBy(c, states[i], steps[i], x)
                        && PublishedAs(c, states[n].stores, x, steps[i].answer.candidate)
  {
    hide ProcessNext, FitEvidence, BootProcess, Inv, TurnOf, Intact, CommittedView, PublishedAs, Finalised, ReviewFree;
    EveryRecordIsATurns(c, rank, e, states, steps, n, Key(DecisionKind, x.id));
    BootDecidesOnce(c, e, x);
    var i :| 0 <= i < n && IsRecordOf(c, states[i], steps[i], states[n], DecisionRecord(x));
    TurnWasDecided(c, rank, e, states, steps, i, x);
    var t := TurnBegun(c, states[i], steps[i]);
    ProcessRunIsOnCourse(c, rank, e, states, steps, n);
    HeadsAreFinalised(c, rank, e, states, steps, n, t.next);
    PublishedBundle(c, states[n].stores, t.next, x, steps[i].answer.candidate, t, states[i].pc.head);
    assert DecidedBy(c, states[i], steps[i], x) && PublishedAs(c, states[n].stores, x, steps[i].answer.candidate);
  }

  lemma BootDecidesOnce(c: Config, e: BootEvidence, x: Decision)
    requires x.subjectType == CheckpointSubject && x != PromoteBase(c, e)
    ensures DecisionRecord(x) !in BootRecords(c, e)
  {
  }

  lemma TurnWasDecided(
    c: Config, rank: Id -> int, e: BootEvidence, states: seq<Process>, steps: seq<ProcessStep>, i: nat, x: Decision)
    requires IsProcessRun(c, rank, e, states, steps) && i < |steps| && x.subjectType == CheckpointSubject
    requires TurnBegun(c, states[i], steps[i]).Commit? && DecisionRecord(x) in TurnBegun(c, states[i], steps[i]).req.records
    ensures DecidedBy(c, states[i], steps[i], x) && IsVerdict(x.action)
    ensures var t, s, input := TurnBegun(c, states[i], steps[i]), states[i].pc.head, steps[i].answer.candidate;
      && t.next.run == x.run && s.iteration == x.iteration && x.subject == input.checkpoint && t.next.metadata.candidate.Some?
      && Outcomes.RecordsCandidate(t.next.metadata.candidate.value, input)
      && Outcomes.AsksToMaterialize(s, t, t.next.metadata.candidate.value, x)
      && t.next.enteredAt == c.started + 3600 * s.iteration + 110
  {
    hide ProcessNext, FitEvidence, BootProcess, Inv, DataTurn, CandidateTurn, DataReviewTurn, ModelReviewTurn, CoreInv, PcInv, HeadsInv,
      Admissible, ReviewFree, Outcomes.VerdictOn, Outcomes.ReasonFor;
    ProcessRunKeepsInv(c, rank, e, states, steps, i);
    InvParts(c, states[i]);
    BeginsAdmissibly(c, rank, states[i], steps[i], states[i + 1]);
    var s, answer := states[i].pc.head, steps[i].answer;
    TurnDecides(c, s, answer, x);
    VerdictsAreFour(c, s, answer.candidate.score, Outcomes.CostWith(s, answer.candidate));
    NextHasItsRun(c, s, answer.candidate);
  }

  lemma NextHasItsRun(c: Config, s: StateSnapshot, input: CandidateInput)
    requires s.state == Train && Standing(c, s) && ReviewFree(c)
    ensures CandidateTurn(c, s, input).Commit? ==> CandidateTurn(c, s, input).next.run == s.run == c.run
  {
    hide CandidateTurn, NextTx, Writes, GoodMarker;
    CandidateTurnIsGood(c, s, input);
  }
}
