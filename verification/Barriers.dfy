/** When two promotions have been committed since a snapshot, the first of them is a barrier: a
    process that goes back to the snapshot never comes to the second again. */
module Barriers {
  import opened Records
  import opened ControlStore
  import opened ControlProtocol
  import opened CheckpointStore
  import opened PeakStore
  import opened StoreSystem
  import opened Controller
  import opened RunState
  import opened Materialization
  import opened CrashRecovery
  import opened ReviewTimes
  import opened ReviewedRuns
  import opened TurnEnds
  import opened Carries
  import opened Tracks
  import opened Replays
  import opened Forks

  // ---- The first of two promotions is a barrier ----

  lemma {:induction false} HeadsRun(c: Config, d: Disk, heads: seq<StateSnapshot>, answers: seq<Answer>, i: nat, j: nat)
    requires Booked(c, d, heads, answers) && i <= j < |heads|
    ensures heads[i].run == heads[j].run
    decreases j
  {
    hide Entry;
    if i < j {
      HeadsRun(c, d, heads, answers, i, j - 1);
      EntryRun(c, d, heads[j - 1], answers[j - 1], heads[j]);
    }
  }

  lemma EntryRun(c: Config, d: Disk, s: StateSnapshot, answer: Answer, next: StateSnapshot)
    requires Entry(c, d, s, answer, next)
    ensures s.run == next.run
  {
    hide TurnOf, AlreadyCommitted, Fit, Timed, Poised;
    var clock :| KeepsTime(c, s, clock, TurnOf(c, s, answer));
  }

  /** Every head but the first was written by the turn before it. */
  lemma HeadWorks(c: Config, d: Disk, heads: seq<StateSnapshot>, answers: seq<Answer>, k: nat)
    requires Booked(c, d, heads, answers) && 1 <= k < |heads| == |answers| + 1 && heads[|answers|].run == c.run
    requires AllWork(c, CommittedView(d)) && Intact(d)
    ensures Works(c, CommittedView(d), heads[k])
  {
    hide Booked, TurnOf, AlreadyCommitted, CommittedView, Intact, Works, InView, Fit, EndsWell;
    EntryFacts(c, d, heads, answers, k - 1);
    HeadsRun(c, d, heads, answers, k - 1, |answers|);
    RepeatedIsInView(c, d, heads[k - 1], answers[k - 1]);
  }

  /** The next iteration's dataset was verified under what the promotion made of the run. */
  lemma GoesOnVerified(c: Config, d: Disk, b: StateSnapshot, answer: Answer, next: StateSnapshot)
    requires TurnOf(c, b, answer).Commit? && TurnOf(c, b, answer).next == next && AlreadyCommitted(d, TurnOf(c, b, answer).req)
    requires b.state == Diagnose && b.run == c.run && next.state != Aborted && next.state != Stopped && Intact(d)
    ensures Minted(TxId, c.run, b.iteration, DataTx) in d.markers && VerifiedAs(CommittedView(d), c.run, b)
  {
    hide DataTurn, CandidateTurn, DataReviewTurn, ModelReviewTurn, CommittedView, Intact, SameCarry, PassesAll;
    var t := TurnOf(c, b, answer);
    MarkedIsCommitted(d, t.req);
    hide AlreadyCommitted;
    DataTurnPasses(c, b, answer.data);
    var v :| SnapshotRecord(v) in t.req.records && v.id == VerifiedId(b.run, b.iteration) && SameCarry(v, b);
    NamedRecordIsCommitted(d, t.req, SnapshotRecord(v));
  }

  lemma PromotionCame(c: Config, d: Disk, s: StateSnapshot, answer: Answer, b: StateSnapshot)
    requires TurnOf(c, s, answer).Commit? && TurnOf(c, s, answer).next == b && AlreadyCommitted(d, TurnOf(c, s, answer).req)
    requires s.iteration != b.iteration && Promotes(b) && Works(c, CommittedView(d), s)
    ensures 1 <= b.iteration && CameBy(c, d, b, TurnOf(c, s, answer).req) && RisesFrom(CommittedView(d), c.run, b)
    ensures b.metadata.materialization.value.sourceIteration + 1 == b.iteration
  {
    hide TurnOf, CommittedView, AlreadyCommitted, FitPending, VerifiedIn, PassedOn;
    var t := TurnOf(c, s, answer);
    RequestOf(c, s, answer);
    TurnLeadsOn(c, s, answer, b);
    TurnPasses(c, s, answer);
    forall y | SnapshotRecord(y) in t.req.records && y.metadata.materialization.Some? ensures y == b {
      assert Passes(c, s, t, y);
    }
  }

  lemma PromotionIsBarrier(c: Config, d: Disk, heads: seq<StateSnapshot>, answers: seq<Answer>, i: nat)
    requires Booked(c, d, heads, answers) && |heads| == |answers| + 1 && heads[|answers|].run == c.run
    requires AllWork(c, CommittedView(d)) && Intact(d) && Begins(heads[0]) && i + 1 < |answers| && Promotes(heads[i])
    ensures IsBarrier(c, d, heads[i]) && i >= 1
    ensures heads[i].metadata.materialization.value.sourceIteration + 1 == heads[i].iteration
  {
    hide Booked, TurnOf, AlreadyCommitted, CommittedView, Intact, Works, AllWork, Fit, EndsWell, VerifiedAs, RisesFrom, CameBy;
    var b := heads[i];
    PastHeadIsBetween(c, d, heads, answers, i);
    HeadsRise(c, d, heads, answers, i - 1, i);
    HeadsRun(c, d, heads, answers, i, |answers|);
    EntryFacts(c, d, heads, answers, i);
    EntryFacts(c, d, heads, answers, i + 1);
    TurnTakesState(c, heads[i + 1], answers[i + 1]);
    GoesOnVerified(c, d, b, answers[i], heads[i + 1]);
    EntryFacts(c, d, heads, answers, i - 1);
    PreviousWorks(c, d, heads, answers, i);
    PromotionCame(c, d, heads[i - 1], answers[i - 1], b);
  }

  /** The head a promotion was decided at is not the first. */
  lemma PreviousWorks(c: Config, d: Disk, heads: seq<StateSnapshot>, answers: seq<Answer>, i: nat)
    requires Booked(c, d, heads, answers) && heads[|answers|].run == c.run && 1 <= i < |answers|
    requires AllWork(c, CommittedView(d)) && Intact(d) && Begins(heads[0]) && heads[i - 1].iteration != heads[i].iteration
    ensures Works(c, CommittedView(d), heads[i - 1])
  {
    hide Booked, TurnOf, AlreadyCommitted, CommittedView, Intact, Works, AllWork, Fit, EndsWell;
    EntryFacts(c, d, heads, answers, i - 1);
    if i > 1 {
      HeadWorks(c, d, heads, answers, i - 1);
    } else {
      DataStaysInIteration(c, heads[0], answers[0]);
    }
  }

  lemma DataStaysInIteration(c: Config, s: StateSnapshot, answer: Answer)
    requires TurnOf(c, s, answer).Commit? && s.state == Diagnose
    ensures TurnOf(c, s, answer).next.iteration == s.iteration
  {
    RequestOf(c, s, answer);
    hide DataTurn, CandidateTurn, DataReviewTurn, ModelReviewTurn;
    DataTurnStays(c, s, answer.data);
  }

  // ---- It has another checkpoint above it ----

  lemma InstalledLater(s: Stores, p: PeakPointer, q: PeakPointer)
    requires StoresInv(s) && p in s.installed && q in s.installed && p.iteration < q.iteration
    ensures exists i :: 0 <= i < |s.installed| - 1 && s.installed[i] == p
  {
    hide WriterInv, BundlesLoad, HistorySound, QuarantineSound, IsChain, InHistory, Succeeds;
    var i :| 0 <= i < |s.installed| && s.installed[i] == p;
    var j :| 0 <= j < |s.installed| && s.installed[j] == q;
    if j < i { ChainRises(s.installed, j, i); }
  }

  lemma OvertakenIsSunk(s: Stores, b: StateSnapshot, later: StateSnapshot)
    requires StoresInv(s) && Finalised(s, b) && Finalised(s, later) && Promotes(b) && Promotes(later)
    requires b.metadata.materialization.value.sourceIteration < later.metadata.materialization.value.sourceIteration
    ensures Sunk(s, b)
  {
    hide StoresInv, BundleCommits, LoadedRecord, BundleOf, BundleRequestOf;
    var d :| CarriedThrough(s, b, d);
    var e :| CarriedThrough(s, later, e);
    InstalledLater(s, PointerOf(b, d), PointerOf(later, e));
  }

  // ---- A process that dies behind it ----

  lemma LatestTie(view: Payload, run: Id, rank: Id -> int, x: StateSnapshot, y: StateSnapshot)
    requires IsLatest(view, run, rank, x) && IsLatest(view, run, rank, y)
    ensures x.iteration == y.iteration && x.enteredAt == y.enteredAt
  {
  }

  lemma OthersAreEarly(c: Config, p: Process, rank: Id -> int, answers: seq<Answer>, x: StateSnapshot, i: nat)
    requires RunInv(c, p) && Track(c, p, answers) && Ended(HeadOf(p)) && i < |answers|
    requires IsLatest(CommittedView(p.stores.writer.disk), c.run, rank, x) && x.iteration < p.heads[i].iteration
    ensures LatestIsLow(c, rank, CommittedView(p.stores.writer.disk), p.heads[i])
  {
    hide RunInv, Track, CommittedView, IsLatest, Booked, StandsFor;
    TrackBooks(c, p, answers);
    HeadsRise(c, p.stores.writer.disk, p.heads, answers, i, |answers|);
    forall y | IsLatest(CommittedView(p.stores.writer.disk), c.run, rank, y)
      ensures y.iteration < p.heads[i].iteration && y.metadata.materialization.None?
    {
      LatestTie(CommittedView(p.stores.writer.disk), c.run, rank, x, y);
      var k := FoundIsPast(c, p, rank, answers, y);
    }
  }

  lemma TrackBooks(c: Config, p: Process, answers: seq<Answer>)
    requires Track(c, p, answers)
    ensures |p.heads| == |answers| + 1 && Booked(c, p.stores.writer.disk, p.heads, answers) && Begins(p.heads[0])
    ensures AllFinalised(p.stores, p.heads[..|answers|])
  {
    hide Booked, AllFinalised, DecidedTrack, LocalTrack, FitPending, Begins;
  }

  lemma PromotionIsFinalised(c: Config, p: Process, answers: seq<Answer>, i: nat)
    requires Track(c, p, answers) && RunInv(c, p) && WorkInv(c, p) && Ended(HeadOf(p)) && i < |p.heads| && Promotes(p.heads[i])
    ensures i < |answers| && Finalised(p.stores, p.heads[i])
    ensures i + 1 < |answers| ==>
      && IsBarrier(c, p.stores.writer.disk, p.heads[i])
      && p.heads[i].metadata.materialization.value.sourceIteration + 1 == p.heads[i].iteration
  {
    hide Track, RunInv, WorkInv, Booked, Finalised, IsBarrier, AllWork, Intact, CommittedView, StoresInv, PcWorks;
    TrackBooks(c, p, answers);
    assert i < |answers|;
    assert p.heads[i] in p.heads[..|answers|];
    WorkFacts(c, p);
    StoresAreIntact(p.stores);
    HeadHasRun(c, p);
    if i + 1 < |answers| { PromotionIsBarrier(c, p.stores.writer.disk, p.heads, answers, i); }
  }

  lemma HeadHasRun(c: Config, p: Process)
    requires RunInv(c, p)
    ensures p.heads != [] && HeadOf(p).run == c.run
  {
    hide StoresInv, PcFollows, ByDecision, CommittedView, HumanShape, TxInv, Poised, AnchorOf;
  }

  /** The source iteration of a promotion is the one before its head's. */
  lemma PromotionSource(c: Config, p: Process, answers: seq<Answer>, i: nat)
    requires Track(c, p, answers) && RunInv(c, p) && WorkInv(c, p) && 1 <= i < |answers| && Promotes(p.heads[i])
    ensures p.heads[i].metadata.materialization.value.sourceIteration == p.heads[i - 1].iteration < p.heads[i].iteration
  {
    hide Track, RunInv, WorkInv, Booked, AllWork, Intact, CommittedView, StoresInv, PcWorks, Works, TurnOf, AlreadyCommitted, EndsWell,
      Fit;
    var d := p.stores.writer.disk;
    TrackBooks(c, p, answers);
    WorkFacts(c, p);
    StoresAreIntact(p.stores);
    HeadHasRun(c, p);
    PastHeadIsBetween(c, d, p.heads, answers, i);
    HeadsRise(c, d, p.heads, answers, i - 1, i);
    EntryFacts(c, d, p.heads, answers, i - 1);
    PreviousWorks(c, d, p.heads, answers, i);
    PromotionCame(c, d, p.heads[i - 1], answers[i - 1], p.heads[i]);
    NextIterationOf(c, d, p.heads[i - 1], answers[i - 1]);
  }

  lemma NextIterationOf(c: Config, d: Disk, s: StateSnapshot, answer: Answer)
    requires TurnOf(c, s, answer).Commit? && AlreadyCommitted(d, TurnOf(c, s, answer).req)
    ensures var next := TurnOf(c, s, answer).next; next.iteration == s.iteration || next.iteration == s.iteration + 1
  {
    hide TurnOf, ManifestOf, ManifestIntact, Admissible;
    RequestOf(c, s, answer);
    RunOfRecord(TurnOf(c, s, answer).req, TurnOf(c, s, answer).next);
  }

  /** Two promotions after x: the first is a barrier between x and the refusal. */
  lemma OvertakenIsBehind(c: Config, p: Process, rank: Id -> int, answers: seq<Answer>, x: StateSnapshot) returns (b: StateSnapshot)
    requires RunInv(c, p) && Track(c, p, answers) && WorkInv(c, p) && Ended(HeadOf(p))
    requires IsLatest(CommittedView(p.stores.writer.disk), c.run, rank, x) && Overtaken(p.heads, x)
    ensures LatestIsLow(c, rank, CommittedView(p.stores.writer.disk), b)
    ensures IsBarrier(c, p.stores.writer.disk, b) && Sunk(p.stores, b)
    ensures answers != [] && |p.heads| == |answers| + 1 && b.iteration < p.heads[|answers| - 1].iteration
  {
    hide RunInv, Track, WorkInv, StoresInv, CommittedView, IsLatest, Booked, Finalised, IsBarrier, Sunk, Promotes, LatestIsLow;
    var i, j :| 0 <= i < j < |p.heads| && Promotes(p.heads[i]) && Promotes(p.heads[j]) && x.iteration < p.heads[i].iteration;
    var d := p.stores.writer.disk;
    TrackBooks(c, p, answers);
    RunInvParts(c, p);
    PromotionIsFinalised(c, p, answers, i);
    PromotionIsFinalised(c, p, answers, j);
    b := p.heads[i];
    OthersAreEarly(c, p, rank, answers, x, i);
    PromotionSource(c, p, answers, j);
    HeadsRise(c, d, p.heads, answers, i, j - 1);
    HeadsRise(c, d, p.heads, answers, j, |answers| - 1);
    OvertakenIsSunk(p.stores, b, p.heads[j]);
  }

  /** From there on the process is held. */
  lemma DeathIsHeld(c: Config, rank: Id -> int, p: Process, b: StateSnapshot, q: Process)
    requires LatestIsLow(c, rank, CommittedView(p.stores.writer.disk), b)
    requires IsBarrier(c, p.stores.writer.disk, b) && Sunk(p.stores, b)
    requires WorkInv(c, q) && q.pc.Down? && q.stores.writer.disk == p.stores.writer.disk && StoresGrow(p.stores, q.stores)
    ensures Held(c, rank, CommittedView(p.stores.writer.disk), b, q)
  {
    hide WorkInv, LatestIsLow, CommittedView, IsBarrier, Sunk, StoresGrow, Intact, InView;
    WorkIsIntact(c, q);
    SunkGrows(p.stores, q.stores, b);
  }
}
