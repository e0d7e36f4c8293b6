/** What a run that stayed on course has behind it: the answers that led from head to head, every
    transaction committed, every materialisation finished. */
module Tracks {
  import opened Records
  import opened ControlStore
  import opened ControlProtocol
  import opened CheckpointStore
  import opened PeakStore
  import opened QuarantineStore
  import opened StoreSystem
  import opened Controller
  import opened RunState
  import opened Materialization
  import opened Bootstrap
  import opened CrashRecovery
  import opened CrashSafety
  import opened CrashTheorems
  import opened LostMarkers
  import opened ReviewTimes
  import opened ReviewedRuns
  import opened TurnEnds

  // ---- The ledger ----

  /** This answer led the run from s to next, by a transaction that is on disk. */
  ghost predicate Entry(c: Config, d: Disk, s: StateSnapshot, answer: Answer, next: StateSnapshot) {
    var t := TurnOf(c, s, answer);
    && t.Commit? && t.next == next && AlreadyCommitted(d, t.req) && Fit(s)
    && exists clock :: KeepsTime(c, s, clock, t)
  }

  ghost predicate Booked(c: Config, d: Disk, heads: seq<StateSnapshot>, answers: seq<Answer>) {
    && |heads| == |answers| + 1
    && forall k :: 0 <= k < |answers| ==> Entry(c, d, heads[k], answers[k], heads[k + 1])
  }

  // ---- Finished materialisations ----

  /** The bundle is there and the decision behind it loads. */
  ghost predicate Bundled(s: Stores, x: StateSnapshot, d: Decision) {
    && Materializable(x) && CheckpointOf(x) in s.bundles
    && BundleCommits(s.writer.disk, s.bundles, BundleRequestOf(x))
    && LoadedRecord(s.writer.disk, Key(DecisionKind, x.metadata.materialization.value.decision)) == Ok(DecisionRecord(d))
  }

  predicate Promotes(x: StateSnapshot) {
    Materializable(x) && ActionOf(x) == Promote
  }

  predicate MarkerThere(quarantined: map<QuarantineKey, QuarantineMarker>, m: QuarantineMarker) {
    QuarantineKeyOf(m) in quarantined && quarantined[QuarantineKeyOf(m)] == m
  }

  ghost predicate CarriedThrough(s: Stores, x: StateSnapshot, d: Decision) {
    && Bundled(s, x, d)
    && (ActionOf(x) == Promote ==> PointerOf(x, d) in s.installed)
    && (Refuses(ActionOf(x)) ==> MarkerThere(s.quarantined, MarkerOf(x, d)))
  }

  ghost predicate Finalised(s: Stores, x: StateSnapshot) {
    x.metadata.materialization.Some? ==> exists d :: CarriedThrough(s, x, d)
  }

  ghost predicate AllFinalised(s: Stores, heads: seq<StateSnapshot>) {
    forall x :: x in heads ==> Finalised(s, x)
  }

  /** The Peak pointer is this promotion's. */
  ghost predicate OnTop(s: Stores, x: StateSnapshot) {
    exists d :: Bundled(s, x, d) && s.pointer == Some(PointerOf(x, d))
  }

  predicate LaterPromotion(heads: seq<StateSnapshot>, j: nat) {
    exists i :: j < i < |heads| && Promotes(heads[i])
  }

  /** Of the first n heads only the last promotion is the Peak. */
  ghost predicate LastIsOnTop(s: Stores, heads: seq<StateSnapshot>, n: nat)
    requires n <= |heads|
  {
    forall j :: 0 <= j < n && Promotes(heads[j]) ==> OnTop(s, heads[j]) || LaterPromotion(heads, j)
  }

  // ---- What is in quarantine, and what is not ----

  ghost predicate OnlyCheckpoints(quarantined: map<QuarantineKey, QuarantineMarker>) {
    forall k :: k in quarantined ==> k.subjectType == CheckpointSubject
  }

  predicate Ended(s: StateSnapshot) {
    s.state == Stopped && s.metadata.materialization.None?
  }

  ghost predicate QuarantineFits(s: Stores, pc: Pc, head: StateSnapshot) {
    && (forall k :: k in s.quarantined && k.subjectType == CheckpointSubject ==> k.subject in s.bundles)
    && (OnlyCheckpoints(s.quarantined) || (Ended(head) && (pc.Down? || pc.Ready?)))
  }

  /** A candidate under review has no bundle yet. */
  predicate PendingIsNew(bundles: map<Id, Bundle>, s: StateSnapshot) {
    s.state == ModelReviewPending && s.metadata.candidate.Some? ==> s.metadata.candidate.value.checkpoint !in bundles
  }

  ghost predicate TakenFrom(c: Config, s: StateSnapshot, t: Turn) {
    exists answer :: TurnOf(c, s, answer) == t
  }

  ghost predicate MarkingOf(s: Stores, head: StateSnapshot, m: QuarantineMarker) {
    exists d :: Bundled(s, head, d) && Refuses(ActionOf(head)) && m == MarkerOf(head, d)
  }

  ghost predicate PcTrack(c: Config, s: Stores, pc: Pc, heads: seq<StateSnapshot>, answers: seq<Answer>)
    requires |heads| == |answers| + 1
  {
    var head := heads[|answers|];
    && (!pc.Committing? ==> s.writer.pending.None?)
    && (!pc.Installing? ==> s.installing.None?)
    && (Refusing(pc) ==>
          && !s.writer.locked && answers != []
          && TurnOf(c, heads[|answers| - 1], answers[|answers| - 1]).Commit?
          && pc == AfterCommit(TurnOf(c, heads[|answers| - 1], answers[|answers| - 1])))
    && match pc
       case Down => true
       case Ready(_) => Finalised(s, head) && LastIsOnTop(s, heads, |heads|)
       case Committing(_, t) =>
         && Finalised(s, head) && LastIsOnTop(s, heads, |heads|)
         && t.Commit? && FreshCandidate(s.bundles, t.next) && TakenFrom(c, head, t)
       case Publishing(_) => head.metadata.materialization.Some?
       case PublishingRefused(_, x) => Ended(head) && Materializable(x) && CheckpointOf(x) !in s.bundles && ActionOf(x) == Action.Reject
       case Promoting(_, d) => Bundled(s, head, d) && Promotes(head)
       case Installing(_, d) => Bundled(s, head, d) && Promotes(head) && s.installing == Some(PointerOf(head, d))
       case Marking(_, m) =>
         if head.metadata.materialization.Some? then MarkingOf(s, head, m)
         else Ended(head) && (m.subjectType == CheckpointSubject ==> m.subject in s.bundles)
  }

  /** Every snapshot entered at a decision is a head, or stands beside one. */
  ghost predicate Beside(c: Config, view: Payload, x: StateSnapshot, head: StateSnapshot) {
    || x == head
    || (&& head.metadata.materialization.Some?
        && (head.state == Diagnose ==> exists twin :: InView(view, c.run, twin) && TwinFor(x, twin, head))
        && (head.state != Diagnose ==> BesideStop(x, head)))
  }

  ghost predicate DecidedTrack(c: Config, d: Disk, heads: seq<StateSnapshot>) {
    forall x :: ByDecision(d, c.run, x) ==> exists k :: 0 <= k < |heads| && Beside(c, CommittedView(d), x, heads[k])
  }

  /** What the process and the stores other than the control store make of it. */
  ghost predicate LocalTrack(c: Config, s: Stores, pc: Pc, heads: seq<StateSnapshot>, answers: seq<Answer>)
    requires |heads| == |answers| + 1
  {
    && LastIsOnTop(s, heads, |answers|)
    && QuarantineFits(s, pc, heads[|answers|])
    && PendingIsNew(s.bundles, heads[|answers|])
    && PcTrack(c, s, pc, heads, answers)
  }

  /** A run begins with the first iteration, an accepted score, and nothing spent. */
  predicate Begins(s: StateSnapshot) {
    && s.state == Diagnose && s.iteration == 1 && s.metadata.materialization.None?
    && s.peakScore.Some? && s.plateau == 0 && s.totalCost == 0.0
  }

  ghost predicate Track(c: Config, p: Process, answers: seq<Answer>) {
    && |p.heads| == |answers| + 1
    && FitPending(HeadOf(p)) && Begins(p.heads[0])
    && Booked(c, p.stores.writer.disk, p.heads, answers)
    && AllFinalised(p.stores, p.heads[..|answers|])
    && DecidedTrack(c, p.stores.writer.disk, p.heads)
    && LocalTrack(c, p.stores, p.pc, p.heads, answers)
  }

  ghost predicate TrackInv(c: Config, p: Process) {
    RunInv(c, p) && exists answers :: Track(c, p, answers)
  }

  // ---- The stores only grow ----

  lemma CommittedStays(d: Disk, d': Disk, req: Request)
    requires AlreadyCommitted(d, req) && Grows(d, d')
    ensures AlreadyCommitted(d', req)
  {
    hide ManifestOf, Admissible;
    MoreFilesStayIntact(d, d', d.markers[req.tx]);
  }

  lemma BookedGrows(c: Config, d: Disk, d': Disk, heads: seq<StateSnapshot>, answers: seq<Answer>)
    requires Booked(c, d, heads, answers) && Grows(d, d')
    ensures Booked(c, d', heads, answers)
  {
    hide TurnOf, AlreadyCommitted, KeepsTime, Grows, Fit;
    forall k | 0 <= k < |answers| ensures Entry(c, d', heads[k], answers[k], heads[k + 1]) {
      assert Entry(c, d, heads[k], answers[k], heads[k + 1]);
      CommittedStays(d, d', TurnOf(c, heads[k], answers[k]).req);
    }
  }

  lemma BundledGrows(s: Stores, s': Stores, x: StateSnapshot, d: Decision)
    requires Bundled(s, x, d) && StoresGrow(s, s') && Intact(s'.writer.disk)
    ensures Bundled(s', x, d)
  {
    hide Intact, CommittedView, BundleOf, ManifestIntact;
    TransactionStaysLoadable(s.writer.disk, s'.writer.disk, BundleRequestOf(x).tx);
    RecordStaysLoadable(s.writer.disk, s'.writer.disk, Key(DecisionKind, x.metadata.materialization.value.decision));
  }

  lemma FinalisedGrows(s: Stores, s': Stores, x: StateSnapshot)
    requires Finalised(s, x) && StoresGrow(s, s') && Intact(s'.writer.disk)
    ensures Finalised(s', x)
  {
    hide Bundled, Intact, Grows, BundlesKept, MarkerOf, PointerOf;
    if x.metadata.materialization.Some? {
      var d :| CarriedThrough(s, x, d);
      BundledGrows(s, s', x, d);
      assert CarriedThrough(s', x, d);
    }
  }

  lemma AllFinalisedGrow(s: Stores, s': Stores, heads: seq<StateSnapshot>)
    requires AllFinalised(s, heads) && StoresGrow(s, s') && Intact(s'.writer.disk)
    ensures AllFinalised(s', heads)
  {
    hide Finalised, Intact, StoresGrow;
    forall x | x in heads ensures Finalised(s', x) { FinalisedGrows(s, s', x); }
  }

  lemma OnTopGrows(s: Stores, s': Stores, x: StateSnapshot)
    requires OnTop(s, x) && StoresGrow(s, s') && Intact(s'.writer.disk) && s'.pointer == s.pointer
    ensures OnTop(s', x)
  {
    hide BundleCommits, LoadedRecord, Intact, StoresGrow, PointerOf;
    var d :| Bundled(s, x, d) && s.pointer == Some(PointerOf(x, d));
    BundledGrows(s, s', x, d);
  }

  lemma LastIsOnTopGrows(s: Stores, s': Stores, heads: seq<StateSnapshot>, n: nat)
    requires n <= |heads| && LastIsOnTop(s, heads, n) && StoresGrow(s, s') && Intact(s'.writer.disk) && s'.pointer == s.pointer
    ensures LastIsOnTop(s', heads, n)
  {
    hide OnTop, Intact, StoresGrow, LaterPromotion, Promotes;
    forall j | 0 <= j < n && Promotes(heads[j]) && !LaterPromotion(heads, j) ensures OnTop(s', heads[j]) {
      OnTopGrows(s, s', heads[j]);
    }
  }

  // ---- Steps of a materialisation ----

  lemma OnlyOneMore(s: Stores, heads: seq<StateSnapshot>, answers: seq<Answer>)
    requires |heads| == |answers| + 1 && LastIsOnTop(s, heads, |answers|)
    requires Promotes(heads[|answers|]) ==> OnTop(s, heads[|answers|])
    ensures LastIsOnTop(s, heads, |heads|)
  {
    hide Promotes, OnTop, LaterPromotion;
  }

  lemma ReconcilingTracks(c: Config, s: Stores, pc: Pc, heads: seq<StateSnapshot>, answers: seq<Answer>)
    requires |heads| == |answers| + 1 && LocalTrack(c, s, pc, heads, answers) && (pc.Down? || pc.Ready?)
    ensures LocalTrack(c, s, Reconciling(heads[|answers|]), heads, answers)
  {
    hide LastIsOnTop, OnlyCheckpoints, OnTop;
    if heads[|answers|].metadata.materialization.None? { OnlyOneMore(s, heads, answers); }
  }

  lemma PublishTracks(c: Config, s: Stores, heads: seq<StateSnapshot>, answers: seq<Answer>, d: Decision, s': Stores)
    requires |heads| == |answers| + 1 && FitPending(heads[|answers|])
    requires LocalTrack(c, s, Publishing(heads[|answers|]), heads, answers)
    requires Publishes(s, heads[|answers|], d, s') && StoresGrow(s, s') && Intact(s'.writer.disk)
    ensures LocalTrack(c, s', AfterBundle(heads[|answers|], d), heads, answers)
  {
    hide LastIsOnTop, OnlyCheckpoints, OnTop, MayBundle, BundleOf, BundleRequestOf, LoadedRecord, Intact, Grows, PointerOf;
    var head := heads[|answers|];
    PublishBundles(s, head, d, s');
    PublishKeepsRest(s, head, d, s');
    LastIsOnTopGrows(s, s', heads, |answers|);
    if !Promotes(head) { OnlyOneMore(s', heads, answers); }
    if !Promotes(head) && !Refuses(ActionOf(head)) { assert CarriedThrough(s', head, d); }
  }

  lemma PublishBundles(s: Stores, x: StateSnapshot, d: Decision, s': Stores)
    requires Publishes(s, x, d, s')
    ensures Bundled(s', x, d)
  {
    hide LoadedRecord, TransactionFits, BundleOf;
  }

  lemma PublishKeepsRest(s: Stores, x: StateSnapshot, d: Decision, s': Stores)
    requires Publishes(s, x, d, s')
    ensures s'.quarantined == s.quarantined && s'.pointer == s.pointer && s'.writer == s.writer && s'.installing == s.installing
    ensures s'.installed == s.installed && s.bundles.Keys <= s'.bundles.Keys
  {
    hide LoadedRecord, TransactionFits, BundleOf;
  }

  lemma PublishRefusedTracks(
    c: Config, s: Stores, x: StateSnapshot, heads: seq<StateSnapshot>, answers: seq<Answer>, d: Decision, s': Stores)
    requires |heads| == |answers| + 1 && LocalTrack(c, s, PublishingRefused(heads[|answers|], x), heads, answers)
    requires Publishes(s, x, d, s') && StoresGrow(s, s') && Intact(s'.writer.disk)
    ensures LocalTrack(c, s', Marking(heads[|answers|], MarkerOf(x, d)), heads, answers)
  {
    hide LastIsOnTop, OnlyCheckpoints, OnTop, MayBundle, BundleOf, BundleRequestOf, LoadedRecord, Intact, Grows, PointerOf;
    PublishBundles(s, x, d, s');
    PublishKeepsRest(s, x, d, s');
    LastIsOnTopGrows(s, s', heads, |answers|);
  }

  lemma PeakIsInstalled(s: Stores)
    requires StoresInv(s)
    ensures s.pointer.Some? ==> s.pointer.value in s.installed
  {
    hide WriterInv, BundlesLoad, HistorySound, QuarantineSound, IsChain;
  }

  lemma PromotionTracks(c: Config, p: Process, answers: seq<Answer>, p': Process)
    requires |p.heads| == |answers| + 1 && (!p.pc.Down? ==> p.pc.head == HeadOf(p)) && StoresInv(p.stores)
    requires LocalTrack(c, p.stores, p.pc, p.heads, answers)
    requires PromotionNext(p, p') && StoresGrow(p.stores, p'.stores) && Intact(p'.stores.writer.disk)
    ensures LocalTrack(c, p'.stores, p'.pc, p.heads, answers)
  {
    hide StoresInv, LastIsOnTop, OnlyCheckpoints, BundleCommits, LoadedRecord, Intact, Grows, PointerOf, MayInstall, LinksHold, Promotes;
    var s, head, d := p.stores, HeadOf(p), p.pc.decision;
    PeakIsInstalled(s);
    LastIsOnTopGrows(s, p'.stores, p.heads, |answers|);
    BundledGrows(s, p'.stores, head, d);
    if p'.pc.Ready? {
      assert OnTop(s, head);
      PromotedIsFinalised(s, head, d);
      OnlyOneMore(s, p.heads, answers);
    }
  }

  lemma PromotedIsFinalised(s: Stores, x: StateSnapshot, d: Decision)
    requires Bundled(s, x, d) && Promotes(x) && PointerOf(x, d) in s.installed
    ensures Finalised(s, x)
  {
    hide BundleCommits, LoadedRecord, PointerOf;
    assert CarriedThrough(s, x, d);
  }

  lemma InstallTracks(c: Config, p: Process, answers: seq<Answer>, p': Process)
    requires |p.heads| == |answers| + 1 && (!p.pc.Down? ==> p.pc.head == HeadOf(p))
    requires LocalTrack(c, p.stores, p.pc, p.heads, answers)
    requires InstallNext(p, p') && StoresGrow(p.stores, p'.stores) && Intact(p'.stores.writer.disk)
    ensures LocalTrack(c, p'.stores, p'.pc, p.heads, answers)
  {
    hide LastIsOnTop, OnlyCheckpoints, BundleCommits, LoadedRecord, Intact, Grows, PointerOf, Promotes;
    var head, d := HeadOf(p), p.pc.decision;
    BundledGrows(p.stores, p'.stores, head, d);
    assert PointerOf(head, d) in p'.stores.installed && p'.stores.pointer == Some(PointerOf(head, d));
    assert OnTop(p'.stores, head);
    PromotedIsFinalised(p'.stores, head, d);
    NewPeakIsLast(p'.stores, p.heads, answers);
    OnlyOneMore(p'.stores, p.heads, answers);
  }

  lemma NewPeakIsLast(s: Stores, heads: seq<StateSnapshot>, answers: seq<Answer>)
    requires |heads| == |answers| + 1 && Promotes(heads[|answers|])
    ensures LastIsOnTop(s, heads, |answers|)
  {
    hide Promotes, OnTop;
    forall j | 0 <= j < |answers| ensures LaterPromotion(heads, j) { assert Promotes(heads[|answers|]); }
  }

  lemma MarkedIsFinalised(s: Stores, s': Stores, x: StateSnapshot, m: QuarantineMarker)
    requires MarkingOf(s, x, m) && MarkerThere(s'.quarantined, m) && StoresGrow(s, s') && Intact(s'.writer.disk)
    ensures Finalised(s', x) && !Promotes(x) && m.subjectType == CheckpointSubject && m.subject in s'.bundles
  {
    hide BundleCommits, LoadedRecord, Intact, Grows, PointerOf;
    var d :| Bundled(s, x, d) && Refuses(ActionOf(x)) && m == MarkerOf(x, d);
    BundledGrows(s, s', x, d);
    assert CarriedThrough(s', x, d);
  }

  lemma MarkWrites(p: Process, p': Process)
    requires MarkNext(p, p')
    ensures p.pc.Marking? && MarkerThere(p'.stores.quarantined, p.pc.marker) && p'.pc == Ready(p.pc.head)
    ensures p'.stores == p.stores.(quarantined := p.stores.quarantined[QuarantineKeyOf(p.pc.marker) := p.pc.marker])
  {
    hide MarkerLinksHold;
  }

  lemma MarkTracks(c: Config, p: Process, answers: seq<Answer>, p': Process)
    requires |p.heads| == |answers| + 1 && (!p.pc.Down? ==> p.pc.head == HeadOf(p))
    requires LocalTrack(c, p.stores, p.pc, p.heads, answers)
    requires MarkNext(p, p') && StoresGrow(p.stores, p'.stores) && Intact(p'.stores.writer.disk)
    ensures LocalTrack(c, p'.stores, p'.pc, p.heads, answers)
  {
    hide LastIsOnTop, OnTop, CarriedThrough, Intact, StoresGrow, MarkNext, MarkingOf, MarkerThere, Bundled, Promotes;
    var s, s', head := p.stores, p'.stores, HeadOf(p);
    MarkWrites(p, p');
    LastIsOnTopGrows(s, s', p.heads, |answers|);
    if head.metadata.materialization.Some? {
      MarkedIsFinalised(s, s', head, p.pc.marker);
    } else {
      NothingIsPromoted(head);
    }
    OnlyOneMore(s', p.heads, answers);
  }

  lemma NothingIsPromoted(x: StateSnapshot)
    requires x.metadata.materialization.None?
    ensures !Promotes(x)
  {
  }

  // ---- Other steps ----

  /** Only locks, and what is in memory, change. */
  predicate SameStores(s: Stores, s': Stores) {
    && s'.bundles == s.bundles && s'.pointer == s.pointer && s'.quarantined == s.quarantined
    && s'.installed == s.installed && s'.history == s.history
  }

  lemma DownTracks(c: Config, s: Stores, pc: Pc, heads: seq<StateSnapshot>, answers: seq<Answer>, s': Stores)
    requires |heads| == |answers| + 1 && LocalTrack(c, s, pc, heads, answers)
    requires SameStores(s, s') && StoresGrow(s, s') && Intact(s'.writer.disk)
    requires s'.writer.pending.None? && s'.installing.None?
    ensures LocalTrack(c, s', Down, heads, answers)
  {
    hide LastIsOnTop, OnlyCheckpoints, Intact, StoresGrow, Finalised, MarkingOf, Bundled, Promotes, PointerOf, TakenFrom;
    LastIsOnTopGrows(s, s', heads, |answers|);
  }

  lemma EndedTakesNoTurn(c: Config, s: StateSnapshot, answer: Answer)
    ensures Ended(s) ==> TurnOf(c, s, answer) == Raise
  {
  }

  lemma BeginTracks(c: Config, p: Process, answers: seq<Answer>, answer: Answer, p': Process)
    requires |p.heads| == |answers| + 1 && p.pc.Ready? && p.pc.head == HeadOf(p)
    requires LocalTrack(c, p.stores, p.pc, p.heads, answers)
    requires BeginNext(c, p, TurnOf(c, p.pc.head, answer), p') && StoresGrow(p.stores, p'.stores) && Intact(p'.stores.writer.disk)
    ensures LocalTrack(c, p'.stores, p'.pc, p.heads, answers) && SameStores(p.stores, p'.stores)
    ensures p'.stores.writer.disk == p.stores.writer.disk && p'.heads == p.heads
  {
    hide LastIsOnTop, OnlyCheckpoints, Intact, Finalised, MayStart, PayloadOf, TurnOf, FreshCandidate, Grows;
    EndedTakesNoTurn(c, HeadOf(p), answer);
    FinalisedGrows(p.stores, p'.stores, HeadOf(p));
    LastIsOnTopGrows(p.stores, p'.stores, p.heads, |answers|);
    LastIsOnTopGrows(p.stores, p'.stores, p.heads, |p.heads|);
    assert TakenFrom(c, HeadOf(p), p'.pc.turn);
  }

  lemma WritingTracks(c: Config, s: Stores, head: StateSnapshot, t: Turn, heads: seq<StateSnapshot>, answers: seq<Answer>, s': Stores)
    requires |heads| == |answers| + 1 && head == heads[|answers|] && LocalTrack(c, s, Committing(head, t), heads, answers)
    requires SameButWriter(s, s') && StoresGrow(s, s') && Intact(s'.writer.disk)
    ensures LocalTrack(c, s', Committing(head, t), heads, answers)
  {
    hide LastIsOnTop, OnlyCheckpoints, Intact, Finalised, FreshCandidate, Grows, TakenFrom;
    FinalisedGrows(s, s', head);
    LastIsOnTopGrows(s, s', heads, |answers|);
    LastIsOnTopGrows(s, s', heads, |heads|);
  }

  // ---- A turn's marker ----

  lemma MoreHeads(s: Stores, heads: seq<StateSnapshot>, next: StateSnapshot)
    requires LastIsOnTop(s, heads, |heads|)
    ensures LastIsOnTop(s, heads + [next], |heads|)
  {
    hide OnTop, Promotes;
    var more := heads + [next];
    forall j | 0 <= j < |heads| && Promotes(more[j]) && !OnTop(s, more[j]) ensures LaterPromotion(more, j) {
      var i :| j < i < |heads| && Promotes(heads[i]);
      assert Promotes(more[i]);
    }
  }

  lemma CommittedTracks(
    c: Config, s: Stores, head: StateSnapshot, t: Turn, heads: seq<StateSnapshot>, answers: seq<Answer>, answer: Answer, s': Stores)
    requires |heads| == |answers| + 1 && head == heads[|answers|] && LocalTrack(c, s, Committing(head, t), heads, answers)
    requires SameButWriter(s, s') && StoresGrow(s, s') && Intact(s'.writer.disk)
    requires s'.writer.pending.None? && !s'.writer.locked && s'.installing.None?
    requires t.Commit? && TurnOf(c, head, answer) == t && EndsWell(head, t)
    ensures LocalTrack(c, s', AfterCommit(t), heads + [t.next], answers + [answer])
  {
    hide LastIsOnTop, OnlyCheckpoints, Intact, Grows, TakenFrom, TurnOf, KeyToMark, MarkingOf, Bundled;
    var heads', answers' := heads + [t.next], answers + [answer];
    LastIsOnTopGrows(s, s', heads, |heads|);
    MoreHeads(s', heads, t.next);
    assert heads'[|answers'|] == t.next && heads'[|answers'| - 1] == head && answers'[|answers'| - 1] == answer;
    if t.next.metadata.materialization.None? { OnlyOneMore(s', heads', answers'); }
  }

  lemma FinishedIsCommitted(d: Disk, req: Request)
    requires MayStart(d, req) && Intact(Finished(d, req))
    ensures AlreadyCommitted(Finished(d, req), req)
  {
    hide PayloadOf, Admissible;
  }

  lemma BookedGoesOn(
    c: Config, d: Disk, d': Disk, heads: seq<StateSnapshot>, answers: seq<Answer>, answer: Answer, clock: int)
    requires Booked(c, d, heads, answers) && Grows(d, d')
    requires var t := TurnOf(c, heads[|answers|], answer);
      t.Commit? && AlreadyCommitted(d', t.req) && Fit(heads[|answers|]) && KeepsTime(c, heads[|answers|], clock, t)
    ensures Booked(c, d', heads + [TurnOf(c, heads[|answers|], answer).next], answers + [answer])
  {
    hide TurnOf, AlreadyCommitted, KeepsTime, Grows, Fit;
    BookedGrows(c, d, d', heads, answers);
    var next := TurnOf(c, heads[|answers|], answer).next;
    var heads', answers' := heads + [next], answers + [answer];
    forall k | 0 <= k < |answers'| ensures Entry(c, d', heads'[k], answers'[k], heads'[k + 1]) {
      if k < |answers| { assert Entry(c, d', heads[k], answers[k], heads[k + 1]); }
    }
  }

  lemma BesideGrows(c: Config, d: Disk, d': Disk, x: StateSnapshot, head: StateSnapshot)
    requires Beside(c, CommittedView(d), x, head) && Intact(d) && Intact(d') && Grows(d, d')
    ensures Beside(c, CommittedView(d'), x, head)
  {
    CommittedViewGrows(d, d');
    hide CommittedView, Intact, Grows, TwinFor;
    if x != head && head.state == Diagnose {
      var twin :| InView(CommittedView(d), c.run, twin) && TwinFor(x, twin, head);
      assert InView(CommittedView(d'), c.run, twin);
    }
  }

  lemma ComesFromIsBeside(c: Config, d: Disk, req: Request, x: StateSnapshot, next: StateSnapshot)
    requires Admissible(req) && NoConflict(d, PayloadOf(req.records)) && req.run == c.run
    requires ComesFrom(req.records, x, next) && next.run == c.run
    ensures Beside(c, CommittedView(d) + PayloadOf(req.records), x, next)
  {
    hide CommittedView, PayloadOf, NoConflict, Admissible, InView;
    if x != next && next.state == Diagnose {
      var twin :| SnapshotRecord(twin) in req.records && TwinFor(x, twin, next);
      InViewAfter(d, req, c.run, twin);
    }
  }

  /** What a decision has just entered is the new head, or stands beside it. */
  lemma NewDecidedTrack(c: Config, d: Disk, head: StateSnapshot, answer: Answer, x: StateSnapshot)
    requires Intact(d) && FitPending(head) && head.run == c.run
    requires var t := TurnOf(c, head, answer);
      && t.Commit? && t.req.tx.Minted? && t.req.run == c.run && t.next.run == c.run
      && MayStart(d, t.req) && NoConflict(d, PayloadOf(t.req.records))
      && CommittedView(Finished(d, t.req)) == CommittedView(d) + PayloadOf(t.req.records)
      && ByDecision(Finished(d, t.req), c.run, x) && !ByDecision(d, c.run, x)
    ensures Beside(c, CommittedView(Finished(d, TurnOf(c, head, answer).req)), x, TurnOf(c, head, answer).next)
  {
    hide CommittedView, PayloadOf, MayStart, NoConflict, TurnOf, Finished, Intact, ByDecision, FitPending, Beside, ComesFrom, HumanTag;
    var t := TurnOf(c, head, answer);
    MayStartIsAdmissible(d, t.req);
    DecidedAfter(d, t.req, c.run, x);
    DecidedComesFrom(c, head, answer, x);
    ComesFromIsBeside(c, d, t.req, x, t.next);
  }

  lemma DecidedTrackGoesOn(c: Config, d: Disk, heads: seq<StateSnapshot>, head: StateSnapshot, answer: Answer)
    requires DecidedTrack(c, d, heads) && Intact(d) && FitPending(head) && head.run == c.run
    requires var t := TurnOf(c, head, answer);
      && t.Commit? && t.req.tx.Minted? && t.req.run == c.run && t.next.run == c.run
      && MayStart(d, t.req) && NoConflict(d, PayloadOf(t.req.records))
      && CommittedView(Finished(d, t.req)) == CommittedView(d) + PayloadOf(t.req.records)
      && Intact(Finished(d, t.req)) && Grows(d, Finished(d, t.req))
    ensures DecidedTrack(c, Finished(d, TurnOf(c, head, answer).req), heads + [TurnOf(c, head, answer).next])
  {
    hide CommittedView, PayloadOf, MayStart, NoConflict, TurnOf, Finished, Intact, ByDecision, FitPending, Beside, Grows;
    var t := TurnOf(c, head, answer);
    var d', heads' := Finished(d, t.req), heads + [t.next];
    forall x | ByDecision(d', c.run, x) ensures exists k :: 0 <= k < |heads'| && Beside(c, CommittedView(d'), x, heads'[k]) {
      if ByDecision(d, c.run, x) {
        var k :| 0 <= k < |heads| && Beside(c, CommittedView(d), x, heads[k]);
        BesideGrows(c, d, d', x, heads[k]);
        assert heads'[k] == heads[k];
      } else {
        NewDecidedTrack(c, d, head, answer, x);
        assert heads'[|heads|] == t.next;
      }
    }
  }

  lemma WritingFacts(c: Config, p: Process)
    requires RunInv(c, p) && p.pc.Committing?
    ensures StoresInv(p.stores) && p.heads != [] && p.pc.head == HeadOf(p) && HeadOf(p).run == c.run
    ensures p.stores.writer.pending.Some? && p.stores.writer.pending.value.req == p.pc.turn.req
    ensures exists clock :: KeepsTime(c, HeadOf(p), clock, p.pc.turn)
  {
    hide StoresInv, KeepsTime, ByDecision, CommittedView, HumanShape, TxInv, Poised, AnchorOf;
  }

  lemma TimeOfTurn(c: Config, head: StateSnapshot, clock: int, t: Turn)
    requires KeepsTime(c, head, clock, t)
    ensures t.Commit? && t.req.tx.Minted? && t.req.run == head.run && t.next.run == head.run
  {
    hide Timed, Poised;
  }

  lemma MarkerIsTracked(c: Config, p: Process, answers: seq<Answer>, answer: Answer, p': Process)
    requires RunInv(c, p) && Track(c, p, answers) && CommitNext(p, WriteMarker, p') && StoresGrow(p.stores, p'.stores)
    requires TurnOf(c, p.pc.head, answer) == p.pc.turn && EndsWell(p.pc.head, p.pc.turn)
    ensures Track(c, p', answers + [answer])
  {
    hide RunInv, StoresInv, KeepsTime, TurnOf, CommittedView, MayStart, NoConflict, PayloadOf, Intact, DecidedTrack, Booked,
      AllFinalised, LocalTrack, FitPending, Grows, StoresGrow, BundlesKept, AlreadyCommitted, Finished, AfterCommit;
    WritingFacts(c, p);
    var d, t, head := p.stores.writer.disk, p.pc.turn, HeadOf(p);
    var clock :| KeepsTime(c, head, clock, t);
    TimeOfTurn(c, head, clock, t);
    WriteMarkerExtendsView(p.stores, p'.stores);
    StoresAreIntact(p.stores);
    FinishedIsCommitted(d, t.req);
    PlaceOfHead(c, p);
    BookedGoesOn(c, d, p'.stores.writer.disk, p.heads, answers, answer, clock);
    DecidedTrackGoesOn(c, d, p.heads, head, answer);
    MarkerUnlocks(p.stores, p'.stores);
    MarkerIsLocal(c, p, answers, answer, p');
  }

  lemma MarkerUnlocks(s: Stores, s': Stores)
    requires StoresNext(s, Control(WriteMarker), s')
    ensures !s'.writer.locked && s'.writer.pending.None?
  {
  }

  lemma MarkerIsLocal(c: Config, p: Process, answers: seq<Answer>, answer: Answer, p': Process)
    requires Track(c, p, answers) && CommitNext(p, WriteMarker, p') && StoresGrow(p.stores, p'.stores) && p.pc.head == HeadOf(p)
    requires TurnOf(c, p.pc.head, answer) == p.pc.turn && EndsWell(p.pc.head, p.pc.turn)
    requires SameButWriter(p.stores, p'.stores) && Intact(p'.stores.writer.disk)
    requires !p'.stores.writer.locked && p'.stores.writer.pending.None?
    ensures LocalTrack(c, p'.stores, p'.pc, p'.heads, answers + [answer])
    ensures AllFinalised(p'.stores, p.heads) && FitPending(p.pc.turn.next)
  {
    hide TurnOf, DecidedTrack, Booked, Intact, StoresNext, Grows, BundlesKept, LastIsOnTop, QuarantineFits, PendingIsNew, AfterCommit,
      FreshCandidate, TakenFrom, StoresGrow, Finalised;
    var t := p.pc.turn;
    assert p.stores.installing.None? && Finalised(p.stores, HeadOf(p));
    assert p.heads == p.heads[..|answers|] + [HeadOf(p)];
    AllFinalisedGrow(p.stores, p'.stores, p.heads);
    CommittedTracks(c, p.stores, HeadOf(p), t, p.heads, answers, answer, p'.stores);
  }

  // ---- Every step ----

  lemma StayingTracks(c: Config, p: Process, answers: seq<Answer>, p': Process)
    requires Track(c, p, answers) && p'.heads == p.heads && p'.stores.writer.disk == p.stores.writer.disk
    requires StoresGrow(p.stores, p'.stores) && Intact(p'.stores.writer.disk)
    requires LocalTrack(c, p'.stores, p'.pc, p.heads, answers)
    ensures Track(c, p', answers)
  {
    hide DecidedTrack, Booked, Intact, StoresGrow, LocalTrack, FitPending, AllFinalised;
    AllFinalisedGrow(p.stores, p'.stores, p.heads[..|answers|]);
  }

  lemma DieTracks(c: Config, p: Process, answers: seq<Answer>, step: ProcessStep, p': Process)
    requires |p.heads| == |answers| + 1 && LocalTrack(c, p.stores, p.pc, p.heads, answers)
    requires step.Die? && p' == p.(stores := Interrupted(p.stores, step.controlLock, step.peakLock), pc := Down)
    requires StoresGrow(p.stores, p'.stores) && Intact(p'.stores.writer.disk)
    ensures LocalTrack(c, p'.stores, p'.pc, p.heads, answers)
  {
    hide LocalTrack, Intact, StoresGrow;
    DownTracks(c, p.stores, p.pc, p.heads, answers, p'.stores);
  }

  lemma UnlockTracks(c: Config, p: Process, answers: seq<Answer>, lock: StoreStep, p': Process)
    requires |p.heads| == |answers| + 1 && LocalTrack(c, p.stores, p.pc, p.heads, answers)
    requires UnlockNext(p, lock, p') && StoresGrow(p.stores, p'.stores) && Intact(p'.stores.writer.disk)
    ensures LocalTrack(c, p'.stores, p'.pc, p.heads, answers)
  {
    assert p.stores.writer.pending.None? && p.stores.installing.None?;
    hide LocalTrack, Intact, StoresGrow;
    DownTracks(c, p.stores, p.pc, p.heads, answers, p'.stores);
  }

  lemma ConflictTracks(c: Config, p: Process, answers: seq<Answer>, k: Key, p': Process)
    requires |p.heads| == |answers| + 1 && LocalTrack(c, p.stores, p.pc, p.heads, answers)
    requires CommitNext(p, WriteConflict(k), p') && StoresGrow(p.stores, p'.stores) && Intact(p'.stores.writer.disk)
    ensures LocalTrack(c, p'.stores, p'.pc, p.heads, answers) && p'.heads == p.heads
    ensures p'.stores.writer.disk == p.stores.writer.disk
  {
    assert p.stores.installing.None?;
    hide LocalTrack, Intact, StoresGrow, PayloadOf;
    DownTracks(c, p.stores, p.pc, p.heads, answers, p'.stores);
  }

  lemma LocalSteps(c: Config, rank: Id -> int, p: Process, step: ProcessStep, p': Process, answers: seq<Answer>)
    requires |p.heads| == |answers| + 1 && FitPending(HeadOf(p)) && LocalTrack(c, p.stores, p.pc, p.heads, answers)
    requires !p.pc.Down? ==> p.pc.head == HeadOf(p)
    requires StoresInv(p.stores) && StoresGrow(p.stores, p'.stores) && Intact(p'.stores.writer.disk)
    requires ProcessNext(c, rank, p, step, p') && (step.Resume? ==> step.head == HeadOf(p))
    requires !step.BeginTurn? && !step.RepeatTurn? && !step.CommitStep?
    ensures LocalTrack(c, p'.stores, p'.pc, p.heads, answers)
  {
    hide FitPending, LocalTrack, StoresInv, StoresGrow, Intact, Publishes, MarkerOf, AfterBundle, UnlockNext, PromotionNext, InstallNext,
      MarkNext, Reconciling, Interrupted, CommittedView, IsLatest, TurnOf;
    match step
    case Resume(head) => ReconcilingTracks(c, p.stores, p.pc, p.heads, answers);
    case Reconcile => ReconcilingTracks(c, p.stores, p.pc, p.heads, answers);
    case Publish(d) => PublishTracks(c, p.stores, p.heads, answers, d, p'.stores);
    case PublishRefused(d) => PublishRefusedTracks(c, p.stores, p.pc.refused, p.heads, answers, d, p'.stores);
    case Promotion => PromotionTracks(c, p, answers, p');
    case Install => InstallTracks(c, p, answers, p');
    case Mark => MarkTracks(c, p, answers, p');
    case Die(controlLock, peakLock) => DieTracks(c, p, answers, step, p');
    case HumanRemovesLock(lock) => UnlockTracks(c, p, answers, lock, p');
    case _ =>
  }

  lemma RecordIsTracked(c: Config, p: Process, answers: seq<Answer>, k: Key, p': Process)
    requires RunInv(c, p) && Track(c, p, answers) && CommitNext(p, WriteRecord(k), p') && StoresGrow(p.stores, p'.stores)
    ensures Track(c, p', answers)
  {
    hide RunInv, StoresInv, CommittedView, PayloadOf, Intact, Booked, AllFinalised, LocalTrack, FitPending, Grows, BundlesKept,
      ByDecision, Beside, StoresNext, StoresGrow;
    var d, d' := p.stores.writer.disk, p'.stores.writer.disk;
    WritingFacts(c, p);
    WriteRecordKeepsView(p.stores, k, p'.stores);
    BookedGrows(c, d, d', p.heads, answers);
    AllFinalisedGrow(p.stores, p'.stores, p.heads[..|answers|]);
    ChronicleIsAboutView(c, d, d', HeadOf(p), HeadOf(p));
    WritingTracks(c, p.stores, HeadOf(p), p.pc.turn, p.heads, answers, p'.stores);
  }

  lemma TurnIsTracked(c: Config, p: Process, answers: seq<Answer>, p': Process)
    requires RunInv(c, p) && Track(c, p, answers) && CommitNext(p, WriteMarker, p') && StoresGrow(p.stores, p'.stores)
    ensures exists answers' :: Track(c, p', answers')
  {
    hide RunInv, DecidedTrack, Booked, AllFinalised, TurnOf, StoresGrow, FitPending, EndsWell, StoresNext, Track;
    WritingFacts(c, p);
    PlaceOfHead(c, p);
    var answer := AnswerTaken(c, p, answers);
    TurnEnding(c, HeadOf(p), answer);
    MarkerIsTracked(c, p, answers, answer, p');
  }

  lemma AnswerTaken(c: Config, p: Process, answers: seq<Answer>) returns (answer: Answer)
    requires Track(c, p, answers) && p.pc.Committing?
    ensures TurnOf(c, HeadOf(p), answer) == p.pc.turn && p.pc.turn.Commit? && FitPending(HeadOf(p))
  {
    hide DecidedTrack, Booked, AllFinalised, TurnOf, FitPending, LastIsOnTop, QuarantineFits, Finalised;
    assert TakenFrom(c, HeadOf(p), p.pc.turn);
    answer :| TurnOf(c, HeadOf(p), answer) == p.pc.turn;
  }

  lemma PlaceOfHead(c: Config, p: Process)
    requires RunInv(c, p)
    ensures p.heads != [] && (HeadOf(p).state == Train ==> HeadOf(p).metadata.materialization.None?)
  {
    hide StoresInv, PcFollows, ByDecision, CommittedView, HumanShape, TxInv, AnchorOf;
  }

  lemma BeginIsTracked(c: Config, p: Process, answers: seq<Answer>, answer: Answer, p': Process)
    requires RunInv(c, p) && Track(c, p, answers) && p.pc.Ready? && BeginNext(c, p, TurnOf(c, p.pc.head, answer), p')
    requires StoresGrow(p.stores, p'.stores) && Intact(p'.stores.writer.disk)
    ensures Track(c, p', answers)
  {
    hide RunInv, TurnOf, StoresGrow, Intact, MayStart, PayloadOf, FreshCandidate, Track;
    RunInvParts(c, p);
    TrackParts(c, p, answers);
    BeginTracks(c, p, answers, answer, p');
    StayingTracks(c, p, answers, p');
  }

  lemma TrackParts(c: Config, p: Process, answers: seq<Answer>)
    requires Track(c, p, answers)
    ensures |p.heads| == |answers| + 1 && FitPending(HeadOf(p)) && LocalTrack(c, p.stores, p.pc, p.heads, answers)
  {
    hide LocalTrack, FitPending, Booked, AllFinalised, DecidedTrack;
  }

  lemma CommitIsTracked(c: Config, p: Process, answers: seq<Answer>, write: WriterStep, p': Process)
    requires RunInv(c, p) && Track(c, p, answers) && CommitNext(p, write, p') && StoresGrow(p.stores, p'.stores)
    requires Intact(p'.stores.writer.disk)
    ensures exists answers' :: Track(c, p', answers')
  {
    hide RunInv, Track, StoresGrow, Intact, StoresNext, AfterCommit;
    TrackParts(c, p, answers);
    match write
    case WriteRecord(k) => RecordIsTracked(c, p, answers, k, p');
    case WriteMarker => TurnIsTracked(c, p, answers, p');
    case WriteConflict(k) =>
      ConflictTracks(c, p, answers, k, p');
      StayingTracks(c, p, answers, p');
  }

  lemma OtherIsTracked(c: Config, rank: Id -> int, p: Process, answers: seq<Answer>, step: ProcessStep, p': Process)
    requires RunInv(c, p) && Track(c, p, answers) && ProcessNext(c, rank, p, step, p')
    requires (step.Resume? ==> p.heads != [] && step.head == HeadOf(p))
    requires StoresGrow(p.stores, p'.stores) && Intact(p'.stores.writer.disk)
    requires !step.BeginTurn? && !step.RepeatTurn? && !step.CommitStep?
    ensures Track(c, p', answers)
  {
    hide RunInv, Track, StoresGrow, Intact, ProcessNext, StoresInv, LocalTrack, FitPending;
    RunInvParts(c, p);
    TrackParts(c, p, answers);
    LocalSteps(c, rank, p, step, p', answers);
    StepStaysPut(c, rank, p, step, p');
    StayingTracks(c, p, answers, p');
  }

  /** No step and no crash loses track, as long as each resume goes on from where the run stands. */
  lemma StepIsTracked(c: Config, rank: Id -> int, p: Process, step: ProcessStep, p': Process)
    requires TrackInv(c, p) && ProcessNext(c, rank, p, step, p')
    requires p.heads != [] && (step.Resume? ==> step.head == HeadOf(p))
    ensures TrackInv(c, p')
  {
    hide RunInv, Track, StoresGrow, StoresInv, ResumeNext, BeginNext, AlreadyCommitted, AfterCommit, CommitNext, PublishNext,
      Publishes, PromotionNext, InstallNext, MarkNext, UnlockNext, Reconciling, Interrupted, TurnOf, Intact;
    var answers :| Track(c, p, answers);
    RunInvParts(c, p);
    ProcessKeepsStoresInv(c, rank, p, step, p');
    StoresAreIntact(p'.stores);
    ReviewedStepKeepsInv(c, rank, p, step, p');
    match step
    case BeginTurn(answer) => BeginIsTracked(c, p, answers, answer, p');
    case RepeatTurn(answer) => NoRepeats(c, p, answer);
    case CommitStep(write) => CommitIsTracked(c, p, answers, write, p');
    case _ => OtherIsTracked(c, rank, p, answers, step, p');
  }

  lemma BootIsTracked(c: Config, e: BootEvidence)
    requires FitEvidence(c, e)
    ensures TrackInv(c, BootProcess(c, e))
  {
    hide RunInv, ByDecision, BootDisk, BundleOf, BootBundle, CarriedThrough, OnTop;
    BootChronicle(c, e);
    BootHasNoDecision(c, e);
    assert Track(c, BootProcess(c, e), []);
  }

  lemma {:induction false} OnCourseIsTracked(
    c: Config, rank: Id -> int, e: BootEvidence, states: seq<Process>, steps: seq<ProcessStep>, n: nat)
    requires IsAnyRun(c, rank, e, states, steps) && n < |states| && OnCourse(states, steps, n)
    ensures TrackInv(c, states[n])
  {
    hide TrackInv, ProcessNext, FitEvidence, BootProcess;
    if n == 0 {
      BootIsTracked(c, e);
    } else {
      OnCourseIsTracked(c, rank, e, states, steps, n - 1);
      TrackedHasHeads(c, states[n - 1]);
      StepIsTracked(c, rank, states[n - 1], steps[n - 1], states[n]);
    }
  }

  lemma TrackedHasHeads(c: Config, p: Process)
    requires TrackInv(c, p)
    ensures p.heads != [] && RunInv(c, p)
  {
    hide RunInv, LocalTrack, Booked, AllFinalised, DecidedTrack;
  }
}
