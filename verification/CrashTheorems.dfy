/** What holds in every state a review-free run can reach from a finished bootstrap, with a
    crash allowed after any durable write. */
module CrashTheorems {
  import opened Records
  import opened ControlStore
  import opened ControlProtocol
  import opened CheckpointStore
  import opened PeakStore
  import opened QuarantineStore
  import opened StoreSystem
  import opened Controller
  import opened Turns
  import opened RunState
  import opened Materialization
  import opened Bootstrap
  import opened CrashRecovery
  import opened CrashSafety

  // ---- The state bootstrap leaves ----

  function BootProcess(c: Config, e: BootEvidence): Process {
    Process(BootStores(c, e), Ready(FirstHead(c, e)), [FirstHead(c, e)])
  }

  lemma BootDecisionLoads(c: Config, e: BootEvidence)
    requires FitEvidence(c, e)
    ensures var t := LoadedTransaction(BootDisk(c, e), BootTx(c));
      && t == Ok(ManifestOf(BootRequest(c, e))) && Key(DecisionKind, PromoteBase(c, e).id) in t.value.refs
    ensures LoadedRecord(BootDisk(c, e), Key(DecisionKind, PromoteBase(c, e).id)) == Ok(DecisionRecord(PromoteBase(c, e)))
  {
    hide PayloadOf, BootRecords, CommittedView, Closed;
    BootDiskView(c, e);
    BootAvailable(c, e);
  }

  lemma BootLinksHold(c: Config, e: BootEvidence)
    requires FitEvidence(c, e)
    ensures var bundles := map[c.base := BundleOf(BootBundle(c))];
      && BundlesLoad(BootDisk(c, e), bundles) && LinksHold(BootDisk(c, e), bundles, BootPointer(c, e))
  {
    hide PayloadOf, BootRecords, CommittedView, BootDisk, LoadedTransaction, LoadedRecord;
    BootDecisionLoads(c, e);
    PublishedBundleLoads(BootDisk(c, e), BootBundle(c));
  }

  lemma BootStoresInv(c: Config, e: BootEvidence)
    requires FitEvidence(c, e)
    ensures StoresInv(BootStores(c, e))
  {
    hide DiskInv, BootDisk, LinksHold, BundlesLoad;
    BootDiskView(c, e);
    BootLinksHold(c, e);
    var p := BootPointer(c, e);
    assert [p][..0] == [];
    assert IsChain([p]);
  }

  lemma BootHeadIsHead(c: Config, e: BootEvidence)
    requires FitEvidence(c, e)
    ensures IsHead(CommittedView(BootDisk(c, e)), c.run, FirstHead(c, e))
  {
    hide PayloadOf, BootDisk, CommittedView;
    BootDiskView(c, e);
    BootPayload(c, e, SnapshotRecord(FirstHead(c, e)));
    PayloadFacts(BootRecords(c, e));
    var view := CommittedView(BootDisk(c, e));
    forall t | InView(view, c.run, t) && t != FirstHead(c, e) ensures t.enteredAt < FirstHead(c, e).enteredAt {
      assert SnapshotRecord(t) in BootRecords(c, e);
    }
  }

  lemma BootVerdicts(c: Config, e: BootEvidence)
    requires FitEvidence(c, e)
    ensures VerdictsInv(BootStores(c, e), CommittedView(BootDisk(c, e)), FirstHead(c, e))
  {
    hide PayloadOf, BootDisk, CommittedView;
    BootDiskView(c, e);
    PayloadFacts(BootRecords(c, e));
    forall x | Verdict(CommittedView(BootDisk(c, e)), x) ensures CarriedOut(BootStores(c, e), x) {
      assert DecisionRecord(x) in BootRecords(c, e);
      assert BootPointer(c, e) in BootStores(c, e).installed;
    }
  }

  lemma BootTxInv(c: Config, e: BootEvidence)
    ensures TxInv(BootDisk(c, e).markers, c.run, FirstHead(c, e))
  {
    hide PayloadOf, BootRecords;
  }

  lemma BootInv(c: Config, e: BootEvidence)
    requires FitEvidence(c, e)
    ensures Inv(c, BootProcess(c, e))
  {
    hide StoresInv, IsHead, VerdictsInv, TxInv, BootDisk, CommittedView, BundleOf, BootBundle;
    BootTxInv(c, e);
    BootStoresInv(c, e);
    BootHeadIsHead(c, e);
    BootVerdicts(c, e);
    assert Spent([FirstHead(c, e)]) == 0.0;
  }

  // ---- Runs ----

  /** A run from a finished bootstrap, with or without reviews. */
  ghost predicate IsAnyRun(c: Config, rank: Id -> int, e: BootEvidence, states: seq<Process>, steps: seq<ProcessStep>) {
    FitEvidence(c, e) && Follows(c, rank, states, steps) && states[0] == BootProcess(c, e)
  }

  ghost predicate IsProcessRun(c: Config, rank: Id -> int, e: BootEvidence, states: seq<Process>, steps: seq<ProcessStep>) {
    ReviewFree(c) && IsAnyRun(c, rank, e, states, steps)
  }

  lemma {:induction false} ProcessRunKeepsInv(
    c: Config, rank: Id -> int, e: BootEvidence, states: seq<Process>, steps: seq<ProcessStep>, n: nat)
    requires IsProcessRun(c, rank, e, states, steps) && n < |states|
    ensures Inv(c, states[n]) && ReviewFree(c)
  {
    hide Inv, ProcessNext, FitEvidence, BootProcess;
    if n == 0 {
      BootInv(c, e);
    } else {
      ProcessRunKeepsInv(c, rank, e, states, steps, n - 1);
      ProcessStepKeepsInv(c, rank, states[n - 1], steps[n - 1], states[n]);
    }
  }

  /** Whenever the controller is between two turns, which is where resuming and reconciling
      lead, the active checkpoint is the Peak, and the pointer file holds exactly that
      checkpoint and its score. */
  lemma PeakPointerIsExact(
    c: Config, rank: Id -> int, e: BootEvidence, states: seq<Process>, steps: seq<ProcessStep>, n: nat)
    requires IsProcessRun(c, rank, e, states, steps) && n < |states| && states[n].pc.Ready?
    ensures var s, head := states[n].stores, states[n].pc.head;
      && head.active.Some? && head.active == head.peak
      && s.pointer.Some? && Some(s.pointer.value.checkpoint) == head.peak
      && Some(s.pointer.value.score) == head.peakScore
  {
    hide IsProcessRun, Inv, CoreInv, StoresInv, HeadInv, VerdictsInv, HeadsInv;
    ProcessRunKeepsInv(c, rank, e, states, steps, n);
    InvParts(c, states[n]);
  }

  /** In every reachable state, mid-commit and after any crash, `latest_snapshot` returns the
      snapshot the last committed turn continued from, and could return no other. */
  lemma LatestSnapshotIsHead(
    c: Config, rank: Id -> int, e: BootEvidence, states: seq<Process>, steps: seq<ProcessStep>, n: nat, s: StateSnapshot)
    requires IsProcessRun(c, rank, e, states, steps) && n < |states|
    ensures states[n].heads != []
    ensures IsLatest(CommittedView(states[n].stores.writer.disk), c.run, rank, s) <==> s == HeadOf(states[n])
  {
    hide IsProcessRun, Inv, StoresInv, IsHead, IsLatest, CommittedView, HeadInv, VerdictsInv, PcInv;
    ProcessRunKeepsInv(c, rank, e, states, steps, n);
    InvParts(c, states[n]);
    HeadIsLatest(CommittedView(states[n].stores.writer.disk), c.run, rank, HeadOf(states[n]), s);
  }

  /** So the scan `latest_snapshot` makes of the marker files returns the head. */
  lemma ScanReturnsHead(
    c: Config, rank: Id -> int, e: BootEvidence, states: seq<Process>, steps: seq<ProcessStep>, n: nat, s: StateSnapshot)
    requires IsProcessRun(c, rank, e, states, steps) && n < |states|
    requires IsScanned(states[n].stores.writer.disk, c.run, rank, s)
    ensures states[n].heads != [] && s == HeadOf(states[n])
  {
    hide IsProcessRun, IsHead, IsScanned, CommittedView, Closed, HeadInv, VerdictsInv, BundlesLoad, HistorySound,
      QuarantineSound, PeakInv, PcInv;
    ProcessRunKeepsInv(c, rank, e, states, steps, n);
    InvParts(c, states[n]);
    ScanFindsHead(states[n].stores.writer.disk, c.run, rank, HeadOf(states[n]), s);
  }

  // ---- Policy guards imply store guards ----

  lemma PublishGuard(s: Stores, head: StateSnapshot)
    requires HeadInv(s, head) && head.metadata.materialization.Some?
    ensures Materializable(head) && BundleCommits(s.writer.disk, s.bundles, BundleRequestOf(head))
    ensures LoadedRecord(s.writer.disk, Key(DecisionKind, head.metadata.materialization.value.decision)).Ok?
  {
    hide PromotionOpen, PointerFits, MarkerFree, LoadedTransaction, CommittedView, BundleOf;
    var d :| Unsettled(s, head, d);
    BundleMayBePublished(s.writer.disk, head, d);
    RequestIsAboutHead(head);
  }

  lemma CurrentPointerLoads(s: Stores)
    requires StoresInv(s)
    ensures CurrentLoads(s.writer.disk, s.bundles, s.pointer)
  {
    hide WriterInv, BundlesLoad, QuarantineSound, IsChain, LinksHold;
    if s.pointer.Some? {
      assert InHistory(s.history, s.pointer.value);
    }
  }

  lemma PromotionGuard(s: Stores, head: StateSnapshot, d: Decision)
    requires StoresInv(s) && Unsettled(s, head, d) && ActionOf(head) == Promote && CheckpointOf(head) in s.bundles
    ensures var p := PointerOf(head, d);
      || AlreadyInstalled(s.writer.disk, s.bundles, s.pointer, p)
      || MayInstall(s.writer.disk, s.bundles, s.pointer, s.history, p, p.previous)
  {
    hide StoresInv, DecisionLoads, PointerOf, BundleOf, BundleRequestOf, LinksHold, MarkerFree, IsInstalled, IsQuarantined,
      CurrentLoads, Succeeds, HistoryFree;
    CurrentPointerLoads(s);
    PointerLinksHold(s.writer.disk, s.bundles, head, d);
  }

  lemma GuardsHold(c: Config, s: Stores, pc: Pc, head: StateSnapshot)
    requires CoreInv(c, s, head) && PcInv(c, s, pc, head)
    ensures pc.Publishing? ==>
      && Materializable(head) && BundleCommits(s.writer.disk, s.bundles, BundleRequestOf(head))
      && LoadedRecord(s.writer.disk, Key(DecisionKind, head.metadata.materialization.value.decision)).Ok?
    ensures pc.Promoting? ==>
      && Materializable(head)
      && var p := PointerOf(head, pc.decision);
         || AlreadyInstalled(s.writer.disk, s.bundles, s.pointer, p)
         || MayInstall(s.writer.disk, s.bundles, s.pointer, s.history, p, p.previous)
    ensures pc.Marking? ==> MarkerCommits(s.writer.disk, s.quarantined, pc.marker)
  {
    hide StoresInv, IsHead, HeadInv, VerdictsInv, DatasetMarkersInv, TxInv, CommittedView, BundleCommits, BundleRequestOf, LoadedRecord,
      AlreadyInstalled, MayInstall, MarkerLinksHold, MarkerFree, PointerOf, DecisionLoads, PromotionOpen, PointerFits,
      IsInstalled, IsQuarantined, BundleOf;
    if pc.Publishing? { PublishGuard(s, head); }
    if pc.Promoting? { PromotionGuard(s, head, pc.decision); }
  }

  /** What the policy has decided, the stores accept: no step of a materialisation, first try
      or after any crashes, meets a CAS, score, iteration, link or byte conflict. */
  lemma MaterializationNeverFails(
    c: Config, rank: Id -> int, e: BootEvidence, states: seq<Process>, steps: seq<ProcessStep>, n: nat)
    requires IsProcessRun(c, rank, e, states, steps) && n < |states|
    ensures var s, pc := states[n].stores, states[n].pc;
      && (pc.Publishing? ==>
            && Materializable(pc.head) && BundleCommits(s.writer.disk, s.bundles, BundleRequestOf(pc.head))
            && LoadedRecord(s.writer.disk, Key(DecisionKind, pc.head.metadata.materialization.value.decision)).Ok?)
      && (pc.Promoting? ==>
            && Materializable(pc.head)
            && var p := PointerOf(pc.head, pc.decision);
               || AlreadyInstalled(s.writer.disk, s.bundles, s.pointer, p)
               || MayInstall(s.writer.disk, s.bundles, s.pointer, s.history, p, p.previous))
      && (pc.Marking? ==> MarkerCommits(s.writer.disk, s.quarantined, pc.marker))
  {
    hide Inv, CoreInv, PcInv, Standing, IsProcessRun, BundleCommits, LoadedRecord, AlreadyInstalled, MayInstall, MarkerCommits,
      PointerOf, BundleRequestOf, HeadsInv;
    ProcessRunKeepsInv(c, rank, e, states, steps, n);
    InvParts(c, states[n]);
    GuardsHold(c, states[n].stores, states[n].pc, HeadOf(states[n]));
  }

  /** Between two turns every committed decision about a checkpoint has been carried out:
      promoted candidates are in the installed chain, rejected and rolled back ones are in
      quarantine, never both, and aborted ones are in neither. */
  lemma EveryVerdictIsCarriedOut(
    c: Config, rank: Id -> int, e: BootEvidence, states: seq<Process>, steps: seq<ProcessStep>, n: nat, x: Decision)
    requires IsProcessRun(c, rank, e, states, steps) && n < |states| && states[n].pc.Ready?
    requires Verdict(CommittedView(states[n].stores.writer.disk), x)
    ensures var s := states[n].stores;
      && x.subject in s.bundles
      && (IsInstalled(s.installed, x.subject) <==> x.action == Promote)
      && (IsQuarantined(s.quarantined, x.subject) <==> x.action == Action.Reject || x.action == Rollback)
      && (x.action == Promote || x.action == Action.Reject || x.action == Rollback || x.action == Abort)
  {
    hide Inv, Standing, IsProcessRun, HeadsInv, StoresInv, IsHead, HeadInv, VerdictsInv, DatasetMarkersInv, TxInv, CommittedView, Settled,
      IsInstalled, IsQuarantined, Verdict;
    ProcessRunKeepsInv(c, rank, e, states, steps, n);
    var p := states[n];
    InvParts(c, p);
    SettledMeansCarriedOut(p.stores, CommittedView(p.stores.writer.disk), HeadOf(p));
    assert CarriedOut(p.stores, x);
  }

  /** The total at every head, so at every new DIAGNOSE, is exactly the sum of what the heads
      so far were charged, and every head that is not ABORTED is within the total limit. */
  lemma BudgetIsConserved(
    c: Config, rank: Id -> int, e: BootEvidence, states: seq<Process>, steps: seq<ProcessStep>, n: nat)
    requires IsProcessRun(c, rank, e, states, steps) && n < |states|
    ensures var heads := states[n].heads;
      forall i :: 0 <= i < |heads| ==>
        && heads[i].totalCost == Spent(heads[..i + 1])
        && (heads[i].state != Aborted ==> heads[i].totalCost <= c.limits.total + EPSILON)
  {
    hide IsProcessRun, Inv, CoreInv, PcInv;
    ProcessRunKeepsInv(c, rank, e, states, steps, n);
    InvParts(c, states[n]);
  }

  // ---- Resuming always gets there ----

  lemma CanPublish(c: Config, p: Process) returns (d: Decision, p': Process)
    requires Inv(c, p) && p.pc.Publishing?
    ensures PublishNext(p, d, p') && p'.heads == p.heads && p'.stores.peakLocked == p.stores.peakLocked
    ensures p'.pc.Ready? || p'.pc.Promoting? || p'.pc.Marking?
  {
    hide Inv, CoreInv, PcInv, HeadsInv, Standing, BundleCommits, LoadedRecord, BundleRequestOf, BundleOf, PointerOf, MarkerOf;
    InvParts(c, p);
    GuardsHold(c, p.stores, p.pc, HeadOf(p));
    var head, s := p.pc.head, p.stores;
    var req := BundleRequestOf(head);
    RequestIsAboutHead(head);
    LoadedIsDecision(s.writer.disk, head.metadata.materialization.value.decision);
    d := LoadedRecord(s.writer.disk, Key(DecisionKind, head.metadata.materialization.value.decision)).value.decision;
    var s' := if req.checkpoint in s.bundles then s else s.(bundles := s.bundles[req.checkpoint := BundleOf(req)]);
    CommitsMayBundle(s.writer.disk, s.bundles, req);
    p' := Process(s', AfterBundle(head, d), p.heads);
  }

  lemma CommitsMayBundle(d: Disk, bundles: map<Id, Bundle>, req: BundleRequest)
    requires BundleCommits(d, bundles, req)
    ensures MayBundle(d, req)
  {
  }

  lemma LoadedIsDecision(d: Disk, id: Id)
    requires LoadedRecord(d, Key(DecisionKind, id)).Ok?
    ensures LoadedRecord(d, Key(DecisionKind, id)).value.DecisionRecord?
  {
    ViewIsKeyed(d, Key(DecisionKind, id));
  }

  lemma CanPromote(c: Config, p: Process) returns (p': Process)
    requires Inv(c, p) && p.pc.Promoting? && !p.stores.peakLocked
    ensures PromotionNext(p, p') && p'.heads == p.heads
    ensures p'.pc == Ready(HeadOf(p)) || p'.pc == Installing(HeadOf(p), p.pc.decision)
  {
    hide Inv, CoreInv, HeadsInv, Standing, AlreadyInstalled, MayInstall, PointerOf, Unsettled;
    InvParts(c, p);
    GuardsHold(c, p.stores, p.pc, HeadOf(p));
    var head, s := p.pc.head, p.stores;
    var pointer := PointerOf(head, p.pc.decision);
    if AlreadyInstalled(s.writer.disk, s.bundles, s.pointer, pointer) {
      p' := p.(pc := Ready(head));
    } else {
      var s' := s.(history := s.history[HistoryKeyOf(pointer) := pointer], installing := Some(pointer), peakLocked := true);
      p' := Process(s', Installing(head, p.pc.decision), p.heads);
    }
  }

  lemma CanInstall(c: Config, p: Process) returns (p': Process)
    requires Inv(c, p) && p.pc.Installing?
    ensures InstallNext(p, p') && p'.heads == p.heads && p'.pc == Ready(HeadOf(p))
  {
    hide Inv, CoreInv, HeadsInv, Standing, PointerOf, PointerFits;
    InvParts(c, p);
    var s := p.stores;
    p' := Process(
      s.(pointer := s.installing, installing := None, peakLocked := false, installed := s.installed + [s.installing.value]),
      Ready(p.pc.head), p.heads);
  }

  lemma CanMark(c: Config, p: Process) returns (p': Process)
    requires Inv(c, p) && p.pc.Marking?
    ensures MarkNext(p, p') && p'.heads == p.heads && p'.pc == Ready(HeadOf(p))
  {
    hide Inv, CoreInv, PcInv, HeadsInv, Standing, MarkerCommits;
    InvParts(c, p);
    GuardsHold(c, p.stores, p.pc, HeadOf(p));
    p' := Process(p.stores.(quarantined := p.stores.quarantined[QuarantineKeyOf(p.pc.marker) := p.pc.marker]),
                  Ready(p.pc.head), p.heads);
  }

  /** A run of the process that ends between two turns, at the same head. */
  ghost predicate LeadsToReady(c: Config, rank: Id -> int, states: seq<Process>, steps: seq<ProcessStep>, p: Process, head: StateSnapshot) {
    && Follows(c, rank, states, steps) && states[0] == p
    && states[|steps|].pc == Ready(head) && states[|steps|].heads == p.heads
  }

  lemma OneStepEarlier(
    c: Config, rank: Id -> int, p: Process, step: ProcessStep, q: Process,
    states: seq<Process>, steps: seq<ProcessStep>, head: StateSnapshot)
    requires LeadsToReady(c, rank, states, steps, q, head) && ProcessNext(c, rank, p, step, q) && p.heads == q.heads
    ensures LeadsToReady(c, rank, [p] + states, [step] + steps, p, head)
  {
    hide ProcessNext;
    var more, all := [step] + steps, [p] + states;
    forall i | 0 <= i < |more| ensures ProcessNext(c, rank, all[i], more[i], all[i + 1]) {
      if i > 0 { assert all[i] == states[i - 1] && more[i] == steps[i - 1] && all[i + 1] == states[i]; }
    }
  }

  lemma NoStepNeeded(c: Config, rank: Id -> int, p: Process, head: StateSnapshot)
    requires p.pc == Ready(head)
    ensures LeadsToReady(c, rank, [p], [], p, head)
  {
    hide ProcessNext;
  }

  lemma FinishInstall(c: Config, rank: Id -> int, p: Process) returns (states: seq<Process>, steps: seq<ProcessStep>)
    requires ReviewFree(c) && Inv(c, p) && p.pc.Installing?
    ensures p.heads != [] && LeadsToReady(c, rank, states, steps, p, HeadOf(p))
  {
    hide Inv, CoreInv, PcInv, HeadsInv, Standing, InstallNext, LeadsToReady;
    InvParts(c, p);
    var q := CanInstall(c, p);
    NoStepNeeded(c, rank, q, HeadOf(p));
    OneStepEarlier(c, rank, p, ProcessStep.Install, q, [q], [], HeadOf(p));
    states, steps := [p] + [q], [ProcessStep.Install] + [];
  }

  lemma FinishMark(c: Config, rank: Id -> int, p: Process) returns (states: seq<Process>, steps: seq<ProcessStep>)
    requires ReviewFree(c) && Inv(c, p) && p.pc.Marking?
    ensures p.heads != [] && LeadsToReady(c, rank, states, steps, p, HeadOf(p))
  {
    hide Inv, CoreInv, PcInv, HeadsInv, Standing, MarkNext, LeadsToReady;
    InvParts(c, p);
    var q := CanMark(c, p);
    NoStepNeeded(c, rank, q, HeadOf(p));
    OneStepEarlier(c, rank, p, ProcessStep.Mark, q, [q], [], HeadOf(p));
    states, steps := [p] + [q], [ProcessStep.Mark] + [];
  }

  lemma FinishPromotion(c: Config, rank: Id -> int, p: Process) returns (states: seq<Process>, steps: seq<ProcessStep>)
    requires ReviewFree(c) && Inv(c, p) && p.pc.Promoting? && !p.stores.peakLocked
    ensures p.heads != [] && LeadsToReady(c, rank, states, steps, p, HeadOf(p))
  {
    hide Inv, CoreInv, PcInv, HeadsInv, Standing, PromotionNext, LeadsToReady;
    InvParts(c, p);
    var q := CanPromote(c, p);
    if q.pc.Ready? {
      NoStepNeeded(c, rank, q, HeadOf(p));
      states, steps := [q], [];
    } else {
      ProcessStepKeepsInv(c, rank, p, ProcessStep.Promotion, q);
      states, steps := FinishInstall(c, rank, q);
    }
    OneStepEarlier(c, rank, p, ProcessStep.Promotion, q, states, steps, HeadOf(p));
    states, steps := [p] + states, [ProcessStep.Promotion] + steps;
  }

  lemma FinishPublish(c: Config, rank: Id -> int, p: Process) returns (states: seq<Process>, steps: seq<ProcessStep>)
    requires ReviewFree(c) && Inv(c, p) && p.pc.Publishing? && !p.stores.peakLocked
    ensures p.heads != [] && LeadsToReady(c, rank, states, steps, p, HeadOf(p))
  {
    hide Inv, CoreInv, PcInv, HeadsInv, Standing, PublishNext, LeadsToReady;
    InvParts(c, p);
    var d, q := CanPublish(c, p);
    ProcessStepKeepsInv(c, rank, p, ProcessStep.Publish(d), q);
    if q.pc.Ready? {
      InvParts(c, q);
      ReadyIsAtHead(q);
      NoStepNeeded(c, rank, q, HeadOf(p));
      states, steps := [q], [];
    } else if q.pc.Promoting? {
      states, steps := FinishPromotion(c, rank, q);
    } else {
      states, steps := FinishMark(c, rank, q);
    }
    OneStepEarlier(c, rank, p, ProcessStep.Publish(d), q, states, steps, HeadOf(p));
    states, steps := [p] + states, [ProcessStep.Publish(d)] + steps;
  }

  lemma ReadyIsAtHead(p: Process)
    requires p.heads != [] && p.pc.Ready? && p.pc.head == HeadOf(p)
    ensures p.pc == Ready(HeadOf(p))
  {
  }

  lemma ResumeFinishes(c: Config, rank: Id -> int, p: Process) returns (states: seq<Process>, steps: seq<ProcessStep>)
    requires ReviewFree(c) && Inv(c, p) && p.pc.Down? && !p.stores.peakLocked
    ensures p.heads != [] && LeadsToReady(c, rank, states, steps, p, HeadOf(p))
  {
    hide Inv, CoreInv, PcInv, HeadsInv, Standing, IsLatest, CommittedView, LeadsToReady, ResumeNext;
    InvParts(c, p);
    var q := CanResume(c, rank, p);
    ProcessStepKeepsInv(c, rank, p, Resume(HeadOf(p)), q);
    if q.pc.Ready? {
      ReadyIsAtHead(q);
      NoStepNeeded(c, rank, q, HeadOf(p));
      states, steps := [q], [];
    } else {
      states, steps := FinishPublish(c, rank, q);
    }
    OneStepEarlier(c, rank, p, Resume(HeadOf(p)), q, states, steps, HeadOf(p));
    states, steps := [p] + states, [Resume(HeadOf(p))] + steps;
  }

  /** From any reachable state in which the process is down, once a human has removed a stale
      lock, resuming and reconciling reaches the point between two turns, at the head the last
      committed turn left: whatever was interrupted is finished, not repeated or lost. */
  lemma ResumeCompletes(
    c: Config, rank: Id -> int, e: BootEvidence, states: seq<Process>, steps: seq<ProcessStep>, n: nat)
    returns (more: seq<Process>, taken: seq<ProcessStep>)
    requires IsProcessRun(c, rank, e, states, steps) && n < |states|
    requires states[n].pc.Down? && !states[n].stores.peakLocked
    ensures states[n].heads != []
    ensures LeadsToReady(c, rank, more, taken, states[n], HeadOf(states[n]))
  {
    hide Inv, LeadsToReady, ProcessNext, FitEvidence, BootProcess;
    ProcessRunKeepsInv(c, rank, e, states, steps, n);
    more, taken := ResumeFinishes(c, rank, states[n]);
  }

  lemma CanResume(c: Config, rank: Id -> int, p: Process) returns (q: Process)
    requires Inv(c, p) && p.pc.Down?
    ensures ResumeNext(c, rank, p, HeadOf(p), q) && q.heads == p.heads && q.stores == p.stores
    ensures (q.pc.Ready? || q.pc.Publishing?) && q.pc.head == HeadOf(p)
  {
    hide StoresInv, HeadInv, VerdictsInv, DatasetMarkersInv, TxInv, PcInv, IsHead, IsLatest, CommittedView, HeadsInv;
    HeadIsLatest(CommittedView(p.stores.writer.disk), c.run, rank, HeadOf(p), HeadOf(p));
    q := p.(pc := Reconciling(HeadOf(p)));
  }
}
