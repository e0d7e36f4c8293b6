/** In every reachable state the controller can go on: what its runs have reached is what its
    methods and the stores ask for. */
module Progress {
  import opened Records
  import opened ControlStore
  import opened CheckpointStore
  import opened PeakStore
  import opened QuarantineStore
  import opened StoreSystem
  import opened ControlProtocol
  import opened Controller
  import opened RunLoop
  import opened RunState
  import opened Turns
  import opened Materialization
  import opened Bootstrap
  import opened CrashRecovery
  import opened CrashSafety
  import opened CrashTheorems
  import opened ConvergedController
  import opened TurnCommits
  import opened TurnRuns

  lemma SettlesAfterBundle(c: Config, p: Process, head: StateSnapshot, d: Decision)
    requires CoreInv(c, p.stores, head) && PcInv(c, p.stores, p.pc, head)
    requires Materializable(head) && p.pc == AfterBundle(head, d)
    ensures CanSettle(p.stores.writer.disk, p.stores.bundles, p.stores.pointer, p.stores.history, p.stores.quarantined, head, d)
  {
    hide CoreInv, PcInv, AlreadyInstalled, MayInstall, MarkerCommits, PointerOf, MarkerOf, BundleCommits, LoadedRecord;
    GuardsHold(c, p.stores, p.pc, head);
  }

  lemma PublishedBundles(p: Process, d: Decision, p': Process)
    requires PublishNext(p, d, p')
    ensures p'.stores == p.stores.(bundles := p.stores.bundles[CheckpointOf(p.pc.head) := BundleOf(BundleRequestOf(p.pc.head))])
    ensures p'.pc == AfterBundle(p.pc.head, d) && p'.heads == p.heads
  {
    hide BundleOf, AfterBundle, LoadedRecord, BundleCommits, StoresInv;
    RequestIsAboutHead(p.pc.head);
    PublishedStores(p.stores, p'.stores, BundleRequestOf(p.pc.head));
  }

  lemma PublishedFrom(p: Process, d: Decision, p': Process)
    requires PublishNext(p, d, p')
    ensures BundleCommits(p.stores.writer.disk, p.stores.bundles, BundleRequestOf(p.pc.head))
    ensures Materializable(p.pc.head) && DecisionOf(p.stores.writer.disk, p.pc.head) == Some(d)
  {
    hide BundleCommits, StoresNext, AfterBundle, CommittedView, Intact;
  }

  /** Wherever a review-free run has got to, and whatever has crashed before, calling
      `_materialize_checkpoint` for the head succeeds on free locks: bundle, pointer and marker
      are all accepted. */
  lemma MaterializeCheckpointSucceeds(
    c: Config, rank: Id -> int, e: BootEvidence, states: seq<Process>, steps: seq<ProcessStep>, n: nat)
    requires IsProcessRun(c, rank, e, states, steps) && n < |states| && states[n].pc.Publishing?
    ensures var s := states[n].stores;
      CanMaterialize(s.writer.disk, s.bundles, s.pointer, s.history, s.quarantined, states[n].pc.head)
  {
    hide Inv, CoreInv, PcInv, HeadsInv, Standing, PublishNext, CanSettle, BundleCommits, AfterBundle, BundleOf, BundleRequestOf,
      LoadedRecord;
    var p := states[n];
    ProcessRunKeepsInv(c, rank, e, states, steps, n);
    InvParts(c, p);
    var d, q := CanPublish(c, p);
    hide IsProcessRun;
    PublishedFrom(p, d, q);
    PublishedBundles(p, d, q);
    ProcessStepKeepsInv(c, rank, p, ProcessStep.Publish(d), q);
    InvParts(c, q);
    SettlesAfterBundle(c, q, p.pc.head, d);
  }

  /** In every reachable state, mid-commit and after any crash, what `run` would load is a snapshot
      its loop can start from. */
  lemma WhatIsLoadedCanGoOn(
    c: Config, rank: Id -> int, e: BootEvidence, states: seq<Process>, steps: seq<ProcessStep>, n: nat, s: StateSnapshot)
    requires IsProcessRun(c, rank, e, states, steps) && n < |states|
    requires IsScanned(states[n].stores.writer.disk, c.run, rank, s)
    ensures CanGoOn(c, s)
  {
    hide IsProcessRun, Inv, CoreInv, PcInv, IsScanned, HeadsInv;
    ScanReturnsHead(c, rank, e, states, steps, n, s);
    ProcessRunKeepsInv(c, rank, e, states, steps, n);
    InvParts(c, states[n]);
  }

  /** Well-formed answers: evidence of this run and iteration under ids of its own. */
  ghost predicate GoodAnswer(s: StateSnapshot, answer: Answer) {
    && (answer.DataAnswer? ==> GoodEvidence(s.run, s.iteration, AllDataEvidence(answer.data.evidence)))
    && (answer.CandidateAnswer? && answer.candidate.Evaluated? ==>
          && GoodEvidence(s.run, s.iteration, answer.candidate.evidence)
          && answer.candidate.serving.id in IdSet(answer.candidate.evidence))
  }

  lemma TurnMayStart(c: Config, s: Stores, head: StateSnapshot, answer: Answer)
    requires ReviewFree(c) && Standing(c, head) && GoodAnswer(head, answer)
    requires DiskInv(s.writer.disk) && InView(CommittedView(s.writer.disk), head.run, head)
    requires TurnOf(c, head, answer).Commit? && TurnOf(c, head, answer).req.tx !in s.writer.disk.markers
    ensures MayStart(s.writer.disk, TurnOf(c, head, answer).req)
  {
    hide DataTurn, CandidateTurn, MayStart, Intact, Closed, CommittedView, GoodEvidence, InView, GoodTurn, FindsDecision;
    TurnIsGood(c, head, answer);
    if head.state == Diagnose {
      assert Standing(c, head);
      DataTurnMayStart(c, head, s.writer.disk, answer.data);
    } else {
      CandidateTurnMayStart(c, head, s.writer.disk, answer.candidate);
    }
  }

  /** Between two turns, whatever well-formed answer the oracles give and the policy can judge,
      the transaction it leads to passes every check of the control store: only a held lock or
      a record file with other bytes could still stop it. */
  lemma NextTurnCanBegin(
    c: Config, rank: Id -> int, e: BootEvidence, states: seq<Process>, steps: seq<ProcessStep>, n: nat, answer: Answer)
    returns (p': Process)
    requires IsProcessRun(c, rank, e, states, steps) && n < |states| && states[n].pc.Ready?
    requires var t := TurnOf(c, states[n].pc.head, answer);
      t.Commit? && FreshCandidate(states[n].stores.bundles, t.next)
    requires GoodAnswer(states[n].pc.head, answer) && !states[n].stores.writer.locked
    ensures ProcessNext(c, rank, states[n], BeginTurn(answer), p')
  {
    hide *;
    ProcessRunKeepsInv(c, rank, e, states, steps, n);
    p' := BeginFrom(c, rank, states[n], answer);
  }

  lemma BeginIsAllowed(c: Config, p: Process, answer: Answer)
    requires ReviewFree(c) && Inv(c, p) && p.pc.Ready?
    requires TurnOf(c, p.pc.head, answer).Commit? && GoodAnswer(p.pc.head, answer)
    ensures MayStart(p.stores.writer.disk, TurnOf(c, p.pc.head, answer).req)
    ensures p.stores.writer.pending.None? && TurnOf(c, p.pc.head, answer).refused.None?
  {
    hide Inv, CoreInv, PcInv, TurnOf, GoodAnswer, TxInv, MayStart, CommittedView, DiskInv, InView, Standing, HeadsInv, Advances, NextTx,
      Writes, GoodMarker;
    InvParts(c, p);
    TurnIsGood(c, p.pc.head, answer);
    CoreHasTxInv(c, p.stores, p.pc.head);
    NextIdIsFree(c.run, p.stores.writer.disk.markers, p.pc.head, TurnOf(c, p.pc.head, answer).req.tx, TurnOf(c, p.pc.head, answer).next);
    ReadyDisk(c, p.stores, p.pc.head);
    StandingRun(c, p.pc.head);
    TurnMayStart(c, p.stores, p.pc.head, answer);
  }

  lemma BeginFrom(c: Config, rank: Id -> int, p: Process, answer: Answer) returns (p': Process)
    requires ReviewFree(c) && Inv(c, p) && p.pc.Ready?
    requires var t := TurnOf(c, p.pc.head, answer);
      t.Commit? && FreshCandidate(p.stores.bundles, t.next)
    requires GoodAnswer(p.pc.head, answer) && !p.stores.writer.locked
    ensures ProcessNext(c, rank, p, BeginTurn(answer), p')
  {
    hide Inv, TurnOf, GoodAnswer, MayStart, FreshCandidate;
    var t := TurnOf(c, p.pc.head, answer);
    BeginIsAllowed(c, p, answer);
    var w := Writer(p.stores.writer.disk, Some(Pending(t.req, PayloadOf(t.req.records).Keys)), true);
    p' := Process(p.stores.(writer := w), Committing(p.pc.head, t), p.heads);
  }

  /** The state right after the next turn's commit belongs to a run too. */
  lemma AfterNextTurn(
    c: Config, rank: Id -> int, e: BootEvidence, states: seq<Process>, steps: seq<ProcessStep>, n: nat, answer: Answer)
    returns (more: seq<Process>, taken: seq<ProcessStep>)
    requires IsProcessRun(c, rank, e, states, steps) && n < |states| && CanTake(c, states[n], answer)
    ensures IsProcessRun(c, rank, e, more, taken)
    ensures more[|taken|] == AfterTurn(states[n], TurnOf(c, states[n].pc.head, answer))
  {
    hide FitEvidence, ReviewFree, BootProcess, ProcessNext, CanTake, AfterTurn;
    var onwards, walk := TurnReachesItsCommit(c, rank, states[n], answer);
    Joined(c, rank, states[..n + 1], steps[..n], onwards, walk);
    more, taken := states[..n + 1] + onwards[1..], steps[..n] + walk;
    assert more[0] == states[0];
  }

  lemma CommittedTurnFinishes(
    c: Config, rank: Id -> int, e: BootEvidence, states: seq<Process>, steps: seq<ProcessStep>, p: Process, t: Turn)
    requires IsProcessRun(c, rank, e, states, steps) && t.Commit? && t.refused.None? && states[|steps|] == AfterTurn(p, t)
    ensures var s, after := p.stores, Finished(p.stores.writer.disk, t.req);
      && (t.marker.Some? ==> MarkerCommits(after, s.quarantined, t.marker.value))
      && (t.marker.None? && t.next.metadata.materialization.Some? ==>
            CanMaterialize(after, s.bundles, s.pointer, s.history, s.quarantined, t.next))
  {
    hide FitEvidence, BootProcess, ProcessNext, MarkerCommits, CanMaterialize, Finished, BundleCommits, LoadedRecord,
      AlreadyInstalled, MayInstall, BundleRequestOf,
      PointerOf;
    MaterializationNeverFails(c, rank, e, states, steps, |steps|);
    if t.marker.None? && t.next.metadata.materialization.Some? {
      MaterializeCheckpointSucceeds(c, rank, e, states, steps, |steps|);
    }
  }

  /** And the rest of the turn goes through with it: on free locks, commit and materialisation
      together succeed exactly when no record file holds other bytes. */
  lemma NextTurnSucceeds(
    c: Config, rank: Id -> int, e: BootEvidence, states: seq<Process>, steps: seq<ProcessStep>, n: nat, answer: Answer)
    requires IsProcessRun(c, rank, e, states, steps) && n < |states| && states[n].pc.Ready?
    requires var t := TurnOf(c, states[n].pc.head, answer);
      t.Commit? && FreshCandidate(states[n].stores.bundles, t.next)
    requires GoodAnswer(states[n].pc.head, answer) && !states[n].stores.writer.locked
    ensures var s, t := states[n].stores, TurnOf(c, states[n].pc.head, answer);
      TurnSucceeds(s.writer.disk, s.bundles, s.pointer, s.history, s.quarantined, t) <==>
      NoConflict(s.writer.disk, PayloadOf(t.req.records))
  {
    hide IsProcessRun, Inv, TurnOf, MayStart, FreshCandidate, NoConflict, PayloadOf, CanMaterialize, MarkerCommits, Finished, GoodAnswer,
      AlreadyCommitted, AfterTurn;
    var p, t := states[n], TurnOf(c, states[n].pc.head, answer);
    ProcessRunKeepsInv(c, rank, e, states, steps, n);
    BeginIsAllowed(c, p, answer);
    NothingIsRepeated(c, p, answer);
    if NoConflict(p.stores.writer.disk, PayloadOf(t.req.records)) {
      var more, taken := AfterNextTurn(c, rank, e, states, steps, n, answer);
      CommittedTurnFinishes(c, rank, e, more, taken, p, t);
    }
  }

  lemma ReadyDisk(c: Config, s: Stores, head: StateSnapshot)
    requires CoreInv(c, s, head) && PcInv(c, s, Ready(head), head)
    ensures DiskInv(s.writer.disk) && InView(CommittedView(s.writer.disk), c.run, head) && s.writer.pending.None?
  {
    hide HeadInv, VerdictsInv, DatasetMarkersInv, TxInv, BundlesLoad, HistorySound, QuarantineSound, PeakInv, DiskInv,
      CommittedView, Settled;
  }

  lemma StandingRun(c: Config, s: StateSnapshot)
    requires Standing(c, s)
    ensures s.run == c.run
  {
  }
}
