/** Two writes after a refusal that resuming does not repair: the quarantine marker of a refused
    dataset, and the materialisation of a candidate a human refused. When a restart can only go on
    from the stop a refusal ends in, they are there in the end exactly when they were made before
    the process first died. */
module LostMarkers {
  import opened Records
  import opened ControlStore
  import opened CheckpointStore
  import opened PeakStore
  import opened QuarantineStore
  import opened StoreSystem
  import opened Controller
  import opened Turns
  import opened TurnRuns
  import opened RunState
  import opened Materialization
  import opened Bootstrap
  import opened CrashRecovery
  import opened CrashTheorems
  import opened FirstTurns

  /** A restart goes on from this snapshot and from no other. */
  ghost predicate MustFind(c: Config, rank: Id -> int, d: Disk, head: StateSnapshot) {
    forall x :: IsLatest(CommittedView(d), c.run, rank, x) ==> x == head
  }

  lemma HeadMustBeFound(c: Config, rank: Id -> int, d: Disk, head: StateSnapshot)
    requires IsHead(CommittedView(d), c.run, head)
    ensures MustFind(c, rank, d, head)
  {
    hide CommittedView, IsHead, IsLatest;
    forall x | IsLatest(CommittedView(d), c.run, rank, x) ensures x == head {
      HeadIsLatest(CommittedView(d), c.run, rank, head, x);
    }
  }

  /** The run stands at its end, with nothing more to do. */
  ghost predicate AtTheEnd(c: Config, rank: Id -> int, p: Process, head: StateSnapshot) {
    && (p.pc == Down || p.pc == Ready(head))
    && p.stores.writer.pending.None? && p.stores.installing.None?
    && MustFind(c, rank, p.stores.writer.disk, head)
    && head.state == Stopped && head.metadata.materialization.None?
  }

  /** From there nothing is written any more, whatever crashes and resumes. */
  lemma TheEndStays(c: Config, rank: Id -> int, p: Process, step: ProcessStep, p': Process, head: StateSnapshot)
    requires AtTheEnd(c, rank, p, head) && ProcessNext(c, rank, p, step, p')
    ensures AtTheEnd(c, rank, p', head) && p'.stores.quarantined == p.stores.quarantined && p'.stores.bundles == p.stores.bundles
  {
    hide CommittedView, IsLatest, StoresInv, CommitNext, PublishNext, PublishRefusedNext, PromotionNext, InstallNext, MarkNext,
      BundleCommits, MayInstall, MarkerCommits, MayStart;
    EndSteps(c, rank, p, step, p');
  }

  /** A process that is down or between two turns makes no other step. */
  lemma EndSteps(c: Config, rank: Id -> int, p: Process, step: ProcessStep, p': Process)
    requires (p.pc.Down? || p.pc.Ready?) && ProcessNext(c, rank, p, step, p')
    ensures !step.CommitStep? && !step.Publish? && !step.PublishRefused? && !step.Promotion? && !step.Install? && !step.Mark?
  {
    hide CommittedView, IsLatest, TurnOf, MayStart, StoresNext, Publishes, AlreadyInstalled;
  }

  lemma {:induction false} TheEndIsForGood(
    c: Config, rank: Id -> int, states: seq<Process>, steps: seq<ProcessStep>, m: nat, n: nat, head: StateSnapshot)
    requires Follows(c, rank, states, steps) && m <= n < |states| && AtTheEnd(c, rank, states[m], head)
    ensures AtTheEnd(c, rank, states[n], head) && states[n].stores.quarantined == states[m].stores.quarantined
    ensures states[n].stores.bundles == states[m].stores.bundles
    decreases n
  {
    hide AtTheEnd, ProcessNext;
    if m < n {
      TheEndIsForGood(c, rank, states, steps, m, n - 1, head);
      TheEndStays(c, rank, states[n - 1], steps[n - 1], states[n], head);
    }
  }

  /** Dying ends a run that had only its last writes left. */
  lemma DyingIsTheEnd(c: Config, rank: Id -> int, p: Process, step: ProcessStep, p': Process, head: StateSnapshot)
    requires step.Die? && ProcessNext(c, rank, p, step, p')
    requires MustFind(c, rank, p.stores.writer.disk, head) && head.state == Stopped && head.metadata.materialization.None?
    ensures AtTheEnd(c, rank, p', head) && p'.stores.quarantined == p.stores.quarantined && p'.stores.bundles == p.stores.bundles
  {
    hide MustFind;
  }

  /** Markers and bundles are never taken away. */
  lemma QuarantineOnlyGrows(c: Config, rank: Id -> int, p: Process, step: ProcessStep, p': Process)
    requires ProcessNext(c, rank, p, step, p')
    ensures p.stores.quarantined.Keys <= p'.stores.quarantined.Keys && p.stores.bundles.Keys <= p'.stores.bundles.Keys
  {
    hide CommittedView, IsLatest, TurnOf, MayStart, AfterCommit, BundleRequestOf, BundleOf, PointerOf, MayInstall, BundleCommits,
      MarkerLinksHold, FreshCandidate, LoadedRecord;
  }

  lemma {:induction false} QuarantineKeeps(
    c: Config, rank: Id -> int, states: seq<Process>, steps: seq<ProcessStep>, m: nat, n: nat)
    requires Follows(c, rank, states, steps) && m <= n < |states|
    ensures states[m].stores.quarantined.Keys <= states[n].stores.quarantined.Keys
    ensures states[m].stores.bundles.Keys <= states[n].stores.bundles.Keys
    decreases n
  {
    hide ProcessNext;
    if m < n {
      QuarantineKeeps(c, rank, states, steps, m, n - 1);
      QuarantineOnlyGrows(c, rank, states[n - 1], steps[n - 1], states[n]);
    }
  }

  predicate SurvivesTo(steps: seq<ProcessStep>, m: nat, j: nat)
    requires j <= |steps|
  {
    forall i :: m <= i < j ==> !steps[i].Die?
  }

  /** Between states m and n the marker is written before the process first dies. */
  predicate MarksFirst(steps: seq<ProcessStep>, m: nat, n: nat)
    requires n <= |steps|
  {
    exists j :: m <= j < n && steps[j].Mark? && SurvivesTo(steps, m, j)
  }

  predicate PublishesFirst(steps: seq<ProcessStep>, m: nat, n: nat)
    requires n <= |steps|
  {
    exists j :: m <= j < n && steps[j].PublishRefused? && SurvivesTo(steps, m, j)
  }

  lemma OnlyMarkOrDie(c: Config, rank: Id -> int, p: Process, step: ProcessStep, p': Process)
    requires p.pc.Marking? && ProcessNext(c, rank, p, step, p')
    ensures step.Mark? || step.Die?
    ensures step.Mark? ==> QuarantineKeyOf(p.pc.marker) in p'.stores.quarantined
  {
    hide MarkerCommits, TurnOf, CommittedView, IsLatest;
  }

  /** A run about to write its last marker has it in the end exactly if it writes it now. */
  lemma MarkedIffNow(
    c: Config, rank: Id -> int, states: seq<Process>, steps: seq<ProcessStep>, m: nat, n: nat, head: StateSnapshot)
    requires Follows(c, rank, states, steps) && m <= n < |states| && states[m].pc.Marking?
    requires MustFind(c, rank, states[m].stores.writer.disk, head)
    requires head.state == Stopped && head.metadata.materialization.None?
    requires QuarantineKeyOf(states[m].pc.marker) !in states[m].stores.quarantined
    ensures QuarantineKeyOf(states[m].pc.marker) in states[n].stores.quarantined <==> MarksFirst(steps, m, n)
  {
    hide ProcessNext, MustFind, AtTheEnd;
    if m < n {
      OnlyMarkOrDie(c, rank, states[m], steps[m], states[m + 1]);
      if steps[m].Mark? {
        QuarantineKeeps(c, rank, states, steps, m + 1, n);
        assert SurvivesTo(steps, m, m);
      } else {
        DyingIsTheEnd(c, rank, states[m], steps[m], states[m + 1], head);
        TheEndIsForGood(c, rank, states, steps, m + 1, n, head);
      }
    }
  }

  lemma DatasetMarkerFacts(c: Config, p: Process)
    requires Inv(c, p) && p.pc.Marking? && p.pc.marker.subjectType == DatasetSubject
    ensures p.heads != [] && IsHead(CommittedView(p.stores.writer.disk), c.run, HeadOf(p))
    ensures HeadOf(p).state == Stopped && HeadOf(p).metadata.materialization.None?
    ensures QuarantineKeyOf(p.pc.marker) !in p.stores.quarantined
  {
    hide StoresInv, HeadInv, VerdictsInv, DatasetMarkersInv, TxInv, HeadsInv, IsHead, CommittedView, Unsettled, MarkerLinksHold, MarkerFree;
  }

  /** Without reviews: once the decision to refuse a dataset is committed, its quarantine marker is
      on disk in a later state exactly when it was written before the process first died: no resume, no
      retry and no later turn ever writes it. */
  lemma RefusedDatasetMarkedIff(
    c: Config, rank: Id -> int, e: BootEvidence, states: seq<Process>, steps: seq<ProcessStep>, m: nat, n: nat)
    requires IsProcessRun(c, rank, e, states, steps) && m <= n < |states|
    requires states[m].pc.Marking? && states[m].pc.marker.subjectType == DatasetSubject
    ensures QuarantineKeyOf(states[m].pc.marker) in states[n].stores.quarantined <==> MarksFirst(steps, m, n)
  {
    hide Inv, CommittedView, IsHead, MustFind, MarksFirst, FitEvidence, BootProcess, Follows;
    ProcessRunKeepsInv(c, rank, e, states, steps, m);
    DatasetMarkerFacts(c, states[m]);
    HeadMustBeFound(c, rank, states[m].stores.writer.disk, HeadOf(states[m]));
    MarkedIffNow(c, rank, states, steps, m, n, HeadOf(states[m]));
  }

  /** No run that goes on from here ever writes the marker. */
  ghost predicate NeverMarked(c: Config, rank: Id -> int, p: Process, key: QuarantineKey) {
    forall more: seq<Process>, taken: seq<ProcessStep> :: Follows(c, rank, more, taken) && more[0] == p ==>
      forall n :: 0 <= n < |more| ==> key !in more[n].stores.quarantined
  }

  lemma NothingMarksAtTheEnd(c: Config, rank: Id -> int, p: Process, head: StateSnapshot, key: QuarantineKey)
    requires AtTheEnd(c, rank, p, head) && key !in p.stores.quarantined
    ensures NeverMarked(c, rank, p, key)
  {
    hide AtTheEnd, ProcessNext;
    forall more: seq<Process>, taken: seq<ProcessStep>, n: nat | Follows(c, rank, more, taken) && more[0] == p && n < |more|
      ensures key !in more[n].stores.quarantined
    {
      TheEndIsForGood(c, rank, more, taken, 0, n, head);
    }
  }

  /** And it does happen: any batch of a first iteration that the gate refuses leads, with one
      crash right after its commit, to a run none of whose continuations has the marker. */
  lemma RefusedDatasetMarkerIsLost(c: Config, rank: Id -> int, e: BootEvidence, input: DataInput)
    returns (states: seq<Process>, steps: seq<ProcessStep>)
    requires ReviewFree(c) && FitEvidence(c, e) && RefusesDataset(c, input) && NewEvidence(c, e, AllDataEvidence(input.evidence))
    ensures IsProcessRun(c, rank, e, states, steps) && steps != []
    ensures var before := states[|steps| - 1];
      && before.pc.Marking? && before.pc.marker.subjectType == DatasetSubject
      && before.pc.marker.subject == input.teacher.dataset
      && steps[|steps| - 1].Die?
      && NeverMarked(c, rank, states[|steps|], QuarantineKeyOf(before.pc.marker))
  {
    hide CanTake, Finished, RejectData, FirstHead, BootStores, NewEvidence, CommittedView, IsHead, ProcessNext, Inv, MustFind,
      AtTheEnd, TurnOf, FitEvidence;
    var p := BootProcess(c, e);
    var t := TurnOf(c, FirstHead(c, e), DataAnswer(input));
    FirstRefusal(c, e, input);
    RefusalIsCommit(c, FirstHead(c, e), input.evidence, input.teacher.dataset, input.teacher.accepted, input.teacher.cost);
    states, steps := TurnReachesItsCommit(c, rank, p, DataAnswer(input));
    var q := AfterTurn(p, t);
    ProcessRunKeepsInv(c, rank, e, states, steps, |steps|);
    DatasetMarkerFacts(c, q);
    var r := q.(stores := Interrupted(q.stores, false, false), pc := Down);
    assert ProcessNext(c, rank, q, Die(false, false), r) by { DieIsAStep(c, rank, q); }
    HeadMustBeFound(c, rank, q.stores.writer.disk, HeadOf(q));
    DyingIsTheEnd(c, rank, q, Die(false, false), r, HeadOf(q));
    OneStep(c, rank, q, Die(false, false), r);
    Joined(c, rank, states, steps, [q, r], [Die(false, false)]);
    NothingMarksAtTheEnd(c, rank, r, HeadOf(q), QuarantineKeyOf(q.pc.marker));
    states, steps := states + [q, r][1..], steps + [Die(false, false)];
  }

  lemma DieIsAStep(c: Config, rank: Id -> int, p: Process)
    ensures ProcessNext(c, rank, p, Die(false, false), p.(stores := Interrupted(p.stores, false, false), pc := Down))
  {
  }

  // ---- A candidate a human refused ----

  function RefusalKey(refused: StateSnapshot): QuarantineKey
    requires Materializable(refused)
  {
    QuarantineKey(refused.metadata.materialization.value.sourceIteration, CheckpointSubject, CheckpointOf(refused))
  }

  lemma OnlyPublishRefusedOrDie(c: Config, rank: Id -> int, p: Process, step: ProcessStep, p': Process)
    requires p.pc.PublishingRefused? && Materializable(p.pc.refused) && ProcessNext(c, rank, p, step, p')
    ensures step.PublishRefused? || step.Die?
    ensures step.PublishRefused? ==>
      && p'.pc.Marking? && QuarantineKeyOf(p'.pc.marker) == RefusalKey(p.pc.refused)
      && CheckpointOf(p.pc.refused) in p'.stores.bundles
      && p'.stores.quarantined == p.stores.quarantined && p'.stores.writer == p.stores.writer
  {
    hide TurnOf, CommittedView, IsLatest, BundleOf, LoadedRecord, MayBundle;
  }

  lemma MarksShift(steps: seq<ProcessStep>, m: nat, n: nat)
    requires m < n <= |steps| && !steps[m].Die? && !steps[m].Mark?
    ensures MarksFirst(steps, m, n) <==> MarksFirst(steps, m + 1, n)
  {
    if MarksFirst(steps, m, n) {
      var j :| m <= j < n && steps[j].Mark? && SurvivesTo(steps, m, j);
      assert SurvivesTo(steps, m + 1, j);
    }
    if MarksFirst(steps, m + 1, n) {
      var j :| m + 1 <= j < n && steps[j].Mark? && SurvivesTo(steps, m + 1, j);
      assert SurvivesTo(steps, m, j);
    }
  }

  lemma EndedCandidateMarkedIff(
    c: Config, rank: Id -> int, states: seq<Process>, steps: seq<ProcessStep>, m: nat, n: nat)
    requires Follows(c, rank, states, steps) && m <= n < |states| && states[m].pc.PublishingRefused?
    requires var p := states[m];
      && MustFind(c, rank, p.stores.writer.disk, p.pc.head)
      && p.pc.head.state == Stopped && p.pc.head.metadata.materialization.None?
      && Materializable(p.pc.refused) && CheckpointOf(p.pc.refused) !in p.stores.bundles
      && RefusalKey(p.pc.refused) !in p.stores.quarantined
    ensures RefusalKey(states[m].pc.refused) in states[n].stores.quarantined <==> MarksFirst(steps, m, n)
    ensures CheckpointOf(states[m].pc.refused) in states[n].stores.bundles <==> PublishesFirst(steps, m, n)
  {
    hide ProcessNext, MustFind, AtTheEnd;
    if m < n {
      var head := states[m].pc.head;
      OnlyPublishRefusedOrDie(c, rank, states[m], steps[m], states[m + 1]);
      if steps[m].PublishRefused? {
        assert SurvivesTo(steps, m, m);
        MarkedIffNow(c, rank, states, steps, m + 1, n, head);
        MarksShift(steps, m, n);
        QuarantineKeeps(c, rank, states, steps, m + 1, n);
      } else {
        DyingIsTheEnd(c, rank, states[m], steps[m], states[m + 1], head);
        TheEndIsForGood(c, rank, states, steps, m + 1, n, head);
      }
    }
  }

  // ---- Any refusal ----

  /** A refusal is committed, and what is still to be written of it is in memory only. */
  predicate Refusing(pc: Pc) {
    || (pc.Marking? && pc.marker.subjectType == DatasetSubject)
    || (pc.PublishingRefused? && Materializable(pc.refused))
  }

  function KeyToMark(pc: Pc): QuarantineKey
    requires Refusing(pc)
  {
    if pc.Marking? then QuarantineKeyOf(pc.marker) else RefusalKey(pc.refused)
  }

  /** The stop is the end of the run, and nothing of the refusal is on disk yet. */
  ghost predicate JustRefused(p: Process) {
    && Refusing(p.pc) && KeyToMark(p.pc) !in p.stores.quarantined
    && p.pc.head.state == Stopped && p.pc.head.metadata.materialization.None?
    && p.stores.writer.pending.None? && p.stores.installing.None? && !p.stores.writer.locked
    && (p.pc.PublishingRefused? ==> CheckpointOf(p.pc.refused) !in p.stores.bundles)
  }

  /** Where a restart can only find the stop, the marker is there exactly when it was written before
      the process first died. */
  lemma EndedRefusalMarkedIff(
    c: Config, rank: Id -> int, states: seq<Process>, steps: seq<ProcessStep>, m: nat, n: nat)
    requires Follows(c, rank, states, steps) && m <= n < |states| && JustRefused(states[m])
    requires MustFind(c, rank, states[m].stores.writer.disk, states[m].pc.head)
    ensures KeyToMark(states[m].pc) in states[n].stores.quarantined <==> MarksFirst(steps, m, n)
  {
    hide ProcessNext, MustFind, Follows, MarksFirst;
    if states[m].pc.Marking? {
      MarkedIffNow(c, rank, states, steps, m, n, states[m].pc.head);
    } else {
      EndedCandidateMarkedIff(c, rank, states, steps, m, n);
    }
  }
}
