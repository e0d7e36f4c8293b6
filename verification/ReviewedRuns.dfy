/** Runs with human reviews, crashes included: the exact condition under which a restarted
    controller goes on from where the run stands.

    `latest_snapshot` compares entry times. The controller enters its snapshots by the logical
    clock, but those a decision leads to at the approver's own time, so a late decision can
    outlast every snapshot after it. */
module ReviewedRuns {
  import opened Records
  import opened ControlStore
  import opened ControlProtocol
  import opened CheckpointStore
  import opened PeakStore
  import opened QuarantineStore
  import opened StoreSystem
  import opened Controller
  import opened Turns
  import opened RunState
  import opened Materialization
  import opened Bootstrap
  import opened CrashRecovery
  import opened CrashSafety
  import opened CrashTheorems
  import opened ReviewTimes

  ghost predicate WrittenByHuman(d: Disk, k: Key) {
    exists tx :: tx in d.markers && tx.Minted? && HumanTag(tx.tag) && k in d.markers[tx].refs
  }

  /** A committed snapshot that was entered at an approver's decision. */
  ghost predicate ByDecision(d: Disk, run: Id, s: StateSnapshot) {
    && InView(CommittedView(d), run, s) && s.metadata.materialization.None?
    && WrittenByHuman(d, Key(SnapshotKind, s.id))
  }

  /** Every committed snapshot but the anchor was entered at a decision, or before the anchor. */
  ghost predicate Chronicle(c: Config, d: Disk, head: StateSnapshot, anchor: StateSnapshot) {
    && InView(CommittedView(d), c.run, head) && InView(CommittedView(d), c.run, anchor)
    && !ByDecision(d, c.run, anchor) && (ByDecision(d, c.run, head) <==> anchor != head)
    && (anchor != head ==> anchor.metadata.materialization.None?)
    && (forall s :: InView(CommittedView(d), c.run, s) && s != anchor ==> ByDecision(d, c.run, s) || s.enteredAt < anchor.enteredAt)
    && (forall s :: ByDecision(d, c.run, s) ==> HumanShape(s))
    && Poised(c, head, anchor.enteredAt, anchor != head)
    && TxInv(d.markers, c.run, head)
  }

  /** What `latest_snapshot` makes of such a disk. */
  lemma LatestIffUndefeated(c: Config, d: Disk, rank: Id -> int, head: StateSnapshot, anchor: StateSnapshot)
    requires Chronicle(c, d, head, anchor)
    ensures IsLatest(CommittedView(d), c.run, rank, head) <==>
      && (forall s :: ByDecision(d, c.run, s) ==> NotAfter(rank, s, head))
      && (ByDecision(d, c.run, head) ==> NotAfter(rank, anchor, head))
  {
    hide CommittedView, WrittenByHuman, Poised, HumanShape, TxInv;
  }

  /** Whatever else it returns asks for no materialisation. */
  lemma OthersAskForNothing(c: Config, d: Disk, rank: Id -> int, head: StateSnapshot, anchor: StateSnapshot, s: StateSnapshot)
    requires Chronicle(c, d, head, anchor) && IsLatest(CommittedView(d), c.run, rank, s)
    ensures s == head || s.metadata.materialization.None?
    ensures s == head || s == anchor || ByDecision(d, c.run, s)
  {
    hide CommittedView, WrittenByHuman, Poised, HumanShape, TxInv;
    assert NotAfter(rank, anchor, s);
  }

  // ---- A turn's marker ----

  lemma NamedKeyIsInView(d: Disk, tx: Id, k: Key)
    requires Intact(d) && tx in d.markers && k in d.markers[tx].refs
    ensures k in CommittedView(d)
  {
    CommittedHasFile(d, k);
  }

  lemma HumanAfter(d: Disk, req: Request, k: Key)
    requires req.tx !in d.markers
    ensures WrittenByHuman(Finished(d, req), k) <==>
      WrittenByHuman(d, k) || (req.tx.Minted? && HumanTag(req.tx.tag) && k in PayloadOf(req.records))
  {
    hide PayloadOf, HumanTag;
    var d' := Finished(d, req);
    assert d'.markers == d.markers[req.tx := ManifestOf(req)];
    if WrittenByHuman(d, k) {
      var tx :| tx in d.markers && tx.Minted? && HumanTag(tx.tag) && k in d.markers[tx].refs;
      assert tx in d'.markers && d'.markers[tx] == d.markers[tx];
    } else if req.tx.Minted? && HumanTag(req.tx.tag) && k in PayloadOf(req.records) {
      assert req.tx in d'.markers && k in d'.markers[req.tx].refs;
    }
  }

  lemma HumanIsInView(d: Disk, k: Key)
    requires Intact(d) && WrittenByHuman(d, k)
    ensures k in CommittedView(d)
  {
    hide CommittedView;
    var tx :| tx in d.markers && tx.Minted? && HumanTag(tx.tag) && k in d.markers[tx].refs;
    NamedKeyIsInView(d, tx, k);
  }

  /** The snapshots of a payload are those of its records, and what is already there agrees. */
  lemma SnapshotsOfPayload(d: Disk, req: Request, s: StateSnapshot)
    requires Admissible(req) && NoConflict(d, PayloadOf(req.records))
    ensures var k, p := Key(SnapshotKind, s.id), PayloadOf(req.records);
      && (k in p && p[k] == SnapshotRecord(s) <==> SnapshotRecord(s) in req.records)
      && (k in p && k in CommittedView(d) ==> p[k] == CommittedView(d)[k])
  {
    hide PayloadOf, Admissible;
    PayloadFacts(req.records);
    if SnapshotRecord(s) in req.records { PayloadKeeps(req, SnapshotRecord(s)); }
  }

  /** The new view holds the old snapshots and the turn's. */
  lemma InViewAfter(d: Disk, req: Request, run: Id, s: StateSnapshot)
    requires Admissible(req) && NoConflict(d, PayloadOf(req.records))
    ensures InView(CommittedView(d) + PayloadOf(req.records), run, s) <==>
      InView(CommittedView(d), run, s) || (s.run == run && SnapshotRecord(s) in req.records)
  {
    hide PayloadOf, CommittedView, Admissible, NoConflict;
    SnapshotsOfPayload(d, req, s);
  }

  lemma DecidedAfter(d: Disk, req: Request, run: Id, s: StateSnapshot)
    requires Intact(d) && MayStart(d, req) && NoConflict(d, PayloadOf(req.records))
    requires CommittedView(Finished(d, req)) == CommittedView(d) + PayloadOf(req.records)
    ensures ByDecision(Finished(d, req), run, s) <==>
      || ByDecision(d, run, s)
      || (req.tx.Minted? && HumanTag(req.tx.tag) && s.run == run && s.metadata.materialization.None? && SnapshotRecord(s) in req.records)
  {
    assert Admissible(req) && req.tx !in d.markers;
    hide PayloadOf, CommittedView, Admissible, NoConflict, MayStart, HumanTag, WrittenByHuman, Finished, Intact;
    var k := Key(SnapshotKind, s.id);
    HumanAfter(d, req, k);
    SnapshotsOfPayload(d, req, s);
    if WrittenByHuman(d, k) { HumanIsInView(d, k); }
  }

  /** The anchor of the next head: a decision leaves it where it was. */
  function NextAnchor(head: StateSnapshot, t: Turn): StateSnapshot
    requires t.Commit? && t.req.tx.Minted?
  {
    if IsDecided(t) then head else t.next
  }

  /** What the marker does to the two sets of snapshots. */
  ghost predicate AddsOne(d: Disk, d': Disk, run: Id, t: Turn, s: StateSnapshot)
    requires t.Commit? && t.req.tx.Minted?
  {
    && (InView(CommittedView(d'), run, s) <==>
          InView(CommittedView(d), run, s) || (s.run == run && SnapshotRecord(s) in t.req.records))
    && (ByDecision(d', run, s) <==>
          || ByDecision(d, run, s)
          || (HumanTag(t.req.tx.tag) && s.run == run && s.metadata.materialization.None? && SnapshotRecord(s) in t.req.records))
  }

  ghost predicate Adds(d: Disk, d': Disk, run: Id, t: Turn)
    requires t.Commit? && t.req.tx.Minted?
  {
    forall s :: AddsOne(d, d', run, t, s)
  }

  lemma AddsMeans(d: Disk, d': Disk, run: Id, t: Turn)
    requires t.Commit? && t.req.tx.Minted? && Adds(d, d', run, t)
    ensures forall s :: InView(CommittedView(d'), run, s) <==>
      InView(CommittedView(d), run, s) || (s.run == run && SnapshotRecord(s) in t.req.records)
    ensures forall s :: ByDecision(d', run, s) <==>
      || ByDecision(d, run, s)
      || (HumanTag(t.req.tx.tag) && s.run == run && s.metadata.materialization.None? && SnapshotRecord(s) in t.req.records)
  {
    hide InView, ByDecision, CommittedView, HumanTag;
    forall s ensures InView(CommittedView(d'), run, s) <==>
      InView(CommittedView(d), run, s) || (s.run == run && SnapshotRecord(s) in t.req.records)
    {
      assert AddsOne(d, d', run, t, s);
    }
    forall s ensures ByDecision(d', run, s) <==>
      || ByDecision(d, run, s)
      || (HumanTag(t.req.tx.tag) && s.run == run && s.metadata.materialization.None? && SnapshotRecord(s) in t.req.records)
    {
      assert AddsOne(d, d', run, t, s);
    }
  }

  lemma MarkerAdds(d: Disk, run: Id, t: Turn)
    requires t.Commit? && t.req.tx.Minted? && Intact(d) && MayStart(d, t.req) && NoConflict(d, PayloadOf(t.req.records))
    requires CommittedView(Finished(d, t.req)) == CommittedView(d) + PayloadOf(t.req.records)
    ensures Adds(d, Finished(d, t.req), run, t)
  {
    hide PayloadOf, CommittedView, Admissible, NoConflict, MayStart, HumanTag, ByDecision, InView, Finished, Intact;
    MayStartIsAdmissible(d, t.req);
    forall s: StateSnapshot ensures AddsOne(d, Finished(d, t.req), run, t, s) {
      InViewAfter(d, t.req, run, s);
      DecidedAfter(d, t.req, run, s);
    }
  }

  /** After a decision that leaves nothing to materialise. */
  lemma DecisionGrows(c: Config, d: Disk, d': Disk, head: StateSnapshot, anchor: StateSnapshot, t: Turn)
    requires Chronicle(c, d, head, anchor) && KeepsTime(c, head, anchor.enteredAt, t) && IsDecided(t)
    requires Adds(d, d', c.run, t) && TxInv(d'.markers, c.run, t.next)
    ensures Chronicle(c, d', t.next, head)
  {
    hide InView, ByDecision, CommittedView, HumanShape, HumanTag, TxInv, NextTx;
    var before :| Timed(head, anchor.enteredAt, t, before);
    assert t.req.records[|before|] == SnapshotRecord(t.next);
    AddsMeans(d, d', c.run, t);
    SameRun(CommittedView(d), c.run, head);
  }

  lemma SameRun(view: Payload, run: Id, s: StateSnapshot)
    requires InView(view, run, s)
    ensures s.run == run
  {
  }

  /** After any other turn: the next head is the anchor. */
  lemma LogicalTurnGrows(c: Config, d: Disk, d': Disk, head: StateSnapshot, anchor: StateSnapshot, t: Turn)
    requires Chronicle(c, d, head, anchor) && KeepsTime(c, head, anchor.enteredAt, t) && !IsDecided(t)
    requires Adds(d, d', c.run, t) && TxInv(d'.markers, c.run, t.next)
    ensures Chronicle(c, d', t.next, t.next)
  {
    hide InView, ByDecision, CommittedView, HumanShape, HumanTag, TxInv, NextTx, Poised;
    var before :| Timed(head, anchor.enteredAt, t, before);
    assert t.req.records[|before|] == SnapshotRecord(t.next);
    AddsMeans(d, d', c.run, t);
    SameRun(CommittedView(d), c.run, head);
    HumanShapeAsksForNothing(t.next);
    forall s | InView(CommittedView(d'), c.run, s) && s != t.next
      ensures ByDecision(d', c.run, s) || s.enteredAt < t.next.enteredAt
    {
      SameRun(CommittedView(d'), c.run, s);
      if SnapshotRecord(s) in t.req.records {
        assert SnapshotRecord(s) in before;
        HumanShapeAsksForNothing(s);
      }
    }
  }

  /** Every turn keeps the chronicle. */
  lemma ChronicleGrows(c: Config, d: Disk, head: StateSnapshot, anchor: StateSnapshot, t: Turn)
    requires Chronicle(c, d, head, anchor) && KeepsTime(c, head, anchor.enteredAt, t)
    requires Intact(d) && MayStart(d, t.req) && NoConflict(d, PayloadOf(t.req.records))
    requires CommittedView(Finished(d, t.req)) == CommittedView(d) + PayloadOf(t.req.records)
    ensures Chronicle(c, Finished(d, t.req), t.next, NextAnchor(head, t))
  {
    var d' := Finished(d, t.req);
    NewTxInv(c.run, d.markers, head, t.req.tx, ManifestOf(t.req), t.next);
    hide InView, ByDecision, CommittedView, HumanShape, HumanTag, TxInv, NextTx, Poised, Timed, PayloadOf, MayStart,
      NoConflict, Intact, ManifestOf;
    MarkerAdds(d, c.run, t);
    if IsDecided(t) { DecisionGrows(c, d, d', head, anchor, t); } else { LogicalTurnGrows(c, d, d', head, anchor, t); }
  }

  // ---- The process ----

  /** The run's last snapshot that was not entered at a decision: its head, or the one before. */
  ghost function AnchorOf(d: Disk, run: Id, heads: seq<StateSnapshot>): StateSnapshot
    requires heads != []
  {
    var last := heads[|heads| - 1];
    if ByDecision(d, run, last) && 2 <= |heads| then heads[|heads| - 2] else last
  }

  ghost predicate PcFollows(c: Config, s: Stores, pc: Pc, head: StateSnapshot, clock: int) {
    && (!pc.Down? ==> pc.head == head)
    && (pc.Committing? ==>
          && KeepsTime(c, head, clock, pc.turn)
          && s.writer.pending.Some? && s.writer.pending.value.req == pc.turn.req)
  }

  ghost predicate RunInv(c: Config, p: Process) {
    && StoresInv(p.stores) && p.heads != []
    && var anchor := AnchorOf(p.stores.writer.disk, c.run, p.heads);
    && Chronicle(c, p.stores.writer.disk, HeadOf(p), anchor)
    && PcFollows(c, p.stores, p.pc, HeadOf(p), anchor.enteredAt)
  }

  lemma ProcessKeepsStoresInv(c: Config, rank: Id -> int, p: Process, step: ProcessStep, p': Process)
    requires StoresInv(p.stores) && ProcessNext(c, rank, p, step, p')
    ensures StoresInv(p'.stores) && StoresGrow(p.stores, p'.stores) && Grows(p.stores.writer.disk, p'.stores.writer.disk)
  {
    hide StoresInv, StoresNext, CommittedView, IsLatest, TurnOf, AlreadyCommitted, AfterCommit, Reconciling, BundleCommits, LoadedRecord,
      AlreadyInstalled, AfterBundle, MarkerOf, PointerOf, FreshCandidate, BundleRequestOf, Interrupted;
    match step
    case BeginTurn(answer) => StoresStepKeepsInv(p.stores, Control(BeginCommit(TurnOf(c, p.pc.head, answer).req)), p'.stores);
    case CommitStep(write) => StoresStepKeepsInv(p.stores, Control(write), p'.stores);
    case Publish(d) =>
      if p'.stores != p.stores { StoresStepKeepsInv(p.stores, PublishBundle(BundleRequestOf(p.pc.head)), p'.stores); }
    case PublishRefused(d) =>
      if p'.stores != p.stores { StoresStepKeepsInv(p.stores, PublishBundle(BundleRequestOf(p.pc.refused)), p'.stores); }
    case Promotion =>
      if p'.stores != p.stores {
        var pointer := PointerOf(p.pc.head, p.pc.decision);
        StoresStepKeepsInv(p.stores, BeginInstall(pointer, pointer.previous), p'.stores);
      }
    case Install => StoresStepKeepsInv(p.stores, ReplacePointer, p'.stores);
    case Mark => StoresStepKeepsInv(p.stores, WriteQuarantine(p.pc.marker), p'.stores);
    case Die(controlLock, peakLock) => InterruptedKeepsInv(p.stores, controlLock, peakLock);
    case HumanRemovesLock(lock) => StoresStepKeepsInv(p.stores, lock, p'.stores);
    case _ =>
  }

  /** Steps that leave the control files and the heads alone, and stay with the head. */
  predicate StaysPut(p: Process, p': Process)
    requires p.heads != []
  {
    && p'.heads == p.heads && p'.stores.writer.disk == p.stores.writer.disk
    && (p'.pc.Down? || (p'.pc.head == HeadOf(p) && !p'.pc.Committing?))
  }

  lemma StayingKeepsInv(c: Config, p: Process, p': Process)
    requires RunInv(c, p) && StoresInv(p'.stores) && StaysPut(p, p')
    ensures RunInv(c, p')
  {
    hide StoresInv, Chronicle, ByDecision, KeepsTime;
  }

  lemma AfterBundleHead(s: StateSnapshot, d: Decision)
    requires Materializable(s)
    ensures !AfterBundle(s, d).Down? && AfterBundle(s, d).head == s && !AfterBundle(s, d).Committing?
  {
  }

  lemma AfterCommitHead(t: Turn)
    requires t.Commit?
    ensures !AfterCommit(t).Down? && AfterCommit(t).head == t.next && !AfterCommit(t).Committing?
  {
  }

  lemma StepStaysPut(c: Config, rank: Id -> int, p: Process, step: ProcessStep, p': Process)
    requires p.heads != [] && (!p.pc.Down? ==> p.pc.head == HeadOf(p)) && ProcessNext(c, rank, p, step, p')
    requires step.Resume? ==> step.head == HeadOf(p)
    requires !step.BeginTurn? && !step.RepeatTurn? && !step.CommitStep?
    ensures StaysPut(p, p')
  {
    hide StoresInv, CommittedView, IsLatest, BundleCommits, LoadedRecord, AlreadyInstalled, MayInstall, MayBundle, MarkerCommits,
      AfterBundle, MarkerOf, PointerOf, BundleRequestOf, BundleOf;
    if step.Publish? { AfterBundleHead(p.pc.head, step.decision); }
  }

  lemma TurnBegins(c: Config, p: Process, answer: Answer, p': Process)
    requires RunInv(c, p) && p.pc.Ready? && BeginNext(c, p, TurnOf(c, p.pc.head, answer), p') && StoresInv(p'.stores)
    ensures RunInv(c, p')
  {
    hide StoresInv, ByDecision, KeepsTime, TurnOf, FreshCandidate, MayStart, PayloadOf, InView, CommittedView, HumanShape, TxInv, Poised;
    var anchor := AnchorOf(p.stores.writer.disk, c.run, p.heads);
    TurnKeepsTime(c, HeadOf(p), anchor.enteredAt, anchor != HeadOf(p), answer);
  }

  /** On course the id of the next turn is new, so nothing is repeated. */
  lemma TurnIdIsFree(c: Config, p: Process, answer: Answer)
    requires RunInv(c, p) && p.pc.Ready? && TurnOf(c, p.pc.head, answer).Commit?
    ensures TurnOf(c, p.pc.head, answer).req.tx !in p.stores.writer.disk.markers
  {
    hide StoresInv, ByDecision, TurnOf, InView, CommittedView, HumanShape, TxInv, Poised, Timed, NextTx;
    var anchor, t := AnchorOf(p.stores.writer.disk, c.run, p.heads), TurnOf(c, p.pc.head, answer);
    TurnKeepsTime(c, HeadOf(p), anchor.enteredAt, anchor != HeadOf(p), answer);
    NextIdIsFree(c.run, p.stores.writer.disk.markers, HeadOf(p), t.req.tx, t.next);
  }

  lemma NoRepeats(c: Config, p: Process, answer: Answer)
    requires RunInv(c, p) && p.pc.Ready? && TurnOf(c, p.pc.head, answer).Commit?
    ensures !AlreadyCommitted(p.stores.writer.disk, TurnOf(c, p.pc.head, answer).req)
  {
    hide RunInv, TurnOf, Admissible, ManifestOf, ManifestIntact;
    TurnIdIsFree(c, p, answer);
  }

  /** Files no marker names change neither the view nor who wrote it. */
  lemma ChronicleIsAboutView(c: Config, d: Disk, d': Disk, head: StateSnapshot, anchor: StateSnapshot)
    requires CommittedView(d') == CommittedView(d) && d'.markers == d.markers
    ensures Chronicle(c, d, head, anchor) ==> Chronicle(c, d', head, anchor)
    ensures forall s :: ByDecision(d', c.run, s) <==> ByDecision(d, c.run, s)
  {
    hide CommittedView, InView, HumanShape, Poised, TxInv;
    forall s ensures ByDecision(d', c.run, s) <==> ByDecision(d, c.run, s) {}
    hide ByDecision;
  }

  lemma RecordIsWritten(c: Config, p: Process, k: Key, p': Process)
    requires RunInv(c, p) && CommitNext(p, WriteRecord(k), p') && StoresInv(p'.stores)
    ensures RunInv(c, p')
  {
    hide StoresInv, Chronicle, ByDecision, KeepsTime, StoresNext;
    WriteRecordKeepsView(p.stores, k, p'.stores);
    ChronicleIsAboutView(c, p.stores.writer.disk, p'.stores.writer.disk, HeadOf(p), AnchorOf(p.stores.writer.disk, c.run, p.heads));
  }

  lemma MarkerIsWritten(c: Config, p: Process, p': Process)
    requires RunInv(c, p) && CommitNext(p, WriteMarker, p') && StoresInv(p'.stores)
    ensures RunInv(c, p')
  {
    hide StoresInv, Chronicle, ByDecision, StoresNext, NextTx, Timed, Poised, HumanTag, MayStart, NoConflict, Finished,
      CommittedView, PayloadOf,
      AfterCommit;
    var d, head, t := p.stores.writer.disk, HeadOf(p), p.pc.turn;
    var anchor := AnchorOf(d, c.run, p.heads);
    StoresAreIntact(p.stores);
    WriteMarkerExtendsView(p.stores, p'.stores);
    ChronicleGrows(c, d, head, anchor, t);
    AfterCommitHead(t);
    AnchorMoves(c, Finished(d, t.req), p.heads, t);
  }

  lemma StoresAreIntact(s: Stores)
    requires StoresInv(s)
    ensures Intact(s.writer.disk) && DiskInv(s.writer.disk)
  {
  }

  lemma AnchorMoves(c: Config, d': Disk, heads: seq<StateSnapshot>, t: Turn)
    requires heads != [] && t.Commit? && t.req.tx.Minted?
    requires Chronicle(c, d', t.next, NextAnchor(heads[|heads| - 1], t))
    ensures AnchorOf(d', c.run, heads + [t.next]) == NextAnchor(heads[|heads| - 1], t)
  {
    hide ByDecision, InView, CommittedView, HumanShape, Poised, TxInv, HumanTag;
  }

  lemma RunInvParts(c: Config, p: Process)
    requires RunInv(c, p)
    ensures StoresInv(p.stores) && p.heads != [] && (!p.pc.Down? ==> p.pc.head == HeadOf(p))
  {
    hide StoresInv, Chronicle, KeepsTime, AnchorOf;
  }

  lemma CommitKeepsRunInv(c: Config, p: Process, write: WriterStep, p': Process)
    requires RunInv(c, p) && CommitNext(p, write, p') && StoresInv(p'.stores)
    ensures RunInv(c, p')
  {
    hide RunInv, StoresInv, StoresNext, AfterCommit;
    match write
    case WriteRecord(k) => RecordIsWritten(c, p, k, p');
    case WriteMarker => MarkerIsWritten(c, p, p');
    case WriteConflict(k) =>
      RunInvParts(c, p);
      ConflictStays(p, k, p');
      StayingKeepsInv(c, p, p');
  }

  /** No step of a run with reviews, and no crash, breaks the invariant, as long as each resume
      goes on from where the run stands. */
  lemma ReviewedStepKeepsInv(c: Config, rank: Id -> int, p: Process, step: ProcessStep, p': Process)
    requires RunInv(c, p) && ProcessNext(c, rank, p, step, p')
    requires p.heads != [] && (step.Resume? ==> step.head == HeadOf(p))
    ensures RunInv(c, p')
  {
    hide RunInv, StoresInv, ResumeNext, BeginNext, AlreadyCommitted, AfterCommit, CommitNext, PublishNext, Publishes, PromotionNext,
      InstallNext, MarkNext, UnlockNext, Reconciling, Interrupted, TurnOf;
    RunInvParts(c, p);
    ProcessKeepsStoresInv(c, rank, p, step, p');
    match step
    case BeginTurn(answer) => TurnBegins(c, p, answer, p');
    case RepeatTurn(answer) => NoRepeats(c, p, answer);
    case CommitStep(write) => CommitKeepsRunInv(c, p, write, p');
    case _ =>
      StepStaysPut(c, rank, p, step, p');
      StayingKeepsInv(c, p, p');
  }

  lemma ConflictStays(p: Process, k: Key, p': Process)
    requires p.heads != [] && CommitNext(p, WriteConflict(k), p')
    ensures StaysPut(p, p')
  {
  }

  // ---- Runs ----

  /** Up to state n every resume went on from where the run stood. */
  ghost predicate OnCourse(states: seq<Process>, steps: seq<ProcessStep>, n: nat)
    requires n < |states| == |steps| + 1
  {
    forall i :: 0 <= i < n && steps[i].Resume? ==> states[i].heads != [] && steps[i].head == HeadOf(states[i])
  }

  lemma BootChronicle(c: Config, e: BootEvidence)
    requires FitEvidence(c, e)
    ensures RunInv(c, BootProcess(c, e))
  {
    hide StoresInv, InView, CommittedView, BootDisk, TxInv, HumanShape, BundleOf, BootBundle;
    BootStoresInv(c, e);
    BootHeadIsHead(c, e);
    BootTxInv(c, e);
    BootHasNoDecision(c, e);
  }

  lemma BootHasNoDecision(c: Config, e: BootEvidence)
    ensures forall s :: !ByDecision(BootDisk(c, e), c.run, s)
  {
    hide PayloadOf, BootRecords, InView, CommittedView;
  }

  lemma {:induction false} OnCourseKeepsInv(
    c: Config, rank: Id -> int, e: BootEvidence, states: seq<Process>, steps: seq<ProcessStep>, n: nat)
    requires IsAnyRun(c, rank, e, states, steps) && n < |states| && OnCourse(states, steps, n)
    ensures RunInv(c, states[n])
  {
    hide RunInv, ProcessNext, FitEvidence, BootProcess;
    if n == 0 {
      BootChronicle(c, e);
    } else {
      OnCourseKeepsInv(c, rank, e, states, steps, n - 1);
      RunInvParts(c, states[n - 1]);
      ReviewedStepKeepsInv(c, rank, states[n - 1], steps[n - 1], states[n]);
    }
  }

  lemma RunChronicle(c: Config, p: Process)
    requires RunInv(c, p)
    ensures p.heads != [] && Intact(p.stores.writer.disk)
    ensures Chronicle(c, p.stores.writer.disk, HeadOf(p), AnchorOf(p.stores.writer.disk, c.run, p.heads))
  {
    hide StoresInv, Chronicle, KeepsTime, AnchorOf;
    StoresAreIntact(p.stores);
  }

  lemma DecidedHeadHasPrevious(c: Config, d: Disk, heads: seq<StateSnapshot>)
    requires heads != [] && Chronicle(c, d, heads[|heads| - 1], AnchorOf(d, c.run, heads))
    ensures ByDecision(d, c.run, heads[|heads| - 1]) ==>
      2 <= |heads| && AnchorOf(d, c.run, heads) == heads[|heads| - 2]
  {
    hide ByDecision, InView, CommittedView, HumanShape, Poised, TxInv;
  }

  /** In every state of every run that has stayed on course, mid-commit and after any crash, a
      restarted controller goes on from where the run stands exactly when that snapshot sorts
      after each snapshot entered at an approver's decision, of a dataset or a model, in this
      iteration or an earlier one, and, if it is such a snapshot itself, after the one before. */
  lemma ResumesAtHeadIff(
    c: Config, rank: Id -> int, e: BootEvidence, states: seq<Process>, steps: seq<ProcessStep>, n: nat)
    requires IsAnyRun(c, rank, e, states, steps) && n < |states| && OnCourse(states, steps, n)
    ensures states[n].heads != []
    ensures var d, head, heads := states[n].stores.writer.disk, HeadOf(states[n]), states[n].heads;
      IsLatest(CommittedView(d), c.run, rank, head) <==>
        && (forall s :: ByDecision(d, c.run, s) ==> NotAfter(rank, s, head))
        && (ByDecision(d, c.run, head) ==> 2 <= |heads| && NotAfter(rank, heads[|heads| - 2], head))
  {
    hide RunInv, IsAnyRun, Chronicle, ByDecision, CommittedView, IsLatest, NotAfter, AnchorOf;
    OnCourseKeepsInv(c, rank, e, states, steps, n);
    var p := states[n];
    RunChronicle(c, p);
    LatestIffUndefeated(c, p.stores.writer.disk, rank, HeadOf(p), AnchorOf(p.stores.writer.disk, c.run, p.heads));
    DecidedHeadHasPrevious(c, p.stores.writer.disk, p.heads);
  }

  /** While nobody has decided anything the head is strictly the latest. */
  lemma UndecidedHeadIsHead(
    c: Config, rank: Id -> int, e: BootEvidence, states: seq<Process>, steps: seq<ProcessStep>, n: nat)
    requires IsAnyRun(c, rank, e, states, steps) && n < |states| && OnCourse(states, steps, n)
    requires forall s :: !ByDecision(states[n].stores.writer.disk, c.run, s)
    ensures states[n].heads != [] && IsHead(CommittedView(states[n].stores.writer.disk), c.run, HeadOf(states[n]))
  {
    hide RunInv, IsAnyRun, InView, ByDecision, CommittedView, HumanShape, Poised, TxInv, AnchorOf;
    OnCourseKeepsInv(c, rank, e, states, steps, n);
    RunChronicle(c, states[n]);
  }

  /** A resume that goes on from elsewhere reconciles nothing: whatever the head still had to
      materialise is left undone. */
  lemma OffCourseReconcilesNothing(
    c: Config, rank: Id -> int, e: BootEvidence, states: seq<Process>, steps: seq<ProcessStep>, n: nat)
    requires IsAnyRun(c, rank, e, states, steps) && n < |steps| && OnCourse(states, steps, n)
    requires steps[n].Resume? && states[n].heads != [] && steps[n].head != HeadOf(states[n])
    ensures states[n + 1].pc == Ready(steps[n].head) && states[n + 1].stores == states[n].stores
    ensures steps[n].head.metadata.materialization.None?
  {
    hide RunInv, FitEvidence, BootProcess, OnCourse, Chronicle, CommittedView, IsLatest, AnchorOf, BeginNext, RepeatNext,
      CommitNext, PublishNext,
      PublishRefusedNext, PromotionNext, InstallNext, MarkNext, UnlockNext, TurnOf;
    OnCourseKeepsInv(c, rank, e, states, steps, n);
    var p := states[n];
    RunChronicle(c, p);
    assert ProcessNext(c, rank, p, steps[n], states[n + 1]);
    OthersAskForNothing(c, p.stores.writer.disk, rank, HeadOf(p), AnchorOf(p.stores.writer.disk, c.run, p.heads), steps[n].head);
  }

  // ---- Late decisions ----

  lemma {:induction false} DiskGrows(
    c: Config, rank: Id -> int, e: BootEvidence, states: seq<Process>, steps: seq<ProcessStep>, m: nat, n: nat)
    requires IsAnyRun(c, rank, e, states, steps) && m <= n < |states| && OnCourse(states, steps, n)
    ensures Grows(states[m].stores.writer.disk, states[n].stores.writer.disk)
    decreases n
  {
    hide RunInv, ProcessNext, FitEvidence, BootProcess, Grows;
    if m < n {
      DiskGrows(c, rank, e, states, steps, m, n - 1);
      OnCourseKeepsInv(c, rank, e, states, steps, n - 1);
      RunInvParts(c, states[n - 1]);
      ProcessKeepsStoresInv(c, rank, states[n - 1], steps[n - 1], states[n]);
      GrowsTransitive(states[m].stores.writer.disk, states[n - 1].stores.writer.disk, states[n].stores.writer.disk);
    } else {
      GrowsRefl(states[m].stores.writer.disk);
    }
  }

  lemma GrowsRefl(d: Disk)
    ensures Grows(d, d)
  {
  }

  lemma DecidedStays(d: Disk, d': Disk, run: Id, s: StateSnapshot)
    requires ByDecision(d, run, s) && Intact(d) && Intact(d') && Grows(d, d')
    ensures ByDecision(d', run, s)
  {
    hide CommittedView, Intact;
    CommittedViewGrows(d, d');
    var k := Key(SnapshotKind, s.id);
    var tx :| tx in d.markers && tx.Minted? && HumanTag(tx.tag) && k in d.markers[tx].refs;
    assert tx in d'.markers && d'.markers[tx] == d.markers[tx];
  }

  /** A decision made after the time of a later head defeats it, in every iteration to come, until
      the logical clock has caught up. */
  lemma LateDecisionDefeats(
    c: Config, rank: Id -> int, e: BootEvidence, states: seq<Process>, steps: seq<ProcessStep>, m: nat, n: nat, s: StateSnapshot)
    requires IsAnyRun(c, rank, e, states, steps) && m <= n < |states| && OnCourse(states, steps, n)
    requires ByDecision(states[m].stores.writer.disk, c.run, s)
    ensures states[n].heads != []
    ensures HeadOf(states[n]).enteredAt < s.enteredAt ==>
      !IsLatest(CommittedView(states[n].stores.writer.disk), c.run, rank, HeadOf(states[n]))
  {
    hide RunInv, FitEvidence, BootProcess, ProcessNext, Chronicle, ByDecision, CommittedView, IsLatest, AnchorOf, Intact, Grows;
    OnCourseKeepsInv(c, rank, e, states, steps, m);
    OnCourseKeepsInv(c, rank, e, states, steps, n);
    RunChronicle(c, states[m]);
    RunChronicle(c, states[n]);
    DiskGrows(c, rank, e, states, steps, m, n);
    DecidedStays(states[m].stores.writer.disk, states[n].stores.writer.disk, c.run, s);
    ResumesAtHeadIff(c, rank, e, states, steps, n);
  }

  lemma WrittenIsDecided(c: Config, p: Process, p': Process, s: StateSnapshot)
    requires RunInv(c, p) && CommitNext(p, WriteMarker, p') && StoresInv(p'.stores)
    requires p.pc.turn.req.tx.Minted? && HumanTag(p.pc.turn.req.tx.tag)
    requires SnapshotRecord(s) in p.pc.turn.req.records && s.metadata.materialization.None? && s.run == c.run
    ensures ByDecision(p'.stores.writer.disk, c.run, s)
  {
    hide StoresInv, Chronicle, ByDecision, KeepsTime, StoresNext, HumanTag, MayStart, NoConflict, CommittedView, PayloadOf,
      Finished, AfterCommit;
    StoresAreIntact(p.stores);
    WriteMarkerExtendsView(p.stores, p'.stores);
    DecidedAfter(p.stores.writer.disk, p.pc.turn.req, c.run, s);
  }

  /** The process is about to make this turn durable. */
  ghost predicate Commits(c: Config, states: seq<Process>, steps: seq<ProcessStep>, n: nat, t: Turn)
    requires n < |steps| && |states| == |steps| + 1
  {
    steps[n] == CommitStep(WriteMarker) && states[n].pc.Committing? && states[n].pc.turn == t && t.Commit?
  }

  lemma CommitMovesOn(
    c: Config, rank: Id -> int, e: BootEvidence, states: seq<Process>, steps: seq<ProcessStep>, n: nat, t: Turn)
    requires IsAnyRun(c, rank, e, states, steps) && n < |steps| && OnCourse(states, steps, n) && Commits(c, states, steps, n, t)
    ensures OnCourse(states, steps, n + 1) && CommitNext(states[n], WriteMarker, states[n + 1])
    ensures states[n + 1].heads != [] && HeadOf(states[n + 1]) == t.next && StoresInv(states[n + 1].stores)
    ensures RunInv(c, states[n]) && states[n].heads != [] && states[n].pc.head == HeadOf(states[n])
  {
    hide RunInv, FitEvidence, BootProcess, StoresInv, AfterCommit, StoresNext;
    OnCourseKeepsInv(c, rank, e, states, steps, n);
    assert ProcessNext(c, rank, states[n], steps[n], states[n + 1]);
    OnCourseKeepsInv(c, rank, e, states, steps, n + 1);
    RunInvParts(c, states[n]);
    RunInvParts(c, states[n + 1]);
  }

  /** A dataset approved after the time of its iteration's last snapshot: once the candidate's turn
      is committed, in whatever way it ended, a restart does not go on from it. */
  lemma LateDatasetApproval(
    c: Config, rank: Id -> int, e: BootEvidence, states: seq<Process>, steps: seq<ProcessStep>, n: nat, candidate: CandidateInput)
    requires IsAnyRun(c, rank, e, states, steps) && n < |steps| && OnCourse(states, steps, n)
    requires states[n].heads != [] && Commits(c, states, steps, n, CandidateTurn(c, HeadOf(states[n]), candidate))
    requires var head := HeadOf(states[n]);
      ByDecision(states[n].stores.writer.disk, c.run, head) && At(c, head.iteration, 110) < head.enteredAt
    ensures states[n + 1].heads != []
    ensures !IsLatest(CommittedView(states[n + 1].stores.writer.disk), c.run, rank, HeadOf(states[n + 1]))
  {
    hide RunInv, FitEvidence, BootProcess, ProcessNext, ByDecision, CommittedView, IsLatest, CandidateTurn, CommitNext, StoresInv;
    var t := CandidateTurn(c, HeadOf(states[n]), candidate);
    CommitMovesOn(c, rank, e, states, steps, n, t);
    CandidateTurnClock(c, HeadOf(states[n]), candidate);
    LateDecisionDefeats(c, rank, e, states, steps, n, n + 1, HeadOf(states[n]));
  }

  lemma ApprovalHasEvaluation(c: Config, pending: StateSnapshot, review: Review) returns (evaluate: StateSnapshot)
    requires review.ReviewDecided? && review.approved && ModelReviewTurn(c, pending, review).Commit?
    requires pending.metadata.materialization.None?
    ensures var t := ModelReviewTurn(c, pending, review);
      && SnapshotRecord(evaluate) in t.req.records && t.req.tx == Tx(pending, ModelReviewApproved)
      && t.next.enteredAt == At(c, pending.iteration, 110) && t.next.metadata.materialization.Some?
    ensures evaluate.enteredAt == review.decidedAt && evaluate.metadata.materialization.None? && evaluate.run == pending.run
    ensures evaluate.state == Evaluate && evaluate.iteration == pending.iteration
    ensures evaluate.id == Minted(SnapshotId, pending.run, pending.iteration, EvaluateAfterApproval)
  {
    hide JudgeCandidate, PolicyRecords;
    var f := pending.metadata.candidate.value;
    evaluate := EvaluateSnapshot(pending, f, review.decidedAt, EvaluateAfterApproval, pending.metadata);
    assert ModelReviewTurn(c, pending, review).req.records[2] == SnapshotRecord(evaluate);
  }

  /** A model approved after the time of the snapshot that asks for its promotion: a restart does
      not go on from that snapshot, and so, by OffCourseReconcilesNothing, the promotion is not
      installed by it. */
  lemma LateModelApproval(
    c: Config, rank: Id -> int, e: BootEvidence, states: seq<Process>, steps: seq<ProcessStep>, n: nat, review: Review)
    requires IsAnyRun(c, rank, e, states, steps) && n < |steps| && OnCourse(states, steps, n)
    requires states[n].heads != [] && Commits(c, states, steps, n, ModelReviewTurn(c, HeadOf(states[n]), review))
    requires HeadOf(states[n]).state == ModelReviewPending
    requires review.ReviewDecided? && review.approved && At(c, HeadOf(states[n]).iteration, 110) < review.decidedAt
    ensures states[n + 1].heads != [] && HeadOf(states[n + 1]).metadata.materialization.Some?
    ensures !IsLatest(CommittedView(states[n + 1].stores.writer.disk), c.run, rank, HeadOf(states[n + 1]))
  {
    hide RunInv, FitEvidence, BootProcess, ProcessNext, ByDecision, CommittedView, IsLatest, ModelReviewTurn, CommitNext, StoresInv;
    var head := HeadOf(states[n]);
    CommitMovesOn(c, rank, e, states, steps, n, ModelReviewTurn(c, head, review));
    PendingAsksForNothing(c, states[n]);
    var evaluate := ApprovalHasEvaluation(c, head, review);
    WrittenIsDecided(c, states[n], states[n + 1], evaluate);
    LateDecisionDefeats(c, rank, e, states, steps, n + 1, n + 1, evaluate);
  }

  lemma PendingAsksForNothing(c: Config, p: Process)
    requires RunInv(c, p) && p.heads != [] && HeadOf(p).state == ModelReviewPending
    ensures HeadOf(p).metadata.materialization.None? && HeadOf(p).run == c.run
  {
    hide StoresInv, ByDecision, CommittedView, KeepsTime, TxInv, HumanShape;
  }
}
