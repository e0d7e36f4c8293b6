/** `_bootstrap`: the base model becomes the first Peak, and the first iteration begins. */
module Bootstrap {
  import opened Records
  import opened ControlStore
  import opened ControlProtocol
  import opened CheckpointStore
  import opened PeakStore
  import opened StoreSystem
  import opened Controller

  /** The two evidence records: the model reference and the configured score. */
  datatype BootEvidence = BootEvidence(model: Evidence, score: Evidence)

  predicate FitEvidence(c: Config, e: BootEvidence) {
    && e.model.run == c.run && e.model.iteration == 0
    && e.score.run == c.run && e.score.iteration == 0
    && e.model.id != e.score.id
  }

  function BootIds(e: BootEvidence): seq<Id> {
    [e.model.id, e.score.id]
  }

  function BootTx(c: Config): Id {
    Minted(TxId, c.run, 0, BootstrapTx)
  }

  function PromoteBase(c: Config, e: BootEvidence): Decision {
    Decision(Minted(DecisionId, c.run, 0, BootstrapPromote), c.run, 0, CheckpointSubject, c.base, Promote,
             BootstrapPeak, BootIds(e), At(c, 0, 1), None)
  }

  function ContinueRun(c: Config, e: BootEvidence): Decision {
    Decision(Minted(DecisionId, c.run, 0, BootstrapContinue), c.run, 0, RunSubject, c.run, Continue,
             BootstrapComplete, BootIds(e), At(c, 0, 2), None)
  }

  function PromotedBase(c: Config, e: BootEvidence): StateSnapshot {
    StateSnapshot(
      Minted(SnapshotId, c.run, 0, BootstrapPromoted), c.run, 0, Promoted, At(c, 0, 1),
      Some(c.base), None, Some(c.base), None, Some(c.initialScore), 0, 0.0, None, BootIds(e),
      EMPTY_METADATA.(decision := Some(PromoteBase(c, e).id)))
  }

  /** The snapshot the first iteration starts from. */
  function FirstHead(c: Config, e: BootEvidence): StateSnapshot {
    StateSnapshot(
      Minted(SnapshotId, c.run, 1, FirstDiagnose), c.run, 1, Diagnose, At(c, 0, 2),
      Some(c.base), None, Some(c.base), None, Some(c.initialScore), 0, 0.0, None, BootIds(e),
      EMPTY_METADATA.(decision := Some(ContinueRun(c, e).id)))
  }

  function BootRecords(c: Config, e: BootEvidence): seq<Record> {
    [ EvidenceRecord(e.model), EvidenceRecord(e.score),
      DecisionRecord(PromoteBase(c, e)),
      TransitionRecord(Transition(Minted(TransitionId, c.run, 0, BootstrapPromote), c.run, 0, None, Promoted,
                                  At(c, 0, 1), Some(PromoteBase(c, e).id), BootIds(e))),
      SnapshotRecord(PromotedBase(c, e)),
      DecisionRecord(ContinueRun(c, e)),
      TransitionRecord(Transition(Minted(TransitionId, c.run, 0, BootstrapDiagnose), c.run, 0, Some(Promoted), Diagnose,
                                  At(c, 0, 2), Some(ContinueRun(c, e).id), BootIds(e))),
      SnapshotRecord(FirstHead(c, e)) ]
  }

  function BootRequest(c: Config, e: BootEvidence): Request {
    Request(BootTx(c), c.run, 0, At(c, 0, 2), BootRecords(c, e))
  }

  function BootBundle(c: Config): BundleRequest {
    BundleRequest(
      c.base, c.run, 0,
      CheckpointPayload(c.base, c.run, 0, c.model, None, c.initialScore, StatusPeak, Some(c.baseArtifact),
                        BootTx(c), None, None),
      LineageManifest(c.base, c.run, 0, c.model, None, c.initialScore, StatusPeak, c.baseArtifact, BootTx(c), At(c, 0, 2)),
      c.baseArtifact, BootTx(c), At(c, 0, 2))
  }

  function BootPointer(c: Config, e: BootEvidence): PeakPointer {
    PeakPointerFields(c.run, c.base, None, c.model, 0, c.initialScore, PromoteBase(c, e).id, BootTx(c),
                      BundleDigest(BundleOf(BootBundle(c)).manifest), At(c, 0, 2))
  }

  const EMPTY_DISK := Disk(map[], map[])

  function BootDisk(c: Config, e: BootEvidence): Disk {
    Finished(EMPTY_DISK, BootRequest(c, e))
  }

  /** The four stores once `_bootstrap` has returned. */
  function BootStores(c: Config, e: BootEvidence): Stores {
    var p := BootPointer(c, e);
    Stores(Writer(BootDisk(c, e), None, false), map[c.base := BundleOf(BootBundle(c))], Some(p),
           map[HistoryKeyOf(p) := p], None, false, map[], [p])
  }

  // ---- What the bootstrap puts on record ----

  /** The base checkpoint is active and accepted with the configured score, and nothing is spent. */
  predicate StandsAtBase(c: Config, e: BootEvidence, x: StateSnapshot) {
    && x.run == c.run && x.active == Some(c.base) && x.peak == Some(c.base) && x.peakScore == Some(c.initialScore)
    && x.candidate == None && x.candidateScore == None && x.plateau == 0 && x.totalCost == 0.0 && x.stop == None
    && x.evidence == [e.model.id, e.score.id] && x.metadata.iterationCost == 0.0
    && x.metadata.candidate == None && x.metadata.materialization == None
  }

  predicate BootDecides(c: Config, e: BootEvidence, d: Decision, at: int) {
    && d.run == c.run && d.iteration == 0 && d.evidence == [e.model.id, e.score.id] && d.createdAt == at && d.stop == None
  }

  /** The base is promoted, on the evidence of the model and the configured score, a second after the start;
      a second later the run continues with the first iteration. */
  lemma BootOutcome(c: Config, e: BootEvidence)
    ensures var d, promoted := PromoteBase(c, e), PromotedBase(c, e);
      && DecisionRecord(d) in BootRecords(c, e) && SnapshotRecord(promoted) in BootRecords(c, e)
      && BootDecides(c, e, d, c.started + 1) && d.action == Promote && d.reasonCode == BootstrapPeak
      && d.subjectType == CheckpointSubject && d.subject == c.base
      && StandsAtBase(c, e, promoted) && promoted.state == Promoted && promoted.iteration == 0
      && promoted.enteredAt == c.started + 1 && promoted.metadata.decision == Some(d.id)
    ensures var d, first := ContinueRun(c, e), FirstHead(c, e);
      && DecisionRecord(d) in BootRecords(c, e) && SnapshotRecord(first) in BootRecords(c, e)
      && BootDecides(c, e, d, c.started + 2) && d.action == Continue && d.reasonCode == BootstrapComplete
      && d.subjectType == RunSubject && d.subject == c.run
      && StandsAtBase(c, e, first) && first.state == Diagnose && first.iteration == 1
      && first.enteredAt == c.started + 2 && first.metadata.decision == Some(d.id)
  {
  }

  /** Bundle, pointer and transaction of the bootstrap agree. */
  lemma BootAgrees(c: Config, e: BootEvidence)
    ensures var b, p := BootBundle(c), BootPointer(c, e);
      && b.createdAt == b.lineage.createdAt == p.updatedAt == c.started + 2
      && b.tx == b.payload.tx == b.lineage.tx == p.tx == BootRequest(c, e).tx && BootRequest(c, e).createdAt == c.started + 2
  {
  }

  /** Each snapshot of the bootstrap is entered by one of its transitions. */
  lemma BootEntries(c: Config, e: BootEvidence, x: StateSnapshot)
    requires SnapshotRecord(x) in BootRecords(c, e)
    ensures exists m :: TransitionRecord(m) in BootRecords(c, e) && BootEnters(m, x)
  {
    hide PromoteBase, ContinueRun;
    var r := BootRecords(c, e);
    assert r[3].TransitionRecord? && r[6].TransitionRecord?;
    if x == PromotedBase(c, e) { assert BootEnters(r[3].transition, x); } else { assert BootEnters(r[6].transition, x); }
  }

  /** The transition leads to the snapshot, from nothing or from the promotion. */
  predicate BootEnters(m: Transition, x: StateSnapshot) {
    && m.run == x.run && m.toState == x.state && m.occurredAt == x.enteredAt && m.evidence == x.evidence
    && m.decision == x.metadata.decision && m.iteration == 0
    && m.fromState == (if x.state == Promoted then None else Some(Promoted))
  }

  // ---- The bootstrap transaction commits ----

  lemma BootAdmissible(c: Config, e: BootEvidence)
    requires FitEvidence(c, e)
    ensures Admissible(BootRequest(c, e))
  {
    var r := BootRecords(c, e);
    assert |r| == 8;
  }

  lemma BootPayload(c: Config, e: BootEvidence, r: Record)
    requires FitEvidence(c, e) && r in BootRecords(c, e)
    ensures KeyOf(r) in PayloadOf(BootRecords(c, e)) && PayloadOf(BootRecords(c, e))[KeyOf(r)] == r
  {
    BootAdmissible(c, e);
    PayloadKeeps(BootRequest(c, e), r);
  }

  lemma BootAvailable(c: Config, e: BootEvidence)
    requires FitEvidence(c, e)
    ensures var p := PayloadOf(BootRecords(c, e));
      && Key(EvidenceKind, e.model.id) in p && p[Key(EvidenceKind, e.model.id)] == EvidenceRecord(e.model)
      && Key(EvidenceKind, e.score.id) in p && p[Key(EvidenceKind, e.score.id)] == EvidenceRecord(e.score)
      && Key(DecisionKind, PromoteBase(c, e).id) in p && p[Key(DecisionKind, PromoteBase(c, e).id)] == DecisionRecord(PromoteBase(c, e))
      && Key(DecisionKind, ContinueRun(c, e).id) in p && p[Key(DecisionKind, ContinueRun(c, e).id)] == DecisionRecord(ContinueRun(c, e))
  {
    hide PayloadOf, PromoteBase, ContinueRun;
    BootPayload(c, e, EvidenceRecord(e.model));
    BootPayload(c, e, EvidenceRecord(e.score));
    BootPayload(c, e, DecisionRecord(PromoteBase(c, e)));
    BootPayload(c, e, DecisionRecord(ContinueRun(c, e)));
  }

  lemma BootDependencies(c: Config, e: BootEvidence, r: Record)
    requires FitEvidence(c, e) && r in BootRecords(c, e)
    ensures DependenciesHold(r, PayloadOf(BootRecords(c, e)))
  {
    hide PayloadOf;
    BootAvailable(c, e);
  }

  lemma NothingConflicts(p: Payload)
    ensures DiskInv(EMPTY_DISK) && NoConflict(EMPTY_DISK, p)
    ensures CommittedView(EMPTY_DISK) + p == p
  {
  }

  lemma BootMayStart(c: Config, e: BootEvidence)
    requires FitEvidence(c, e)
    ensures MayStart(EMPTY_DISK, BootRequest(c, e))
  {
    hide PayloadOf, DependenciesHold, BootRecords, Admissible, CommittedView;
    var p := PayloadOf(BootRecords(c, e));
    BootAdmissible(c, e);
    PayloadFacts(BootRecords(c, e));
    NothingConflicts(p);
    forall k | k in p ensures DependenciesHold(p[k], CommittedView(EMPTY_DISK) + p) {
      BootDependencies(c, e, p[k]);
    }
  }

  lemma BootDiskView(c: Config, e: BootEvidence)
    requires FitEvidence(c, e)
    ensures DiskInv(BootDisk(c, e))
    ensures CommittedView(BootDisk(c, e)) == PayloadOf(BootRecords(c, e))
  {
    hide PayloadOf, BootRecords, DiskInv, MayStart, NoConflict, CommittedView;
    BootMayStart(c, e);
    NothingConflicts(PayloadOf(BootRecords(c, e)));
    MarkerKeepsInv(EMPTY_DISK, BootRequest(c, e));
    FinishedView(EMPTY_DISK, BootRequest(c, e));
  }
}
