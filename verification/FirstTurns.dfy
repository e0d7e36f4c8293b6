/** The first turns of a run, one after another: their records never meet a file that is already
    there, so nothing but the answers decides how far a run gets. */
module FirstTurns {
  import opened Records
  import opened ControlStore
  import opened ControlProtocol
  import opened StoreSystem
  import opened CheckpointStore
  import opened Controller
  import opened TurnCommits
  import opened TurnRuns
  import opened Bootstrap
  import opened CrashRecovery
  import opened CrashTheorems
  import Ledger = CostLedger

  /** Adapters name their evidence by texts; the controller mints the ids of everything else. */
  predicate Covered(id: Id, names: set<Id>, tags: set<Tag>) {
    if id.Text? then id in names else id.tag in tags
  }

  ghost predicate FilesCovered(files: Payload, names: set<Id>, tags: set<Tag>) {
    forall k :: k in files ==> Covered(k.id, names, tags)
  }

  ghost predicate RecordsCovered(records: seq<Record>, names: set<Id>, tags: set<Tag>) {
    forall r :: r in records ==> Covered(KeyOf(r).id, names, tags)
  }

  ghost predicate Named(evidence: seq<Evidence>, names: set<Id>) {
    forall i :: 0 <= i < |evidence| ==> evidence[i].id.Text? && evidence[i].id in names
  }

  lemma PayloadCovered(records: seq<Record>, names: set<Id>, tags: set<Tag>)
    requires RecordsCovered(records, names, tags)
    ensures FilesCovered(PayloadOf(records), names, tags)
  {
    PayloadFacts(records);
  }

  /** A record under a name and a tag of its own meets no file, nor does one that is there. */
  lemma NothingInCommon(d: Disk, req: Request, names: set<Id>, tags: set<Tag>)
    requires FilesCovered(d.files, names, tags)
    requires forall r :: r in req.records ==>
      !Covered(KeyOf(r).id, names, tags) || (KeyOf(r) in d.files && d.files[KeyOf(r)] == r)
    ensures NoConflict(d, PayloadOf(req.records))
  {
    PayloadFacts(req.records);
    hide PayloadOf;
    forall k | k in PayloadOf(req.records) && k in d.files ensures d.files[k] == PayloadOf(req.records)[k] {
      assert Covered(k.id, names, tags);
      assert PayloadOf(req.records)[k] in req.records;
    }
  }

  lemma CoverGrows(d: Disk, req: Request, names: set<Id>, tags: set<Tag>, names': set<Id>, tags': set<Tag>)
    requires FilesCovered(d.files, names, tags) && RecordsCovered(req.records, names', tags')
    ensures FilesCovered(Finished(d, req).files, names + names', tags + tags')
  {
    PayloadCovered(req.records, names', tags');
    hide PayloadOf;
    forall k | k in Finished(d, req).files ensures Covered(k.id, names + names', tags + tags') {
      assert Covered(k.id, names, tags) || Covered(k.id, names', tags');
    }
  }

  lemma OthersAreNotCovered(records: seq<Record>, names: set<Id>, tags: set<Tag>, names': set<Id>, tags': set<Tag>)
    requires RecordsCovered(records, names', tags') && names !! names' && tags !! tags'
    ensures forall r :: r in records ==> !Covered(KeyOf(r).id, names, tags)
  {
    forall r | r in records ensures !Covered(KeyOf(r).id, names, tags) {
      assert Covered(KeyOf(r).id, names', tags');
    }
  }

  lemma CoveredJoins(a: seq<Record>, b: seq<Record>, names: set<Id>, tags: set<Tag>)
    requires RecordsCovered(a, names, tags) && RecordsCovered(b, names, tags)
    ensures RecordsCovered(a + b, names, tags)
  {
  }

  lemma EvidenceIsCovered(evidence: seq<Evidence>, names: set<Id>, tags: set<Tag>)
    requires Named(evidence, names)
    ensures RecordsCovered(EvidenceRecords(evidence), names, tags)
  {
  }

  const BOOT_TAGS := {BootstrapPromote, BootstrapPromoted, BootstrapContinue, BootstrapDiagnose, FirstDiagnose}

  lemma BootIsCovered(c: Config, e: BootEvidence)
    requires e.model.id.Text? && e.score.id.Text?
    ensures FilesCovered(BootDisk(c, e).files, {e.model.id, e.score.id}, BOOT_TAGS)
  {
    var records := BootRecords(c, e);
    assert RecordsCovered(records, {e.model.id, e.score.id}, BOOT_TAGS);
    PayloadCovered(records, {e.model.id, e.score.id}, BOOT_TAGS);
    assert BootDisk(c, e).files == PayloadOf(records);
  }

  lemma StagesAreCovered(c: Config, s: StateSnapshot, e: DataEvidence, cost: real, names: set<Id>)
    ensures RecordsCovered(StageRecords(c, s, e, cost), names, STAGE_TAGS)
  {
  }

  lemma CoversMore(records: seq<Record>, names: set<Id>, tags: set<Tag>, names': set<Id>, tags': set<Tag>)
    requires RecordsCovered(records, names, tags) && names <= names' && tags <= tags'
    ensures RecordsCovered(records, names', tags')
  {
  }

  /** Evidence, the stages, and what follows them. */
  lemma StagedIsCovered(
    c: Config, s: StateSnapshot, e: DataEvidence, cost: real, rest: seq<Record>, names: set<Id>, tags: set<Tag>)
    requires Named(AllDataEvidence(e), names) && RecordsCovered(rest, names, tags) && STAGE_TAGS <= tags
    ensures RecordsCovered(EvidenceRecords(AllDataEvidence(e)) + StageRecords(c, s, e, cost) + rest, names, tags)
  {
    hide RecordsCovered, StageRecords, EvidenceRecords, AllDataEvidence, Named;
    var front, stages := EvidenceRecords(AllDataEvidence(e)), StageRecords(c, s, e, cost);
    EvidenceIsCovered(AllDataEvidence(e), names, tags);
    StagesAreCovered(c, s, e, cost, names);
    CoversMore(stages, names, STAGE_TAGS, names, tags);
    CoveredJoins(front, stages, names, tags);
    CoveredJoins(front + stages, rest, names, tags);
  }

  const REFUSAL_TAGS := STAGE_TAGS + {DatasetQuarantine, DatasetStop}
  const ACCEPTED_TAGS := STAGE_TAGS + {TrainStage}
  const ASKED_TAGS := STAGE_TAGS + {DatasetReview}

  lemma RejectIsCovered(c: Config, s: StateSnapshot, e: DataEvidence, dataset: Id, accepted: nat, cost: real, names: set<Id>)
    requires Named(AllDataEvidence(e), names)
    ensures RecordsCovered(RejectData(c, s, e, dataset, accepted, cost).req.records, names, REFUSAL_TAGS)
  {
    hide StageRecords, EvidenceRecords, AllDataEvidence, Ids, Named;
    var front, t := EvidenceRecords(AllDataEvidence(e)) + StageRecords(c, s, e, cost), RejectData(c, s, e, dataset, accepted, cost);
    var rest := t.req.records[|front|..];
    StagedIsCovered(c, s, e, cost, rest, names, REFUSAL_TAGS);
    assert t.req.records == front + rest;
  }

  lemma AcceptIsCovered(c: Config, s: StateSnapshot, e: DataEvidence, cost: real, names: set<Id>)
    requires Named(AllDataEvidence(e), names)
    ensures RecordsCovered(AcceptData(c, s, e, cost).req.records, names, ACCEPTED_TAGS)
  {
    hide StageRecords, EvidenceRecords, AllDataEvidence, Ids, Named;
    var front, t := EvidenceRecords(AllDataEvidence(e)) + StageRecords(c, s, e, cost), AcceptData(c, s, e, cost);
    var rest := t.req.records[|front|..];
    StagedIsCovered(c, s, e, cost, rest, names, ACCEPTED_TAGS);
    assert t.req.records == front + rest;
  }

  lemma ReviewIsCovered(c: Config, s: StateSnapshot, e: DataEvidence, request: Evidence, dataset: Id, cost: real, names: set<Id>)
    requires Named(AllDataEvidence(e), names) && request.id.Text? && request.id in names
    ensures RecordsCovered(ReviewData(c, s, e, request, dataset, cost).req.records, names, ASKED_TAGS)
  {
    hide StageRecords, EvidenceRecords, AllDataEvidence, Ids, Named;
    var front, t := EvidenceRecords(AllDataEvidence(e)) + StageRecords(c, s, e, cost), ReviewData(c, s, e, request, dataset, cost);
    var rest := t.req.records[|front|..];
    StagedIsCovered(c, s, e, cost, rest, names, ASKED_TAGS);
    assert t.req.records == front + rest;
  }

  /** What the eight evidence records of a first data turn have to be. */
  ghost predicate NewEvidence(c: Config, e: BootEvidence, evidence: seq<Evidence>) {
    && e.model.id.Text? && e.score.id.Text?
    && GoodEvidence(c.run, 1, evidence)
    && forall i :: 0 <= i < |evidence| ==> evidence[i].id.Text? && evidence[i].id !in BootIds(e)
  }

  lemma NamesAreApart(c: Config, e: BootEvidence, evidence: seq<Evidence>)
    requires NewEvidence(c, e, evidence)
    ensures Named(evidence, IdSet(evidence)) && {e.model.id, e.score.id} !! IdSet(evidence)
  {
    forall id | id in IdSet(evidence) ensures id !in {e.model.id, e.score.id} {
      var i :| 0 <= i < |evidence| && evidence[i].id == id;
      assert e.model.id in BootIds(e) && e.score.id in BootIds(e);
    }
  }

  lemma FirstIdIsFree(c: Config, e: BootEvidence)
    ensures forall tag :: tag != BootstrapTx ==> Tx(FirstHead(c, e), tag) !in BootDisk(c, e).markers
  {
    hide PayloadOf, BootRecords;
  }

  predicate RefusesDataset(c: Config, input: DataInput) {
    && input.teacher.Batch?
    && Ledger.Guard(c.limits, 0.0, 0.0, input.teacher.cost) == Ledger.Charged
    && (input.teacher.accepted == 0 || AcceptanceRate(input.teacher.accepted, input.teacher.rejected) < c.minAcceptance)
  }

  /** After bootstrap any data turn whose evidence is new can be taken. */
  lemma FirstTurnCanBeTaken(c: Config, e: BootEvidence, input: DataInput, names: set<Id>, tags: set<Tag>)
    requires FitEvidence(c, e) && NewEvidence(c, e, AllDataEvidence(input.evidence)) && {e.model.id, e.score.id} !! names
    requires c.datasetReview ==> GoodEvidence(c.run, 1, AllDataEvidence(input.evidence) + [input.reviewRequest])
    requires var t := DataTurn(c, FirstHead(c, e), input);
      && t.Commit? && t.req.tx.Minted? && t.req.tx == Tx(FirstHead(c, e), t.req.tx.tag) && t.req.tx.tag != BootstrapTx
      && t.next.metadata.materialization.None? && t.next.state != ModelReviewPending
      && RecordsCovered(t.req.records, names, tags) && BOOT_TAGS !! tags
    ensures CanTake(c, BootProcess(c, e), DataAnswer(input))
    ensures FilesCovered(Finished(BootDisk(c, e), DataTurn(c, FirstHead(c, e), input).req).files,
                         {e.model.id, e.score.id} + names, BOOT_TAGS + tags)
  {
    hide PayloadOf, BootDisk, MayStart, DataTurn, NoConflict, GoodEvidence, AllDataEvidence, DiskInv, FilesCovered, RecordsCovered,
      CommittedView, Closed, Intact, BootRequest, BootBundle, BootPointer, BundleOf, Finished, Covered;
    var head, d := FirstHead(c, e), BootDisk(c, e);
    var t := DataTurn(c, head, input);
    BootDiskView(c, e);
    IntactOf(d);
    FirstIdIsFree(c, e);
    DataTurnMayStart(c, head, d, input);
    BootIsCovered(c, e);
    OthersAreNotCovered(t.req.records, {e.model.id, e.score.id}, BOOT_TAGS, names, tags);
    NothingInCommon(d, t.req, {e.model.id, e.score.id}, BOOT_TAGS);
    CoverGrows(d, t.req, {e.model.id, e.score.id}, BOOT_TAGS, names, tags);
  }

  lemma FirstRefusal(c: Config, e: BootEvidence, input: DataInput)
    requires !c.datasetReview && FitEvidence(c, e) && RefusesDataset(c, input) && NewEvidence(c, e, AllDataEvidence(input.evidence))
    ensures CanTake(c, BootProcess(c, e), DataAnswer(input))
    ensures TurnOf(c, FirstHead(c, e), DataAnswer(input)) ==
      RejectData(c, FirstHead(c, e), input.evidence, input.teacher.dataset, input.teacher.accepted, input.teacher.cost)
  {
    hide RejectData, AcceptData, ReviewData, AbortBeforeCandidate, GoodEvidence, AllDataEvidence, IdSet, CanTake, Finished, BootDisk,
      FilesCovered, RecordsCovered, Named;
    var head, x := FirstHead(c, e), input.evidence;
    var all := AllDataEvidence(x);
    RefusalIsCommit(c, head, x, input.teacher.dataset, input.teacher.accepted, input.teacher.cost);
    NamesAreApart(c, e, all);
    RejectIsCovered(c, head, x, input.teacher.dataset, input.teacher.accepted, input.teacher.cost, IdSet(all));
    FirstTurnCanBeTaken(c, e, input, IdSet(all), REFUSAL_TAGS);
  }

  lemma IntactOf(d: Disk)
    requires DiskInv(d)
    ensures Intact(d) && Closed(CommittedView(d))
  {
  }

  lemma RefusalIsCommit(c: Config, s: StateSnapshot, e: DataEvidence, dataset: Id, accepted: nat, cost: real)
    ensures var t := RejectData(c, s, e, dataset, accepted, cost);
      && t.Commit? && t.req.tx == Tx(s, DataTx) && t.next.metadata.materialization.None? && t.next.state == Stopped
      && t.marker.Some? && t.marker.value.subjectType == DatasetSubject && t.marker.value.subject == dataset
  {
    hide StageRecords, EvidenceRecords, AllDataEvidence, Ids;
  }
}
