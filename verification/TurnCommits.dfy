/** The transactions the controller builds are ones the control store accepts: their records
    fit, their keys differ, and everything they depend on is in the transaction or committed. */
module TurnCommits {
  import opened Records
  import opened ControlStore
  import opened ControlProtocol
  import opened Policy
  import opened Controller
  import opened RunState
  import Ledger = CostLedger

  /** Evidence as the adapters write it: of this run and iteration, under ids of its own. */
  ghost predicate GoodEvidence(run: Id, iteration: nat, evidence: seq<Evidence>) {
    && (forall i :: 0 <= i < |evidence| ==> evidence[i].run == run && evidence[i].iteration == iteration)
    && (forall i, j :: 0 <= i < j < |evidence| ==> evidence[i].id != evidence[j].id)
  }

  ghost predicate AllFit(records: seq<Record>, run: Id, iteration: nat) {
    forall i :: 0 <= i < |records| ==> FitsTransaction(records[i], run, iteration)
  }

  ghost predicate KeysDiffer(records: seq<Record>) {
    forall i, j :: 0 <= i < j < |records| ==> KeyOf(records[i]) != KeyOf(records[j])
  }

  ghost predicate KeysApart(a: seq<Record>, b: seq<Record>) {
    forall i, j :: 0 <= i < |a| && 0 <= j < |b| ==> KeyOf(a[i]) != KeyOf(b[j])
  }

  /** What a record needs, given the evidence ids and the decisions that are to hand. */
  predicate NeedsOnly(r: Record, evidence: set<Id>, decisions: set<Id>) {
    && (forall e :: e in EvidenceIds(r) ==> e in evidence)
    && (DecisionRef(r).Some? ==> DecisionRef(r).value in decisions)
  }

  ghost predicate AllNeedOnly(records: seq<Record>, evidence: set<Id>, decisions: set<Id>) {
    forall i :: 0 <= i < |records| ==> NeedsOnly(records[i], evidence, decisions)
  }

  /** Lists that can be put side by side in one transaction. */
  ghost predicate Neat(records: seq<Record>, run: Id, iteration: nat, evidence: set<Id>, decisions: set<Id>) {
    AllFit(records, run, iteration) && KeysDiffer(records) && AllNeedOnly(records, evidence, decisions)
  }

  lemma NeatJoins(a: seq<Record>, b: seq<Record>, run: Id, iteration: nat, evidence: set<Id>, decisions: set<Id>)
    requires Neat(a, run, iteration, evidence, decisions) && Neat(b, run, iteration, evidence, decisions) && KeysApart(a, b)
    ensures Neat(a + b, run, iteration, evidence, decisions)
  {
    hide KeyOf, FitsTransaction, NeedsOnly;
  }

  ghost predicate EvidenceToHand(available: Payload, run: Id, iteration: nat, ids: set<Id>) {
    forall e :: e in ids ==>
      var k := Key(EvidenceKind, e);
      && k in available && available[k].EvidenceRecord? && RunOf(available[k]) == run && IterationOf(available[k]) <= iteration
  }

  ghost predicate DecisionsToHand(available: Payload, run: Id, iteration: nat, ids: set<Id>) {
    forall e :: e in ids ==>
      var k := Key(DecisionKind, e);
      && k in available && available[k].DecisionRecord? && RunOf(available[k]) == run && IterationOf(available[k]) == iteration
  }

  lemma NeedsAreMet(r: Record, available: Payload, run: Id, iteration: nat, evidence: set<Id>, decisions: set<Id>)
    requires NeedsOnly(r, evidence, decisions) && FitsTransaction(r, run, iteration)
    requires EvidenceToHand(available, run, iteration, evidence) && DecisionsToHand(available, run, iteration, decisions)
    ensures DependenciesHold(r, available)
  {
    forall e | e in EvidenceIds(r) ensures EvidenceDependency(r, e, available) {}
  }

  /** A neat list that brings or finds its evidence and its decisions may start. */
  lemma NeatMayStart(d: Disk, req: Request, evidence: set<Id>, decisions: set<Id>)
    requires Intact(d) && req.tx !in d.markers && req.records != []
    requires Neat(req.records, req.run, req.iteration, evidence, decisions)
    requires forall e :: e in evidence ==> Brings(req.records, Key(EvidenceKind, e)) || Finds(CommittedView(d), req.run, req.iteration, e)
    requires forall e :: e in decisions ==>
      Brings(req.records, Key(DecisionKind, e)) || FindsDecision(CommittedView(d), req.run, req.iteration, e)
    ensures MayStart(d, req)
  {
    assert Admissible(req);
    var p := PayloadOf(req.records);
    var available := CommittedView(d) + p;
    hide PayloadOf, KeyOf, CommittedView, Intact, NeedsOnly, DependenciesHold;
    PayloadFacts(req.records);
    forall e | e in evidence
      ensures var k := Key(EvidenceKind, e);
        k in available && available[k].EvidenceRecord? && RunOf(available[k]) == req.run && IterationOf(available[k]) <= req.iteration
    {
      if Brings(req.records, Key(EvidenceKind, e)) { BroughtIsToHand(req, Key(EvidenceKind, e)); }
      else if Key(EvidenceKind, e) in p { PayloadIsBrought(req, Key(EvidenceKind, e)); }
    }
    forall e | e in decisions
      ensures var k := Key(DecisionKind, e);
        k in available && available[k].DecisionRecord? && RunOf(available[k]) == req.run && IterationOf(available[k]) == req.iteration
    {
      if Brings(req.records, Key(DecisionKind, e)) { BroughtIsToHand(req, Key(DecisionKind, e)); }
      else if Key(DecisionKind, e) in p { PayloadIsBrought(req, Key(DecisionKind, e)); }
    }
    forall k | k in p ensures DependenciesHold(p[k], available) {
      var i :| 0 <= i < |req.records| && req.records[i] == p[k];
      NeedsAreMet(p[k], available, req.run, req.iteration, evidence, decisions);
    }
  }

  ghost predicate Brings(records: seq<Record>, k: Key) {
    exists i :: 0 <= i < |records| && KeyOf(records[i]) == k
  }

  ghost predicate Finds(view: Payload, run: Id, iteration: nat, e: Id) {
    var k := Key(EvidenceKind, e);
    k in view && view[k].EvidenceRecord? && RunOf(view[k]) == run && IterationOf(view[k]) <= iteration
  }

  ghost predicate FindsDecision(view: Payload, run: Id, iteration: nat, e: Id) {
    var k := Key(DecisionKind, e);
    k in view && view[k].DecisionRecord? && RunOf(view[k]) == run && IterationOf(view[k]) == iteration
  }

  /** The decision a snapshot names, if it names one. */
  function NamedDecision(s: StateSnapshot): set<Id> {
    if s.metadata.decision.Some? then {s.metadata.decision.value} else {}
  }

  ghost predicate DecisionFound(d: Disk, s: StateSnapshot) {
    forall e :: e in NamedDecision(s) ==> FindsDecision(CommittedView(d), s.run, s.iteration, e)
  }

  lemma BroughtIsToHand(req: Request, k: Key)
    requires Admissible(req) && Brings(req.records, k)
    ensures var p := PayloadOf(req.records);
      && k in p && p[k] in req.records && KeyOf(p[k]) == k && RunOf(p[k]) == req.run
      && (k.kind == EvidenceKind ==> p[k].EvidenceRecord? && IterationOf(p[k]) == req.iteration)
      && (k.kind == DecisionKind ==> p[k].DecisionRecord? && IterationOf(p[k]) == req.iteration)
  {
    hide PayloadOf;
    var i :| 0 <= i < |req.records| && KeyOf(req.records[i]) == k;
    PayloadKeeps(req, req.records[i]);
    assert FitsTransaction(req.records[i], req.run, req.iteration);
  }

  lemma PayloadIsBrought(req: Request, k: Key)
    requires k in PayloadOf(req.records)
    ensures Brings(req.records, k)
  {
    PayloadFacts(req.records);
    var i :| 0 <= i < |req.records| && req.records[i] == PayloadOf(req.records)[k];
  }

  // ---- Neat lists ----

  /** Records minted under one of these tags, none of them evidence. */
  ghost predicate Tagged(records: seq<Record>, tags: set<Tag>) {
    forall i :: 0 <= i < |records| ==> HasTag(records[i], tags)
  }

  predicate HasTag(r: Record, tags: set<Tag>) {
    var id := KeyOf(r).id;
    !r.EvidenceRecord? && (id.Minted? || id.MintedFor?) && id.tag in tags
  }

  lemma TagsApart(a: seq<Record>, b: seq<Record>, s: set<Tag>, t: set<Tag>)
    requires Tagged(a, s) && Tagged(b, t) && s !! t
    ensures KeysApart(a, b)
  {
    forall i, j | 0 <= i < |a| && 0 <= j < |b| ensures KeyOf(a[i]) != KeyOf(b[j]) {
      assert HasTag(a[i], s) && HasTag(b[j], t);
    }
  }

  lemma TagsJoin(a: seq<Record>, b: seq<Record>, s: set<Tag>, t: set<Tag>)
    requires Tagged(a, s) && Tagged(b, t)
    ensures Tagged(a + b, s + t)
  {
    forall i | 0 <= i < |a + b| ensures HasTag((a + b)[i], s + t) {
      if i < |a| { assert HasTag(a[i], s); } else { assert HasTag(b[i - |a|], t); }
    }
  }

  lemma EvidenceIsNeat(run: Id, iteration: nat, evidence: seq<Evidence>, ids: set<Id>, decisions: set<Id>)
    requires GoodEvidence(run, iteration, evidence)
    ensures Neat(EvidenceRecords(evidence), run, iteration, ids, decisions)
  {
  }

  lemma EvidenceApart(evidence: seq<Evidence>, b: seq<Record>, tags: set<Tag>)
    requires Tagged(b, tags)
    ensures KeysApart(EvidenceRecords(evidence), b)
  {
    forall i, j | 0 <= i < |evidence| && 0 <= j < |b|
      ensures KeyOf(EvidenceRecords(evidence)[i]) != KeyOf(b[j])
    {
      assert HasTag(b[j], tags);
    }
  }

  /** Evidence in front of tagged records. */
  lemma EvidenceFirst(
    run: Id, iteration: nat, evidence: seq<Evidence>, rest: seq<Record>, tags: set<Tag>, ids: set<Id>, decisions: set<Id>)
    requires GoodEvidence(run, iteration, evidence)
    requires Neat(rest, run, iteration, ids, decisions) && Tagged(rest, tags)
    ensures Neat(EvidenceRecords(evidence) + rest, run, iteration, ids, decisions)
  {
    hide Neat, EvidenceRecords;
    EvidenceIsNeat(run, iteration, evidence, ids, decisions);
    EvidenceApart(evidence, rest, tags);
    NeatJoins(EvidenceRecords(evidence), rest, run, iteration, ids, decisions);
  }

  /** Two tagged lists without a common tag. */
  lemma TaggedNeatJoins(
    a: seq<Record>, b: seq<Record>, s: set<Tag>, t: set<Tag>, run: Id, iteration: nat, ids: set<Id>, decisions: set<Id>)
    requires Tagged(a, s) && Tagged(b, t) && s !! t
    requires Neat(a, run, iteration, ids, decisions) && Neat(b, run, iteration, ids, decisions)
    ensures Neat(a + b, run, iteration, ids, decisions) && Tagged(a + b, s + t)
  {
    hide Neat;
    TagsApart(a, b, s, t);
    TagsJoin(a, b, s, t);
    NeatJoins(a, b, run, iteration, ids, decisions);
  }

  lemma OneIsNeat(r: Record, tag: Tag, run: Id, iteration: nat, ids: set<Id>, decisions: set<Id>)
    requires FitsTransaction(r, run, iteration) && NeedsOnly(r, ids, decisions) && HasTag(r, {tag})
    ensures Neat([r], run, iteration, ids, decisions) && Tagged([r], {tag})
  {
  }

  // ---- Data turns ----

  function IdSet(evidence: seq<Evidence>): set<Id> {
    set i | 0 <= i < |evidence| :: evidence[i].id
  }

  const STAGE_TAGS := {HypothesisStage, SynthesizeStage, VerifyStage}

  lemma MoveAndSnapshotAreNeat(m: Record, s: StateSnapshot, tag: Tag, run: Id, iteration: nat, ids: set<Id>, decisions: set<Id>)
    requires m.TransitionRecord? && FitsTransaction(m, run, iteration) && FitsTransaction(SnapshotRecord(s), run, iteration)
    requires NeedsOnly(m, ids, decisions) && NeedsOnly(SnapshotRecord(s), ids, decisions)
    requires HasTag(m, {tag}) && HasTag(SnapshotRecord(s), {tag})
    ensures Neat([m, SnapshotRecord(s)], run, iteration, ids, decisions) && Tagged([m, SnapshotRecord(s)], {tag})
  {
  }

  lemma AllIsListed(e: DataEvidence)
    ensures var ids := IdSet(AllDataEvidence(e));
      && e.diagnostic.id in ids && e.hypothesis.id in ids && e.synthesis.id in ids && e.raw.id in ids
      && e.audit.id in ids && e.accepted.id in ids && e.quarantine.id in ids && e.cost.id in ids
  {
    var all := AllDataEvidence(e);
    assert all[0].id in IdSet(all) && all[1].id in IdSet(all) && all[2].id in IdSet(all) && all[3].id in IdSet(all);
    assert all[4].id in IdSet(all) && all[5].id in IdSet(all) && all[6].id in IdSet(all) && all[7].id in IdSet(all);
  }

  lemma StageIsNeat(
    s: StateSnapshot, tag: Tag, target: ControlState, from: ControlState, at: int, evidence: seq<Id>, cost: real,
    ids: set<Id>, decisions: set<Id>)
    requires forall e :: e in evidence ==> e in ids
    ensures var stage := [Move(s, tag, target, from, at, None, evidence),
                          SnapshotRecord(Snap(s, target, at, tag, None, None, evidence, DataMetadata(cost)))];
      Neat(stage, s.run, s.iteration, ids, decisions) && Tagged(stage, {tag})
  {
    MoveAndSnapshotAreNeat(Move(s, tag, target, from, at, None, evidence),
                           Snap(s, target, at, tag, None, None, evidence, DataMetadata(cost)),
                           tag, s.run, s.iteration, ids, decisions);
  }

  lemma StagesAreNeat(c: Config, s: StateSnapshot, e: DataEvidence, cost: real, decisions: set<Id>)
    ensures Neat(StageRecords(c, s, e, cost), s.run, s.iteration, IdSet(AllDataEvidence(e)), decisions)
    ensures Tagged(StageRecords(c, s, e, cost), STAGE_TAGS)
  {
    hide Neat, Tagged, IdSet, AllDataEvidence, Move, Snap, At;
    var i, ids, stages := s.iteration, IdSet(AllDataEvidence(e)), StageRecords(c, s, e, cost);
    var verify := [e.synthesis.id, e.raw.id, e.cost.id, e.audit.id, e.accepted.id, e.quarantine.id];
    AllIsListed(e);
    StageIsNeat(s, HypothesisStage, Hypothesis, Diagnose, At(c, i, 10), [e.diagnostic.id], cost, ids, decisions);
    StageIsNeat(s, SynthesizeStage, Synthesize, Hypothesis, At(c, i, 20), [e.hypothesis.id], cost, ids, decisions);
    StageIsNeat(s, VerifyStage, Verify, Synthesize, At(c, i, 40), verify, cost, ids, decisions);
    var one := [stages[0], stages[1]];
    var two := [stages[2], stages[3]];
    var three := [stages[4], stages[5]];
    assert stages == one + two + three;
    TaggedNeatJoins(one, two, {HypothesisStage}, {SynthesizeStage}, s.run, i, ids, decisions);
    TaggedNeatJoins(one + two, three, {HypothesisStage} + {SynthesizeStage}, {VerifyStage}, s.run, i, ids, decisions);
    assert {HypothesisStage} + {SynthesizeStage} + {VerifyStage} == STAGE_TAGS;
  }

  lemma EvidenceIsBrought(evidence: seq<Evidence>, rest: seq<Record>, id: Id)
    requires id in IdSet(evidence)
    ensures Brings(EvidenceRecords(evidence) + rest, Key(EvidenceKind, id))
  {
    var i :| 0 <= i < |evidence| && evidence[i].id == id;
    assert KeyOf((EvidenceRecords(evidence) + rest)[i]) == Key(EvidenceKind, id);
  }

  lemma IdsAreInSet(evidence: seq<Evidence>)
    ensures forall e :: e in Ids(evidence) ==> e in IdSet(evidence)
  {
  }

  /** An accepted dataset's transaction may start wherever its id is free. */
  lemma AcceptMayStart(c: Config, s: StateSnapshot, d: Disk, e: DataEvidence, cost: real)
    requires Intact(d) && GoodEvidence(s.run, s.iteration, AllDataEvidence(e))
    requires AcceptData(c, s, e, cost).req.tx !in d.markers
    ensures MayStart(d, AcceptData(c, s, e, cost).req)
  {
    hide Neat, StageRecords, EvidenceRecords, AllDataEvidence, Ids, IdSet, Brings, Intact, MayStart;
    var all := AllDataEvidence(e);
    var ids := IdSet(all);
    var t := AcceptData(c, s, e, cost);
    var moved := Move(s, TrainStage, Train, Verify, At(c, s.iteration, 50), None, Ids(all));
    var stages := StageRecords(c, s, e, cost);
    IdsAreInSet(all);
    StagesAreNeat(c, s, e, cost, {});
    MoveAndSnapshotAreNeat(moved, t.next, TrainStage, s.run, s.iteration, ids, {});
    TaggedNeatJoins(stages, [moved, SnapshotRecord(t.next)], STAGE_TAGS, {TrainStage}, s.run, s.iteration, ids, {});
    EvidenceFirst(s.run, s.iteration, all, stages + [moved, SnapshotRecord(t.next)], STAGE_TAGS + {TrainStage}, ids, {});
    assert t.req.records == EvidenceRecords(all) + (stages + [moved, SnapshotRecord(t.next)]);
    forall id | id in ids ensures Brings(t.req.records, Key(EvidenceKind, id)) {
      EvidenceIsBrought(all, stages + [moved, SnapshotRecord(t.next)], id);
    }
    NeatMayStart(d, t.req, ids, {});
  }

  /** A decision, the transition it causes and the snapshot that follows. */
  lemma TrioIsNeat(
    d: Decision, m: Record, s: StateSnapshot, tag: Tag, run: Id, iteration: nat, ids: set<Id>, decisions: set<Id>)
    requires d.run == run && d.iteration == iteration && (forall e :: e in d.evidence ==> e in ids) && d.id in decisions
    requires m.TransitionRecord? && FitsTransaction(m, run, iteration) && NeedsOnly(m, ids, decisions)
    requires FitsTransaction(SnapshotRecord(s), run, iteration) && NeedsOnly(SnapshotRecord(s), ids, decisions)
    requires HasTag(DecisionRecord(d), {tag}) && HasTag(m, {tag}) && HasTag(SnapshotRecord(s), {tag})
    ensures Neat([DecisionRecord(d), m, SnapshotRecord(s)], run, iteration, ids, decisions)
    ensures Tagged([DecisionRecord(d), m, SnapshotRecord(s)], {tag})
  {
  }

  lemma BroughtAt(records: seq<Record>, i: nat)
    requires i < |records|
    ensures Brings(records, KeyOf(records[i]))
  {
  }

  lemma AbortMayStart(c: Config, s: StateSnapshot, d: Disk, evidence: seq<Evidence>, stop: StopReason)
    requires Intact(d) && GoodEvidence(s.run, s.iteration, evidence)
    requires AbortBeforeCandidate(c, s, evidence, stop).req.tx !in d.markers
    ensures MayStart(d, AbortBeforeCandidate(c, s, evidence, stop).req)
  {
    hide Neat, EvidenceRecords, Ids, IdSet, Brings, Intact, MayStart;
    var t, at, ids := AbortBeforeCandidate(c, s, evidence, stop), At(c, s.iteration, 35), IdSet(evidence);
    var x := Judge(s, PreCandidateAbort, RunSubject, s.run, Abort, StopCode(stop), at, Some(stop), Ids(evidence));
    var m := Move(s, PreCandidateAbort, Aborted, s.state, at, Some(x.id), x.evidence);
    var trio := [DecisionRecord(x), m, SnapshotRecord(t.next)];
    IdsAreInSet(evidence);
    TrioIsNeat(x, m, t.next, PreCandidateAbort, s.run, s.iteration, ids, {x.id});
    EvidenceFirst(s.run, s.iteration, evidence, trio, {PreCandidateAbort}, ids, {x.id});
    assert t.req.records == EvidenceRecords(evidence) + trio;
    forall id | id in ids ensures Brings(t.req.records, Key(EvidenceKind, id)) { EvidenceIsBrought(evidence, trio, id); }
    BroughtAt(t.req.records, |EvidenceRecords(evidence)|);
    NeatMayStart(d, t.req, ids, {x.id});
  }

  lemma RejectMayStart(c: Config, s: StateSnapshot, d: Disk, e: DataEvidence, dataset: Id, accepted: nat, cost: real)
    requires Intact(d) && GoodEvidence(s.run, s.iteration, AllDataEvidence(e))
    requires RejectData(c, s, e, dataset, accepted, cost).req.tx !in d.markers
    ensures MayStart(d, RejectData(c, s, e, dataset, accepted, cost).req)
  {
    hide Neat, StageRecords, EvidenceRecords, AllDataEvidence, Ids, IdSet, Brings, Intact, MayStart;
    var t, all := RejectData(c, s, e, dataset, accepted, cost), AllDataEvidence(e);
    var ids, stages := IdSet(all), StageRecords(c, s, e, cost);
    var stop := if accepted == 0 then NoAcceptedData else LowAcceptance;
    var at, later := At(c, s.iteration, 50), At(c, s.iteration, 51);
    var q := Judge(s, DatasetQuarantine, DatasetSubject, dataset, Quarantine, StopCode(stop), at, Some(stop), Ids(all));
    var x := Judge(s, DatasetStop, RunSubject, s.run, Stop, StopCode(stop), later, Some(stop), Ids(all));
    var quarantined := Snap(s, Quarantined, at, DatasetQuarantine, None, None, Ids(all),
                            DataMetadata(cost).(decision := Some(q.id)));
    var moved := Move(s, DatasetQuarantine, Quarantined, Verify, at, Some(q.id), Ids(all));
    var stopped := Move(s, DatasetStop, Stopped, Quarantined, later, Some(x.id), Ids(all));
    var first, second := [DecisionRecord(q), moved, SnapshotRecord(quarantined)], [DecisionRecord(x), stopped, SnapshotRecord(t.next)];
    var decisions := {q.id, x.id};
    IdsAreInSet(all);
    StagesAreNeat(c, s, e, cost, decisions);
    TrioIsNeat(q, moved, quarantined, DatasetQuarantine, s.run, s.iteration, ids, decisions);
    TrioIsNeat(x, stopped, t.next, DatasetStop, s.run, s.iteration, ids, decisions);
    TaggedNeatJoins(stages, first, STAGE_TAGS, {DatasetQuarantine}, s.run, s.iteration, ids, decisions);
    TaggedNeatJoins(stages + first, second, STAGE_TAGS + {DatasetQuarantine}, {DatasetStop}, s.run, s.iteration, ids, decisions);
    var rest := stages + first + second;
    EvidenceFirst(s.run, s.iteration, all, rest, STAGE_TAGS + {DatasetQuarantine} + {DatasetStop}, ids, decisions);
    assert t.req.records == EvidenceRecords(all) + rest;
    forall id | id in ids ensures Brings(t.req.records, Key(EvidenceKind, id)) { EvidenceIsBrought(all, rest, id); }
    var n := |EvidenceRecords(all)| + |stages|;
    assert t.req.records[n] == DecisionRecord(q) && t.req.records[n + 3] == DecisionRecord(x);
    BroughtAt(t.req.records, n);
    BroughtAt(t.req.records, n + 3);
    NeatMayStart(d, t.req, ids, decisions);
  }

  lemma CommittedEvidenceIsFound(d: Disk, s: StateSnapshot, e: Id)
    requires Closed(CommittedView(d)) && InView(CommittedView(d), s.run, s) && e in s.evidence
    ensures Finds(CommittedView(d), s.run, s.iteration, e)
  {
    hide CommittedView;
    assert DependenciesHold(SnapshotRecord(s), CommittedView(d));
    assert EvidenceDependency(SnapshotRecord(s), e, CommittedView(d));
  }

  lemma AbortAfterDataMayStart(c: Config, s: StateSnapshot, d: Disk)
    requires Intact(d) && Closed(CommittedView(d)) && InView(CommittedView(d), s.run, s)
    requires AbortAfterData(c, s).req.tx !in d.markers
    ensures MayStart(d, AbortAfterData(c, s).req)
  {
    hide Neat, Brings, Intact, MayStart, Closed, CommittedView, Finds;
    var t, at := AbortAfterData(c, s), At(c, s.iteration, 75);
    var ids := set e | e in s.evidence;
    var x := Judge(s, CandidateExecutionAbort, RunSubject, s.run, Abort, CandidateExecutionFailed, at, Some(InternalError), s.evidence);
    var m := Move(s, CandidateExecutionAbort, Aborted, s.state, at, Some(x.id), s.evidence);
    TrioIsNeat(x, m, t.next, CandidateExecutionAbort, s.run, s.iteration, ids, {x.id});
    assert t.req.records == [DecisionRecord(x), m, SnapshotRecord(t.next)];
    BroughtAt(t.req.records, 0);
    forall e | e in ids ensures Finds(CommittedView(d), s.run, s.iteration, e) { CommittedEvidenceIsFound(d, s, e); }
    NeatMayStart(d, t.req, ids, {x.id});
  }

  // ---- Policy turns ----

  /** One edge of a policy step: its three records name each other and one phase. */
  predicate IsEdge(step: PolicyStep, i: nat, s: StateSnapshot, o: Observation)
    requires i < |step.decisions| == |step.transitions| == |step.snapshots|
  {
    var d, t, n := step.decisions[i], step.transitions[i], step.snapshots[i];
    && d.run == s.run && d.iteration == s.iteration && t.run == s.run && t.iteration == s.iteration && n.run == s.run
    && (n.iteration == s.iteration || n.iteration == s.iteration + 1)
    && d.evidence == o.evidence && t.evidence == o.evidence && n.evidence == o.evidence
    && d.id == PolicyId(DecisionId, s, n.state, o) && t.id == PolicyId(TransitionId, s, n.state, o)
    && n.id == PolicyId(SnapshotId, s, n.state, o)
    && t.decision == Some(d.id) && n.metadata.decision == Some(d.id)
    && n.state in PHASES
  }

  const PHASES := {Promoted, Rejected, RolledBack, Aborted, Stopped, Diagnose}

  predicate HasEdges(step: PolicyStep, s: StateSnapshot, o: Observation) {
    && 1 <= |step.decisions| == |step.transitions| == |step.snapshots| <= 2
    && (forall i :: 0 <= i < |step.decisions| ==> IsEdge(step, i, s, o))
    && (|step.decisions| == 2 ==> step.snapshots[0].state != step.snapshots[1].state)
  }

  lemma StepHasEdges(limits: Limits, s: StateSnapshot, o: Observation)
    requires EvaluateCandidate(limits, s, o).Decided?
    ensures HasEdges(EvaluateCandidate(limits, s, o).step, s, o)
  {
    hide Advance;
    var edge := PrimaryEdge(limits, s, o);
    var step := CandidateStep(s, o, edge);
    assert HasEdges(step, s, o);
    if edge.target == Promoted || edge.target == Rejected { AdvanceHasEdges(limits, step, s, o); }
  }

  predicate OneEdge(step: PolicyStep, s: StateSnapshot, o: Observation) {
    |step.decisions| == |step.transitions| == |step.snapshots| == 1 && IsEdge(step, 0, s, o) && step.snapshots[0].iteration == s.iteration
  }

  predicate TwoEdges(a: PolicyStep, s: StateSnapshot, o: Observation) {
    |a.decisions| == |a.transitions| == |a.snapshots| == 2 && IsEdge(a, 0, s, o) && IsEdge(a, 1, s, o)
  }

  lemma EdgeIsAppended(
    step: PolicyStep, s: StateSnapshot, o: Observation, target: ControlState, action: Action, code: ReasonCode,
    stop: Option<StopReason>, iteration: nat)
    requires OneEdge(step, s, o) && target in PHASES
    requires iteration == s.iteration || iteration == s.iteration + 1
    ensures var a := AppendRunDecision(step, o, target, action, code, stop, iteration);
      TwoEdges(a, s, o) && a.snapshots[0] == step.snapshots[0] && a.snapshots[1].state == target
  {
    var a := AppendRunDecision(step, o, target, action, code, stop, iteration);
    assert a.decisions[0] == step.decisions[0] && a.transitions[0] == step.transitions[0] && a.snapshots[0] == step.snapshots[0];
  }

  lemma AppendHasEdges(
    step: PolicyStep, s: StateSnapshot, o: Observation, target: ControlState, action: Action, code: ReasonCode,
    stop: Option<StopReason>, iteration: nat)
    requires OneEdge(step, s, o) && target in PHASES && target != step.snapshots[0].state
    requires iteration == s.iteration || iteration == s.iteration + 1
    ensures HasEdges(AppendRunDecision(step, o, target, action, code, stop, iteration), s, o)
  {
    hide AppendRunDecision, IsEdge;
    EdgeIsAppended(step, s, o, target, action, code, stop, iteration);
  }

  lemma AdvanceHasEdges(limits: Limits, step: PolicyStep, s: StateSnapshot, o: Observation)
    requires OneEdge(step, s, o) && (step.snapshots[0].state == Promoted || step.snapshots[0].state == Rejected)
    ensures HasEdges(Advance(limits, step, o), s, o)
  {
    hide HasEdges, AppendRunDecision, IsEdge;
    AppendHasEdges(step, s, o, Stopped, Stop, PlateauReached, Some(Plateau), s.iteration);
    AppendHasEdges(step, s, o, Stopped, Stop, MaxIterationsReached, Some(MaxIterations), s.iteration);
    AppendHasEdges(step, s, o, Diagnose, Continue, NextIteration, None, s.iteration + 1);
  }

  lemma EdgesPair(step: PolicyStep, s: StateSnapshot, o: Observation)
    requires HasEdges(step, s, o)
    ensures |step.snapshots| == |step.decisions|
  {
  }

  const POLICY_TAGS := set p | p in PHASES :: PolicyPhase(p)

  function DecisionIds(step: PolicyStep): set<Id> {
    set i | 0 <= i < |step.decisions| :: step.decisions[i].id
  }

  lemma PolicyRecordAt(step: PolicyStep, s: StateSnapshot, o: Observation, k: nat)
    requires HasEdges(step, s, o) && k < |PolicyRecords(step)|
    ensures var n, r := |step.decisions|, PolicyRecords(step)[k];
      && |PolicyRecords(step)| == 3 * n
      && (k < n ==> r == DecisionRecord(step.decisions[k]))
      && (n <= k < 2 * n ==> r == TransitionRecord(step.transitions[k - n]))
      && (2 * n <= k ==> r == SnapshotRecord(step.snapshots[k - 2 * n]))
  {
  }

  lemma PolicyRecordIsFine(step: PolicyStep, s: StateSnapshot, o: Observation, k: nat, ids: set<Id>, decisions: set<Id>)
    requires HasEdges(step, s, o) && k < |PolicyRecords(step)|
    requires (forall e :: e in o.evidence ==> e in ids) && DecisionIds(step) <= decisions
    ensures var r := PolicyRecords(step)[k];
      FitsTransaction(r, s.run, s.iteration) && NeedsOnly(r, ids, decisions) && HasTag(r, POLICY_TAGS)
  {
    hide PolicyRecords;
    PolicyRecordAt(step, s, o, k);
    var n := |step.decisions|;
    var i := if k < n then k else if k < 2 * n then k - n else k - 2 * n;
    assert IsEdge(step, i, s, o) && step.decisions[i].id in DecisionIds(step);
  }

  lemma PolicyKeysDiffer(step: PolicyStep, s: StateSnapshot, o: Observation)
    requires HasEdges(step, s, o)
    ensures KeysDiffer(PolicyRecords(step))
  {
    hide PolicyRecords;
    var n := |step.decisions|;
    assert IsEdge(step, 0, s, o);
    if n == 2 { assert IsEdge(step, 1, s, o); }
    forall j, k | 0 <= j < k < |PolicyRecords(step)| ensures KeyOf(PolicyRecords(step)[j]) != KeyOf(PolicyRecords(step)[k]) {
      PolicyRecordAt(step, s, o, j);
      PolicyRecordAt(step, s, o, k);
    }
  }

  lemma PolicyRecordsAreNeat(step: PolicyStep, s: StateSnapshot, o: Observation, ids: set<Id>, decisions: set<Id>)
    requires HasEdges(step, s, o) && (forall e :: e in o.evidence ==> e in ids) && DecisionIds(step) <= decisions
    ensures Neat(PolicyRecords(step), s.run, s.iteration, ids, decisions) && Tagged(PolicyRecords(step), POLICY_TAGS)
  {
    hide PolicyRecords, HasEdges, DecisionIds, FitsTransaction, NeedsOnly, HasTag;
    PolicyKeysDiffer(step, s, o);
    forall k | 0 <= k < |PolicyRecords(step)|
      ensures var r := PolicyRecords(step)[k];
        FitsTransaction(r, s.run, s.iteration) && NeedsOnly(r, ids, decisions) && HasTag(r, POLICY_TAGS)
    {
      PolicyRecordIsFine(step, s, o, k, ids, decisions);
    }
  }

  lemma CandidateRecordsAreNeat(
    c: Config, s: StateSnapshot, input: CandidateInput, evaluate: StateSnapshot, ids: set<Id>, decisions: set<Id>)
    requires input.Evaluated? && NamedDecision(s) <= decisions && evaluate.metadata.decision == s.metadata.decision
    requires evaluate.run == s.run && evaluate.iteration == s.iteration
    requires evaluate.id == Minted(SnapshotId, s.run, s.iteration, EvaluateStage)
    requires input.serving.id in ids && (forall e :: e in Ids(input.evidence) ==> e in ids) && evaluate.evidence == Ids(input.evidence)
    ensures Neat(CandidateRecords(c, s, input, evaluate), s.run, s.iteration, ids, decisions)
    ensures Tagged(CandidateRecords(c, s, input, evaluate), {ServeStage, EvaluateStage})
  {
    hide Ids;
  }

  lemma FinalEdge(step: PolicyStep, s: StateSnapshot, o: Observation)
    requires HasEdges(step, s, o)
    ensures step.snapshots != [] && step.decisions != []
    ensures var final := FinalOf(step);
      && final.run == s.run && (final.iteration == s.iteration || final.iteration == s.iteration + 1) && final.evidence == o.evidence
      && final.metadata.decision.Some? && final.metadata.decision.value in DecisionIds(step)
  {
    var k := |step.snapshots| - 1;
    assert IsEdge(step, k, s, o) && step.decisions[k].id in DecisionIds(step);
  }

  lemma MaterializedFields(c: Config, evaluate: StateSnapshot, f: CandidateFacts, step: PolicyStep, tag: Tag)
    requires step.snapshots != [] && step.decisions != []
    ensures var next, final := Materialized(c, evaluate, f, step, tag), FinalOf(step);
      && next.id == MintedFor(SnapshotId, evaluate.run, evaluate.iteration, tag, f.checkpoint)
      && next.run == final.run && next.iteration == final.iteration && next.evidence == final.evidence
      && next.metadata.decision == final.metadata.decision
  {
    hide FinalOf;
  }

  lemma MaterializedIsNeat(
    c: Config, s: StateSnapshot, evaluate: StateSnapshot, f: CandidateFacts, o: Observation, step: PolicyStep, tag: Tag, ids: set<Id>,
    decisions: set<Id>)
    requires evaluate.run == s.run && evaluate.iteration == s.iteration
    requires HasEdges(step, evaluate, o) && (forall e :: e in o.evidence ==> e in ids) && DecisionIds(step) <= decisions
    ensures step.snapshots != [] && step.decisions != []
    ensures var next := Materialized(c, evaluate, f, step, tag);
      && Neat([SnapshotRecord(next)], s.run, s.iteration, ids, decisions)
      && Tagged([SnapshotRecord(next)], {tag})
  {
    FinalEdge(step, evaluate, o);
    MaterializedFields(c, evaluate, f, step, tag);
    hide Materialized, FinalOf, HasEdges;
    var next := Materialized(c, evaluate, f, step, tag);
    OneIsNeat(SnapshotRecord(next), tag, s.run, s.iteration, ids, decisions);
  }

  lemma DecisionsAreBrought(front: seq<Record>, step: PolicyStep, s: StateSnapshot, o: Observation, back: seq<Record>, id: Id)
    requires HasEdges(step, s, o) && id in DecisionIds(step)
    ensures Brings(front + PolicyRecords(step) + back, Key(DecisionKind, id))
  {
    hide PolicyRecords, HasEdges;
    EdgesPair(step, s, o);
    var i :| 0 <= i < |step.decisions| && step.decisions[i].id == id;
    PolicyLength(step);
    PolicyRecordAt(step, s, o, i);
    var records := front + PolicyRecords(step) + back;
    assert records[|front| + i] == DecisionRecord(step.decisions[i]);
    BroughtAt(records, |front| + i);
  }

  lemma PolicyLength(step: PolicyStep)
    ensures |PolicyRecords(step)| >= |step.decisions|
  {
  }

  lemma PolicyTurnMayStart(
    c: Config, s: StateSnapshot, d: Disk, input: CandidateInput, evaluate: StateSnapshot, o: Observation, step: PolicyStep)
    requires input.Evaluated? && input.serving.id in IdSet(input.evidence)
    requires Intact(d) && GoodEvidence(s.run, s.iteration, input.evidence)
    requires DecisionFound(d, s) && evaluate.metadata.decision == s.metadata.decision
    requires evaluate.run == s.run && evaluate.iteration == s.iteration && evaluate.evidence == Ids(input.evidence)
    requires evaluate.id == Minted(SnapshotId, s.run, s.iteration, EvaluateStage)
    requires HasEdges(step, evaluate, o) && o.evidence == Ids(input.evidence)
    requires step.snapshots != [] && step.decisions != []
    requires Tx(evaluate, CandidateTx) !in d.markers
    ensures var before := EvidenceRecords(input.evidence) + CandidateRecords(c, s, input, evaluate);
      MayStart(d, PolicyTurn(c, evaluate, FactsOf(input), step, before, CandidateTx).req)
  {
    hide Neat, HasEdges, EvidenceRecords, CandidateRecords, PolicyRecords, Ids, IdSet, DecisionIds, Brings, Intact, MayStart, NamedDecision,
      FindsDecision, CommittedView, Materialized, FinalOf;
    var ids, decisions := IdSet(input.evidence), DecisionIds(step) + NamedDecision(s);
    var stage, policy := CandidateRecords(c, s, input, evaluate), PolicyRecords(step);
    var t := PolicyTurn(c, evaluate, FactsOf(input), step, EvidenceRecords(input.evidence) + stage, CandidateTx);
    var last := [SnapshotRecord(t.next)];
    IdsAreInSet(input.evidence);
    CandidateRecordsAreNeat(c, s, input, evaluate, ids, decisions);
    PolicyRecordsAreNeat(step, evaluate, o, ids, decisions);
    MaterializedIsNeat(c, s, evaluate, FactsOf(input), o, step, CandidateTx, ids, decisions);
    PolicyTagsApart();
    TaggedNeatJoins(stage, policy, {ServeStage, EvaluateStage}, POLICY_TAGS, s.run, s.iteration, ids, decisions);
    TaggedNeatJoins(stage + policy, last, {ServeStage, EvaluateStage} + POLICY_TAGS, {CandidateTx}, s.run, s.iteration, ids, decisions);
    var rest := stage + policy + last;
    EvidenceFirst(s.run, s.iteration, input.evidence, rest, {ServeStage, EvaluateStage} + POLICY_TAGS + {CandidateTx}, ids, decisions);
    assert t.req.records == EvidenceRecords(input.evidence) + rest;
    forall id | id in ids ensures Brings(t.req.records, Key(EvidenceKind, id)) { EvidenceIsBrought(input.evidence, rest, id); }
    forall id | id in DecisionIds(step) ensures Brings(t.req.records, Key(DecisionKind, id)) {
      DecisionsAreBrought(EvidenceRecords(input.evidence) + stage, step, evaluate, o, last, id);
      assert t.req.records == EvidenceRecords(input.evidence) + stage + policy + last;
    }
    NeatMayStart(d, t.req, ids, decisions);
  }

  lemma PolicyTagsApart()
    ensures {ServeStage, EvaluateStage} !! POLICY_TAGS && ({ServeStage, EvaluateStage} + POLICY_TAGS) !! {CandidateTx}
  {
  }

  // ---- Requests for a review ----

  lemma ApartIsSymmetric(a: seq<Record>, b: seq<Record>)
    requires KeysApart(a, b)
    ensures KeysApart(b, a)
  {
  }

  lemma ApartJoins(a: seq<Record>, b: seq<Record>, z: seq<Record>)
    requires KeysApart(a, z) && KeysApart(b, z)
    ensures KeysApart(a + b, z)
  {
  }

  /** One more piece of evidence, whose id is its own. */
  lemma OneMoreEvidence(run: Id, iteration: nat, all: seq<Evidence>, request: Evidence, ids: set<Id>, decisions: set<Id>)
    requires GoodEvidence(run, iteration, all + [request])
    ensures GoodEvidence(run, iteration, all) && Neat([EvidenceRecord(request)], run, iteration, ids, decisions)
    ensures KeysApart(EvidenceRecords(all), [EvidenceRecord(request)])
    ensures IdSet(all + [request]) == IdSet(all) + {request.id}
  {
    var both := all + [request];
    assert both[|all|] == request;
    forall i | 0 <= i < |all| ensures all[i].id != request.id && all[i].run == run && all[i].iteration == iteration {
      assert both[i] == all[i];
    }
    forall i, j | 0 <= i < j < |all| ensures all[i].id != all[j].id { assert both[i] == all[i] && both[j] == all[j]; }
    forall id ensures id in IdSet(both) <==> id in IdSet(all) || id == request.id {
      if id in IdSet(all) { var i :| 0 <= i < |all| && all[i].id == id; assert both[i].id == id; }
    }
  }

  lemma RequestApart(request: Evidence, b: seq<Record>, tags: set<Tag>)
    requires Tagged(b, tags)
    ensures KeysApart([EvidenceRecord(request)], b) && KeysApart(b, [EvidenceRecord(request)])
  {
    EvidenceApart([request], b, tags);
    assert EvidenceRecords([request]) == [EvidenceRecord(request)];
  }

  /** Evidence and the stages it supports, then the request for a review and the decision that
      makes it. */
  lemma RequestIsNeat(
    run: Id, iteration: nat, all: seq<Evidence>, stages: seq<Record>, s: set<Tag>, request: Evidence, trio: seq<Record>, t: set<Tag>,
    ids: set<Id>, decisions: set<Id>)
    requires GoodEvidence(run, iteration, all + [request]) && s !! t
    requires Neat(stages, run, iteration, ids, decisions) && Tagged(stages, s)
    requires Neat(trio, run, iteration, ids, decisions) && Tagged(trio, t)
    ensures Neat(EvidenceRecords(all) + stages + ([EvidenceRecord(request)] + trio), run, iteration, ids, decisions)
  {
    hide Neat, Tagged, KeysApart, EvidenceRecords, GoodEvidence;
    OneMoreEvidence(run, iteration, all, request, ids, decisions);
    var front, asked := EvidenceRecords(all), [EvidenceRecord(request)];
    EvidenceFirst(run, iteration, all, stages, s, ids, decisions);
    RequestApart(request, stages, s);
    RequestApart(request, trio, t);
    ApartJoins(front, stages, asked);
    EvidenceApart(all, trio, t);
    TagsApart(stages, trio, s, t);
    ApartJoins(front, stages, trio);
    NeatJoins(asked, trio, run, iteration, ids, decisions);
    ApartIsSymmetric(front + stages, asked);
    ApartIsSymmetric(front + stages, trio);
    ApartJoins(asked, trio, front + stages);
    ApartIsSymmetric(asked + trio, front + stages);
    NeatJoins(front + stages, asked + trio, run, iteration, ids, decisions);
  }

  lemma RequestMayStart(
    d: Disk, req: Request, all: seq<Evidence>, stages: seq<Record>, s: set<Tag>, request: Evidence,
    x: Decision, m: Record, next: StateSnapshot, tag: Tag, ids: set<Id>, named: set<Id>)
    requires Intact(d) && req.tx !in d.markers && GoodEvidence(req.run, req.iteration, all + [request])
    requires ids == IdSet(all + [request]) && tag !in s
    requires Neat(stages, req.run, req.iteration, ids, {x.id} + named) && Tagged(stages, s)
    requires Neat([DecisionRecord(x), m, SnapshotRecord(next)], req.run, req.iteration, ids, {x.id} + named)
    requires Tagged([DecisionRecord(x), m, SnapshotRecord(next)], {tag})
    requires req.records == EvidenceRecords(all) + stages + ([EvidenceRecord(request)] + [DecisionRecord(x), m, SnapshotRecord(next)])
    requires forall id :: id in named ==> FindsDecision(CommittedView(d), req.run, req.iteration, id)
    ensures MayStart(d, req)
  {
    hide Neat, Tagged, KeysApart, EvidenceRecords, GoodEvidence, Brings, Intact, MayStart, IdSet, FindsDecision, CommittedView;
    var trio := [DecisionRecord(x), m, SnapshotRecord(next)];
    RequestIsNeat(req.run, req.iteration, all, stages, s, request, trio, {tag}, ids, {x.id} + named);
    OneMoreEvidence(req.run, req.iteration, all, request, ids, {x.id} + named);
    var n := |EvidenceRecords(all)| + |stages|;
    assert req.records[n] == EvidenceRecord(request) && req.records[n + 1] == DecisionRecord(x);
    BroughtAt(req.records, n);
    BroughtAt(req.records, n + 1);
    forall id | id in ids ensures Brings(req.records, Key(EvidenceKind, id)) {
      if id != request.id {
        EvidenceIsBrought(all, stages + ([EvidenceRecord(request)] + trio), id);
        assert req.records == EvidenceRecords(all) + (stages + ([EvidenceRecord(request)] + trio));
      }
    }
    NeatMayStart(d, req, ids, {x.id} + named);
  }

  lemma NeedsMore(records: seq<Record>, run: Id, iteration: nat, ids: set<Id>, more: set<Id>, decisions: set<Id>)
    requires Neat(records, run, iteration, ids, decisions) && ids <= more
    ensures Neat(records, run, iteration, more, decisions)
  {
    forall i | 0 <= i < |records| ensures NeedsOnly(records[i], more, decisions) {
      assert NeedsOnly(records[i], ids, decisions);
    }
  }

  lemma ReviewDataMayStart(c: Config, s: StateSnapshot, d: Disk, e: DataEvidence, request: Evidence, dataset: Id, cost: real)
    requires Intact(d) && GoodEvidence(s.run, s.iteration, AllDataEvidence(e) + [request])
    requires ReviewData(c, s, e, request, dataset, cost).req.tx !in d.markers
    ensures MayStart(d, ReviewData(c, s, e, request, dataset, cost).req)
  {
    hide Neat, StageRecords, EvidenceRecords, IdSet, Brings, Intact, MayStart, GoodEvidence;
    var t, all := ReviewData(c, s, e, request, dataset, cost), AllDataEvidence(e);
    var at, ids, stages := At(c, s.iteration, 50), IdSet(all + [request]), StageRecords(c, s, e, cost);
    var x := Judge(s, DatasetReview, DatasetSubject, dataset, RequestApproval, DatasetReviewRequired, at, None,
                   [e.accepted.id, e.audit.id, request.id]);
    var m := Move(s, DatasetReview, DataReviewPending, Verify, at, Some(x.id), x.evidence);
    var decisions := {x.id} + {};
    OneMoreEvidence(s.run, s.iteration, all, request, ids, decisions);
    StagesAreNeat(c, s, e, cost, decisions);
    NeedsMore(stages, s.run, s.iteration, IdSet(all), ids, decisions);
    AllIsListed(e);
    TrioIsNeat(x, m, t.next, DatasetReview, s.run, s.iteration, ids, decisions);
    var trio := [DecisionRecord(x), m, SnapshotRecord(t.next)];
    assert t.req.records == EvidenceRecords(all) + stages + ([EvidenceRecord(request)] + trio);
    RequestMayStart(d, t.req, all, stages, STAGE_TAGS, request, x, m, t.next, DatasetReview, ids, {});
  }

  lemma ReviewModelMayStart(
    c: Config, s: StateSnapshot, d: Disk, input: CandidateInput, evaluate: StateSnapshot, before: seq<Record>)
    requires input.Evaluated? && Intact(d) && GoodEvidence(s.run, s.iteration, input.evidence + [input.reviewRequest])
    requires input.serving.id in IdSet(input.evidence)
    requires DecisionFound(d, s) && evaluate.metadata.decision == s.metadata.decision
    requires evaluate.run == s.run && evaluate.iteration == s.iteration && evaluate.evidence == Ids(input.evidence)
    requires evaluate.id == Minted(SnapshotId, s.run, s.iteration, EvaluateStage)
    requires before == EvidenceRecords(input.evidence) + CandidateRecords(c, s, input, evaluate)
    requires Tx(s, CandidatePendingReview) !in d.markers
    ensures MayStart(d, ReviewModel(c, evaluate, FactsOf(input), input.reviewRequest, before).req)
  {
    hide Neat, EvidenceRecords, CandidateRecords, Ids, IdSet, Brings, Intact, MayStart, GoodEvidence, NamedDecision,
      FindsDecision, CommittedView;
    var all, request, f := input.evidence, input.reviewRequest, FactsOf(input);
    var t := ReviewModel(c, evaluate, f, request, before);
    var at, ids, stages := At(c, s.iteration, 90), IdSet(all + [request]), CandidateRecords(c, s, input, evaluate);
    var x := Judge(evaluate, ModelReview, CheckpointSubject, f.checkpoint, RequestApproval, ModelReviewRequired, at, None,
                   AddId(f.evidence, request.id));
    var m := Move(evaluate, ModelReview, ModelReviewPending, Evaluate, at, Some(x.id), x.evidence);
    var decisions := {x.id} + NamedDecision(s);
    OneMoreEvidence(s.run, s.iteration, all, request, ids, decisions);
    IdsAreInSet(all);
    CandidateRecordsAreNeat(c, s, input, evaluate, ids, decisions);
    TrioIsNeat(x, m, t.next, ModelReview, s.run, s.iteration, ids, decisions);
    var trio := [DecisionRecord(x), m, SnapshotRecord(t.next)];
    assert t.req.records == EvidenceRecords(all) + stages + ([EvidenceRecord(request)] + trio);
    RequestMayStart(d, t.req, all, stages, {ServeStage, EvaluateStage}, request, x, m, t.next, ModelReview, ids, NamedDecision(s));
  }

  // ---- Answers to a review ----

  /** One piece of evidence, one decision, one move and the snapshot it ends in. */
  lemma QuartetMayStart(d: Disk, req: Request, e: Evidence, x: Decision, m: Record, next: StateSnapshot, ids: set<Id>)
    requires Intact(d) && req.tx !in d.markers
    requires req.records == [EvidenceRecord(e), DecisionRecord(x), m, SnapshotRecord(next)]
    requires e.run == req.run && e.iteration == req.iteration && x.run == req.run && x.iteration == req.iteration
    requires m.TransitionRecord? && FitsTransaction(m, req.run, req.iteration)
    requires FitsTransaction(SnapshotRecord(next), req.run, req.iteration)
    requires NeedsOnly(DecisionRecord(x), ids, {x.id}) && NeedsOnly(m, ids, {x.id}) && NeedsOnly(SnapshotRecord(next), ids, {x.id})
    requires forall id :: id in ids ==> id == e.id || Finds(CommittedView(d), req.run, req.iteration, id)
    ensures MayStart(d, req)
  {
    assert Neat(req.records, req.run, req.iteration, ids, {x.id});
    hide Neat, NeedsOnly, FitsTransaction, Intact, MayStart, Brings, Finds, CommittedView;
    BroughtAt(req.records, 0);
    BroughtAt(req.records, 1);
    NeatMayStart(d, req, ids, {x.id});
  }

  /** What the approval service hands over: evidence and a decision of the pending snapshot's run
      and iteration, resting on what is committed; nothing else for a review that expired. */
  ghost predicate FitReview(d: Disk, pending: StateSnapshot, review: Review) {
    match review
    case ReviewExpired(request, _) => request.run == pending.run && request.iteration == pending.iteration
    case ReviewDecided(_, _, request, evidence, decision) =>
      && Finds(CommittedView(d), pending.run, pending.iteration, request.id)
      && evidence.run == pending.run && evidence.iteration == pending.iteration
      && decision.run == pending.run && decision.iteration == pending.iteration
      && forall id :: id in decision.evidence ==>
           id == evidence.id || Finds(CommittedView(d), pending.run, pending.iteration, id)
    case _ => true
  }

  lemma AddedIds(ids: seq<Id>, id: Id)
    ensures forall x :: x in AddId(ids, id) <==> x in ids || x == id
  {
  }

  lemma StopMayStart(c: Config, pending: StateSnapshot, d: Disk, review: Review)
    requires Intact(d) && Closed(CommittedView(d)) && InView(CommittedView(d), pending.run, pending)
    requires (review.ReviewExpired? || review.ReviewDecided?) && FitReview(d, pending, review)
    requires StopForApproval(c, pending, review).req.tx !in d.markers
    ensures MayStart(d, StopForApproval(c, pending, review).req)
  {
    hide Intact, MayStart, Closed, CommittedView, InView, Finds, AddId;
    var t := StopForApproval(c, pending, review);
    var e := if review.ReviewDecided? then review.evidence else review.request;
    var x := t.req.records[1].decision;
    var asked := AddId(pending.evidence, review.request.id);
    AddedIds(pending.evidence, review.request.id);
    if review.ReviewDecided? { AddedIds(asked, review.evidence.id); }
    var ids := (set id | id in t.next.evidence) + (set id | id in x.evidence);
    forall id | id in pending.evidence ensures Finds(CommittedView(d), pending.run, pending.iteration, id) {
      CommittedEvidenceIsFound(d, pending, id);
    }
    QuartetMayStart(d, t.req, e, x, t.req.records[2], t.next, ids);
  }

  lemma DataApprovalMayStart(c: Config, pending: StateSnapshot, d: Disk, review: Review)
    requires Intact(d) && Closed(CommittedView(d)) && InView(CommittedView(d), pending.run, pending)
    requires review.ReviewDecided? && review.approved && FitReview(d, pending, review)
    requires DataReviewTurn(c, pending, review).req.tx !in d.markers
    ensures MayStart(d, DataReviewTurn(c, pending, review).req)
  {
    hide Intact, MayStart, Closed, CommittedView, InView, Finds, AddId;
    var t, x := DataReviewTurn(c, pending, review), review.decision;
    AddedIds(pending.evidence, review.request.id);
    AddedIds(AddId(pending.evidence, review.request.id), review.evidence.id);
    var ids := (set id | id in t.next.evidence) + (set id | id in x.evidence);
    forall id | id in pending.evidence ensures Finds(CommittedView(d), pending.run, pending.iteration, id) {
      CommittedEvidenceIsFound(d, pending, id);
    }
    QuartetMayStart(d, t.req, review.evidence, x, t.req.records[2], t.next, ids);
  }

  /** Any answer to a dataset's review is, under a free id, a transaction the store accepts. */
  lemma DataReviewMayStart(c: Config, pending: StateSnapshot, d: Disk, review: Review)
    requires Intact(d) && Closed(CommittedView(d)) && InView(CommittedView(d), pending.run, pending) && FitReview(d, pending, review)
    requires DataReviewTurn(c, pending, review).Commit? && DataReviewTurn(c, pending, review).req.tx !in d.markers
    ensures MayStart(d, DataReviewTurn(c, pending, review).req)
  {
    hide Intact, MayStart, Closed, CommittedView, InView, FitReview, StopForApproval, AddId;
    if review.ReviewDecided? && review.approved {
      DataApprovalMayStart(c, pending, d, review);
    } else {
      StopMayStart(c, pending, d, review);
    }
  }

  // ---- An approved promotion ----

  /** The approval and the evaluation it repeats. */
  lemma ApprovalIsNeat(e: Evidence, x: Decision, evaluate: StateSnapshot, run: Id, iteration: nat, ids: set<Id>, decisions: set<Id>)
    requires e.run == run && e.iteration == iteration && x.run == run && x.iteration == iteration
    requires evaluate.run == run && evaluate.iteration == iteration
    requires NeedsOnly(DecisionRecord(x), ids, decisions) && NeedsOnly(SnapshotRecord(evaluate), ids, decisions)
    ensures Neat([EvidenceRecord(e), DecisionRecord(x), SnapshotRecord(evaluate)], run, iteration, ids, decisions)
  {
  }

  lemma ApprovalApart(e: Evidence, x: Decision, evaluate: StateSnapshot, b: seq<Record>, tags: set<Tag>)
    requires x.id.Text? && !evaluate.id.Text? && evaluate.id.tag == EvaluateAfterApproval && EvaluateAfterApproval !in tags
    requires Tagged(b, tags)
    ensures KeysApart([EvidenceRecord(e), DecisionRecord(x), SnapshotRecord(evaluate)], b)
  {
    forall j | 0 <= j < |b| ensures
      KeyOf(EvidenceRecord(e)) != KeyOf(b[j]) && KeyOf(DecisionRecord(x)) != KeyOf(b[j]) && KeyOf(SnapshotRecord(evaluate)) != KeyOf(b[j])
    {
      assert HasTag(b[j], tags);
    }
  }

  lemma ApprovedRecordsAreNeat(
    c: Config, pending: StateSnapshot, evaluate: StateSnapshot, f: CandidateFacts, o: Observation, step: PolicyStep,
    e: Evidence, x: Decision, ids: set<Id>, decisions: set<Id>)
    requires evaluate.run == pending.run && evaluate.iteration == pending.iteration
    requires !evaluate.id.Text? && evaluate.id.tag == EvaluateAfterApproval
    requires e.run == pending.run && e.iteration == pending.iteration
    requires x.run == pending.run && x.iteration == pending.iteration && x.id.Text?
    requires HasEdges(step, evaluate, o) && step.snapshots != [] && step.decisions != []
    requires (forall id :: id in o.evidence ==> id in ids) && (forall id :: id in evaluate.evidence ==> id in ids)
    requires (forall id :: id in x.evidence ==> id in ids) && DecisionIds(step) + NamedDecision(evaluate) <= decisions
    ensures Neat([EvidenceRecord(e), DecisionRecord(x), SnapshotRecord(evaluate)]
                 + (PolicyRecords(step) + [SnapshotRecord(Materialized(c, evaluate, f, step, ModelReviewApproved))]),
                 pending.run, pending.iteration, ids, decisions)
  {
    hide Neat, HasEdges, PolicyRecords, DecisionIds, Materialized, FinalOf, KeysApart, Tagged;
    var first, policy := [EvidenceRecord(e), DecisionRecord(x), SnapshotRecord(evaluate)], PolicyRecords(step);
    var last := [SnapshotRecord(Materialized(c, evaluate, f, step, ModelReviewApproved))];
    NamesItsDecision(evaluate, decisions);
    ApprovalIsNeat(e, x, evaluate, pending.run, pending.iteration, ids, decisions);
    PolicyRecordsAreNeat(step, evaluate, o, ids, decisions);
    MaterializedIsNeat(c, pending, evaluate, f, o, step, ModelReviewApproved, ids, decisions);
    ApprovalTagsApart();
    TaggedNeatJoins(policy, last, POLICY_TAGS, {ModelReviewApproved}, pending.run, pending.iteration, ids, decisions);
    ApprovalApart(e, x, evaluate, policy + last, POLICY_TAGS + {ModelReviewApproved});
    NeatJoins(first, policy + last, pending.run, pending.iteration, ids, decisions);
  }

  /** An approved promotion is, under a free id, a transaction the store accepts: what the policy
      decides again rests on the committed evidence of the pending snapshot. */
  lemma ModelApprovalMayStart(c: Config, pending: StateSnapshot, d: Disk, review: Review)
    requires Intact(d) && Closed(CommittedView(d)) && InView(CommittedView(d), pending.run, pending) && DecisionFound(d, pending)
    requires review.ReviewDecided? && review.approved && FitReview(d, pending, review) && review.decision.id.Text?
    requires ModelReviewTurn(c, pending, review).Commit? && ModelReviewTurn(c, pending, review).req.tx !in d.markers
    requires forall e :: e in pending.metadata.candidate.value.evidence ==> e in pending.evidence
    ensures MayStart(d, ModelReviewTurn(c, pending, review).req)
  {
    hide Neat, HasEdges, PolicyRecords, DecisionIds, Brings, Intact, MayStart, FindsDecision, CommittedView, Closed, InView, Finds,
      Materialized, FinalOf, EvaluateCandidate, KeysApart, Tagged, StopForApproval;
    var f, x := pending.metadata.candidate.value, review.decision;
    var evaluate := EvaluateSnapshot(pending, f, review.decidedAt, EvaluateAfterApproval, pending.metadata);
    var o := Observe(f, evaluate.iteration, evaluate.metadata.iterationCost, evaluate.enteredAt).value;
    var step := JudgeCandidate(c, evaluate, f).step;
    var t := ModelReviewTurn(c, pending, review);
    var first, last := [EvidenceRecord(review.evidence), DecisionRecord(x), SnapshotRecord(evaluate)], [SnapshotRecord(t.next)];
    var ids := (set e | e in f.evidence) + (set e | e in x.evidence) + {review.evidence.id};
    var decisions := DecisionIds(step) + NamedDecision(pending) + {x.id};
    StepHasEdges(c.limits, evaluate, o);
    ApprovedRecordsAreNeat(c, pending, evaluate, f, o, step, review.evidence, x, ids, decisions);
    assert t.req.records == first + (PolicyRecords(step) + last) == first + PolicyRecords(step) + last;
    BroughtAt(t.req.records, 0);
    BroughtAt(t.req.records, 1);
    forall id | id in DecisionIds(step) ensures Brings(t.req.records, Key(DecisionKind, id)) {
      DecisionsAreBrought(first, step, evaluate, o, last, id);
    }
    forall e | e in f.evidence ensures Finds(CommittedView(d), pending.run, pending.iteration, e) {
      CommittedEvidenceIsFound(d, pending, e);
    }
    NeatMayStart(d, t.req, ids, decisions);
  }

  /** So is any answer to a model's review. */
  lemma ModelReviewMayStart(c: Config, pending: StateSnapshot, d: Disk, review: Review)
    requires Intact(d) && Closed(CommittedView(d)) && InView(CommittedView(d), pending.run, pending) && DecisionFound(d, pending)
    requires FitReview(d, pending, review) && (review.ReviewDecided? ==> review.decision.id.Text?)
    requires ModelReviewTurn(c, pending, review).Commit? && ModelReviewTurn(c, pending, review).req.tx !in d.markers
    requires pending.metadata.candidate.Some? ==> forall e :: e in pending.metadata.candidate.value.evidence ==> e in pending.evidence
    ensures MayStart(d, ModelReviewTurn(c, pending, review).req)
  {
    hide Intact, MayStart, Closed, CommittedView, InView, FitReview, StopForApproval, JudgeCandidate, PolicyTurn, DecisionFound;
    if review.ReviewDecided? && review.approved {
      ModelApprovalMayStart(c, pending, d, review);
    } else {
      StopMayStart(c, pending, d, review);
    }
  }

  lemma NamesItsDecision(s: StateSnapshot, decisions: set<Id>)
    requires NamedDecision(s) <= decisions
    ensures DecisionRef(SnapshotRecord(s)).Some? ==> DecisionRef(SnapshotRecord(s)).value in decisions
  {
  }

  lemma ApprovalTagsApart()
    ensures POLICY_TAGS !! {ModelReviewApproved} && EvaluateAfterApproval !in POLICY_TAGS + {ModelReviewApproved}
  {
  }

  // ---- Every turn ----

  /** Any data turn short of the last iteration is, under a free id, a transaction the store
      accepts. */
  lemma DataTurnMayStart(c: Config, s: StateSnapshot, d: Disk, input: DataInput)
    requires s.state == Diagnose && s.iteration <= c.limits.maxIterations
    requires Intact(d) && GoodEvidence(s.run, s.iteration, AllDataEvidence(input.evidence))
    requires c.datasetReview ==> GoodEvidence(s.run, s.iteration, AllDataEvidence(input.evidence) + [input.reviewRequest])
    requires DataTurn(c, s, input).Commit? && DataTurn(c, s, input).req.tx !in d.markers
    ensures MayStart(d, DataTurn(c, s, input).req)
  {
    hide MayStart, Intact, AcceptData, RejectData, ReviewData, AbortBeforeCandidate, GoodEvidence;
    var e := input.evidence;
    var begun := [e.diagnostic, e.hypothesis];
    FirstTwoAreGood(s.run, s.iteration, e);
    match input.teacher
    case CircuitOpen => AbortMayStart(c, s, d, begun, ProviderCircuitOpen);
    case TeacherFailed => AbortMayStart(c, s, d, begun, InternalError);
    case Batch(cost, accepted, rejected, dataset) =>
      match Ledger.Guard(c.limits, 0.0, s.totalCost, cost)
      case NegativeAmount => AbortMayStart(c, s, d, begun, InternalError);
      case IterationBudget => AbortMayStart(c, s, d, begun, PerIterationBudgetExceeded);
      case TotalBudget => AbortMayStart(c, s, d, begun, TotalBudgetExceeded);
      case Charged =>
        if accepted == 0 || AcceptanceRate(accepted, rejected) < c.minAcceptance {
          RejectMayStart(c, s, d, e, dataset, accepted, cost);
        } else if c.datasetReview {
          ReviewDataMayStart(c, s, d, e, input.reviewRequest, dataset, cost);
        } else {
          AcceptMayStart(c, s, d, e, cost);
        }
  }

  lemma FirstTwoAreGood(run: Id, iteration: nat, e: DataEvidence)
    requires GoodEvidence(run, iteration, AllDataEvidence(e))
    ensures GoodEvidence(run, iteration, [e.diagnostic, e.hypothesis])
  {
    var all := AllDataEvidence(e);
    assert all[0] == e.diagnostic && all[1] == e.hypothesis;
  }

  /** So is a candidate turn, from a committed training snapshot. */
  lemma CandidateTurnMayStart(c: Config, s: StateSnapshot, d: Disk, input: CandidateInput)
    requires s.state == Train && DecisionFound(d, s)
    requires Intact(d) && Closed(CommittedView(d)) && InView(CommittedView(d), s.run, s)
    requires input.Evaluated? ==> GoodEvidence(s.run, s.iteration, input.evidence) && input.serving.id in IdSet(input.evidence)
    requires input.Evaluated? && c.checkpointReview ==> GoodEvidence(s.run, s.iteration, input.evidence + [input.reviewRequest])
    requires CandidateTurn(c, s, input).Commit? && CandidateTurn(c, s, input).req.tx !in d.markers
    ensures MayStart(d, CandidateTurn(c, s, input).req)
  {
    hide MayStart, Intact, Closed, CommittedView, AbortAfterData, EvaluateCandidate, EvidenceRecords, CandidateRecords, PolicyRecords,
      Ids, IdSet, HasEdges, Materialized, GoodEvidence, InView, DecisionFound;
    if input.ExecutionFailed? {
      AbortAfterDataMayStart(c, s, d);
    } else {
      var f := FactsOf(input);
      var m := s.metadata.(iterationCost := s.metadata.iterationCost + input.cost, candidate := Some(f));
      var evaluate := EvaluateSnapshot(s, f, At(c, s.iteration, 80), EvaluateStage, m);
      var o := Observe(f, evaluate.iteration, m.iterationCost, evaluate.enteredAt);
      var step := JudgeCandidate(c, evaluate, f).step;
      if step.decisions[0].action == Promote && c.checkpointReview {
        ReviewModelMayStart(c, s, d, input, evaluate, EvidenceRecords(input.evidence) + CandidateRecords(c, s, input, evaluate));
      } else {
        StepHasEdges(c.limits, evaluate, o.value);
        PolicyTurnMayStart(c, s, d, input, evaluate, o.value, step);
      }
    }
  }
}
