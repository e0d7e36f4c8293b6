/** QuarantineStore: immutable markers for rejected, rolled back or quarantined subjects. */
module QuarantineStore {
  import opened Records
  import opened ControlStore

  datatype QuarantineMarker = QuarantineMarker(
    run: Id, iteration: nat, subjectType: Subject, subject: Id, decision: Id, tx: Id,
    reasonCode: ReasonCode, evidence: seq<Id>, createdAt: int)

  datatype QuarantineKey = QuarantineKey(iteration: nat, subjectType: Subject, subject: Id)

  function QuarantineKeyOf(m: QuarantineMarker): QuarantineKey {
    QuarantineKey(m.iteration, m.subjectType, m.subject)
  }

  predicate DecisionFitsMarker(d: Decision, m: QuarantineMarker) {
    && (d.action == Action.Quarantine || d.action == Action.Reject || d.action == Rollback)
    && d.run == m.run && d.iteration == m.iteration
    && d.subjectType == m.subjectType && d.subject == m.subject
    && d.reasonCode == m.reasonCode && d.evidence == m.evidence
  }

  /** `_verify_links`. */
  ghost predicate MarkerLinksHold(control: Disk, m: QuarantineMarker) {
    var t := LoadedTransaction(control, m.tx);
    var d := LoadedRecord(control, Key(DecisionKind, m.decision));
    && t.Ok? && t.value.run == m.run && t.value.iteration == m.iteration
    && Key(DecisionKind, m.decision) in t.value.refs
    && d.Ok? && d.value.DecisionRecord? && DecisionFitsMarker(d.value.decision, m)
  }

  /** The marker repeats a decision that refuses its subject, named by its transaction. */
  ghost predicate RefusedBy(x: Decision, m: QuarantineMarker) {
    && x.id == m.decision && x.run == m.run && x.iteration == m.iteration
    && x.subjectType == m.subjectType && x.subject == m.subject
    && x.reasonCode == m.reasonCode && x.evidence == m.evidence
    && x.action in {Action.Quarantine, Action.Reject, Rollback}
  }

  ghost predicate RefusalStands(d: Disk, m: QuarantineMarker) {
    && TransactionStands(d, m.tx, m.run, m.iteration)
    && exists x :: CommittedDecision(d, m.tx, x) && RefusedBy(x, m)
  }

  /** Exactly which markers have links that hold: on an intact control store, those that repeat a committed
      refusal. */
  lemma MarkerLinksIff(d: Disk, m: QuarantineMarker)
    ensures MarkerLinksHold(d, m) <==> Intact(d) && RefusalStands(d, m)
  {
    hide TransactionStands, CommittedDecision;
    LoadsIffStands(d, m.tx, m.run, m.iteration);
    if MarkerLinksHold(d, m) {
      var x := LoadedRecord(d, Key(DecisionKind, m.decision)).value.decision;
      CommittedHasFile(d, Key(DecisionKind, m.decision));
      DecisionLoadsIff(d, m.tx, x);
      assert CommittedDecision(d, m.tx, x) && RefusedBy(x, m);
    }
    if Intact(d) && TransactionStands(d, m.tx, m.run, m.iteration) {
      forall x | CommittedDecision(d, m.tx, x) && RefusedBy(x, m) ensures MarkerLinksHold(d, m) {
        DecisionLoadsIff(d, m.tx, x);
      }
    }
  }

  ghost predicate MarkerCommits(control: Disk, quarantined: map<QuarantineKey, QuarantineMarker>, m: QuarantineMarker) {
    MarkerLinksHold(control, m) && MarkerFree(quarantined, m)
  }

  predicate MarkerFree(quarantined: map<QuarantineKey, QuarantineMarker>, m: QuarantineMarker) {
    QuarantineKeyOf(m) in quarantined ==> quarantined[QuarantineKeyOf(m)] == m
  }

  class QuarantineStore {
    const control: ControlRecordStore
    var quarantined: map<QuarantineKey, QuarantineMarker>
    var locked: bool

    constructor (control: ControlRecordStore)
      ensures this.control == control && quarantined == map[] && !locked
    {
      this.control := control;
      quarantined, locked := map[], false;
    }

    method VerifyLinks(m: QuarantineMarker) returns (ok: bool)
      ensures ok <==> MarkerLinksHold(control.View(), m)
      ensures ok <==> Intact(control.View()) && RefusalStands(control.View(), m)
    {
      MarkerLinksIff(control.View(), m);
      hide RefusalStands;
      var t := control.LoadTransaction(m.tx);
      if t.Err? || t.value.run != m.run || t.value.iteration != m.iteration {
        return false;
      }
      if Key(DecisionKind, m.decision) !in t.value.refs {
        return false;
      }
      var d := control.LoadRecord(Key(DecisionKind, m.decision));
      return d.Ok? && d.value.DecisionRecord? && DecisionFitsMarker(d.value.decision, m);
    }

    /** `commit`. The marker file is the first durable write, releasing the lock the second. */
    method Commit(m: QuarantineMarker, crashAfter: nat) returns (out: Outcome<QuarantineMarker>)
      modifies this
      ensures out.Committed? ==>
        && !old(locked) && !locked && out.value == m
        && MarkerCommits(control.View(), old(quarantined), m)
        && quarantined == old(quarantined)[QuarantineKeyOf(m) := m]
      ensures out.Committed? || out.Crashed? ==> RefusalStands(control.View(), m)
      ensures out.Failed? ==>
        && (old(locked) || !MarkerCommits(control.View(), old(quarantined), m))
        && locked == old(locked) && quarantined == old(quarantined)
      ensures out.Crashed? ==>
        && !old(locked) && locked && crashAfter < 2
        && MarkerCommits(control.View(), old(quarantined), m)
        && quarantined == if crashAfter == 0 then old(quarantined) else old(quarantined)[QuarantineKeyOf(m) := m]
    {
      hide MarkerLinksHold, RefusalStands;
      var linked := VerifyLinks(m);
      if !linked {
        return Failed(IntegrityError);
      }
      if locked {
        return Failed(LockTimeout);
      }
      if !MarkerFree(quarantined, m) {
        return Failed(ConflictError);
      }
      locked := true;
      if crashAfter == 0 {
        return Crashed;
      }
      quarantined := quarantined[QuarantineKeyOf(m) := m];
      if crashAfter == 1 {
        return Crashed;
      }
      locked := false;
      return Committed(m);
    }
  }
}
