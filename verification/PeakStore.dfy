/** PeakPointerStore: a compare-and-swap pointer to the accepted checkpoint, which re-verifies
    its links into the control store and the checkpoint store on every access. */
module PeakStore {
  import opened Records
  import opened ControlStore
  import opened CheckpointStore

  datatype PeakPointerFields = PeakPointerFields(
    run: Id, checkpoint: Id, previous: Option<Id>, model: Id, iteration: nat, score: real,
    decision: Id, tx: Id, bundle: BundleDigest, updatedAt: int)

  /** A pointer that names itself as previous cannot be constructed. */
  type PeakPointer = p: PeakPointerFields | p.previous != Some(p.checkpoint)
    witness PeakPointerFields(Text(""), Text("a"), None, Text(""), 0, 0.0, Text(""), Text(""),
      BundleDigest(BundleManifest(Text("a"), Text(""), 0, "",
        Sha256(CheckpointPayload(Text("a"), Text(""), 0, Text(""), None, 0.0, StatusNone, None, Text(""), None, None)),
        Sha256(LineageManifest(Text("a"), Text(""), 0, Text(""), None, 0.0, StatusNone, "", Text(""), 0)),
        Text(""), 0)), 0)

  /** History files are named after the iteration and the checkpoint. */
  datatype HistoryKey = HistoryKey(iteration: nat, checkpoint: Id)

  function HistoryKeyOf(p: PeakPointer): HistoryKey {
    HistoryKey(p.iteration, p.checkpoint)
  }

  predicate ScoresClose(a: real, b: real) {
    -EPSILON <= a - b <= EPSILON
  }

  predicate PromotesCheckpoint(d: Decision, p: PeakPointer) {
    && d.action == Promote && d.subjectType == CheckpointSubject && d.subject == p.checkpoint
    && d.run == p.run && d.iteration == p.iteration
  }

  predicate BundleFitsPointer(b: Bundle, p: PeakPointer) {
    && b.manifest.run == p.run && b.manifest.iteration == p.iteration && b.manifest.tx == p.tx
    && BundleDigest(b.manifest) == p.bundle && b.lineage.model == p.model
    && ScoresClose(b.lineage.score, p.score)
  }

  ghost predicate DecisionLinkHolds(control: Disk, p: PeakPointer) {
    var t := LoadedTransaction(control, p.tx);
    var d := LoadedRecord(control, Key(DecisionKind, p.decision));
    && t.Ok? && t.value.run == p.run && t.value.iteration == p.iteration
    && Key(DecisionKind, p.decision) in t.value.refs
    && d.Ok? && d.value.DecisionRecord? && PromotesCheckpoint(d.value.decision, p)
  }

  ghost predicate BundleLinkHolds(control: Disk, bundles: map<Id, Bundle>, p: PeakPointer) {
    var b := LoadedBundle(control, bundles, p.checkpoint, None);
    b.Ok? && BundleFitsPointer(b.value, p)
  }

  /** `_verify_links`. */
  ghost predicate LinksHold(control: Disk, bundles: map<Id, Bundle>, p: PeakPointer) {
    DecisionLinkHolds(control, p) && BundleLinkHolds(control, bundles, p)
  }

  // ---- What the links mean ----

  /** The pointer's decision: a committed promotion of its checkpoint, of its run and iteration, named by
      its transaction. */
  ghost predicate IsPromotion(x: Decision, p: PeakPointer) {
    && x.id == p.decision && x.run == p.run && x.iteration == p.iteration
    && x.subjectType == CheckpointSubject && x.subject == p.checkpoint && x.action == Promote
  }

  /** The pointer's bundle: published under its checkpoint by its run, iteration and transaction, of its
      model, with its exact manifest, and a score that differs by no more than a millionth of a millionth. */
  ghost predicate IsItsBundle(b: Bundle, p: PeakPointer) {
    && b.manifest == p.bundle.of && b.manifest.run == p.run && b.manifest.iteration == p.iteration && b.manifest.tx == p.tx
    && b.lineage.model == p.model
    && b.lineage.score <= p.score + 0.000000000001 && p.score <= b.lineage.score + 0.000000000001
  }

  ghost predicate Backed(d: Disk, bundles: map<Id, Bundle>, p: PeakPointer) {
    && TransactionStands(d, p.tx, p.run, p.iteration)
    && (exists x :: CommittedDecision(d, p.tx, x) && IsPromotion(x, p))
    && p.checkpoint in bundles && Whole(d, bundles[p.checkpoint], p.checkpoint) && IsItsBundle(bundles[p.checkpoint], p)
  }

  /** Exactly which pointers have links that hold: on an intact control store, those that are backed by a
      committed promotion and by a bundle. */
  lemma LinksHoldIff(d: Disk, bundles: map<Id, Bundle>, p: PeakPointer)
    ensures LinksHold(d, bundles, p) <==> Intact(d) && Backed(d, bundles, p)
  {
    hide TransactionStands, Whole, Intact, LoadedTransaction, CommittedView, BundleLoads, CommittedDecision;
    LoadsIffStands(d, p.tx, p.run, p.iteration);
    if p.checkpoint in bundles { BundleLoadsIff(d, bundles[p.checkpoint], p.checkpoint, None); }
    DecisionLinkIff(d, p);
  }

  lemma DecisionLinkIff(d: Disk, p: PeakPointer)
    ensures DecisionLinkHolds(d, p) <==>
      && Intact(d) && TransactionStands(d, p.tx, p.run, p.iteration)
      && exists x :: CommittedDecision(d, p.tx, x) && IsPromotion(x, p)
  {
    hide TransactionStands, CommittedDecision;
    LoadsIffStands(d, p.tx, p.run, p.iteration);
    if DecisionLinkHolds(d, p) {
      var x := LoadedRecord(d, Key(DecisionKind, p.decision)).value.decision;
      CommittedHasFile(d, Key(DecisionKind, p.decision));
      DecisionLoadsIff(d, p.tx, x);
      assert CommittedDecision(d, p.tx, x) && IsPromotion(x, p);
    }
    if Intact(d) && TransactionStands(d, p.tx, p.run, p.iteration) {
      forall x | CommittedDecision(d, p.tx, x) && IsPromotion(x, p) ensures DecisionLinkHolds(d, p) {
        DecisionLoadsIff(d, p.tx, x);
      }
    }
  }

  ghost predicate CurrentLoads(control: Disk, bundles: map<Id, Bundle>, current: Option<PeakPointer>) {
    current.Some? ==> LinksHold(control, bundles, current.value)
  }

  /** The compare-and-swap guard proper: what relates the new pointer to the current one. */
  predicate Succeeds(current: Option<PeakPointer>, p: PeakPointer, expected: Option<Id>) {
    && (if current.Some? then Some(current.value.checkpoint) else None) == expected
    && p.previous == expected
    && (current.Some? ==> current.value.iteration <= p.iteration && current.value.score < p.score)
  }

  predicate HistoryFree(history: map<HistoryKey, PeakPointer>, p: PeakPointer) {
    HistoryKeyOf(p) in history ==> history[HistoryKeyOf(p)] == p
  }

  /** Exactly when a call that is not a replay may write. */
  ghost predicate MayInstall(
    control: Disk, bundles: map<Id, Bundle>, current: Option<PeakPointer>,
    history: map<HistoryKey, PeakPointer>, p: PeakPointer, expected: Option<Id>)
  {
    && CurrentLoads(control, bundles, current)
    && current != Some(p)
    && Succeeds(current, p, expected)
    && LinksHold(control, bundles, p)
    && HistoryFree(history, p)
  }

  ghost predicate AlreadyInstalled(control: Disk, bundles: map<Id, Bundle>, current: Option<PeakPointer>, p: PeakPointer) {
    current == Some(p) && LinksHold(control, bundles, p)
  }

  class PeakPointerStore {
    const control: ControlRecordStore
    const checkpoints: CheckpointBundleStore
    var pointer: Option<PeakPointer>
    var history: map<HistoryKey, PeakPointer>
    var locked: bool

    ghost predicate Links(p: PeakPointer)
      reads control, checkpoints
    {
      LinksHold(control.View(), checkpoints.bundles, p)
    }

    ghost predicate Valid()
    {
      checkpoints.control == control
    }

    constructor (control: ControlRecordStore, checkpoints: CheckpointBundleStore)
      requires checkpoints.control == control
      ensures Valid() && this.control == control && this.checkpoints == checkpoints
      ensures pointer == None && history == map[] && !locked
    {
      this.control, this.checkpoints := control, checkpoints;
      pointer, history, locked := None, map[], false;
    }

    method VerifyLinks(p: PeakPointer) returns (ok: bool)
      requires Valid()
      ensures ok <==> Links(p)
      ensures ok <==> Intact(control.View()) && Backed(control.View(), checkpoints.bundles, p)
    {
      LinksHoldIff(control.View(), checkpoints.bundles, p);
      hide Backed, Whole;
      var t := control.LoadTransaction(p.tx);
      if t.Err? || t.value.run != p.run || t.value.iteration != p.iteration {
        return false;
      }
      if Key(DecisionKind, p.decision) !in t.value.refs {
        return false;
      }
      var d := control.LoadRecord(Key(DecisionKind, p.decision));
      if d.Err? || !d.value.DecisionRecord? || !PromotesCheckpoint(d.value.decision, p) {
        return false;
      }
      var b := checkpoints.Load(p.checkpoint, None);
      return b.Ok? && BundleFitsPointer(b.value, p);
    }

    method Load() returns (r: Result<Option<PeakPointer>>)
      requires Valid()
      ensures r == if CurrentLoads(control.View(), checkpoints.bundles, pointer) then Ok(pointer) else Err(IntegrityError)
      ensures r.Ok? && r.value.Some? ==> Backed(control.View(), checkpoints.bundles, r.value.value)
    {
      hide Backed;
      if pointer.None? {
        return Ok(None);
      }
      var ok := VerifyLinks(pointer.value);
      return if ok then Ok(pointer) else Err(IntegrityError);
    }

    /** `compare_and_swap`. The history file is the first durable write, the pointer the
        second, releasing the lock the third. */
    method CompareAndSwap(p: PeakPointer, expected: Option<Id>, crashAfter: nat) returns (out: Outcome<PeakPointer>)
      requires Valid()
      modifies this
      ensures out.Committed? ==>
        && !old(locked) && !locked && out.value == p && pointer == Some(p)
        && (|| (AlreadyInstalled(control.View(), checkpoints.bundles, old(pointer), p) && history == old(history))
            || (MayInstall(control.View(), checkpoints.bundles, old(pointer), old(history), p, expected)
                && history == old(history)[HistoryKeyOf(p) := p]))
      ensures out.Committed? || out.Crashed? ==> Backed(control.View(), checkpoints.bundles, p)
      ensures out.Failed? ==>
        && locked == old(locked) && pointer == old(pointer) && history == old(history)
        && (|| old(locked)
            || (&& !AlreadyInstalled(control.View(), checkpoints.bundles, old(pointer), p)
                && !MayInstall(control.View(), checkpoints.bundles, old(pointer), old(history), p, expected)))
      ensures out.Crashed? ==>
        && !old(locked) && locked && crashAfter < 3
        && MayInstall(control.View(), checkpoints.bundles, old(pointer), old(history), p, expected)
        && history == (if crashAfter == 0 then old(history) else old(history)[HistoryKeyOf(p) := p])
        && pointer == (if crashAfter < 2 then old(pointer) else Some(p))
    {
      hide Backed, BundleLinkHolds, DecisionLinkHolds;
      if locked {
        return Failed(LockTimeout);
      }
      LinksHoldIff(control.View(), checkpoints.bundles, p);
      var current := Load();
      if current.Err? {
        return Failed(IntegrityError);
      }
      if current.value == Some(p) {
        return Committed(p);
      }
      if !Succeeds(current.value, p, expected) {
        return Failed(ConflictError);
      }
      var linked := VerifyLinks(p);
      if !linked {
        return Failed(IntegrityError);
      }
      if !HistoryFree(history, p) {
        return Failed(ConflictError);
      }
      locked := true;
      if crashAfter == 0 {
        return Crashed;
      }
      history := history[HistoryKeyOf(p) := p];
      if crashAfter == 1 {
        return Crashed;
      }
      pointer := Some(p);
      if crashAfter == 2 {
        return Crashed;
      }
      var loaded := Load();
      locked := false;
      return Committed(loaded.value.value);
    }
  }
}
