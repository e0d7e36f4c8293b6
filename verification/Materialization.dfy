/** What `_materialize_checkpoint` writes: a bundle for every decided candidate, then the Peak
    pointer of a promoted one or the quarantine marker of a refused one. Everything comes from
    the snapshot's metadata, so a restarted controller rebuilds the same bytes. */
module Materialization {
  import opened Records
  import opened ControlStore
  import opened CheckpointStore
  import opened PeakStore
  import opened QuarantineStore

  /** A snapshot whose metadata carries a candidate that is to be materialised. */
  predicate Materializable(s: StateSnapshot) {
    && s.metadata.candidate.Some? && s.metadata.materialization.Some?
    && s.metadata.candidate.value.parent != Some(s.metadata.candidate.value.checkpoint)
  }

  function CheckpointOf(s: StateSnapshot): Id
    requires Materializable(s)
  {
    s.metadata.candidate.value.checkpoint
  }

  function ActionOf(s: StateSnapshot): Action
    requires Materializable(s)
  {
    s.metadata.materialization.value.action
  }

  /** The bundle request, given the iteration of the loaded control transaction. */
  function BundleRequestOf(s: StateSnapshot): BundleRequest
    requires Materializable(s)
  {
    var f, m := s.metadata.candidate.value, s.metadata.materialization.value;
    BundleRequest(
      f.checkpoint, s.run, m.sourceIteration,
      CheckpointPayload(f.checkpoint, s.run, m.sourceIteration, f.model, f.parent, f.score, m.status,
                        Some(f.artifact), m.tx, Some(m.decision), Some(m.action)),
      LineageManifest(f.checkpoint, s.run, m.sourceIteration, f.model, f.parent, f.score, m.status,
                      f.artifact, m.tx, s.enteredAt),
      f.artifact, m.tx, s.enteredAt)
  }

  /** The pointer a promotion installs, given the loaded decision. */
  function PointerOf(s: StateSnapshot, d: Decision): PeakPointer
    requires Materializable(s)
  {
    var f, m := s.metadata.candidate.value, s.metadata.materialization.value;
    PeakPointerFields(
      s.run, f.checkpoint, f.parent, f.model, m.sourceIteration, f.score, m.decision, m.tx,
      BundleDigest(BundleOf(BundleRequestOf(s)).manifest), d.createdAt)
  }

  /** The marker a rejection or rollback leaves, given the loaded decision. */
  function MarkerOf(s: StateSnapshot, d: Decision): QuarantineMarker
    requires Materializable(s)
  {
    var f, m := s.metadata.candidate.value, s.metadata.materialization.value;
    QuarantineMarker(s.run, m.sourceIteration, CheckpointSubject, f.checkpoint, m.decision, m.tx,
                     d.reasonCode, d.evidence, d.createdAt)
  }

  /** The committed decision behind a snapshot's materialisation. */
  ghost predicate DecisionLoads(control: Disk, s: StateSnapshot, d: Decision)
    requires Materializable(s)
  {
    var f, m := s.metadata.candidate.value, s.metadata.materialization.value;
    var t := LoadedTransaction(control, m.tx);
    && t.Ok? && t.value.run == s.run && t.value.iteration == m.sourceIteration
    && Key(DecisionKind, m.decision) in t.value.refs
    && LoadedRecord(control, Key(DecisionKind, m.decision)) == Ok(DecisionRecord(d))
    && d.id == m.decision && d.run == s.run && d.iteration == m.sourceIteration
    && d.subjectType == CheckpointSubject && d.subject == f.checkpoint && d.action == m.action
  }

  // ---- The guards of the stores hold for a decided candidate ----

  lemma BundleMayBePublished(control: Disk, s: StateSnapshot, d: Decision)
    requires Materializable(s) && DecisionLoads(control, s, d)
    ensures MayBundle(control, BundleRequestOf(s))
  {
  }

  lemma PointerLinksHold(control: Disk, bundles: map<Id, Bundle>, s: StateSnapshot, d: Decision)
    requires Materializable(s) && DecisionLoads(control, s, d) && ActionOf(s) == Promote
    requires CheckpointOf(s) in bundles && bundles[CheckpointOf(s)] == BundleOf(BundleRequestOf(s))
    ensures LinksHold(control, bundles, PointerOf(s, d))
  {
    BundleMayBePublished(control, s, d);
    PublishedBundleLoads(control, BundleRequestOf(s));
  }

  lemma MarkerLinks(control: Disk, s: StateSnapshot, d: Decision)
    requires Materializable(s) && DecisionLoads(control, s, d)
    requires ActionOf(s) == Action.Reject || ActionOf(s) == Rollback
    ensures MarkerLinksHold(control, MarkerOf(s, d))
  {
  }
}
