/** The controller keeps its promises through any crashes: proofs about CrashRecovery. */
module CrashSafety {
  import opened Records
  import opened ControlStore
  import opened ControlProtocol
  import opened CheckpointStore
  import opened PeakStore
  import opened QuarantineStore
  import opened StoreSystem
  import opened Controller
  import opened Turns
  import opened RunState
  import opened Materialization
  import opened CrashRecovery

  // ---- What growth of the disk keeps ----

  lemma DecisionStaysLoadable(d: Disk, d': Disk, head: StateSnapshot, x: Decision)
    requires Materializable(head) && DecisionLoads(d, head, x) && Intact(d') && Grows(d, d')
    ensures DecisionLoads(d', head, x)
  {
    var m := head.metadata.materialization.value;
    TransactionStaysLoadable(d, d', m.tx);
    RecordStaysLoadable(d, d', Key(DecisionKind, m.decision));
  }

  /** Only the writer changed. */
  predicate SameButWriter(s: Stores, s': Stores) {
    s' == s.(writer := s'.writer)
  }

  lemma UnsettledOutlivesWrites(s: Stores, s': Stores, head: StateSnapshot, d: Decision)
    requires Unsettled(s, head, d) && SameButWriter(s, s') && Intact(s'.writer.disk) && Grows(s.writer.disk, s'.writer.disk)
    ensures Unsettled(s', head, d)
  {
    hide DecisionLoads, PromotionOpen, PointerFits, MarkerFree;
    DecisionStaysLoadable(s.writer.disk, s'.writer.disk, head, d);
  }

  lemma HeadInvOutlivesWrites(s: Stores, s': Stores, head: StateSnapshot)
    requires HeadInv(s, head) && SameButWriter(s, s') && Intact(s'.writer.disk) && Grows(s.writer.disk, s'.writer.disk)
    ensures HeadInv(s', head)
  {
    hide Unsettled, PointerFits;
    if head.metadata.materialization.Some? {
      var d :| Unsettled(s, head, d);
      UnsettledOutlivesWrites(s, s', head, d);
    }
  }

  // ---- Steps of a commit ----

  lemma WriteRecordKeepsView(s: Stores, k: Key, s': Stores)
    requires StoresInv(s) && StoresNext(s, Control(WriteRecord(k)), s')
    ensures SameButWriter(s, s') && Intact(s'.writer.disk) && Grows(s.writer.disk, s'.writer.disk)
    ensures CommittedView(s'.writer.disk) == CommittedView(s.writer.disk)
    ensures s'.writer.disk.markers == s.writer.disk.markers
    ensures s'.writer.pending.Some? && s'.writer.pending.value.req == s.writer.pending.value.req
  {
    hide BundlesLoad, HistorySound, QuarantineSound, PeakInv;
    var p := PayloadOf(s.writer.pending.value.req.records);
    assert OnlyOrphansAdded(s.writer.disk, p, s'.writer.disk);
    OrphansChangeNoView(s.writer.disk, p, s'.writer.disk);
  }

  lemma RecordStep(c: Config, s: Stores, k: Key, s': Stores, head: StateSnapshot, t: Turn)
    requires CoreInv(c, s, head) && PcInv(c, s, Committing(head, t), head)
    requires StoresNext(s, Control(WriteRecord(k)), s')
    ensures CoreInv(c, s', head) && PcInv(c, s', Committing(head, t), head)
  {
    hide StoresInv, StoresNext, IsHead, HeadInv, VerdictsInv, DatasetMarkersInv, TxInv, GoodTurn, CommittedView;
    StoresStepKeepsInv(s, Control(WriteRecord(k)), s');
    WriteRecordKeepsView(s, k, s');
    HeadInvOutlivesWrites(s, s', head);
    VerdictsOutliveWrites(s, s', CommittedView(s.writer.disk), head);
  }

  lemma VerdictsOutliveWrites(s: Stores, s': Stores, view: Payload, head: StateSnapshot)
    requires VerdictsInv(s, view, head) && SameButWriter(s, s')
    ensures VerdictsInv(s', view, head)
  {
  }

  /** Once the marker is on disk, the view is the old one plus the transaction's records. */
  lemma WriteMarkerExtendsView(s: Stores, s': Stores)
    requires StoresInv(s) && StoresNext(s, Control(WriteMarker), s')
    ensures var d, d', req := s.writer.disk, s'.writer.disk, s.writer.pending.value.req;
      && SameButWriter(s, s') && s'.writer.pending.None?
      && MayStart(d, req) && NoConflict(d, PayloadOf(req.records)) && d' == Finished(d, req)
      && Intact(d') && Grows(d, d')
      && CommittedView(d') == CommittedView(d) + PayloadOf(req.records)
  {
    hide BundlesLoad, HistorySound, QuarantineSound, PeakInv, CommittedView;
    WriterStepKeepsInv(s.writer, WriteMarker, s'.writer);
    WriteMarkerKeepsInv(s.writer, s'.writer);
    FinishedView(s.writer.disk, s.writer.pending.value.req);
  }

  lemma NextIsHead(view: Payload, req: Request, before: seq<Record>, head: StateSnapshot, next: StateSnapshot)
    requires IsHead(view, next.run, head) && head.enteredAt < next.enteredAt
    requires Admissible(req) && req.records == before + [SnapshotRecord(next)] && Before(before, next.enteredAt)
    ensures IsHead(view + PayloadOf(req.records), next.run, next)
  {
    hide PayloadOf, Admissible;
    var payload := PayloadOf(req.records);
    PayloadFacts(req.records);
    assert req.records[|before|] == SnapshotRecord(next);
    PayloadKeeps(req, SnapshotRecord(next));
    forall t | InView(view + payload, next.run, t) && t != next ensures t.enteredAt < next.enteredAt {
      var k := Key(SnapshotKind, t.id);
      if k in payload {
        assert SnapshotRecord(t) in before;
      } else {
        assert InView(view, next.run, t);
      }
    }
  }

  lemma NewVerdictWasWritten(view: Payload, records: seq<Record>, x: Decision)
    requires Verdict(view + PayloadOf(records), x)
    ensures DecisionRecord(x) in records || Verdict(view, x)
  {
    PayloadFacts(records);
  }

  lemma CommittedDecisionLoads(d: Disk, req: Request, next: StateSnapshot, x: Decision)
    requires MayStart(d, req) && Intact(Finished(d, req))
    requires CommittedView(Finished(d, req)) == CommittedView(d) + PayloadOf(req.records)
    requires Materializable(next) && IsDecisionOf(x, next) && DecisionRecord(x) in req.records
    requires next.metadata.materialization.value.tx == req.tx
    requires next.run == req.run && next.metadata.materialization.value.sourceIteration == req.iteration
    ensures DecisionLoads(Finished(d, req), next, x)
  {
    hide PayloadOf, Admissible, CommittedView;
    PayloadKeeps(req, DecisionRecord(x));
  }

  // ---- Between two transactions every verdict has been carried out ----

  ghost predicate AllCarriedOut(s: Stores, view: Payload) {
    forall x :: Verdict(view, x) ==> CarriedOut(s, x)
  }

  lemma SettledMeansCarriedOut(s: Stores, view: Payload, head: StateSnapshot)
    requires VerdictsInv(s, view, head) && HeadInv(s, head) && Settled(s, head)
    ensures AllCarriedOut(s, view)
  {
    hide PromotionOpen, DecisionLoads, MarkerFree, PointerFits;
    forall x | Verdict(view, x) ensures CarriedOut(s, x) {
      if Materializable(head) && x.subject == CheckpointOf(head) {
        var d :| Unsettled(s, head, d);
      }
    }
  }

  /** A checkpoint without a bundle has never been installed, filed or quarantined. */
  lemma NoBundleNoTrace(s: Stores, c: Id)
    requires StoresInv(s) && AllCarriedOut(s, CommittedView(s.writer.disk)) && c !in s.bundles
    ensures !IsInstalled(s.installed, c) && !IsQuarantined(s.quarantined, c)
    ensures forall k :: k in s.history ==> k.checkpoint != c
  {
    hide CommittedView, WriterInv, BundlesLoad, DecisionLinkHolds, CarriedOut, IsChain;
    forall k | k in s.history ensures k.checkpoint != c {
      assert BundleLinkHolds(s.writer.disk, s.bundles, s.history[k]);
    }
    forall p | p in s.installed ensures p.checkpoint != c {
      assert InHistory(s.history, p);
    }
    forall k | k in s.quarantined && k.subjectType == CheckpointSubject ensures k.subject != c {
      QuarantinedHasVerdict(s, k);
    }
  }

  lemma QuarantinedHasVerdict(s: Stores, k: QuarantineKey)
    requires QuarantineSound(s.writer.disk, s.quarantined) && k in s.quarantined && k.subjectType == CheckpointSubject
    requires AllCarriedOut(s, CommittedView(s.writer.disk))
    ensures k.subject in s.bundles
  {
    hide CommittedView;
    var m := s.quarantined[k];
    assert QuarantineKeyOf(m) == k && MarkerLinksHold(s.writer.disk, m);
    var x := LoadedRecord(s.writer.disk, Key(DecisionKind, m.decision)).value.decision;
    ViewIsKeyed(s.writer.disk, Key(DecisionKind, m.decision));
    assert Verdict(CommittedView(s.writer.disk), x);
  }

  lemma ViewIsKeyed(d: Disk, k: Key)
    requires LoadedRecord(d, k).Ok?
    ensures k in CommittedView(d) && CommittedView(d)[k] == d.files[k] && KeyOf(d.files[k]) == k
  {
    CommittedHasFile(d, k);
  }

  // ---- A marker on disk: the run stands at the next head ----

  lemma FreshPromotionIsOpen(s: Stores, head: StateSnapshot, next: StateSnapshot, tx: Id, d: Decision)
    requires PointerFits(s.pointer, head) && Decides(head, next, tx) && next.metadata.materialization.value.action == Promote
    requires head.iteration <= next.iteration
    requires forall k :: k in s.history ==> k.checkpoint != next.metadata.candidate.value.checkpoint
    ensures Materializable(next) && PromotionOpen(s.pointer, s.history, next, d)
  {
  }

  /** A freshly decided candidate: everything its materialisation needs is in place, and
      nothing of it has happened yet. */
  lemma FreshHeadIsUnsettled(s: Stores, s': Stores, head: StateSnapshot, next: StateSnapshot, tx: Id, d: Decision)
    requires StoresInv(s) && AllCarriedOut(s, CommittedView(s.writer.disk)) && SameButWriter(s, s')
    requires PointerFits(s.pointer, head) && head.iteration <= next.iteration
    requires Decides(head, next, tx) && FreshCandidate(s.bundles, next)
    requires DecisionLoads(s'.writer.disk, next, d)
    ensures Unsettled(s', next, d)
  {
    hide StoresInv, CommittedView, AllCarriedOut, PromotionOpen, DecisionLoads, MarkerOf, PointerOf, BundleRequestOf;
    var checkpoint := next.metadata.candidate.value.checkpoint;
    NoBundleNoTrace(s, checkpoint);
    if next.metadata.materialization.value.action == Promote {
      FreshPromotionIsOpen(s, head, next, tx, d);
    }
    NoMarkerYet(s.quarantined, next, d);
  }

  lemma NoMarkerYet(quarantined: map<QuarantineKey, QuarantineMarker>, next: StateSnapshot, d: Decision)
    requires Materializable(next) && !IsQuarantined(quarantined, CheckpointOf(next))
    ensures MarkerFree(quarantined, MarkerOf(next, d))
  {
  }

  lemma NewHeadInv(c: Config, s: Stores, s': Stores, head: StateSnapshot, t: Turn)
    requires StoresInv(s) && StoresNext(s, Control(WriteMarker), s')
    requires AllCarriedOut(s, CommittedView(s.writer.disk)) && PointerFits(s.pointer, head)
    requires GoodTurn(c, head, t) && FreshCandidate(s.bundles, t.next) && head.run == c.run
    requires s.writer.pending.value.req == t.req
    ensures HeadInv(s', t.next)
    ensures t.next.metadata.materialization.None? ==> PointerFits(s'.pointer, t.next)
  {
    hide StoresInv, StoresNext, CommittedView, AllCarriedOut, Unsettled, FreshCandidate, PointerFits, MayStart, Decides, IsDecisionOf;
    var next := t.next;
    var before :| Writes(before, head, t.req, next);
    WriteMarkerExtendsView(s, s');
    if next.metadata.materialization.Some? {
      DecidesIsMaterializable(head, next, t.req.tx);
      var d :| DecisionRecord(d) in before && IsDecisionOf(d, next);
      CommittedDecisionLoads(s.writer.disk, t.req, next, d);
      FreshHeadIsUnsettled(s, s', head, next, t.req.tx, d);
    } else {
      SamePeakStillFits(s.pointer, head, next);
    }
  }

  lemma DecidesIsMaterializable(s: StateSnapshot, next: StateSnapshot, tx: Id)
    requires Decides(s, next, tx)
    ensures Materializable(next) && next.metadata.materialization.value.tx == tx
    ensures next.metadata.materialization.value.sourceIteration == s.iteration
  {
  }

  lemma SamePeakStillFits(pointer: Option<PeakPointer>, head: StateSnapshot, next: StateSnapshot)
    requires PointerFits(pointer, head) && next.peak == head.peak && next.peakScore == head.peakScore
    requires head.iteration <= next.iteration
    ensures PointerFits(pointer, next)
  {
  }

  /** Verdicts of the new transaction are about its fresh candidate; all others are done. */
  lemma NewVerdictsInv(c: Config, s: Stores, s': Stores, view: Payload, head: StateSnapshot, t: Turn)
    requires AllCarriedOut(s, view) && SameButWriter(s, s')
    requires GoodTurn(c, head, t) && FreshCandidate(s.bundles, t.next)
    ensures VerdictsInv(s', view + PayloadOf(t.req.records), t.next)
  {
    hide PayloadOf, CarriedOut, Advances, GoodMarker;
    var before :| Writes(before, head, t.req, t.next);
    forall x | Verdict(view + PayloadOf(t.req.records), x)
      ensures if Materializable(t.next) && x.subject == CheckpointOf(t.next) then x.action == ActionOf(t.next)
              else CarriedOut(s', x)
    {
      NewVerdictWasWritten(view, t.req.records, x);
      if DecisionRecord(x) in t.req.records {
        assert DecisionRecord(x) in before;
      } else {
        CarriedOutHasBundle(s, s', x);
      }
    }
  }

  lemma CarriedOutHasBundle(s: Stores, s': Stores, x: Decision)
    requires CarriedOut(s, x) && SameButWriter(s, s')
    ensures CarriedOut(s', x) && x.subject in s.bundles
  {
  }

  lemma HeadsInvGrows(c: Config, heads: seq<StateSnapshot>, next: StateSnapshot)
    requires heads != [] && HeadsInv(c, heads) && Standing(c, next)
    requires next.totalCost == heads[|heads| - 1].totalCost + ChargedBy(next)
    ensures HeadsInv(c, heads + [next])
  {
    hide Standing, ChargedBy;
    var more := heads + [next];
    forall i | 0 <= i < |more| ensures Standing(c, more[i]) && more[i].totalCost == Spent(more[..i + 1]) {
      if i < |heads| {
        assert more[..i + 1] == heads[..i + 1];
      } else {
        assert more[..i + 1] == more && more[..|more| - 1] == heads && heads[..|heads| - 1 + 1] == heads;
      }
    }
  }

  lemma RefusedDatasetMarkerPending(s: Stores, s': Stores, head: StateSnapshot, t: Turn)
    requires StoresInv(s) && StoresNext(s, Control(WriteMarker), s')
    requires t.Commit? && t.marker.Some? && GoodMarker(t.req, t.marker.value) && s.writer.pending.value.req == t.req
    requires t.next.metadata.materialization.None? && t.next.state == Stopped
    requires forall k :: k in s.quarantined ==> k.subjectType == CheckpointSubject
    ensures MarkerPending(s', t.next, t.marker.value)
  {
    hide StoresInv, StoresNext, PayloadOf, CommittedView, DependenciesHold, Admissible, DecisionFitsMarker;
    var req, m := t.req, t.marker.value;
    WriteMarkerExtendsView(s, s');
    var q :| DecisionRecord(q) in req.records && q.id == m.decision && DecisionFitsMarker(q, m);
    PayloadKeeps(req, DecisionRecord(q));
    assert MarkerLinksHold(s'.writer.disk, m);
    NoDatasetMarkerYet(s.quarantined, m);
  }

  lemma NoDatasetMarkerYet(quarantined: map<QuarantineKey, QuarantineMarker>, m: QuarantineMarker)
    requires m.subjectType != CheckpointSubject
    requires forall k :: k in quarantined ==> k.subjectType == CheckpointSubject
    ensures MarkerFree(quarantined, m)
  {
  }

  lemma AfterCommitInv(c: Config, s: Stores, s': Stores, head: StateSnapshot, t: Turn)
    requires StoresInv(s) && StoresNext(s, Control(WriteMarker), s')
    requires GoodTurn(c, head, t) && s.writer.pending.value.req == t.req && s.installing.None?
    requires s'.writer.pending.None? && SameButWriter(s, s')
    requires forall k :: k in s.quarantined ==> k.subjectType == CheckpointSubject
    requires t.next.metadata.materialization.None? ==> PointerFits(s'.pointer, t.next)
    ensures PcInv(c, s', AfterCommit(t), t.next)
  {
    hide StoresInv, StoresNext, MarkerPending, GoodMarker, Advances, Writes, PointerFits;
    if t.marker.Some? {
      RefusedDatasetMarkerPending(s, s', head, t);
    }
  }

  lemma NextIsStanding(c: Config, head: StateSnapshot, t: Turn)
    requires GoodTurn(c, head, t) && Standing(c, head)
    ensures Standing(c, t.next) && t.next.run == c.run && head.run == c.run
    ensures t.next.totalCost == head.totalCost + ChargedBy(t.next)
  {
  }

  lemma NewViewHasHead(c: Config, view: Payload, head: StateSnapshot, t: Turn)
    requires GoodTurn(c, head, t) && Standing(c, head) && Admissible(t.req) && IsHead(view, c.run, head)
    ensures IsHead(view + PayloadOf(t.req.records), c.run, t.next)
  {
    hide PayloadOf, Admissible, IsHead, Decides, OneVerdict, NoVerdict, GoodMarker, ChargedBy;
    var before :| Writes(before, head, t.req, t.next);
    NextIsHead(view, t.req, before, head, t.next);
  }

  lemma NoDatasetMarkersWhileRunning(quarantined: map<QuarantineKey, QuarantineMarker>, head: StateSnapshot, next: StateSnapshot)
    requires DatasetMarkersInv(quarantined, head) && (head.state == Diagnose || head.state == Train)
    ensures forall k :: k in quarantined ==> k.subjectType == CheckpointSubject
    ensures DatasetMarkersInv(quarantined, next)
  {
  }

  lemma NewTxInv(run: Id, markers: map<Id, Manifest>, head: StateSnapshot, tx: Id, m: Manifest, next: StateSnapshot)
    requires TxInv(markers, run, head) && NextTx(head, tx, next) && head.run == run
    ensures TxInv(markers[tx := m], run, next)
  {
    forall used | used in markers[tx := m] ensures UsedTx(run, next, used) {
      if used != tx { assert UsedTx(run, head, used); }
    }
  }

  lemma MarkerStep(c: Config, s: Stores, s': Stores, head: StateSnapshot, t: Turn)
    requires CoreInv(c, s, head) && PcInv(c, s, Committing(head, t), head) && Standing(c, head)
    requires StoresNext(s, Control(WriteMarker), s')
    ensures t.Commit? && CoreInv(c, s', t.next) && PcInv(c, s', AfterCommit(t), t.next)
  {
    var view := CommittedView(s.writer.disk);
    CommittingFacts(c, s, head, t);
    hide StoresInv, StoresNext, IsHead, HeadInv, VerdictsInv, DatasetMarkersInv, TxInv, PcInv, GoodTurn, CommittedView, Settled,
      PointerFits, FreshCandidate, AfterCommit, Standing, AllCarriedOut, MayStart, ChargedBy, ManifestOf, PayloadOf;
    StoresStepKeepsInv(s, Control(WriteMarker), s');
    WriteMarkerExtendsView(s, s');
    SettledMeansCarriedOut(s, view, head);
    MayStartIsAdmissible(s.writer.disk, t.req);
    NewViewHasHead(c, view, head, t);
    NextIsStanding(c, head, t);
    NewHeadInv(c, s, s', head, t);
    NewVerdictsInv(c, s, s', view, head, t);
    NoDatasetMarkersWhileRunning(s.quarantined, head, t.next);
    GoodTurnHasNextTx(c, head, t);
    NewTxInv(c.run, s.writer.disk.markers, head, t.req.tx, ManifestOf(t.req), t.next);
    assert Finished(s.writer.disk, t.req).markers == s.writer.disk.markers[t.req.tx := ManifestOf(t.req)];
    AfterCommitInv(c, s, s', head, t);
  }

  lemma MayStartIsAdmissible(d: Disk, req: Request)
    requires MayStart(d, req)
    ensures Admissible(req)
  {
  }

  lemma CommittingFacts(c: Config, s: Stores, head: StateSnapshot, t: Turn)
    requires PcInv(c, s, Committing(head, t), head)
    ensures t.Commit? && Settled(s, head) && PointerFits(s.pointer, head) && GoodTurn(c, head, t)
    ensures FreshCandidate(s.bundles, t.next) && (head.state == Diagnose || head.state == Train)
    ensures s.writer.pending.Some? && s.writer.pending.value.req == t.req && s.installing.None?
  {
  }

  // ---- Steps of a materialisation ----

  /** Only what is recorded about the head's own checkpoint may have changed. */
  lemma VerdictsKept(s: Stores, s': Stores, view: Payload, head: StateSnapshot)
    requires VerdictsInv(s, view, head) && Materializable(head)
    requires s.bundles.Keys <= s'.bundles.Keys
    requires forall x :: x != CheckpointOf(head) ==>
      && (IsInstalled(s'.installed, x) <==> IsInstalled(s.installed, x))
      && (IsQuarantined(s'.quarantined, x) <==> IsQuarantined(s.quarantined, x))
    ensures VerdictsInv(s', view, head)
  {
  }

  lemma UnsettledWithBundle(s: Stores, s': Stores, head: StateSnapshot, d: Decision)
    requires Unsettled(s, head, d)
    requires s' == s.(bundles := s.bundles[CheckpointOf(head) := BundleOf(BundleRequestOf(head))])
    ensures Unsettled(s', head, d) && CheckpointOf(head) in s'.bundles
  {
    hide DecisionLoads, PromotionOpen, PointerFits, MarkerFree, BundleOf, BundleRequestOf;
  }

  lemma HeadDecision(s: Stores, head: StateSnapshot, x: Decision) returns (d: Decision)
    requires HeadInv(s, head) && head.metadata.materialization.Some?
    requires Materializable(head) ==>
      LoadedRecord(s.writer.disk, Key(DecisionKind, head.metadata.materialization.value.decision)) == Ok(DecisionRecord(x))
    ensures d == x && Unsettled(s, head, x)
  {
    hide PromotionOpen, PointerFits, MarkerFree, CommittedView;
    d :| Unsettled(s, head, d);
  }

  lemma RefusalIsPending(s: Stores, head: StateSnapshot, d: Decision)
    requires Unsettled(s, head, d) && CheckpointOf(head) in s.bundles && Refuses(ActionOf(head))
    ensures MarkerPending(s, head, MarkerOf(head, d))
  {
    hide DecisionLoads, PromotionOpen, PointerFits, BundleOf, BundleRequestOf, MarkerLinksHold, MarkerFree;
    assert DecisionLoads(s.writer.disk, head, d);
    MarkerLinks(s.writer.disk, head, d);
  }

  lemma AfterBundleInv(c: Config, s: Stores, head: StateSnapshot, d: Decision)
    requires Unsettled(s, head, d) && CheckpointOf(head) in s.bundles
    requires s.writer.pending.None? && s.installing.None?
    ensures PcInv(c, s, AfterBundle(head, d), head)
  {
    hide DecisionLoads, PromotionOpen, BundleOf, BundleRequestOf, PointerOf, MarkerOf, MarkerPending, MarkerFree,
      IsInstalled, IsQuarantined;
    if Refuses(ActionOf(head)) {
      RefusalIsPending(s, head, d);
    }
  }

  lemma PublishedStores(s: Stores, s': Stores, req: BundleRequest)
    requires BundleCommits(s.writer.disk, s.bundles, req)
    requires if req.checkpoint in s.bundles then s' == s else StoresNext(s, PublishBundle(req), s')
    ensures s' == s.(bundles := s.bundles[req.checkpoint := BundleOf(req)])
  {
    hide MayBundle, BundleOf;
    if req.checkpoint in s.bundles {
      assert s.bundles[req.checkpoint := BundleOf(req)] == s.bundles;
    }
  }

  lemma PublishStep(c: Config, s: Stores, s': Stores, head: StateSnapshot, d: Decision)
    requires CoreInv(c, s, head) && PcInv(c, s, Publishing(head), head) && Materializable(head)
    requires BundleCommits(s.writer.disk, s.bundles, BundleRequestOf(head))
    requires if CheckpointOf(head) in s.bundles then s' == s else StoresNext(s, PublishBundle(BundleRequestOf(head)), s')
    requires LoadedRecord(s.writer.disk, Key(DecisionKind, head.metadata.materialization.value.decision)) == Ok(DecisionRecord(d))
    ensures CoreInv(c, s', head) && PcInv(c, s', AfterBundle(head, d), head)
  {
    hide StoresInv, StoresNext, IsHead, VerdictsInv, DatasetMarkersInv, TxInv, Unsettled, CommittedView, BundleCommits,
      BundleOf, BundleRequestOf, LoadedRecord, Settled, AfterBundle, PointerFits;
    RequestIsAboutHead(head);
    if CheckpointOf(head) !in s.bundles { StoresStepKeepsInv(s, PublishBundle(BundleRequestOf(head)), s'); }
    PublishedStores(s, s', BundleRequestOf(head));
    var x := HeadDecision(s, head, d);
    UnsettledWithBundle(s, s', head, d);
    AfterBundleInv(c, s', head, d);
    VerdictsKept(s, s', CommittedView(s.writer.disk), head);
  }

  lemma RequestIsAboutHead(head: StateSnapshot)
    requires Materializable(head)
    ensures BundleRequestOf(head).checkpoint == CheckpointOf(head)
  {
  }

  lemma InstalledIsSettled(s: Stores, head: StateSnapshot, d: Decision)
    requires StoresInv(s) && Unsettled(s, head, d) && ActionOf(head) == Promote && CheckpointOf(head) in s.bundles
    requires s.pointer == Some(PointerOf(head, d))
    ensures Settled(s, head)
  {
    hide WriterInv, BundlesLoad, HistorySound, QuarantineSound, IsChain, DecisionLoads, HistoryFree, BundleOf, BundleRequestOf;
    assert PointerOf(head, d) in s.installed;
  }

  lemma AlreadyInstalledStep(c: Config, s: Stores, head: StateSnapshot, d: Decision)
    requires CoreInv(c, s, head) && PcInv(c, s, Promoting(head, d), head)
    requires s.pointer == Some(PointerOf(head, d))
    ensures PcInv(c, s, Ready(head), head)
  {
    hide StoresInv, IsHead, HeadInv, VerdictsInv, DatasetMarkersInv, TxInv, Unsettled, CommittedView, Settled;
    InstalledIsSettled(s, head, d);
  }

  lemma UnsettledWithHistory(s: Stores, s': Stores, head: StateSnapshot, d: Decision)
    requires Unsettled(s, head, d) && ActionOf(head) == Promote
    requires var p := PointerOf(head, d);
      s' == s.(history := s.history[HistoryKeyOf(p) := p], installing := Some(p), peakLocked := true)
    ensures Unsettled(s', head, d)
  {
    hide DecisionLoads, BundleOf, BundleRequestOf, MarkerFree, PointerFits;
  }

  lemma BeginInstallStep(c: Config, s: Stores, s': Stores, head: StateSnapshot, d: Decision)
    requires CoreInv(c, s, head) && PcInv(c, s, Promoting(head, d), head) && Materializable(head)
    requires StoresNext(s, BeginInstall(PointerOf(head, d), PointerOf(head, d).previous), s')
    ensures CoreInv(c, s', head) && PcInv(c, s', Installing(head, d), head)
  {
    hide StoresInv, StoresNext, IsHead, VerdictsInv, DatasetMarkersInv, TxInv, Unsettled, CommittedView, PointerOf, PointerFits, Settled,
      IsInstalled, IsQuarantined, HistoryKeyOf;
    BeginInstallEffect(s, s', PointerOf(head, d));
    StoresStepKeepsInv(s, BeginInstall(PointerOf(head, d), PointerOf(head, d).previous), s');
    UnsettledWithHistory(s, s', head, d);
    VerdictsKept(s, s', CommittedView(s.writer.disk), head);
  }

  lemma BeginInstallEffect(s: Stores, s': Stores, p: PeakPointer)
    requires StoresNext(s, BeginInstall(p, p.previous), s')
    ensures s' == s.(history := s.history[HistoryKeyOf(p) := p], installing := Some(p), peakLocked := true)
  {
  }

  lemma ReplaceEffect(s: Stores, s': Stores, p: PeakPointer)
    requires s.installing == Some(p) && StoresNext(s, ReplacePointer, s')
    ensures s' == s.(pointer := Some(p), installing := None, peakLocked := false, installed := s.installed + [p])
  {
  }

  lemma PointerNamesCheckpoint(head: StateSnapshot, d: Decision)
    requires Materializable(head)
    ensures PointerOf(head, d).checkpoint == CheckpointOf(head)
  {
  }

  lemma OnlyOneMoreInstalled(installed: seq<PeakPointer>, p: PeakPointer, x: Id)
    ensures IsInstalled(installed + [p], x) <==> IsInstalled(installed, x) || x == p.checkpoint
  {
    if IsInstalled(installed, x) {
      var q :| q in installed && q.checkpoint == x;
      assert q in installed + [p];
    }
    assert p in installed + [p];
  }

  lemma UnsettledWithPointer(s: Stores, s': Stores, head: StateSnapshot, d: Decision)
    requires Unsettled(s, head, d) && ActionOf(head) == Promote
    requires s' == s.(pointer := Some(PointerOf(head, d)), installing := None, peakLocked := false,
                      installed := s.installed + [PointerOf(head, d)])
    ensures Unsettled(s', head, d)
  {
    hide DecisionLoads, BundleOf, BundleRequestOf, MarkerFree, PointerFits;
  }

  lemma InstallStep(c: Config, s: Stores, s': Stores, head: StateSnapshot, d: Decision)
    requires Materializable(head) && CoreInv(c, s, head) && PcInv(c, s, Installing(head, d), head)
    requires StoresNext(s, ReplacePointer, s')
    ensures CoreInv(c, s', head) && PcInv(c, s', Ready(head), head)
  {
    hide StoresInv, StoresNext, IsHead, VerdictsInv, DatasetMarkersInv, TxInv, Unsettled, CommittedView, PointerFits, PointerOf,
      IsInstalled, IsQuarantined, Settled;
    var p := PointerOf(head, d);
    StoresStepKeepsInv(s, ReplacePointer, s');
    ReplaceEffect(s, s', p);
    PointerNamesCheckpoint(head, d);
    UnsettledWithPointer(s, s', head, d);
    InstalledIsSettled(s', head, d);
    forall x ensures IsInstalled(s'.installed, x) <==> IsInstalled(s.installed, x) || x == p.checkpoint {
      OnlyOneMoreInstalled(s.installed, p, x);
    }
    VerdictsKept(s, s', CommittedView(s.writer.disk), head);
  }

  lemma OnlyOneMoreQuarantined(q: map<QuarantineKey, QuarantineMarker>, m: QuarantineMarker, x: Id)
    ensures IsQuarantined(q[QuarantineKeyOf(m) := m], x) <==>
      IsQuarantined(q, x) || (m.subjectType == CheckpointSubject && m.subject == x)
  {
    if IsQuarantined(q, x) {
      var k :| k in q && k.subjectType == CheckpointSubject && k.subject == x;
      assert k in q[QuarantineKeyOf(m) := m];
    }
    if m.subjectType == CheckpointSubject && m.subject == x {
      assert QuarantineKeyOf(m) in q[QuarantineKeyOf(m) := m];
    }
  }

  lemma UnsettledWithMarker(s: Stores, s': Stores, head: StateSnapshot, d: Decision)
    requires Unsettled(s, head, d) && Refuses(ActionOf(head))
    requires s' == s.(quarantined := s.quarantined[QuarantineKeyOf(MarkerOf(head, d)) := MarkerOf(head, d)])
    ensures Unsettled(s', head, d) && PointerFits(s'.pointer, head)
  {
    hide DecisionLoads, BundleOf, BundleRequestOf, PromotionOpen, PointerFits;
  }

  lemma MarkEffect(s: Stores, s': Stores, m: QuarantineMarker)
    requires StoresNext(s, WriteQuarantine(m), s')
    ensures s' == s.(quarantined := s.quarantined[QuarantineKeyOf(m) := m])
  {
  }

  lemma MarkStep(c: Config, s: Stores, s': Stores, head: StateSnapshot, m: QuarantineMarker)
    requires CoreInv(c, s, head) && PcInv(c, s, Marking(head, m), head) && StoresNext(s, WriteQuarantine(m), s')
    ensures CoreInv(c, s', head) && PcInv(c, s', Ready(head), head)
  {
    hide StoresInv, StoresNext, IsHead, VerdictsInv, Unsettled, CommittedView, PointerFits, IsInstalled, IsQuarantined,
      MarkerLinksHold, MarkerFree;
    MarkEffect(s, s', m);
    StoresStepKeepsInv(s, WriteQuarantine(m), s');
    forall x
      ensures IsQuarantined(s'.quarantined, x) <==>
        IsQuarantined(s.quarantined, x) || (m.subjectType == CheckpointSubject && m.subject == x)
    {
      OnlyOneMoreQuarantined(s.quarantined, m, x);
    }
    if head.metadata.materialization.Some? {
      var d :| Unsettled(s, head, d) && m == MarkerOf(head, d);
      UnsettledWithMarker(s, s', head, d);
      VerdictsKept(s, s', CommittedView(s.writer.disk), head);
    } else {
      VerdictsUntouched(s, s', CommittedView(s.writer.disk), head);
    }
  }

  /** A dataset marker says nothing about checkpoints. */
  lemma VerdictsUntouched(s: Stores, s': Stores, view: Payload, head: StateSnapshot)
    requires VerdictsInv(s, view, head) && s'.bundles == s.bundles && s'.installed == s.installed
    requires forall x :: IsQuarantined(s'.quarantined, x) <==> IsQuarantined(s.quarantined, x)
    ensures VerdictsInv(s', view, head)
  {
  }

  // ---- Steps that leave every durable file alone ----

  predicate SameFiles(s: Stores, s': Stores) {
    && s'.writer.disk == s.writer.disk && s'.bundles == s.bundles
    && s'.pointer == s.pointer && s'.history == s.history
    && s'.quarantined == s.quarantined && s'.installed == s.installed
  }

  lemma CoreInvIsAboutFiles(c: Config, s: Stores, s': Stores, head: StateSnapshot)
    requires CoreInv(c, s, head) && StoresInv(s') && SameFiles(s, s')
    ensures CoreInv(c, s', head)
    ensures Settled(s, head) ==> Settled(s', head)
  {
    hide StoresInv, IsHead, CommittedView, PointerFits, DatasetMarkersInv, TxInv;
    if head.metadata.materialization.Some? {
      var d :| Unsettled(s, head, d);
      UnsettledIsAboutFiles(s, s', head, d);
    }
    VerdictsAreAboutFiles(s, s', CommittedView(s.writer.disk), head);
  }

  lemma UnsettledIsAboutFiles(s: Stores, s': Stores, head: StateSnapshot, d: Decision)
    requires Unsettled(s, head, d) && SameFiles(s, s')
    ensures Unsettled(s', head, d)
  {
  }

  lemma VerdictsAreAboutFiles(s: Stores, s': Stores, view: Payload, head: StateSnapshot)
    requires VerdictsInv(s, view, head) && SameFiles(s, s')
    ensures VerdictsInv(s', view, head)
  {
  }

  lemma TurnIsGood(c: Config, s: StateSnapshot, answer: Answer)
    requires ReviewFree(c) && Standing(c, s) && TurnOf(c, s, answer).Commit?
    ensures GoodTurn(c, s, TurnOf(c, s, answer)) && (s.state == Diagnose || s.state == Train)
  {
    hide GoodTurn, DataTurn, CandidateTurn;
    if s.state == Diagnose { DataTurnIsGood(c, s, answer.data); } else { CandidateTurnIsGood(c, s, answer.candidate); }
  }

  lemma BeginStep(c: Config, s: Stores, s': Stores, head: StateSnapshot, t: Turn)
    requires CoreInv(c, s, head) && PcInv(c, s, Ready(head), head)
    requires t.Commit? && GoodTurn(c, head, t) && (head.state == Diagnose || head.state == Train) && FreshCandidate(s.bundles, t.next)
    requires StoresNext(s, Control(BeginCommit(t.req)), s')
    ensures CoreInv(c, s', head) && PcInv(c, s', Committing(head, t), head)
  {
    hide StoresInv, CoreInv, Settled, GoodTurn, MayStart, FreshCandidate;
    CoreHasStoresInv(c, s, head);
    StoresStepKeepsInv(s, Control(BeginCommit(t.req)), s');
    CoreInvIsAboutFiles(c, s, s', head);
  }

  lemma CoreHasStoresInv(c: Config, s: Stores, head: StateSnapshot)
    requires CoreInv(c, s, head)
    ensures StoresInv(s)
  {
  }

  /** A process that dies is a crash of whatever store call it was in. */
  lemma DieStep(c: Config, s: Stores, controlLock: bool, peakLock: bool, head: StateSnapshot)
    requires CoreInv(c, s, head)
    ensures var s' := Interrupted(s, controlLock, peakLock); CoreInv(c, s', head) && PcInv(c, s', Down, head)
  {
    hide StoresInv, CoreInv, Settled;
    CoreHasStoresInv(c, s, head);
    InterruptedKeepsInv(s, controlLock, peakLock);
    CoreInvIsAboutFiles(c, s, Interrupted(s, controlLock, peakLock), head);
  }

  lemma InterruptedKeepsInv(s: Stores, controlLock: bool, peakLock: bool)
    requires StoresInv(s)
    ensures StoresInv(Interrupted(s, controlLock, peakLock))
    ensures Interrupted(s, controlLock, peakLock).writer.disk == s.writer.disk && StoresGrow(s, Interrupted(s, controlLock, peakLock))
  {
    hide StoresInv;
    var crashed := s.(writer := Writer(s.writer.disk, None, s.writer.locked));
    StoresStepKeepsInv(s, Control(Crash), crashed);
    var stopped := crashed.(installing := None);
    StoresStepKeepsInv(crashed, CrashInstall, stopped);
    var held := stopped.(writer := Writer(s.writer.disk, None, s.writer.locked || controlLock));
    if held != stopped { StoresStepKeepsInv(stopped, Control(DieHoldingLock), held); }
    var left := held.(peakLocked := s.peakLocked || peakLock);
    if left != held { StoresStepKeepsInv(held, DieHoldingPeakLock, left); }
  }

  lemma ConflictStep(c: Config, s: Stores, k: Key, s': Stores, head: StateSnapshot, t: Turn)
    requires CoreInv(c, s, head) && PcInv(c, s, Committing(head, t), head)
    requires StoresNext(s, Control(WriteConflict(k)), s')
    ensures CoreInv(c, s', head) && PcInv(c, s', Down, head)
  {
    hide StoresInv, CoreInv, Settled, GoodTurn, PayloadOf, FreshCandidate;
    CoreHasStoresInv(c, s, head);
    StoresStepKeepsInv(s, Control(WriteConflict(k)), s');
    CoreInvIsAboutFiles(c, s, s', head);
  }

  lemma UnlockStep(c: Config, s: Stores, lock: StoreStep, s': Stores, head: StateSnapshot)
    requires CoreInv(c, s, head) && PcInv(c, s, Down, head)
    requires lock == Control(RemoveStaleLock) || lock == RemoveStalePeakLock
    requires StoresNext(s, lock, s')
    ensures CoreInv(c, s', head) && PcInv(c, s', Down, head)
  {
    hide StoresInv, CoreInv, Settled;
    CoreHasStoresInv(c, s, head);
    StoresStepKeepsInv(s, lock, s');
    CoreInvIsAboutFiles(c, s, s', head);
  }

  /** Resuming or reconciling goes on from the head: nothing else is the latest snapshot. */
  lemma ReconcileStep(c: Config, s: Stores, head: StateSnapshot)
    requires CoreInv(c, s, head) && s.writer.pending.None? && s.installing.None?
    ensures PcInv(c, s, Reconciling(head), head)
  {
    hide StoresInv, IsHead, VerdictsInv, DatasetMarkersInv, TxInv, CommittedView, Unsettled, PointerFits;
  }

  lemma ResumeStep(c: Config, rank: Id -> int, s: Stores, head: StateSnapshot, found: StateSnapshot)
    requires CoreInv(c, s, head) && PcInv(c, s, Down, head)
    requires IsLatest(CommittedView(s.writer.disk), c.run, rank, found)
    ensures found == head && PcInv(c, s, Reconciling(head), head)
  {
    hide StoresInv, IsHead, IsLatest, HeadInv, VerdictsInv, DatasetMarkersInv, TxInv, CommittedView;
    HeadIsLatest(CommittedView(s.writer.disk), c.run, rank, head, found);
    ReconcileStep(c, s, head);
  }

  // ---- Every step keeps the invariant ----

  lemma InvOf(c: Config, p: Process, head: StateSnapshot)
    requires p.heads != [] && HeadsInv(c, p.heads) && head == HeadOf(p)
    requires CoreInv(c, p.stores, head) && PcInv(c, p.stores, p.pc, head)
    ensures Inv(c, p)
  {
  }

  lemma InvParts(c: Config, p: Process)
    requires Inv(c, p)
    ensures p.heads != [] && HeadsInv(c, p.heads) && CoreInv(c, p.stores, HeadOf(p))
    ensures PcInv(c, p.stores, p.pc, HeadOf(p)) && Standing(c, HeadOf(p))
    ensures !p.pc.Down? ==> p.pc.head == HeadOf(p)
  {
    hide CoreInv, Standing, Spent;
    assert p.heads[|p.heads| - 1] == HeadOf(p);
  }

  lemma ResumeKeepsInv(c: Config, rank: Id -> int, p: Process, head: StateSnapshot, p': Process)
    requires Inv(c, p) && ResumeNext(c, rank, p, head, p')
    ensures Inv(c, p')
  {
    hide Inv, CoreInv, PcInv, HeadsInv, Standing, IsLatest, CommittedView, Reconciling;
    InvParts(c, p);
    ResumeStep(c, rank, p.stores, HeadOf(p), head);
    InvOf(c, p', HeadOf(p));
  }

  lemma BeginKeepsInv(c: Config, p: Process, answer: Answer, p': Process)
    requires ReviewFree(c) && Inv(c, p) && p.pc.Ready? && BeginNext(c, p, TurnOf(c, p.pc.head, answer), p')
    ensures Inv(c, p')
  {
    hide Inv, CoreInv, PcInv, HeadsInv, Standing, StoresNext, TurnOf, GoodTurn, FreshCandidate;
    InvParts(c, p);
    var head, t := HeadOf(p), TurnOf(c, p.pc.head, answer);
    TurnIsGood(c, head, answer);
    BeginStep(c, p.stores, p'.stores, head, t);
    InvOf(c, p', head);
  }

  /** No transaction of the run has used the id of the next turn: ids name the iteration and the
      place in it, and the run has not been there yet. */
  lemma NextIdIsFree(run: Id, markers: map<Id, Manifest>, head: StateSnapshot, tx: Id, next: StateSnapshot)
    requires TxInv(markers, run, head) && NextTx(head, tx, next)
    ensures tx !in markers
  {
    assert tx in markers ==> UsedTx(run, head, tx);
  }

  lemma GoodTurnHasNextTx(c: Config, head: StateSnapshot, t: Turn)
    requires GoodTurn(c, head, t)
    ensures t.Commit? && NextTx(head, t.req.tx, t.next)
  {
    hide Advances, Writes, GoodMarker, NextTx;
  }

  lemma CoreHasTxInv(c: Config, s: Stores, head: StateSnapshot)
    requires CoreInv(c, s, head)
    ensures TxInv(s.writer.disk.markers, c.run, head)
  {
    hide StoresInv, IsHead, HeadInv, VerdictsInv, DatasetMarkersInv, TxInv;
  }

  /** So the next turn is never one that is already there. */
  lemma NothingIsRepeated(c: Config, p: Process, answer: Answer)
    requires ReviewFree(c) && Inv(c, p) && p.pc.Ready? && TurnOf(c, p.pc.head, answer).Commit?
    ensures !AlreadyCommitted(p.stores.writer.disk, TurnOf(c, p.pc.head, answer).req)
  {
    hide Inv, CoreInv, PcInv, HeadsInv, Standing, TurnOf, GoodTurn, TxInv, Admissible, ManifestIntact, ManifestOf;
    InvParts(c, p);
    TurnIsGood(c, p.pc.head, answer);
    CoreHasTxInv(c, p.stores, p.pc.head);
    GoodTurnHasNextTx(c, p.pc.head, TurnOf(c, p.pc.head, answer));
    NextIdIsFree(c.run, p.stores.writer.disk.markers, p.pc.head, TurnOf(c, p.pc.head, answer).req.tx, TurnOf(c, p.pc.head, answer).next);
  }

  lemma CommittedMarkerKeepsInv(c: Config, p: Process, p': Process)
    requires Inv(c, p) && CommitNext(p, WriteMarker, p')
    ensures Inv(c, p')
  {
    hide Inv, CoreInv, PcInv, HeadsInv, Standing, StoresNext, GoodTurn, AfterCommit, ChargedBy, FreshCandidate, PointerFits, Settled;
    InvParts(c, p);
    var head, t := HeadOf(p), p.pc.turn;
    assert p.pc == Committing(head, t);
    CommittingFacts(c, p.stores, head, t);
    NextIsStanding(c, head, t);
    MarkerStep(c, p.stores, p'.stores, head, t);
    HeadsInvGrows(c, p.heads, t.next);
    InvOf(c, p', t.next);
  }

  lemma CommitKeepsInv(c: Config, p: Process, write: WriterStep, p': Process)
    requires Inv(c, p) && CommitNext(p, write, p')
    ensures Inv(c, p')
  {
    hide Inv, CoreInv, PcInv, HeadsInv, Standing, StoresNext, AfterCommit;
    InvParts(c, p);
    var head, t := HeadOf(p), p.pc.turn;
    assert p.pc == Committing(head, t);
    match write
    case WriteRecord(k) =>
      RecordStep(c, p.stores, k, p'.stores, head, t);
      InvOf(c, p', head);
    case WriteMarker =>
      CommittedMarkerKeepsInv(c, p, p');
    case WriteConflict(k) =>
      ConflictStep(c, p.stores, k, p'.stores, head, t);
      InvOf(c, p', head);
  }

  lemma PublishKeepsInv(c: Config, p: Process, d: Decision, p': Process)
    requires Inv(c, p) && PublishNext(p, d, p')
    ensures Inv(c, p')
  {
    hide Inv, CoreInv, PcInv, HeadsInv, Standing, StoresNext, BundleCommits, BundleRequestOf, LoadedRecord, AfterBundle;
    InvParts(c, p);
    assert p.pc == Publishing(HeadOf(p));
    PublishStep(c, p.stores, p'.stores, HeadOf(p), d);
    InvOf(c, p', HeadOf(p));
  }

  lemma PromotionKeepsInv(c: Config, p: Process, p': Process)
    requires Inv(c, p) && PromotionNext(p, p')
    ensures Inv(c, p')
  {
    hide Inv, CoreInv, PcInv, HeadsInv, Standing, StoresNext, LinksHold, PointerOf;
    InvParts(c, p);
    var head, d := HeadOf(p), p.pc.decision;
    assert p.pc == Promoting(head, d);
    if p'.pc.Ready? {
      AlreadyInstalledStep(c, p.stores, head, d);
    } else {
      BeginInstallStep(c, p.stores, p'.stores, head, d);
    }
    InvOf(c, p', head);
  }

  lemma InstallKeepsInv(c: Config, p: Process, p': Process)
    requires Inv(c, p) && InstallNext(p, p')
    ensures Inv(c, p')
  {
    hide Inv, CoreInv, PcInv, HeadsInv, Standing, StoresNext;
    InvParts(c, p);
    assert p.pc == Installing(HeadOf(p), p.pc.decision);
    InstallStep(c, p.stores, p'.stores, HeadOf(p), p.pc.decision);
    InvOf(c, p', HeadOf(p));
  }

  lemma MarkKeepsInv(c: Config, p: Process, p': Process)
    requires Inv(c, p) && MarkNext(p, p')
    ensures Inv(c, p')
  {
    hide Inv, CoreInv, PcInv, HeadsInv, Standing, StoresNext;
    InvParts(c, p);
    assert p.pc == Marking(HeadOf(p), p.pc.marker);
    MarkStep(c, p.stores, p'.stores, HeadOf(p), p.pc.marker);
    InvOf(c, p', HeadOf(p));
  }

  lemma UnlockKeepsInv(c: Config, p: Process, lock: StoreStep, p': Process)
    requires Inv(c, p) && UnlockNext(p, lock, p')
    ensures Inv(c, p')
  {
    hide Inv, CoreInv, PcInv, HeadsInv, Standing, StoresNext;
    InvParts(c, p);
    UnlockStep(c, p.stores, lock, p'.stores, HeadOf(p));
    InvOf(c, p', HeadOf(p));
  }

  /** Without reviews nobody refuses a candidate. */
  lemma NothingRefused(c: Config, p: Process)
    requires Inv(c, p)
    ensures !p.pc.PublishingRefused?
  {
    hide CoreInv, HeadsInv;
  }

  lemma ReadyFacts(c: Config, s: Stores, head: StateSnapshot)
    requires PcInv(c, s, Ready(head), head)
    ensures Settled(s, head) && s.writer.pending.None? && s.installing.None?
  {
  }

  /** No step of the process, and no crash, breaks the invariant. */
  lemma ProcessStepKeepsInv(c: Config, rank: Id -> int, p: Process, step: ProcessStep, p': Process)
    requires ReviewFree(c) && Inv(c, p) && ProcessNext(c, rank, p, step, p')
    ensures Inv(c, p')
  {
    hide Inv, CoreInv, PcInv, HeadsInv, Standing, ResumeNext, BeginNext, AlreadyCommitted, AfterCommit, CommitNext,
      PublishNext, Publishes, PromotionNext, InstallNext, MarkNext,
      UnlockNext, Reconciling, Interrupted, TurnOf, Settled;
    match step
    case Resume(head) => ResumeKeepsInv(c, rank, p, head, p');
    case BeginTurn(answer) => BeginKeepsInv(c, p, answer, p');
    case RepeatTurn(answer) => NothingIsRepeated(c, p, answer);
    case CommitStep(write) => CommitKeepsInv(c, p, write, p');
    case Publish(d) => PublishKeepsInv(c, p, d, p');
    case PublishRefused(d) => NothingRefused(c, p);
    case Promotion => PromotionKeepsInv(c, p, p');
    case Install => InstallKeepsInv(c, p, p');
    case Mark => MarkKeepsInv(c, p, p');
    case HumanRemovesLock(lock) => UnlockKeepsInv(c, p, lock, p');
    case Reconcile =>
      InvParts(c, p);
      ReadyFacts(c, p.stores, HeadOf(p));
      ReconcileStep(c, p.stores, HeadOf(p));
      InvOf(c, p', HeadOf(p));
    case Die(controlLock, peakLock) =>
      InvParts(c, p);
      DieStep(c, p.stores, controlLock, peakLock, HeadOf(p));
      InvOf(c, p', HeadOf(p));
  }
}
