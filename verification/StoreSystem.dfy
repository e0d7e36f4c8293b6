/** The four lineage stores in one workspace, under arbitrary clients.

    Every durable write of every store is one step, any process may crash between two of
    its steps, and nothing is assumed about what clients ask for: only the guards the stores
    themselves check. `installed` records the pointers that reached the pointer file. */
module StoreSystem {
  import opened Records
  import opened ControlStore
  import opened ControlProtocol
  import opened CheckpointStore
  import opened PeakStore
  import opened QuarantineStore

  datatype Stores = Stores(
    writer: Writer,
    bundles: map<Id, Bundle>,
    pointer: Option<PeakPointer>,
    history: map<HistoryKey, PeakPointer>,
    installing: Option<PeakPointer>,
    peakLocked: bool,
    quarantined: map<QuarantineKey, QuarantineMarker>,
    installed: seq<PeakPointer>)

  const EMPTY_STORES :=
    Stores(Writer(Disk(map[], map[]), None, false), map[], None, map[], None, false, map[], [])

  datatype StoreStep =
    | Control(step: WriterStep)
    | PublishBundle(req: BundleRequest)
    | BeginInstall(p: PeakPointer, expected: Option<Id>)
    | ReplacePointer
    | CrashInstall
    | DieHoldingPeakLock
    | RemoveStalePeakLock
    | WriteQuarantine(m: QuarantineMarker)

  ghost predicate StoresNext(s: Stores, step: StoreStep, s': Stores) {
    match step
    case Control(ws) =>
      WriterNext(s.writer, ws, s'.writer) && s' == s.(writer := s'.writer)
    case PublishBundle(req) =>
      && MayBundle(s.writer.disk, req) && req.checkpoint !in s.bundles
      && s' == s.(bundles := s.bundles[req.checkpoint := BundleOf(req)])
    case BeginInstall(p, expected) =>
      && !s.peakLocked && s.installing.None?
      && MayInstall(s.writer.disk, s.bundles, s.pointer, s.history, p, expected)
      && s' == s.(history := s.history[HistoryKeyOf(p) := p], installing := Some(p), peakLocked := true)
    case ReplacePointer =>
      && s.installing.Some?
      && s' == s.(pointer := s.installing, installing := None, peakLocked := false,
                  installed := s.installed + [s.installing.value])
    case CrashInstall =>
      s' == s.(installing := None)
    case DieHoldingPeakLock =>
      !s.peakLocked && s.installing.None? && s' == s.(peakLocked := true)
    case RemoveStalePeakLock =>
      s.installing.None? && s' == s.(peakLocked := false)
    case WriteQuarantine(m) =>
      && MarkerCommits(s.writer.disk, s.quarantined, m)
      && s' == s.(quarantined := s.quarantined[QuarantineKeyOf(m) := m])
  }

  // ---- Links never break ----

  ghost predicate BundlesKept(b: map<Id, Bundle>, b': map<Id, Bundle>) {
    forall c :: c in b ==> c in b' && b'[c] == b[c]
  }

  lemma TransactionStaysLoadable(d: Disk, d': Disk, tx: Id)
    requires LoadedTransaction(d, tx).Ok? && Grows(d, d')
    ensures LoadedTransaction(d', tx) == LoadedTransaction(d, tx)
  {
    MoreFilesStayIntact(d, d', d.markers[tx]);
  }

  lemma RecordStaysLoadable(d: Disk, d': Disk, k: Key)
    requires LoadedRecord(d, k).Ok? && Intact(d') && Grows(d, d')
    ensures LoadedRecord(d', k) == LoadedRecord(d, k)
  {
    CommittedViewGrows(d, d');
  }

  lemma BundleStaysLoadable(d: Disk, d': Disk, b: Bundle, c: Id)
    requires BundleLoads(d, b, c, None) && Grows(d, d')
    ensures BundleLoads(d', b, c, None)
  {
    TransactionStaysLoadable(d, d', b.manifest.tx);
  }

  /** Whatever the stores do next, a pointer's full link check keeps succeeding. */
  lemma LinksAreStable(d: Disk, d': Disk, b: map<Id, Bundle>, b': map<Id, Bundle>, p: PeakPointer)
    requires LinksHold(d, b, p) && Intact(d') && Grows(d, d') && BundlesKept(b, b')
    ensures LinksHold(d', b', p)
  {
    TransactionStaysLoadable(d, d', p.tx);
    RecordStaysLoadable(d, d', Key(DecisionKind, p.decision));
    BundleStaysLoadable(d, d', b[p.checkpoint], p.checkpoint);
  }

  lemma MarkerLinksAreStable(d: Disk, d': Disk, m: QuarantineMarker)
    requires MarkerLinksHold(d, m) && Intact(d') && Grows(d, d')
    ensures MarkerLinksHold(d', m)
  {
    TransactionStaysLoadable(d, d', m.tx);
    RecordStaysLoadable(d, d', Key(DecisionKind, m.decision));
  }

  // ---- The invariant ----

  ghost predicate BundlesLoad(d: Disk, bundles: map<Id, Bundle>) {
    forall c :: c in bundles ==> BundleLoads(d, bundles[c], c, None)
  }

  ghost predicate HistorySound(d: Disk, bundles: map<Id, Bundle>, history: map<HistoryKey, PeakPointer>) {
    forall k :: k in history ==> HistoryKeyOf(history[k]) == k && LinksHold(d, bundles, history[k])
  }

  ghost predicate QuarantineSound(d: Disk, quarantined: map<QuarantineKey, QuarantineMarker>) {
    forall k :: k in quarantined ==> QuarantineKeyOf(quarantined[k]) == k && MarkerLinksHold(d, quarantined[k])
  }

  function LastOf(installed: seq<PeakPointer>): Option<PeakPointer> {
    if installed == [] then None else Some(installed[|installed| - 1])
  }

  predicate InHistory(history: map<HistoryKey, PeakPointer>, p: PeakPointer) {
    HistoryKeyOf(p) in history && history[HistoryKeyOf(p)] == p
  }

  /** Each installed pointer names its predecessor, scores strictly more and never goes
      back in iteration; the first names none. */
  ghost predicate IsChain(installed: seq<PeakPointer>) {
    forall i :: 0 <= i < |installed| ==>
      Succeeds(LastOf(installed[..i]), installed[i], installed[i].previous)
  }

  ghost predicate PeakInv(
    installed: seq<PeakPointer>, history: map<HistoryKey, PeakPointer>, pointer: Option<PeakPointer>,
    installing: Option<PeakPointer>, peakLocked: bool)
  {
    && pointer == LastOf(installed)
    && IsChain(installed)
    && (forall p :: p in installed ==> InHistory(history, p))
    && (installing.Some? ==>
          && peakLocked && InHistory(history, installing.value)
          && Succeeds(pointer, installing.value, installing.value.previous))
  }

  ghost predicate StoresInv(s: Stores) {
    && WriterInv(s.writer)
    && BundlesLoad(s.writer.disk, s.bundles)
    && HistorySound(s.writer.disk, s.bundles, s.history)
    && QuarantineSound(s.writer.disk, s.quarantined)
    && PeakInv(s.installed, s.history, s.pointer, s.installing, s.peakLocked)
  }

  /** The four stores only ever add: files, markers, bundles, history, quarantine, chain. */
  ghost predicate StoresGrow(s: Stores, s': Stores) {
    && Grows(s.writer.disk, s'.writer.disk)
    && BundlesKept(s.bundles, s'.bundles)
    && (forall k :: k in s.history ==> k in s'.history && s'.history[k] == s.history[k])
    && (forall k :: k in s.quarantined ==> k in s'.quarantined && s'.quarantined[k] == s.quarantined[k])
    && s.installed <= s'.installed
  }

  lemma StoresGrowTransitive(a: Stores, b: Stores, c: Stores)
    requires StoresGrow(a, b) && StoresGrow(b, c)
    ensures StoresGrow(a, c)
  {
  }

  lemma BundlesStayLoadable(d: Disk, d': Disk, b: map<Id, Bundle>)
    requires BundlesLoad(d, b) && Grows(d, d')
    ensures BundlesLoad(d', b)
  {
    forall c | c in b ensures BundleLoads(d', b[c], c, None) { BundleStaysLoadable(d, d', b[c], c); }
  }

  lemma HistoryStaysSound(d: Disk, d': Disk, b: map<Id, Bundle>, b': map<Id, Bundle>, h: map<HistoryKey, PeakPointer>)
    requires HistorySound(d, b, h) && Intact(d') && Grows(d, d') && BundlesKept(b, b')
    ensures HistorySound(d', b', h)
  {
    forall k | k in h ensures LinksHold(d', b', h[k]) { LinksAreStable(d, d', b, b', h[k]); }
  }

  lemma QuarantineStaysSound(d: Disk, d': Disk, q: map<QuarantineKey, QuarantineMarker>)
    requires QuarantineSound(d, q) && Intact(d') && Grows(d, d')
    ensures QuarantineSound(d', q)
  {
    forall k | k in q ensures MarkerLinksHold(d', q[k]) { MarkerLinksAreStable(d, d', q[k]); }
  }

  lemma ControlKeepsInv(s: Stores, ws: WriterStep, s': Stores)
    requires StoresInv(s) && StoresNext(s, Control(ws), s')
    ensures StoresInv(s') && StoresGrow(s, s')
  {
    var d, d' := s.writer.disk, s'.writer.disk;
    WriterStepKeepsInv(s.writer, ws, s'.writer);
    BundlesStayLoadable(d, d', s.bundles);
    HistoryStaysSound(d, d', s.bundles, s.bundles, s.history);
    QuarantineStaysSound(d, d', s.quarantined);
  }

  lemma OneMoreBundle(d: Disk, b: map<Id, Bundle>, req: BundleRequest)
    requires BundlesLoad(d, b) && MayBundle(d, req)
    ensures BundlesLoad(d, b[req.checkpoint := BundleOf(req)])
  {
    PublishedBundleLoads(d, req);
  }

  lemma PublishKeepsInv(s: Stores, req: BundleRequest, s': Stores)
    requires StoresInv(s) && StoresNext(s, PublishBundle(req), s')
    ensures StoresInv(s') && StoresGrow(s, s')
  {
    hide DiskInv, PendingInv, BundlesLoad, HistorySound, QuarantineSound, PeakInv, MayBundle, Intact, BundleOf;
    var d := s.writer.disk;
    InvIsIntact(d);
    OneMoreBundle(d, s.bundles, req);
    assert Grows(d, d) && BundlesKept(s.bundles, s'.bundles);
    HistoryStaysSound(d, d, s.bundles, s'.bundles, s.history);
  }

  lemma InvIsIntact(d: Disk)
    requires DiskInv(d)
    ensures Intact(d)
  {
  }

  lemma OneMoreHistory(d: Disk, b: map<Id, Bundle>, h: map<HistoryKey, PeakPointer>, p: PeakPointer)
    requires HistorySound(d, b, h) && LinksHold(d, b, p)
    ensures HistorySound(d, b, h[HistoryKeyOf(p) := p])
  {
    hide LinksHold;
  }

  lemma HistoryBeforeInstall(s: Stores, p: PeakPointer)
    requires PeakInv(s.installed, s.history, s.pointer, s.installing, s.peakLocked)
    requires Succeeds(s.pointer, p, p.previous) && HistoryFree(s.history, p)
    ensures PeakInv(s.installed, s.history[HistoryKeyOf(p) := p], s.pointer, Some(p), true)
  {
    forall q | q in s.installed ensures InHistory(s.history[HistoryKeyOf(p) := p], q) {
      assert InHistory(s.history, q);
    }
  }

  lemma BeginInstallKeepsInv(s: Stores, p: PeakPointer, expected: Option<Id>, s': Stores)
    requires StoresInv(s) && StoresNext(s, BeginInstall(p, expected), s')
    ensures StoresInv(s') && StoresGrow(s, s')
  {
    hide WriterInv, BundlesLoad, HistorySound, QuarantineSound, PeakInv, LinksHold, CurrentLoads;
    OneMoreHistory(s.writer.disk, s.bundles, s.history, p);
    HistoryBeforeInstall(s, p);
  }

  lemma OneMoreInstalled(
    installed: seq<PeakPointer>, history: map<HistoryKey, PeakPointer>, p: PeakPointer)
    requires PeakInv(installed, history, LastOf(installed), Some(p), true)
    ensures PeakInv(installed + [p], history, Some(p), None, false)
  {
    var after := installed + [p];
    forall i | 0 <= i < |after| ensures Succeeds(LastOf(after[..i]), after[i], after[i].previous) {
      assert after[..i] == if i < |installed| then installed[..i] else installed;
    }
  }

  lemma ReplaceKeepsInv(s: Stores, s': Stores)
    requires StoresInv(s) && StoresNext(s, ReplacePointer, s')
    ensures StoresInv(s') && StoresGrow(s, s')
  {
    hide WriterInv, BundlesLoad, HistorySound, QuarantineSound, IsChain;
    OneMoreInstalled(s.installed, s.history, s.installing.value);
  }

  lemma OneMoreMarker(d: Disk, q: map<QuarantineKey, QuarantineMarker>, m: QuarantineMarker)
    requires QuarantineSound(d, q) && MarkerLinksHold(d, m) && MarkerFree(q, m)
    ensures QuarantineSound(d, q[QuarantineKeyOf(m) := m])
    ensures forall k :: k in q ==> q[QuarantineKeyOf(m) := m][k] == q[k]
  {
    hide MarkerLinksHold;
  }

  lemma QuarantineKeepsInv(s: Stores, m: QuarantineMarker, s': Stores)
    requires StoresInv(s) && StoresNext(s, WriteQuarantine(m), s')
    ensures StoresInv(s') && StoresGrow(s, s')
  {
    OneMoreMarker(s.writer.disk, s.quarantined, m);
  }

  lemma StoresStepKeepsInv(s: Stores, step: StoreStep, s': Stores)
    requires StoresInv(s) && StoresNext(s, step, s')
    ensures StoresInv(s') && StoresGrow(s, s')
  {
    match step
    case Control(ws) => ControlKeepsInv(s, ws, s');
    case PublishBundle(req) => PublishKeepsInv(s, req, s');
    case BeginInstall(p, expected) => BeginInstallKeepsInv(s, p, expected, s');
    case ReplacePointer => ReplaceKeepsInv(s, s');
    case WriteQuarantine(m) => QuarantineKeepsInv(s, m, s');
    case _ =>
  }

  // ---- What the invariant means for the Peak ----

  lemma {:induction false} ChainRises(installed: seq<PeakPointer>, i: nat, j: nat)
    requires IsChain(installed) && i < j < |installed|
    ensures installed[i].score < installed[j].score
    ensures installed[i].iteration <= installed[j].iteration
    decreases j
  {
    assert Succeeds(LastOf(installed[..j]), installed[j], installed[j].previous);
    assert LastOf(installed[..j]) == Some(installed[j - 1]);
    if i < j - 1 { ChainRises(installed, i, j - 1); }
  }

  lemma ChainNamesPredecessor(installed: seq<PeakPointer>, i: nat)
    requires IsChain(installed) && i < |installed|
    ensures installed[i].previous == if i == 0 then None else Some(installed[i - 1].checkpoint)
  {
    assert Succeeds(LastOf(installed[..i]), installed[i], installed[i].previous);
  }

  lemma BundleFixesHistoryKey(s: Stores, p: PeakPointer)
    requires StoresInv(s) && p in s.installed
    ensures p.checkpoint in s.bundles
    ensures InHistory(s.history, p) && p.iteration == s.bundles[p.checkpoint].manifest.iteration
  {
    assert InHistory(s.history, p);
    assert BundleLinkHolds(s.writer.disk, s.bundles, p);
  }

  /** The history file is what forbids a repeat: the same checkpoint has one bundle, so one
      iteration, so one history file, which already holds other bytes. */
  lemma NoRepeat(s: Stores, i: nat, j: nat)
    requires StoresInv(s) && i < j < |s.installed|
    ensures s.installed[i].checkpoint != s.installed[j].checkpoint
  {
    ChainRises(s.installed, i, j);
    BundleFixesHistoryKey(s, s.installed[i]);
    BundleFixesHistoryKey(s, s.installed[j]);
  }

  /** Every guard but the history file would let a checkpoint back in: its score may move
      within the tolerance, and so overtake a Peak that overtook it. */
  lemma OnlyHistoryStopsARepeat(
    d: Disk, bundles: map<Id, Bundle>, history: map<HistoryKey, PeakPointer>,
    p: PeakPointer, q: PeakPointer, again: PeakPointer)
    requires LinksHold(d, bundles, p) && LinksHold(d, bundles, q) && InHistory(history, p)
    requires p.checkpoint != q.checkpoint && p.iteration == q.iteration
    requires Succeeds(Some(p), q, Some(p.checkpoint))
    requires again == p.(previous := Some(q.checkpoint), score := again.score)
    requires q.score < again.score && ScoresClose(bundles[p.checkpoint].lineage.score, again.score)
    ensures CurrentLoads(d, bundles, Some(q)) && Some(q) != Some(again)
    ensures Succeeds(Some(q), again, Some(q.checkpoint)) && LinksHold(d, bundles, again)
    ensures !HistoryFree(history, again)
    ensures !MayInstall(d, bundles, Some(q), history, again, Some(q.checkpoint))
  {
  }

  // ---- Claims about whole runs ----

  ghost predicate IsStoreRun(states: seq<Stores>, steps: seq<StoreStep>) {
    && |states| == |steps| + 1
    && states[0] == EMPTY_STORES
    && forall i :: 0 <= i < |steps| ==> StoresNext(states[i], steps[i], states[i + 1])
  }

  lemma {:induction false} StoreRunKeepsInv(states: seq<Stores>, steps: seq<StoreStep>, n: nat)
    requires IsStoreRun(states, steps) && n < |states|
    ensures StoresInv(states[n])
  {
    if n > 0 {
      StoreRunKeepsInv(states, steps, n - 1);
      StoresStepKeepsInv(states[n - 1], steps[n - 1], states[n]);
    }
  }

  lemma StoreRunStepGrows(states: seq<Stores>, steps: seq<StoreStep>, n: nat)
    requires IsStoreRun(states, steps) && 0 < n < |states|
    ensures StoresGrow(states[n - 1], states[n])
  {
    StoreRunKeepsInv(states, steps, n - 1);
    StoresStepKeepsInv(states[n - 1], steps[n - 1], states[n]);
  }

  lemma {:induction false} GrowsBetween(states: seq<Stores>, m: nat, n: nat)
    requires forall i :: 0 < i < |states| ==> StoresGrow(states[i - 1], states[i])
    requires m <= n < |states|
    ensures StoresGrow(states[m], states[n])
    decreases n
  {
    if m < n {
      GrowsBetween(states, m, n - 1);
      StoresGrowTransitive(states[m], states[n - 1], states[n]);
    }
  }

  lemma StoreRunGrows(states: seq<Stores>, steps: seq<StoreStep>, m: nat, n: nat)
    requires IsStoreRun(states, steps) && m <= n < |states|
    ensures StoresGrow(states[m], states[n])
  {
    forall i | 0 < i < |states| ensures StoresGrow(states[i - 1], states[i]) {
      StoreRunStepGrows(states, steps, i);
    }
    GrowsBetween(states, m, n);
  }

  /** No checkpoint is ever installed as Peak twice: installed pointers form a simple chain
      with strictly rising scores and non-decreasing iterations, each has its exact bytes in
      history, and the last is the pointer file. */
  lemma PeakChainIsSimple(states: seq<Stores>, steps: seq<StoreStep>, n: nat)
    requires IsStoreRun(states, steps) && n < |states|
    ensures var s := states[n];
      && s.pointer == LastOf(s.installed)
      && (forall i :: 0 <= i < |s.installed| ==>
            && HistoryKey(s.installed[i].iteration, s.installed[i].checkpoint) in s.history
            && s.history[HistoryKey(s.installed[i].iteration, s.installed[i].checkpoint)] == s.installed[i]
            && s.installed[i].previous == if i == 0 then None else Some(s.installed[i - 1].checkpoint))
      && (forall i, j :: 0 <= i < j < |s.installed| ==>
            && s.installed[i].checkpoint != s.installed[j].checkpoint
            && s.installed[i].score < s.installed[j].score
            && s.installed[i].iteration <= s.installed[j].iteration)
  {
    StoreRunKeepsInv(states, steps, n);
    var s := states[n];
    forall i | 0 <= i < |s.installed|
      ensures InHistory(s.history, s.installed[i])
      ensures s.installed[i].previous == if i == 0 then None else Some(s.installed[i - 1].checkpoint)
    {
      ChainNamesPredecessor(s.installed, i);
    }
    forall i, j | 0 <= i < j < |s.installed|
      ensures && s.installed[i].checkpoint != s.installed[j].checkpoint
              && s.installed[i].score < s.installed[j].score
              && s.installed[i].iteration <= s.installed[j].iteration
    {
      NoRepeat(s, i, j);
      ChainRises(s.installed, i, j);
    }
  }

  /** Once a pointer or a quarantine marker is on disk, its full link verification succeeds
      in that state and in every later one. */
  lemma LinksNeverBreak(states: seq<Stores>, steps: seq<StoreStep>, m: nat, n: nat)
    requires IsStoreRun(states, steps) && m <= n < |states|
    ensures forall p :: p in states[m].installed ==>
      LinksHold(states[n].writer.disk, states[n].bundles, p)
    ensures forall k :: k in states[m].quarantined ==>
      && k in states[n].quarantined && states[n].quarantined[k] == states[m].quarantined[k]
      && MarkerLinksHold(states[n].writer.disk, states[m].quarantined[k])
  {
    StoreRunGrows(states, steps, m, n);
    StoreRunKeepsInv(states, steps, n);
    forall p | p in states[m].installed ensures LinksHold(states[n].writer.disk, states[n].bundles, p) {
      assert p in states[n].installed;
      assert InHistory(states[n].history, p);
    }
  }

  /** Whatever clients asked for and wherever processes died: a pointer that was ever installed names a
      committed decision of its run and iteration that promotes its very checkpoint, through a transaction
      that names that decision, and the published bundle is the one it was installed for. */
  lemma InstalledIsPromoted(states: seq<Stores>, steps: seq<StoreStep>, n: nat, p: PeakPointer)
    requires IsStoreRun(states, steps) && n < |states| && p in states[n].installed
    ensures var d, k := states[n].writer.disk, Key(DecisionKind, p.decision);
      && k in CommittedView(d) && CommittedView(d)[k].DecisionRecord?
      && var x := CommittedView(d)[k].decision;
      && x.id == p.decision && x.action == Promote && x.subjectType == CheckpointSubject && x.subject == p.checkpoint
      && x.run == p.run && x.iteration == p.iteration
      && p.tx in d.markers && d.markers[p.tx].run == p.run && d.markers[p.tx].iteration == p.iteration
      && k in d.markers[p.tx].refs && d.markers[p.tx].refs[k] == Sha256(DecisionRecord(x))
    ensures p.checkpoint in states[n].bundles
    ensures var b := states[n].bundles[p.checkpoint];
      && b.manifest.run == p.run && b.manifest.iteration == p.iteration && b.manifest.tx == p.tx
      && BundleDigest(b.manifest) == p.bundle && b.lineage.model == p.model
      && b.lineage.score <= p.score + 0.000000000001 && p.score <= b.lineage.score + 0.000000000001
  {
    hide StoresInv, Whole;
    var d := states[n].writer.disk;
    StoreRunKeepsInv(states, steps, n);
    InstalledLinksHold(states[n], p);
    LinksHoldIff(d, states[n].bundles, p);
    var x :| CommittedDecision(d, p.tx, x) && IsPromotion(x, p);
    CommittedHasFile(d, Key(DecisionKind, p.decision));
  }

  lemma InstalledLinksHold(s: Stores, p: PeakPointer)
    requires StoresInv(s) && p in s.installed
    ensures LinksHold(s.writer.disk, s.bundles, p)
  {
    hide WriterInv, BundlesLoad, QuarantineSound, IsChain, LinksHold;
    assert InHistory(s.history, p);
  }

  /** So a checkpoint is never installed on the strength of a decision that does not promote it. */
  lemma RefusedIsNeverInstalled(states: seq<Stores>, steps: seq<StoreStep>, n: nat, p: PeakPointer, x: Decision)
    requires IsStoreRun(states, steps) && n < |states| && x.id == p.decision
    requires Key(DecisionKind, x.id) in CommittedView(states[n].writer.disk)
    requires CommittedView(states[n].writer.disk)[Key(DecisionKind, x.id)] == DecisionRecord(x)
    requires x.action != Promote || x.subjectType != CheckpointSubject || x.subject != p.checkpoint
    ensures p !in states[n].installed && states[n].pointer != Some(p)
  {
    hide StoresNext, CommittedView;
    PeakChainIsSimple(states, steps, n);
    if p in states[n].installed { InstalledIsPromoted(states, steps, n, p); }
  }

  /** A quarantine marker repeats a committed decision of its run and iteration that refuses its subject,
      through a transaction that names that decision. */
  lemma QuarantinedIsRefused(states: seq<Stores>, steps: seq<StoreStep>, n: nat, at: QuarantineKey)
    requires IsStoreRun(states, steps) && n < |states| && at in states[n].quarantined
    ensures var d, m := states[n].writer.disk, states[n].quarantined[at];
      var k := Key(DecisionKind, m.decision);
      && at == QuarantineKey(m.iteration, m.subjectType, m.subject)
      && k in CommittedView(d) && CommittedView(d)[k].DecisionRecord?
      && var x := CommittedView(d)[k].decision;
      && x.id == m.decision && x.run == m.run && x.iteration == m.iteration
      && x.subjectType == m.subjectType && x.subject == m.subject
      && x.reasonCode == m.reasonCode && x.evidence == m.evidence
      && (x.action == Action.Quarantine || x.action == Action.Reject || x.action == Rollback)
      && m.tx in d.markers && d.markers[m.tx].run == m.run && d.markers[m.tx].iteration == m.iteration
      && k in d.markers[m.tx].refs && d.markers[m.tx].refs[k] == Sha256(DecisionRecord(x))
  {
    hide WriterInv, BundlesLoad, HistorySound, PeakInv;
    var d, m := states[n].writer.disk, states[n].quarantined[at];
    StoreRunKeepsInv(states, steps, n);
    MarkerLinksIff(d, m);
    var x :| CommittedDecision(d, m.tx, x) && RefusedBy(x, m);
    CommittedHasFile(d, Key(DecisionKind, m.decision));
  }

  /** Every published bundle is whole: manifest, payload and lineage are about its checkpoint and agree, it
      is not its own parent, and its transaction is committed, of its run and iteration. */
  lemma PublishedIsWhole(states: seq<Stores>, steps: seq<StoreStep>, n: nat, checkpoint: Id)
    requires IsStoreRun(states, steps) && n < |states| && checkpoint in states[n].bundles
    ensures var d, b := states[n].writer.disk, states[n].bundles[checkpoint];
      && b.manifest.checkpoint == checkpoint && b.payload.checkpoint == checkpoint && b.lineage.checkpoint == checkpoint
      && b.manifest.payload == Sha256(b.payload) && b.manifest.lineage == Sha256(b.lineage)
      && b.lineage.iteration == b.manifest.iteration && b.lineage.parent != Some(checkpoint)
      && b.manifest.tx in d.markers && d.markers[b.manifest.tx].tx == b.manifest.tx
      && d.markers[b.manifest.tx].run == b.manifest.run && d.markers[b.manifest.tx].iteration == b.manifest.iteration
  {
    hide WriterInv, HistorySound, QuarantineSound, PeakInv, BundleLoads;
    StoreRunKeepsInv(states, steps, n);
    BundleLoadsIff(states[n].writer.disk, states[n].bundles[checkpoint], checkpoint, None);
  }
}
