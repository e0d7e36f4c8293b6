/** `_bootstrap` one durable write at a time, from an empty workspace, with a crash anywhere, and
    whatever any later `run` does: which crash points a later `run` repairs.

    Bootstrap makes twelve durable writes: eight records, the marker, the bundle, the history entry
    and the pointer. A later `run` bootstraps again only if it finds no snapshot of the run. */
module BootRecovery {
  import opened Records
  import opened ControlStore
  import opened ControlProtocol
  import opened CommitRefinement
  import opened CheckpointStore
  import opened PeakStore
  import opened QuarantineStore
  import opened StoreSystem
  import opened Policy
  import opened Controller
  import opened RunState
  import opened Materialization
  import opened Bootstrap
  import opened CrashRecovery
  import opened CrashSafety
  import opened CrashTheorems
  import opened TurnRuns
  import opened ReviewedRuns
  import opened PeakedTurns

  datatype BootPc = BootIdle | BootWriting | BootPublishing | BootInstalling | BootReplacing | BootDone

  /** A workspace before the run's first snapshot is handed to the loop, and after. */
  datatype Life = Booting(booting: Stores, at: BootPc) | Running(process: Process)

  datatype LifeStep =
    | StartBootstrap
    | WriteBoot(write: WriterStep)
    | PublishBase
    | BeginFirstInstall
    | ReplaceFirst
    | EnterLoop
    | DieBooting(controlLock: bool, peakLock: bool)
    | RemoveLock(lock: StoreStep)
    | FindSnapshot
    | Live(step: ProcessStep)

  function StoresOf(l: Life): Stores {
    match l
    case Booting(s, _) => s
    case Running(p) => p.stores
  }

  ghost predicate WriteBootNext(s: Stores, write: WriterStep, l': Life) {
    match write
    case WriteRecord(_) => l'.Booting? && StoresNext(s, Control(write), l'.booting) && l'.at == BootWriting
    case WriteMarker => l'.Booting? && StoresNext(s, Control(write), l'.booting) && l'.at == BootPublishing
    case WriteConflict(_) => l'.Booting? && StoresNext(s, Control(write), l'.booting) && l'.at == BootIdle
    case _ => false
  }

  ghost predicate BootNext(c: Config, e: BootEvidence, s: Stores, at: BootPc, step: LifeStep, l': Life) {
    match step
    case StartBootstrap =>
      && at == BootIdle && s.pointer.None? && (forall x :: !InView(CommittedView(s.writer.disk), c.run, x))
      && l'.Booting? && StoresNext(s, Control(BeginCommit(BootRequest(c, e))), l'.booting) && l'.at == BootWriting
    case WriteBoot(write) => at == BootWriting && WriteBootNext(s, write, l')
    case PublishBase =>
      && at == BootPublishing && BundleCommits(s.writer.disk, s.bundles, BootBundle(c))
      && l'.Booting? && l'.at == BootInstalling
      && if c.base in s.bundles then l'.booting == s else StoresNext(s, PublishBundle(BootBundle(c)), l'.booting)
    case BeginFirstInstall =>
      && at == BootInstalling && l'.Booting? && l'.at == BootReplacing
      && StoresNext(s, BeginInstall(BootPointer(c, e), None), l'.booting)
    case ReplaceFirst =>
      at == BootReplacing && l'.Booting? && l'.at == BootDone && StoresNext(s, ReplacePointer, l'.booting)
    case EnterLoop =>
      at == BootDone && l' == Running(Process(s, Reconciling(FirstHead(c, e)), [FirstHead(c, e)]))
    case DieBooting(controlLock, peakLock) => l' == Booting(Interrupted(s, controlLock, peakLock), BootIdle)
    case RemoveLock(lock) =>
      && at == BootIdle && (lock == Control(RemoveStaleLock) || lock == RemoveStalePeakLock)
      && l'.Booting? && l'.at == BootIdle && StoresNext(s, lock, l'.booting)
    case FindSnapshot =>
      && at == BootIdle && (exists x :: InView(CommittedView(s.writer.disk), c.run, x))
      && l' == Running(Process(s, Down, [FirstHead(c, e)]))
    case Live(_) => false
  }

  ghost predicate LifeNext(c: Config, rank: Id -> int, e: BootEvidence, l: Life, step: LifeStep, l': Life) {
    match l
    case Booting(s, at) => BootNext(c, e, s, at, step, l')
    case Running(p) => step.Live? && l'.Running? && ProcessNext(c, rank, p, step.step, l'.process)
  }

  ghost predicate LifeFollows(c: Config, rank: Id -> int, e: BootEvidence, lives: seq<Life>, steps: seq<LifeStep>) {
    && |lives| == |steps| + 1
    && forall i :: 0 <= i < |steps| ==> LifeNext(c, rank, e, lives[i], steps[i], lives[i + 1])
  }

  ghost predicate IsLife(c: Config, rank: Id -> int, e: BootEvidence, lives: seq<Life>, steps: seq<LifeStep>) {
    FitEvidence(c, e) && LifeFollows(c, rank, e, lives, steps) && lives[0] == Booting(EMPTY_STORES, BootIdle)
  }

  /** How many of bootstrap's writes are on disk. */
  function DurableWrites(s: Stores): nat {
    |s.writer.disk.files| + |s.writer.disk.markers| + |s.bundles| + |s.history| + if s.pointer.Some? then 1 else 0
  }

  // ---- What can be on disk ----

  function BasePublished(c: Config): map<Id, Bundle> {
    map[c.base := BundleOf(BootBundle(c))]
  }

  function FirstHistory(c: Config, e: BootEvidence): map<HistoryKey, PeakPointer> {
    map[HistoryKeyOf(BootPointer(c, e)) := BootPointer(c, e)]
  }

  /** Some records, no marker. */
  ghost predicate Uncommitted(c: Config, e: BootEvidence, s: Stores) {
    && s.writer.disk.markers == map[] && FilesGrew(map[], PayloadOf(BootRecords(c, e)), s.writer.disk.files)
    && s.bundles == map[] && s.history == map[] && s.pointer.None? && s.installed == []
  }

  /** The transaction, and then the bundle and the history entry, but not the pointer. */
  ghost predicate Stranded(c: Config, e: BootEvidence, s: Stores, k: nat) {
    && 9 <= k <= 11 && s.writer.disk == BootDisk(c, e)
    && s.bundles == (if k == 9 then map[] else BasePublished(c))
    && s.history == (if k == 11 then FirstHistory(c, e) else map[])
    && s.pointer.None? && s.installed == []
  }

  ghost predicate Whole(c: Config, e: BootEvidence, s: Stores) {
    && s.writer.disk == BootDisk(c, e) && s.bundles == BasePublished(c) && s.history == FirstHistory(c, e)
    && s.pointer == Some(BootPointer(c, e)) && s.installed == [BootPointer(c, e)]
  }

  ghost predicate BootInvAt(c: Config, e: BootEvidence, s: Stores, at: BootPc) {
    && StoresInv(s) && s.quarantined == map[]
    && (at != BootWriting ==> s.writer.pending.None?) && (at != BootReplacing ==> s.installing.None?)
    && match at
       case BootIdle => Uncommitted(c, e, s) || (exists k :: Stranded(c, e, s, k)) || Whole(c, e, s)
       case BootWriting => Uncommitted(c, e, s) && s.writer.pending.Some? && s.writer.pending.value.req == BootRequest(c, e)
       case BootPublishing => Stranded(c, e, s, 9) && !s.writer.locked
       case BootInstalling => Stranded(c, e, s, 10) && !s.writer.locked
       case BootReplacing => Stranded(c, e, s, 11) && !s.writer.locked && s.installing == Some(BootPointer(c, e))
       case BootDone => Whole(c, e, s) && !s.writer.locked && !s.peakLocked
  }

  ghost predicate LifeInv(c: Config, e: BootEvidence, l: Life) {
    match l
    case Booting(s, at) => BootInvAt(c, e, s, at)
    case Running(p) => StoresInv(p.stores)
  }

  lemma BootKeepsStoresInv(c: Config, e: BootEvidence, s: Stores, at: BootPc, step: LifeStep, l': Life)
    requires StoresInv(s) && BootNext(c, e, s, at, step, l')
    ensures StoresInv(StoresOf(l'))
  {
    hide StoresInv, StoresNext, InView, CommittedView, BundleCommits, BootRequest, BootBundle, BootPointer, Interrupted;
    match step
    case StartBootstrap => StoresStepKeepsInv(s, Control(BeginCommit(BootRequest(c, e))), l'.booting);
    case WriteBoot(write) => StoresStepKeepsInv(s, Control(write), l'.booting);
    case PublishBase => if l'.booting != s { StoresStepKeepsInv(s, PublishBundle(BootBundle(c)), l'.booting); }
    case BeginFirstInstall => StoresStepKeepsInv(s, BeginInstall(BootPointer(c, e), None), l'.booting);
    case ReplaceFirst => StoresStepKeepsInv(s, ReplacePointer, l'.booting);
    case DieBooting(controlLock, peakLock) => InterruptedKeepsInv(s, controlLock, peakLock);
    case RemoveLock(lock) => StoresStepKeepsInv(s, lock, l'.booting);
    case _ =>
  }

  // ---- Bootstrap's own steps ----

  lemma FirstHeadIsInView(c: Config, e: BootEvidence)
    requires FitEvidence(c, e)
    ensures InView(CommittedView(BootDisk(c, e)), c.run, FirstHead(c, e))
  {
    hide InView, BootDisk, CommittedView;
    BootHeadIsHead(c, e);
  }

  /** Bootstrap starts only over uncommitted records: a marker would show its snapshots. */
  lemma OnlyUncommittedStarts(c: Config, e: BootEvidence, s: Stores)
    requires FitEvidence(c, e) && BootInvAt(c, e, s, BootIdle) && forall x :: !InView(CommittedView(s.writer.disk), c.run, x)
    ensures Uncommitted(c, e, s)
  {
    hide StoresInv, InView, CommittedView, BootDisk, Uncommitted;
    FirstHeadIsInView(c, e);
  }

  lemma StartStep(c: Config, e: BootEvidence, s: Stores, l': Life)
    requires FitEvidence(c, e) && BootInvAt(c, e, s, BootIdle) && BootNext(c, e, s, BootIdle, StartBootstrap, l') && StoresInv(l'.booting)
    ensures LifeInv(c, e, l')
  {
    OnlyUncommittedStarts(c, e, s);
    hide StoresInv, InView, CommittedView, BootDisk, Uncommitted, MayStart, PayloadOf, BootRequest;
    SameUncommitted(c, e, s, l'.booting);
  }

  lemma SameUncommitted(c: Config, e: BootEvidence, s: Stores, s': Stores)
    requires Uncommitted(c, e, s) && SameFiles(s, s')
    ensures Uncommitted(c, e, s')
  {
    hide PayloadOf;
  }

  lemma WriteRecordStep(c: Config, e: BootEvidence, s: Stores, k: Key, l': Life)
    requires BootInvAt(c, e, s, BootWriting) && WriteBootNext(s, WriteRecord(k), l') && StoresInv(l'.booting)
    ensures LifeInv(c, e, l')
  {
    hide StoresInv, PayloadOf, BootRecords;
  }

  lemma AllWrittenIsBootDisk(c: Config, e: BootEvidence, s: Stores)
    requires StoresInv(s) && Uncommitted(c, e, s) && s.writer.pending.Some? && s.writer.pending.value == Pending(BootRequest(c, e), {})
    ensures Disk(s.writer.disk.files, s.writer.disk.markers[BootTx(c) := ManifestOf(BootRequest(c, e))]) == BootDisk(c, e)
  {
    hide BundlesLoad, HistorySound, QuarantineSound, PeakInv, DiskInv, MayStart, PayloadOf, BootRecords;
    var p := PayloadOf(BootRecords(c, e));
    assert s.writer.disk.files == p;
    assert EMPTY_DISK.files + p == p;
  }

  lemma WriteMarkerStep(c: Config, e: BootEvidence, s: Stores, l': Life)
    requires BootInvAt(c, e, s, BootWriting) && WriteBootNext(s, WriteMarker, l') && StoresInv(l'.booting)
    ensures LifeInv(c, e, l')
  {
    AllWrittenIsBootDisk(c, e, s);
    hide StoresInv, PayloadOf, BootDisk, ManifestOf, BootRecords;
  }

  /** The files are all bootstrap's own, so none conflicts. */
  lemma NothingConflictsInBoot(c: Config, e: BootEvidence, s: Stores, k: Key, l': Life)
    requires BootInvAt(c, e, s, BootWriting)
    ensures !WriteBootNext(s, WriteConflict(k), l')
  {
    hide StoresInv, PayloadOf, BootRecords;
  }

  lemma PublishBaseStep(c: Config, e: BootEvidence, s: Stores, l': Life)
    requires BootInvAt(c, e, s, BootPublishing) && BootNext(c, e, s, BootPublishing, PublishBase, l') && StoresInv(l'.booting)
    ensures LifeInv(c, e, l')
  {
    hide StoresInv, BootDisk, BundleOf, MayBundle;
  }

  lemma FirstInstallStep(c: Config, e: BootEvidence, s: Stores, l': Life)
    requires BootInvAt(c, e, s, BootInstalling) && BootNext(c, e, s, BootInstalling, BeginFirstInstall, l') && StoresInv(l'.booting)
    ensures LifeInv(c, e, l')
  {
    hide StoresInv, BootDisk, BundleOf, MayInstall, BootPointer, HistoryKeyOf;
  }

  lemma ReplaceFirstStep(c: Config, e: BootEvidence, s: Stores, l': Life)
    requires BootInvAt(c, e, s, BootReplacing) && BootNext(c, e, s, BootReplacing, ReplaceFirst, l') && StoresInv(l'.booting)
    ensures LifeInv(c, e, l')
  {
    hide StoresInv, BootDisk, BundleOf, BootPointer, HistoryKeyOf;
  }

  /** What a crash leaves is a point a later run can start from. */
  lemma IdleAgain(c: Config, e: BootEvidence, s: Stores, at: BootPc, s': Stores)
    requires BootInvAt(c, e, s, at) && SameFiles(s, s') && StoresInv(s') && s'.writer.pending.None? && s'.installing.None?
    ensures BootInvAt(c, e, s', BootIdle)
  {
    hide StoresInv, BootDisk, BundleOf, BootPointer, PayloadOf, BasePublished, FirstHistory;
    if at == BootPublishing { assert Stranded(c, e, s', 9); }
    if at == BootInstalling { assert Stranded(c, e, s', 10); }
    if at == BootReplacing { assert Stranded(c, e, s', 11); }
    if k :| at == BootIdle && Stranded(c, e, s, k) { assert Stranded(c, e, s', k); }
  }

  lemma DieBootingStep(c: Config, e: BootEvidence, s: Stores, at: BootPc, controlLock: bool, peakLock: bool)
    requires BootInvAt(c, e, s, at)
    ensures BootInvAt(c, e, Interrupted(s, controlLock, peakLock), BootIdle)
  {
    BootStoresAreSound(c, e, s, at);
    InterruptedKeepsInv(s, controlLock, peakLock);
    hide BootInvAt, StoresInv;
    IdleAgain(c, e, s, at, Interrupted(s, controlLock, peakLock));
  }

  lemma BootStoresAreSound(c: Config, e: BootEvidence, s: Stores, at: BootPc)
    requires BootInvAt(c, e, s, at)
    ensures StoresInv(s)
  {
    hide StoresInv, Uncommitted, Stranded, Whole;
  }

  lemma RemoveLockStep(c: Config, e: BootEvidence, s: Stores, lock: StoreStep, s': Stores)
    requires BootInvAt(c, e, s, BootIdle) && StoresNext(s, lock, s') && (lock == Control(RemoveStaleLock) || lock == RemoveStalePeakLock)
    ensures BootInvAt(c, e, s', BootIdle)
  {
    BootStoresAreSound(c, e, s, BootIdle);
    StoresStepKeepsInv(s, lock, s');
    RemovedLock(c, e, s, lock, s');
    hide BootInvAt, StoresInv, StoresNext;
    IdleAgain(c, e, s, BootIdle, s');
  }

  lemma RemovedLock(c: Config, e: BootEvidence, s: Stores, lock: StoreStep, s': Stores)
    requires BootInvAt(c, e, s, BootIdle) && StoresNext(s, lock, s') && (lock == Control(RemoveStaleLock) || lock == RemoveStalePeakLock)
    ensures SameFiles(s, s') && s'.writer.pending.None? && s'.installing.None?
  {
    hide StoresInv, Uncommitted, Stranded, Whole;
  }

  lemma BootStepKeepsInv(c: Config, e: BootEvidence, s: Stores, at: BootPc, step: LifeStep, l': Life)
    requires FitEvidence(c, e) && BootInvAt(c, e, s, at) && BootNext(c, e, s, at, step, l')
    ensures LifeInv(c, e, l')
  {
    hide BootInvAt, StoresInv, InView, CommittedView, BundleCommits, BootRequest, BootBundle, BootPointer, WriteBootNext,
      StoresNext, Interrupted,
      FitEvidence, Reconciling, FirstHead;
    BootStoresAreSound(c, e, s, at);
    BootKeepsStoresInv(c, e, s, at, step, l');
    match step
    case StartBootstrap => StartStep(c, e, s, l');
    case WriteBoot(write) => WriteBootStep(c, e, s, write, l');
    case PublishBase => PublishBaseStep(c, e, s, l');
    case BeginFirstInstall => FirstInstallStep(c, e, s, l');
    case ReplaceFirst => ReplaceFirstStep(c, e, s, l');
    case DieBooting(controlLock, peakLock) => DieBootingStep(c, e, s, at, controlLock, peakLock);
    case RemoveLock(lock) => RemoveLockStep(c, e, s, lock, l'.booting);
    case _ =>
  }

  lemma WriteBootStep(c: Config, e: BootEvidence, s: Stores, write: WriterStep, l': Life)
    requires BootInvAt(c, e, s, BootWriting) && WriteBootNext(s, write, l') && StoresInv(StoresOf(l'))
    ensures LifeInv(c, e, l')
  {
    hide StoresInv, Uncommitted, StoresNext, BootInvAt;
    match write
    case WriteRecord(k) => WriteRecordStep(c, e, s, k, l');
    case WriteMarker => WriteMarkerStep(c, e, s, l');
    case WriteConflict(k) => NothingConflictsInBoot(c, e, s, k, l');
  }

  lemma LifeStepKeepsInv(c: Config, rank: Id -> int, e: BootEvidence, l: Life, step: LifeStep, l': Life)
    requires FitEvidence(c, e) && LifeInv(c, e, l) && LifeNext(c, rank, e, l, step, l')
    ensures LifeInv(c, e, l')
  {
    hide StoresInv, BootInvAt, BootNext, ProcessNext;
    match l
    case Booting(s, at) => BootStepKeepsInv(c, e, s, at, step, l');
    case Running(p) => ProcessKeepsStoresInv(c, rank, p, step.step, l'.process);
  }

  lemma {:induction false} LifeKeepsInv(c: Config, rank: Id -> int, e: BootEvidence, lives: seq<Life>, steps: seq<LifeStep>, n: nat)
    requires IsLife(c, rank, e, lives, steps) && n < |lives|
    ensures LifeInv(c, e, lives[n])
  {
    hide LifeInv, LifeNext, FitEvidence;
    if n == 0 {
      EmptyIsUncommitted(c, e);
    } else {
      LifeKeepsInv(c, rank, e, lives, steps, n - 1);
      LifeStepKeepsInv(c, rank, e, lives[n - 1], steps[n - 1], lives[n]);
    }
  }

  lemma EmptyIsUncommitted(c: Config, e: BootEvidence)
    ensures LifeInv(c, e, Booting(EMPTY_STORES, BootIdle))
  {
    hide PayloadOf;
  }

  // ---- Counting the writes ----

  /** The eight records have eight keys. */
  lemma EightRecords(c: Config, e: BootEvidence)
    requires FitEvidence(c, e)
    ensures |PayloadOf(BootRecords(c, e))| == 8
  {
    BootAdmissible(c, e);
    hide BootRecords, PayloadOf;
    PayloadSize(BootRequest(c, e), 8);
    assert |BootRecords(c, e)| == 8 by { BootLength(c, e); }
    assert BootRecords(c, e)[..8] == BootRecords(c, e);
  }

  lemma BootLength(c: Config, e: BootEvidence)
    ensures |BootRecords(c, e)| == 8
  {
  }

  lemma {:induction false} PayloadSize(req: Request, n: nat)
    requires Admissible(req) && n <= |req.records|
    ensures |PayloadOf(req.records[..n])| == n
  {
    if n > 0 {
      PayloadSize(req, n - 1);
      PayloadStep(req.records, n - 1);
    }
  }

  lemma CountsUncommitted(c: Config, e: BootEvidence, s: Stores)
    requires FitEvidence(c, e) && Uncommitted(c, e, s)
    ensures DurableWrites(s) <= 8
  {
    hide PayloadOf, BootRecords;
    EightRecords(c, e);
    Fewer(s.writer.disk.files, PayloadOf(BootRecords(c, e)));
  }

  lemma Fewer(a: Payload, b: Payload)
    requires a.Keys <= b.Keys
    ensures |a| <= |b|
  {
    NoLarger(a.Keys, b.Keys);
    assert |a| == |a.Keys| && |b| == |b.Keys|;
  }

  lemma {:induction false} NoLarger(a: set<Key>, b: set<Key>)
    requires a <= b
    ensures |a| <= |b|
  {
    if a != {} {
      var k :| k in a;
      NoLarger(a - {k}, b - {k});
    }
  }

  lemma CountsBootDisk(c: Config, e: BootEvidence)
    requires FitEvidence(c, e)
    ensures |BootDisk(c, e).files| == 8 && |BootDisk(c, e).markers| == 1
  {
    hide PayloadOf, BootRecords;
    EightRecords(c, e);
    assert EMPTY_DISK.files + PayloadOf(BootRecords(c, e)) == PayloadOf(BootRecords(c, e));
  }

  lemma CountsStranded(c: Config, e: BootEvidence, s: Stores, k: nat)
    requires FitEvidence(c, e) && Stranded(c, e, s, k)
    ensures DurableWrites(s) == k
  {
    hide BootDisk, BundleOf, BootPointer;
    CountsBootDisk(c, e);
  }

  lemma CountsWhole(c: Config, e: BootEvidence, s: Stores)
    requires FitEvidence(c, e) && Whole(c, e, s)
    ensures DurableWrites(s) == 12
  {
    hide BootDisk, BundleOf, BootPointer;
    CountsBootDisk(c, e);
  }

  // ---- Repair ----

  lemma LivesJoin(
    c: Config, rank: Id -> int, e: BootEvidence, lives: seq<Life>, steps: seq<LifeStep>, more: seq<Life>, taken: seq<LifeStep>)
    requires LifeFollows(c, rank, e, lives, steps) && LifeFollows(c, rank, e, more, taken) && lives[|steps|] == more[0]
    ensures LifeFollows(c, rank, e, lives + more[1..], steps + taken)
    ensures (lives + more[1..])[|steps + taken|] == more[|taken|]
  {
    hide LifeNext;
    var all, walk := lives + more[1..], steps + taken;
    forall i | 0 <= i < |walk| ensures LifeNext(c, rank, e, all[i], walk[i], all[i + 1]) {
      if i < |steps| {
        assert all[i] == lives[i] && all[i + 1] == lives[i + 1];
      } else {
        assert all[i] == more[i - |steps|] && all[i + 1] == more[i - |steps| + 1] && walk[i] == taken[i - |steps|];
      }
    }
  }

  lemma GoesOn(c: Config, rank: Id -> int, e: BootEvidence, lives: seq<Life>, steps: seq<LifeStep>, step: LifeStep, l: Life)
    requires LifeFollows(c, rank, e, lives, steps) && LifeNext(c, rank, e, lives[|steps|], step, l)
    ensures LifeFollows(c, rank, e, lives + [l], steps + [step])
  {
    hide LifeNext;
    LivesJoin(c, rank, e, lives, steps, [lives[|steps|], l], [step]);
    assert lives + [lives[|steps|], l][1..] == lives + [l];
  }

  function Unlocked(s: Stores): Stores {
    s.(writer := Writer(s.writer.disk, None, false), peakLocked := false)
  }

  /** A human removes what locks there are. */
  lemma LocksAreRemoved(c: Config, rank: Id -> int, e: BootEvidence, s: Stores) returns (lives: seq<Life>, steps: seq<LifeStep>)
    requires s.writer.pending.None? && s.installing.None?
    ensures LifeFollows(c, rank, e, lives, steps)
    ensures lives[0] == Booting(s, BootIdle) && lives[|steps|] == Booting(Unlocked(s), BootIdle)
  {
    hide LifeNext;
    var half := s.(writer := Writer(s.writer.disk, None, false));
    lives := [Booting(s, BootIdle), Booting(half, BootIdle), Booting(Unlocked(s), BootIdle)];
    steps := [RemoveLock(Control(RemoveStaleLock)), RemoveLock(RemoveStalePeakLock)];
    UnlockIsALifeStep(c, rank, e, s, Control(RemoveStaleLock), half);
    UnlockIsALifeStep(c, rank, e, half, RemoveStalePeakLock, Unlocked(s));
  }

  lemma UnlockIsALifeStep(c: Config, rank: Id -> int, e: BootEvidence, s: Stores, lock: StoreStep, s': Stores)
    requires StoresNext(s, lock, s') && (lock == Control(RemoveStaleLock) || lock == RemoveStalePeakLock)
    ensures LifeNext(c, rank, e, Booting(s, BootIdle), RemoveLock(lock), Booting(s', BootIdle))
  {
    hide StoresNext, ProcessNext;
  }

  lemma UncommittedMayStart(c: Config, e: BootEvidence, s: Stores)
    requires FitEvidence(c, e) && Uncommitted(c, e, s)
    ensures MayStart(s.writer.disk, BootRequest(c, e)) && NoConflict(s.writer.disk, PayloadOf(BootRecords(c, e)))
    ensures CommittedView(s.writer.disk) == map[] && Finished(s.writer.disk, BootRequest(c, e)) == BootDisk(c, e)
  {
    hide PayloadOf, BootRecords, DependenciesHold, Admissible;
    var d, p := s.writer.disk, PayloadOf(BootRecords(c, e));
    BootMayStart(c, e);
    assert CommittedView(d) == map[] && CommittedView(EMPTY_DISK) == map[];
    assert d.files + p == p && EMPTY_DISK.files + p == p;
  }

  function LifeStepOf(ws: WriterStep): LifeStep {
    if ws.BeginCommit? then StartBootstrap else WriteBoot(ws)
  }

  function WritingLife(s: Stores, w: Writer): Life {
    Booting(s.(writer := w), BootWriting)
  }

  lemma StartIsALifeStep(c: Config, rank: Id -> int, e: BootEvidence, s: Stores, w: Writer)
    requires Uncommitted(c, e, s) && CommittedView(s.writer.disk) == map[]
    requires WriterNext(s.writer, BeginCommit(BootRequest(c, e)), w)
    ensures LifeNext(c, rank, e, Booting(s, BootIdle), StartBootstrap, WritingLife(s, w))
  {
    hide CommittedView, MayStart, PayloadOf, BootRequest;
  }

  lemma WriteIsALifeStep(c: Config, rank: Id -> int, e: BootEvidence, s: Stores, w: Writer, ws: WriterStep, w': Writer)
    requires ws.WriteRecord? && WriterNext(w, ws, w')
    ensures LifeNext(c, rank, e, WritingLife(s, w), WriteBoot(ws), WritingLife(s, w'))
  {
    hide PayloadOf;
  }

  lemma MarkerIsALifeStep(c: Config, rank: Id -> int, e: BootEvidence, s: Stores, w: Writer, w': Writer)
    requires WriterNext(w, WriteMarker, w')
    ensures LifeNext(c, rank, e, WritingLife(s, w), WriteBoot(WriteMarker), Booting(s.(writer := w'), BootPublishing))
  {
    hide PayloadOf, ManifestOf;
  }

  lemma WritesAreLifeSteps(c: Config, rank: Id -> int, e: BootEvidence, s: Stores, ws: seq<Writer>, writes: seq<WriterStep>)
    returns (lives: seq<Life>, steps: seq<LifeStep>)
    requires Uncommitted(c, e, s) && CommittedView(s.writer.disk) == map[] && IsWriterRun(ws, writes) && ws[0] == s.writer
    requires writes != [] && writes[0] == BeginCommit(BootRequest(c, e))
    requires forall i :: 0 < i < |writes| ==> writes[i].WriteRecord?
    ensures LifeFollows(c, rank, e, lives, steps)
    ensures lives[0] == Booting(s, BootIdle) && lives[|steps|] == WritingLife(s, ws[|writes|])
  {
    hide WriterNext, LifeNext, WritingLife, CommittedView, Uncommitted, BootRequest;
    lives := [Booting(s, BootIdle)] + seq(|writes|, i requires 0 <= i < |writes| => WritingLife(s, ws[i + 1]));
    steps := seq(|writes|, i requires 0 <= i < |writes| => LifeStepOf(writes[i]));
    forall i | 0 <= i < |steps| ensures LifeNext(c, rank, e, lives[i], steps[i], lives[i + 1]) {
      assert WriterNext(ws[i], writes[i], ws[i + 1]);
      if i == 0 {
        StartIsALifeStep(c, rank, e, s, ws[1]);
      } else {
        WriteIsALifeStep(c, rank, e, s, ws[i], writes[i], ws[i + 1]);
      }
    }
  }

  /** Bootstrap, started over, reaches its marker. */
  lemma TransactionIsRedone(c: Config, rank: Id -> int, e: BootEvidence, s: Stores) returns (lives: seq<Life>, steps: seq<LifeStep>)
    requires FitEvidence(c, e) && Uncommitted(c, e, s) && s.writer.pending.None? && !s.writer.locked
    ensures LifeFollows(c, rank, e, lives, steps)
    ensures lives[0] == Booting(s, BootIdle)
    ensures lives[|steps|] == Booting(s.(writer := Writer(BootDisk(c, e), None, false)), BootPublishing)
  {
    UncommittedMayStart(c, e, s);
    hide PayloadOf, BootRecords, MayStart, Midway, WriterNext, LifeNext, CommittedView, Finished, BootDisk, Uncommitted;
    var d, req := s.writer.disk, BootRequest(c, e);
    var keys := PayloadOf(req.records).Keys;
    assert s.writer == Writer(d, None, false);
    assert forall k :: k in keys ==> !Conflicts(d, PayloadOf(req.records), k);
    var ws, writes := WritesAnySet(d, req, keys);
    lives, steps := WritesAreLifeSteps(c, rank, e, s, ws, writes);
    MarkerFinishes(d, req);
    MarkerIsALifeStep(c, rank, e, s, ws[|writes|], Writer(Finished(d, req), None, false));
    GoesOn(c, rank, e, lives, steps, WriteBoot(WriteMarker), Booting(s.(writer := Writer(BootDisk(c, e), None, false)), BootPublishing));
    lives := lives + [Booting(s.(writer := Writer(BootDisk(c, e), None, false)), BootPublishing)];
    steps := steps + [WriteBoot(WriteMarker)];
  }

  lemma BaseMayBePublished(c: Config, e: BootEvidence)
    requires FitEvidence(c, e)
    ensures BundleCommits(BootDisk(c, e), map[], BootBundle(c))
    ensures MayInstall(BootDisk(c, e), BasePublished(c), None, map[], BootPointer(c, e), None)
  {
    hide PayloadOf, BootRecords, CommittedView, BootDisk, LoadedRecord, LinksHold;
    BootDecisionLoads(c, e);
    BootLinksHold(c, e);
  }

  /** The stores after the marker, the bundle and the history entry. */
  function AfterMarker(c: Config, e: BootEvidence): Stores {
    EMPTY_STORES.(writer := Writer(BootDisk(c, e), None, false))
  }

  function AfterBase(c: Config, e: BootEvidence): Stores {
    AfterMarker(c, e).(bundles := BasePublished(c))
  }

  function AfterHistory(c: Config, e: BootEvidence): Stores {
    AfterBase(c, e).(history := FirstHistory(c, e), installing := Some(BootPointer(c, e)), peakLocked := true)
  }

  lemma BaseIsAStoreStep(c: Config, e: BootEvidence)
    requires FitEvidence(c, e)
    ensures BundleCommits(AfterMarker(c, e).writer.disk, map[], BootBundle(c)) && BootBundle(c).checkpoint == c.base
    ensures StoresNext(AfterMarker(c, e), PublishBundle(BootBundle(c)), AfterBase(c, e))
  {
    BaseMayBePublished(c, e);
    hide BootDisk, BundleOf, MayBundle, MayInstall, BootPointer;
  }

  lemma BaseIsALifeStep(c: Config, rank: Id -> int, e: BootEvidence)
    requires FitEvidence(c, e)
    ensures LifeNext(c, rank, e, Booting(AfterMarker(c, e), BootPublishing), PublishBase, Booting(AfterBase(c, e), BootInstalling))
  {
    hide BootDisk, AfterBase, BundleCommits, BootBundle, BootPointer, StoresNext, ProcessNext, FitEvidence;
    BaseIsAStoreStep(c, e);
  }

  lemma HistoryIsAStoreStep(c: Config, e: BootEvidence)
    requires FitEvidence(c, e)
    ensures StoresNext(AfterBase(c, e), BeginInstall(BootPointer(c, e), None), AfterHistory(c, e))
  {
    hide BootDisk, BundleOf, BundleCommits, MayInstall, BootBundle, BootPointer, HistoryKeyOf, FitEvidence;
    BaseMayBePublished(c, e);
  }

  lemma HistoryIsALifeStep(c: Config, rank: Id -> int, e: BootEvidence)
    requires FitEvidence(c, e)
    ensures LifeNext(c, rank, e, Booting(AfterBase(c, e), BootInstalling), BeginFirstInstall, Booting(AfterHistory(c, e), BootReplacing))
  {
    hide AfterBase, AfterHistory, BootPointer, StoresNext, ProcessNext, FitEvidence;
    HistoryIsAStoreStep(c, e);
  }

  lemma PointerIsALifeStep(c: Config, rank: Id -> int, e: BootEvidence)
    ensures LifeNext(c, rank, e, Booting(AfterHistory(c, e), BootReplacing), ReplaceFirst, Booting(BootStores(c, e), BootDone))
  {
    hide BootDisk, BundleOf, BootBundle, BootPointer, HistoryKeyOf, ProcessNext;
  }

  lemma EnterIsALifeStep(c: Config, rank: Id -> int, e: BootEvidence)
    ensures LifeNext(c, rank, e, Booting(BootStores(c, e), BootDone), EnterLoop, Running(BootProcess(c, e)))
  {
    hide BootStores, ProcessNext;
  }

  /** From the marker on, the rest of bootstrap leads into the loop. */
  lemma BootstrapFinishes(c: Config, rank: Id -> int, e: BootEvidence) returns (lives: seq<Life>, steps: seq<LifeStep>)
    requires FitEvidence(c, e)
    ensures LifeFollows(c, rank, e, lives, steps)
    ensures lives[0] == Booting(AfterMarker(c, e), BootPublishing) && lives[|steps|] == Running(BootProcess(c, e))
  {
    hide LifeNext, AfterMarker, AfterBase, AfterHistory, BootStores, BootProcess, FitEvidence;
    BaseIsALifeStep(c, rank, e);
    HistoryIsALifeStep(c, rank, e);
    PointerIsALifeStep(c, rank, e);
    EnterIsALifeStep(c, rank, e);
    lives := [Booting(AfterMarker(c, e), BootPublishing), Booting(AfterBase(c, e), BootInstalling),
              Booting(AfterHistory(c, e), BootReplacing), Booting(BootStores(c, e), BootDone), Running(BootProcess(c, e))];
    steps := [PublishBase, BeginFirstInstall, ReplaceFirst, EnterLoop];
  }

  /** What a later run makes of a crash before the marker is the state a bootstrap without a crash
      leaves. */
  lemma UncommittedIsRedone(c: Config, rank: Id -> int, e: BootEvidence, s: Stores) returns (lives: seq<Life>, steps: seq<LifeStep>)
    requires FitEvidence(c, e) && BootInvAt(c, e, s, BootIdle) && Uncommitted(c, e, s)
    ensures LifeFollows(c, rank, e, lives, steps)
    ensures lives[0] == Booting(s, BootIdle) && lives[|steps|] == Running(BootProcess(c, e))
  {
    hide StoresInv, LifeNext, BootDisk, BootProcess, FitEvidence, PayloadOf;
    var on, walk := LocksAreRemoved(c, rank, e, s);
    SameUncommitted(c, e, s, Unlocked(s));
    var more, taken := TransactionIsRedone(c, rank, e, Unlocked(s));
    LivesJoin(c, rank, e, on, walk, more, taken);
    on, walk := on + more[1..], walk + taken;
    var rest, last := BootstrapFinishes(c, rank, e);
    LivesJoin(c, rank, e, on, walk, rest, last);
    lives, steps := on + rest[1..], walk + last;
  }

  /** The run stands between two turns, and the pointer file holds its Peak. */
  predicate HasPeak(l: Life) {
    l.Running? && l.process.pc.Ready? && PointerFits(l.process.stores.pointer, l.process.pc.head)
  }

  /** Some later run gets there. */
  ghost predicate Repairable(c: Config, rank: Id -> int, e: BootEvidence, l: Life) {
    exists lives: seq<Life>, steps: seq<LifeStep> ::
      LifeFollows(c, rank, e, lives, steps) && lives[0] == l && HasPeak(lives[|steps|])
  }

  lemma UncommittedIsRepairable(c: Config, rank: Id -> int, e: BootEvidence, s: Stores)
    requires FitEvidence(c, e) && BootInvAt(c, e, s, BootIdle) && Uncommitted(c, e, s)
    ensures Repairable(c, rank, e, Booting(s, BootIdle))
  {
    var lives, steps := UncommittedIsRedone(c, rank, e, s);
    hide LifeFollows, BootInvAt, Uncommitted, BootDisk;
    assert HasPeak(lives[|steps|]);
  }

  lemma FindIsALifeStep(c: Config, rank: Id -> int, e: BootEvidence, s: Stores)
    requires FitEvidence(c, e) && Whole(c, e, s)
    ensures LifeNext(c, rank, e, Booting(s, BootIdle), FindSnapshot, Running(Process(s, Down, [FirstHead(c, e)])))
  {
    FirstHeadIsInView(c, e);
    hide BootDisk, CommittedView, InView, BundleOf, ProcessNext;
  }

  lemma ResumeIsALifeStep(c: Config, rank: Id -> int, e: BootEvidence, s: Stores)
    requires FitEvidence(c, e) && Whole(c, e, s)
    ensures var head := FirstHead(c, e);
      LifeNext(c, rank, e, Running(Process(s, Down, [head])), Live(Resume(head)), Running(Process(s, Ready(head), [head])))
  {
    BootHeadIsHead(c, e);
    hide BootDisk, CommittedView, IsHead, IsLatest, BundleOf, BootNext;
    HeadIsLatest(CommittedView(s.writer.disk), c.run, rank, FirstHead(c, e), FirstHead(c, e));
  }

  lemma WholeIsRepairable(c: Config, rank: Id -> int, e: BootEvidence, s: Stores)
    requires FitEvidence(c, e) && Whole(c, e, s)
    ensures Repairable(c, rank, e, Booting(s, BootIdle))
  {
    hide LifeNext, FitEvidence, BootDisk, BundleOf;
    var head := FirstHead(c, e);
    FindIsALifeStep(c, rank, e, s);
    ResumeIsALifeStep(c, rank, e, s);
    var lives := [Booting(s, BootIdle), Running(Process(s, Down, [head])), Running(Process(s, Ready(head), [head]))];
    assert LifeFollows(c, rank, e, lives, [FindSnapshot, Live(Resume(head))]);
    assert HasPeak(lives[2]);
  }

  // ---- A crash that is not repaired ----

  ghost predicate ViewPeaked(view: Payload, run: Id) {
    forall x :: InView(view, run, x) ==> Peaked(x)
  }

  ghost predicate PcPeaked(s: Stores, pc: Pc, run: Id) {
    match pc
    case Down => true
    case Installing(_, _) => false
    case Committing(head, t) => PeakedTurn(t) && s.writer.pending.Some? && s.writer.pending.value.req == t.req
    case _ => Peaked(pc.head)
  }

  /** No Peak and none on the way, in a workspace whose snapshots all take one for granted. */
  ghost predicate NoPeak(c: Config, s: Stores) {
    && StoresInv(s) && s.pointer.None? && s.installed == [] && s.installing.None?
    && ViewPeaked(CommittedView(s.writer.disk), c.run)
    && exists x :: InView(CommittedView(s.writer.disk), c.run, x)
  }

  ghost predicate Broken(c: Config, l: Life) {
    && NoPeak(c, StoresOf(l))
    && match l
       case Booting(_, at) => at == BootIdle
       case Running(p) => PcPeaked(p.stores, p.pc, c.run)
  }

  /** The compare-and-swap of a promotion expects a predecessor, and there is none. */
  lemma NothingCanBePromoted(s: Stores, head: StateSnapshot, d: Decision)
    requires s.pointer.None? && Peaked(head) && Materializable(head)
    ensures !AlreadyInstalled(s.writer.disk, s.bundles, s.pointer, PointerOf(head, d))
    ensures !MayInstall(s.writer.disk, s.bundles, s.pointer, s.history, PointerOf(head, d), PointerOf(head, d).previous)
  {
    hide LinksHold, BundleOf, BundleRequestOf, HistoryFree;
  }

  /** Store steps of this kind leave the pointer and the view alone. */
  lemma NoPeakIsAboutView(c: Config, s: Stores, s': Stores)
    requires NoPeak(c, s) && StoresInv(s') && s'.pointer == s.pointer && s'.installed == s.installed && s'.installing.None?
    requires CommittedView(s'.writer.disk) == CommittedView(s.writer.disk)
    ensures NoPeak(c, s')
  {
    hide StoresInv, CommittedView, InView, Peaked;
  }

  lemma ViewPeakedGrows(c: Config, view: Payload, records: seq<Record>)
    requires ViewPeaked(view, c.run) && AllPeaked(records)
    ensures ViewPeaked(view + PayloadOf(records), c.run)
  {
    PayloadFacts(records);
    hide PayloadOf, Peaked;
    forall x | InView(view + PayloadOf(records), c.run, x) ensures Peaked(x) {
      if Key(SnapshotKind, x.id) !in PayloadOf(records) { assert InView(view, c.run, x); }
    }
  }

  lemma SomeSnapshotStays(c: Config, d: Disk, d': Disk)
    requires (exists x :: InView(CommittedView(d), c.run, x)) && Intact(d) && Intact(d') && Grows(d, d')
    ensures exists x :: InView(CommittedView(d'), c.run, x)
  {
    hide CommittedView, Intact;
    CommittedViewGrows(d, d');
    var x :| InView(CommittedView(d), c.run, x);
    assert InView(CommittedView(d'), c.run, x);
  }

  lemma BrokenMarker(c: Config, p: Process, p': Process)
    requires NoPeak(c, p.stores) && PcPeaked(p.stores, p.pc, c.run) && CommitNext(p, WriteMarker, p') && StoresInv(p'.stores)
    ensures NoPeak(c, p'.stores) && PcPeaked(p'.stores, p'.pc, c.run)
  {
    hide StoresInv, StoresNext, CommittedView, InView, ViewPeaked, Peaked, AllPeaked, PayloadOf, MayStart, NoConflict,
      Finished, AfterCommit;
    var t := p.pc.turn;
    StoresAreIntact(p.stores);
    WriteMarkerExtendsView(p.stores, p'.stores);
    ViewPeakedGrows(c, CommittedView(p.stores.writer.disk), t.req.records);
    SomeSnapshotStays(c, p.stores.writer.disk, p'.stores.writer.disk);
    AfterCommitIsPeaked(c, p'.stores, t);
  }

  lemma AfterCommitIsPeaked(c: Config, s: Stores, t: Turn)
    requires t.Commit? && Peaked(t.next)
    ensures PcPeaked(s, AfterCommit(t), c.run)
  {
    hide Peaked;
  }

  lemma AfterBundleIsPeaked(c: Config, s: Stores, head: StateSnapshot, d: Decision)
    requires Materializable(head) && Peaked(head)
    ensures PcPeaked(s, AfterBundle(head, d), c.run)
  {
    hide Peaked;
  }

  lemma BrokenCommit(c: Config, p: Process, write: WriterStep, p': Process)
    requires NoPeak(c, p.stores) && PcPeaked(p.stores, p.pc, c.run) && CommitNext(p, write, p') && StoresInv(p'.stores)
    ensures NoPeak(c, p'.stores) && PcPeaked(p'.stores, p'.pc, c.run)
  {
    hide StoresInv, StoresNext, CommittedView, InView, ViewPeaked, PeakedTurn, AfterCommit;
    match write
    case WriteMarker => BrokenMarker(c, p, p');
    case WriteRecord(k) =>
      WriteRecordKeepsView(p.stores, k, p'.stores);
      NoPeakIsAboutView(c, p.stores, p'.stores);
    case WriteConflict(k) =>
      ConflictStores(p.stores, k, p'.stores);
      NoPeakIsAboutView(c, p.stores, p'.stores);
  }

  lemma ConflictStores(s: Stores, k: Key, s': Stores)
    requires StoresNext(s, Control(WriteConflict(k)), s')
    ensures s'.writer.disk == s.writer.disk && SameButWriter(s, s')
  {
  }

  lemma BrokenBegin(c: Config, p: Process, answer: Answer, p': Process)
    requires NoPeak(c, p.stores) && PcPeaked(p.stores, p.pc, c.run) && p.pc.Ready? && StoresInv(p'.stores)
    requires BeginNext(c, p, TurnOf(c, p.pc.head, answer), p')
    ensures NoPeak(c, p'.stores) && PcPeaked(p'.stores, p'.pc, c.run)
  {
    hide StoresInv, CommittedView, InView, ViewPeaked, Peaked, AllPeaked, TurnOf, MayStart, PayloadOf, FreshCandidate;
    TurnIsPeaked(c, p.pc.head, answer);
    NoPeakIsAboutView(c, p.stores, p'.stores);
  }

  lemma BrokenRepeat(c: Config, p: Process, answer: Answer, p': Process)
    requires NoPeak(c, p.stores) && PcPeaked(p.stores, p.pc, c.run) && p.pc.Ready?
    requires RepeatNext(p, TurnOf(c, p.pc.head, answer), p')
    ensures NoPeak(c, p'.stores) && PcPeaked(p'.stores, p'.pc, c.run)
  {
    hide NoPeak, Peaked, AllPeaked, TurnOf, AlreadyCommitted, AfterCommit;
    TurnIsPeaked(c, p.pc.head, answer);
    AfterCommitIsPeaked(c, p'.stores, TurnOf(c, p.pc.head, answer));
  }

  lemma BrokenResume(c: Config, rank: Id -> int, p: Process, head: StateSnapshot, p': Process)
    requires NoPeak(c, p.stores) && ResumeNext(c, rank, p, head, p')
    ensures NoPeak(c, p'.stores) && PcPeaked(p'.stores, p'.pc, c.run)
  {
    hide StoresInv, CommittedView, InView, Peaked, NotAfter;
  }

  /** Steps of a materialisation, and locks. */
  lemma BrokenOther(c: Config, rank: Id -> int, p: Process, step: ProcessStep, p': Process)
    requires NoPeak(c, p.stores) && PcPeaked(p.stores, p.pc, c.run) && ProcessNext(c, rank, p, step, p') && StoresInv(p'.stores)
    requires !step.Resume? && !step.BeginTurn? && !step.RepeatTurn? && !step.CommitStep? && !step.Promotion?
    ensures NoPeak(c, p'.stores) && PcPeaked(p'.stores, p'.pc, c.run)
  {
    hide NoPeak, StoresInv, Peaked, PeakedTurn;
    NoPeakInstallsNothing(c, p.stores);
    OtherSteps(c, rank, p, step, p');
    NoPeakIsAboutView(c, p.stores, p'.stores);
  }

  lemma NoPeakInstallsNothing(c: Config, s: Stores)
    requires NoPeak(c, s)
    ensures s.pointer.None? && s.installing.None?
  {
    hide StoresInv, ViewPeaked, CommittedView, InView;
  }

  lemma OtherSteps(c: Config, rank: Id -> int, p: Process, step: ProcessStep, p': Process)
    requires p.stores.installing.None? && PcPeaked(p.stores, p.pc, c.run) && ProcessNext(c, rank, p, step, p')
    requires !step.Resume? && !step.BeginTurn? && !step.RepeatTurn? && !step.CommitStep? && !step.Promotion?
    ensures p'.stores.writer.disk == p.stores.writer.disk && p'.stores.pointer == p.stores.pointer
    ensures p'.stores.installed == p.stores.installed && p'.stores.installing.None? && PcPeaked(p'.stores, p'.pc, c.run)
  {
    hide TurnOf, CommittedView, IsLatest, MayStart, Peaked, BundleCommits, LoadedRecord, MayBundle, MarkerCommits,
      AfterBundle, MarkerOf, BundleRequestOf, BundleOf, PeakedTurn;
    if step.Publish? { AfterBundleIsPeaked(c, p'.stores, p.pc.head, step.decision); }
  }

  lemma NoPromotion(c: Config, p: Process, p': Process)
    requires NoPeak(c, p.stores) && PcPeaked(p.stores, p.pc, c.run)
    ensures !PromotionNext(p, p')
  {
    hide StoresInv, CommittedView, InView, ViewPeaked, Peaked, AlreadyInstalled, MayInstall, PointerOf;
    if p.pc.Promoting? && Materializable(p.pc.head) { NothingCanBePromoted(p.stores, p.pc.head, p.pc.decision); }
  }

  lemma BrokenProcessStep(c: Config, rank: Id -> int, p: Process, step: ProcessStep, p': Process)
    requires NoPeak(c, p.stores) && PcPeaked(p.stores, p.pc, c.run) && ProcessNext(c, rank, p, step, p')
    ensures NoPeak(c, p'.stores) && PcPeaked(p'.stores, p'.pc, c.run)
  {
    hide NoPeak, PcPeaked, StoresInv, ResumeNext, BeginNext, RepeatNext, CommitNext, PublishNext, PublishRefusedNext,
      PromotionNext, InstallNext,
      MarkNext, UnlockNext, TurnOf, Reconciling, Interrupted;
    NoPeakIsSound(c, p.stores);
    ProcessKeepsStoresInv(c, rank, p, step, p');
    match step
    case Resume(head) => BrokenResume(c, rank, p, head, p');
    case BeginTurn(answer) => BrokenBegin(c, p, answer, p');
    case RepeatTurn(answer) => BrokenRepeat(c, p, answer, p');
    case CommitStep(write) => BrokenCommit(c, p, write, p');
    case Promotion => NoPromotion(c, p, p');
    case _ => BrokenOther(c, rank, p, step, p');
  }

  lemma NoPeakIsSound(c: Config, s: Stores)
    requires NoPeak(c, s)
    ensures StoresInv(s)
  {
  }

  /** A workspace with a snapshot of the run is not bootstrapped again. */
  lemma IdleStep(c: Config, e: BootEvidence, s: Stores, step: LifeStep, l': Life)
    requires (exists x :: InView(CommittedView(s.writer.disk), c.run, x)) && s.installing.None? && BootNext(c, e, s, BootIdle, step, l')
    ensures l'.Running? ==> l'.process.stores == s && l'.process.pc.Down?
    ensures l'.Booting? ==> l'.at == BootIdle && SameFiles(s, l'.booting) && l'.booting.installing.None?
  {
    hide InView, CommittedView, BundleCommits, BootRequest, BootBundle, BootPointer, WriteBootNext, MayInstall, FirstHead;
  }

  lemma BrokenBootStep(c: Config, e: BootEvidence, s: Stores, step: LifeStep, l': Life)
    requires NoPeak(c, s) && BootNext(c, e, s, BootIdle, step, l')
    ensures Broken(c, l')
  {
    hide StoresInv, CommittedView, InView, ViewPeaked, BootNext;
    BootKeepsStoresInv(c, e, s, BootIdle, step, l');
    IdleStep(c, e, s, step, l');
    NoPeakIsAboutView(c, s, StoresOf(l'));
  }

  lemma BrokenLifeStep(c: Config, rank: Id -> int, e: BootEvidence, l: Life, step: LifeStep, l': Life)
    requires Broken(c, l) && LifeNext(c, rank, e, l, step, l')
    ensures Broken(c, l')
  {
    hide NoPeak, PcPeaked, BootNext, ProcessNext;
    match l
    case Booting(s, _) => BrokenBootStep(c, e, s, step, l');
    case Running(p) => BrokenProcessStep(c, rank, p, step.step, l'.process);
  }

  lemma {:induction false} BrokenForGood(
    c: Config, rank: Id -> int, e: BootEvidence, lives: seq<Life>, steps: seq<LifeStep>, m: nat, n: nat)
    requires LifeFollows(c, rank, e, lives, steps) && m <= n < |lives| && Broken(c, lives[m])
    ensures Broken(c, lives[n])
    decreases n
  {
    hide Broken, LifeNext;
    if m < n {
      BrokenForGood(c, rank, e, lives, steps, m, n - 1);
      BrokenLifeStep(c, rank, e, lives[n - 1], steps[n - 1], lives[n]);
    }
  }

  lemma BootViewIsPeaked(c: Config, e: BootEvidence)
    requires FitEvidence(c, e)
    ensures ViewPeaked(CommittedView(BootDisk(c, e)), c.run)
  {
    hide PayloadOf, BootDisk, CommittedView;
    BootDiskView(c, e);
    PayloadFacts(BootRecords(c, e));
    forall x | InView(CommittedView(BootDisk(c, e)), c.run, x) ensures Peaked(x) {
      assert SnapshotRecord(x) in BootRecords(c, e);
    }
  }

  lemma StrandedIsBroken(c: Config, e: BootEvidence, s: Stores, k: nat)
    requires FitEvidence(c, e) && BootInvAt(c, e, s, BootIdle) && Stranded(c, e, s, k)
    ensures Broken(c, Booting(s, BootIdle))
  {
    FirstHeadIsInView(c, e);
    BootViewIsPeaked(c, e);
    hide StoresInv, BootDisk, CommittedView, InView, ViewPeaked, Uncommitted, Whole;
  }

  // ---- Results ----

  /** A later `run` repairs a bootstrap that crashed after k of its twelve durable writes exactly
      when k is at most eight, so that no marker shows its snapshots, or twelve. */
  lemma RepairableIff(
    c: Config, rank: Id -> int, e: BootEvidence, lives: seq<Life>, steps: seq<LifeStep>, n: nat, s: Stores)
    requires IsLife(c, rank, e, lives, steps) && n < |lives| && lives[n] == Booting(s, BootIdle)
    ensures DurableWrites(s) <= 12
    ensures Repairable(c, rank, e, lives[n]) <==> DurableWrites(s) <= 8 || DurableWrites(s) == 12
  {
    LifeKeepsInv(c, rank, e, lives, steps, n);
    hide StoresInv, Uncommitted, Stranded, Whole, LifeFollows, Repairable, DurableWrites, FitEvidence;
    if Uncommitted(c, e, s) {
      CountsUncommitted(c, e, s);
      UncommittedIsRepairable(c, rank, e, s);
    } else if Whole(c, e, s) {
      CountsWhole(c, e, s);
      WholeIsRepairable(c, rank, e, s);
    } else {
      var k :| Stranded(c, e, s, k);
      CountsStranded(c, e, s, k);
      StrandedCount(c, e, s, k);
      StrandedIsBroken(c, e, s, k);
      BrokenIsNotRepairable(c, rank, e, lives[n]);
    }
  }

  lemma StrandedCount(c: Config, e: BootEvidence, s: Stores, k: nat)
    requires Stranded(c, e, s, k)
    ensures 9 <= k <= 11
  {
  }

  lemma BrokenIsNotRepairable(c: Config, rank: Id -> int, e: BootEvidence, l: Life)
    requires Broken(c, l)
    ensures !Repairable(c, rank, e, l)
  {
    hide LifeNext, Broken;
    if Repairable(c, rank, e, l) {
      var lives, steps :| LifeFollows(c, rank, e, lives, steps) && lives[0] == l && HasPeak(lives[|steps|]);
      BrokenEnd(c, rank, e, lives, steps);
    }
  }

  lemma BrokenEnd(c: Config, rank: Id -> int, e: BootEvidence, lives: seq<Life>, steps: seq<LifeStep>)
    requires LifeFollows(c, rank, e, lives, steps) && Broken(c, lives[0])
    ensures !HasPeak(lives[|steps|])
  {
    hide LifeNext, NoPeak, PcPeaked;
    BrokenForGood(c, rank, e, lives, steps, 0, |steps|);
    NoPeakHasNoPointer(c, StoresOf(lives[|steps|]));
  }

  lemma NoPeakHasNoPointer(c: Config, s: Stores)
    requires NoPeak(c, s)
    ensures s.pointer.None? && s.installed == []
  {
    hide StoresInv, ViewPeaked, CommittedView, InView;
  }

  /** After a crash in between, no run ever has a Peak again: the pointer stays missing and nothing
      is ever installed, whatever is decided, reviewed, resumed or retried. */
  lemma UnfinishedBootstrapIsNotRepaired(
    c: Config, rank: Id -> int, e: BootEvidence, lives: seq<Life>, steps: seq<LifeStep>, m: nat, n: nat, s: Stores)
    requires IsLife(c, rank, e, lives, steps) && m <= n < |lives| && lives[m] == Booting(s, BootIdle)
    requires 9 <= DurableWrites(s) <= 11
    ensures StoresOf(lives[n]).pointer.None? && StoresOf(lives[n]).installed == []
  {
    LifeKeepsInv(c, rank, e, lives, steps, m);
    hide StoresInv, Uncommitted, Stranded, Whole, LifeNext, DurableWrites, FitEvidence, NoPeak, PcPeaked;
    if Uncommitted(c, e, s) {
      CountsUncommitted(c, e, s);
    } else if Whole(c, e, s) {
      CountsWhole(c, e, s);
    } else {
      var k :| Stranded(c, e, s, k);
      StrandedIsBroken(c, e, s, k);
      BrokenForGood(c, rank, e, lives, steps, m, n);
      NoPeakHasNoPointer(c, StoresOf(lives[n]));
    }
  }

  /** A workspace in which all is in place looks like one whose process died right after bootstrap. */
  lemma WholeIsADeadProcess(c: Config, rank: Id -> int, e: BootEvidence, s: Stores)
    requires Whole(c, e, s) && s.quarantined == map[] && s.writer.pending.None? && s.installing.None?
    ensures ProcessNext(c, rank, BootProcess(c, e), Die(s.writer.locked, s.peakLocked), Process(s, Down, [FirstHead(c, e)]))
    ensures !s.writer.locked && !s.peakLocked ==> Process(s, Ready(FirstHead(c, e)), [FirstHead(c, e)]) == BootProcess(c, e)
  {
    hide BootDisk, BundleOf, BootPointer, FirstHead;
  }

  /** Some run from a finished bootstrap ends in this state. */
  ghost predicate OnARun(c: Config, rank: Id -> int, e: BootEvidence, p: Process) {
    exists states: seq<Process>, steps: seq<ProcessStep> :: IsAnyRun(c, rank, e, states, steps) && states[|steps|] == p
  }

  lemma RunGoesOn(c: Config, rank: Id -> int, e: BootEvidence, p: Process, step: ProcessStep, p': Process)
    requires OnARun(c, rank, e, p) && ProcessNext(c, rank, p, step, p')
    ensures OnARun(c, rank, e, p')
  {
    hide ProcessNext, FitEvidence, BootProcess;
    var states, steps :| IsAnyRun(c, rank, e, states, steps) && states[|steps|] == p;
    OneStep(c, rank, p, step, p');
    Joined(c, rank, states, steps, [p, p'], [step]);
    assert IsAnyRun(c, rank, e, states + [p, p'][1..], steps + [step]);
  }

  lemma BootIsOnARun(c: Config, rank: Id -> int, e: BootEvidence)
    requires FitEvidence(c, e)
    ensures OnARun(c, rank, e, BootProcess(c, e))
  {
    hide ProcessNext, FitEvidence, BootProcess;
    assert IsAnyRun(c, rank, e, [BootProcess(c, e)], []);
  }

  /** The two ways into the loop. */
  lemma WaysIn(c: Config, e: BootEvidence, s: Stores, at: BootPc, step: LifeStep, p: Process)
    requires BootNext(c, e, s, at, step, Running(p))
    ensures p.stores == s && p.heads == [FirstHead(c, e)]
    ensures || (at == BootDone && p.pc == Ready(FirstHead(c, e)))
            || (at == BootIdle && p.pc == Down && exists x :: InView(CommittedView(s.writer.disk), c.run, x))
  {
    hide InView, CommittedView, StoresNext, BundleCommits, FirstHead;
    FirstHeadAsksForNothing(c, e);
  }

  lemma WholeEntersARun(c: Config, rank: Id -> int, e: BootEvidence, s: Stores, p: Process)
    requires FitEvidence(c, e) && Whole(c, e, s) && s.quarantined == map[] && s.writer.pending.None? && s.installing.None?
    requires p == Process(s, Down, [FirstHead(c, e)])
      || (p == Process(s, Ready(FirstHead(c, e)), [FirstHead(c, e)]) && !s.writer.locked && !s.peakLocked)
    ensures OnARun(c, rank, e, p)
  {
    hide Whole, OnARun, ProcessNext, BootProcess, FirstHead, FitEvidence;
    BootIsOnARun(c, rank, e);
    WholeIsADeadProcess(c, rank, e, s);
    RunGoesOn(c, rank, e, BootProcess(c, e), Die(s.writer.locked, s.peakLocked), Process(s, Down, [FirstHead(c, e)]));
  }

  lemma UncommittedShowsNothing(c: Config, e: BootEvidence, s: Stores)
    requires FitEvidence(c, e) && Uncommitted(c, e, s)
    ensures forall x :: !InView(CommittedView(s.writer.disk), c.run, x)
  {
    hide Uncommitted, CommittedView, InView, BootDisk, FitEvidence;
    UncommittedMayStart(c, e, s);
    NothingInView(c, s.writer.disk);
  }

  /** The hand-over from bootstrap, or from a scan that found a snapshot, to the loop. */
  lemma EntersARun(c: Config, rank: Id -> int, e: BootEvidence, s: Stores, at: BootPc, step: LifeStep, p: Process)
    requires FitEvidence(c, e) && BootInvAt(c, e, s, at) && BootNext(c, e, s, at, step, Running(p))
    ensures Broken(c, Running(p)) || OnARun(c, rank, e, p)
  {
    hide StoresInv, OnARun, Broken, BootNext, InView, CommittedView, FirstHead, Uncommitted, Stranded, Whole, FitEvidence;
    WaysIn(c, e, s, at, step, p);
    if Whole(c, e, s) {
      WholeEntersARun(c, rank, e, s, p);
    } else if Uncommitted(c, e, s) {
      UncommittedShowsNothing(c, e, s);
    } else {
      var k :| Stranded(c, e, s, k);
      StrandedIsBroken(c, e, s, k);
      BrokenLifeStep(c, rank, e, Booting(s, BootIdle), step, Running(p));
    }
  }

  lemma FirstHeadAsksForNothing(c: Config, e: BootEvidence)
    ensures Reconciling(FirstHead(c, e)) == Ready(FirstHead(c, e))
  {
  }

  lemma NothingInView(c: Config, d: Disk)
    requires CommittedView(d) == map[]
    ensures forall x :: !InView(CommittedView(d), c.run, x)
  {
    hide CommittedView;
  }

  /** So the claims about runs from a finished bootstrap are claims about every workspace: from an
      empty one, through crashes of bootstrap itself, the loop is only ever in a state of such a
      run, or without a Peak for good. */
  lemma {:induction false} EveryLifeIsARun(
    c: Config, rank: Id -> int, e: BootEvidence, lives: seq<Life>, steps: seq<LifeStep>, n: nat)
    requires IsLife(c, rank, e, lives, steps) && n < |lives| && lives[n].Running?
    ensures Broken(c, lives[n]) || OnARun(c, rank, e, lives[n].process)
  {
    hide BootInvAt, BootNext, ProcessNext, Broken, OnARun, FitEvidence;
    assert n > 0 && LifeNext(c, rank, e, lives[n - 1], steps[n - 1], lives[n]);
    match lives[n - 1]
    case Booting(s, at) =>
      LifeKeepsInv(c, rank, e, lives, steps, n - 1);
      EntersARun(c, rank, e, s, at, steps[n - 1], lives[n].process);
    case Running(p) =>
      EveryLifeIsARun(c, rank, e, lives, steps, n - 1);
      if Broken(c, lives[n - 1]) {
        BrokenLifeStep(c, rank, e, lives[n - 1], steps[n - 1], lives[n]);
      } else {
        RunGoesOn(c, rank, e, p, steps[n - 1].step, lives[n].process);
      }
  }
}
