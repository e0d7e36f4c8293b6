/** Runs that went back to an earlier snapshot, and may fork from there: any later answers, any
    crashes. Two things hold of them. Within an iteration they agree on the accepted state; and a
    promotion that is no longer the Peak is a barrier no replay and no fork gets past. */
module Forks {
  import opened Records
  import opened ControlStore
  import opened ControlProtocol
  import opened CheckpointStore
  import opened PeakStore
  import opened QuarantineStore
  import opened StoreSystem
  import opened Controller
  import opened RunLoop
  import opened RunState
  import opened Materialization
  import opened Bootstrap
  import opened CrashRecovery
  import opened CrashSafety
  import opened CrashTheorems
  import opened ReviewedRuns
  import opened TurnEnds
  import opened Budgets
  import opened Carries
  import opened Tracks
  import opened Replays

  // ---- What the committed snapshots agree on ----

  /** The snapshot of this iteration's verified dataset. */
  function VerifiedKey(run: Id, iteration: nat): Key {
    Key(SnapshotKind, VerifiedId(run, iteration))
  }

  predicate VerifiedAs(view: Payload, run: Id, s: StateSnapshot) {
    var k := VerifiedKey(run, s.iteration);
    k in view && view[k].SnapshotRecord? && SameCarry(view[k].snapshot, s)
  }

  /** A turn can be taken from it only with what its dataset was verified under, and the run can pay
      for it. */
  predicate Works(c: Config, view: Payload, s: StateSnapshot) {
    && s.run == c.run && Fit(s) && Affordable(c, s)
    && (IsWorking(s.state) ==> VerifiedAs(view, c.run, s))
    && (s.state == ModelReviewPending ==> c.checkpointReview)
  }

  ghost predicate AllWork(c: Config, view: Payload) {
    forall x :: InView(view, c.run, x) ==> Works(c, view, x)
  }

  ghost predicate PcWorks(c: Config, s: Stores, pc: Pc) {
    match pc
    case Down => true
    case Committing(head, t) =>
      && Works(c, CommittedView(s.writer.disk), head) && TakenFrom(c, head, t) && t.Commit?
      && s.writer.pending.Some? && s.writer.pending.value.req == t.req
    case _ => Works(c, CommittedView(s.writer.disk), pc.head)
  }

  ghost predicate WorkInv(c: Config, p: Process) {
    StoresInv(p.stores) && AllWork(c, CommittedView(p.stores.writer.disk)) && PcWorks(c, p.stores, p.pc)
  }

  predicate Covers(view': Payload, view: Payload) {
    forall k :: k in view ==> k in view' && view'[k] == view[k]
  }

  predicate Holds(view: Payload, records: seq<Record>) {
    forall r :: r in records ==> KeyOf(r) in view && view[KeyOf(r)] == r
  }

  lemma WorksOn(c: Config, view: Payload, view': Payload, s: StateSnapshot)
    requires Works(c, view, s) && Covers(view', view)
    ensures Works(c, view', s)
  {
  }

  /** Every snapshot of a turn works in a view that holds the turn. */
  lemma TurnWorks(c: Config, view: Payload, view': Payload, s: StateSnapshot, answer: Answer, x: StateSnapshot)
    requires Works(c, view, s) && TurnOf(c, s, answer).Commit? && Admissible(TurnOf(c, s, answer).req)
    requires Covers(view', view) && Holds(view', TurnOf(c, s, answer).req.records)
    requires SnapshotRecord(x) in TurnOf(c, s, answer).req.records
    ensures Works(c, view', x)
  {
    hide TurnOf, SameCarry;
    var t := TurnOf(c, s, answer);
    TurnPasses(c, s, answer);
    TurnIsPaid(c, s, answer);
    RequestOf(c, s, answer);
    RunOfRecord(t.req, x);
    assert Passes(c, s, t, x);
    if IsWorking(x.state) {
      CarryIsShared(x, s);
      if IsWorking(s.state) {
        WorksOn(c, view, view', s);
      } else {
        var v :| SnapshotRecord(v) in t.req.records && v.id == VerifiedId(s.run, s.iteration) && SameCarry(v, s);
        assert KeyOf(SnapshotRecord(v)) == VerifiedKey(c.run, x.iteration);
        SharedCarry(v, s, x);
      }
      if VerifiedAs(view', c.run, s) { SharedCarry(view'[VerifiedKey(c.run, s.iteration)].snapshot, s, x); }
    }
  }

  lemma CarryIsShared(x: StateSnapshot, s: StateSnapshot)
    ensures SameCarry(x, s) <==> SameCarry(s, x)
  {
  }

  lemma SharedCarry(v: StateSnapshot, s: StateSnapshot, x: StateSnapshot)
    requires SameCarry(v, s) && SameCarry(s, x)
    ensures SameCarry(v, x)
  {
  }

  lemma RunOfRecord(req: Request, x: StateSnapshot)
    requires Admissible(req) && SnapshotRecord(x) in req.records
    ensures x.run == req.run && (x.iteration == req.iteration || x.iteration == req.iteration + 1)
  {
    var i :| 0 <= i < |req.records| && req.records[i] == SnapshotRecord(x);
    assert FitsTransaction(req.records[i], req.run, req.iteration);
  }

  // ---- Every step of any run ----

  lemma WorkFacts(c: Config, p: Process)
    requires WorkInv(c, p)
    ensures StoresInv(p.stores) && AllWork(c, CommittedView(p.stores.writer.disk)) && PcWorks(c, p.stores, p.pc)
  {
    hide StoresInv, AllWork, PcWorks;
  }

  lemma ViewCovers(d: Disk, d': Disk)
    requires Intact(d) && Intact(d') && Grows(d, d')
    ensures Covers(CommittedView(d'), CommittedView(d))
  {
    CommittedViewGrows(d, d');
    hide CommittedView, Intact, Grows;
  }

  /** What a turn adds to the view. */
  lemma TurnIsInView(d: Disk, req: Request)
    requires MayStart(d, req) && CommittedView(Finished(d, req)) == CommittedView(d) + PayloadOf(req.records)
    ensures Holds(CommittedView(Finished(d, req)), req.records)
  {
    hide PayloadOf, CommittedView, Finished, DependenciesHold;
    forall r | r in req.records ensures KeyOf(r) in PayloadOf(req.records) && PayloadOf(req.records)[KeyOf(r)] == r {
      PayloadKeeps(req, r);
    }
  }

  lemma WorkGrows(c: Config, d: Disk, head: StateSnapshot, answer: Answer)
    requires AllWork(c, CommittedView(d)) && Works(c, CommittedView(d), head) && Intact(d)
    requires var t := TurnOf(c, head, answer);
      && t.Commit? && MayStart(d, t.req) && NoConflict(d, PayloadOf(t.req.records))
      && CommittedView(Finished(d, t.req)) == CommittedView(d) + PayloadOf(t.req.records)
      && Intact(Finished(d, t.req)) && Grows(d, Finished(d, t.req))
    ensures var t, view' := TurnOf(c, head, answer), CommittedView(Finished(d, TurnOf(c, head, answer).req));
      AllWork(c, view') && Works(c, view', t.next)
  {
    hide TurnOf, CommittedView, PayloadOf, MayStart, NoConflict, Finished, Intact, Grows, Works, Holds, Covers, InView;
    var t := TurnOf(c, head, answer);
    var d', view' := Finished(d, t.req), CommittedView(Finished(d, t.req));
    MayStartIsAdmissible(d, t.req);
    RequestOf(c, head, answer);
    ViewCovers(d, d');
    TurnIsInView(d, t.req);
    TurnWorks(c, CommittedView(d), view', head, answer, t.next);
    forall x | InView(view', c.run, x) ensures Works(c, view', x) {
      InViewAfter(d, t.req, c.run, x);
      if InView(CommittedView(d), c.run, x) {
        WorksOn(c, CommittedView(d), view', x);
      } else {
        TurnWorks(c, CommittedView(d), view', head, answer, x);
      }
    }
  }

  lemma AfterCommitWorks(c: Config, s: Stores, t: Turn)
    requires t.Commit? && Works(c, CommittedView(s.writer.disk), t.next)
    ensures PcWorks(c, s, AfterCommit(t))
  {
    hide Works, CommittedView;
  }

  lemma WorkMarker(c: Config, p: Process, p': Process)
    requires WorkInv(c, p) && CommitNext(p, WriteMarker, p') && StoresInv(p'.stores)
    ensures WorkInv(c, p')
  {
    hide StoresInv, StoresNext, CommittedView, InView, AllWork, Works, PayloadOf, MayStart, NoConflict, Finished, AfterCommit,
      TurnOf, Grows;
    var t := p.pc.turn;
    assert TakenFrom(c, p.pc.head, t);
    var answer :| TurnOf(c, p.pc.head, answer) == t;
    StoresAreIntact(p.stores);
    WriteMarkerExtendsView(p.stores, p'.stores);
    WorkGrows(c, p.stores.writer.disk, p.pc.head, answer);
    AfterCommitWorks(c, p'.stores, t);
  }

  lemma WorkIsAboutView(c: Config, p: Process, p': Process)
    requires WorkInv(c, p) && StoresInv(p'.stores) && CommittedView(p'.stores.writer.disk) == CommittedView(p.stores.writer.disk)
    requires PcWorks(c, p.stores, p.pc) ==> PcWorks(c, p'.stores, p'.pc)
    ensures WorkInv(c, p')
  {
    hide StoresInv, CommittedView, InView, Works, PcWorks;
  }

  lemma WorkCommit(c: Config, p: Process, write: WriterStep, p': Process)
    requires WorkInv(c, p) && CommitNext(p, write, p') && StoresInv(p'.stores)
    ensures WorkInv(c, p')
  {
    hide StoresInv, StoresNext, CommittedView, AllWork, Works, AfterCommit, TakenFrom;
    match write
    case WriteMarker => WorkMarker(c, p, p');
    case WriteRecord(k) =>
      WriteRecordKeepsView(p.stores, k, p'.stores);
      WorkIsAboutView(c, p, p');
    case WriteConflict(k) =>
      ConflictKeepsDisk(p.stores, k, p'.stores);
      WorkIsAboutView(c, p, p');
  }

  lemma ConflictKeepsDisk(s: Stores, k: Key, s': Stores)
    requires StoresNext(s, Control(WriteConflict(k)), s')
    ensures s'.writer.disk == s.writer.disk
  {
  }

  lemma WorkBegin(c: Config, p: Process, answer: Answer, p': Process)
    requires WorkInv(c, p) && p.pc.Ready? && StoresInv(p'.stores) && BeginNext(c, p, TurnOf(c, p.pc.head, answer), p')
    ensures WorkInv(c, p') && p'.stores.writer.disk == p.stores.writer.disk
  {
    hide StoresInv, CommittedView, AllWork, Works, TurnOf, MayStart, PayloadOf, FreshCandidate;
    assert TakenFrom(c, p.pc.head, TurnOf(c, p.pc.head, answer));
  }

  lemma RepeatedIsInView(c: Config, d: Disk, head: StateSnapshot, answer: Answer)
    requires TurnOf(c, head, answer).Commit? && AlreadyCommitted(d, TurnOf(c, head, answer).req) && Intact(d) && head.run == c.run
    ensures InView(CommittedView(d), c.run, TurnOf(c, head, answer).next)
  {
    hide TurnOf, CommittedView, ManifestOf, ManifestIntact, Intact, Admissible;
    var t := TurnOf(c, head, answer);
    RequestOf(c, head, answer);
    NamedRecordIsCommitted(d, t.req, SnapshotRecord(t.next));
    RunOfRecord(t.req, t.next);
  }

  lemma WorkRepeat(c: Config, p: Process, answer: Answer, p': Process)
    requires WorkInv(c, p) && p.pc.Ready? && RepeatNext(p, TurnOf(c, p.pc.head, answer), p')
    ensures WorkInv(c, p')
  {
    hide StoresInv, CommittedView, InView, Works, TurnOf, AlreadyCommitted, AfterCommit;
    StoresAreIntact(p.stores);
    WorksHasRun(c, CommittedView(p.stores.writer.disk), p.pc.head);
    RepeatedIsInView(c, p.stores.writer.disk, p.pc.head, answer);
    AfterCommitWorks(c, p'.stores, TurnOf(c, p.pc.head, answer));
  }

  lemma WorksHasRun(c: Config, view: Payload, s: StateSnapshot)
    requires Works(c, view, s)
    ensures s.run == c.run && Fit(s)
  {
  }

  lemma WorkOther(c: Config, rank: Id -> int, p: Process, step: ProcessStep, p': Process)
    requires WorkInv(c, p) && ProcessNext(c, rank, p, step, p') && StoresInv(p'.stores)
    requires !step.BeginTurn? && !step.RepeatTurn? && !step.CommitStep?
    ensures WorkInv(c, p')
  {
    hide StoresInv, CommittedView, Works, AllWork, PcWorks, InView;
    OtherHeads(c, rank, p, step, p');
    SameHeadWorks(c, p, p');
  }

  lemma OtherHeads(c: Config, rank: Id -> int, p: Process, step: ProcessStep, p': Process)
    requires ProcessNext(c, rank, p, step, p') && !step.BeginTurn? && !step.RepeatTurn? && !step.CommitStep?
    ensures p'.stores.writer.disk == p.stores.writer.disk
    ensures p'.pc.Down? || (!p'.pc.Committing? && !p.pc.Committing? && !p.pc.Down? && p'.pc.head == p.pc.head)
      || (!p'.pc.Committing? && InView(CommittedView(p.stores.writer.disk), c.run, p'.pc.head))
  {
    hide InView, CommittedView, NotAfter, BundleCommits, LoadedRecord, AlreadyInstalled, MayInstall, MayBundle, MarkerCommits,
      MarkerOf, PointerOf, BundleRequestOf, BundleOf;
  }

  lemma SameHeadWorks(c: Config, p: Process, p': Process)
    requires WorkInv(c, p) && StoresInv(p'.stores) && p'.stores.writer.disk == p.stores.writer.disk
    requires p'.pc.Down? || (!p'.pc.Committing? && !p.pc.Committing? && !p.pc.Down? && p'.pc.head == p.pc.head)
      || (!p'.pc.Committing? && InView(CommittedView(p.stores.writer.disk), c.run, p'.pc.head))
    ensures WorkInv(c, p')
  {
    hide StoresInv, CommittedView, Works, InView;
  }

  lemma WorkStep(c: Config, rank: Id -> int, p: Process, step: ProcessStep, p': Process)
    requires WorkInv(c, p) && ProcessNext(c, rank, p, step, p')
    ensures WorkInv(c, p')
  {
    hide WorkInv, StoresInv, ResumeNext, BeginNext, RepeatNext, CommitNext, PublishNext, PublishRefusedNext, PromotionNext, InstallNext,
      MarkNext, UnlockNext, TurnOf, Reconciling, Interrupted;
    WorkFacts(c, p);
    ProcessKeepsStoresInv(c, rank, p, step, p');
    match step
    case BeginTurn(answer) => WorkBegin(c, p, answer, p');
    case RepeatTurn(answer) => WorkRepeat(c, p, answer, p');
    case CommitStep(write) => WorkCommit(c, p, write, p');
    case _ => WorkOther(c, rank, p, step, p');
  }

  lemma BootWorks(c: Config, e: BootEvidence)
    requires FitEvidence(c, e)
    ensures WorkInv(c, BootProcess(c, e))
  {
    hide PayloadOf, BootDisk, CommittedView, StoresInv, VerifiedAs;
    BootStoresInv(c, e);
    BootDiskView(c, e);
    PayloadFacts(BootRecords(c, e));
    forall x | InView(CommittedView(BootDisk(c, e)), c.run, x) ensures Works(c, CommittedView(BootDisk(c, e)), x) {
      assert SnapshotRecord(x) in BootRecords(c, e);
    }
  }

  /** In every state of every run, on course or not. */
  lemma {:induction false} EveryRunWorks(
    c: Config, rank: Id -> int, e: BootEvidence, states: seq<Process>, steps: seq<ProcessStep>, n: nat)
    requires IsAnyRun(c, rank, e, states, steps) && n < |states|
    ensures WorkInv(c, states[n])
  {
    hide WorkInv, ProcessNext, FitEvidence, BootProcess;
    if n == 0 {
      BootWorks(c, e);
    } else {
      EveryRunWorks(c, rank, e, states, steps, n - 1);
      WorkStep(c, rank, states[n - 1], steps[n - 1], states[n]);
    }
  }

  /** No snapshot that any run has committed, on course or not, is over the total limit, unless it is the
      one that aborts the run. */
  lemma EveryCommittedSnapshotIsPaid(
    c: Config, rank: Id -> int, e: BootEvidence, states: seq<Process>, steps: seq<ProcessStep>, n: nat, x: StateSnapshot)
    requires IsAnyRun(c, rank, e, states, steps) && n < |states| && InView(CommittedView(states[n].stores.writer.disk), c.run, x)
    ensures x.state != Aborted ==> x.totalCost <= c.limits.total + EPSILON
    ensures AwaitsReview(x.state) ==> x.totalCost + x.metadata.iterationCost <= c.limits.total + EPSILON
  {
    hide IsAnyRun, CommittedView, StoresInv, PcWorks, InView, Fit, VerifiedAs;
    EveryRunWorks(c, rank, e, states, steps, n);
  }

  // ---- A barrier ----

  predicate RisesFrom(view: Payload, run: Id, b: StateSnapshot)
    requires 1 <= b.iteration
  {
    var k := VerifiedKey(run, b.iteration - 1);
    && k in view && view[k].SnapshotRecord? && view[k].snapshot.peakScore.Some? && b.peakScore.Some?
    && view[k].snapshot.peakScore.value < b.peakScore.value
  }

  /** The transaction that promoted: no other snapshot of it is to be materialised. */
  ghost predicate CameBy(c: Config, d: Disk, b: StateSnapshot, req: Request)
    requires 1 <= b.iteration
  {
    && AlreadyCommitted(d, req)
    && req.tx == Minted(TxId, c.run, b.iteration - 1, if c.checkpointReview then ModelReviewApproved else CandidateTx)
    && forall y :: SnapshotRecord(y) in req.records && y.metadata.materialization.Some? ==> y == b
  }

  /** A promotion after which the run went on with the dataset of its next iteration. */
  ghost predicate IsBarrier(c: Config, d: Disk, b: StateSnapshot) {
    && b.run == c.run && b.state == Diagnose && 1 <= b.iteration && Promotes(b)
    && Minted(TxId, c.run, b.iteration, DataTx) in d.markers && VerifiedAs(CommittedView(d), c.run, b)
    && RisesFrom(CommittedView(d), c.run, b)
    && exists req :: CameBy(c, d, b, req)
  }

  /** Another checkpoint has been the Peak since. */
  ghost predicate Sunk(s: Stores, b: StateSnapshot) {
    exists d :: Bundled(s, b, d) && exists i :: 0 <= i < |s.installed| - 1 && s.installed[i] == PointerOf(b, d)
  }

  /** A snapshot before the barrier, or at its foot and not the same. */
  predicate Low(b: StateSnapshot, h: StateSnapshot) {
    && (h.metadata.materialization.Some? ==> h.metadata.materialization.value.sourceIteration <= b.iteration)
    && (|| h.iteration < b.iteration
        || (h.iteration == b.iteration && !IsWorking(h.state) && (h.state == Diagnose ==> !SameCarry(h, b))))
  }

  lemma LowAsksFor(c: Config, b: StateSnapshot, h: StateSnapshot, answer: Answer, x: StateSnapshot)
    requires Low(b, h) && Fit(h) && TurnOf(c, h, answer).Commit? && SnapshotRecord(x) in TurnOf(c, h, answer).req.records
    ensures x.metadata.materialization.Some? ==>
      x == TurnOf(c, h, answer).next && x.metadata.materialization.value.sourceIteration <= b.iteration
  {
    hide TurnOf, Fit, IsWorking, SameCarry, PassedOn, VerifiedIn;
    TurnPasses(c, h, answer);
    assert Passes(c, h, TurnOf(c, h, answer), x);
  }

  /** From the iteration before: the policy promoted once, and nothing else has that score. */
  lemma LowLeadsOn(c: Config, d: Disk, b: StateSnapshot, h: StateSnapshot, answer: Answer, x: StateSnapshot)
    requires IsBarrier(c, d, b) && Intact(d) && Works(c, CommittedView(d), h) && h.iteration + 1 == b.iteration
    requires TurnOf(c, h, answer).Commit? && SnapshotRecord(x) in TurnOf(c, h, answer).req.records && x.iteration == b.iteration
    requires TurnOf(c, h, answer).req.tx !in d.markers || AlreadyCommitted(d, TurnOf(c, h, answer).req)
    ensures x.state == Diagnose
    ensures !SameCarry(x, b) || (TurnOf(c, h, answer).req.tx in d.markers && TurnOf(c, h, answer).next == b)
  {
    hide TurnOf, CommittedView, AlreadyCommitted, Fit, Intact;
    var t := TurnOf(c, h, answer);
    TurnLeadsOn(c, h, answer, x);
    if SameCarry(x, b) {
      var req :| CameBy(c, d, b, req);
      assert x.peakScore == b.peakScore && h.peakScore == CommittedView(d)[VerifiedKey(c.run, h.iteration)].snapshot.peakScore;
      assert ActionOf(t.next) == Promote;
      assert t.req.tx == req.tx;
      MarkedIsCommitted(d, req);
      SamePayload(d, t.req, req, t.next);
      RequestOf(c, h, answer);
    }
  }

  lemma MarkedIsCommitted(d: Disk, req: Request)
    requires AlreadyCommitted(d, req)
    ensures req.tx in d.markers
  {
  }

  /** One transaction id names one list of records. */
  lemma SamePayload(d: Disk, a: Request, b: Request, x: StateSnapshot)
    requires AlreadyCommitted(d, a) && AlreadyCommitted(d, b) && a.tx == b.tx
    ensures SnapshotRecord(x) in a.records ==> SnapshotRecord(x) in b.records
  {
    PayloadFacts(b.records);
    if SnapshotRecord(x) in a.records {
      PayloadKeeps(a, SnapshotRecord(x));
      hide PayloadOf, Admissible;
      var k := KeyOf(SnapshotRecord(x));
      assert RefsOf(PayloadOf(a.records)) == RefsOf(PayloadOf(b.records));
      assert RefsOf(PayloadOf(a.records))[k] == Sha256(SnapshotRecord(x));
      assert k in RefsOf(PayloadOf(b.records));
      assert RefsOf(PayloadOf(b.records))[k] == Sha256(PayloadOf(b.records)[k]);
    }
  }

  /** At the foot of the barrier: the next dataset was verified under another accepted state, so the
      data turn is not the one on disk, and can only stop short. */
  lemma LowStopsShort(c: Config, d: Disk, b: StateSnapshot, h: StateSnapshot, answer: Answer)
    requires IsBarrier(c, d, b) && Intact(d) && Works(c, CommittedView(d), h) && Low(b, h) && h.iteration == b.iteration
    requires TurnOf(c, h, answer).Commit?
    requires TurnOf(c, h, answer).req.tx !in d.markers || AlreadyCommitted(d, TurnOf(c, h, answer).req)
    ensures StopsShort(h, TurnOf(c, h, answer))
  {
    hide DataTurn, CandidateTurn, DataReviewTurn, ModelReviewTurn, CommittedView, AlreadyCommitted, Fit, StopsShort, Intact, SameCarry;
    TurnTakesState(c, h, answer);
    DataTurnPasses(c, h, answer.data);
    var t := TurnOf(c, h, answer);
    if !StopsShort(h, t) {
      var v :| SnapshotRecord(v) in t.req.records && v.id == VerifiedId(h.run, h.iteration) && SameCarry(v, h);
      NamedRecordIsCommitted(d, t.req, SnapshotRecord(v));
      CarryIsShared(v, h);
      SharedCarry(h, v, b);
    }
  }

  /** No turn, new or repeated, gets past the barrier. */
  lemma LowTurn(c: Config, d: Disk, b: StateSnapshot, h: StateSnapshot, answer: Answer, x: StateSnapshot)
    requires IsBarrier(c, d, b) && Intact(d) && Works(c, CommittedView(d), h) && Low(b, h)
    requires TurnOf(c, h, answer).Commit? && Admissible(TurnOf(c, h, answer).req)
    requires SnapshotRecord(x) in TurnOf(c, h, answer).req.records
    requires TurnOf(c, h, answer).req.tx !in d.markers || AlreadyCommitted(d, TurnOf(c, h, answer).req)
    ensures Low(b, x) || (TurnOf(c, h, answer).req.tx in d.markers && TurnOf(c, h, answer).next == b)
  {
    hide TurnOf, CommittedView, AlreadyCommitted, Fit, Intact, IsBarrier, SameCarry, Admissible, VerifiedAs;
    var t := TurnOf(c, h, answer);
    LowAsksFor(c, b, h, answer, x);
    RequestOf(c, h, answer);
    RunOfRecord(t.req, x);
    if h.iteration == b.iteration {
      LowStopsShort(c, d, b, h, answer);
    } else if x.iteration == b.iteration {
      LowLeadsOn(c, d, b, h, answer, x);
    }
  }

  // ---- Runs held by a barrier ----

  /** The marker could only be of an iteration up to the barrier's. */
  ghost predicate MarksLow(d: Disk, b: StateSnapshot, m: QuarantineMarker) {
    MarkerLinksHold(d, m) ==> m.iteration <= b.iteration
  }

  ghost predicate PcLow(c: Config, s: Stores, b: StateSnapshot, pc: Pc) {
    match pc
    case Down => true
    case Publishing(h) => h == b || Low(b, h)
    case Promoting(h, d) => (h == b && Bundled(s, b, d)) || Low(b, h)
    case Marking(h, m) => Low(b, h) && MarksLow(s.writer.disk, b, m)
    case PublishingRefused(h, x) =>
      Low(b, h) && (x.metadata.materialization.Some? ==> x.metadata.materialization.value.sourceIteration <= b.iteration)
    case _ => Low(b, pc.head)
  }

  ghost predicate NewIsLow(c: Config, was: Payload, view: Payload, b: StateSnapshot) {
    forall x :: InView(view, c.run, x) ==> InView(was, c.run, x) || Low(b, x)
  }

  ghost predicate LatestIsLow(c: Config, rank: Id -> int, was: Payload, b: StateSnapshot) {
    forall x :: IsLatest(was, c.run, rank, x) ==> x.iteration < b.iteration && x.metadata.materialization.None?
  }

  /** A run whose restarts all go back to before the barrier; `was` is the view when it died. */
  ghost predicate Held(c: Config, rank: Id -> int, was: Payload, b: StateSnapshot, p: Process) {
    && WorkInv(c, p) && LatestIsLow(c, rank, was, b)
    && Covers(CommittedView(p.stores.writer.disk), was) && NewIsLow(c, was, CommittedView(p.stores.writer.disk), b)
    && IsBarrier(c, p.stores.writer.disk, b) && Sunk(p.stores, b) && PcLow(c, p.stores, b, p.pc)
  }

  lemma HeldFacts(c: Config, rank: Id -> int, was: Payload, b: StateSnapshot, p: Process)
    requires Held(c, rank, was, b, p)
    ensures WorkInv(c, p) && StoresInv(p.stores) && Intact(p.stores.writer.disk)
    ensures IsBarrier(c, p.stores.writer.disk, b) && Sunk(p.stores, b) && PcLow(c, p.stores, b, p.pc)
  {
    hide StoresInv, AllWork, PcWorks, LatestIsLow, Covers, NewIsLow, CommittedView, IsBarrier, Sunk, PcLow;
    StoresAreIntact(p.stores);
  }

  lemma BarrierGrows(c: Config, d: Disk, d': Disk, b: StateSnapshot)
    requires IsBarrier(c, d, b) && Intact(d) && Intact(d') && Grows(d, d')
    ensures IsBarrier(c, d', b)
  {
    ViewCovers(d, d');
    hide CommittedView, Intact, AlreadyCommitted, Promotes, SameCarry;
    var req :| CameBy(c, d, b, req);
    CommittedStays(d, d', req);
    assert CameBy(c, d', b, req);
  }

  lemma SunkGrows(s: Stores, s': Stores, b: StateSnapshot)
    requires Sunk(s, b) && StoresGrow(s, s') && Intact(s'.writer.disk)
    ensures Sunk(s', b)
  {
    hide BundleCommits, LoadedRecord, Intact, Grows, PointerOf;
    var d :| Bundled(s, b, d) && exists i :: 0 <= i < |s.installed| - 1 && s.installed[i] == PointerOf(b, d);
    var i :| 0 <= i < |s.installed| - 1 && s.installed[i] == PointerOf(b, d);
    BundledGrows(s, s', b, d);
    assert s'.installed[i] == s.installed[i];
  }

  lemma TopIsHigher(s: Stores, i: nat)
    requires StoresInv(s) && i < |s.installed| - 1
    ensures s.pointer.Some? && s.installed[i].score < s.pointer.value.score
  {
    hide WriterInv, BundlesLoad, HistorySound, QuarantineSound, IsChain, InHistory, Succeeds;
    ChainRises(s.installed, i, |s.installed| - 1);
  }

  lemma OutscoredIsRefused(s: Stores, p: PeakPointer)
    requires s.pointer.Some? && p.score < s.pointer.value.score
    ensures !AlreadyInstalled(s.writer.disk, s.bundles, s.pointer, p)
    ensures !MayInstall(s.writer.disk, s.bundles, s.pointer, s.history, p, p.previous)
  {
    hide LinksHold, CurrentLoads, HistoryFree;
  }

  /** The promotion of the barrier is never made again. */
  lemma SunkIsNotPromoted(s: Stores, b: StateSnapshot, d: Decision)
    requires StoresInv(s) && Sunk(s, b) && Bundled(s, b, d)
    ensures !AlreadyInstalled(s.writer.disk, s.bundles, s.pointer, PointerOf(b, d))
    ensures !MayInstall(s.writer.disk, s.bundles, s.pointer, s.history, PointerOf(b, d), PointerOf(b, d).previous)
  {
    hide StoresInv, BundleCommits, AlreadyInstalled, MayInstall, PointerOf;
    var d' :| Bundled(s, b, d') && exists i :: 0 <= i < |s.installed| - 1 && s.installed[i] == PointerOf(b, d');
    assert d' == d;
    var i :| 0 <= i < |s.installed| - 1 && s.installed[i] == PointerOf(b, d);
    TopIsHigher(s, i);
    OutscoredIsRefused(s, PointerOf(b, d));
  }

  lemma HeldGrows(c: Config, rank: Id -> int, was: Payload, b: StateSnapshot, p: Process, p': Process)
    requires Held(c, rank, was, b, p) && WorkInv(c, p') && StoresGrow(p.stores, p'.stores)
    requires CommittedView(p'.stores.writer.disk) == CommittedView(p.stores.writer.disk) && PcLow(c, p'.stores, b, p'.pc)
    ensures Held(c, rank, was, b, p')
  {
    hide WorkInv, LatestIsLow, Covers, NewIsLow, CommittedView, IsBarrier, Sunk, PcLow, Intact;
    HeldFacts(c, rank, was, b, p);
    WorkIsIntact(c, p');
    BarrierGrows(c, p.stores.writer.disk, p'.stores.writer.disk, b);
    SunkGrows(p.stores, p'.stores, b);
  }

  lemma WorkIsIntact(c: Config, p: Process)
    requires WorkInv(c, p)
    ensures Intact(p.stores.writer.disk) && StoresInv(p.stores)
  {
    hide StoresInv, AllWork, PcWorks, CommittedView, Intact;
    StoresAreIntact(p.stores);
  }

  lemma ResumeIsLow(c: Config, rank: Id -> int, was: Payload, b: StateSnapshot, view: Payload, s: Stores, x: StateSnapshot)
    requires LatestIsLow(c, rank, was, b) && Covers(view, was) && NewIsLow(c, was, view, b) && IsLatest(view, c.run, rank, x)
    ensures PcLow(c, s, b, Reconciling(x))
  {
    hide NotAfter, Promotes;
    if InView(was, c.run, x) {
      assert IsLatest(was, c.run, rank, x);
    }
  }

  /** After a turn, new or repeated. */
  lemma AfterCommitIsLow(c: Config, s: Stores, b: StateSnapshot, h: StateSnapshot, t: Turn)
    requires EndsWell(h, t) && RequestFits(h, t) && Low(b, h) && (Low(b, t.next) || t.next == b)
    requires b.state == Diagnose && Promotes(b)
    requires t.req.tx in s.writer.disk.markers && s.writer.disk.markers[t.req.tx] == ManifestOf(t.req)
    ensures PcLow(c, s, b, AfterCommit(t))
  {
    hide PayloadOf, CommittedView, Intact, ManifestIntact, SameCarry, IsWorking, FitPending;
  }

  lemma BundledIsLow(c: Config, s: Stores, b: StateSnapshot, h: StateSnapshot, d: Decision)
    requires Materializable(h) && (h == b || Low(b, h)) && Bundled(s, h, d) && Promotes(b)
    ensures PcLow(c, s, b, AfterBundle(h, d))
  {
    hide Bundled, MarkerLinksHold, SameCarry, IsWorking;
  }

  lemma PublishIsLow(c: Config, s: Stores, b: StateSnapshot, h: StateSnapshot, d: Decision, s': Stores)
    requires Publishes(s, h, d, s') && PcLow(c, s, b, Publishing(h)) && Promotes(b)
    ensures PcLow(c, s', b, AfterBundle(h, d))
  {
    hide BundleCommits, LoadedRecord, BundleOf, BundleRequestOf, MayBundle, Low, Promotes, AfterBundle;
    PublishBundles(s, h, d, s');
    BundledIsLow(c, s', b, h, d);
  }

  lemma RefusedIsLow(c: Config, s: Stores, b: StateSnapshot, h: StateSnapshot, x: StateSnapshot, d: Decision, s': Stores)
    requires Publishes(s, x, d, s') && PcLow(c, s, b, PublishingRefused(h, x))
    ensures PcLow(c, s', b, Marking(h, MarkerOf(x, d)))
  {
    hide MarkerLinksHold, SameCarry, IsWorking, BundleCommits, LoadedRecord, BundleOf;
  }

  lemma PromotionIsLow(c: Config, p: Process, b: StateSnapshot, p': Process)
    requires PromotionNext(p, p') && PcLow(c, p.stores, b, p.pc) && StoresInv(p.stores) && Sunk(p.stores, b)
    ensures PcLow(c, p'.stores, b, p'.pc)
  {
    hide StoresInv, Sunk, Bundled, AlreadyInstalled, MayInstall, PointerOf, Low;
    if p.pc.head == b && Bundled(p.stores, b, p.pc.decision) { SunkIsNotPromoted(p.stores, b, p.pc.decision); }
  }

  lemma BarrierPromotes(c: Config, d: Disk, b: StateSnapshot)
    requires IsBarrier(c, d, b)
    ensures b.run == c.run && b.state == Diagnose && Promotes(b)
  {
    hide CommittedView, CameBy, Promotes;
  }

  lemma HeldRepeat(c: Config, rank: Id -> int, was: Payload, b: StateSnapshot, p: Process, answer: Answer, p': Process)
    requires Held(c, rank, was, b, p) && p.pc.Ready? && RepeatNext(p, TurnOf(c, p.pc.head, answer), p') && WorkInv(c, p')
    ensures Held(c, rank, was, b, p')
  {
    hide Held, StoresInv, AllWork, CommittedView, TurnOf, AfterCommit, IsBarrier, Sunk, Low, Fit, EndsWell, RequestFits,
      Admissible, ManifestOf, Intact, ManifestIntact;
    HeldFacts(c, rank, was, b, p);
    var d, h := p.stores.writer.disk, p.pc.head;
    var t := TurnOf(c, h, answer);
    WorksHasRun(c, CommittedView(d), h);
    TurnEnding(c, h, answer);
    RequestOf(c, h, answer);
    NextIsWritten(h, t);
    BarrierPromotes(c, d, b);
    LowTurn(c, d, b, h, answer, t.next);
    AfterCommitIsLow(c, p'.stores, b, h, t);
    HeldGrows(c, rank, was, b, p, p');
  }

  lemma NextIsWritten(h: StateSnapshot, t: Turn)
    requires RequestFits(h, t)
    ensures t.Commit? && SnapshotRecord(t.next) in t.req.records && t.req.run == h.run
  {
  }

  lemma NewStaysLow(c: Config, was: Payload, b: StateSnapshot, d: Disk, h: StateSnapshot, answer: Answer)
    requires NewIsLow(c, was, CommittedView(d), b) && IsBarrier(c, d, b) && Intact(d) && Works(c, CommittedView(d), h) && Low(b, h)
    requires var t := TurnOf(c, h, answer);
      && t.Commit? && MayStart(d, t.req) && NoConflict(d, PayloadOf(t.req.records))
      && CommittedView(Finished(d, t.req)) == CommittedView(d) + PayloadOf(t.req.records)
    ensures var t := TurnOf(c, h, answer); NewIsLow(c, was, CommittedView(Finished(d, t.req)), b) && Low(b, t.next)
  {
    hide TurnOf, CommittedView, PayloadOf, MayStart, NoConflict, Finished, Intact, Works, InView, Low, IsBarrier, Admissible, RequestFits;
    var t := TurnOf(c, h, answer);
    MayStartIsAdmissible(d, t.req);
    StartsWithNew(d, t.req);
    RequestOf(c, h, answer);
    NextIsWritten(h, t);
    LowTurn(c, d, b, h, answer, t.next);
    forall x | InView(CommittedView(Finished(d, t.req)), c.run, x) ensures InView(was, c.run, x) || Low(b, x) {
      InViewAfter(d, t.req, c.run, x);
      if !InView(CommittedView(d), c.run, x) { LowTurn(c, d, b, h, answer, x); }
    }
  }

  lemma StartsWithNew(d: Disk, req: Request)
    requires MayStart(d, req)
    ensures req.tx !in d.markers
  {
  }

  lemma CoversOn(a: Payload, b: Payload, was: Payload)
    requires Covers(b, a) && Covers(a, was)
    ensures Covers(b, was)
  {
  }

  lemma HeldViews(c: Config, rank: Id -> int, was: Payload, b: StateSnapshot, p: Process)
    requires Held(c, rank, was, b, p)
    ensures LatestIsLow(c, rank, was, b) && Covers(CommittedView(p.stores.writer.disk), was)
    ensures NewIsLow(c, was, CommittedView(p.stores.writer.disk), b)
  {
    hide WorkInv, LatestIsLow, Covers, NewIsLow, CommittedView, IsBarrier, Sunk, PcLow;
  }

  lemma HeldMarker(c: Config, rank: Id -> int, was: Payload, b: StateSnapshot, p: Process, p': Process)
    requires Held(c, rank, was, b, p) && CommitNext(p, WriteMarker, p') && WorkInv(c, p') && StoresGrow(p.stores, p'.stores)
    ensures Held(c, rank, was, b, p')
  {
    hide Held, StoresInv, StoresNext, StoresGrow, Grows, AllWork, CommittedView, TurnOf, AfterCommit, IsBarrier, Sunk, Low, Fit, EndsWell,
      RequestFits, Intact, MayStart, NoConflict, PayloadOf, Works, LatestIsLow, Covers, NewIsLow, ManifestOf;
    HeldFacts(c, rank, was, b, p);
    HeldViews(c, rank, was, b, p);
    var d, d', h, t := p.stores.writer.disk, p'.stores.writer.disk, p.pc.head, p.pc.turn;
    assert TakenFrom(c, h, t);
    var answer :| TurnOf(c, h, answer) == t;
    WriteMarkerExtendsView(p.stores, p'.stores);
    WorksHasRun(c, CommittedView(d), h);
    TurnEnding(c, h, answer);
    RequestOf(c, h, answer);
    BarrierPromotes(c, d, b);
    NewStaysLow(c, was, b, d, h, answer);
    AfterCommitIsLow(c, p'.stores, b, h, t);
    ViewCovers(d, d');
    CoversOn(CommittedView(d), CommittedView(d'), was);
    BarrierGrows(c, d, d', b);
    SunkGrows(p.stores, p'.stores, b);
    HeldIs(c, rank, was, b, p');
  }

  lemma HeldIs(c: Config, rank: Id -> int, was: Payload, b: StateSnapshot, p: Process)
    requires WorkInv(c, p) && LatestIsLow(c, rank, was, b) && Covers(CommittedView(p.stores.writer.disk), was)
    requires NewIsLow(c, was, CommittedView(p.stores.writer.disk), b)
    requires IsBarrier(c, p.stores.writer.disk, b) && Sunk(p.stores, b) && PcLow(c, p.stores, b, p.pc)
    ensures Held(c, rank, was, b, p)
  {
  }

  lemma BeginIsLow(c: Config, p: Process, b: StateSnapshot, t: Turn, p': Process)
    requires p.pc.Ready? && BeginNext(c, p, t, p') && PcLow(c, p.stores, b, p.pc)
    ensures PcLow(c, p'.stores, b, p'.pc) && p'.stores.writer.disk == p.stores.writer.disk
  {
    hide Low, MayStart, PayloadOf, FreshCandidate;
  }

  lemma WriteIsLow(c: Config, p: Process, b: StateSnapshot, write: WriterStep, p': Process)
    requires !write.WriteMarker? && CommitNext(p, write, p') && PcLow(c, p.stores, b, p.pc)
    ensures PcLow(c, p'.stores, b, p'.pc)
  {
    hide Low, StoresNext;
  }

  lemma HeldCommit(c: Config, rank: Id -> int, was: Payload, b: StateSnapshot, p: Process, write: WriterStep, p': Process)
    requires Held(c, rank, was, b, p) && CommitNext(p, write, p') && WorkInv(c, p') && StoresGrow(p.stores, p'.stores)
    ensures Held(c, rank, was, b, p')
  {
    hide Held, WorkInv, StoresInv, StoresNext, StoresGrow, CommittedView, AfterCommit, IsBarrier, Sunk, PcLow, Intact;
    HeldFacts(c, rank, was, b, p);
    match write
    case WriteMarker => HeldMarker(c, rank, was, b, p, p');
    case WriteRecord(k) =>
      WriteRecordKeepsView(p.stores, k, p'.stores);
      WriteIsLow(c, p, b, write, p');
      HeldGrows(c, rank, was, b, p, p');
    case WriteConflict(k) =>
      ConflictKeepsDisk(p.stores, k, p'.stores);
      WriteIsLow(c, p, b, write, p');
      HeldGrows(c, rank, was, b, p, p');
  }

  lemma OtherIsLow(c: Config, rank: Id -> int, was: Payload, b: StateSnapshot, p: Process, step: ProcessStep, p': Process)
    requires Held(c, rank, was, b, p) && ProcessNext(c, rank, p, step, p')
    requires !step.BeginTurn? && !step.RepeatTurn? && !step.CommitStep?
    ensures PcLow(c, p'.stores, b, p'.pc)
  {
    hide Held, WorkInv, StoresInv, IsBarrier, Sunk, Low, Intact, CommittedView, IsLatest, Publishes, AfterBundle, MarkerOf, PointerOf,
      PromotionNext, Promotes, Bundled, MarksLow, LatestIsLow, Covers, NewIsLow;
    HeldFacts(c, rank, was, b, p);
    BarrierPromotes(c, p.stores.writer.disk, b);
    match step
    case Resume(x) =>
      HeldViews(c, rank, was, b, p);
      ResumeIsLow(c, rank, was, b, CommittedView(p.stores.writer.disk), p'.stores, x);
    case Publish(d) => PublishIsLow(c, p.stores, b, p.pc.head, d, p'.stores);
    case PublishRefused(d) => RefusedIsLow(c, p.stores, b, p.pc.head, p.pc.refused, d, p'.stores);
    case Promotion => PromotionIsLow(c, p, b, p');
    case _ =>
  }

  lemma HeldStep(c: Config, rank: Id -> int, was: Payload, b: StateSnapshot, p: Process, step: ProcessStep, p': Process)
    requires Held(c, rank, was, b, p) && ProcessNext(c, rank, p, step, p')
    ensures Held(c, rank, was, b, p')
  {
    hide Held, WorkInv, StoresInv, StoresGrow, CommittedView, IsBarrier, Sunk, PcLow, Intact, TurnOf, ResumeNext, BeginNext, RepeatNext,
      CommitNext, PublishNext, PublishRefusedNext, PromotionNext, InstallNext, MarkNext, UnlockNext, Reconciling, Interrupted;
    HeldFacts(c, rank, was, b, p);
    ProcessKeepsStoresInv(c, rank, p, step, p');
    WorkStep(c, rank, p, step, p');
    match step
    case BeginTurn(answer) =>
      BeginIsLow(c, p, b, TurnOf(c, p.pc.head, answer), p');
      HeldGrows(c, rank, was, b, p, p');
    case RepeatTurn(answer) => HeldRepeat(c, rank, was, b, p, answer, p');
    case CommitStep(write) => HeldCommit(c, rank, was, b, p, write, p');
    case _ =>
      OtherIsLow(c, rank, was, b, p, step, p');
      OtherHeads(c, rank, p, step, p');
      HeldGrows(c, rank, was, b, p, p');
  }

  /** No marker of a later iteration is written. */
  lemma HeldMarksNothing(
    c: Config, rank: Id -> int, was: Payload, b: StateSnapshot, p: Process, step: ProcessStep, p': Process, key: QuarantineKey)
    requires Held(c, rank, was, b, p) && ProcessNext(c, rank, p, step, p')
    requires key !in p.stores.quarantined && b.iteration < key.iteration
    ensures key !in p'.stores.quarantined
  {
    hide Held, WorkInv, StoresInv, IsBarrier, Sunk, Low, Intact, CommittedView, IsLatest, TurnOf, MayStart, AfterCommit, MarkerLinksHold,
      BundleRequestOf, BundleOf, PointerOf, MayInstall, BundleCommits, FreshCandidate, LoadedRecord;
    HeldFacts(c, rank, was, b, p);
  }

  lemma {:induction false} HeldForGood(
    c: Config, rank: Id -> int, was: Payload, b: StateSnapshot, states: seq<Process>, steps: seq<ProcessStep>, n: nat,
    key: QuarantineKey)
    requires Follows(c, rank, states, steps) && n < |states| && Held(c, rank, was, b, states[0])
    requires key !in states[0].stores.quarantined && b.iteration < key.iteration
    ensures Held(c, rank, was, b, states[n]) && key !in states[n].stores.quarantined
  {
    hide Held, ProcessNext;
    if n > 0 {
      HeldForGood(c, rank, was, b, states, steps, n - 1, key);
      HeldStep(c, rank, was, b, states[n - 1], steps[n - 1], states[n]);
      HeldMarksNothing(c, rank, was, b, states[n - 1], steps[n - 1], states[n], key);
    }
  }
}
