/** The controller running on the four stores: one durable write per step, and a crash allowed
    between any two steps. The invariant at the end is that of runs without human reviews that
    start from a finished bootstrap.

    A failed store call raises and ends the process, like a crash. `heads` records the snapshot
    each committed transaction left the run at; it is bookkeeping only. */
module CrashRecovery {
  import opened Records
  import opened ControlStore
  import opened ControlProtocol
  import opened CheckpointStore
  import opened PeakStore
  import opened QuarantineStore
  import opened StoreSystem
  import opened Controller
  import opened Turns
  import opened RunState
  import opened Materialization
  import opened Bootstrap

  /** Where the process is; Down when there is none. */
  datatype Pc =
    | Down
    | Ready(head: StateSnapshot)
    | Committing(head: StateSnapshot, turn: Turn)
    | Publishing(head: StateSnapshot)
    | PublishingRefused(head: StateSnapshot, refused: StateSnapshot)
    | Promoting(head: StateSnapshot, decision: Decision)
    | Installing(head: StateSnapshot, decision: Decision)
    | Marking(head: StateSnapshot, marker: QuarantineMarker)

  datatype Process = Process(stores: Stores, pc: Pc, heads: seq<StateSnapshot>)

  datatype Answer =
    | DataAnswer(data: DataInput)
    | CandidateAnswer(candidate: CandidateInput)
    | ReviewAnswer(review: Review)

  datatype ProcessStep =
    | Resume(head: StateSnapshot)
    | BeginTurn(answer: Answer)
    | RepeatTurn(answer: Answer)
    | CommitStep(write: WriterStep)
    | Reconcile
    | Publish(decision: Decision)
    | PublishRefused(decision: Decision)
    | Promotion
    | Install
    | Mark
    | Die(controlLock: bool, peakLock: bool)
    | HumanRemovesLock(lock: StoreStep)

  function TurnOf(c: Config, s: StateSnapshot, answer: Answer): Turn {
    if s.state == Diagnose && answer.DataAnswer? then DataTurn(c, s, answer.data)
    else if s.state == Train && answer.CandidateAnswer? then CandidateTurn(c, s, answer.candidate)
    else if s.state == DataReviewPending && answer.ReviewAnswer? then DataReviewTurn(c, s, answer.review)
    else if s.state == ModelReviewPending && answer.ReviewAnswer? then ModelReviewTurn(c, s, answer.review)
    else Raise
  }

  /** A trainer never reuses the id of a checkpoint that already has a bundle. */
  predicate FreshCandidate(bundles: map<Id, Bundle>, s: StateSnapshot) {
    (s.metadata.materialization.Some? || s.state == ModelReviewPending) && s.metadata.candidate.Some? ==>
      s.metadata.candidate.value.checkpoint !in bundles
  }

  /** `_reconcile_snapshot`. */
  function Reconciling(s: StateSnapshot): Pc {
    if s.metadata.materialization.Some? then Publishing(s) else Ready(s)
  }

  function AfterCommit(t: Turn): Pc
    requires t.Commit?
  {
    if t.marker.Some? then Marking(t.next, t.marker.value)
    else if t.refused.Some? then PublishingRefused(t.next, t.refused.value)
    else Reconciling(t.next)
  }

  function AfterBundle(s: StateSnapshot, d: Decision): Pc
    requires Materializable(s)
  {
    match ActionOf(s)
    case Promote => Promoting(s, d)
    case Reject => Marking(s, MarkerOf(s, d))
    case Rollback => Marking(s, MarkerOf(s, d))
    case _ => Ready(s)
  }

  ghost predicate ResumeNext(c: Config, rank: Id -> int, p: Process, head: StateSnapshot, p': Process) {
    && p.pc.Down?
    && IsLatest(CommittedView(p.stores.writer.disk), c.run, rank, head)
    && p' == p.(pc := Reconciling(head))
  }

  ghost predicate BeginNext(c: Config, p: Process, t: Turn, p': Process) {
    && p.pc.Ready? && t.Commit? && FreshCandidate(p.stores.bundles, t.next)
    && StoresNext(p.stores, Control(BeginCommit(t.req)), p'.stores)
    && p' == p.(stores := p'.stores, pc := Committing(p.pc.head, t))
  }

  /** A transaction that is already there, with the same content, is accepted again. */
  ghost predicate RepeatNext(p: Process, t: Turn, p': Process) {
    && p.pc.Ready? && t.Commit? && !p.stores.writer.locked && AlreadyCommitted(p.stores.writer.disk, t.req)
    && p' == p.(pc := AfterCommit(t), heads := p.heads + [t.next])
  }

  /** A record, the marker, or a record whose file already holds something else. */
  ghost predicate CommitNext(p: Process, write: WriterStep, p': Process) {
    && p.pc.Committing? && p.pc.turn.Commit?
    && StoresNext(p.stores, Control(write), p'.stores)
    && match write
       case WriteRecord(_) => p' == p.(stores := p'.stores)
       case WriteMarker =>
         p' == p.(stores := p'.stores, pc := AfterCommit(p.pc.turn), heads := p.heads + [p.pc.turn.next])
       case WriteConflict(_) => p' == p.(stores := p'.stores, pc := Down)
       case _ => false
  }

  /** The bundle of a decided candidate appears, if it is not there yet, and its decision loads. */
  ghost predicate Publishes(s: Stores, head: StateSnapshot, d: Decision, s': Stores) {
    && Materializable(head)
    && var req := BundleRequestOf(head);
    && BundleCommits(s.writer.disk, s.bundles, req)
    && (if CheckpointOf(head) in s.bundles then s' == s else StoresNext(s, PublishBundle(req), s'))
    && LoadedRecord(s.writer.disk, Key(DecisionKind, head.metadata.materialization.value.decision)) == Ok(DecisionRecord(d))
  }

  ghost predicate PublishNext(p: Process, d: Decision, p': Process) {
    && p.pc.Publishing? && Publishes(p.stores, p.pc.head, d, p'.stores)
    && p' == p.(stores := p'.stores, pc := AfterBundle(p.pc.head, d))
  }

  /** A candidate a human refused is materialised from a snapshot that is not itself committed. */
  ghost predicate PublishRefusedNext(p: Process, d: Decision, p': Process) {
    && p.pc.PublishingRefused? && Publishes(p.stores, p.pc.refused, d, p'.stores)
    && p' == p.(stores := p'.stores, pc := Marking(p.pc.head, MarkerOf(p.pc.refused, d)))
  }

  ghost predicate PromotionNext(p: Process, p': Process) {
    && p.pc.Promoting? && Materializable(p.pc.head)
    && var s, pointer := p.stores, PointerOf(p.pc.head, p.pc.decision);
    if AlreadyInstalled(s.writer.disk, s.bundles, s.pointer, pointer) then
      !s.peakLocked && p' == p.(pc := Ready(p.pc.head))
    else
      && StoresNext(s, BeginInstall(pointer, pointer.previous), p'.stores)
      && p' == p.(stores := p'.stores, pc := Installing(p.pc.head, p.pc.decision))
  }

  ghost predicate InstallNext(p: Process, p': Process) {
    && p.pc.Installing? && Materializable(p.pc.head)
    && StoresNext(p.stores, ReplacePointer, p'.stores)
    && p' == p.(stores := p'.stores, pc := Ready(p.pc.head))
  }

  ghost predicate MarkNext(p: Process, p': Process) {
    && p.pc.Marking?
    && StoresNext(p.stores, WriteQuarantine(p.pc.marker), p'.stores)
    && p' == p.(stores := p'.stores, pc := Ready(p.pc.head))
  }

  ghost predicate UnlockNext(p: Process, lock: StoreStep, p': Process) {
    && p.pc.Down? && (lock == Control(RemoveStaleLock) || lock == RemoveStalePeakLock)
    && StoresNext(p.stores, lock, p'.stores)
    && p' == p.(stores := p'.stores)
  }

  ghost predicate ProcessNext(c: Config, rank: Id -> int, p: Process, step: ProcessStep, p': Process) {
    match step
    case Resume(head) => ResumeNext(c, rank, p, head, p')
    case BeginTurn(answer) => p.pc.Ready? && BeginNext(c, p, TurnOf(c, p.pc.head, answer), p')
    case RepeatTurn(answer) => p.pc.Ready? && RepeatNext(p, TurnOf(c, p.pc.head, answer), p')
    case CommitStep(write) => CommitNext(p, write, p')
    case Reconcile => p.pc.Ready? && p' == p.(pc := Reconciling(p.pc.head))
    case Publish(d) => PublishNext(p, d, p')
    case PublishRefused(d) => PublishRefusedNext(p, d, p')
    case Promotion => PromotionNext(p, p')
    case Install => InstallNext(p, p')
    case Mark => MarkNext(p, p')
    case Die(controlLock, peakLock) => p' == p.(stores := Interrupted(p.stores, controlLock, peakLock), pc := Down)
    case HumanRemovesLock(lock) => UnlockNext(p, lock, p')
  }

  /** What is left of the stores when the process dies: the disk, and its locks. A lock may also
      have been taken just before, or its release been cut off. */
  function Interrupted(s: Stores, controlLock: bool, peakLock: bool): Stores {
    s.(writer := Writer(s.writer.disk, None, s.writer.locked || controlLock),
       installing := None, peakLocked := s.peakLocked || peakLock)
  }

  /** Each state follows from the one before it. */
  ghost predicate Follows(c: Config, rank: Id -> int, states: seq<Process>, steps: seq<ProcessStep>) {
    && |states| == |steps| + 1
    && forall i :: 0 <= i < |steps| ==> ProcessNext(c, rank, states[i], steps[i], states[i + 1])
  }

  // ---- Verdicts about checkpoints ----

  ghost predicate IsInstalled(installed: seq<PeakPointer>, checkpoint: Id) {
    exists p :: p in installed && p.checkpoint == checkpoint
  }

  ghost predicate IsQuarantined(quarantined: map<QuarantineKey, QuarantineMarker>, checkpoint: Id) {
    exists k :: k in quarantined && k.subjectType == CheckpointSubject && k.subject == checkpoint
  }

  predicate Refuses(a: Action) {
    a == Action.Reject || a == Rollback
  }

  ghost predicate Verdict(view: Payload, x: Decision) {
    && x.subjectType == CheckpointSubject
    && Key(DecisionKind, x.id) in view && view[Key(DecisionKind, x.id)] == DecisionRecord(x)
  }

  /** The candidate has its bundle, and is the Peak's history or in quarantine exactly as the
      decision says. */
  ghost predicate CarriedOut(s: Stores, x: Decision) {
    && IsVerdict(x.action) && x.subject in s.bundles
    && (IsInstalled(s.installed, x.subject) <==> x.action == Promote)
    && (IsQuarantined(s.quarantined, x.subject) <==> Refuses(x.action))
  }

  // ---- The invariant ----

  predicate PointerFits(pointer: Option<PeakPointer>, head: StateSnapshot) {
    && pointer.Some?
    && head.peak == Some(pointer.value.checkpoint)
    && head.peakScore == Some(pointer.value.score)
    && pointer.value.iteration <= head.iteration
  }

  /** The Peak pointer is the one of the head, or the one its promotion replaces. */
  ghost predicate PromotionOpen(
    pointer: Option<PeakPointer>, history: map<HistoryKey, PeakPointer>, head: StateSnapshot, d: Decision)
    requires Materializable(head)
  {
    var p := PointerOf(head, d);
    && head.peak == Some(p.checkpoint) && head.peakScore == Some(p.score) && p.iteration <= head.iteration
    && HistoryFree(history, p)
    && (pointer == Some(p) || Succeeds(pointer, p, p.previous))
  }

  ghost predicate Unsettled(s: Stores, head: StateSnapshot, d: Decision) {
    && Materializable(head) && DecisionLoads(s.writer.disk, head, d) && IsVerdict(ActionOf(head))
    && (CheckpointOf(head) in s.bundles ==> s.bundles[CheckpointOf(head)] == BundleOf(BundleRequestOf(head)))
    && (IsInstalled(s.installed, CheckpointOf(head)) ==> ActionOf(head) == Promote)
    && (IsQuarantined(s.quarantined, CheckpointOf(head)) ==> Refuses(ActionOf(head)))
    && (if ActionOf(head) == Promote then PromotionOpen(s.pointer, s.history, head, d) else PointerFits(s.pointer, head))
    && (Refuses(ActionOf(head)) ==> MarkerFree(s.quarantined, MarkerOf(head, d)))
  }

  /** What is known of the head whether or not its materialisation has finished. */
  ghost predicate HeadInv(s: Stores, head: StateSnapshot) {
    if head.metadata.materialization.None? then PointerFits(s.pointer, head)
    else exists d :: Unsettled(s, head, d)
  }

  /** The materialisation of the head has finished. */
  ghost predicate Settled(s: Stores, head: StateSnapshot) {
    && PointerFits(s.pointer, head)
    && (Materializable(head) ==>
          && CheckpointOf(head) in s.bundles
          && (ActionOf(head) == Promote ==> IsInstalled(s.installed, CheckpointOf(head)))
          && (Refuses(ActionOf(head)) ==> IsQuarantined(s.quarantined, CheckpointOf(head))))
  }

  /** Verdicts other than the head's have been carried out. */
  ghost predicate VerdictsInv(s: Stores, view: Payload, head: StateSnapshot) {
    forall x :: Verdict(view, x) ==>
      if Materializable(head) && x.subject == CheckpointOf(head) then x.action == ActionOf(head)
      else CarriedOut(s, x)
  }

  ghost predicate DatasetMarkersInv(quarantined: map<QuarantineKey, QuarantineMarker>, head: StateSnapshot) {
    forall k :: k in quarantined && k.subjectType != CheckpointSubject ==> head.state == Stopped && head.metadata.materialization.None?
  }

  ghost predicate MarkerPending(s: Stores, head: StateSnapshot, m: QuarantineMarker) {
    && MarkerLinksHold(s.writer.disk, m) && MarkerFree(s.quarantined, m)
    && if head.metadata.materialization.None? then
         m.subjectType != CheckpointSubject && head.state == Stopped && QuarantineKeyOf(m) !in s.quarantined
       else
         && Materializable(head) && Refuses(ActionOf(head)) && CheckpointOf(head) in s.bundles
         && m.subjectType == CheckpointSubject && m.subject == CheckpointOf(head)
         && exists d :: Unsettled(s, head, d) && m == MarkerOf(head, d)
  }

  ghost predicate PcInv(c: Config, s: Stores, pc: Pc, head: StateSnapshot) {
    && (!pc.Down? ==> pc.head == head)
    && (!pc.Committing? ==> s.writer.pending.None?)
    && (!pc.Installing? ==> s.installing.None?)
    && (match pc
        case Down => true
        case Ready(_) => Settled(s, head)
        case Committing(_, t) =>
          && Settled(s, head) && GoodTurn(c, head, t) && FreshCandidate(s.bundles, t.next)
          && (head.state == Diagnose || head.state == Train)
          && s.writer.pending.Some? && s.writer.pending.value.req == t.req
        case Publishing(_) => head.metadata.materialization.Some?
        case PublishingRefused(_, _) => false
        case Promoting(_, d) => Unsettled(s, head, d) && ActionOf(head) == Promote && CheckpointOf(head) in s.bundles
        case Installing(_, d) =>
          && Unsettled(s, head, d) && ActionOf(head) == Promote && CheckpointOf(head) in s.bundles
          && s.installing == Some(PointerOf(head, d))
        case Marking(_, m) => MarkerPending(s, head, m))
  }

  function Spent(heads: seq<StateSnapshot>): real {
    if heads == [] then 0.0 else Spent(heads[..|heads| - 1]) + ChargedBy(heads[|heads| - 1])
  }

  /** Every head is one the run can stand at, and its total is what the heads up to it cost. */
  ghost predicate HeadsInv(c: Config, heads: seq<StateSnapshot>) {
    forall i :: 0 <= i < |heads| ==> Standing(c, heads[i]) && heads[i].totalCost == Spent(heads[..i + 1])
  }

  function HeadOf(p: Process): StateSnapshot
    requires p.heads != []
  {
    p.heads[|p.heads| - 1]
  }

  /** Transaction ids name their iteration and their place in it: the ones in use are from before
      where the head stands. */
  predicate UsedTx(run: Id, head: StateSnapshot, tx: Id) {
    && tx.Minted? && tx.run == run
    && (tx.iteration < head.iteration || (tx.iteration == head.iteration && PlaceOfTx(tx.tag) < Place(head.state)))
  }

  ghost predicate TxInv(markers: map<Id, Manifest>, run: Id, head: StateSnapshot) {
    forall tx :: tx in markers ==> UsedTx(run, head, tx)
  }

  ghost predicate CoreInv(c: Config, s: Stores, head: StateSnapshot) {
    && StoresInv(s)
    && IsHead(CommittedView(s.writer.disk), c.run, head)
    && HeadInv(s, head)
    && VerdictsInv(s, CommittedView(s.writer.disk), head)
    && DatasetMarkersInv(s.quarantined, head)
    && TxInv(s.writer.disk.markers, c.run, head)
  }

  ghost predicate Inv(c: Config, p: Process) {
    && p.heads != [] && HeadsInv(c, p.heads)
    && CoreInv(c, p.stores, HeadOf(p))
    && PcInv(c, p.stores, p.pc, HeadOf(p))
  }
}
