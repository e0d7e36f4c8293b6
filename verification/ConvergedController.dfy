/** The controller as the source writes it: an object over four stores whose methods commit,
    materialise and loop. What one turn is comes from Controller; what makes the guards hold in
    every reachable state is in CrashTheorems. */
module ConvergedController {
  import opened Records
  import opened ControlStore
  import opened CheckpointStore
  import opened PeakStore
  import opened QuarantineStore
  import opened Controller
  import opened RunState
  import opened Materialization
  import opened Bootstrap
  import opened RunLoop

  /** The pointer or the marker that a committed decision still calls for can be written. */
  ghost predicate CanSettle(
    control: Disk, bundles: map<Id, Bundle>, pointer: Option<PeakPointer>, history: map<HistoryKey, PeakPointer>,
    quarantined: map<QuarantineKey, QuarantineMarker>, s: StateSnapshot, d: Decision)
    requires Materializable(s)
  {
    && (ActionOf(s) == Promote ==>
          || AlreadyInstalled(control, bundles, pointer, PointerOf(s, d))
          || MayInstall(control, bundles, pointer, history, PointerOf(s, d), PointerOf(s, d).previous))
    && (ActionOf(s) == Action.Reject || ActionOf(s) == Rollback ==> MarkerCommits(control, quarantined, MarkerOf(s, d)))
  }

  /** How settling a decision changes the Peak pointer and the quarantine. */
  predicate IsSettled(
    s: StateSnapshot, d: Decision, pointer: Option<PeakPointer>, pointer': Option<PeakPointer>,
    quarantined: map<QuarantineKey, QuarantineMarker>, quarantined': map<QuarantineKey, QuarantineMarker>)
    requires Materializable(s)
  {
    var marker := MarkerOf(s, d);
    && pointer' == (if ActionOf(s) == Promote then Some(PointerOf(s, d)) else pointer)
    && quarantined' == (if ActionOf(s) == Action.Reject || ActionOf(s) == Rollback then quarantined[QuarantineKeyOf(marker) := marker]
                        else quarantined)
  }

  ghost function DecisionOf(control: Disk, s: StateSnapshot): Option<Decision>
    requires Materializable(s)
  {
    var loaded := LoadedRecord(control, Key(DecisionKind, s.metadata.materialization.value.decision));
    if loaded.Ok? && loaded.value.DecisionRecord? then Some(loaded.value.decision) else None
  }

  /** What a process that is not killed needs to materialise a snapshot. */
  ghost predicate CanMaterialize(
    control: Disk, bundles: map<Id, Bundle>, pointer: Option<PeakPointer>, history: map<HistoryKey, PeakPointer>,
    quarantined: map<QuarantineKey, QuarantineMarker>, s: StateSnapshot)
  {
    && Materializable(s)
    && BundleCommits(control, bundles, BundleRequestOf(s))
    && DecisionOf(control, s).Some?
    && CanSettle(control, bundles[CheckpointOf(s) := BundleOf(BundleRequestOf(s))], pointer, history, quarantined, s,
                 DecisionOf(control, s).value)
  }

  /** What `_materialize_checkpoint` leaves: the snapshot's bundle, and its decision settled. */
  ghost predicate IsMaterialized(
    control: Disk, s: StateSnapshot, bundles: map<Id, Bundle>, bundles': map<Id, Bundle>,
    pointer: Option<PeakPointer>, pointer': Option<PeakPointer>,
    quarantined: map<QuarantineKey, QuarantineMarker>, quarantined': map<QuarantineKey, QuarantineMarker>)
  {
    && Materializable(s) && DecisionOf(control, s).Some?
    && bundles' == bundles[CheckpointOf(s) := BundleOf(BundleRequestOf(s))]
    && IsSettled(s, DecisionOf(control, s).value, pointer, pointer', quarantined, quarantined')
  }

  /** The bundle says of the candidate what the snapshot says: who it is, what it was trained from, its score,
      and the status, decision and action it is materialised with. */
  predicate BundleSays(b: Bundle, s: StateSnapshot) {
    && s.metadata.candidate.Some? && s.metadata.materialization.Some?
    && var f, m := s.metadata.candidate.value, s.metadata.materialization.value;
    && b.manifest.checkpoint == f.checkpoint && b.manifest.artifact == f.artifact && b.manifest.tx == m.tx
    && b.lineage == LineageManifest(f.checkpoint, s.run, m.sourceIteration, f.model, f.parent, f.score, m.status, f.artifact,
                                    m.tx, s.enteredAt)
    && b.payload.status == m.status && b.payload.decision == Some(m.decision) && b.payload.action == Some(m.action)
    && b.payload.model == f.model && b.payload.parent == f.parent && b.payload.score == f.score
  }

  lemma RequestSays(s: StateSnapshot)
    requires Materializable(s)
    ensures BundleSays(BundleOf(BundleRequestOf(s)), s)
  {
  }

  /** The snapshot a turn without a marker materialises after its commit. */
  function ToMaterialize(t: Turn): Option<StateSnapshot>
    requires t.Commit?
  {
    if t.refused.Some? then t.refused else if t.next.metadata.materialization.Some? then Some(t.next) else None
  }

  /** Exactly when a turn on free locks succeeds: the transaction is accepted, and on the disk it
      leaves so is what the turn writes next. */
  ghost predicate TurnSucceeds(
    control: Disk, bundles: map<Id, Bundle>, pointer: Option<PeakPointer>, history: map<HistoryKey, PeakPointer>,
    quarantined: map<QuarantineKey, QuarantineMarker>, t: Turn)
    requires t.Commit?
  {
    && MayCommit(control, t.req)
    && var after := Finished(control, t.req);
    && (t.marker.Some? ==> MarkerCommits(after, quarantined, t.marker.value))
    && (t.marker.None? && ToMaterialize(t).Some? ==>
          CanMaterialize(after, bundles, pointer, history, quarantined, ToMaterialize(t).value))
  }

  /** What a process that is not killed needs to install the base model as the first Peak. */
  ghost predicate CanInstallFirst(
    c: Config, e: BootEvidence, control: Disk, bundles: map<Id, Bundle>, history: map<HistoryKey, PeakPointer>)
  {
    && BundleCommits(control, bundles, BootBundle(c))
    && LinksHold(control, bundles[c.base := BundleOf(BootBundle(c))], BootPointer(c, e))
    && HistoryFree(history, BootPointer(c, e))
  }

  datatype RunEnd =
    | Ended(final: StateSnapshot)
    | Raised
    | UnsupportedState
    | TransitionsExhausted

  class ConvergedRSIController {
    const c: Config
    const control: ControlRecordStore
    const checkpoints: CheckpointBundleStore
    const peak: PeakPointerStore
    const quarantine: QuarantineStore

    ghost predicate Valid() {
      && checkpoints.control == control && peak.control == control && peak.checkpoints == checkpoints
      && quarantine.control == control
    }

    ghost predicate Unlocked()
      reads control, checkpoints, peak, quarantine
    {
      !control.locked && !checkpoints.locked && !peak.locked && !quarantine.locked
    }

    constructor (
      c: Config, control: ControlRecordStore, checkpoints: CheckpointBundleStore, peak: PeakPointerStore,
      quarantine: QuarantineStore)
      requires checkpoints.control == control && peak.control == control && peak.checkpoints == checkpoints
      requires quarantine.control == control
      ensures Valid() && this.c == c && this.control == control && this.checkpoints == checkpoints
      ensures this.peak == peak && this.quarantine == quarantine
    {
      this.c, this.control, this.checkpoints, this.peak, this.quarantine := c, control, checkpoints, peak, quarantine;
    }

    /** The last part of `_materialize_checkpoint`: pointer or marker. */
    method Settle(s: StateSnapshot, d: Decision, die: nat) returns (ok: bool)
      requires Valid() && Materializable(s)
      modifies peak, quarantine
      ensures ok ==> IsSettled(s, d, old(peak.pointer), peak.pointer, old(quarantine.quarantined), quarantine.quarantined)
      ensures die >= 3 && !old(peak.locked) && !old(quarantine.locked) ==>
        (ok <==> CanSettle(control.View(), checkpoints.bundles, old(peak.pointer), old(peak.history), old(quarantine.quarantined), s, d))
    {
      hide LinksHold, MarkerLinksHold, PointerOf, MarkerOf, MarkerFree, Succeeds, HistoryFree, CurrentLoads;
      var action := ActionOf(s);
      if action == Promote {
        var pointer := PointerOf(s, d);
        var installed := peak.CompareAndSwap(pointer, pointer.previous, die);
        return installed.Committed?;
      }
      if action == Action.Reject || action == Rollback {
        var marked := quarantine.Commit(MarkerOf(s, d), die);
        return marked.Committed?;
      }
      return true;
    }

    /** `_materialize_checkpoint`. `die` is how many durable writes each store call survives. */
    method MaterializeCheckpoint(s: StateSnapshot, die: nat) returns (ok: bool)
      requires Valid()
      modifies checkpoints, peak, quarantine
      ensures ok ==>
        IsMaterialized(control.View(), s, old(checkpoints.bundles), checkpoints.bundles, old(peak.pointer), peak.pointer,
                       old(quarantine.quarantined), quarantine.quarantined)
      ensures ok ==> Materializable(s) && BundleSays(checkpoints.bundles[CheckpointOf(s)], s)
      ensures die >= 3 && !old(checkpoints.locked) && !old(peak.locked) && !old(quarantine.locked) ==>
        (ok <==> CanMaterialize(control.View(), old(checkpoints.bundles), old(peak.pointer), old(peak.history),
                                old(quarantine.quarantined), s))
    {
      hide CanSettle, IsSettled, LoadedRecord, BundleOf, BundleSays;
      if !Materializable(s) {
        return false;
      }
      RequestSays(s);
      var m, req := s.metadata.materialization.value, BundleRequestOf(s);
      var t := control.LoadTransaction(m.tx);
      if t.Err? || t.value.iteration != m.sourceIteration {
        return false;
      }
      var bundle := checkpoints.Commit(req, die);
      if !bundle.Committed? {
        return false;
      }
      var d := control.LoadRecord(Key(DecisionKind, m.decision));
      if d.Err? || !d.value.DecisionRecord? {
        return false;
      }
      ok := Settle(s, d.value.decision, die);
    }

    /** `_reconcile_snapshot`. */
    method ReconcileSnapshot(s: StateSnapshot, die: nat) returns (ok: bool)
      requires Valid()
      modifies checkpoints, peak, quarantine
      ensures ok && s.metadata.materialization.Some? ==>
        IsMaterialized(control.View(), s, old(checkpoints.bundles), checkpoints.bundles, old(peak.pointer), peak.pointer,
                       old(quarantine.quarantined), quarantine.quarantined)
      ensures s.metadata.materialization.Some? && die >= 3 && !old(checkpoints.locked) && !old(peak.locked) && !old(quarantine.locked) ==>
        (ok <==> CanMaterialize(control.View(), old(checkpoints.bundles), old(peak.pointer), old(peak.history),
                                old(quarantine.quarantined), s))
      ensures s.metadata.materialization.None? ==> ok && unchanged(checkpoints) && unchanged(peak) && unchanged(quarantine)
    {
      hide IsMaterialized, CanMaterialize;
      if s.metadata.materialization.None? {
        return true;
      }
      ok := MaterializeCheckpoint(s, die);
    }

    /** Commits one turn and writes what it calls for afterwards: the marker of a refused dataset,
        the bundle and marker of a candidate a human refused, or what its snapshot asks for. */
    method CommitTurn(t: Turn, die: nat) returns (next: Option<StateSnapshot>)
      requires Valid()
      modifies control, checkpoints, peak, quarantine
      ensures next.Some? ==>
        && t.Commit? && next.value == t.next
        && MayCommit(old(control.View()), t.req) && control.View() == Finished(old(control.View()), t.req)
      ensures next.Some? && t.marker.Some? ==>
        && quarantine.quarantined == old(quarantine.quarantined)[QuarantineKeyOf(t.marker.value) := t.marker.value]
        && peak.pointer == old(peak.pointer) && checkpoints.bundles == old(checkpoints.bundles)
      ensures next.Some? && t.marker.None? && ToMaterialize(t).Some? ==>
        IsMaterialized(control.View(), ToMaterialize(t).value, old(checkpoints.bundles), checkpoints.bundles,
                       old(peak.pointer), peak.pointer,
                       old(quarantine.quarantined), quarantine.quarantined)
      ensures old(Unlocked()) && t.Commit? && die >= |PayloadOf(t.req.records)| + 3 ==>
        (next.Some? <==> TurnSucceeds(old(control.View()), old(checkpoints.bundles), old(peak.pointer), old(peak.history),
                                      old(quarantine.quarantined), t))
    {
      hide MayCommit, IsMaterialized, CanMaterialize, MarkerCommits, PayloadOf, Finished, OnlyOrphansAdded, MayStart;
      if !t.Commit? {
        return None;
      }
      var out := control.Commit(t.req, die);
      if !out.Committed? {
        return None;
      }
      var ok: bool;
      if t.marker.Some? {
        var marked := quarantine.Commit(t.marker.value, die);
        ok := marked.Committed?;
      } else if t.refused.Some? {
        ok := MaterializeCheckpoint(t.refused.value, die);
      } else {
        ok := ReconcileSnapshot(t.next, die);
      }
      return if ok then Some(t.next) else None;
    }

    /** `_train_evaluate_decide` where it directly follows the commit that led to TRAIN. */
    method CommitOnwards(t: Turn, a: Answers, die: nat) returns (next: Option<StateSnapshot>)
      requires Valid()
      modifies control, checkpoints, peak, quarantine
      ensures next.Some? ==> next == Onwards(c, t, a)
    {
      next := CommitTurn(t, die);
      if next.Some? && next.value.state == Train {
        next := CommitTurn(CandidateTurn(c, next.value, a.candidate), die);
      }
    }

    /** The body of the loop: what happens is what the answers of the oracles call for, unless
        a store call fails or the process dies. */
    method Pass(s: StateSnapshot, a: Answers, die: nat) returns (next: Option<StateSnapshot>)
      requires Valid()
      modifies control, checkpoints, peak, quarantine
      ensures next.Some? ==> next == PassNext(c, s, a)
    {
      hide DataTurn, CandidateTurn, DataReviewTurn, ModelReviewTurn;
      match s.state
      case DataReviewPending =>
        var t := DataReviewTurn(c, s, a.review);
        if t.Wait? {
          return Some(s);
        }
        next := CommitOnwards(t, a, die);
      case ModelReviewPending =>
        var t := ModelReviewTurn(c, s, a.review);
        if t.Wait? {
          return Some(s);
        }
        next := CommitTurn(t, die);
      case Train =>
        next := CommitTurn(CandidateTurn(c, s, a.candidate), die);
      case Diagnose =>
        next := CommitOnwards(DataTurn(c, s, a.data), a, die);
      case _ =>
        return None;
    }

    /** The bounded loop of `run`, from a snapshot that has been reconciled. `visited` are the
        snapshots the loop stood at. Whatever the oracles answer, a run that starts in a state
        it can resume never reaches the unsupported-state or the transition-budget error, never
        passes the last iteration, and spends at most three passes on an iteration. */
    method RunFrom(start: StateSnapshot, oracle: nat -> Answers, die: nat -> nat)
      returns (end: RunEnd, visited: seq<StateSnapshot>)
      requires Valid()
      modifies control, checkpoints, peak, quarantine
      ensures IsTrace(c, oracle, start, visited)
      ensures end.Ended? ==>
        && end.final == visited[|visited| - 1]
        && (TerminalState(end.final.state) || AwaitsReview(end.final.state))
      ensures Resumable(c, start) ==> end.Ended? || end.Raised?
      ensures Resumable(c, start) ==> forall i :: 0 <= i < |visited| ==> visited[i].iteration <= c.limits.maxIterations
      ensures Resumable(c, start) ==> AtMostThreePasses(visited)
      ensures Resumable(c, start) && Affordable(c, start) && Trainable(start) ==> TraceAccounts(c, visited)
    {
      hide PassNext, IsTrace, TraceDescends, TraceAccounts, AtMostThreePasses, Affordable;
      var snapshot, steps := start, 0;
      visited, end := [start], TransitionsExhausted;
      TraceStarts(c, oracle, start);
      AccountsStart(c, start);
      while steps < 4 * c.limits.maxIterations + 12
        invariant IsTrace(c, oracle, start, visited) && |visited| == steps + 1 && visited[steps] == snapshot
        invariant Resumable(c, start) ==> TraceDescends(c, visited)
        invariant Resumable(c, start) && Affordable(c, start) && Trainable(start) ==> TraceAccounts(c, visited)
        invariant end == TransitionsExhausted
        decreases 4 * c.limits.maxIterations + 12 - steps
      {
        if TerminalState(snapshot.state) {
          end := Ended(snapshot);
          break;
        }
        if !AwaitsReview(snapshot.state) && snapshot.state != Train && snapshot.state != Diagnose {
          end := UnsupportedState;
          break;
        }
        var next := Pass(snapshot, oracle(steps), die(steps));
        if next.None? {
          end := Raised;
          break;
        }
        if AwaitsReview(snapshot.state) && next.value.id == snapshot.id {
          end := Ended(snapshot);
          break;
        }
        var ok := ReconcileSnapshot(next.value, die(steps));
        if !ok {
          end := Raised;
          break;
        }
        TraceGoesOn(c, oracle, start, visited, next.value);
        if Resumable(c, start) && Affordable(c, start) && Trainable(start) {
          AccountsGoOn(c, oracle, visited, next.value);
        }
        snapshot, steps, visited := next.value, steps + 1, visited + [next.value];
      }
      TraceIsResumable(c, visited);
      ThreePassesPerIteration(c, visited);
    }

    /** The last part of `_bootstrap`: the base model's bundle and the first Peak pointer. */
    method FirstPeak(e: BootEvidence, die: nat) returns (ok: bool)
      requires Valid() && peak.pointer.None?
      modifies checkpoints, peak
      ensures ok ==>
        && checkpoints.bundles == old(checkpoints.bundles)[c.base := BundleOf(BootBundle(c))]
        && peak.pointer == Some(BootPointer(c, e))
        && peak.history == old(peak.history)[HistoryKeyOf(BootPointer(c, e)) := BootPointer(c, e)]
      ensures die >= 3 && !old(checkpoints.locked) && !old(peak.locked) ==>
        (ok <==> CanInstallFirst(c, e, control.View(), old(checkpoints.bundles), old(peak.history)))
    {
      hide LinksHold, BundleCommits, HistoryFree, BundleOf;
      var bundle := checkpoints.Commit(BootBundle(c), die);
      if !bundle.Committed? {
        return false;
      }
      var installed := peak.CompareAndSwap(BootPointer(c, e), None, die);
      ok := installed.Committed?;
    }

    /** `_bootstrap`: fails if there is a Peak already. */
    method Bootstrap(e: BootEvidence, die: nat) returns (head: Option<StateSnapshot>)
      requires Valid()
      modifies control, checkpoints, peak
      ensures head.Some? ==>
        && head.value == FirstHead(c, e) && old(peak.pointer).None?
        && control.View() == Finished(old(control.View()), BootRequest(c, e))
        && checkpoints.bundles == old(checkpoints.bundles)[c.base := BundleOf(BootBundle(c))]
        && peak.pointer == Some(BootPointer(c, e))
        && peak.history == old(peak.history)[HistoryKeyOf(BootPointer(c, e)) := BootPointer(c, e)]
      ensures old(Unlocked()) && die >= |PayloadOf(BootRequest(c, e).records)| + 3 ==>
        (head.Some? <==>
          && old(peak.pointer).None? && MayCommit(old(control.View()), BootRequest(c, e))
          && CanInstallFirst(c, e, Finished(old(control.View()), BootRequest(c, e)), old(checkpoints.bundles), old(peak.history)))
    {
      hide MayCommit, CanInstallFirst, PayloadOf, BootRequest, BootPointer, BootBundle, BundleOf, Finished, LinksHold, OnlyOrphansAdded,
        MayStart;
      var existing := peak.Load();
      if existing.Err? || existing.value.Some? {
        return None;
      }
      var tx := control.Commit(BootRequest(c, e), die);
      if !tx.Committed? {
        return None;
      }
      var ok := FirstPeak(e, die);
      return if ok then Some(FirstHead(c, e)) else None;
    }

    /** `run`: continue from the latest committed snapshot, or bootstrap. */
    method Run(rank: Id -> int, e: BootEvidence, oracle: nat -> Answers, die: nat -> nat)
      returns (end: RunEnd, visited: seq<StateSnapshot>)
      requires Valid()
      modifies control, checkpoints, peak, quarantine
      ensures end.Ended? ==> TerminalState(end.final.state) || AwaitsReview(end.final.state)
      ensures visited == [] ==> end.Raised?
      ensures visited != [] && old(NothingNamed(control.View(), c.run)) ==> visited[0] == FirstHead(c, e)
      ensures visited != [] && !old(NothingNamed(control.View(), c.run)) ==> old(IsScanned(control.View(), c.run, rank, visited[0]))
      ensures (forall s :: old(IsScanned(control.View(), c.run, rank, s)) ==> Resumable(c, s)) ==>
        && (end.Ended? || end.Raised?)
        && (forall i :: 0 <= i < |visited| ==> visited[i].iteration <= c.limits.maxIterations)
        && AtMostThreePasses(visited)
      ensures (forall s :: old(IsScanned(control.View(), c.run, rank, s)) ==> CanGoOn(c, s)) ==>
        visited == [] || TraceAccounts(c, visited)
    {
      hide NamedByRun, NotAfter, Resumable, Affordable, Trainable, TraceAccounts, IsTrace, IsMaterialized, MayCommit,
        CanInstallFirst, Finished, PayloadOf;
      var latest := LatestSnapshot(control, c.run, rank);
      if latest.Err? {
        return Raised, [];
      }
      var head := latest.value;
      if head.None? {
        head := Bootstrap(e, die(0));
        if head.None? {
          return Raised, [];
        }
      }
      var ok := ReconcileSnapshot(head.value, die(0));
      if !ok {
        return Raised, [];
      }
      FirstHeadCanGoOn(c, e);
      end, visited := RunFrom(head.value, oracle, die);
      TraceBegins(c, oracle, head.value, visited);
    }
  }

  lemma FirstHeadCanGoOn(c: Config, e: BootEvidence)
    ensures CanGoOn(c, FirstHead(c, e))
  {
  }

  lemma TraceBegins(c: Config, oracle: nat -> Answers, start: StateSnapshot, visited: seq<StateSnapshot>)
    requires IsTrace(c, oracle, start, visited)
    ensures visited != [] && visited[0] == start
  {
  }

  /** Each snapshot follows from the one before by one pass. */
  ghost predicate IsTrace(c: Config, oracle: nat -> Answers, start: StateSnapshot, visited: seq<StateSnapshot>) {
    && visited != [] && visited[0] == start
    && forall i :: 0 < i < |visited| ==> PassNext(c, visited[i - 1], oracle(i - 1)) == Some(visited[i])
  }

  ghost predicate TraceDescends(c: Config, visited: seq<StateSnapshot>) {
    && (forall i :: 0 <= i < |visited| ==> Resumable(c, visited[i]))
    && (forall i :: 0 <= i < |visited| - 1 ==> GoesDown(c, visited, i))
  }

  predicate GoesDown(c: Config, visited: seq<StateSnapshot>, i: nat)
    requires i < |visited| - 1
  {
    !TerminalState(visited[i].state) && Descends(c, visited[i], visited[i + 1])
  }

  lemma TraceStarts(c: Config, oracle: nat -> Answers, start: StateSnapshot)
    ensures IsTrace(c, oracle, start, [start])
    ensures Resumable(c, start) ==> TraceDescends(c, [start])
  {
  }

  lemma TraceGoesOn(c: Config, oracle: nat -> Answers, start: StateSnapshot, visited: seq<StateSnapshot>, next: StateSnapshot)
    requires IsTrace(c, oracle, start, visited) && (Resumable(c, start) ==> TraceDescends(c, visited))
    requires var n := |visited| - 1;
      && !TerminalState(visited[n].state) && PassNext(c, visited[n], oracle(n)) == Some(next)
      && (AwaitsReview(visited[n].state) ==> next.id != visited[n].id)
    ensures IsTrace(c, oracle, start, visited + [next])
    ensures Resumable(c, start) ==> TraceDescends(c, visited + [next])
  {
    hide PassNext, Descends;
    var n, more := |visited| - 1, visited + [next];
    if Resumable(c, start) {
      PassDescends(c, visited[n], oracle(n));
      DescendsIsResumable(c, visited[n], next);
      forall i | 0 <= i < |more| - 1 ensures GoesDown(c, more, i) {
        if i < n { assert GoesDown(c, visited, i); }
      }
    }
  }

  /** The books of a whole run, reviews included: every pass charges exactly the iteration
      cost of the snapshot it reaches, and only an abort may leave the total past its limit. */
  ghost predicate TraceAccounts(c: Config, visited: seq<StateSnapshot>) {
    && (forall i :: 0 <= i < |visited| ==> Affordable(c, visited[i]) && Trainable(visited[i]))
    && (forall i {:trigger visited[i]} :: 0 <= i < |visited| - 1 ==>
          visited[i + 1].totalCost == visited[i].totalCost + Charge(visited[i + 1]))
  }

  lemma AccountsStart(c: Config, start: StateSnapshot)
    ensures Affordable(c, start) && Trainable(start) ==> TraceAccounts(c, [start])
  {
  }

  lemma AccountsGoOn(c: Config, oracle: nat -> Answers, visited: seq<StateSnapshot>, next: StateSnapshot)
    requires visited != [] && TraceDescends(c, visited) && TraceAccounts(c, visited)
    requires var n := |visited| - 1;
      && !TerminalState(visited[n].state) && PassNext(c, visited[n], oracle(n)) == Some(next)
      && (AwaitsReview(visited[n].state) ==> next.id != visited[n].id)
    ensures TraceAccounts(c, visited + [next])
  {
    hide PassNext, Descends, Affordable, Charge;
    var n := |visited| - 1;
    PassMoves(c, visited[n], oracle(n));
    PassAccounts(c, visited[n], oracle(n));
  }

  /** A pass that is not left waiting never ends where it began. */
  lemma PassMoves(c: Config, s: StateSnapshot, a: Answers)
    requires Resumable(c, s) && !TerminalState(s.state) && PassNext(c, s, a).Some?
    ensures PassNext(c, s, a).value == s ==> AwaitsReview(s.state)
  {
    hide PassNext;
    PassDescends(c, s, a);
  }

  lemma DescendsIsResumable(c: Config, s: StateSnapshot, next: StateSnapshot)
    ensures Descends(c, s, next) ==> Resumable(c, next)
  {
  }

  lemma TraceIsResumable(c: Config, visited: seq<StateSnapshot>)
    ensures TraceDescends(c, visited) ==> forall i :: 0 <= i < |visited| ==> Resumable(c, visited[i])
  {
  }

  lemma {:induction false} TraceFuel(c: Config, visited: seq<StateSnapshot>, i: nat, j: nat)
    requires TraceDescends(c, visited) && i <= j < |visited| && !TerminalState(visited[j].state)
    ensures Fuel(c, visited[j]) <= Fuel(c, visited[i]) - (j - i)
    decreases j
  {
    hide Fuel;
    if i < j {
      assert GoesDown(c, visited, j - 1);
      TraceFuel(c, visited, i, j - 1);
    }
  }

  /** No iteration keeps the loop running for more than three of its passes. */
  ghost predicate AtMostThreePasses(visited: seq<StateSnapshot>) {
    forall i, j :: 0 <= i <= j < |visited| && StillIn(visited[i].iteration, visited[j]) ==> j - i <= 2
  }

  predicate StillIn(iteration: nat, s: StateSnapshot) {
    s.iteration == iteration && !TerminalState(s.state)
  }

  lemma FuelOfIteration(c: Config, s: StateSnapshot)
    requires Resumable(c, s)
    ensures var left := 3 * (c.limits.maxIterations - s.iteration);
      && 0 <= left <= 3 * c.limits.maxIterations
      && left <= Fuel(c, s) <= left + 3
      && (!TerminalState(s.state) ==> left < Fuel(c, s))
  {
  }

  lemma ThreePassesOf(c: Config, visited: seq<StateSnapshot>, i: nat, j: nat)
    requires TraceDescends(c, visited) && i <= j < |visited| && StillIn(visited[i].iteration, visited[j])
    ensures j - i <= 2
  {
    hide Fuel, GoesDown;
    TraceFuel(c, visited, i, j);
    FuelOfIteration(c, visited[i]);
    FuelOfIteration(c, visited[j]);
  }

  lemma TraceIsShort(c: Config, visited: seq<StateSnapshot>)
    requires TraceDescends(c, visited) && 1 < |visited|
    ensures |visited| <= 3 * c.limits.maxIterations + 4
  {
    hide Fuel, Descends;
    var last := |visited| - 1;
    assert GoesDown(c, visited, last - 1);
    TraceFuel(c, visited, 0, last - 1);
    FuelOfIteration(c, visited[0]);
    FuelOfIteration(c, visited[last - 1]);
  }

  lemma ThreePassesPerIteration(c: Config, visited: seq<StateSnapshot>)
    ensures TraceDescends(c, visited) ==> AtMostThreePasses(visited)
    ensures TraceDescends(c, visited) ==> |visited| <= 3 * c.limits.maxIterations + 4
  {
    hide TraceDescends;
    if TraceDescends(c, visited) {
      forall i, j | 0 <= i <= j < |visited| && StillIn(visited[i].iteration, visited[j]) ensures j - i <= 2 {
        ThreePassesOf(c, visited, i, j);
      }
      if 1 < |visited| { TraceIsShort(c, visited); }
    }
  }
}
