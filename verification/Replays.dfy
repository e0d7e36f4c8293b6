/** A restart that goes back to an earlier snapshot makes every turn again. Transactions that are on
    disk are accepted again, so with the same answers the process comes back to where it died. */
module Replays {
  import opened Records
  import opened ControlStore
  import opened ControlProtocol
  import opened CheckpointStore
  import opened PeakStore
  import opened QuarantineStore
  import opened StoreSystem
  import opened Controller
  import opened RunState
  import opened Materialization
  import opened CrashRecovery
  import opened ReviewTimes
  import opened ReviewedRuns
  import opened RunLoop
  import opened TurnEnds
  import opened TurnRuns
  import opened Tracks

  /** Nothing is under way, and no lock is held. */
  predicate Idle(s: Stores) {
    s.writer.pending.None? && !s.writer.locked && s.installing.None? && !s.peakLocked
  }

  // ---- A finished materialisation is made again ----

  lemma PublishedAgain(c: Config, rank: Id -> int, s: Stores, x: StateSnapshot, d: Decision, hs: seq<StateSnapshot>)
    requires Bundled(s, x, d)
    ensures ProcessNext(c, rank, Process(s, Publishing(x), hs), Publish(d), Process(s, AfterBundle(x, d), hs))
  {
    hide BundleCommits, LoadedRecord, AfterBundle;
  }

  lemma InstalledLinksHold(s: Stores, pointer: PeakPointer)
    requires StoresInv(s) && s.pointer == Some(pointer)
    ensures LinksHold(s.writer.disk, s.bundles, pointer)
  {
    hide WriterInv, BundlesLoad, QuarantineSound, IsChain, LinksHold;
    assert InHistory(s.history, pointer);
  }

  lemma PromotedAgain(c: Config, rank: Id -> int, s: Stores, x: StateSnapshot, d: Decision, hs: seq<StateSnapshot>)
    requires StoresInv(s) && Idle(s) && Bundled(s, x, d) && OnTop(s, x)
    ensures ProcessNext(c, rank, Process(s, Promoting(x, d), hs), Promotion, Process(s, Ready(x), hs))
  {
    hide StoresInv, LinksHold, BundleCommits, PointerOf;
    var d' :| Bundled(s, x, d') && s.pointer == Some(PointerOf(x, d'));
    assert d' == d;
    InstalledLinksHold(s, PointerOf(x, d));
  }

  lemma MarkedAgain(c: Config, rank: Id -> int, s: Stores, x: StateSnapshot, m: QuarantineMarker, hs: seq<StateSnapshot>)
    requires StoresInv(s) && MarkerThere(s.quarantined, m)
    ensures ProcessNext(c, rank, Process(s, Marking(x, m), hs), Mark, Process(s, Ready(x), hs))
  {
    hide WriterInv, BundlesLoad, HistorySound, PeakInv, MarkerLinksHold;
    assert s.quarantined[QuarantineKeyOf(m) := m] == s.quarantined;
  }

  lemma SettledAgain(c: Config, rank: Id -> int, s: Stores, x: StateSnapshot, hs: seq<StateSnapshot>)
    returns (states: seq<Process>, steps: seq<ProcessStep>)
    requires StoresInv(s) && Idle(s) && Finalised(s, x) && (Promotes(x) ==> OnTop(s, x))
    ensures Follows(c, rank, states, steps)
    ensures states[0] == Process(s, Reconciling(x), hs) && states[|steps|] == Process(s, Ready(x), hs)
  {
    hide StoresInv, ProcessNext, BundleCommits, LoadedRecord, OnTop, MarkerOf, PointerOf;
    var p, q := Process(s, Publishing(x), hs), Process(s, Ready(x), hs);
    if x.metadata.materialization.None? {
      states, steps := [q], [];
    } else {
      var d :| CarriedThrough(s, x, d);
      var between := Process(s, AfterBundle(x, d), hs);
      PublishedAgain(c, rank, s, x, d, hs);
      if between.pc.Promoting? {
        PromotedAgain(c, rank, s, x, d, hs);
        states, steps := [p, between, q], [Publish(d), Promotion];
      } else if between.pc.Marking? {
        MarkedAgain(c, rank, s, x, MarkerOf(x, d), hs);
        states, steps := [p, between, q], [Publish(d), Mark];
      } else {
        states, steps := [p, between], [Publish(d)];
      }
    }
  }

  // ---- The turns are made again ----

  /** The promotions between two heads that the Peak pointer still names. */
  ghost predicate Passable(s: Stores, heads: seq<StateSnapshot>, from: nat, to: nat) {
    forall i :: from < i < to && i < |heads| && Promotes(heads[i]) ==> OnTop(s, heads[i])
  }

  lemma EntryFacts(c: Config, d: Disk, heads: seq<StateSnapshot>, answers: seq<Answer>, k: nat)
    requires Booked(c, d, heads, answers) && k < |answers|
    ensures |heads| == |answers| + 1
    ensures var t := TurnOf(c, heads[k], answers[k]);
      t.Commit? && t.next == heads[k + 1] && AlreadyCommitted(d, t.req) && Fit(heads[k]) && EndsWell(heads[k], t)
  {
    hide TurnOf, AlreadyCommitted, KeepsTime, FitPending, EndsWell;
    assert Entry(c, d, heads[k], answers[k], heads[k + 1]);
    TurnEnding(c, heads[k], answers[k]);
  }

  lemma TurnTakesState(c: Config, s: StateSnapshot, answer: Answer)
    ensures TurnOf(c, s, answer).Commit? ==> s.state == Diagnose || s.state == Train || AwaitsReview(s.state)
  {
    hide DataTurn, CandidateTurn, DataReviewTurn, ModelReviewTurn;
  }

  lemma PastHeadIsBetween(c: Config, d: Disk, heads: seq<StateSnapshot>, answers: seq<Answer>, k: nat)
    requires Booked(c, d, heads, answers) && k < |answers|
    ensures |heads| == |answers| + 1 && (heads[k].state == Diagnose || heads[k].metadata.materialization.None?)
  {
    hide Booked, TurnOf, AlreadyCommitted, EndsWell;
    EntryFacts(c, d, heads, answers, k);
    TurnTakesState(c, heads[k], answers[k]);
  }

  /** Two promotions have been committed since the iteration of x. */
  predicate Overtaken(heads: seq<StateSnapshot>, x: StateSnapshot) {
    exists i, j :: 0 <= i < j < |heads| && Promotes(heads[i]) && Promotes(heads[j]) && x.iteration < heads[i].iteration
  }

  lemma EntryRises(c: Config, d: Disk, s: StateSnapshot, answer: Answer, next: StateSnapshot)
    requires Entry(c, d, s, answer, next)
    ensures s.iteration <= next.iteration && (next.state == Diagnose ==> s.iteration < next.iteration)
  {
    hide TurnOf, AlreadyCommitted, Fit, Timed, Poised;
    var clock :| KeepsTime(c, s, clock, TurnOf(c, s, answer));
  }

  lemma {:induction false} HeadsRise(c: Config, d: Disk, heads: seq<StateSnapshot>, answers: seq<Answer>, i: nat, j: nat)
    requires Booked(c, d, heads, answers) && i <= j < |heads|
    ensures heads[i].iteration <= heads[j].iteration
    ensures i < j && heads[j].state == Diagnose ==> heads[i].iteration < heads[j].iteration
    decreases j
  {
    hide Entry;
    if i < j {
      HeadsRise(c, d, heads, answers, i, j - 1);
      EntryRises(c, d, heads[j - 1], answers[j - 1], heads[j]);
    }
  }

  /** A turn after which the run went on left nothing to be written. */
  lemma GoingOnReconciles(c: Config, d: Disk, heads: seq<StateSnapshot>, answers: seq<Answer>, k: nat)
    requires Booked(c, d, heads, answers) && k + 1 < |answers|
    ensures var t := TurnOf(c, heads[k], answers[k]); t.Commit? && AfterCommit(t) == Reconciling(heads[k + 1])
  {
    hide TurnOf, AlreadyCommitted, Fit, FitPending, Booked;
    EntryFacts(c, d, heads, answers, k);
    EntryFacts(c, d, heads, answers, k + 1);
    TurnTakesState(c, heads[k + 1], answers[k + 1]);
  }

  lemma RepeatIsAStep(c: Config, rank: Id -> int, s: Stores, x: StateSnapshot, hs: seq<StateSnapshot>, answer: Answer)
    requires Idle(s) && TurnOf(c, x, answer).Commit? && AlreadyCommitted(s.writer.disk, TurnOf(c, x, answer).req)
    ensures var t := TurnOf(c, x, answer);
      ProcessNext(c, rank, Process(s, Ready(x), hs), RepeatTurn(answer), Process(s, AfterCommit(t), hs + [t.next]))
  {
    hide TurnOf, AlreadyCommitted, AfterCommit;
  }

  /** From the k-th head, or a snapshot the same turn can be taken from, back to the last commit,
      with the stores as they are. */
  lemma {:induction false} TurnsAgain(
    c: Config, rank: Id -> int, s: Stores, x: StateSnapshot, hs: seq<StateSnapshot>, heads: seq<StateSnapshot>, answers: seq<Answer>,
    k: nat)
    returns (states: seq<Process>, steps: seq<ProcessStep>)
    requires StoresInv(s) && Idle(s) && Booked(c, s.writer.disk, heads, answers) && k < |answers|
    requires AllFinalised(s, heads[..|answers|]) && Passable(s, heads, k, |answers|)
    requires TurnOf(c, x, answers[k]) == TurnOf(c, heads[k], answers[k])
    ensures Follows(c, rank, states, steps) && states[0] == Process(s, Ready(x), hs)
    ensures states[|steps|].stores == s
    ensures TurnOf(c, heads[|answers| - 1], answers[|answers| - 1]).Commit?
    ensures states[|steps|].pc == AfterCommit(TurnOf(c, heads[|answers| - 1], answers[|answers| - 1]))
    decreases |answers| - k
  {
    hide StoresInv, Booked, TurnOf, AlreadyCommitted, ProcessNext, AfterCommit, Finalised, OnTop, Promotes, EndsWell, Fit, Follows,
      Reconciling;
    EntryFacts(c, s.writer.disk, heads, answers, k);
    var t := TurnOf(c, heads[k], answers[k]);
    RepeatIsAStep(c, rank, s, x, hs, answers[k]);
    var p, q := Process(s, Ready(x), hs), Process(s, AfterCommit(t), hs + [t.next]);
    OneStep(c, rank, p, RepeatTurn(answers[k]), q);
    states, steps := [p, q], [RepeatTurn(answers[k])];
    if k + 1 < |answers| {
      GoingOnReconciles(c, s.writer.disk, heads, answers, k);
      assert heads[k + 1] == heads[..|answers|][k + 1];
      var on, walk := SettledAgain(c, rank, s, heads[k + 1], q.heads);
      states, steps := Chained(c, rank, states, steps, on, walk);
      var rest, last := TurnsAgain(c, rank, s, heads[k + 1], q.heads, heads, answers, k + 1);
      states, steps := Chained(c, rank, states, steps, rest, last);
    }
  }

  // ---- What a restart can find instead of the stop ----

  /** The k-th head, or the snapshot beside it. */
  predicate StandsFor(x: StateSnapshot, head: StateSnapshot) {
    x == head || (Twin(x, head) && head.state == Diagnose && head.metadata.materialization.Some?)
  }

  lemma BesideLatest(c: Config, view: Payload, rank: Id -> int, x: StateSnapshot, head: StateSnapshot)
    requires IsLatest(view, c.run, rank, x) && Beside(c, view, x, head)
    requires head.state == Diagnose || head.metadata.materialization.None?
    ensures StandsFor(x, head)
  {
    if x != head {
      var twin :| InView(view, c.run, twin) && TwinFor(x, twin, head);
      assert NotAfter(rank, twin, x);
    }
  }

  /** Another latest snapshot is an earlier head, or stands beside one. */
  lemma FoundIsPast(c: Config, p: Process, rank: Id -> int, answers: seq<Answer>, x: StateSnapshot) returns (k: nat)
    requires RunInv(c, p) && Track(c, p, answers) && Ended(HeadOf(p))
    requires IsLatest(CommittedView(p.stores.writer.disk), c.run, rank, x) && x != HeadOf(p)
    ensures k < |answers| && |p.heads| == |answers| + 1 && StandsFor(x, p.heads[k]) && x.metadata.materialization.None?
  {
    hide RunInv, CommittedView, IsLatest, Chronicle, ByDecision, Booked, AllFinalised, LocalTrack, Beside, FitPending, StandsFor;
    var d := p.stores.writer.disk;
    RunChronicle(c, p);
    OthersAskForNothing(c, d, rank, HeadOf(p), AnchorOf(d, c.run, p.heads), x);
    if x == AnchorOf(d, c.run, p.heads) {
      k := |answers| - 1;
      SameStands(x, p.heads[k]);
    } else {
      k :| 0 <= k < |p.heads| && Beside(c, CommittedView(d), x, p.heads[k]);
      EndedHasNobodyBeside(c, CommittedView(d), x, p.heads[k]);
      PastHeadIsBetween(c, d, p.heads, answers, k);
      BesideLatest(c, CommittedView(d), rank, x, p.heads[k]);
    }
  }

  lemma SameStands(x: StateSnapshot, head: StateSnapshot)
    ensures x == head ==> StandsFor(x, head)
  {
  }

  lemma EndedHasNobodyBeside(c: Config, view: Payload, x: StateSnapshot, head: StateSnapshot)
    requires Beside(c, view, x, head)
    ensures x != head ==> !Ended(head)
  {
  }
}
