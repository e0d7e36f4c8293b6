/** What a restarted controller loads in a run with reviews, and exactly when its loop has no case
    for it. */
module Loading {
  import opened Records
  import opened ControlStore
  import opened StoreSystem
  import opened Controller
  import opened RunLoop
  import opened RunState
  import opened Bootstrap
  import opened CrashRecovery
  import opened CrashTheorems
  import opened ReviewTimes
  import opened ReviewedRuns
  import opened TurnEnds
  import opened Tracks
  import opened Replays
  import opened Barriers
  import opened Forks
  import opened Books

  /** Snapshots of these states are committed, but `run` does not go on from them. */
  predicate Unsupported(s: ControlState) {
    s == Evaluate || s == Promoted
  }

  lemma HeadIsSupported(c: Config, s: StateSnapshot)
    requires CanGoOn(c, s)
    ensures !Unsupported(s.state)
  {
  }

  lemma TwinIsSupported(c: Config, x: StateSnapshot, head: StateSnapshot)
    requires Twin(x, head) && head.state == Diagnose && CanGoOn(c, head)
    ensures CanGoOn(c, x) && !Unsupported(x.state)
  {
  }

  lemma BesideStopCanGoOn(c: Config, view: Payload, x: StateSnapshot, head: StateSnapshot)
    requires BesideStop(x, head) && CanGoOn(c, head) && Works(c, view, x)
    ensures CanGoOn(c, x) <==> !Unsupported(x.state)
  {
  }

  /** A latest snapshot is a head, or stands beside one. */
  lemma LoadedIsBeside(c: Config, p: Process, rank: Id -> int, answers: seq<Answer>, x: StateSnapshot) returns (k: nat)
    requires RunInv(c, p) && Track(c, p, answers) && IsLatest(CommittedView(p.stores.writer.disk), c.run, rank, x)
    ensures |p.heads| == |answers| + 1 && k < |p.heads|
    ensures Beside(c, CommittedView(p.stores.writer.disk), x, p.heads[k])
  {
    hide RunInv, CommittedView, IsLatest, Chronicle, ByDecision, Booked, AllFinalised, LocalTrack, Beside, FitPending;
    var d := p.stores.writer.disk;
    RunChronicle(c, p);
    OthersAskForNothing(c, d, rank, HeadOf(p), AnchorOf(d, c.run, p.heads), x);
    if x == HeadOf(p) {
      k := |answers|;
      SameIsBeside(c, CommittedView(d), x);
    } else if x == AnchorOf(d, c.run, p.heads) {
      k := |answers| - 1;
      SameIsBeside(c, CommittedView(d), x);
    } else {
      k :| 0 <= k < |p.heads| && Beside(c, CommittedView(d), x, p.heads[k]);
    }
  }

  lemma SameIsBeside(c: Config, view: Payload, x: StateSnapshot)
    ensures Beside(c, view, x, x)
  {
  }

  lemma LoadedTwin(c: Config, view: Payload, rank: Id -> int, x: StateSnapshot, head: StateSnapshot)
    requires IsLatest(view, c.run, rank, x) && Beside(c, view, x, head) && x != head && head.state == Diagnose
    ensures Twin(x, head)
  {
    var twin :| InView(view, c.run, twin) && TwinFor(x, twin, head);
    assert NotAfter(rank, twin, x);
  }

  /** What is loaded can be gone on from unless it is an evaluation or a promotion, and those are loaded
      only beside the stop of an approved promotion. */
  lemma LoadedCanGoOn(c: Config, p: Process, rank: Id -> int, x: StateSnapshot)
    requires TrackInv(c, p) && WorkInv(c, p) && p.heads != []
    requires IsLatest(CommittedView(p.stores.writer.disk), c.run, rank, x)
    ensures CanGoOn(c, x) <==> !Unsupported(x.state)
    ensures Unsupported(x.state) ==> HeadOf(p).metadata.materialization.Some? && BesideStop(x, HeadOf(p)) && x != HeadOf(p)
  {
    hide RunInv, Track, CommittedView, WorkInv, Booked, Beside, CanGoOn, Twin, Works, StoresInv, PcWorks, Begins, AllFinalised, BesideStop,
      NotAfter, AllWork;
    var view, d := CommittedView(p.stores.writer.disk), p.stores.writer.disk;
    var answers :| Track(c, p, answers);
    TrackBooks(c, p, answers);
    WorkFacts(c, p);
    var k := LoadedIsBeside(c, p, rank, answers, x);
    var head := p.heads[k];
    HeadsBalance(c, d, p.heads, answers, k);
    HeadIsSupported(c, head);
    if x != head {
      BesideMeans(c, view, x, head);
      if head.state == Diagnose {
        LoadedTwin(c, view, rank, x, head);
        TwinIsSupported(c, x, head);
      } else {
        LatestWorks(c, view, rank, x);
        BesideStopCanGoOn(c, view, x, head);
        StopIsHead(c, d, p.heads, answers, k, x);
      }
    }
  }

  lemma BesideMeans(c: Config, view: Payload, x: StateSnapshot, head: StateSnapshot)
    requires Beside(c, view, x, head) && x != head
    ensures head.metadata.materialization.Some? && (head.state != Diagnose ==> BesideStop(x, head))
  {
    hide InView, TwinFor;
  }

  lemma LatestWorks(c: Config, view: Payload, rank: Id -> int, x: StateSnapshot)
    requires IsLatest(view, c.run, rank, x) && AllWork(c, view)
    ensures Works(c, view, x)
  {
    hide InView, Works, NotAfter;
  }

  /** No turn is taken from a stop. */
  lemma StopIsHead(c: Config, d: Disk, heads: seq<StateSnapshot>, answers: seq<Answer>, k: nat, x: StateSnapshot)
    requires Booked(c, d, heads, answers) && k < |heads| == |answers| + 1 && BesideStop(x, heads[k])
    ensures k == |answers|
  {
    hide Booked, TurnOf, AlreadyCommitted, Fit, EndsWell;
    if k < |answers| {
      EntryFacts(c, d, heads, answers, k);
      TurnTakesState(c, heads[k], answers[k]);
    }
  }

  lemma DecidedIsLatestIff(c: Config, d: Disk, rank: Id -> int, head: StateSnapshot, x: StateSnapshot)
    requires Chronicle(c, d, head, head) && x != head
    ensures IsLatest(CommittedView(d), c.run, rank, x) <==>
      ByDecision(d, c.run, x) && NotAfter(rank, head, x) && forall s :: ByDecision(d, c.run, s) ==> NotAfter(rank, s, x)
  {
    hide CommittedView, WrittenByHuman, Poised, HumanShape, TxInv;
  }

  lemma AskingHeadIsAnchor(c: Config, p: Process)
    requires RunInv(c, p) && p.heads != [] && HeadOf(p).metadata.materialization.Some?
    ensures Chronicle(c, p.stores.writer.disk, HeadOf(p), HeadOf(p)) && !ByDecision(p.stores.writer.disk, c.run, HeadOf(p))
  {
    hide StoresInv, KeepsTime, InView, CommittedView, HumanShape, TxInv, Poised, WrittenByHuman;
  }

  lemma UnsupportedCannotGoOn(c: Config, x: StateSnapshot)
    ensures Unsupported(x.state) ==> !CanGoOn(c, x)
  {
  }

  /** In every state of every run that has stayed on course, reviews and crashes included: a restart can
      load a snapshot its loop has no case for exactly when the run stands at the stop of an approved
      promotion, and the evaluation or the promotion entered at the approval sorts neither before that
      stop nor before anything else entered at a decision. */
  lemma UnsupportedIsLoadedIff(
    c: Config, rank: Id -> int, e: BootEvidence, states: seq<Process>, steps: seq<ProcessStep>, n: nat, x: StateSnapshot)
    requires IsAnyRun(c, rank, e, states, steps) && n < |states| && OnCourse(states, steps, n)
    ensures states[n].heads != []
    ensures var d, head := states[n].stores.writer.disk, HeadOf(states[n]);
      IsLatest(CommittedView(d), c.run, rank, x) && !CanGoOn(c, x) <==>
        && head.metadata.materialization.Some? && Unsupported(x.state) && ByDecision(d, c.run, x)
        && NotAfter(rank, head, x) && forall s :: ByDecision(d, c.run, s) ==> NotAfter(rank, s, x)
    ensures IsLatest(CommittedView(states[n].stores.writer.disk), c.run, rank, x) && !CanGoOn(c, x) ==> BesideStop(x, HeadOf(states[n]))
  {
    hide IsAnyRun, OnCourse, RunInv, Track, WorkInv, CommittedView, IsLatest, NotAfter, ByDecision, CanGoOn, Chronicle, BesideStop;
    OnCourseIsTracked(c, rank, e, states, steps, n);
    EveryRunWorks(c, rank, e, states, steps, n);
    var p := states[n];
    TrackedHasHeads(c, p);
    UnsupportedCannotGoOn(c, x);
    if IsLatest(CommittedView(p.stores.writer.disk), c.run, rank, x) { LoadedCanGoOn(c, p, rank, x); }
    if HeadOf(p).metadata.materialization.Some? {
      AskingHeadIsAnchor(c, p);
      if x != HeadOf(p) { DecidedIsLatestIff(c, p.stores.writer.disk, rank, HeadOf(p), x); }
    }
  }
}
