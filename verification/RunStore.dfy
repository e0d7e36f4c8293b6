/** CoEvolutionRunStore: a numbered-revision compare-and-swap, where writing the history file
    is what really decides the next revision. */
module RunStore {
  import opened Records

  datatype RunFields = RunFields(
    run: Id, config: string, revision: nat, state: ControlState, currentCycle: nat, completedCycles: nat,
    checkpoint: Id, modelScore: real, harness: Id, harnessScore: real, latestSnapshot: Id, latestTransaction: Id,
    pendingApproval: Option<Id>, status: string, createdAt: int, updatedAt: int)

  /** Metadata that fails these checks cannot be constructed. */
  type RunMetadata = m: RunFields | 1 <= m.currentCycle && m.completedCycles <= m.currentCycle
    witness RunFields(Text(""), "", 0, Diagnose, 1, 0, Text(""), 0.0, Text(""), 0.0, Text(""), Text(""), None, "", 0, 0)

  datatype RunFiles = RunFiles(history: map<nat, RunMetadata>, pointer: Option<RunMetadata>)

  const NO_RUN := RunFiles(map[], None)

  // ---- Guards ----

  /** `_load_unlocked`: the pointer file and its revision in history hold the same bytes. */
  predicate Loads(f: RunFiles) {
    f.pointer.Some? && f.pointer.value.revision in f.history && f.history[f.pointer.value.revision] == f.pointer.value
  }

  predicate Free(f: RunFiles, m: RunMetadata) {
    m.revision in f.history ==> f.history[m.revision] == m
  }

  predicate MayCreate(f: RunFiles, m: RunMetadata) {
    m.revision == 0 && f.pointer.None? && Free(f, m)
  }

  predicate SameIdentity(a: RunMetadata, b: RunMetadata) {
    a.run == b.run && a.config == b.config && a.createdAt == b.createdAt
  }

  /** What a compare-and-swap demands of the next revision. */
  predicate Follows(current: RunMetadata, m: RunMetadata) {
    && m.revision == current.revision + 1
    && SameIdentity(current, m)
    && current.completedCycles <= m.completedCycles && current.currentCycle <= m.currentCycle
  }

  predicate MayAdvance(f: RunFiles, m: RunMetadata) {
    Loads(f) && Follows(f.pointer.value, m) && Free(f, m)
  }

  function WithHistory(f: RunFiles, m: RunMetadata): RunFiles {
    f.(history := f.history[m.revision := m])
  }

  function Installed(f: RunFiles, m: RunMetadata): RunFiles {
    WithHistory(f, m).(pointer := Some(m))
  }

  /** What the first durable writes of an installation leave: nothing, an orphan revision, or
      everything but the released lock. */
  function AfterCrash(f: RunFiles, m: RunMetadata, writes: nat): RunFiles {
    if writes == 0 then f else if writes == 1 then WithHistory(f, m) else Installed(f, m)
  }

  // ---- The store ----

  class CoEvolutionRunStore {
    var history: map<nat, RunMetadata>
    var pointer: Option<RunMetadata>
    var locked: bool

    ghost function Files(): RunFiles
      reads this
    {
      RunFiles(history, pointer)
    }

    constructor ()
      ensures Files() == NO_RUN && !locked
    {
      history, pointer, locked := map[], None, false;
    }

    method LoadUnlocked() returns (r: Result<RunMetadata>)
      ensures r == if Loads(Files()) then Ok(pointer.value) else Err(IntegrityError)
    {
      if pointer.None? {
        return Err(IntegrityError);
      }
      var m := pointer.value;
      if m.revision !in history || history[m.revision] != m {
        return Err(IntegrityError);
      }
      return Ok(m);
    }

    /** The two durable writes of `create` and `compare_and_swap`; releasing the lock counts
        as a third. */
    method Install(m: RunMetadata, crashAfter: nat) returns (out: Outcome<RunMetadata>)
      requires !locked && Free(Files(), m)
      modifies this
      ensures out.Committed? ==> !locked && out.value == m && Files() == Installed(old(Files()), m)
      ensures !out.Failed?
      ensures out.Crashed? ==>
        && locked && crashAfter < 3
        && Files() == AfterCrash(old(Files()), m, crashAfter)
    {
      locked := true;
      if crashAfter == 0 {
        return Crashed;
      }
      history := history[m.revision := m];
      if crashAfter == 1 {
        return Crashed;
      }
      pointer := Some(m);
      if crashAfter == 2 {
        return Crashed;
      }
      var loaded := LoadUnlocked();
      locked := false;
      return Committed(loaded.value);
    }

    method Create(m: RunMetadata, crashAfter: nat) returns (out: Outcome<RunMetadata>)
      modifies this
      ensures out.Committed? ==>
        && !old(locked) && !locked && out.value == m
        && if old(Files()).pointer.Some? then Loads(old(Files())) && old(pointer) == Some(m) && Files() == old(Files())
           else MayCreate(old(Files()), m) && Files() == Installed(old(Files()), m)
      ensures out.Failed? ==>
        && Files() == old(Files()) && locked == old(locked)
        && (old(locked) || (!MayCreate(old(Files()), m) && !(Loads(old(Files())) && old(pointer) == Some(m) && m.revision == 0)))
      ensures out.Crashed? ==>
        && !old(locked) && locked && MayCreate(old(Files()), m) && crashAfter < 3
        && Files() == AfterCrash(old(Files()), m, crashAfter)
    {
      if m.revision != 0 {
        return Failed(ContractError);
      }
      if locked {
        return Failed(LockTimeout);
      }
      if pointer.Some? {
        var existing := LoadUnlocked();
        if existing.Err? {
          return Failed(IntegrityError);
        }
        return if existing.value == m then Committed(m) else Failed(ConflictError);
      }
      if m.revision in history && history[m.revision] != m {
        return Failed(ConflictError);
      }
      out := Install(m, crashAfter);
    }

    method CompareAndSwap(m: RunMetadata, expected: nat, crashAfter: nat) returns (out: Outcome<RunMetadata>)
      modifies this
      ensures out.Committed? ==>
        && !old(locked) && !locked && out.value == m && m.revision == expected + 1 && Loads(old(Files()))
        && if old(pointer) == Some(m) then Files() == old(Files())
           else MayAdvance(old(Files()), m) && Files() == Installed(old(Files()), m)
      ensures out.Failed? ==>
        && Files() == old(Files()) && locked == old(locked)
        && (old(locked) || m.revision != expected + 1
            || (!MayAdvance(old(Files()), m) && !(Loads(old(Files())) && old(pointer) == Some(m))))
      ensures out.Crashed? ==>
        && !old(locked) && locked && MayAdvance(old(Files()), m) && crashAfter < 3
        && Files() == AfterCrash(old(Files()), m, crashAfter)
    {
      if m.revision != expected + 1 {
        return Failed(ContractError);
      }
      if locked {
        return Failed(LockTimeout);
      }
      var loaded := LoadUnlocked();
      if loaded.Err? {
        return Failed(IntegrityError);
      }
      var current := loaded.value;
      if current == m {
        return Committed(m);
      }
      if current.revision != expected || !SameIdentity(current, m)
        || m.completedCycles < current.completedCycles || m.currentCycle < current.currentCycle {
        return Failed(ConflictError);
      }
      if m.revision in history && history[m.revision] != m {
        return Failed(ConflictError);
      }
      out := Install(m, crashAfter);
    }
  }

  // ---- All runs, one durable write per step ----

  datatype RunSystem = RunSystem(files: RunFiles, writing: Option<RunMetadata>, locked: bool)

  datatype RunStep =
    | WriteHistory(m: RunMetadata)
    | ReplacePointer
    | Crash
    | DieHoldingLock
    | RemoveStaleLock

  predicate Next(s: RunSystem, step: RunStep, s': RunSystem) {
    match step
    case WriteHistory(m) =>
      && !s.locked && s.writing.None? && (MayCreate(s.files, m) || MayAdvance(s.files, m))
      && s' == RunSystem(WithHistory(s.files, m), Some(m), true)
    case ReplacePointer =>
      s.writing.Some? && s' == RunSystem(s.files.(pointer := s.writing), None, false)
    case Crash =>
      s' == s.(writing := None)
    case DieHoldingLock =>
      !s.locked && s.writing.None? && s' == s.(locked := true)
    case RemoveStaleLock =>
      s.writing.None? && s' == s.(locked := false)
  }

  function Revision(f: RunFiles): int {
    if f.pointer.None? then -1 else f.pointer.value.revision
  }

  /** Each revision follows from the one before. */
  ghost predicate IsHistory(h: map<nat, RunMetadata>) {
    && (forall r :: r in h ==> h[r].revision == r)
    && (forall r :: r in h && 0 < r ==> r - 1 in h && Follows(h[r - 1], h[r]))
  }

  ghost predicate RunInv(s: RunSystem) {
    var top := Revision(s.files);
    && IsHistory(s.files.history)
    && (forall r: nat :: r <= top ==> r in s.files.history)
    && (forall r :: r in s.files.history ==> r <= top + 1)
    && (s.files.pointer.Some? ==> Loads(s.files))
    && (s.writing.Some? ==>
          s.locked && s.writing.value.revision == top + 1
          && s.writing.value.revision in s.files.history && s.files.history[s.writing.value.revision] == s.writing.value)
  }

  lemma HistoryOneMore(h: map<nat, RunMetadata>, m: RunMetadata, top: int)
    requires IsHistory(h) && (forall r :: r in h ==> r <= top + 1) && (forall r: nat :: r <= top ==> r in h)
    requires m.revision == top + 1 && (m.revision in h ==> h[m.revision] == m)
    requires 0 <= top ==> top in h && Follows(h[top], m)
    ensures IsHistory(h[m.revision := m])
  {
    hide Follows;
  }

  lemma StepKeepsInv(s: RunSystem, step: RunStep, s': RunSystem)
    requires RunInv(s) && Next(s, step, s')
    ensures RunInv(s')
    ensures forall r :: r in s.files.history ==> r in s'.files.history && s'.files.history[r] == s.files.history[r]
    ensures Revision(s.files) <= Revision(s'.files)
  {
    hide IsHistory, SameIdentity;
    if step.WriteHistory? {
      HistoryOneMore(s.files.history, step.m, Revision(s.files));
    }
    if step.ReplacePointer? {
      HistoryIsNumbered(s.files.history);
    }
  }

  lemma HistoryIsNumbered(h: map<nat, RunMetadata>)
    requires IsHistory(h)
    ensures forall r :: r in h ==> h[r].revision == r
  {
  }

  ghost predicate IsRun(states: seq<RunSystem>, steps: seq<RunStep>) {
    && |states| == |steps| + 1
    && states[0] == RunSystem(NO_RUN, None, false)
    && forall i :: 0 <= i < |steps| ==> Next(states[i], steps[i], states[i + 1])
  }

  lemma {:induction false} RunKeepsInv(states: seq<RunSystem>, steps: seq<RunStep>, n: nat)
    requires IsRun(states, steps) && n < |states|
    ensures RunInv(states[n])
  {
    if n > 0 {
      RunKeepsInv(states, steps, n - 1);
      StepKeepsInv(states[n - 1], steps[n - 1], states[n]);
    }
  }

  lemma {:induction false} HistoryOnlyGrows(states: seq<RunSystem>, steps: seq<RunStep>, m: nat, n: nat)
    requires IsRun(states, steps) && m <= n < |states|
    ensures forall r :: r in states[m].files.history ==>
      r in states[n].files.history && states[n].files.history[r] == states[m].files.history[r]
    ensures Revision(states[m].files) <= Revision(states[n].files)
    decreases n
  {
    if m < n {
      HistoryOnlyGrows(states, steps, m, n - 1);
      RunKeepsInv(states, steps, n - 1);
      StepKeepsInv(states[n - 1], steps[n - 1], states[n]);
    }
  }

  /** History holds exactly the revisions up to the pointer's, or those and one orphan: with no
      pointer, nothing or only revision 0. */
  lemma RevisionsAreDense(states: seq<RunSystem>, steps: seq<RunStep>, n: nat)
    requires IsRun(states, steps) && n < |states|
    ensures var f := states[n].files;
      && (f.pointer.Some? ==> Loads(f))
      && (|| (forall r: nat :: r in f.history <==> r <= Revision(f))
          || (forall r: nat :: r in f.history <==> r <= Revision(f) + 1))
  {
    RunKeepsInv(states, steps, n);
    var f := states[n].files;
    if Revision(f) + 1 in f.history {
      forall r: nat ensures r in f.history <==> r <= Revision(f) + 1 {}
    }
  }

  /** Once a crash has left an orphan, no other content can ever take its revision: whatever
      pointer is installed under that number, at any later time, is the orphan. */
  lemma OrphanDecides(states: seq<RunSystem>, steps: seq<RunStep>, m: nat, n: nat)
    requires IsRun(states, steps) && m <= n < |states|
    requires Revision(states[m].files) + 1 in states[m].files.history
    ensures var r := Revision(states[m].files) + 1;
      && states[n].files.pointer.Some? && states[n].files.pointer.value.revision == r ==>
           states[n].files.pointer == Some(states[m].files.history[r])
    ensures forall x: RunMetadata :: MayAdvance(states[m].files, x) || MayCreate(states[m].files, x) ==>
      x == states[m].files.history[Revision(states[m].files) + 1]
  {
    HistoryOnlyGrows(states, steps, m, n);
    RunKeepsInv(states, steps, n);
  }

  lemma {:induction false} FollowersAgree(h: map<nat, RunMetadata>, a: nat, b: nat)
    requires IsHistory(h) && a <= b && b in h
    ensures a in h && SameIdentity(h[a], h[b])
    ensures h[a].completedCycles <= h[b].completedCycles && h[a].currentCycle <= h[b].currentCycle
    decreases b
  {
    if a < b { FollowersAgree(h, a, b - 1); }
  }

  /** Identity never changes, and revision and both cycle counters never fall. */
  lemma RunOnlyAdvances(states: seq<RunSystem>, steps: seq<RunStep>, m: nat, n: nat)
    requires IsRun(states, steps) && m <= n < |states| && states[m].files.pointer.Some?
    ensures states[n].files.pointer.Some?
    ensures var a, b := states[m].files.pointer.value, states[n].files.pointer.value;
      && a.run == b.run && a.config == b.config && a.createdAt == b.createdAt
      && a.revision <= b.revision
      && a.completedCycles <= b.completedCycles && a.currentCycle <= b.currentCycle
  {
    HistoryOnlyGrows(states, steps, m, n);
    RunKeepsInv(states, steps, m);
    RunKeepsInv(states, steps, n);
    FollowersAgree(states[n].files.history, Revision(states[m].files), Revision(states[n].files));
  }
}
