/** A turn whose transaction the store accepts can be carried through, one durable write at a
    time: the small-step process reaches its commit. */
module TurnRuns {
  import opened Records
  import opened ControlStore
  import opened ControlProtocol
  import opened CommitRefinement
  import opened StoreSystem
  import opened Controller
  import opened CrashRecovery

  lemma Joined(
    c: Config, rank: Id -> int, states: seq<Process>, steps: seq<ProcessStep>, more: seq<Process>, taken: seq<ProcessStep>)
    requires Follows(c, rank, states, steps) && Follows(c, rank, more, taken) && states[|steps|] == more[0]
    ensures Follows(c, rank, states + more[1..], steps + taken)
    ensures (states + more[1..])[|steps + taken|] == more[|taken|]
  {
    hide ProcessNext;
    var all, walk := states + more[1..], steps + taken;
    forall i | 0 <= i < |walk| ensures ProcessNext(c, rank, all[i], walk[i], all[i + 1]) {
      if i < |steps| {
        assert all[i] == states[i] && all[i + 1] == states[i + 1];
      } else {
        assert all[i] == more[i - |steps|] && all[i + 1] == more[i - |steps| + 1] && walk[i] == taken[i - |steps|];
      }
    }
  }

  lemma Chained(
    c: Config, rank: Id -> int, states: seq<Process>, steps: seq<ProcessStep>, more: seq<Process>, taken: seq<ProcessStep>)
    returns (all: seq<Process>, walk: seq<ProcessStep>)
    requires Follows(c, rank, states, steps) && Follows(c, rank, more, taken) && states[|steps|] == more[0]
    ensures Follows(c, rank, all, walk) && all[0] == states[0] && all[|walk|] == more[|taken|] && steps <= walk
  {
    Joined(c, rank, states, steps, more, taken);
    all, walk := states + more[1..], steps + taken;
  }

  lemma OneStep(c: Config, rank: Id -> int, p: Process, step: ProcessStep, q: Process)
    requires ProcessNext(c, rank, p, step, q)
    ensures Follows(c, rank, [p, q], [step])
  {
    hide ProcessNext;
  }

  /** The process right after a turn's marker. */
  function AfterTurn(p: Process, t: Turn): Process
    requires t.Commit?
  {
    Process(p.stores.(writer := Writer(Finished(p.stores.writer.disk, t.req), None, false)), AfterCommit(t), p.heads + [t.next])
  }

  /** The process while a turn's transaction is being written. */
  function During(p: Process, t: Turn, w: Writer): Process
    requires p.pc.Ready?
  {
    Process(p.stores.(writer := w), Committing(p.pc.head, t), p.heads)
  }

  /** A turn of the process that the store accepts. */
  ghost predicate CanTake(c: Config, p: Process, answer: Answer) {
    && p.pc.Ready? && p.stores.writer.pending.None? && !p.stores.writer.locked
    && var t := TurnOf(c, p.pc.head, answer);
    && t.Commit? && FreshCandidate(p.stores.bundles, t.next)
    && MayStart(p.stores.writer.disk, t.req) && NoConflict(p.stores.writer.disk, PayloadOf(t.req.records))
  }

  /** No process dies or resumes on the way. */
  ghost predicate Smooth(steps: seq<ProcessStep>) {
    forall i :: 0 <= i < |steps| ==> !steps[i].Die? && !steps[i].Resume?
  }

  function ProcessStepOf(ws: WriterStep, answer: Answer): ProcessStep {
    if ws.BeginCommit? then BeginTurn(answer) else CommitStep(ws)
  }

  lemma BeginIsAStep(c: Config, rank: Id -> int, p: Process, answer: Answer, w: Writer)
    requires CanTake(c, p, answer)
    requires WriterNext(p.stores.writer, BeginCommit(TurnOf(c, p.pc.head, answer).req), w)
    ensures ProcessNext(c, rank, p, BeginTurn(answer), During(p, TurnOf(c, p.pc.head, answer), w))
  {
    hide TurnOf, MayStart, NoConflict, PayloadOf, FreshCandidate;
  }

  lemma WriteIsAStep(c: Config, rank: Id -> int, p: Process, t: Turn, w: Writer, ws: WriterStep, w': Writer)
    requires p.pc.Ready? && t.Commit? && ws.WriteRecord? && WriterNext(w, ws, w')
    ensures ProcessNext(c, rank, During(p, t, w), CommitStep(ws), During(p, t, w'))
  {
    hide PayloadOf;
  }

  lemma MarkerIsAStep(c: Config, rank: Id -> int, p: Process, t: Turn, w: Writer)
    requires p.pc.Ready? && t.Commit?
    requires WriterNext(w, WriteMarker, Writer(Finished(p.stores.writer.disk, t.req), None, false))
    ensures ProcessNext(c, rank, During(p, t, w), CommitStep(WriteMarker), AfterTurn(p, t))
  {
    hide PayloadOf, Finished, AfterCommit, ManifestOf;
  }

  lemma WritesAreSteps(c: Config, rank: Id -> int, p: Process, answer: Answer, ws: seq<Writer>, writes: seq<WriterStep>)
    returns (states: seq<Process>, steps: seq<ProcessStep>)
    requires CanTake(c, p, answer) && IsWriterRun(ws, writes) && ws[0] == p.stores.writer
    requires writes != [] && writes[0] == BeginCommit(TurnOf(c, p.pc.head, answer).req)
    requires forall i :: 0 < i < |writes| ==> writes[i].WriteRecord?
    ensures Follows(c, rank, states, steps) && Smooth(steps) && states[0] == p
    ensures states[|steps|] == During(p, TurnOf(c, p.pc.head, answer), ws[|writes|])
  {
    hide TurnOf, WriterNext, ProcessNext, During, MayStart, NoConflict, FreshCandidate, PayloadOf;
    var t := TurnOf(c, p.pc.head, answer);
    states := [p] + seq(|writes|, i requires 0 <= i < |writes| => During(p, t, ws[i + 1]));
    steps := seq(|writes|, i requires 0 <= i < |writes| => ProcessStepOf(writes[i], answer));
    forall i | 0 <= i < |steps| ensures ProcessNext(c, rank, states[i], steps[i], states[i + 1]) {
      assert WriterNext(ws[i], writes[i], ws[i + 1]);
      if i == 0 {
        BeginIsAStep(c, rank, p, answer, ws[1]);
      } else {
        WriteIsAStep(c, rank, p, t, ws[i], writes[i], ws[i + 1]);
      }
    }
  }

  /** The last step is the one that makes the turn durable. */
  predicate EndsInCommit(p: Process, t: Turn, before: Process, last: ProcessStep)
    requires p.pc.Ready?
  {
    last == CommitStep(WriteMarker) && before.pc == Committing(p.pc.head, t) && before.heads == p.heads
  }

  /** From any process that can take a turn there is a run, without a crash, to the state right
      after the turn's commit. */
  lemma TurnReachesItsCommit(c: Config, rank: Id -> int, p: Process, answer: Answer)
    returns (states: seq<Process>, steps: seq<ProcessStep>)
    requires CanTake(c, p, answer)
    ensures Follows(c, rank, states, steps) && Smooth(steps) && states[0] == p
    ensures states[|steps|] == AfterTurn(p, TurnOf(c, p.pc.head, answer))
    ensures steps != [] && EndsInCommit(p, TurnOf(c, p.pc.head, answer), states[|steps| - 1], steps[|steps| - 1])
  {
    hide TurnOf, WriterNext, ProcessNext, MayStart, FreshCandidate, PayloadOf, AfterTurn, Midway;
    var d, t := p.stores.writer.disk, TurnOf(c, p.pc.head, answer);
    var keys := PayloadOf(t.req.records).Keys;
    assert p.stores.writer == Writer(d, None, false);
    assert forall k :: k in keys ==> !Conflicts(d, PayloadOf(t.req.records), k);
    var ws, writes := WritesAnySet(d, t.req, keys);
    states, steps := WritesAreSteps(c, rank, p, answer, ws, writes);
    MarkerFinishes(d, t.req);
    MarkerIsAStep(c, rank, p, t, ws[|writes|]);
    OneStep(c, rank, states[|steps|], CommitStep(WriteMarker), AfterTurn(p, t));
    Joined(c, rank, states, steps, [states[|steps|], AfterTurn(p, t)], [CommitStep(WriteMarker)]);
    states := states + [states[|steps|], AfterTurn(p, t)][1..];
    steps := steps + [CommitStep(WriteMarker)];
  }
}
