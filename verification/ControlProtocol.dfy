/** The control store as seen from outside one call: one writer at a time under the lock,
    one durable write per step, a crash between any two steps, a human who removes a stale
    lock, and any number of lock-free readers whose scans take many steps. A process may also
    die holding a lock before its first write or after its last. */
module ControlProtocol {
  import opened Records
  import opened ControlStore

  datatype Pending = Pending(req: Request, todo: set<Key>)

  datatype Writer = Writer(disk: Disk, pending: Option<Pending>, locked: bool)

  datatype WriterStep =
    | BeginCommit(req: Request)
    | WriteRecord(key: Key)
    | WriteConflict(key: Key)
    | WriteMarker
    | Crash
    | DieHoldingLock
    | RemoveStaleLock

  ghost predicate WriterNext(w: Writer, step: WriterStep, w': Writer) {
    match step
    case BeginCommit(req) =>
      && !w.locked && w.pending.None? && MayStart(w.disk, req)
      && w' == Writer(w.disk, Some(Pending(req, PayloadOf(req.records).Keys)), true)
    case WriteRecord(k) =>
      && w.pending.Some? && k in w.pending.value.todo
      && k in PayloadOf(w.pending.value.req.records)
      && var r := PayloadOf(w.pending.value.req.records)[k];
      && (k in w.disk.files ==> w.disk.files[k] == r)
      && w' == Writer(Disk(w.disk.files[k := r], w.disk.markers),
                      Some(Pending(w.pending.value.req, w.pending.value.todo - {k})), true)
    case WriteConflict(k) =>
      && w.pending.Some? && k in w.pending.value.todo
      && k in PayloadOf(w.pending.value.req.records) && k in w.disk.files
      && w.disk.files[k] != PayloadOf(w.pending.value.req.records)[k]
      && w' == Writer(w.disk, None, false)
    case WriteMarker =>
      && w.pending.Some? && w.pending.value.todo == {}
      && var req := w.pending.value.req;
      && w' == Writer(Disk(w.disk.files, w.disk.markers[req.tx := ManifestOf(req)]), None, false)
    case Crash =>
      w' == Writer(w.disk, None, w.locked)
    case DieHoldingLock =>
      !w.locked && w.pending.None? && w' == Writer(w.disk, None, true)
    case RemoveStaleLock =>
      w.pending.None? && w' == Writer(w.disk, None, false)
  }

  /** Every marker sits under its own id, and names records that fit its run and iteration. */
  ghost predicate Shaped(d: Disk) {
    forall tx :: tx in d.markers ==>
      && d.markers[tx].tx == tx
      && forall k :: k in d.markers[tx].refs ==>
        k in d.files && FitsTransaction(d.files[k], d.markers[tx].run, d.markers[tx].iteration)
  }

  ghost predicate DiskInv(d: Disk) {
    Intact(d) && Shaped(d) && Closed(CommittedView(d))
  }

  ghost predicate PendingInv(d: Disk, pending: Pending) {
    var p := PayloadOf(pending.req.records);
    && MayStart(d, pending.req)
    && pending.todo <= p.Keys
    && forall k :: k in p && k !in pending.todo ==> k in d.files && d.files[k] == p[k]
  }

  ghost predicate WriterInv(w: Writer) {
    && DiskInv(w.disk)
    && (w.pending.Some? ==> w.locked && PendingInv(w.disk, w.pending.value))
  }

  /** Nothing durable is ever lost or changed. */
  ghost predicate Grows(d: Disk, d': Disk) {
    && (forall k :: k in d.files ==> k in d'.files && d'.files[k] == d.files[k])
    && (forall tx :: tx in d.markers ==> tx in d'.markers && d'.markers[tx] == d.markers[tx])
  }

  lemma DiskCovers(d: Disk)
    ensures Grows(d, d)
  {
  }

  lemma GrowsTransitive(a: Disk, b: Disk, c: Disk)
    requires Grows(a, b) && Grows(b, c)
    ensures Grows(a, c)
  {
  }

  /** What was committed stays committed, with the same content. */
  lemma CommittedViewGrows(d: Disk, d': Disk)
    requires Intact(d) && Intact(d') && Grows(d, d')
    ensures forall k :: k in CommittedView(d) ==>
      k in CommittedView(d') && CommittedView(d')[k] == CommittedView(d)[k]
  {
    forall k | k in CommittedView(d)
      ensures k in CommittedView(d') && CommittedView(d')[k] == CommittedView(d)[k]
    {
      var tx :| tx in d.markers && k in d.markers[tx].refs;
      assert tx in d'.markers && k in d'.markers[tx].refs;
      CommittedHasFile(d', k);
    }
  }

  lemma OrphansKeepInv(d: Disk, p: Payload, d': Disk)
    requires DiskInv(d) && OnlyOrphansAdded(d, p, d')
    ensures DiskInv(d') && CommittedView(d') == CommittedView(d)
  {
    OrphansChangeNoView(d, p, d');
  }

  lemma MarkerKeepsInv(d: Disk, req: Request)
    requires DiskInv(d) && MayStart(d, req) && NoConflict(d, PayloadOf(req.records))
    ensures DiskInv(Finished(d, req))
  {
    var p, d' := PayloadOf(req.records), Finished(d, req);
    PayloadFacts(req.records);
    FinishedIntact(d, req);
    CommitKeepsClosed(d, req);
    forall k | k in p ensures FitsTransaction(p[k], req.run, req.iteration) {
      var i :| 0 <= i < |req.records| && req.records[i] == p[k];
    }
  }

  lemma WriteRecordKeepsInv(w: Writer, k: Key, w': Writer)
    requires WriterInv(w) && WriterNext(w, WriteRecord(k), w')
    ensures WriterInv(w')
  {
    var p := PayloadOf(w.pending.value.req.records);
    assert OnlyOrphansAdded(w.disk, p, w'.disk);
    OrphansKeepInv(w.disk, p, w'.disk);
  }

  lemma WriteMarkerKeepsInv(w: Writer, w': Writer)
    requires WriterInv(w) && WriterNext(w, WriteMarker, w')
    ensures WriterInv(w') && w'.disk == Finished(w.disk, w.pending.value.req)
  {
    var req := w.pending.value.req;
    var p := PayloadOf(req.records);
    assert w.disk.files + p == w.disk.files;
    MarkerKeepsInv(w.disk, req);
  }

  /** Every step of the writer, crashes and conflicts included, keeps the disk intact and
      its committed view closed, and only ever adds to it. */
  lemma WriterStepKeepsInv(w: Writer, step: WriterStep, w': Writer)
    requires WriterInv(w) && WriterNext(w, step, w')
    ensures WriterInv(w') && Grows(w.disk, w'.disk)
  {
    match step
    case WriteRecord(k) => WriteRecordKeepsInv(w, k, w');
    case WriteMarker => WriteMarkerKeepsInv(w, w');
    case _ =>
  }

  // ---- Lock-free readers ----

  datatype Reading = Reading(manifest: Manifest, left: set<Key>)

  /** `start` is the disk at the moment the markers were listed; it is bookkeeping only. */
  datatype Reader =
    | Scanning(listed: set<Id>, todo: set<Id>, reading: Option<Reading>, found: Payload, start: Disk)
    | Done(listed: set<Id>, found: Payload, start: Disk)
    | Broken

  datatype System = System(writer: Writer, readers: map<nat, Reader>)

  datatype Step =
    | Write(step: WriterStep)
    | ListMarkers(reader: nat, only: Option<Id>)
    | OpenMarker(reader: nat, tx: Id)
    | ReadRecord(reader: nat, key: Key)
    | EndScan(reader: nat)

  function Listed(d: Disk, only: Option<Id>): set<Id> {
    if only.None? then d.markers.Keys else if only.value in d.markers then {only.value} else {}
  }

  /** One step of one reader on the disk as it is now. A missing or altered file breaks it. */
  ghost predicate ReaderNext(d: Disk, reader: Reader, step: Step, reader': Reader) {
    match step
    case OpenMarker(_, tx) =>
      && reader.Scanning? && tx in reader.todo
      && (reader.reading.None? || reader.reading.value.left == {})
      && reader' ==
         if tx !in d.markers then Broken
         else Scanning(reader.listed, reader.todo - {tx},
                       Some(Reading(d.markers[tx], d.markers[tx].refs.Keys)), reader.found, reader.start)
    case ReadRecord(_, k) =>
      && reader.Scanning? && reader.reading.Some? && k in reader.reading.value.left
      && var m := reader.reading.value.manifest;
      && reader' ==
         if k !in m.refs || !FileMatches(d, k, m.refs[k]) then Broken
         else Scanning(reader.listed, reader.todo, Some(Reading(m, reader.reading.value.left - {k})),
                       reader.found[k := d.files[k]], reader.start)
    case EndScan(_) =>
      && reader.Scanning? && reader.todo == {}
      && (reader.reading.None? || reader.reading.value.left == {})
      && reader' == Done(reader.listed, reader.found, reader.start)
    case _ => false
  }

  ghost predicate Next(s: System, step: Step, s': System) {
    match step
    case Write(ws) =>
      WriterNext(s.writer, ws, s'.writer) && s'.readers == s.readers
    case ListMarkers(r, only) =>
      var listed := Listed(s.writer.disk, only);
      s' == System(s.writer, s.readers[r := Scanning(listed, listed, None, map[], s.writer.disk)])
    case _ =>
      && step.reader in s.readers && step.reader in s'.readers
      && ReaderNext(s.writer.disk, s.readers[step.reader], step, s'.readers[step.reader])
      && s' == System(s.writer, s.readers[step.reader := s'.readers[step.reader]])
  }

  /** What a scan of `listed` would find on a disk that stood still. */
  ghost function ViewOf(d: Disk, listed: set<Id>): Payload {
    map k | k in d.files && NamedBy(d.markers, listed, k) :: d.files[k]
  }

  ghost predicate FoundSoFar(reader: Reader)
    requires reader.Scanning?
  {
    var seen := reader.listed - reader.todo;
    var left := if reader.reading.Some? then reader.reading.value.left else {};
    && (forall k :: k in reader.found ==> k in reader.start.files && reader.found[k] == reader.start.files[k])
    && (forall k :: k in reader.found || k in left <==> NamedBy(reader.start.markers, seen, k))
  }

  ghost predicate ReaderInv(d: Disk, reader: Reader) {
    match reader
    case Scanning(listed, todo, reading, found, start) =>
      && Intact(start) && Grows(start, d)
      && todo <= listed <= start.markers.Keys
      && (reading.Some? ==> reading.value.left <= reading.value.manifest.refs.Keys
                            && ManifestIntact(start, reading.value.manifest))
      && FoundSoFar(reader)
    case Done(listed, found, start) =>
      && Intact(start) && Grows(start, d)
      && found == ViewOf(start, listed)
    case Broken => false
  }

  ghost predicate SystemInv(s: System) {
    && WriterInv(s.writer)
    && forall r :: r in s.readers ==> ReaderInv(s.writer.disk, s.readers[r])
  }

  lemma ReaderOutlivesGrowth(d: Disk, d': Disk, reader: Reader)
    requires ReaderInv(d, reader) && Grows(d, d')
    ensures ReaderInv(d', reader)
  {
    GrowsTransitive(reader.start, d, d');
  }

  lemma OpenMarkerKeepsInv(d: Disk, reader: Reader, step: Step, reader': Reader)
    requires ReaderInv(d, reader) && step.OpenMarker? && ReaderNext(d, reader, step, reader')
    ensures ReaderInv(d, reader')
  {
    var start, tx := reader.start, step.tx;
    assert tx in start.markers && d.markers[tx] == start.markers[tx];
    var seen := reader.listed - reader.todo;
    NamedByOneMore(start.markers, seen, tx);
    assert reader.listed - (reader.todo - {tx}) == seen + {tx};
    assert forall k :: k in reader.found <==> NamedBy(start.markers, seen, k);
    assert forall k :: (k in reader.found || k in start.markers[tx].refs) <==> NamedBy(start.markers, seen + {tx}, k);
  }

  lemma ReadRecordKeepsInv(d: Disk, reader: Reader, step: Step, reader': Reader)
    requires ReaderInv(d, reader) && step.ReadRecord? && ReaderNext(d, reader, step, reader')
    ensures ReaderInv(d, reader')
  {
    var start, k, m := reader.start, step.key, reader.reading.value.manifest;
    assert FileMatches(start, k, m.refs[k]);
    assert d.files[k] == start.files[k];
    assert reader'.found == reader.found[k := start.files[k]];
  }

  lemma ScanFoundAll(reader: Reader)
    requires reader.Scanning? && Intact(reader.start) && FoundSoFar(reader) && reader.todo == {}
    requires reader.reading.None? || reader.reading.value.left == {}
    ensures reader.found == ViewOf(reader.start, reader.listed)
  {
    assert reader.listed - reader.todo == reader.listed;
    assert forall k :: k in reader.found <==> NamedBy(reader.start.markers, reader.listed, k);
    assert reader.found.Keys == ViewOf(reader.start, reader.listed).Keys;
  }

  lemma StepKeepsInv(s: System, step: Step, s': System)
    requires SystemInv(s) && Next(s, step, s')
    ensures SystemInv(s') && Grows(s.writer.disk, s'.writer.disk)
  {
    match step
    case Write(ws) =>
      WriterStepKeepsInv(s.writer, ws, s'.writer);
      forall r | r in s'.readers ensures ReaderInv(s'.writer.disk, s'.readers[r]) {
        ReaderOutlivesGrowth(s.writer.disk, s'.writer.disk, s.readers[r]);
      }
    case ListMarkers(r, only) =>
    case OpenMarker(r, _) => OpenMarkerKeepsInv(s.writer.disk, s.readers[r], step, s'.readers[r]);
    case ReadRecord(r, _) => ReadRecordKeepsInv(s.writer.disk, s.readers[r], step, s'.readers[r]);
    case EndScan(r) => ScanFoundAll(s.readers[r]);
  }

  // ---- Claims about whole runs ----

  const EMPTY_SYSTEM := System(Writer(Disk(map[], map[]), None, false), map[])

  ghost predicate IsRun(states: seq<System>, steps: seq<Step>) {
    && |states| == |steps| + 1
    && states[0] == EMPTY_SYSTEM
    && forall i :: 0 <= i < |steps| ==> Next(states[i], steps[i], states[i + 1])
  }

  lemma {:induction false} RunKeepsInv(states: seq<System>, steps: seq<Step>, n: nat)
    requires IsRun(states, steps) && n < |states|
    ensures SystemInv(states[n])
  {
    if n > 0 {
      RunKeepsInv(states, steps, n - 1);
      StepKeepsInv(states[n - 1], steps[n - 1], states[n]);
    }
  }

  lemma {:induction false} RunGrows(states: seq<System>, steps: seq<Step>, m: nat, n: nat)
    requires IsRun(states, steps) && m <= n < |states|
    ensures Grows(states[m].writer.disk, states[n].writer.disk)
    decreases n
  {
    hide Next, SystemInv, Grows;
    if m == n {
      DiskCovers(states[n].writer.disk);
    } else {
      RunGrows(states, steps, m, n - 1);
      RunKeepsInv(states, steps, n - 1);
      StepKeepsInv(states[n - 1], steps[n - 1], states[n]);
      GrowsTransitive(states[m].writer.disk, states[n - 1].writer.disk, states[n].writer.disk);
    }
  }

  /** In every reachable state, whatever crashed or conflicted on the way: the evidence a committed
      decision, transition or snapshot cites is committed evidence of its own run and no later iteration,
      and the decision a transition or a snapshot names is a committed decision of its run and iteration,
      or of the iteration before for a snapshot. */
  lemma ReachableViewIsClosed(states: seq<System>, steps: seq<Step>, n: nat)
    requires IsRun(states, steps) && n < |states|
    ensures Intact(states[n].writer.disk)
    ensures var view := CommittedView(states[n].writer.disk);
      && (forall k, e :: k in view && view[k].DecisionRecord? && e in view[k].decision.evidence ==>
            HasEvidence(view, view[k].decision.run, view[k].decision.iteration, e))
      && (forall k, e :: k in view && view[k].TransitionRecord? && e in view[k].transition.evidence ==>
            HasEvidence(view, view[k].transition.run, view[k].transition.iteration, e))
      && (forall k, e :: k in view && view[k].SnapshotRecord? && e in view[k].snapshot.evidence ==>
            HasEvidence(view, view[k].snapshot.run, view[k].snapshot.iteration, e))
    ensures var view := CommittedView(states[n].writer.disk);
      && (forall k :: k in view && view[k].TransitionRecord? && view[k].transition.decision.Some? ==>
            var t := view[k].transition;
            HasDecision(view, t.run, t.iteration, t.decision.value))
      && (forall k :: k in view && view[k].SnapshotRecord? && view[k].snapshot.metadata.decision.Some? ==>
            var s := view[k].snapshot;
            || HasDecision(view, s.run, s.iteration, s.metadata.decision.value)
            || (1 <= s.iteration && HasDecision(view, s.run, s.iteration - 1, s.metadata.decision.value)))
  {
    hide Next, CommittedView, DependenciesHold, HasEvidence, HasDecision, Shaped, Keyed;
    RunKeepsInv(states, steps, n);
    var view := CommittedView(states[n].writer.disk);
    CommittedIsKeyed(states[n].writer.disk);
    forall k | k in view ensures Relies(view, view[k]) { DependenciesMean(view[k], view); }
  }

  /** In every reachable state a marker sits under its own id, and every record it names is in the view
      under its kind and id, of the marker's run and iteration; a snapshot may open the next iteration. */
  lemma MarkersNameTheirOwn(states: seq<System>, steps: seq<Step>, n: nat, tx: Id)
    requires IsRun(states, steps) && n < |states| && tx in states[n].writer.disk.markers
    ensures var d := states[n].writer.disk;
      var m := d.markers[tx];
      && m.tx == tx
      && forall k :: k in m.refs ==>
        && k in CommittedView(d) && m.refs[k] == Sha256(CommittedView(d)[k])
        && Belongs(CommittedView(d)[k], m.run, m.iteration) && IsFile(k, CommittedView(d)[k])
  {
    RunKeepsInv(states, steps, n);
    var d := states[n].writer.disk;
    var m := d.markers[tx];
    assert ManifestIntact(d, m);
    forall k | k in m.refs
      ensures k in CommittedView(d) && m.refs[k] == Sha256(CommittedView(d)[k])
      ensures Belongs(CommittedView(d)[k], m.run, m.iteration) && IsFile(k, CommittedView(d)[k])
    {
      CommittedHasFile(d, k);
      assert FileMatches(d, k, m.refs[k]);
    }
  }

  /** The committed view only grows. */
  lemma ReachableViewGrows(states: seq<System>, steps: seq<Step>, m: nat, n: nat)
    requires IsRun(states, steps) && m <= n < |states|
    ensures forall k :: k in CommittedView(states[m].writer.disk) ==>
      && k in CommittedView(states[n].writer.disk)
      && CommittedView(states[n].writer.disk)[k] == CommittedView(states[m].writer.disk)[k]
  {
    RunGrows(states, steps, m, n);
    RunKeepsInv(states, steps, m);
    RunKeepsInv(states, steps, n);
    CommittedViewGrows(states[m].writer.disk, states[n].writer.disk);
  }

  lemma WholeViewIsCommittedView(d: Disk)
    requires Intact(d)
    ensures ViewOf(d, d.markers.Keys) == CommittedView(d)
  {
    forall k ensures NamedBy(d.markers, d.markers.Keys, k) <==> IsCommitted(d, k) {}
    assert ViewOf(d, d.markers.Keys).Keys == CommittedView(d).Keys;
  }

  /** The disk a reader remembers is the disk of an earlier state of the run. */
  lemma {:induction false} StartIsInThePast(states: seq<System>, steps: seq<Step>, n: nat, r: nat)
    requires IsRun(states, steps) && n < |states| && r in states[n].readers
    ensures states[n].readers[r].Broken? ||
      exists m :: 0 <= m <= n && states[m].writer.disk == states[n].readers[r].start
  {
    assert n > 0;
    var step := steps[n - 1];
    assert Next(states[n - 1], step, states[n]);
    if step.ListMarkers? && step.reader == r {
      assert states[n].writer.disk == states[n].readers[r].start;
    } else {
      StartIsInThePast(states, steps, n - 1, r);
    }
  }

  /** No interleaving breaks a reader, and a finished scan returns exactly the committed view
      of the moment its markers were listed, however much was written meanwhile. */
  lemma ScansAreSnapshots(states: seq<System>, steps: seq<Step>, n: nat, r: nat)
    requires IsRun(states, steps) && n < |states| && r in states[n].readers
    ensures !states[n].readers[r].Broken?
    ensures var reader := states[n].readers[r];
      reader.Done? ==>
        && (exists m :: 0 <= m <= n && states[m].writer.disk == reader.start)
        && reader.found == ViewOf(reader.start, reader.listed)
        && (reader.listed == reader.start.markers.Keys ==> reader.found == CommittedView(reader.start))
  {
    RunKeepsInv(states, steps, n);
    var reader := states[n].readers[r];
    assert ReaderInv(states[n].writer.disk, reader);
    StartIsInThePast(states, steps, n, r);
    if reader.Done? { WholeViewIsCommittedView(reader.start); }
  }
}
