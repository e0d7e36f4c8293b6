/** The two views of a commit agree: whatever one call of `ControlRecordStore.commit` leaves on
    disk, finished or crashed, the small-step writer can leave too. */
module CommitRefinement {
  import opened Records
  import opened ControlStore
  import opened ControlProtocol

  ghost predicate IsWriterRun(ws: seq<Writer>, steps: seq<WriterStep>) {
    && |ws| == |steps| + 1
    && forall i :: 0 <= i < |steps| ==> WriterNext(ws[i], steps[i], ws[i + 1])
  }

  lemma OneMoreStep(ws: seq<Writer>, steps: seq<WriterStep>, step: WriterStep, w: Writer)
    requires IsWriterRun(ws, steps) && WriterNext(ws[|steps|], step, w)
    ensures IsWriterRun(ws + [w], steps + [step])
  {
    hide WriterNext;
    forall i | 0 <= i < |steps| + 1 ensures WriterNext((ws + [w])[i], (steps + [step])[i], (ws + [w])[i + 1]) {
      if i < |steps| { assert WriterNext(ws[i], steps[i], ws[i + 1]); }
    }
  }

  function Written(d: Disk, p: Payload, keys: set<Key>): Disk {
    Disk(d.files + (map k | k in keys && k in p :: p[k]), d.markers)
  }

  function Midway(d: Disk, req: Request, keys: set<Key>): Writer {
    Writer(Written(d, PayloadOf(req.records), keys), Some(Pending(req, PayloadOf(req.records).Keys - keys)), true)
  }

  lemma BeginsMidway(d: Disk, req: Request)
    requires MayStart(d, req)
    ensures WriterNext(Writer(d, None, false), BeginCommit(req), Midway(d, req, {}))
  {
    var p := PayloadOf(req.records);
    assert Written(d, p, {}).files == d.files;
    assert p.Keys - {} == p.Keys;
  }

  /** The file of this record already holds something else. */
  predicate Conflicts(d: Disk, p: Payload, k: Key)
    requires k in p
  {
    k in d.files && d.files[k] != p[k]
  }

  lemma WritesOne(d: Disk, req: Request, keys: set<Key>, k: Key)
    requires k in PayloadOf(req.records) && k !in keys && !Conflicts(d, PayloadOf(req.records), k)
    ensures WriterNext(Midway(d, req, keys), WriteRecord(k), Midway(d, req, keys + {k}))
  {
    hide PayloadOf;
    var p := PayloadOf(req.records);
    assert p.Keys - (keys + {k}) == p.Keys - keys - {k};
    assert Written(d, p, keys + {k}).files == Written(d, p, keys).files[k := p[k]];
  }

  /** Any set of records none of which conflicts can be written, in some order. */
  lemma {:induction false} WritesAnySet(d: Disk, req: Request, keys: set<Key>)
    returns (ws: seq<Writer>, steps: seq<WriterStep>)
    requires MayStart(d, req) && keys <= PayloadOf(req.records).Keys
    requires forall k :: k in keys ==> !Conflicts(d, PayloadOf(req.records), k)
    ensures IsWriterRun(ws, steps) && ws[0] == Writer(d, None, false) && ws[|steps|] == Midway(d, req, keys)
    ensures steps != [] && steps[0] == BeginCommit(req)
    ensures forall i :: 0 < i < |steps| ==> steps[i].WriteRecord?
    decreases keys
  {
    hide MayStart, WriterNext, Midway, PayloadOf, Conflicts;
    if keys == {} {
      BeginsMidway(d, req);
      ws, steps := [Writer(d, None, false), Midway(d, req, {})], [BeginCommit(req)];
    } else {
      var k :| k in keys;
      ws, steps := WritesAnySet(d, req, keys - {k});
      WritesOne(d, req, keys - {k}, k);
      assert keys - {k} + {k} == keys;
      OneMoreStep(ws, steps, WriteRecord(k), Midway(d, req, keys));
      ws, steps := ws + [Midway(d, req, keys)], steps + [WriteRecord(k)];
    }
  }

  lemma MarkerFinishes(d: Disk, req: Request)
    requires MayStart(d, req)
    ensures WriterNext(Midway(d, req, PayloadOf(req.records).Keys), WriteMarker, Writer(Finished(d, req), None, false))
  {
    var p := PayloadOf(req.records);
    assert (map k | k in p.Keys && k in p :: p[k]) == p;
  }

  /** A call that returns. */
  lemma FinishedCommitIsARun(d: Disk, req: Request) returns (ws: seq<Writer>, steps: seq<WriterStep>)
    requires MayStart(d, req) && NoConflict(d, PayloadOf(req.records))
    ensures IsWriterRun(ws, steps)
    ensures ws[0] == Writer(d, None, false) && ws[|steps|] == Writer(Finished(d, req), None, false)
  {
    hide MayStart, WriterNext, Midway, Finished;
    assert forall k :: k in PayloadOf(req.records) ==> !Conflicts(d, PayloadOf(req.records), k);
    ws, steps := WritesAnySet(d, req, PayloadOf(req.records).Keys);
    MarkerFinishes(d, req);
    OneMoreStep(ws, steps, WriteMarker, Writer(Finished(d, req), None, false));
    ws, steps := ws + [Writer(Finished(d, req), None, false)], steps + [WriteMarker];
  }

  lemma OrphansAreSomeSet(d: Disk, p: Payload, d': Disk)
    requires OnlyOrphansAdded(d, p, d')
    ensures d' == Written(d, p, d'.files.Keys - d.files.Keys) && d'.files.Keys - d.files.Keys <= p.Keys
  {
    forall k | k in d'.files.Keys - d.files.Keys ensures k in p {}
    assert d'.files == d.files + (map k | k in d'.files.Keys - d.files.Keys && k in p :: p[k]);
  }

  /** A call that dies after any of its record writes, leaving its lock, whether or not a later
      record would have met a conflict. */
  lemma CrashedCommitIsARun(d: Disk, req: Request, d': Disk) returns (ws: seq<Writer>, steps: seq<WriterStep>)
    requires MayStart(d, req) && OnlyOrphansAdded(d, PayloadOf(req.records), d')
    ensures IsWriterRun(ws, steps)
    ensures ws[0] == Writer(d, None, false) && ws[|steps|] == Writer(d', None, true)
  {
    var keys := d'.files.Keys - d.files.Keys;
    OrphansAreSomeSet(d, PayloadOf(req.records), d');
    assert WriterNext(Midway(d, req, keys), Crash, Writer(d', None, true));
    assert forall k :: k in keys ==> !Conflicts(d, PayloadOf(req.records), k);
    hide MayStart, WriterNext, Midway, PayloadOf, OnlyOrphansAdded, Conflicts;
    ws, steps := WritesAnySet(d, req, keys);
    OneMoreStep(ws, steps, Crash, Writer(d', None, true));
    ws, steps := ws + [Writer(d', None, true)], steps + [Crash];
  }

  /** A call that fails on a conflict, with the records it wrote before left as orphans. */
  lemma ConflictingCommitIsARun(d: Disk, req: Request, d': Disk) returns (ws: seq<Writer>, steps: seq<WriterStep>)
    requires MayStart(d, req) && OnlyOrphansAdded(d, PayloadOf(req.records), d') && !NoConflict(d, PayloadOf(req.records))
    ensures IsWriterRun(ws, steps)
    ensures ws[0] == Writer(d, None, false) && ws[|steps|] == Writer(d', None, false)
  {
    var p, keys := PayloadOf(req.records), d'.files.Keys - d.files.Keys;
    OrphansAreSomeSet(d, p, d');
    var bad :| bad in p && bad in d.files && d.files[bad] != p[bad];
    assert WriterNext(Midway(d, req, keys), WriteConflict(bad), Writer(d', None, false));
    assert forall k :: k in keys ==> !Conflicts(d, p, k);
    hide MayStart, WriterNext, Midway, PayloadOf, OnlyOrphansAdded, Conflicts, NoConflict;
    ws, steps := WritesAnySet(d, req, keys);
    OneMoreStep(ws, steps, WriteConflict(bad), Writer(d', None, false));
    ws, steps := ws + [Writer(d', None, false)], steps + [WriteConflict(bad)];
  }
}
