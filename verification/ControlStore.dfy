/** ControlRecordStore: immutable record files, and a commit marker written last.

    The directory is a pair of maps. Every `write_immutable` is one atomic step. A marker's
    reference list is kept as a map, because the source sorts it. */
module ControlStore {
  import opened Records

  type Payload = map<Key, Record>

  datatype Manifest = Manifest(tx: Id, run: Id, iteration: nat, createdAt: int, refs: map<Key, Sha<Record>>)

  datatype Disk = Disk(files: map<Key, Record>, markers: map<Id, Manifest>)

  datatype Request = Request(tx: Id, run: Id, iteration: nat, createdAt: int, records: seq<Record>)

  // ---- What the files say ----

  predicate FileMatches(d: Disk, k: Key, sha: Sha<Record>) {
    k in d.files && Sha256(d.files[k]) == sha && KeyOf(d.files[k]) == k
  }

  ghost predicate ManifestIntact(d: Disk, m: Manifest) {
    forall k :: k in m.refs ==> FileMatches(d, k, m.refs[k])
  }

  /** No reader can see a marker with a missing or altered record. */
  ghost predicate Intact(d: Disk) {
    forall tx :: tx in d.markers ==> ManifestIntact(d, d.markers[tx])
  }

  ghost predicate IsCommitted(d: Disk, k: Key) {
    exists tx :: tx in d.markers && k in d.markers[tx].refs
  }

  /** The committed view: the files some marker names; orphans are not in it. */
  ghost function CommittedView(d: Disk): (view: Payload) {
    map k | k in d.files && IsCommitted(d, k) :: d.files[k]
  }

  ghost function LoadedTransaction(d: Disk, tx: Id): Result<Manifest> {
    if tx !in d.markers || d.markers[tx].tx != tx || !ManifestIntact(d, d.markers[tx]) then
      Err(IntegrityError)
    else
      Ok(d.markers[tx])
  }

  ghost function LoadedRecord(d: Disk, k: Key): Result<Record> {
    if Intact(d) && k in CommittedView(d) then Ok(d.files[k]) else Err(IntegrityError)
  }

  // ---- What a record may depend on ----

  predicate EvidenceDependency(r: Record, e: Id, available: Payload) {
    var k := Key(EvidenceKind, e);
    && k in available
    && available[k].EvidenceRecord?
    && RunOf(available[k]) == RunOf(r)
    && IterationOf(available[k]) <= IterationOf(r)
  }

  predicate DecisionDependency(r: Record, id: Id, available: Payload) {
    var k := Key(DecisionKind, id);
    && k in available
    && available[k].DecisionRecord?
    && RunOf(available[k]) == RunOf(r)
    && (IterationOf(r) == IterationOf(available[k])
        || (r.SnapshotRecord? && IterationOf(r) == IterationOf(available[k]) + 1))
  }

  predicate DependenciesHold(r: Record, available: Payload) {
    && (forall e :: e in EvidenceIds(r) ==> EvidenceDependency(r, e, available))
    && (DecisionRef(r).Some? ==> DecisionDependency(r, DecisionRef(r).value, available))
  }

  /** Every record of the view finds what it depends on inside the view. */
  ghost predicate Closed(view: Payload) {
    forall k :: k in view ==> DependenciesHold(view[k], view)
  }

  // ---- A commit request ----

  predicate FitsTransaction(r: Record, run: Id, iteration: nat) {
    && RunOf(r) == run
    && (IterationOf(r) == iteration || (r.SnapshotRecord? && IterationOf(r) == iteration + 1))
  }

  ghost predicate Admissible(req: Request) {
    && req.records != []
    && (forall i :: 0 <= i < |req.records| ==> FitsTransaction(req.records[i], req.run, req.iteration))
    && (forall i, j :: 0 <= i < j < |req.records| ==> KeyOf(req.records[i]) != KeyOf(req.records[j]))
  }

  function PayloadOf(records: seq<Record>): Payload {
    if records == [] then map[]
    else PayloadOf(records[..|records| - 1])[KeyOf(records[|records| - 1]) := records[|records| - 1]]
  }

  lemma {:induction false} PayloadFacts(records: seq<Record>)
    ensures forall k :: k in PayloadOf(records) ==>
      PayloadOf(records)[k] in records && KeyOf(PayloadOf(records)[k]) == k
    ensures forall r :: r in records ==> KeyOf(r) in PayloadOf(records)
  {
    if records != [] {
      var rest := records[..|records| - 1];
      PayloadFacts(rest);
      assert records == rest + [records[|records| - 1]];
    }
  }

  lemma PayloadKeeps(req: Request, r: Record)
    requires Admissible(req) && r in req.records
    ensures KeyOf(r) in PayloadOf(req.records) && PayloadOf(req.records)[KeyOf(r)] == r
  {
    var p := PayloadOf(req.records);
    PayloadFacts(req.records);
    var i :| 0 <= i < |req.records| && req.records[i] == r;
    var j :| 0 <= j < |req.records| && req.records[j] == p[KeyOf(r)];
    assert i == j;
  }

  function RefsOf(p: Payload): map<Key, Sha<Record>> {
    map k | k in p :: Sha256(p[k])
  }

  function ManifestOf(req: Request): Manifest {
    Manifest(req.tx, req.run, req.iteration, req.createdAt, RefsOf(PayloadOf(req.records)))
  }

  predicate NoConflict(d: Disk, p: Payload) {
    forall k :: k in p && k in d.files ==> d.files[k] == p[k]
  }

  /** The checks made under the lock before the first write. Incoming records shadow
      committed ones of the same key. */
  ghost predicate MayStart(d: Disk, req: Request) {
    var p := PayloadOf(req.records);
    && Admissible(req)
    && req.tx !in d.markers
    && Intact(d)
    && forall k :: k in p ==> DependenciesHold(p[k], CommittedView(d) + p)
  }

  ghost predicate AlreadyCommitted(d: Disk, req: Request) {
    && Admissible(req)
    && req.tx in d.markers
    && d.markers[req.tx] == ManifestOf(req)
    && ManifestIntact(d, d.markers[req.tx])
  }

  /** Exactly when an uncrashed call on a free lock succeeds. */
  ghost predicate MayCommit(d: Disk, req: Request) {
    AlreadyCommitted(d, req) || (MayStart(d, req) && NoConflict(d, PayloadOf(req.records)))
  }

  function Finished(d: Disk, req: Request): Disk {
    Disk(d.files + PayloadOf(req.records), d.markers[req.tx := ManifestOf(req)])
  }

  /** Some of the records may have been written; no marker was. */
  ghost predicate OnlyOrphansAdded(d: Disk, p: Payload, d': Disk) {
    d'.markers == d.markers && FilesGrew(d.files, p, d'.files)
  }

  ghost predicate FilesGrew(before: Payload, p: Payload, after: Payload) {
    && (forall k :: k in before ==> k in after && after[k] == before[k])
    && (forall k :: k in after && k !in before ==> k in p && after[k] == p[k])
  }

  // ---- Elementary consequences ----

  lemma FinishedWhenAlreadyCommitted(d: Disk, req: Request)
    requires AlreadyCommitted(d, req)
    ensures Finished(d, req) == d
  {
    var p := PayloadOf(req.records);
    forall k | k in p ensures k in d.files && d.files[k] == p[k] {
      assert k in d.markers[req.tx].refs;
    }
    assert d.files + p == d.files;
  }

  lemma CommittedHasFile(d: Disk, k: Key)
    requires Intact(d) && IsCommitted(d, k)
    ensures k in d.files && KeyOf(d.files[k]) == k
    ensures k in CommittedView(d) && CommittedView(d)[k] == d.files[k]
  {
    var tx :| tx in d.markers && k in d.markers[tx].refs;
    assert FileMatches(d, k, d.markers[tx].refs[k]);
  }

  /** Files only ever accumulate, so a manifest that was intact stays intact. */
  lemma MoreFilesStayIntact(d: Disk, d': Disk, m: Manifest)
    requires ManifestIntact(d, m)
    requires forall k :: k in d.files ==> k in d'.files && d'.files[k] == d.files[k]
    ensures ManifestIntact(d', m)
  {
    forall k | k in m.refs ensures FileMatches(d', k, m.refs[k]) {
      assert FileMatches(d, k, m.refs[k]);
    }
  }

  lemma OrphansChangeNoView(d: Disk, p: Payload, d': Disk)
    requires Intact(d) && OnlyOrphansAdded(d, p, d')
    ensures Intact(d') && CommittedView(d') == CommittedView(d)
  {
    forall tx | tx in d'.markers ensures ManifestIntact(d', d'.markers[tx]) {
      MoreFilesStayIntact(d, d', d.markers[tx]);
    }
    forall k | IsCommitted(d, k) ensures k in d.files { CommittedHasFile(d, k); }
    forall k ensures IsCommitted(d', k) <==> IsCommitted(d, k) {}
  }

  lemma FinishedIntact(d: Disk, req: Request)
    requires Intact(d) && NoConflict(d, PayloadOf(req.records))
    ensures Intact(Finished(d, req))
  {
    var p, d' := PayloadOf(req.records), Finished(d, req);
    PayloadFacts(req.records);
    forall tx | tx in d'.markers ensures ManifestIntact(d', d'.markers[tx]) {
      if tx == req.tx {
        forall k | k in RefsOf(p) ensures FileMatches(d', k, RefsOf(p)[k]) {}
      } else {
        MoreFilesStayIntact(d, d', d.markers[tx]);
      }
    }
  }

  lemma FinishedCommits(d: Disk, req: Request, k: Key)
    requires req.tx !in d.markers
    ensures IsCommitted(Finished(d, req), k) <==> IsCommitted(d, k) || k in PayloadOf(req.records)
  {
    var p, d' := PayloadOf(req.records), Finished(d, req);
    if IsCommitted(d, k) {
      var tx :| tx in d.markers && k in d.markers[tx].refs;
      assert tx in d'.markers && k in d'.markers[tx].refs;
    } else if k in p {
      assert req.tx in d'.markers && k in d'.markers[req.tx].refs;
    }
  }

  lemma FinishedViewAt(d: Disk, req: Request, k: Key)
    requires Intact(d) && req.tx !in d.markers && NoConflict(d, PayloadOf(req.records))
    ensures k in CommittedView(Finished(d, req)) <==> k in CommittedView(d) || k in PayloadOf(req.records)
    ensures k in CommittedView(Finished(d, req)) ==>
      CommittedView(Finished(d, req))[k] == (CommittedView(d) + PayloadOf(req.records))[k]
  {
    FinishedCommits(d, req, k);
    if IsCommitted(d, k) { CommittedHasFile(d, k); }
  }

  /** A finished commit adds exactly its payload to the view, and keeps the disk intact. */
  lemma FinishedView(d: Disk, req: Request)
    requires Intact(d) && req.tx !in d.markers && NoConflict(d, PayloadOf(req.records))
    ensures Intact(Finished(d, req))
    ensures CommittedView(Finished(d, req)) == CommittedView(d) + PayloadOf(req.records)
  {
    FinishedIntact(d, req);
    forall k { FinishedViewAt(d, req, k); }
  }

  // ---- The committed view is closed under dependencies ----

  lemma DependenciesGrow(r: Record, a: Payload, b: Payload)
    requires DependenciesHold(r, a)
    requires forall k :: k in a ==> k in b && b[k] == a[k]
    ensures DependenciesHold(r, b)
  {
    forall e | e in EvidenceIds(r) ensures EvidenceDependency(r, e, b) {
      assert EvidenceDependency(r, e, a);
    }
  }

  /** The dependency check lets an incoming record shadow a committed one. That is harmless:
      a shadow that differs conflicts on its file, so whatever does get committed leaves the
      view closed. */
  lemma CommitKeepsClosed(d: Disk, req: Request)
    requires MayStart(d, req) && NoConflict(d, PayloadOf(req.records))
    requires Closed(CommittedView(d))
    ensures Closed(CommittedView(Finished(d, req)))
  {
    var p, before := PayloadOf(req.records), CommittedView(d);
    var after := CommittedView(Finished(d, req));
    FinishedView(d, req);
    assert after == before + p;
    forall k | k in after ensures DependenciesHold(after[k], after) {
      if k !in p { DependenciesGrow(before[k], before, after); }
    }
  }

  // ---- Retrying a crashed commit ----

  /** What may happen to a store between the first attempt at a request and the last: the
      same request crashes again, before its marker or after it, or other writers add files
      and markers that do not touch the request's keys with other content. */
  datatype Event =
    | CrashBeforeMarker(written: set<Key>)
    | CrashAfterMarker
    | OtherWork(files: Payload, markers: map<Id, Manifest>)

  ghost predicate Unrelated(d: Disk, req: Request, e: Event)
    requires e.OtherWork?
  {
    && NoConflict(d, e.files)
    && NoConflict(Disk(e.files, map[]), PayloadOf(req.records))
    && e.markers.Keys !! d.markers.Keys
    && req.tx !in e.markers
    && Intact(Disk(e.files, e.markers))
  }

  ghost function After(d: Disk, req: Request, e: Event): Disk {
    var p := PayloadOf(req.records);
    match e
    case CrashBeforeMarker(written) => Disk(d.files + (map k | k in written && k in p :: p[k]), d.markers)
    case CrashAfterMarker => Finished(d, req)
    case OtherWork(f, m) => Disk(d.files + f, d.markers + m)
  }

  ghost function AfterAll(d: Disk, req: Request, events: seq<Event>): Disk
    decreases |events|
  {
    if events == [] then d else AfterAll(After(d, req, events[0]), req, events[1..])
  }

  function OthersOnly(events: seq<Event>): (r: seq<Event>) {
    if events == [] then []
    else if events[0].OtherWork? then [events[0]] + OthersOnly(events[1..])
    else OthersOnly(events[1..])
  }

  ghost predicate AllUnrelated(d: Disk, req: Request, events: seq<Event>)
    decreases |events|
  {
    events == [] ||
    (&& (events[0].OtherWork? ==> Unrelated(d, req, events[0]))
     && AllUnrelated(After(d, req, events[0]), req, events[1..]))
  }

  /** `d` is `base` plus some of the request's records, or plus the whole request. */
  ghost predicate Retrying(base: Disk, d: Disk, req: Request) {
    && MayStart(base, req) && NoConflict(base, PayloadOf(req.records))
    && (OnlyOrphansAdded(base, PayloadOf(req.records), d) || d == Finished(base, req))
  }

  lemma OrphansThenAll(base: Disk, p: Payload, d: Disk)
    requires OnlyOrphansAdded(base, p, d) && NoConflict(base, p)
    ensures NoConflict(d, p)
    ensures d.files + p == base.files + p
  {
  }

  lemma MoreOrphans(base: Disk, p: Payload, d: Disk, written: set<Key>)
    requires OnlyOrphansAdded(base, p, d) && NoConflict(base, p)
    ensures OnlyOrphansAdded(base, p, Disk(d.files + (map k | k in written && k in p :: p[k]), d.markers))
  {
  }

  lemma RetryCrash(base: Disk, d: Disk, req: Request, e: Event)
    requires Retrying(base, d, req) && !e.OtherWork?
    ensures Retrying(base, After(d, req, e), req)
  {
    var p := PayloadOf(req.records);
    if d == Finished(base, req) {
      assert d.files == base.files + p;
      match e
      case CrashBeforeMarker(written) => assert d.files + (map k | k in written && k in p :: p[k]) == d.files;
      case CrashAfterMarker => assert d.files + p == d.files;
    } else {
      OrphansThenAll(base, p, d);
      match e
      case CrashBeforeMarker(written) => MoreOrphans(base, p, d, written);
      case CrashAfterMarker =>
    }
  }

  lemma ViewGrowsWithOthers(d: Disk, req: Request, e: Event)
    requires Intact(d) && e.OtherWork? && Unrelated(d, req, e)
    ensures Intact(After(d, req, e))
    ensures forall k :: k in CommittedView(d) ==>
      k in CommittedView(After(d, req, e)) && CommittedView(After(d, req, e))[k] == CommittedView(d)[k]
  {
    var d' := After(d, req, e);
    forall tx | tx in d'.markers ensures ManifestIntact(d', d'.markers[tx]) {
      if tx in e.markers {
        MoreFilesStayIntact(Disk(e.files, e.markers), d', e.markers[tx]);
      } else {
        MoreFilesStayIntact(d, d', d.markers[tx]);
      }
    }
    forall k | k in CommittedView(d)
      ensures k in CommittedView(d') && CommittedView(d')[k] == CommittedView(d)[k]
    {
      var tx :| tx in d.markers && k in d.markers[tx].refs;
      assert tx in d'.markers && k in d'.markers[tx].refs;
      CommittedHasFile(d', k);
    }
  }

  lemma MayStillStart(d: Disk, req: Request, e: Event)
    requires MayStart(d, req) && NoConflict(d, PayloadOf(req.records))
    requires e.OtherWork? && Unrelated(d, req, e)
    ensures MayStart(After(d, req, e), req) && NoConflict(After(d, req, e), PayloadOf(req.records))
  {
    var p, d' := PayloadOf(req.records), After(d, req, e);
    ViewGrowsWithOthers(d, req, e);
    forall k | k in p ensures DependenciesHold(p[k], CommittedView(d') + p) {
      DependenciesGrow(p[k], CommittedView(d) + p, CommittedView(d') + p);
    }
  }

  lemma OrphansBesideOthers(base: Disk, p: Payload, d: Disk, files: Payload, markers: map<Id, Manifest>)
    requires OnlyOrphansAdded(base, p, d)
    ensures OnlyOrphansAdded(Disk(base.files + files, base.markers + markers), p, Disk(d.files + files, d.markers + markers))
  {
  }

  lemma UnionsCommute(a: Payload, p: Payload, f: Payload)
    requires forall k :: k in f && k in p ==> p[k] == f[k]
    ensures a + p + f == a + f + p
  {
  }

  lemma FinishedBesideOthers(base: Disk, req: Request, e: Event)
    requires e.OtherWork? && Unrelated(base, req, e)
    ensures After(Finished(base, req), req, e) == Finished(After(base, req, e), req)
  {
    UnionsCommute(base.files, PayloadOf(req.records), e.files);
    assert base.markers[req.tx := ManifestOf(req)] + e.markers
        == (base.markers + e.markers)[req.tx := ManifestOf(req)];
  }

  lemma RetryOthers(base: Disk, d: Disk, req: Request, e: Event)
    requires Retrying(base, d, req) && e.OtherWork? && Unrelated(d, req, e) && Unrelated(base, req, e)
    ensures Retrying(After(base, req, e), After(d, req, e), req)
  {
    var p := PayloadOf(req.records);
    MayStillStart(base, req, e);
    if d == Finished(base, req) {
      FinishedBesideOthers(base, req, e);
    } else {
      OrphansBesideOthers(base, p, d, e.files, e.markers);
    }
  }

  lemma RetryAfterOrphans(base: Disk, d: Disk, req: Request)
    requires MayStart(base, req) && NoConflict(base, PayloadOf(req.records))
    requires OnlyOrphansAdded(base, PayloadOf(req.records), d)
    ensures MayStart(d, req) && NoConflict(d, PayloadOf(req.records))
    ensures Finished(d, req) == Finished(base, req)
  {
    var p := PayloadOf(req.records);
    OrphansChangeNoView(base, p, d);
    OrphansThenAll(base, p, d);
  }

  lemma RetryAfterMarker(base: Disk, req: Request)
    requires MayStart(base, req) && NoConflict(base, PayloadOf(req.records))
    ensures AlreadyCommitted(Finished(base, req), req)
    ensures Finished(Finished(base, req), req) == Finished(base, req)
  {
    FinishedIntact(base, req);
    FinishedWhenAlreadyCommitted(Finished(base, req), req);
  }

  lemma RetryEnds(base: Disk, d: Disk, req: Request)
    requires Retrying(base, d, req)
    ensures MayCommit(d, req) && Finished(d, req) == Finished(base, req)
  {
    if d == Finished(base, req) {
      RetryAfterMarker(base, req);
    } else {
      RetryAfterOrphans(base, d, req);
    }
  }

  lemma {:induction false} RetryRun(base: Disk, d: Disk, req: Request, events: seq<Event>)
    requires Retrying(base, d, req) && AllUnrelated(d, req, events)
    ensures Retrying(AfterAll(base, req, OthersOnly(events)), AfterAll(d, req, events), req)
    decreases |events|
  {
    if events != [] {
      var e, rest := events[0], events[1..];
      if e.OtherWork? {
        assert Unrelated(base, req, e);
        RetryOthers(base, d, req, e);
        RetryRun(After(base, req, e), After(d, req, e), req, rest);
        var others := OthersOnly(events);
        assert others[0] == e && others[1..] == OthersOnly(rest);
      } else {
        RetryCrash(base, d, req, e);
        RetryRun(base, After(d, req, e), req, rest);
      }
    }
  }

  /** Crash a commit as often as you like, at any point, with other writers' unrelated work
      in between: calling it again with equal bytes succeeds, and leaves the same files and
      markers as one call that never crashed. */
  lemma RetryEquivalence(d: Disk, req: Request, events: seq<Event>)
    requires MayStart(d, req) && NoConflict(d, PayloadOf(req.records))
    requires AllUnrelated(d, req, events)
    ensures MayCommit(AfterAll(d, req, events), req)
    ensures Finished(AfterAll(d, req, events), req)
         == Finished(AfterAll(d, req, OthersOnly(events)), req)
  {
    RetryRun(d, d, req, events);
    RetryEnds(AfterAll(d, req, OthersOnly(events)), AfterAll(d, req, events), req);
  }

  // ---- What the checks mean, field by field ----

  /** Evidence of this run, from this iteration or an earlier one. */
  predicate HasEvidence(view: Payload, run: Id, iteration: nat, e: Id) {
    var k := Key(EvidenceKind, e);
    && k in view && view[k].EvidenceRecord?
    && view[k].evidence.id == e && view[k].evidence.run == run && view[k].evidence.iteration <= iteration
  }

  predicate HasDecision(view: Payload, run: Id, iteration: nat, id: Id) {
    var k := Key(DecisionKind, id);
    && k in view && view[k].DecisionRecord?
    && view[k].decision.id == id && view[k].decision.run == run && view[k].decision.iteration == iteration
  }

  /** Everything a record relies on is there: what a decision, a transition or a snapshot cites as
      evidence, and the decision a transition or a snapshot names. */
  predicate Relies(view: Payload, r: Record) {
    match r
    case EvidenceRecord(_) => true
    case DecisionRecord(d) => forall e :: e in d.evidence ==> HasEvidence(view, d.run, d.iteration, e)
    case TransitionRecord(t) =>
      && (forall e :: e in t.evidence ==> HasEvidence(view, t.run, t.iteration, e))
      && (t.decision.Some? ==> HasDecision(view, t.run, t.iteration, t.decision.value))
    case SnapshotRecord(s) =>
      && (forall e :: e in s.evidence ==> HasEvidence(view, s.run, s.iteration, e))
      && (s.metadata.decision.Some? ==>
            || HasDecision(view, s.run, s.iteration, s.metadata.decision.value)
            || (1 <= s.iteration && HasDecision(view, s.run, s.iteration - 1, s.metadata.decision.value)))
  }

  predicate Keyed(view: Payload) {
    forall k :: k in view ==> KeyOf(view[k]) == k
  }

  lemma DecisionMeans(r: Record, id: Id, view: Payload)
    requires Keyed(view)
    ensures DecisionDependency(r, id, view) <==>
      || HasDecision(view, RunOf(r), IterationOf(r), id)
      || (r.SnapshotRecord? && 1 <= IterationOf(r) && HasDecision(view, RunOf(r), IterationOf(r) - 1, id))
  {
  }

  lemma EvidenceMeans(r: Record, e: Id, view: Payload)
    requires Keyed(view)
    ensures EvidenceDependency(r, e, view) <==> HasEvidence(view, RunOf(r), IterationOf(r), e)
  {
  }

  lemma DependenciesMean(r: Record, view: Payload)
    requires Keyed(view)
    ensures DependenciesHold(r, view) <==> Relies(view, r)
  {
    hide EvidenceDependency, DecisionDependency, HasEvidence, HasDecision, Keyed;
    if DependenciesHold(r, view) || Relies(view, r) {
      forall e | e in EvidenceIds(r)
        ensures EvidenceDependency(r, e, view) && HasEvidence(view, RunOf(r), IterationOf(r), e)
      {
        EvidenceMeans(r, e, view);
      }
    }
    if DecisionRef(r).Some? { DecisionMeans(r, DecisionRef(r).value, view); }
    match r
    case EvidenceRecord(_) =>
    case DecisionRecord(d) => assert EvidenceIds(r) == d.evidence && IterationOf(r) == d.iteration;
    case TransitionRecord(t) => assert EvidenceIds(r) == t.evidence && IterationOf(r) == t.iteration;
    case SnapshotRecord(s) => assert EvidenceIds(r) == s.evidence && IterationOf(r) == s.iteration;
  }

  lemma CommittedIsKeyed(d: Disk)
    requires Intact(d)
    ensures Keyed(CommittedView(d))
  {
    forall k | k in CommittedView(d) ensures KeyOf(CommittedView(d)[k]) == k { CommittedHasFile(d, k); }
  }

  lemma PayloadIsKeyed(view: Payload, records: seq<Record>)
    requires Keyed(view)
    ensures Keyed(view + PayloadOf(records))
  {
    PayloadFacts(records);
  }

  /** A record belongs to its transaction's run, and to its iteration; a snapshot may open the next. */
  predicate Belongs(r: Record, run: Id, iteration: nat) {
    match r
    case EvidenceRecord(e) => e.run == run && e.iteration == iteration
    case DecisionRecord(d) => d.run == run && d.iteration == iteration
    case TransitionRecord(t) => t.run == run && t.iteration == iteration
    case SnapshotRecord(s) => s.run == run && (s.iteration == iteration || s.iteration == iteration + 1)
  }

  /** The file a record is written to: its kind and its id. */
  predicate IsFile(k: Key, r: Record) {
    match r
    case EvidenceRecord(e) => k == Key(EvidenceKind, e.id)
    case DecisionRecord(d) => k == Key(DecisionKind, d.id)
    case TransitionRecord(t) => k == Key(TransitionKind, t.id)
    case SnapshotRecord(s) => k == Key(SnapshotKind, s.id)
  }

  /** The marker of a transaction of this run and iteration is there, and each record it names is under its
      kind and id, with the bytes the marker gives. */
  ghost predicate TransactionStands(d: Disk, tx: Id, run: Id, iteration: nat) {
    && tx in d.markers && d.markers[tx].tx == tx && d.markers[tx].run == run && d.markers[tx].iteration == iteration
    && forall k :: k in d.markers[tx].refs ==>
         k in d.files && d.markers[tx].refs[k] == Sha256(d.files[k]) && IsFile(k, d.files[k])
  }

  lemma LoadsIffStands(d: Disk, tx: Id, run: Id, iteration: nat)
    ensures TransactionStands(d, tx, run, iteration) <==>
      && LoadedTransaction(d, tx).Ok?
      && LoadedTransaction(d, tx).value.run == run && LoadedTransaction(d, tx).value.iteration == iteration
  {
    forall r: Record, k ensures KeyOf(r) == k <==> IsFile(k, r) {}
    hide KeyOf, IsFile;
    if LoadedTransaction(d, tx).Ok? {
      forall k | k in d.markers[tx].refs ensures FileMatches(d, k, d.markers[tx].refs[k]) {}
    }
  }

  /** The committed decision under this id, named by the marker of this transaction. */
  ghost predicate CommittedDecision(d: Disk, tx: Id, x: Decision) {
    && tx in d.markers && Key(DecisionKind, x.id) in d.markers[tx].refs
    && Key(DecisionKind, x.id) in d.files && d.files[Key(DecisionKind, x.id)] == DecisionRecord(x)
  }

  lemma DecisionLoadsIff(d: Disk, tx: Id, x: Decision)
    requires tx in d.markers && d.markers[tx].tx == tx
    ensures CommittedDecision(d, tx, x) && Intact(d) <==>
      && Key(DecisionKind, x.id) in d.markers[tx].refs
      && LoadedRecord(d, Key(DecisionKind, x.id)) == Ok(DecisionRecord(x))
  {
    if Intact(d) && Key(DecisionKind, x.id) in d.markers[tx].refs {
      CommittedHasFile(d, Key(DecisionKind, x.id));
    }
  }

  /** Two records of one kind under one id. */
  predicate SameFile(a: Record, b: Record) {
    || (a.EvidenceRecord? && b.EvidenceRecord? && a.evidence.id == b.evidence.id)
    || (a.DecisionRecord? && b.DecisionRecord? && a.decision.id == b.decision.id)
    || (a.TransitionRecord? && b.TransitionRecord? && a.transition.id == b.transition.id)
    || (a.SnapshotRecord? && b.SnapshotRecord? && a.snapshot.id == b.snapshot.id)
  }

  /** Exactly which requests are well formed. */
  lemma AdmissibleIff(req: Request)
    ensures Admissible(req) <==>
      && req.records != []
      && (forall i :: 0 <= i < |req.records| ==> Belongs(req.records[i], req.run, req.iteration))
      && (forall i, j :: 0 <= i < j < |req.records| ==> !SameFile(req.records[i], req.records[j]))
  {
    forall r: Record ensures FitsTransaction(r, req.run, req.iteration) <==> Belongs(r, req.run, req.iteration) {}
    forall a: Record, b: Record ensures KeyOf(a) == KeyOf(b) <==> SameFile(a, b) {}
    hide FitsTransaction, KeyOf, SameFile, Belongs;
  }

  /** Exactly which well-formed requests under a new id pass the checks made under the lock: every record
      finds what it relies on among the committed records and those of the request. */
  lemma MayStartIff(d: Disk, req: Request)
    requires Intact(d) && Admissible(req) && req.tx !in d.markers
    ensures MayStart(d, req) <==> forall r :: r in req.records ==> Relies(CommittedView(d) + PayloadOf(req.records), r)
  {
    var p := PayloadOf(req.records);
    CommittedIsKeyed(d);
    PayloadIsKeyed(CommittedView(d), req.records);
    PayloadFacts(req.records);
    forall r | r in req.records ensures KeyOf(r) in p && p[KeyOf(r)] == r { PayloadKeeps(req, r); }
    forall r: Record ensures DependenciesHold(r, CommittedView(d) + p) <==> Relies(CommittedView(d) + p, r) {
      DependenciesMean(r, CommittedView(d) + p);
    }
    hide Relies, DependenciesHold, CommittedView, PayloadOf, Admissible;
  }

  /** The record cites this evidence. */
  predicate CitesEvidence(r: Record, e: Id) {
    || (r.DecisionRecord? && e in r.decision.evidence)
    || (r.TransitionRecord? && e in r.transition.evidence)
    || (r.SnapshotRecord? && e in r.snapshot.evidence)
  }

  /** A request that cites evidence which neither it nor the committed view has is never committed: not
      now, and not as a repetition of an earlier call. */
  lemma UncommittedEvidenceIsRefused(d: Disk, req: Request, r: Record, e: Id)
    requires Intact(d) && Closed(CommittedView(d)) && r in req.records && CitesEvidence(r, e)
    requires Key(EvidenceKind, e) !in CommittedView(d)
    requires forall x :: EvidenceRecord(x) in req.records ==> x.id != e
    ensures !MayCommit(d, req)
  {
    if MayStart(d, req) {
      MayStartIff(d, req);
      NobodyHasEvidence(d, req, e);
    }
    if AlreadyCommitted(d, req) {
      NamedRecordIsCommitted(d, req, r);
      CommittedIsKeyed(d);
      DependenciesMean(r, CommittedView(d));
    }
  }

  lemma NobodyHasEvidence(d: Disk, req: Request, e: Id)
    requires Key(EvidenceKind, e) !in CommittedView(d) && forall x :: EvidenceRecord(x) in req.records ==> x.id != e
    ensures forall run, iteration :: !HasEvidence(CommittedView(d) + PayloadOf(req.records), run, iteration, e)
  {
    PayloadFacts(req.records);
    hide PayloadOf, CommittedView;
  }

  lemma NamedRecordIsCommitted(d: Disk, req: Request, r: Record)
    requires AlreadyCommitted(d, req) && Intact(d) && r in req.records
    ensures KeyOf(r) in CommittedView(d) && CommittedView(d)[KeyOf(r)] == r
  {
    PayloadKeeps(req, r);
    hide PayloadOf, Admissible;
    CommittedHasFile(d, KeyOf(r));
    assert FileMatches(d, KeyOf(r), d.markers[req.tx].refs[KeyOf(r)]);
  }

  // ---- The store itself ----

  class ControlRecordStore {
    var files: Payload
    var markers: map<Id, Manifest>
    var locked: bool

    ghost function View(): Disk
      reads this
    {
      Disk(files, markers)
    }

    constructor ()
      ensures View() == Disk(map[], map[]) && !locked
    {
      files, markers, locked := map[], map[], false;
    }

    /** `verify_file_hash` and `_load_record_file` on every reference of a manifest. */
    method VerifyRecords(m: Manifest) returns (ok: bool)
      ensures ok <==> ManifestIntact(View(), m)
    {
      var todo := m.refs.Keys;
      while todo != {}
        invariant todo <= m.refs.Keys
        invariant forall k :: k in m.refs.Keys - todo ==> FileMatches(View(), k, m.refs[k])
        decreases |todo|
      {
        var k :| k in todo;
        if !(k in files && Sha256(files[k]) == m.refs[k] && KeyOf(files[k]) == k) {
          assert !FileMatches(View(), k, m.refs[k]);
          return false;
        }
        todo := todo - {k};
      }
      return true;
    }

    method LoadTransaction(tx: Id) returns (r: Result<Manifest>)
      ensures r == LoadedTransaction(View(), tx)
    {
      if tx !in markers || markers[tx].tx != tx {
        return Err(IntegrityError);
      }
      var ok := VerifyRecords(markers[tx]);
      return if ok then Ok(markers[tx]) else Err(IntegrityError);
    }

    /** The scan of all markers. Two markers naming one file cannot disagree, because both
        digests are checked against that file. */
    method CommittedRecords() returns (r: Result<Payload>)
      ensures r == if Intact(View()) then Ok(CommittedView(View())) else Err(IntegrityError)
    {
      var committed: Payload := map[];
      var todo := markers.Keys;
      while todo != {}
        invariant todo <= markers.Keys
        invariant forall tx :: tx in markers.Keys - todo ==> ManifestIntact(View(), markers[tx])
        invariant forall k :: k in committed <==> NamedBy(markers, markers.Keys - todo, k)
        invariant forall k :: k in committed ==> k in files && committed[k] == files[k]
        decreases |todo|
      {
        var tx :| tx in todo;
        var ok := VerifyRecords(markers[tx]);
        if !ok {
          return Err(IntegrityError);
        }
        var found := ReadRecords(markers[tx]);
        NamedByOneMore(markers, markers.Keys - todo, tx);
        assert markers.Keys - (todo - {tx}) == (markers.Keys - todo) + {tx};
        committed, todo := committed + found, todo - {tx};
      }
      assert markers.Keys - todo == markers.Keys;
      AllNamed(View(), committed);
      return Ok(committed);
    }

    method ReadRecords(m: Manifest) returns (found: Payload)
      requires ManifestIntact(View(), m)
      ensures found.Keys == m.refs.Keys
      ensures forall k :: k in found ==> k in files && found[k] == files[k]
    {
      forall k | k in m.refs ensures k in files { assert FileMatches(View(), k, m.refs[k]); }
      found := map k | k in m.refs :: files[k];
    }

    /** `load_record`: committed records only. */
    method LoadRecord(k: Key) returns (r: Result<Record>)
      ensures r == LoadedRecord(View(), k)
    {
      var committed := CommittedRecords();
      if committed.Err? || k !in committed.value {
        return Err(IntegrityError);
      }
      return Ok(committed.value[k]);
    }

    /** Builds the payload dictionary, rejecting a malformed request before the lock. */
    method BuildPayload(req: Request) returns (r: Result<Payload>)
      ensures r == if Admissible(req) then Ok(PayloadOf(req.records)) else Err(ContractError)
    {
      if req.records == [] {
        return Err(ContractError);
      }
      var payload: Payload := map[];
      var i := 0;
      while i < |req.records|
        invariant 0 <= i <= |req.records|
        invariant payload == PayloadOf(req.records[..i])
        invariant AdmissibleUpTo(req, i)
      {
        var record := req.records[i];
        PayloadStep(req.records, i);
        if !FitsTransaction(record, req.run, req.iteration) || KeyOf(record) in payload {
          return Err(ContractError);
        }
        payload := payload[KeyOf(record) := record];
        i := i + 1;
      }
      assert req.records[..i] == req.records;
      return Ok(payload);
    }

    /** The write loop under the lock: stops at a conflict or when the process dies. */
    method WriteRecords(payload: Payload, crashAfter: nat) returns (writes: nat, stopped: Option<Outcome<Manifest>>)
      requires locked
      modifies this
      ensures OnlyOrphansAdded(old(View()), payload, View())
      ensures stopped.None? ==> writes <= crashAfter && writes <= |payload| && locked
      ensures stopped.None? ==> NoConflict(old(View()), payload) && files == old(files) + payload
      ensures stopped.Some? ==>
        || (stopped.value == Crashed && locked && crashAfter <= |payload|)
        || (stopped.value == Failed(ConflictError) && !locked && !NoConflict(old(View()), payload))
    {
      var todo := payload.Keys;
      writes := 0;
      while todo != {}
        invariant todo <= payload.Keys && writes + |todo| <= |payload|
        invariant locked && writes <= crashAfter && markers == old(markers)
        invariant FilesGrew(old(files), payload, files)
        invariant forall k :: k in payload && k !in todo ==> k in files && files[k] == payload[k]
        decreases |todo|
      {
        if writes == crashAfter {
          return writes, Some(Crashed);
        }
        var k :| k in todo;
        if k in files && files[k] != payload[k] {
          locked := false;
          assert old(files)[k] == files[k];
          return writes, Some(Failed(ConflictError));
        }
        if k !in files {
          files := files[k := payload[k]];
          writes := writes + 1;
        }
        todo := todo - {k};
      }
      AllWritten(old(files), payload, files);
      return writes, None;
    }

    /** `commit`. The process dies when it is about to make durable write `crashAfter + 1`;
        releasing the lock counts as one. */
    method Commit(req: Request, crashAfter: nat) returns (out: Outcome<Manifest>)
      modifies this
      ensures out.Committed? ==>
        && !old(locked) && !locked && out.value == ManifestOf(req)
        && MayCommit(old(View()), req) && View() == Finished(old(View()), req)
      ensures out.Committed? && req.tx !in old(markers) ==>
        forall r :: r in req.records ==> Relies(CommittedView(View()), r)
      ensures out.Failed? ==>
        && (old(locked) || !MayCommit(old(View()), req)) && locked == old(locked)
        && OnlyOrphansAdded(old(View()), PayloadOf(req.records), View())
      ensures out.Crashed? ==>
        && !old(locked) && locked && MayStart(old(View()), req)
        && crashAfter <= |PayloadOf(req.records)| + 1
        && (OnlyOrphansAdded(old(View()), PayloadOf(req.records), View()) || View() == Finished(old(View()), req))
    {
      var built := BuildPayload(req);
      if built.Err? {
        return Failed(ContractError);
      }
      var payload := built.value;
      var manifest := Manifest(req.tx, req.run, req.iteration, req.createdAt, RefsOf(payload));
      if locked {
        return Failed(LockTimeout);
      }
      if req.tx in markers {
        out := LoadExisting(req, manifest);
        return;
      }
      var committed := CommittedRecords();
      if committed.Err? {
        return Failed(IntegrityError);
      }
      if exists k :: k in payload && !DependenciesHold(payload[k], committed.value + payload) {
        return Failed(IntegrityError);
      }
      assert MayStart(View(), req);
      MayStartIff(View(), req);
      if NoConflict(View(), payload) { FinishedView(View(), req); }
      out := CommitUnderLock(req, payload, crashAfter);
    }

    /** The part of `commit` that writes: the records, then the marker. */
    method CommitUnderLock(req: Request, payload: Payload, crashAfter: nat) returns (out: Outcome<Manifest>)
      requires !locked && MayStart(View(), req) && payload == PayloadOf(req.records)
      modifies this
      ensures out.Committed? ==>
        && !locked && out.value == ManifestOf(req)
        && NoConflict(old(View()), payload) && View() == Finished(old(View()), req)
      ensures out.Failed? ==>
        && !locked && !NoConflict(old(View()), payload)
        && OnlyOrphansAdded(old(View()), payload, View())
      ensures out.Crashed? ==>
        && locked && crashAfter <= |payload| + 1
        && (OnlyOrphansAdded(old(View()), payload, View()) || View() == Finished(old(View()), req))
    {
      locked := true;
      var writes, stopped := WriteRecords(payload, crashAfter);
      if stopped.Some? {
        return stopped.value;
      }
      if writes == crashAfter {
        return Crashed;
      }
      markers := markers[req.tx := ManifestOf(req)];
      assert View() == Finished(old(View()), req);
      if writes + 1 == crashAfter {
        return Crashed;
      }
      FinishedIntact(old(View()), req);
      var loaded := LoadTransaction(req.tx);
      locked := false;
      return Committed(loaded.value);
    }

    /** A transaction id that is already in use: only the same manifest is accepted. */
    method LoadExisting(req: Request, manifest: Manifest) returns (out: Outcome<Manifest>)
      requires Admissible(req) && manifest == ManifestOf(req) && req.tx in markers
      ensures out == if AlreadyCommitted(View(), req) then Committed(manifest)
                     else if markers[req.tx] != manifest then Failed(ConflictError)
                     else Failed(IntegrityError)
      ensures out.Committed? ==> View() == Finished(View(), req)
    {
      if markers[req.tx] != manifest {
        return Failed(ConflictError);
      }
      var again := LoadTransaction(req.tx);
      if again.Err? {
        return Failed(IntegrityError);
      }
      FinishedWhenAlreadyCommitted(View(), req);
      return Committed(manifest);
    }
  }

  lemma AllWritten(before: Payload, p: Payload, after: Payload)
    requires FilesGrew(before, p, after)
    requires forall k :: k in p ==> k in after && after[k] == p[k]
    ensures after == before + p
    ensures forall k :: k in p && k in before ==> before[k] == p[k]
  {
  }

  ghost predicate NamedBy(markers: map<Id, Manifest>, done: set<Id>, k: Key) {
    exists tx :: tx in done && tx in markers && k in markers[tx].refs
  }

  lemma NamedByOneMore(markers: map<Id, Manifest>, done: set<Id>, tx: Id)
    requires tx in markers
    ensures forall k :: NamedBy(markers, done + {tx}, k) <==> NamedBy(markers, done, k) || k in markers[tx].refs
  {
    forall k | NamedBy(markers, done, k) ensures NamedBy(markers, done + {tx}, k) {
      var t :| t in done && t in markers && k in markers[t].refs;
      assert t in done + {tx};
    }
    forall k | k in markers[tx].refs ensures NamedBy(markers, done + {tx}, k) {
      assert tx in done + {tx};
    }
  }

  lemma AllNamed(d: Disk, committed: Payload)
    requires forall k :: k in committed <==> NamedBy(d.markers, d.markers.Keys, k)
    requires forall k :: k in committed ==> k in d.files && committed[k] == d.files[k]
    ensures committed == CommittedView(d)
  {
    forall k ensures NamedBy(d.markers, d.markers.Keys, k) <==> IsCommitted(d, k) {}
    assert committed.Keys == CommittedView(d).Keys;
  }

  ghost predicate AdmissibleUpTo(req: Request, n: nat)
    requires n <= |req.records|
  {
    && (forall i :: 0 <= i < n ==> FitsTransaction(req.records[i], req.run, req.iteration))
    && (forall i, j :: 0 <= i < j < n ==> KeyOf(req.records[i]) != KeyOf(req.records[j]))
  }

  lemma PayloadStep(records: seq<Record>, i: nat)
    requires i < |records|
    ensures PayloadOf(records[..i + 1]) == PayloadOf(records[..i])[KeyOf(records[i]) := records[i]]
    ensures KeyOf(records[i]) in PayloadOf(records[..i]) <==> exists n :: 0 <= n < i && KeyOf(records[n]) == KeyOf(records[i])
  {
    assert records[..i + 1][..i] == records[..i];
    PayloadFacts(records[..i]);
    var p, k := PayloadOf(records[..i]), KeyOf(records[i]);
    if k in p {
      var n :| 0 <= n < i && records[..i][n] == p[k];
      assert KeyOf(records[n]) == k;
    }
    if n :| 0 <= n < i && KeyOf(records[n]) == k {
      assert records[n] in records[..i];
    }
  }
}
