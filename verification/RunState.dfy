/** latest_snapshot: which committed snapshot a restarted controller continues from. */
module RunState {
  import opened Records
  import opened ControlStore
  import opened ControlProtocol

  /** The sort key is (time, iteration, id); `rank` is the order of identifiers as text. */
  predicate NotAfter(rank: Id -> int, a: StateSnapshot, b: StateSnapshot) {
    || a.enteredAt < b.enteredAt
    || (a.enteredAt == b.enteredAt && a.iteration < b.iteration)
    || (a.enteredAt == b.enteredAt && a.iteration == b.iteration && rank(a.id) <= rank(b.id))
  }

  predicate InView(view: Payload, run: Id, s: StateSnapshot) {
    && s.run == run
    && Key(SnapshotKind, s.id) in view
    && view[Key(SnapshotKind, s.id)] == SnapshotRecord(s)
  }

  ghost predicate IsLatest(view: Payload, run: Id, rank: Id -> int, s: StateSnapshot) {
    && InView(view, run, s)
    && forall t :: InView(view, run, t) ==> NotAfter(rank, t, s)
  }

  /** Later than every other committed snapshot of its run, whatever the tie-breaks. */
  ghost predicate IsHead(view: Payload, run: Id, head: StateSnapshot) {
    && InView(view, run, head)
    && forall t :: InView(view, run, t) && t != head ==> t.enteredAt < head.enteredAt
  }

  /** A head is what `latest_snapshot` returns, and nothing else is. */
  lemma HeadIsLatest(view: Payload, run: Id, rank: Id -> int, head: StateSnapshot, s: StateSnapshot)
    requires IsHead(view, run, head)
    ensures IsLatest(view, run, rank, s) <==> s == head
  {
    assert IsLatest(view, run, rank, head);
  }

  /** Sorted by time, then iteration, then id as text. */
  predicate SortsLast(rank: Id -> int, t: StateSnapshot, s: StateSnapshot) {
    && t.enteredAt <= s.enteredAt
    && (t.enteredAt == s.enteredAt ==> t.iteration <= s.iteration)
    && (t.enteredAt == s.enteredAt && t.iteration == s.iteration ==> rank(t.id) <= rank(s.id))
  }

  /** Exactly which committed snapshots of a run can be its latest. */
  lemma IsLatestIff(view: Payload, run: Id, rank: Id -> int, s: StateSnapshot)
    ensures IsLatest(view, run, rank, s) <==>
      && InView(view, run, s)
      && forall k :: k in view && view[k].SnapshotRecord? && InView(view, run, view[k].snapshot) ==>
           SortsLast(rank, view[k].snapshot, s)
  {
    forall t ensures NotAfter(rank, t, s) <==> SortsLast(rank, t, s) {}
    hide NotAfter, SortsLast;
    forall t | InView(view, run, t) ensures view[Key(SnapshotKind, t.id)].snapshot == t {}
    if InView(view, run, s) && forall k :: k in view && view[k].SnapshotRecord? && InView(view, run, view[k].snapshot) ==>
                                  SortsLast(rank, view[k].snapshot, s) {
      forall t | InView(view, run, t) ensures NotAfter(rank, t, s) {
        assert view[Key(SnapshotKind, t.id)].SnapshotRecord?;
      }
    }
  }

  lemma NotAfterTransitive(rank: Id -> int, a: StateSnapshot, b: StateSnapshot, c: StateSnapshot)
    requires NotAfter(rank, a, b) && NotAfter(rank, b, c)
    ensures NotAfter(rank, a, c)
  {
  }

  lemma Later(rank: Id -> int, a: StateSnapshot, b: StateSnapshot)
    ensures NotAfter(rank, a, b) || NotAfter(rank, b, a)
    ensures NotAfter(rank, a, a)
  {
  }

  lemma {:induction false} LatestAmong(rank: Id -> int, some: set<StateSnapshot>) returns (best: StateSnapshot)
    requires some != {}
    ensures best in some
    ensures forall s :: s in some ==> NotAfter(rank, s, best)
    decreases |some|
  {
    hide NotAfter;
    var one :| one in some;
    var rest := some - {one};
    best := one;
    Later(rank, one, one);
    if rest != {} {
      var other := LatestAmong(rank, rest);
      Later(rank, one, other);
      if NotAfter(rank, one, other) { best := other; }
      forall s | s in some ensures NotAfter(rank, s, best) {
        if s != one {
          assert s in rest;
          if best == one { NotAfterTransitive(rank, s, other, one); }
        }
      }
    } else {
      assert some == {one};
    }
  }

  /** A run with a committed snapshot has a latest one. */
  lemma LatestExists(view: Payload, run: Id, rank: Id -> int, s: StateSnapshot) returns (best: StateSnapshot)
    requires InView(view, run, s)
    ensures IsLatest(view, run, rank, best)
  {
    var records := set k | k in view && view[k].SnapshotRecord? && InView(view, run, view[k].snapshot) :: view[k].snapshot;
    forall x | InView(view, run, x) ensures x in records {
      assert view[Key(SnapshotKind, x.id)].snapshot == x;
    }
    best := LatestAmong(rank, records);
  }

  lemma TiedIsLatest(view: Payload, run: Id, rank: Id -> int, s: StateSnapshot, x: StateSnapshot)
    requires IsLatest(view, run, rank, s) && InView(view, run, x)
    ensures NotAfter(rank, s, x) ==> IsLatest(view, run, rank, x)
  {
    hide InView;
    if NotAfter(rank, s, x) {
      forall y | InView(view, run, y) ensures NotAfter(rank, y, x) { NotAfterTransitive(rank, y, s, x); }
    }
  }

  /** A committed snapshot is the only latest one exactly when it sorts strictly after all others. */
  lemma OnlyLatestIff(view: Payload, run: Id, rank: Id -> int, head: StateSnapshot)
    requires InView(view, run, head)
    ensures (forall x :: IsLatest(view, run, rank, x) ==> x == head) <==>
            (forall x :: InView(view, run, x) && x != head ==> !NotAfter(rank, head, x))
  {
    var best := LatestExists(view, run, rank, head);
    hide InView, NotAfter;
    if forall x :: IsLatest(view, run, rank, x) ==> x == head {
      assert best == head;
      forall x | InView(view, run, x) && x != head ensures !NotAfter(rank, head, x) {
        TiedIsLatest(view, run, rank, head, x);
      }
    }
  }

  /** A snapshot of the run named by one of these transactions of the run. */
  ghost predicate NamedByRun(d: Disk, run: Id, done: set<Id>, s: StateSnapshot) {
    exists tx :: tx in done && tx in d.markers && NamedIn(d, run, d.markers[tx], d.markers[tx].refs.Keys, s)
  }

  /** What `latest_snapshot` can return: nothing of the run sorts after it. */
  ghost predicate IsScanned(d: Disk, run: Id, rank: Id -> int, s: StateSnapshot) {
    && NamedByRun(d, run, d.markers.Keys, s)
    && forall t :: NamedByRun(d, run, d.markers.Keys, t) ==> NotAfter(rank, t, s)
  }

  ghost predicate NothingNamed(d: Disk, run: Id) {
    forall s :: !NamedByRun(d, run, d.markers.Keys, s)
  }

  ghost predicate NamedIn(d: Disk, run: Id, m: Manifest, keys: set<Key>, s: StateSnapshot) {
    var k := Key(SnapshotKind, s.id);
    m.run == run && s.run == run && k in keys && k in d.files && d.files[k] == SnapshotRecord(s)
  }

  /** On a well-shaped disk those are the committed snapshots of the run. */
  lemma ListedIsInView(d: Disk, run: Id, s: StateSnapshot)
    requires Intact(d) && Shaped(d)
    ensures NamedByRun(d, run, d.markers.Keys, s) <==> InView(CommittedView(d), run, s)
  {
    var k := Key(SnapshotKind, s.id);
    if InView(CommittedView(d), run, s) {
      var tx :| tx in d.markers && k in d.markers[tx].refs;
      assert FitsTransaction(d.files[k], d.markers[tx].run, d.markers[tx].iteration);
      assert NamedIn(d, run, d.markers[tx], d.markers[tx].refs.Keys, s);
    }
  }

  ghost predicate AllLoad(d: Disk) {
    forall tx :: tx in d.markers ==> LoadedTransaction(d, tx).Ok?
  }

  /** The snapshots one transaction of the run names. */
  method SnapshotsIn(control: ControlRecordStore, run: Id, m: Manifest) returns (r: Result<seq<StateSnapshot>>)
    requires ManifestIntact(control.View(), m) && m in control.markers.Values
    ensures r.Err? ==> !Intact(control.View())
    ensures r.Ok? ==> forall s :: s in r.value <==> NamedIn(control.View(), run, m, m.refs.Keys, s)
  {
    if m.run != run {
      return Ok([]);
    }
    var found: seq<StateSnapshot> := [];
    var todo := m.refs.Keys;
    while todo != {}
      invariant todo <= m.refs.Keys
      invariant forall s :: s in found <==> NamedIn(control.View(), run, m, m.refs.Keys - todo, s)
      decreases |todo|
    {
      var k :| k in todo;
      assert FileMatches(control.View(), k, m.refs[k]);
      if k.kind == SnapshotKind {
        var loaded := control.LoadRecord(k);
        if loaded.Err? {
          NamedIsCommitted(control.View(), m, k);
          return Err(IntegrityError);
        }
        if loaded.value.snapshot.run == run {
          found := found + [loaded.value.snapshot];
        }
      }
      todo := todo - {k};
    }
    assert m.refs.Keys - todo == m.refs.Keys;
    return Ok(found);
  }

  lemma NamedIsCommitted(d: Disk, m: Manifest, k: Key)
    requires m in d.markers.Values && k in m.refs
    ensures Intact(d) ==> k in CommittedView(d)
  {
    var tx :| tx in d.markers && d.markers[tx] == m;
    assert IsCommitted(d, k);
    if Intact(d) { CommittedHasFile(d, k); }
  }

  /** `max(candidates, key=...)`. */
  method Latest(candidates: seq<StateSnapshot>, rank: Id -> int) returns (best: StateSnapshot)
    requires candidates != []
    ensures best in candidates
    ensures forall s :: s in candidates ==> NotAfter(rank, s, best)
    ensures forall s :: s in candidates ==> SortsLast(rank, s, best)
  {
    best := candidates[0];
    var i := 1;
    while i < |candidates|
      invariant 1 <= i <= |candidates|
      invariant best in candidates[..i]
      invariant forall j :: 0 <= j < i ==> NotAfter(rank, candidates[j], best)
    {
      if !NotAfter(rank, candidates[i], best) {
        best := candidates[i];
      }
      i := i + 1;
    }
  }

  /** `latest_snapshot`: fails exactly when some transaction does not load. */
  method LatestSnapshot(control: ControlRecordStore, run: Id, rank: Id -> int)
    returns (r: Result<Option<StateSnapshot>>)
    ensures r.Err? <==> !AllLoad(control.View())
    ensures r.Ok? && r.value.None? ==> NothingNamed(control.View(), run)
    ensures r.Ok? && r.value.Some? ==> IsScanned(control.View(), run, rank, r.value.value)
  {
    var candidates: seq<StateSnapshot> := [];
    var todo := control.markers.Keys;
    while todo != {}
      invariant todo <= control.markers.Keys
      invariant forall tx :: tx in control.markers.Keys - todo ==> LoadedTransaction(control.View(), tx).Ok?
      invariant forall s :: s in candidates <==> NamedByRun(control.View(), run, control.markers.Keys - todo, s)
      decreases |todo|
    {
      var tx :| tx in todo;
      var m := control.LoadTransaction(tx);
      if m.Err? {
        return Err(IntegrityError);
      }
      var found := SnapshotsIn(control, run, m.value);
      if found.Err? {
        return Err(IntegrityError);
      }
      OneMoreListed(control.View(), run, control.markers.Keys - todo, tx);
      assert control.markers.Keys - (todo - {tx}) == control.markers.Keys - todo + {tx};
      candidates, todo := candidates + found.value, todo - {tx};
    }
    assert control.markers.Keys - todo == control.markers.Keys;
    if candidates == [] {
      return Ok(None);
    }
    var best := Latest(candidates, rank);
    return Ok(Some(best));
  }

  lemma OneMoreListed(d: Disk, run: Id, done: set<Id>, tx: Id)
    requires tx in d.markers
    ensures forall s :: NamedByRun(d, run, done + {tx}, s) <==>
      NamedByRun(d, run, done, s) || NamedIn(d, run, d.markers[tx], d.markers[tx].refs.Keys, s)
  {
    forall s | NamedByRun(d, run, done, s) ensures NamedByRun(d, run, done + {tx}, s) {
      var t :| t in done && t in d.markers && NamedIn(d, run, d.markers[t], d.markers[t].refs.Keys, s);
      assert t in done + {tx};
    }
    forall s | NamedIn(d, run, d.markers[tx], d.markers[tx].refs.Keys, s) ensures NamedByRun(d, run, done + {tx}, s) {
      assert tx in done + {tx};
    }
  }

  /** On a disk the protocol can reach, the scan returns exactly the latest of the view. */
  lemma ScanIsLatest(d: Disk, run: Id, rank: Id -> int, s: StateSnapshot)
    requires Intact(d) && Shaped(d)
    ensures IsScanned(d, run, rank, s) <==> IsLatest(CommittedView(d), run, rank, s)
  {
    hide NamedByRun, InView, NotAfter, CommittedView, Intact, Shaped;
    forall t ensures NamedByRun(d, run, d.markers.Keys, t) <==> InView(CommittedView(d), run, t) { ListedIsInView(d, run, t); }
  }

  /** On a disk the protocol can reach, the scan finds the head of the run, for every history
      length and whatever the order of identifiers. */
  lemma ScanFindsHead(d: Disk, run: Id, rank: Id -> int, head: StateSnapshot, s: StateSnapshot)
    requires Intact(d) && Shaped(d) && IsHead(CommittedView(d), run, head)
    requires IsScanned(d, run, rank, s)
    ensures s == head
  {
    ListedIsInView(d, run, s);
    ListedIsInView(d, run, head);
  }
}
