/** Verifying a recovery bundle and restoring it into a new directory. */
module RecoveryStaging {
  import opened Records
  import opened RecoveryBundle

  /** What a directory gets that is created only because something lies below it. */
  const IMPLICIT_MODE: Mode := 493
  /** What directories have while files are written into them. */
  const PRIVATE_MODE: Mode := 448

  // ---- Verification ----

  /** The part of `verify_bundle` that looks at the bundle directory. */
  method VerifyBlobs(b: Bundle) returns (ok: bool)
    ensures ok <==>
      && b.extras == {}
      && (forall e :: e in b.manifest.content.entries ==> BlobHolds(b.blobs, e))
      && b.blobs.Keys == Referenced(b.manifest.content.entries)
  {
    var entries := b.manifest.content.entries;
    if b.extras != {} {
      return false;
    }
    var referenced: set<Sha<Bytes>> := {};
    var i := 0;
    while i < |entries|
      invariant 0 <= i <= |entries|
      invariant forall e :: e in entries[..i] ==> BlobHolds(b.blobs, e)
      invariant referenced == Referenced(entries[..i])
    {
      var e := entries[i];
      assert entries[..i + 1] == entries[..i] + [e];
      CountsOneMore(entries[..i], e);
      if e.FileEntry? {
        referenced := referenced + {e.sha};
        if !(e.sha in b.blobs && b.blobs[e.sha].Blob?
             && Sha256(b.blobs[e.sha].bytes) == e.sha && |b.blobs[e.sha].bytes| == e.size) {
          assert !BlobHolds(b.blobs, e);
          return false;
        }
      }
      i := i + 1;
    }
    assert entries[..i] == entries;
    return b.blobs.Keys == referenced;
  }

  /** `verify_bundle`: load the manifest, then look at the directory. */
  method VerifyBundle(b: Bundle, rank: Path -> int) returns (ok: bool)
    ensures ok <==> Verifies(rank, b)
  {
    if !ValidManifest(rank, b.manifest) {
      return false;
    }
    ok := VerifyBlobs(b);
  }

  // ---- The filesystem calls staging makes ----

  /** `mkdir(parents=True, exist_ok=True)`: fails if a file is in the way. */
  function WithParents(t: Tree, p: Path): Option<Tree>
    decreases |p|
  {
    if p == [] then Some(t)
    else if p in t then (if t[p].Directory? then Some(t) else None)
    else
      var above := WithParents(t, Parent(p));
      if above.None? then None else Some(above.value[p := Directory(IMPLICIT_MODE)])
  }

  /** `mkdir(parents=True, exist_ok=False)` and then `chmod`. */
  function WithDirectory(t: Tree, p: Path): Option<Tree>
    requires p != []
  {
    if p in t then None
    else
      var above := WithParents(t, Parent(p));
      if above.None? then None else Some(above.value[p := Directory(PRIVATE_MODE)])
  }

  /** Parents, then an exclusive create. */
  function WithFile(t: Tree, e: Entry): Option<Tree>
    requires e.FileEntry? && e.path != []
  {
    var above := WithParents(t, Parent(e.path));
    if above.None? || e.path in above.value then None
    else Some(above.value[e.path := File(e.mode, e.sha.of)])
  }

  predicate NonEmptyPaths(paths: seq<Path>) {
    forall i :: 0 <= i < |paths| ==> paths[i] != []
  }

  function WithDirectories(paths: seq<Path>): Option<Tree>
    requires NonEmptyPaths(paths)
  {
    if paths == [] then Some(map[])
    else
      var before := WithDirectories(paths[..|paths| - 1]);
      if before.None? then None else WithDirectory(before.value, paths[|paths| - 1])
  }

  function WithFiles(t: Tree, entries: seq<Entry>): Option<Tree>
    requires forall e :: e in entries ==> e.path != []
  {
    if entries == [] then Some(t)
    else
      var before, e := WithFiles(t, entries[..|entries| - 1]), entries[|entries| - 1];
      if before.None? || e.DirectoryEntry? then before else WithFile(before.value, e)
  }

  /** The final `chmod` of every directory. */
  function WithModes(t: Tree, paths: seq<Path>, want: Tree): Tree
    requires forall p :: p in paths ==> p in want && want[p].Directory?
  {
    if paths == [] then t
    else
      var p := paths[|paths| - 1];
      WithModes(t, paths[..|paths| - 1], want)[p := want[p]]
  }

  // ---- The tree a manifest describes ----

  function NodeOf(e: Entry): Node {
    match e
    case DirectoryEntry(_, mode) => Directory(mode)
    case FileEntry(_, mode, _, sha) => File(mode, sha.of)
  }

  function TreeOf(entries: seq<Entry>): Tree {
    if entries == [] then map[]
    else TreeOf(entries[..|entries| - 1])[entries[|entries| - 1].path := NodeOf(entries[|entries| - 1])]
  }

  /** Every path above an entry is a directory entry. */
  ghost predicate ClosedUnderParents(entries: seq<Entry>) {
    forall e, n :: e in entries && 0 < n < |e.path| ==> DirectoryListed(entries, e.path[..n])
  }

  ghost predicate DirectoryListed(entries: seq<Entry>, p: Path) {
    exists e :: e in entries && e.DirectoryEntry? && e.path == p
  }

  /** `_verify_directory_against_manifest`. */
  ghost predicate Matches(t: Tree, entries: seq<Entry>) {
    && (forall p :: p in t ==> !t[p].SymbolicLink?)
    && (forall p :: p in t <==> p in PathsOf(entries))
    && forall e :: e in entries ==> NodeMatches(t, e)
  }

  predicate NodeMatches(t: Tree, e: Entry) {
    && e.path in t
    && (match e
        case DirectoryEntry(p, mode) => t[p] == Directory(mode)
        case FileEntry(p, mode, size, sha) =>
          t[p].File? && t[p].mode == mode && Sha256(t[p].bytes) == sha && |t[p].bytes| == size)
  }

  // ---- The manifest's tree, and what it means to match it ----

  lemma {:induction false} TreeOfAt(entries: seq<Entry>, i: nat)
    requires NoRepeats(PathsOf(entries)) && i < |entries|
    ensures entries[i].path in TreeOf(entries) && TreeOf(entries)[entries[i].path] == NodeOf(entries[i])
  {
    var k := |entries| - 1;
    if i < k {
      InitHasNoRepeats(entries);
      TreeOfAt(entries[..k], i);
      assert PathsOf(entries)[i] != PathsOf(entries)[k];
    }
  }

  lemma InitHasNoRepeats(entries: seq<Entry>)
    requires NoRepeats(PathsOf(entries)) && entries != []
    ensures NoRepeats(PathsOf(entries[..|entries| - 1]))
    ensures entries[|entries| - 1].path !in PathsOf(entries[..|entries| - 1])
  {
    var k := |entries| - 1;
    forall i, j | 0 <= i < j < k ensures entries[..k][i].path != entries[..k][j].path {
      assert PathsOf(entries)[i] != PathsOf(entries)[j];
    }
    forall i | 0 <= i < k ensures entries[..k][i].path != entries[k].path {
      assert PathsOf(entries)[i] != PathsOf(entries)[k];
    }
  }

  lemma {:induction false} TreeOfKeys(entries: seq<Entry>, p: Path)
    ensures p in TreeOf(entries) <==> p in PathsOf(entries)
  {
    if entries != [] {
      var k := |entries| - 1;
      TreeOfKeys(entries[..k], p);
      assert PathsOf(entries) == PathsOf(entries[..k]) + [entries[k].path];
    }
  }

  /** Sizes are those of the contents, which is what verified blobs guarantee. */
  ghost predicate SizesFit(entries: seq<Entry>) {
    forall e :: e in entries && e.FileEntry? ==> e.size == |e.sha.of|
  }

  lemma VerifiedSizesFit(b: Bundle)
    requires forall e :: e in b.manifest.content.entries ==> BlobHolds(b.blobs, e)
    ensures SizesFit(b.manifest.content.entries)
  {
  }

  /** Only one tree matches a manifest. */
  lemma MatchesIffTreeOf(t: Tree, entries: seq<Entry>)
    requires NoRepeats(PathsOf(entries)) && SizesFit(entries)
    ensures Matches(t, entries) <==> t == TreeOf(entries)
  {
    forall p ensures p in TreeOf(entries) <==> p in PathsOf(entries) { TreeOfKeys(entries, p); }
    forall e | e in entries ensures e.path in TreeOf(entries) && TreeOf(entries)[e.path] == NodeOf(e) {
      var i :| 0 <= i < |entries| && entries[i] == e;
      TreeOfAt(entries, i);
    }
    hide TreeOf;
    if Matches(t, entries) {
      assert t.Keys == TreeOf(entries).Keys;
      forall p | p in t ensures t[p] == TreeOf(entries)[p] {
        var i :| 0 <= i < |entries| && PathsOf(entries)[i] == p;
        assert NodeMatches(t, entries[i]);
      }
    } else if t == TreeOf(entries) {
      forall e | e in entries ensures NodeMatches(t, e) {}
      forall p | p in t ensures !t[p].SymbolicLink? {
        var i :| 0 <= i < |entries| && PathsOf(entries)[i] == p;
        assert t[p] == NodeOf(entries[i]);
      }
    }
  }

  // ---- Staging only ever builds well-formed trees ----

  lemma {:induction false} ParentsKeepForm(t: Tree, p: Path)
    requires WellFormed(t) && WithParents(t, p).Some?
    ensures var after := WithParents(t, p).value;
      && WellFormed(after) && (p == [] || (p in after && after[p].Directory?))
      && (forall q :: q in t ==> q in after && after[q] == t[q])
      && forall q :: q in after && q !in t ==> q <= p && after[q] == Directory(493)
    decreases |p|
  {
    if p != [] && p !in t {
      ParentsKeepForm(t, Parent(p));
      ParentsStayShort(t, Parent(p), p);
      AddedKeepsForm(WithParents(t, Parent(p)).value, p, Directory(IMPLICIT_MODE));
    }
  }

  lemma AddedKeepsForm(t: Tree, p: Path, n: Node)
    requires WellFormed(t) && p != [] && (p in t ==> t[p].Directory? && n.Directory?)
    requires Parent(p) == [] || (Parent(p) in t && t[Parent(p)].Directory?)
    ensures WellFormed(t[p := n])
  {
  }

  lemma {:induction false} DirectoriesKeepForm(paths: seq<Path>)
    requires NonEmptyPaths(paths) && WithDirectories(paths).Some?
    ensures WellFormed(WithDirectories(paths).value)
    ensures forall p :: p in paths ==> p in WithDirectories(paths).value && WithDirectories(paths).value[p] == Directory(448)
  {
    if paths != [] {
      var rest, p := paths[..|paths| - 1], paths[|paths| - 1];
      DirectoriesKeepForm(rest);
      var before := WithDirectories(rest).value;
      ParentsKeepForm(before, Parent(p));
      var above := WithParents(before, Parent(p)).value;
      ParentsStayShort(before, Parent(p), p);
      AddedKeepsForm(above, p, Directory(PRIVATE_MODE));
      assert rest + [p] == paths;
    }
  }

  /** Creating parents creates nothing longer than them. */
  lemma {:induction false} ParentsStayShort(t: Tree, p: Path, q: Path)
    requires WithParents(t, p).Some? && |p| < |q|
    ensures q in WithParents(t, p).value <==> q in t
    decreases |p|
  {
    if p != [] && p !in t { ParentsStayShort(t, Parent(p), q); }
  }

  lemma {:induction false} FilesKeepForm(t: Tree, entries: seq<Entry>)
    requires WellFormed(t) && (forall e :: e in entries ==> e.path != []) && WithFiles(t, entries).Some?
    ensures WellFormed(WithFiles(t, entries).value)
    ensures forall p :: p in t ==> p in WithFiles(t, entries).value && WithFiles(t, entries).value[p] == t[p]
  {
    if entries != [] {
      var rest, e := entries[..|entries| - 1], entries[|entries| - 1];
      FilesKeepForm(t, rest);
      if e.FileEntry? {
        var before := WithFiles(t, rest).value;
        ParentsKeepForm(before, Parent(e.path));
        AddedKeepsForm(WithParents(before, Parent(e.path)).value, e.path, File(e.mode, e.sha.of));
      }
    }
  }

  lemma {:induction false} PrefixesAreDirectories(t: Tree, p: Path, n: nat)
    requires WellFormed(t) && p in t && 0 < n < |p|
    ensures p[..n] in t && t[p[..n]].Directory?
    decreases |p|
  {
    if n == |p| - 1 {
      assert p[..n] == Parent(p);
    } else {
      PrefixesAreDirectories(t, Parent(p), n);
      assert Parent(p)[..n] == p[..n];
    }
  }

  /** A well-formed tree only matches a manifest that is closed under parents. */
  lemma MatchedIsClosed(t: Tree, entries: seq<Entry>)
    requires WellFormed(t) && Matches(t, entries)
    ensures ClosedUnderParents(entries)
  {
    forall e, n | e in entries && 0 < n < |e.path| ensures DirectoryListed(entries, e.path[..n]) {
      assert NodeMatches(t, e);
      PrefixesAreDirectories(t, e.path, n);
      var i :| 0 <= i < |entries| && PathsOf(entries)[i] == e.path[..n];
      assert NodeMatches(t, entries[i]);
    }
  }

  lemma {:induction false} ModesKeepForm(t: Tree, paths: seq<Path>, want: Tree)
    requires WellFormed(t) && forall p :: p in paths ==> p in want && want[p].Directory? && p in t && t[p].Directory?
    ensures WellFormed(WithModes(t, paths, want)) && WithModes(t, paths, want).Keys == t.Keys
    ensures forall p :: p in t ==>
      WithModes(t, paths, want)[p] == if p in paths then want[p] else t[p]
  {
    if paths != [] {
      var rest, p := paths[..|paths| - 1], paths[|paths| - 1];
      ModesKeepForm(t, rest, want);
      assert rest + [p] == paths;
      AddedKeepsForm(WithModes(t, rest, want), p, want[p]);
    }
  }

  // ---- When the path set is closed, staging meets no obstacle ----

  function Directories(entries: seq<Entry>): set<Path> {
    set e | e in entries && e.DirectoryEntry? :: e.path
  }

  /** Parents come before what lies below them. */
  ghost predicate ParentsFirst(paths: seq<Path>) {
    forall i :: 0 <= i < |paths| ==> paths[i] != [] && (Parent(paths[i]) == [] || Parent(paths[i]) in paths[..i])
  }

  lemma ShallowerComesFirst(rank: Path -> int, paths: seq<Path>, i: nat, j: nat)
    requires Sorted(ShallowFirst, rank, paths) && i < |paths| && j < |paths| && |paths[i]| < |paths[j]|
    ensures i < j
  {
  }

  lemma ShallowFirstIsParentsFirst(entries: seq<Entry>, rank: Path -> int, paths: seq<Path>)
    requires ClosedUnderParents(entries) && Lists(paths, Directories(entries)) && Sorted(ShallowFirst, rank, paths)
    requires NonEmptyPaths(paths)
    ensures ParentsFirst(paths)
  {
    forall i | 0 <= i < |paths| && Parent(paths[i]) != [] ensures Parent(paths[i]) in paths[..i] {
      var p := paths[i];
      assert p in Directories(entries);
      var e :| e in entries && e.DirectoryEntry? && e.path == p;
      assert DirectoryListed(entries, e.path[..|p| - 1]);
      assert Parent(p) in Directories(entries);
      var j :| 0 <= j < |paths| && paths[j] == Parent(p);
      ShallowerComesFirst(rank, paths, j, i);
    }
  }

  function PrivateDirectories(paths: seq<Path>): Tree {
    map p | p in paths :: Directory(PRIVATE_MODE)
  }

  lemma MakeOneMore(paths: seq<Path>, p: Path)
    requires p != [] && p !in paths && (Parent(p) == [] || Parent(p) in paths)
    ensures WithDirectory(PrivateDirectories(paths), p) == Some(PrivateDirectories(paths + [p]))
  {
    var t := PrivateDirectories(paths);
    assert WithParents(t, Parent(p)) == Some(t);
    assert t[p := Directory(PRIVATE_MODE)] == PrivateDirectories(paths + [p]);
  }

  lemma {:induction false} DirectoriesAreMade(paths: seq<Path>)
    requires NonEmptyPaths(paths) && ParentsFirst(paths) && NoRepeats(paths)
    ensures WithDirectories(paths) == Some(PrivateDirectories(paths))
  {
    hide PrivateDirectories, WithDirectory;
    if paths == [] {
      assert PrivateDirectories([]) == map[] by { NoDirectories(); }
    } else {
      var k := |paths| - 1;
      var rest := paths[..k];
      forall i | 0 <= i < k ensures Parent(rest[i]) == [] || Parent(rest[i]) in rest[..i] {
        assert rest[..i] == paths[..i];
      }
      DirectoriesAreMade(rest);
      assert paths == rest + [paths[k]];
      MakeOneMore(rest, paths[k]);
    }
  }

  lemma NoDirectories()
    ensures PrivateDirectories([]) == map[]
  {
  }

  /** The tree after the first entries: every directory, and the files among them. */
  ghost predicate Holds(t: Tree, dirs: seq<Path>, entries: seq<Entry>) {
    && (forall p :: p in t <==> p in dirs || FileListed(entries, p))
    && (forall p :: p in dirs ==> p in t && t[p] == Directory(PRIVATE_MODE))
    && (forall e :: e in entries && e.FileEntry? ==> e.path in t && t[e.path] == NodeOf(e))
  }

  ghost predicate FileListed(entries: seq<Entry>, p: Path) {
    exists e :: e in entries && e.FileEntry? && e.path == p
  }

  ghost predicate ParentsIn(entries: seq<Entry>, dirs: seq<Path>) {
    forall e :: e in entries && e.FileEntry? ==> e.path != [] && (Parent(e.path) == [] || Parent(e.path) in dirs)
  }

  ghost predicate FilesApart(entries: seq<Entry>, dirs: seq<Path>) {
    forall e :: e in entries && e.FileEntry? ==> e.path !in dirs
  }

  lemma {:induction false} FilesAreWritten(dirs: seq<Path>, entries: seq<Entry>)
    requires (forall e :: e in entries ==> e.path != []) && NoRepeats(PathsOf(entries))
    requires ParentsIn(entries, dirs) && FilesApart(entries, dirs)
    ensures var r := WithFiles(PrivateDirectories(dirs), entries); r.Some? && Holds(r.value, dirs, entries)
  {
    if entries != [] {
      var rest, e := entries[..|entries| - 1], entries[|entries| - 1];
      InitHasNoRepeats(entries);
      assert entries == rest + [e];
      FilesAreWritten(dirs, rest);
      var before := WithFiles(PrivateDirectories(dirs), rest).value;
      hide Holds, PrivateDirectories, WithFile;
      if e.FileEntry? {
        forall f | f in rest ensures f.path != e.path { assert f.path in PathsOf(rest); }
        WriteOneMore(before, dirs, rest, e);
        HoldsOneMore(before, dirs, rest, e);
      } else {
        HoldsWithDirectory(before, dirs, rest, e);
      }
    }
  }

  lemma WriteOneMore(t: Tree, dirs: seq<Path>, entries: seq<Entry>, e: Entry)
    requires Holds(t, dirs, entries) && e.FileEntry? && e.path != [] && e.path !in dirs
    requires Parent(e.path) == [] || Parent(e.path) in dirs
    requires forall f :: f in entries ==> f.path != e.path
    ensures e.path !in t && WithFile(t, e) == Some(t[e.path := NodeOf(e)])
  {
    assert WithParents(t, Parent(e.path)) == Some(t);
  }

  lemma HoldsOneMore(t: Tree, dirs: seq<Path>, entries: seq<Entry>, e: Entry)
    requires Holds(t, dirs, entries) && e.FileEntry? && e.path !in t
    ensures Holds(t[e.path := NodeOf(e)], dirs, entries + [e])
  {
    forall p ensures FileListed(entries + [e], p) <==> FileListed(entries, p) || p == e.path {
      assert e in entries + [e];
      if FileListed(entries, p) {
        var f :| f in entries && f.FileEntry? && f.path == p;
        assert f in entries + [e];
      }
    }
  }

  lemma HoldsWithDirectory(t: Tree, dirs: seq<Path>, entries: seq<Entry>, e: Entry)
    requires Holds(t, dirs, entries) && e.DirectoryEntry?
    ensures Holds(t, dirs, entries + [e])
  {
    forall p ensures FileListed(entries + [e], p) <==> FileListed(entries, p) {
      if FileListed(entries, p) {
        var f :| f in entries && f.FileEntry? && f.path == p;
        assert f in entries + [e];
      }
    }
  }

  // ---- Staging ----

  function StagedTree(entries: seq<Entry>, shallow: seq<Path>): Option<Tree>
    requires NonEmptyPaths(shallow) && forall e :: e in entries ==> e.path != []
  {
    var made := WithDirectories(shallow);
    if made.None? then None else WithFiles(made.value, entries)
  }

  /** The two listings of the directory entries that staging uses. */
  ghost predicate IsPlan(entries: seq<Entry>, rank: Path -> int, shallow: seq<Path>, deep: seq<Path>) {
    && NoRepeats(PathsOf(entries)) && (forall e :: e in entries ==> e.path != [])
    && Lists(shallow, Directories(entries)) && Sorted(ShallowFirst, rank, shallow)
    && Lists(deep, Directories(entries))
  }

  lemma PlanPaths(entries: seq<Entry>, rank: Path -> int, shallow: seq<Path>, deep: seq<Path>)
    requires IsPlan(entries, rank, shallow, deep)
    ensures NonEmptyPaths(shallow) && NoRepeats(shallow)
    ensures forall p :: p in deep <==> p in shallow
    ensures forall p :: p in deep ==> p in TreeOf(entries) && TreeOf(entries)[p].Directory?
  {
    forall i | 0 <= i < |shallow| ensures shallow[i] != [] { assert shallow[i] in Directories(entries); }
    forall p | p in deep ensures p in TreeOf(entries) && TreeOf(entries)[p].Directory? {
      var i :| 0 <= i < |entries| && entries[i].DirectoryEntry? && entries[i].path == p;
      TreeOfAt(entries, i);
    }
  }

  /** If the tree is built and matches, the path set was closed. */
  lemma StagedMeansClosed(entries: seq<Entry>, rank: Path -> int, shallow: seq<Path>, deep: seq<Path>)
    requires IsPlan(entries, rank, shallow, deep) && NonEmptyPaths(shallow)
    requires forall p :: p in deep ==> p in TreeOf(entries) && TreeOf(entries)[p].Directory?
    requires StagedTree(entries, shallow).Some?
    requires Matches(WithModes(StagedTree(entries, shallow).value, deep, TreeOf(entries)), entries)
    ensures ClosedUnderParents(entries)
  {
    PlanPaths(entries, rank, shallow, deep);
    hide TreeOf;
    DirectoriesKeepForm(shallow);
    FilesKeepForm(WithDirectories(shallow).value, entries);
    ModesKeepForm(StagedTree(entries, shallow).value, deep, TreeOf(entries));
    MatchedIsClosed(WithModes(StagedTree(entries, shallow).value, deep, TreeOf(entries)), entries);
  }

  lemma FilesAreApart(entries: seq<Entry>, dirs: seq<Path>)
    requires NoRepeats(PathsOf(entries)) && Lists(dirs, Directories(entries))
    ensures FilesApart(entries, dirs)
  {
    forall e | e in entries && e.FileEntry? ensures e.path !in dirs {
      var i :| 0 <= i < |entries| && entries[i] == e;
      forall j | 0 <= j < |entries| && entries[j].DirectoryEntry? ensures entries[j].path != e.path {
        assert PathsOf(entries)[i] == e.path && PathsOf(entries)[j] == entries[j].path;
      }
    }
  }

  lemma ClosedParentsIn(entries: seq<Entry>, dirs: seq<Path>)
    requires ClosedUnderParents(entries) && Lists(dirs, Directories(entries)) && (forall e :: e in entries ==> e.path != [])
    ensures ParentsIn(entries, dirs)
  {
    forall e | e in entries && e.FileEntry? && Parent(e.path) != [] ensures Parent(e.path) in dirs {
      assert DirectoryListed(entries, e.path[..|e.path| - 1]);
    }
  }

  lemma PathIsDirectoryOrFile(entries: seq<Entry>, dirs: seq<Path>, p: Path)
    requires Lists(dirs, Directories(entries))
    ensures p in PathsOf(entries) <==> p in dirs || FileListed(entries, p)
  {
    if p in PathsOf(entries) {
      var i :| 0 <= i < |entries| && PathsOf(entries)[i] == p;
      assert entries[i] in entries && entries[i].path == p;
    }
    if p in dirs {
      var e :| e in entries && e.DirectoryEntry? && e.path == p;
      EntryHasPath(entries, e);
    }
    if FileListed(entries, p) {
      var e :| e in entries && e.FileEntry? && e.path == p;
      EntryHasPath(entries, e);
    }
  }

  lemma EntryHasPath(entries: seq<Entry>, e: Entry)
    requires e in entries
    ensures e.path in PathsOf(entries)
  {
    var i :| 0 <= i < |entries| && entries[i] == e;
    assert PathsOf(entries)[i] == e.path;
  }

  lemma EntryAtPath(entries: seq<Entry>, e: Entry)
    requires NoRepeats(PathsOf(entries)) && e in entries
    ensures e.path in TreeOf(entries) && TreeOf(entries)[e.path] == NodeOf(e)
  {
    var i :| 0 <= i < |entries| && entries[i] == e;
    TreeOfAt(entries, i);
  }

  lemma HoldsThenModes(t: Tree, entries: seq<Entry>, dirs: seq<Path>, deep: seq<Path>)
    requires NoRepeats(PathsOf(entries)) && Lists(dirs, Directories(entries)) && Lists(deep, Directories(entries))
    requires Holds(t, dirs, entries) && WellFormed(t)
    requires forall p :: p in deep ==> p in TreeOf(entries) && TreeOf(entries)[p].Directory?
    ensures WithModes(t, deep, TreeOf(entries)) == TreeOf(entries)
  {
    hide TreeOf, WithModes, Directories;
    var want := TreeOf(entries);
    ModesKeepForm(t, deep, want);
    var done := WithModes(t, deep, want);
    forall p ensures p in want <==> p in done {
      TreeOfKeys(entries, p);
      PathIsDirectoryOrFile(entries, dirs, p);
    }
    assert done.Keys == want.Keys;
    forall p | p in done ensures done[p] == want[p] {
      if p !in deep {
        assert FileListed(entries, p);
        var e :| e in entries && e.FileEntry? && e.path == p;
        EntryAtPath(entries, e);
      }
    }
  }

  /** With a closed path set the restored tree is the manifest's tree. */
  lemma ClosedMeansStaged(entries: seq<Entry>, rank: Path -> int, shallow: seq<Path>, deep: seq<Path>)
    requires IsPlan(entries, rank, shallow, deep) && NonEmptyPaths(shallow) && ClosedUnderParents(entries)
    requires forall p :: p in deep ==> p in TreeOf(entries) && TreeOf(entries)[p].Directory?
    ensures StagedTree(entries, shallow).Some?
    ensures WithModes(StagedTree(entries, shallow).value, deep, TreeOf(entries)) == TreeOf(entries)
  {
    hide TreeOf, Holds;
    ShallowFirstIsParentsFirst(entries, rank, shallow);
    DirectoriesAreMade(shallow);
    FilesAreApart(entries, shallow);
    ClosedParentsIn(entries, shallow);
    FilesAreWritten(shallow, entries);
    DirectoriesKeepForm(shallow);
    FilesKeepForm(WithDirectories(shallow).value, entries);
    HoldsThenModes(StagedTree(entries, shallow).value, entries, shallow, deep);
  }

  // ---- The staging method ----

  lemma DirectoriesFailEarly(paths: seq<Path>, n: nat)
    requires NonEmptyPaths(paths) && n <= |paths| && WithDirectories(paths[..n]).None?
    ensures WithDirectories(paths).None?
    decreases |paths|
  {
    if n < |paths| {
      assert paths[..|paths| - 1][..n] == paths[..n];
      DirectoriesFailEarly(paths[..|paths| - 1], n);
    } else {
      assert paths[..n] == paths;
    }
  }

  lemma FilesFailEarly(t: Tree, entries: seq<Entry>, n: nat)
    requires (forall e :: e in entries ==> e.path != []) && n <= |entries| && WithFiles(t, entries[..n]).None?
    ensures WithFiles(t, entries).None?
    decreases |entries|
  {
    if n < |entries| {
      assert entries[..|entries| - 1][..n] == entries[..n];
      FilesFailEarly(t, entries[..|entries| - 1], n);
    } else {
      assert entries[..n] == entries;
    }
  }

  method MakeDirectories(paths: seq<Path>) returns (tree: Option<Tree>)
    requires NonEmptyPaths(paths)
    ensures tree == WithDirectories(paths)
  {
    tree := Some(map[]);
    var i := 0;
    while i < |paths|
      invariant 0 <= i <= |paths| && tree == WithDirectories(paths[..i]) && tree.Some?
    {
      assert paths[..i + 1][..i] == paths[..i];
      tree := WithDirectory(tree.value, paths[i]);
      i := i + 1;
      if tree.None? {
        DirectoriesFailEarly(paths, i);
        return;
      }
    }
    assert paths[..i] == paths;
  }

  method WriteFiles(start: Tree, entries: seq<Entry>) returns (tree: Option<Tree>)
    requires forall e :: e in entries ==> e.path != []
    ensures tree == WithFiles(start, entries)
  {
    tree := Some(start);
    var i := 0;
    while i < |entries|
      invariant 0 <= i <= |entries| && tree == WithFiles(start, entries[..i]) && tree.Some?
    {
      assert entries[..i + 1][..i] == entries[..i];
      if entries[i].FileEntry? {
        tree := WithFile(tree.value, entries[i]);
      }
      i := i + 1;
      if tree.None? {
        FilesFailEarly(start, entries, i);
        return;
      }
    }
    assert entries[..i] == entries;
  }

  method ApplyModes(start: Tree, paths: seq<Path>, want: Tree) returns (tree: Tree)
    requires forall p :: p in paths ==> p in want && want[p].Directory?
    ensures tree == WithModes(start, paths, want)
  {
    tree := start;
    var i := 0;
    while i < |paths|
      invariant 0 <= i <= |paths| && tree == WithModes(start, paths[..i], want)
    {
      assert paths[..i + 1][..i] == paths[..i];
      tree := tree[paths[i] := want[paths[i]]];
      i := i + 1;
    }
    assert paths[..i] == paths;
  }

  method CheckTree(t: Tree, entries: seq<Entry>) returns (ok: bool)
    ensures ok <==> Matches(t, entries)
  {
    var paths := PathsOf(entries);
    if exists p :: p in t.Keys && (t[p].SymbolicLink? || p !in paths) {
      return false;
    }
    var i := 0;
    while i < |entries|
      invariant 0 <= i <= |entries|
      invariant forall k :: 0 <= k < i ==> NodeMatches(t, entries[k])
    {
      if !NodeMatches(t, entries[i]) {
        return false;
      }
      i := i + 1;
    }
    return true;
  }

  /** `stage_bundle`: a verified bundle is restored exactly when nothing is there yet and every
      path above an entry is a directory entry; the result is then the manifest's tree. */
  method StageBundle(b: Bundle, rank: Path -> int, destinationExists: bool) returns (r: BundleResult<Tree>)
    ensures r.Done? <==> !destinationExists && Verifies(rank, b) && ClosedUnderParents(b.manifest.content.entries)
    ensures r.Done? ==> r.value == TreeOf(b.manifest.content.entries)
    ensures r.ConflictFailure? <==> destinationExists && Verifies(rank, b)
  {
    hide TreeOf, Matches, WithModes, WithFiles, WithDirectories, ClosedUnderParents, SizesFit, BlobHolds, Referenced;
    var entries := b.manifest.content.entries;
    var verified := VerifyBundle(b, rank);
    if !verified {
      return IntegrityFailure;
    }
    if destinationExists {
      return ConflictFailure;
    }
    var shallow := Sort(Directories(entries), ShallowFirst, rank);
    var deep := Sort(Directories(entries), DeepFirst, rank);
    EntriesHavePaths(entries);
    PlanPaths(entries, rank, shallow, deep);
    VerifiedSizesFit(b);
    var made := MakeDirectories(shallow);
    if made.None? {
      NotStagedMeansOpen(entries, rank, shallow, deep);
      return IntegrityFailure;
    }
    var written := WriteFiles(made.value, entries);
    if written.None? {
      NotStagedMeansOpen(entries, rank, shallow, deep);
      return IntegrityFailure;
    }
    var want := TreeOf(entries);
    var tree := ApplyModes(written.value, deep, want);
    MatchesIffTreeOf(tree, entries);
    var ok := CheckTree(tree, entries);
    if ok {
      StagedMeansClosed(entries, rank, shallow, deep);
      return Done(tree);
    }
    NotStagedMeansOpen(entries, rank, shallow, deep);
    return IntegrityFailure;
  }

  lemma EntriesHavePaths(entries: seq<Entry>)
    requires forall i :: 0 <= i < |entries| ==> entries[i].path != []
    ensures forall e :: e in entries ==> e.path != []
  {
  }

  /** The contrapositive, as the failing branches of staging need it. */
  lemma NotStagedMeansOpen(entries: seq<Entry>, rank: Path -> int, shallow: seq<Path>, deep: seq<Path>)
    requires IsPlan(entries, rank, shallow, deep) && NonEmptyPaths(shallow)
    requires forall p :: p in deep ==> p in TreeOf(entries) && TreeOf(entries)[p].Directory?
    requires StagedTree(entries, shallow).Some? ==>
      WithModes(StagedTree(entries, shallow).value, deep, TreeOf(entries)) != TreeOf(entries)
    ensures !ClosedUnderParents(entries)
  {
    hide TreeOf, WithModes, StagedTree;
    if ClosedUnderParents(entries) {
      ClosedMeansStaged(entries, rank, shallow, deep);
    }
  }

  // ---- The round trip ----

  lemma {:induction false} CreatedTree(t: Tree, paths: seq<Path>)
    requires Plain(t) && NoRepeats(paths) && forall p :: p in paths ==> p in t
    ensures TreeOf(EntriesOf(t, paths)) == map p | p in paths :: t[p]
  {
    if paths != [] {
      var rest, p := paths[..|paths| - 1], paths[|paths| - 1];
      assert rest + [p] == paths;
      CreatedTree(t, rest);
      EntriesOneMore(t, rest, p);
      var entries := EntriesOf(t, paths);
      assert entries[..|entries| - 1] == EntriesOf(t, rest);
      assert NodeOf(entries[|entries| - 1]) == t[p];
    }
  }

  lemma CreatedIsClosed(t: Tree, paths: seq<Path>)
    requires WellFormed(t) && Plain(t) && Lists(paths, t.Keys)
    ensures ClosedUnderParents(EntriesOf(t, paths))
  {
    var entries := EntriesOf(t, paths);
    forall e, n | e in entries && 0 < n < |e.path| ensures DirectoryListed(entries, e.path[..n]) {
      var i :| 0 <= i < |paths| && EntryOf(paths[i], t[paths[i]]) == e;
      PrefixesAreDirectories(t, e.path, n);
      var j :| 0 <= j < |paths| && paths[j] == e.path[..n];
      assert entries[j].DirectoryEntry? && entries[j].path == e.path[..n];
    }
  }

  ghost function Contents(t: Tree): set<Bytes> {
    set p | p in t && t[p].File? :: t[p].bytes
  }

  lemma {:induction false} SameCount(a: set<Bytes>)
    ensures |set c | c in a :: Sha256(c)| == |a|
  {
    var hashed := set c | c in a :: Sha256(c);
    if a != {} {
      var x :| x in a;
      SameCount(a - {x});
      assert hashed == (set c | c in a - {x} :: Sha256(c)) + {Sha256(x)};
    }
  }

  /** The store holds one blob per distinct content, however many files share it. */
  lemma OneBlobPerContent(t: Tree, paths: seq<Path>)
    requires Plain(t) && Lists(paths, t.Keys)
    ensures |BlobsOf(EntriesOf(t, paths))| == |Contents(t)|
  {
    var entries := EntriesOf(t, paths);
    var hashed := set c | c in Contents(t) :: Sha256(c);
    forall s ensures s in Referenced(entries) <==> s in hashed {
      if s in Referenced(entries) {
        var i :| 0 <= i < |entries| && entries[i].FileEntry? && entries[i].sha == s;
        assert paths[i] in t && t[paths[i]].File? && t[paths[i]].bytes in Contents(t);
      }
      if s in hashed {
        var p :| p in t && t[p].File? && Sha256(t[p].bytes) == s;
        var i :| 0 <= i < |paths| && paths[i] == p;
        assert entries[i].FileEntry? && entries[i].sha == s;
      }
    }
    assert BlobsOf(entries).Keys == hashed;
    SameCount(Contents(t));
  }

  /** The round trip: whatever tree a bundle was created from, it verifies, its path set is
      closed, staging therefore succeeds, and what is restored is that tree, every path with
      its kind, mode and bytes and nothing else. */
  lemma CreatedBundleRestoresTheSource(source: Tree, paths: seq<Path>, name: string, rank: Path -> int)
    requires WellFormed(source) && Plain(source) && name != ""
    requires Lists(paths, source.Keys) && Sorted(ByPath, rank, paths)
    ensures var b := Bundle(ManifestOf(name, EntriesOf(source, paths)), BlobsOf(EntriesOf(source, paths)), {});
      && Verifies(rank, b) && ClosedUnderParents(b.manifest.content.entries)
      && TreeOf(b.manifest.content.entries) == source
      && |b.blobs| == |Contents(source)|
  {
    hide TreeOf, Verifies, ClosedUnderParents, EntriesOf, BlobsOf, FilesIn, BytesIn, Contents;
    CreatedBundleVerifies(source, paths, name, rank);
    CreatedIsClosed(source, paths);
    CreatedTree(source, paths);
    assert (map p | p in paths :: source[p]) == source;
    OneBlobPerContent(source, paths);
  }
}
