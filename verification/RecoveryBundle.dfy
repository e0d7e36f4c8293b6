/** Recovery bundles: a file tree goes into a content-addressed store and comes back.

    A tree maps each path, as its parts, to what is there. Permission modes are plain data:
    whether the process may write is not modelled. The source tree stands still meanwhile. */
module RecoveryBundle {
  import opened Records

  type Path = seq<string>

  newtype byte = x: int | 0 <= x < 256
  type Bytes = seq<byte>

  /** Permission bits only. */
  type Mode = m: nat | m < 512

  datatype Node = Directory(mode: Mode) | File(mode: Mode, bytes: Bytes) | SymbolicLink | OtherNode

  type Tree = map<Path, Node>

  datatype Entry = DirectoryEntry(path: Path, mode: Mode) | FileEntry(path: Path, mode: Mode, size: nat, sha: Sha<Bytes>)

  datatype Content = Content(source: string, entries: seq<Entry>, files: nat, directories: nat, bytes: nat)

  /** SHA-256 of a manifest's content. */
  datatype ManifestId = ManifestId(of: Content)

  datatype Manifest = Manifest(content: Content, id: ManifestId)

  datatype BlobNode = Blob(bytes: Bytes) | NotAFile

  /** A bundle directory; `extras` are root entries other than the manifest and the blobs. */
  datatype Bundle = Bundle(manifest: Manifest, blobs: map<Sha<Bytes>, BlobNode>, extras: set<string>)

  datatype BundleResult<T> = Done(value: T) | IntegrityFailure | ConflictFailure

  // ---- Trees ----

  function Parent(p: Path): Path
    requires p != []
  {
    p[..|p| - 1]
  }

  /** What any directory on disk looks like: everything sits in a directory. */
  ghost predicate WellFormed(t: Tree) {
    forall p :: p in t ==> p != [] && (Parent(p) == [] || (Parent(p) in t && t[Parent(p)].Directory?))
  }

  /** Only directories and regular files. */
  ghost predicate Plain(t: Tree) {
    forall p :: p in t ==> t[p].Directory? || t[p].File?
  }

  // ---- Sorted listings ----

  datatype Order = ByPath | ShallowFirst | DeepFirst

  /** `rank` is the order of paths as text. */
  predicate Leq(order: Order, rank: Path -> int, a: Path, b: Path) {
    match order
    case ByPath => rank(a) <= rank(b)
    case ShallowFirst => |a| < |b| || (|a| == |b| && rank(a) <= rank(b))
    case DeepFirst => |a| > |b| || (|a| == |b| && rank(a) <= rank(b))
  }

  predicate Sorted(order: Order, rank: Path -> int, paths: seq<Path>) {
    forall i, j :: 0 <= i < j < |paths| ==> Leq(order, rank, paths[i], paths[j])
  }

  predicate NoRepeats(paths: seq<Path>) {
    forall i, j :: 0 <= i < j < |paths| ==> paths[i] != paths[j]
  }

  ghost predicate Lists(paths: seq<Path>, s: set<Path>) {
    NoRepeats(paths) && forall p :: p in paths <==> p in s
  }

  lemma {:induction false} HasFirst(order: Order, rank: Path -> int, s: set<Path>) returns (first: Path)
    requires s != {}
    ensures first in s && forall p :: p in s ==> Leq(order, rank, first, p)
  {
    var x :| x in s;
    first := x;
    if s != {x} {
      var other := HasFirst(order, rank, s - {x});
      if Leq(order, rank, other, x) { first := other; }
      forall p | p in s ensures Leq(order, rank, first, p) {
        if p != x { assert Leq(order, rank, other, p); }
      }
    }
  }

  /** By path as text; or first by depth, shallow or deep, and by text at one depth. */
  predicate ComesFirst(order: Order, rank: Path -> int, a: Path, b: Path) {
    && (order == ShallowFirst ==> |a| <= |b|)
    && (order == DeepFirst ==> |b| <= |a|)
    && (order == ByPath || |a| == |b| ==> rank(a) <= rank(b))
  }

  /** Exactly which listings are in order. */
  lemma SortedIff(order: Order, rank: Path -> int, paths: seq<Path>)
    ensures Sorted(order, rank, paths) <==>
      forall i, j :: 0 <= i < j < |paths| ==> ComesFirst(order, rank, paths[i], paths[j])
  {
    forall a, b ensures Leq(order, rank, a, b) <==> ComesFirst(order, rank, a, b) {}
    hide Leq, ComesFirst;
  }

  /** `sorted(...)`. */
  method Sort(s: set<Path>, order: Order, rank: Path -> int) returns (paths: seq<Path>)
    ensures Lists(paths, s) && Sorted(order, rank, paths)
  {
    paths := [];
    var todo := s;
    while todo != {}
      invariant todo <= s && Lists(paths, s - todo) && Sorted(order, rank, paths)
      invariant forall p, q :: p in paths && q in todo ==> Leq(order, rank, p, q)
      decreases |todo|
    {
      ghost var first := HasFirst(order, rank, todo);
      var p :| p in todo && forall q :: q in todo ==> Leq(order, rank, p, q);
      paths, todo := paths + [p], todo - {p};
    }
    assert s - todo == s;
  }

  // ---- Manifests ----

  function PathsOf(entries: seq<Entry>): (paths: seq<Path>)
    ensures |paths| == |entries| && forall i :: 0 <= i < |entries| ==> paths[i] == entries[i].path
  {
    seq(|entries|, i requires 0 <= i < |entries| => entries[i].path)
  }

  function FilesIn(entries: seq<Entry>): nat {
    if entries == [] then 0
    else FilesIn(entries[..|entries| - 1]) + if entries[|entries| - 1].FileEntry? then 1 else 0
  }

  function BytesIn(entries: seq<Entry>): nat {
    if entries == [] then 0
    else BytesIn(entries[..|entries| - 1]) + if entries[|entries| - 1].FileEntry? then entries[|entries| - 1].size else 0
  }

  /** `RecoveryBundleManifest.create` on sorted entries. */
  function ManifestOf(source: string, entries: seq<Entry>): Manifest {
    FilesFit(entries);
    var content := Content(source, entries, FilesIn(entries), |entries| - FilesIn(entries), BytesIn(entries));
    Manifest(content, ManifestId(content))
  }

  lemma {:induction false} FilesFit(entries: seq<Entry>)
    ensures FilesIn(entries) <= |entries|
  {
    if entries != [] { FilesFit(entries[..|entries| - 1]); }
  }

  /** What a manifest must satisfy to be loaded. */
  predicate ValidManifest(rank: Path -> int, m: Manifest) {
    var c := m.content;
    && c.source != ""
    && Sorted(ByPath, rank, PathsOf(c.entries)) && NoRepeats(PathsOf(c.entries))
    && (forall i :: 0 <= i < |c.entries| ==> c.entries[i].path != [])
    && c.files == FilesIn(c.entries) && c.files + c.directories == |c.entries| && c.bytes == BytesIn(c.entries)
    && m.id == ManifestId(c)
  }

  function Referenced(entries: seq<Entry>): set<Sha<Bytes>> {
    set e | e in entries && e.FileEntry? :: e.sha
  }

  ghost predicate BlobHolds(blobs: map<Sha<Bytes>, BlobNode>, e: Entry) {
    e.FileEntry? ==>
      && e.sha in blobs && blobs[e.sha].Blob?
      && Sha256(blobs[e.sha].bytes) == e.sha && |blobs[e.sha].bytes| == e.size
  }

  /** `verify_bundle`: the manifest, its blobs, and nothing else. */
  ghost predicate Verifies(rank: Path -> int, b: Bundle) {
    && ValidManifest(rank, b.manifest)
    && b.extras == {}
    && (forall e :: e in b.manifest.content.entries ==> BlobHolds(b.blobs, e))
    && b.blobs.Keys == Referenced(b.manifest.content.entries)
  }

  /** Exactly which manifests load: there is a source, the paths are not empty and rise without repeats, the
      counts are right, and the id is the content's own digest. */
  lemma ManifestLoadsIff(rank: Path -> int, m: Manifest)
    ensures var c := m.content;
      ValidManifest(rank, m) <==>
        && m.id.of == c && c.source != ""
        && (forall i :: 0 <= i < |c.entries| ==> |c.entries[i].path| > 0)
        && (forall i, j :: 0 <= i < j < |c.entries| ==>
              rank(c.entries[i].path) <= rank(c.entries[j].path) && c.entries[i].path != c.entries[j].path)
        && c.files == FilesIn(c.entries) && c.files + c.directories == |c.entries| && c.bytes == BytesIn(c.entries)
  {
    hide FilesIn, BytesIn;
    var c := m.content;
    var paths := PathsOf(c.entries);
    assert Sorted(ByPath, rank, paths) <==>
      forall i, j :: 0 <= i < j < |c.entries| ==> rank(c.entries[i].path) <= rank(c.entries[j].path);
    assert NoRepeats(paths) <==> forall i, j :: 0 <= i < j < |c.entries| ==> c.entries[i].path != c.entries[j].path;
  }

  /** Exactly which bundles verify: beside a manifest that loads there is a blob of the right size and digest
      for each file, and nothing else. */
  lemma VerifiesIff(rank: Path -> int, b: Bundle)
    ensures var entries := b.manifest.content.entries;
      Verifies(rank, b) <==>
        && ValidManifest(rank, b.manifest) && b.extras == {}
        && (forall e :: e in entries && e.FileEntry? ==>
              e.sha in b.blobs && b.blobs[e.sha].Blob? && b.blobs[e.sha].bytes == e.sha.of && |e.sha.of| == e.size)
        && (forall sha :: sha in b.blobs ==> exists e :: e in entries && e.FileEntry? && e.sha == sha)
  {
    hide ValidManifest;
  }

  // ---- Creating a bundle ----

  function EntryOf(p: Path, n: Node): Entry {
    match n
    case Directory(mode) => DirectoryEntry(p, mode)
    case File(mode, bytes) => FileEntry(p, mode, |bytes|, Sha256(bytes))
    case _ => DirectoryEntry(p, 0)
  }

  function EntriesOf(t: Tree, paths: seq<Path>): (entries: seq<Entry>)
    requires forall p :: p in paths ==> p in t
    ensures |entries| == |paths|
  {
    seq(|paths|, i requires 0 <= i < |paths| => EntryOf(paths[i], t[paths[i]]))
  }

  /** One blob per distinct content. */
  function BlobsOf(entries: seq<Entry>): map<Sha<Bytes>, BlobNode> {
    map s | s in Referenced(entries) :: Blob(s.of)
  }

  lemma EntriesOneMore(t: Tree, paths: seq<Path>, p: Path)
    requires (forall q :: q in paths ==> q in t) && p in t
    ensures EntriesOf(t, paths + [p]) == EntriesOf(t, paths) + [EntryOf(p, t[p])]
  {
  }

  lemma CountsOneMore(entries: seq<Entry>, e: Entry)
    ensures FilesIn(entries + [e]) == FilesIn(entries) + if e.FileEntry? then 1 else 0
    ensures BytesIn(entries + [e]) == BytesIn(entries) + if e.FileEntry? then e.size else 0
    ensures Referenced(entries + [e]) == Referenced(entries) + if e.FileEntry? then {e.sha} else {}
  {
    assert (entries + [e])[..|entries|] == entries;
  }

  lemma BlobsOneMore(after: map<Sha<Bytes>, BlobNode>, entries: seq<Entry>, e: Entry)
    requires after == if e.FileEntry? && e.sha !in BlobsOf(entries) then BlobsOf(entries)[e.sha := Blob(e.sha.of)] else BlobsOf(entries)
    ensures after == BlobsOf(entries + [e])
  {
    CountsOneMore(entries, e);
  }

  /** What was just written passes verification. */
  lemma CreatedBundleVerifies(source: Tree, paths: seq<Path>, name: string, rank: Path -> int)
    requires WellFormed(source) && Plain(source) && name != ""
    requires Lists(paths, source.Keys) && Sorted(ByPath, rank, paths)
    ensures Verifies(rank, Bundle(ManifestOf(name, EntriesOf(source, paths)), BlobsOf(EntriesOf(source, paths)), {}))
  {
    var entries := EntriesOf(source, paths);
    assert PathsOf(entries) == paths;
    FilesFit(entries);
    forall i | 0 <= i < |entries| ensures entries[i].path != [] && BlobHolds(BlobsOf(entries), entries[i]) {
      assert paths[i] in source;
    }
  }

  lemma {:induction false} CountsGrow(t: Tree, paths: seq<Path>, n: nat)
    requires (forall p :: p in paths ==> p in t) && n <= |paths|
    ensures FilesIn(EntriesOf(t, paths[..n])) <= FilesIn(EntriesOf(t, paths))
    ensures BytesIn(EntriesOf(t, paths[..n])) <= BytesIn(EntriesOf(t, paths))
  {
    if n == |paths| {
      assert paths[..n] == paths;
    } else {
      var init := paths[..|paths| - 1];
      CountsGrow(t, init, n);
      assert init[..n] == paths[..n] && init + [paths[|paths| - 1]] == paths;
      EntriesOneMore(t, init, paths[|paths| - 1]);
      CountsOneMore(EntriesOf(t, init), EntryOf(paths[|paths| - 1], t[paths[|paths| - 1]]));
    }
  }

  /** One more entry read: its record, its counts and its blob. */
  lemma ReadOneMore(t: Tree, paths: seq<Path>, i: nat, after: map<Sha<Bytes>, BlobNode>)
    requires (forall p :: p in paths ==> p in t) && i < |paths|
    requires var entries, e := EntriesOf(t, paths[..i]), EntryOf(paths[i], t[paths[i]]);
      after == if e.FileEntry? && e.sha !in BlobsOf(entries) then BlobsOf(entries)[e.sha := Blob(e.sha.of)] else BlobsOf(entries)
    ensures var entries, e := EntriesOf(t, paths[..i]), EntryOf(paths[i], t[paths[i]]);
      var more := EntriesOf(t, paths[..i + 1]);
      && more == entries + [e] && after == BlobsOf(more)
      && FilesIn(more) == FilesIn(entries) + (if e.FileEntry? then 1 else 0)
      && BytesIn(more) == BytesIn(entries) + (if e.FileEntry? then e.size else 0)
      && FilesIn(more) <= FilesIn(EntriesOf(t, paths)) && BytesIn(more) <= BytesIn(EntriesOf(t, paths))
  {
    hide FilesIn, BytesIn, BlobsOf, EntryOf;
    var entries, e := EntriesOf(t, paths[..i]), EntryOf(paths[i], t[paths[i]]);
    assert paths[..i + 1] == paths[..i] + [paths[i]];
    EntriesOneMore(t, paths[..i], paths[i]);
    CountsOneMore(entries, e);
    CountsGrow(t, paths, i + 1);
    BlobsOneMore(after, entries, e);
  }

  /** The loop of `create_bundle` over the sorted listing. */
  method ReadTree(source: Tree, paths: seq<Path>, maxFiles: nat, maxBytes: nat)
    returns (ok: bool, entries: seq<Entry>, blobs: map<Sha<Bytes>, BlobNode>)
    requires forall p :: p in paths ==> p in source
    ensures ok <==>
      && (forall k :: 0 <= k < |paths| ==> source[paths[k]].Directory? || source[paths[k]].File?)
      && FilesIn(EntriesOf(source, paths)) <= maxFiles && BytesIn(EntriesOf(source, paths)) <= maxBytes
    ensures ok ==> entries == EntriesOf(source, paths) && blobs == BlobsOf(entries)
  {
    hide FilesIn, BytesIn, EntriesOf, BlobsOf;
    entries, blobs := [], map[];
    var files, total, i := 0, 0, 0;
    NothingRead(source);
    while i < |paths|
      invariant 0 <= i <= |paths|
      invariant forall k :: 0 <= k < i ==> source[paths[k]].Directory? || source[paths[k]].File?
      invariant entries == EntriesOf(source, paths[..i]) && blobs == BlobsOf(entries)
      invariant files == FilesIn(entries) <= maxFiles && total == BytesIn(entries) <= maxBytes
    {
      var p, n := paths[i], source[paths[i]];
      if n.SymbolicLink? || n.OtherNode? {
        return false, entries, blobs;
      }
      var entry := EntryOf(p, n);
      if n.File? && entry.sha !in blobs {
        blobs := blobs[entry.sha := Blob(n.bytes)];
      }
      ReadOneMore(source, paths, i, blobs);
      if n.File? {
        files, total := files + 1, total + |n.bytes|;
        if files > maxFiles || total > maxBytes {
          return false, entries, blobs;
        }
      }
      entries, i := entries + [entry], i + 1;
    }
    assert paths[..i] == paths;
    return true, entries, blobs;
  }

  lemma NothingRead(t: Tree)
    ensures EntriesOf(t, []) == [] && FilesIn([]) == 0 && BytesIn([]) == 0 && BlobsOf([]) == map[]
  {
  }

  /** `create_bundle`. The listing is taken before the first file is read. */
  method CreateBundle(source: Tree, name: string, rank: Path -> int, maxFiles: nat, maxBytes: nat, targetExists: bool)
    returns (r: BundleResult<Bundle>, paths: seq<Path>)
    requires WellFormed(source)
    ensures Lists(paths, source.Keys) && Sorted(ByPath, rank, paths)
    ensures r.ConflictFailure? <==> targetExists
    ensures r.Done? <==>
      && !targetExists && name != "" && Plain(source)
      && FilesIn(EntriesOf(source, paths)) <= maxFiles && BytesIn(EntriesOf(source, paths)) <= maxBytes
    ensures r.Done? ==>
      && r.value == Bundle(ManifestOf(name, EntriesOf(source, paths)), BlobsOf(EntriesOf(source, paths)), {})
      && Verifies(rank, r.value)
  {
    hide FilesIn, BytesIn, EntriesOf, BlobsOf, ManifestOf, Verifies;
    paths := Sort(source.Keys, ByPath, rank);
    if targetExists {
      return ConflictFailure, paths;
    }
    var ok, entries, blobs := ReadTree(source, paths, maxFiles, maxBytes);
    PlainIffListedPlain(source, paths);
    if !ok || name == "" {
      return IntegrityFailure, paths;
    }
    CreatedBundleVerifies(source, paths, name, rank);
    return Done(Bundle(ManifestOf(name, entries), blobs, {})), paths;
  }

  lemma PlainIffListedPlain(t: Tree, paths: seq<Path>)
    requires Lists(paths, t.Keys)
    ensures Plain(t) <==> forall k :: 0 <= k < |paths| ==> t[paths[k]].Directory? || t[paths[k]].File?
  {
    if forall k :: 0 <= k < |paths| ==> t[paths[k]].Directory? || t[paths[k]].File? {
      forall q | q in t ensures t[q].Directory? || t[q].File? { assert q in paths; }
    } else {
      var k :| 0 <= k < |paths| && !(t[paths[k]].Directory? || t[paths[k]].File?);
      assert paths[k] in t;
    }
  }
}
