/** Dataset manifests: the per-file record of a dataset directory (relative
    path, size, SHA-256 digest, modification time), a Merkle root over the
    file digests, the dict form a manifest is saved in, and the check of a
    directory against a manifest. The directory is given as its listing
    (or as a map from relative path to contents when verifying), SHA-256
    and `Path.match` are oracles, and timestamps are parameters. */
module Manifest {
  import opened Json
  import opened Text
  import opened Order

  datatype FileInfo = FileInfo(path: string, sizeBytes: int, sha256: string, modifiedAt: string)

  datatype DatasetManifest = DatasetManifest(
    datasetId: string,
    version: string,
    createdAt: string,
    createdBy: string,
    source: string,
    totalFiles: int,
    totalSizeBytes: int,
    rootHash: string,
    files: seq<FileInfo>,
    metadata: Json)

  // ---------------------------------------------------------------------
  // The Merkle root
  // ---------------------------------------------------------------------

  /** The digest of the UTF-8 encoding of two concatenated hex digests. */
  function Combine(a: string, b: string, sha: Sha): string
  {
    sha(Utf8(a + b))
  }

  /** Entry `k` of the next level: positions `2k` and `2k + 1` combined, or
      the last entry of an odd level combined with itself. */
  function PairAt(level: seq<string>, k: nat, sha: Sha): string
    requires 2 * k < |level|
  {
    if 2 * k + 1 < |level| then Combine(level[2 * k], level[2 * k + 1], sha)
    else Combine(level[2 * k], level[2 * k], sha)
  }

  function NextLevel(level: seq<string>, sha: Sha): (next: seq<string>)
    ensures |next| == (|level| + 1) / 2
    ensures |level| > 1 ==> 1 <= |next| < |level|
  {
    seq((|level| + 1) / 2, k requires 0 <= k < (|level| + 1) / 2 => PairAt(level, k, sha))
  }

  /** Levels are combined until one digest is left. */
  function Reduce(level: seq<string>, sha: Sha): string
    requires |level| >= 1
    decreases |level|
  {
    if |level| == 1 then level[0] else Reduce(NextLevel(level, sha), sha)
  }

  /** `_compute_merkle_root`: the digest of the empty byte string for no
      hashes, otherwise the reduction of the sorted hashes. */
  function MerkleRoot(hashes: seq<string>, sha: Sha): (r: string)
    ensures hashes == [] ==> r == sha([])
    ensures |hashes| == 1 ==> r == hashes[0]
  {
    if hashes == [] then sha([]) else Reduce(Sort(hashes, StrLe), sha)
  }

  /** Sorting first makes the root independent of the order of the hashes. */
  lemma MerklePermutation(a: seq<string>, b: seq<string>, sha: Sha)
    requires multiset(a) == multiset(b)
    ensures MerkleRoot(a, sha) == MerkleRoot(b, sha)
  {
    if a == [] {
      assert |b| == |multiset(b)| == 0;
    } else {
      assert |b| == |multiset(b)| == |a|;
      StrLeLinear();
      SortPermutationInvariant(a, b, StrLe);
    }
  }

  /** Two digests are combined smaller-first. */
  lemma MerkleTwo(a: string, b: string, sha: Sha)
    requires StrLe(a, b)
    ensures MerkleRoot([a, b], sha) == Combine(a, b, sha)
    ensures MerkleRoot([b, a], sha) == Combine(a, b, sha)
  {
    MerkleTwoSorted(a, b, sha);
    MerklePermutation([b, a], [a, b], sha);
  }

  lemma MerkleTwoSorted(a: string, b: string, sha: Sha)
    requires StrLe(a, b)
    ensures MerkleRoot([a, b], sha) == Combine(a, b, sha)
  {
    assert [a, b][1..] == [b];
    assert Sort([a, b], StrLe) == Insert(a, [b], StrLe) == [a, b];
    var next := NextLevel([a, b], sha);
    assert next == [Combine(a, b, sha)];
    assert Reduce([a, b], sha) == Reduce(next, sha);
  }

  /** `_compute_merkle_root`. */
  method ComputeMerkleRoot(hashes: seq<string>, sha: Sha) returns (root: string)
    ensures root == MerkleRoot(hashes, sha)
  {
    if hashes == [] {
      return sha([]);
    }
    var level := Sort(hashes, StrLe);
    while |level| > 1
      invariant |level| >= 1
      invariant Reduce(level, sha) == MerkleRoot(hashes, sha)
      decreases |level|
    {
      level := CombinePairs(level, sha);
    }
    root := level[0];
  }

  /** One round of the tree: the inner loop over even positions. */
  method CombinePairs(level: seq<string>, sha: Sha) returns (next: seq<string>)
    ensures next == NextLevel(level, sha)
  {
    next := [];
    var i := 0;
    while i < |level|
      invariant i == 2 * |next| && i <= |level| + 1
      invariant forall k :: 0 <= k < |next| ==> next[k] == PairAt(level, k, sha)
      decreases |level| - i
    {
      var digest := PairDigest(level, i, sha);
      next := next + [digest];
      i := i + 2;
    }
  }

  /** The body of the pair loop: the digest of the entry at even position
      `i` and its successor, or of the last entry with itself. */
  method PairDigest(level: seq<string>, i: nat, sha: Sha) returns (digest: string)
    requires i % 2 == 0 && i < |level|
    ensures digest == PairAt(level, i / 2, sha)
  {
    var combined;
    if i + 1 < |level| {
      combined := level[i] + level[i + 1];
    } else {
      combined := level[i] + level[i];
    }
    digest := sha(Utf8(combined));
  }

  // ---------------------------------------------------------------------
  // Creating a manifest
  // ---------------------------------------------------------------------

  /** One entry of the recursive listing of the dataset directory: its
      path components relative to the directory, whether it is a regular
      file, and (for a file) its contents and its modification time. */
  datatype DiskEntry = DiskEntry(parts: seq<string>, isFile: bool, content: seq<byte>, modifiedAt: string)

  /** `Path.match(pattern)` on an entry, given by its relative components. */
  type Matcher = (seq<string>, string) -> bool

  /** Paths are ordered component by component. */
  predicate EntryLe(a: DiskEntry, b: DiskEntry)
  {
    LexLe(a.parts, b.parts, StrLe)
  }

  lemma EntryLePreorder()
    ensures TotalPreorder(EntryLe)
  {
    StrLeLinear();
    forall a: DiskEntry, b: DiskEntry ensures EntryLe(a, b) || EntryLe(b, a) {
      LexTotalAt(a.parts, b.parts, StrLe);
    }
    forall a: DiskEntry, b: DiskEntry, c: DiskEntry | EntryLe(a, b) && EntryLe(b, c)
      ensures EntryLe(a, c)
    {
      LexTransitiveAt(a.parts, b.parts, c.parts, StrLe);
    }
  }

  /** The keyword arguments of `create_manifest` after the identifiers. */
  datatype ManifestOptions = ManifestOptions(
    source: string,
    createdBy: string,
    metadata: Option<Dict<Json>>,
    excludePatterns: Option<seq<string>>)

  /** The defaults of those arguments. */
  const DefaultOptions: ManifestOptions := ManifestOptions("", "rubric-gates", None, None)

  const DefaultExcludes: seq<string> := [".DS_Store", "*.log", "__pycache__"]

  /** `exclude_patterns or [...]`: an absent or empty list means the defaults. */
  function ExcludePatterns(given: Option<seq<string>>): seq<string>
  {
    if given.None? || given.value == [] then DefaultExcludes else given.value
  }

  predicate Excluded(parts: seq<string>, patterns: seq<string>, matcher: Matcher)
  {
    exists i :: 0 <= i < |patterns| && matcher(parts, patterns[i])
  }

  /** The entries that get a file record: regular files no pattern matches. */
  function Kept(patterns: seq<string>, matcher: Matcher): DiskEntry -> bool
  {
    (e: DiskEntry) => e.isFile && !Excluded(e.parts, patterns, matcher)
  }

  /** `str(rel_path)`: the components joined by "/". */
  function JoinPath(parts: seq<string>): string
  {
    if parts == [] then "" else if |parts| == 1 then parts[0] else parts[0] + "/" + JoinPath(parts[1..])
  }

  function InfoOf(e: DiskEntry, sha: Sha): FileInfo
  {
    FileInfo(JoinPath(e.parts), |e.content|, sha(e.content), e.modifiedAt)
  }

  function Infos(entries: seq<DiskEntry>, sha: Sha): (files: seq<FileInfo>)
    ensures |files| == |entries|
    ensures forall i :: 0 <= i < |entries| ==> files[i] == InfoOf(entries[i], sha)
  {
    seq(|entries|, i requires 0 <= i < |entries| => InfoOf(entries[i], sha))
  }

  function SumSizes(files: seq<FileInfo>): int
  {
    if files == [] then 0 else SumSizes(files[..|files| - 1]) + files[|files| - 1].sizeBytes
  }

  function HashesOf(files: seq<FileInfo>): (hashes: seq<string>)
    ensures |hashes| == |files|
    ensures forall i :: 0 <= i < |files| ==> hashes[i] == files[i].sha256
  {
    seq(|files|, i requires 0 <= i < |files| => files[i].sha256)
  }

  /** The entries recorded, in the order they are recorded. */
  function KeptEntries(listing: seq<DiskEntry>, patterns: seq<string>, matcher: Matcher): seq<DiskEntry>
  {
    Filter(Kept(patterns, matcher), Sort(listing, EntryLe))
  }

  /** The totals and the root are those of the file records. */
  predicate Consistent(m: DatasetManifest, sha: Sha)
  {
    m.totalFiles == |m.files|
    && m.totalSizeBytes == SumSizes(m.files)
    && m.rootHash == MerkleRoot(HashesOf(m.files), sha)
  }

  /** What `create_manifest` returns or raises, for a directory whose
      recursive listing is `listing` (absent when the directory does not
      exist), at time `now`. */
  function ManifestOf(dir: string, listing: Option<seq<DiskEntry>>, datasetId: string, version: string,
                      opts: ManifestOptions, matcher: Matcher, sha: Sha, now: string)
    : (r: Result<DatasetManifest, Fault>)
    ensures r.Err? <==> listing.None?
    ensures r.Ok? ==> Consistent(r.value, sha)
  {
    if listing.None? then Err(ValueError("Dataset directory does not exist: " + dir))
    else
      var files := Infos(KeptEntries(listing.value, ExcludePatterns(opts.excludePatterns), matcher), sha);
      var metadata := if opts.metadata.None? then [] else opts.metadata.value;
      Ok(DatasetManifest(datasetId, version, now, opts.createdBy, opts.source,
                         |files|, SumSizes(files), MerkleRoot(HashesOf(files), sha), files, Obj(metadata)))
  }

  /** `create_manifest`. */
  method CreateManifest(dir: string, listing: Option<seq<DiskEntry>>, datasetId: string, version: string,
                        opts: ManifestOptions, matcher: Matcher, sha: Sha, now: string)
    returns (r: Result<DatasetManifest, Fault>)
    ensures r == ManifestOf(dir, listing, datasetId, version, opts, matcher, sha, now)
  {
    if listing.None? {
      return Err(ValueError("Dataset directory does not exist: " + dir));
    }
    var patterns := ExcludePatterns(opts.excludePatterns);
    var metadata := if opts.metadata.None? then [] else opts.metadata.value;
    var files, totalSize := RecordFiles(Sort(listing.value, EntryLe), patterns, matcher, sha);
    var root := ComputeMerkleRoot(HashesOf(files), sha);
    r := Ok(DatasetManifest(datasetId, version, now, opts.createdBy, opts.source,
                            |files|, totalSize, root, files, Obj(metadata)));
  }

  /** The loop of `create_manifest` over the sorted listing. */
  method RecordFiles(sorted: seq<DiskEntry>, patterns: seq<string>, matcher: Matcher, sha: Sha)
    returns (files: seq<FileInfo>, totalSize: int)
    ensures files == Infos(Filter(Kept(patterns, matcher), sorted), sha)
    ensures totalSize == SumSizes(files)
  {
    ghost var keep := Kept(patterns, matcher);
    files := [];
    totalSize := 0;
    for i := 0 to |sorted|
      invariant files == Infos(Filter(keep, sorted[..i]), sha)
      invariant totalSize == SumSizes(files)
    {
      var e := sorted[i];
      assert sorted[..i + 1][..i] == sorted[..i];
      ghost var prefix := Filter(keep, sorted[..i]);
      assert Filter(keep, sorted[..i + 1]) == prefix + (if keep(e) then [e] else []);
      if !e.isFile {
        continue;
      }
      var skip := MatchesAny(e.parts, patterns, matcher);
      if skip {
        continue;
      }
      var info := InfoOf(e, sha);
      assert Infos(prefix + [e], sha) == files + [info];
      assert (files + [info])[..|files|] == files;
      files := files + [info];
      totalSize := totalSize + info.sizeBytes;
    }
    assert sorted[..|sorted|] == sorted;
  }

  /** The exclusion loop, which stops at the first matching pattern. */
  method MatchesAny(parts: seq<string>, patterns: seq<string>, matcher: Matcher) returns (skip: bool)
    ensures skip <==> Excluded(parts, patterns, matcher)
  {
    skip := false;
    for i := 0 to |patterns|
      invariant forall j :: 0 <= j < i ==> !matcher(parts, patterns[j])
    {
      if matcher(parts, patterns[i]) {
        skip := true;
        return;
      }
    }
  }

  /** The records follow the sorted order of the paths. */
  lemma KeptEntriesSorted(listing: seq<DiskEntry>, patterns: seq<string>, matcher: Matcher)
    ensures SortedBy(KeptEntries(listing, patterns, matcher), EntryLe)
  {
    EntryLePreorder();
    SortSorted(listing, EntryLe);
    FilterSorted(Kept(patterns, matcher), Sort(listing, EntryLe), EntryLe);
  }

  /** An entry is recorded exactly when it is a regular file of the
      listing that no exclusion pattern matches. */
  lemma KeptEntriesMembers(listing: seq<DiskEntry>, patterns: seq<string>, matcher: Matcher, e: DiskEntry)
    ensures e in KeptEntries(listing, patterns, matcher) <==>
              e in listing && e.isFile && !Excluded(e.parts, patterns, matcher)
  {
    var sorted := Sort(listing, EntryLe);
    FilterMembers(Kept(patterns, matcher), sorted);
    assert e in sorted <==> e in multiset(sorted);
    assert e in listing <==> e in multiset(listing);
  }

  // ---------------------------------------------------------------------
  // Verifying a directory against a manifest
  // ---------------------------------------------------------------------

  /** The regular files under the dataset directory, by relative path. */
  type Disk = map<string, seq<byte>>

  /** The file a record names is present with its recorded size and digest. */
  predicate Intact(info: FileInfo, disk: Disk, sha: Sha)
  {
    info.path in disk && |disk[info.path]| == info.sizeBytes && sha(disk[info.path]) == info.sha256
  }

  /** The error `verify_manifest` reports for one record, if any: a missing
      file first, then a size mismatch, then a digest mismatch. */
  function EntryError(info: FileInfo, disk: Disk, sha: Sha): (r: Option<string>)
    ensures r.None? <==> Intact(info, disk, sha)
  {
    if info.path !in disk then Some("Missing file: " + info.path)
    else if |disk[info.path]| != info.sizeBytes then
      Some("Size mismatch for " + info.path + ": expected " + IntToString(info.sizeBytes)
           + ", got " + IntToString(|disk[info.path]|))
    else if sha(disk[info.path]) != info.sha256 then Some("Hash mismatch for " + info.path)
    else None
  }

  function EntryErrorOf(disk: Disk, sha: Sha): FileInfo -> Option<string>
  {
    (info: FileInfo) => EntryError(info, disk, sha)
  }

  function CurrentHashOf(disk: Disk, sha: Sha): FileInfo -> Option<string>
  {
    (info: FileInfo) => if info.path in disk then Some(sha(disk[info.path])) else None
  }

  function EntryErrors(files: seq<FileInfo>, disk: Disk, sha: Sha): seq<string>
  {
    Collect(EntryErrorOf(disk, sha), files)
  }

  /** The digests of the recorded files that are present, in record order. */
  function CurrentHashes(files: seq<FileInfo>, disk: Disk, sha: Sha): seq<string>
  {
    Collect(CurrentHashOf(disk, sha), files)
  }

  function RootMismatch(expected: string, current: string): string
  {
    "Merkle root mismatch: expected " + expected + ", got " + current
  }

  /** `verify_manifest`: the per-record errors, then a root mismatch. */
  function VerifyManifestOf(m: DatasetManifest, disk: Disk, sha: Sha): (r: (bool, seq<string>))
    ensures r.0 <==> r.1 == []
  {
    var current := MerkleRoot(CurrentHashes(m.files, disk, sha), sha);
    var errors := EntryErrors(m.files, disk, sha)
                  + (if current != m.rootHash then [RootMismatch(m.rootHash, current)] else []);
    (|errors| == 0, errors)
  }

  /** `verify_manifest`. */
  method VerifyManifest(m: DatasetManifest, disk: Disk, sha: Sha) returns (isValid: bool, errors: seq<string>)
    ensures (isValid, errors) == VerifyManifestOf(m, disk, sha)
  {
    errors := CheckEntries(m.files, disk, sha);
    var current := CollectCurrentHashes(m.files, disk, sha);
    var currentRoot := ComputeMerkleRoot(current, sha);
    if currentRoot != m.rootHash {
      errors := errors + [RootMismatch(m.rootHash, currentRoot)];
    } else {
      assert errors + [] == errors;
    }
    isValid := |errors| == 0;
  }

  /** The first loop of `verify_manifest`. */
  method CheckEntries(files: seq<FileInfo>, disk: Disk, sha: Sha) returns (errors: seq<string>)
    ensures errors == EntryErrors(files, disk, sha)
  {
    errors := [];
    for i := 0 to |files|
      invariant errors == EntryErrors(files[..i], disk, sha)
    {
      var info := files[i];
      assert files[..i + 1][..i] == files[..i];
      if info.path !in disk {
        errors := errors + ["Missing file: " + info.path];
        continue;
      }
      var actualSize := |disk[info.path]|;
      if actualSize != info.sizeBytes {
        errors := errors + ["Size mismatch for " + info.path + ": expected " + IntToString(info.sizeBytes)
                            + ", got " + IntToString(actualSize)];
        continue;
      }
      var actualHash := sha(disk[info.path]);
      if actualHash != info.sha256 {
        errors := errors + ["Hash mismatch for " + info.path];
      }
    }
    assert files[..|files|] == files;
  }

  /** The second loop of `verify_manifest`. */
  method CollectCurrentHashes(files: seq<FileInfo>, disk: Disk, sha: Sha) returns (current: seq<string>)
    ensures current == CurrentHashes(files, disk, sha)
  {
    current := [];
    for i := 0 to |files|
      invariant current == CurrentHashes(files[..i], disk, sha)
    {
      var info := files[i];
      assert files[..i + 1][..i] == files[..i];
      if info.path in disk {
        current := current + [sha(disk[info.path])];
      }
    }
    assert files[..|files|] == files;
  }

  /** At most one error per record plus one for the root. */
  lemma VerifyErrorCount(m: DatasetManifest, disk: Disk, sha: Sha)
    ensures |VerifyManifestOf(m, disk, sha).1| <= |m.files| + 1
  {
    CollectLength(EntryErrorOf(disk, sha), m.files);
  }

  /** A directory passes exactly when every record is intact and the root
      of the digests present equals the recorded root. */
  lemma VerifyValidIff(m: DatasetManifest, disk: Disk, sha: Sha)
    ensures VerifyManifestOf(m, disk, sha).0 <==>
              (forall i :: 0 <= i < |m.files| ==> Intact(m.files[i], disk, sha))
              && m.rootHash == MerkleRoot(CurrentHashes(m.files, disk, sha), sha)
  {
    CollectEmpty(EntryErrorOf(disk, sha), m.files);
  }

  /** Every failing record is reported with its own error. */
  lemma EntryErrorsReported(m: DatasetManifest, disk: Disk, sha: Sha, i: nat)
    requires i < |m.files| && !Intact(m.files[i], disk, sha)
    ensures EntryError(m.files[i], disk, sha).value in VerifyManifestOf(m, disk, sha).1
  {
    CollectHas(EntryErrorOf(disk, sha), m.files, i);
  }

  /** When every record is intact the digests present are the recorded
      ones, so the outcome rests on the recorded root alone. */
  lemma VerifyIntact(m: DatasetManifest, disk: Disk, sha: Sha)
    requires forall i :: 0 <= i < |m.files| ==> Intact(m.files[i], disk, sha)
    ensures CurrentHashes(m.files, disk, sha) == HashesOf(m.files)
    ensures VerifyManifestOf(m, disk, sha).0 <==> m.rootHash == MerkleRoot(HashesOf(m.files), sha)
  {
    CollectAll(CurrentHashOf(disk, sha), m.files);
    VerifyValidIff(m, disk, sha);
  }

  /** Files the manifest does not list are never looked at: adding or
      changing one leaves the outcome as it was. */
  lemma UnlistedFileIgnored(m: DatasetManifest, disk: Disk, sha: Sha, p: string, content: seq<byte>)
    requires forall i :: 0 <= i < |m.files| ==> m.files[i].path != p
    ensures VerifyManifestOf(m, disk[p := content], sha) == VerifyManifestOf(m, disk, sha)
  {
    var disk' := disk[p := content];
    CollectSame(EntryErrorOf(disk', sha), EntryErrorOf(disk, sha), m.files);
    CollectSame(CurrentHashOf(disk', sha), CurrentHashOf(disk, sha), m.files);
  }

  /** A created manifest verifies against a directory that holds, at each
      recorded path, the contents that were recorded. */
  lemma CreatedManifestVerifies(dir: string, listing: seq<DiskEntry>, datasetId: string, version: string,
                                opts: ManifestOptions, matcher: Matcher, sha: Sha, now: string, disk: Disk)
    requires var kept := KeptEntries(listing, ExcludePatterns(opts.excludePatterns), matcher);
             forall e :: e in kept ==> JoinPath(e.parts) in disk && disk[JoinPath(e.parts)] == e.content
    ensures var r := ManifestOf(dir, Some(listing), datasetId, version, opts, matcher, sha, now);
            r.Ok? && VerifyManifestOf(r.value, disk, sha) == (true, [])
  {
    var kept := KeptEntries(listing, ExcludePatterns(opts.excludePatterns), matcher);
    var m := ManifestOf(dir, Some(listing), datasetId, version, opts, matcher, sha, now).value;
    assert m.files == Infos(kept, sha);
    forall i | 0 <= i < |m.files| ensures Intact(m.files[i], disk, sha) {
      assert kept[i] in kept;
    }
    VerifyIntact(m, disk, sha);
  }

  // ---------------------------------------------------------------------
  // The dict form
  // ---------------------------------------------------------------------

  const ManifestSchemaUrl: string := "https://github.com/Medtwin-ai/rubric-gates/schemas/dataset_manifest.schema.json"

  function FileToJson(f: FileInfo): Json
  {
    Obj([("path", Str(f.path)), ("size_bytes", Num(f.sizeBytes as real)),
         ("sha256", Str(f.sha256)), ("modified_at", Str(f.modifiedAt))])
  }

  function FilesToJson(files: seq<FileInfo>): (items: seq<Json>)
    ensures |items| == |files|
    ensures forall i :: 0 <= i < |files| ==> items[i] == FileToJson(files[i])
  {
    seq(|files|, i requires 0 <= i < |files| => FileToJson(files[i]))
  }

  /** `DatasetManifest.to_dict`. */
  function ManifestToDict(m: DatasetManifest): Dict<Json>
  {
    [("$schema", Str(ManifestSchemaUrl)),
     ("dataset_id", Str(m.datasetId)),
     ("version", Str(m.version)),
     ("created_at", Str(m.createdAt)),
     ("created_by", Str(m.createdBy)),
     ("source", Str(m.source)),
     ("total_files", Num(m.totalFiles as real)),
     ("total_size_bytes", Num(m.totalSizeBytes as real)),
     ("root_hash", Str(m.rootHash)),
     ("files", Arr(FilesToJson(m.files))),
     ("metadata", m.metadata)]
  }

  /** One file record of `from_dict`: an entry that is not a dict cannot be
      indexed by a field name. */
  function FileFromJson(j: Json): Result<FileInfo, Fault>
  {
    if !j.Obj? then Err(TypeError("file entry is not a dict"))
    else
      var path :- StringField(j.fields, "path");
      var size :- IntField(j.fields, "size_bytes");
      var digest :- StringField(j.fields, "sha256");
      var modified :- StringField(j.fields, "modified_at");
      Ok(FileInfo(path, size, digest, modified))
  }

  /** `DatasetManifest.from_dict`: the file records first, then the fields
      in declaration order; `created_by`, `source`, `files` and `metadata`
      have defaults. */
  function ManifestFromDict(data: Dict<Json>): Result<DatasetManifest, Fault>
  {
    var items :- KeyedItems(GetOr(data, "files", Arr([])));
    var files :- MapAll(FileFromJson, items);
    var datasetId :- StringField(data, "dataset_id");
    var version :- StringField(data, "version");
    var createdAt :- StringField(data, "created_at");
    var createdBy :- OptStringField(data, "created_by", "unknown");
    var source :- OptStringField(data, "source", "");
    var totalFiles :- IntField(data, "total_files");
    var totalSize :- IntField(data, "total_size_bytes");
    var rootHash :- StringField(data, "root_hash");
    Ok(DatasetManifest(datasetId, version, createdAt, createdBy, source, totalFiles, totalSize,
                       rootHash, files, GetOr(data, "metadata", Obj([]))))
  }

  lemma FileRoundTrip(f: FileInfo)
    ensures FileFromJson(FileToJson(f)) == Ok(f)
  {
    var d := FileToJson(f).fields;
    LookupFirst(d, 0, "path");
    LookupFirst(d, 1, "size_bytes");
    LookupFirst(d, 2, "sha256");
    LookupFirst(d, 3, "modified_at");
    assert (f.sizeBytes as real).Floor == f.sizeBytes;
  }

  /** The identifying values `from_dict` reads from a saved manifest. */
  lemma ManifestHeaderLookups(m: DatasetManifest)
    ensures var d := ManifestToDict(m);
            Lookup(d, "dataset_id") == Some(Str(m.datasetId))
            && Lookup(d, "version") == Some(Str(m.version))
            && Lookup(d, "created_at") == Some(Str(m.createdAt))
            && Lookup(d, "created_by") == Some(Str(m.createdBy))
            && Lookup(d, "source") == Some(Str(m.source))
  {
    var d := ManifestToDict(m);
    LookupFirst(d, 1, "dataset_id");
    LookupFirst(d, 2, "version");
    LookupFirst(d, 3, "created_at");
    LookupFirst(d, 4, "created_by");
    LookupFirst(d, 5, "source");
  }

  /** The totals, root, records and metadata `from_dict` reads from a saved manifest. */
  lemma ManifestBodyLookups(m: DatasetManifest)
    ensures var d := ManifestToDict(m);
            Lookup(d, "total_files") == Some(Num(m.totalFiles as real))
            && Lookup(d, "total_size_bytes") == Some(Num(m.totalSizeBytes as real))
            && Lookup(d, "root_hash") == Some(Str(m.rootHash))
            && Lookup(d, "files") == Some(Arr(FilesToJson(m.files)))
            && Lookup(d, "metadata") == Some(m.metadata)
  {
    var d := ManifestToDict(m);
    LookupFirst(d, 6, "total_files");
    LookupFirst(d, 7, "total_size_bytes");
    LookupFirst(d, 8, "root_hash");
    LookupFirst(d, 9, "files");
    LookupFirst(d, 10, "metadata");
  }

  lemma FilesRoundTrip(files: seq<FileInfo>)
    ensures MapAll(FileFromJson, FilesToJson(files)) == Ok(files)
  {
    var items := FilesToJson(files);
    forall i | 0 <= i < |items| ensures FileFromJson(items[i]) == Ok(files[i]) {
      FileRoundTrip(files[i]);
    }
    MapAllOk(FileFromJson, items);
    var loaded := MapAll(FileFromJson, items);
    assert loaded.Ok?;
    assert forall i :: 0 <= i < |items| ==> loaded.value[i] == files[i];
    assert loaded.value == files;
  }

  /** Loading a saved manifest gives the manifest back. */
  lemma ManifestRoundTrip(m: DatasetManifest)
    ensures ManifestFromDict(ManifestToDict(m)) == Ok(m)
  {
    ManifestHeaderLookups(m);
    ManifestBodyLookups(m);
    FilesRoundTrip(m.files);
    assert (m.totalFiles as real).Floor == m.totalFiles;
    assert (m.totalSizeBytes as real).Floor == m.totalSizeBytes;
  }
}
