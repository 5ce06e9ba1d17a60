/** Unpacking an uploaded archive into the input directory of a job. */
module ZipExtraction {
  import opened Basics
  import opened ArchiveNames

  type Bytes = seq<int>
  datatype Entry = Entry(name: string, symlink: bool, chunks: seq<Bytes>)

  /** A directory: its files and its sub-directories, by their path below it. */
  datatype Tree = Tree(files: map<Path, Bytes>, dirs: set<Path>)

  datatype Error = TooManyFiles | UnsafePath | SymlinkEntry | TooLarge | AlreadyExists | IoError

  /** Where an entry goes, below the destination. */
  function Target(e: Entry): Path {
    Kept(Split(e.name))
  }

  /**
   * For a name that passed the other checks, the containment check fails exactly when all its
   * segments are empty or "."; otherwise the target lies strictly under the destination and has
   * no "..", "." or empty segment below it.
   */
  lemma ContainmentFiresIff(dest: Path, e: Entry)
    requires !Unsafe(e.name)
    ensures !StrictlyUnder(dest, Resolve(dest, Split(e.name))) <==>
              forall s :: s in Split(e.name) ==> s == "" || s == "."
    ensures Resolve(dest, Split(e.name)) == dest + Target(e)
    ensures forall s :: s in Target(e) ==> s != "" && s != "." && s != ".."
  {
    var segments := Split(e.name);
    ResolveWithoutParents(dest, segments);
    KeptSegments(segments);
    if Kept(segments) != [] {
      assert Kept(segments)[0] in Kept(segments);
    }
  }

  // ---- The archive --------------------------------------------------------------

  function FileEntries(entries: seq<Entry>): seq<Entry> {
    if entries == [] then []
    else
      var last := entries[|entries| - 1];
      FileEntries(entries[..|entries| - 1]) + if IsDirectory(last.name) then [] else [last]
  }

  /** The entries that are files: those whose name does not end in a slash. */
  lemma {:induction false} FileEntriesMembers(entries: seq<Entry>)
    ensures forall e :: e in FileEntries(entries) <==>
              e in entries && (|e.name| == 0 || e.name[|e.name| - 1] != '/')
  {
    if entries != [] {
      var front, last := entries[..|entries| - 1], entries[|entries| - 1];
      FileEntriesMembers(front);
      assert entries == front + [last];
    }
  }

  function Content(chunks: seq<Bytes>): Bytes {
    if chunks == [] then [] else Content(chunks[..|chunks| - 1]) + chunks[|chunks| - 1]
  }

  lemma {:induction false} ContentConcat(a: seq<Bytes>, b: seq<Bytes>)
    ensures Content(a + b) == Content(a) + Content(b)
  {
    if b == [] {
      assert a + b == a;
    } else {
      assert (a + b)[..|a + b| - 1] == a + b[..|b| - 1];
      ContentConcat(a, b[..|b| - 1]);
    }
  }

  /** An entry's content is its chunks, one after the other. */
  lemma ContentNext(chunk: Bytes, chunks: seq<Bytes>)
    ensures Content([]) == [] && Content([chunk]) == chunk && Content([chunk] + chunks) == chunk + Content(chunks)
  {
    assert [chunk][..0] == [];
    ContentConcat([chunk], chunks);
  }

  function Size(entries: seq<Entry>): nat {
    if entries == [] then 0
    else Size(entries[..|entries| - 1]) + |Content(entries[|entries| - 1].chunks)|
  }

  // ---- Directories --------------------------------------------------------------

  function Parents(p: Path): set<Path> {
    set k: nat | k < |p| :: p[..k]
  }

  lemma ParentsArePrefixes(p: Path, q: Path)
    ensures q in Parents(p) <==> q < p
  {
    if q < p {
      assert p[..|q|] == q;
    }
  }

  /** Every file lies in directories, and nothing is both. */
  predicate WellFormed(t: Tree) {
    && [] !in t.files && t.files.Keys !! t.dirs
    && forall f :: f in t.files ==> Parents(f) <= t.dirs
  }

  /** `mkdir -p` of the parent, then an exclusive create. */
  predicate CanCreate(t: Tree, p: Path) {
    Parents(p) !! t.files.Keys && p !in t.files && p !in t.dirs
  }

  function WithFile(t: Tree, p: Path, content: Bytes): Tree {
    Tree(t.files[p := content], t.dirs + Parents(p))
  }

  predicate Conflict(p: Path, q: Path) {
    p <= q || q <= p
  }

  predicate FitsTree(t: Tree, p: Path) {
    p !in t.dirs && forall f :: f in t.files ==> !(f <= p)
  }

  /** Every entry can be unpacked, whatever the others are. */
  predicate EntryOk(e: Entry, t: Tree) {
    !Unsafe(e.name) && !e.symlink && Target(e) != [] && FitsTree(t, Target(e))
  }

  /** When an archive can be unpacked into the tree, stated without reference to the order of the work. */
  predicate Admissible(files: seq<Entry>, t: Tree, maxFiles: real, maxBytes: real) {
    && |files| as real <= maxFiles && Size(files) as real <= maxBytes
    && (forall i :: 0 <= i < |files| ==> EntryOk(files[i], t))
    && PairwiseApart(files)
  }

  predicate PairwiseApart(files: seq<Entry>) {
    forall i, j :: 0 <= i < j < |files| ==> !Conflict(Target(files[i]), Target(files[j]))
  }

  function Targets(files: seq<Entry>): set<Path> {
    set e | e in files :: Target(e)
  }

  function NewDirs(files: seq<Entry>): set<Path> {
    set e, q | e in files && q in Parents(Target(e)) :: q
  }

  /** The tree has gained exactly these files, at these places, and nothing else has changed. */
  predicate Gained(before: Tree, after: Tree, files: seq<Entry>) {
    && after.files.Keys == before.files.Keys + Targets(files)
    && (forall f :: f in before.files ==> f in after.files && after.files[f] == before.files[f])
    && (forall e :: e in files ==> Target(e) in after.files && after.files[Target(e)] == Content(e.chunks))
    && after.dirs == before.dirs + NewDirs(files)
  }

  lemma CanCreateIff(t: Tree, p: Path)
    ensures CanCreate(t, p) <==> FitsTree(t, p)
  {
    forall f | f in t.files
      ensures f in Parents(p) || f == p <==> f <= p
    {
      PrefixCases(f, p);
    }
  }

  lemma InNewDirsIff(files: seq<Entry>, p: Path)
    ensures p in NewDirs(files) <==> exists f :: f in files && p < Target(f)
  {
    forall f | f in files
      ensures p in Parents(Target(f)) <==> p < Target(f)
    {
      ParentsArePrefixes(Target(f), p);
    }
  }

  /** With an admissible beginning unpacked, the next entry can be created iff it stays admissible. */
  lemma NextFits(t: Tree, now: Tree, files: seq<Entry>, e: Entry)
    requires Gained(t, now, files)
    ensures CanCreate(now, Target(e)) <==> FitsTree(t, Target(e)) && Apart(files, e)
  {
    CanCreateIff(now, Target(e));
    InNewDirsIff(files, Target(e));
    assert forall f :: f in files ==> Target(f) in now.files;
    assert forall f :: f in now.files <==> f in t.files || f in Targets(files);
  }

  lemma PrefixCases(q: Path, p: Path)
    ensures q <= p <==> q in Parents(p) || q == p
  {
    ParentsArePrefixes(p, q);
    if q <= p && |q| == |p| {
      assert p[..|q|] == p;
    }
  }

  lemma GainsOne(t: Tree, now: Tree, files: seq<Entry>, e: Entry)
    requires Gained(t, now, files) && CanCreate(now, Target(e))
    ensures Gained(t, WithFile(now, Target(e), Content(e.chunks)), files + [e])
  {
    var after := files + [e];
    assert forall f :: f in after <==> f in files || f == e;
    assert Targets(after) == Targets(files) + {Target(e)};
    assert NewDirs(after) == NewDirs(files) + Parents(Target(e));
  }

  predicate Apart(files: seq<Entry>, e: Entry) {
    forall f :: f in files ==> !Conflict(Target(f), Target(e))
  }

  lemma ApartOnAppend(files: seq<Entry>, e: Entry)
    ensures PairwiseApart(files + [e]) <==> PairwiseApart(files) && Apart(files, e)
  {
    var after := files + [e];
    assert after[|files|] == e && forall i :: 0 <= i < |files| ==> after[i] == files[i];
    if PairwiseApart(after) {
      forall f | f in files
        ensures !Conflict(Target(f), Target(e))
      {
        var i :| 0 <= i < |files| && files[i] == f;
        assert !Conflict(Target(after[i]), Target(after[|files|]));
      }
      assert forall i, j :: 0 <= i < j < |files| ==> !Conflict(Target(after[i]), Target(after[j]));
    }
  }

  lemma SizeOnAppend(files: seq<Entry>, e: Entry)
    ensures Size(files + [e]) == Size(files) + |Content(e.chunks)|
  {
    assert (files + [e])[..|files|] == files;
  }

  /** Appending an entry to an admissible list. */
  lemma AdmissibleAppend(files: seq<Entry>, e: Entry, t: Tree, maxFiles: real, maxBytes: real)
    requires Admissible(files, t, maxFiles, maxBytes)
    ensures Admissible(files + [e], t, maxFiles, maxBytes) <==>
              && (|files| + 1) as real <= maxFiles && (Size(files) + |Content(e.chunks)|) as real <= maxBytes
              && EntryOk(e, t) && Apart(files, e)
  {
    ApartOnAppend(files, e);
    SizeOnAppend(files, e);
    var after := files + [e];
    assert after[|files|] == e && forall i :: 0 <= i < |files| ==> after[i] == files[i];
  }

  lemma NextEntry(entries: seq<Entry>, n: nat)
    requires n < |entries|
    ensures FileEntries(entries[..n + 1]) ==
              if IsDirectory(entries[n].name) then FileEntries(entries[..n])
              else FileEntries(entries[..n]) + [entries[n]]
  {
    assert entries[..n + 1][..n] == entries[..n];
    assert FileEntries(entries[..n]) + [] == FileEntries(entries[..n]);
  }

  /** What cannot be unpacked at the beginning cannot be unpacked at all. */
  lemma {:induction false} AdmissiblePrefix(entries: seq<Entry>, n: nat, t: Tree, maxFiles: real, maxBytes: real)
    requires n <= |entries| && Admissible(FileEntries(entries), t, maxFiles, maxBytes)
    ensures Admissible(FileEntries(entries[..n]), t, maxFiles, maxBytes)
    decreases |entries|
  {
    if n == |entries| {
      assert entries[..n] == entries;
    } else {
      var front := entries[..|entries| - 1];
      assert entries[..n] == front[..n];
      AdmissibleBut(entries, t, maxFiles, maxBytes);
      AdmissiblePrefix(front, n, t, maxFiles, maxBytes);
    }
  }

  lemma AdmissibleBut(entries: seq<Entry>, t: Tree, maxFiles: real, maxBytes: real)
    requires entries != [] && Admissible(FileEntries(entries), t, maxFiles, maxBytes)
    ensures Admissible(FileEntries(entries[..|entries| - 1]), t, maxFiles, maxBytes)
  {
    var n := |entries| - 1;
    assert entries[..n + 1] == entries;
    NextEntry(entries, n);
    if !IsDirectory(entries[n].name) {
      AdmissibleFront(FileEntries(entries[..n]), entries[n], t, maxFiles, maxBytes);
    }
  }

  lemma AdmissibleFront(files: seq<Entry>, e: Entry, t: Tree, maxFiles: real, maxBytes: real)
    requires Admissible(files + [e], t, maxFiles, maxBytes)
    ensures Admissible(files, t, maxFiles, maxBytes)
  {
    var after := files + [e];
    assert after[..|after| - 1] == files;
    assert forall i :: 0 <= i < |files| ==> after[i] == files[i];
  }

  // ---- Unpacking ----------------------------------------------------------------

  /** Counts what is read chunk by chunk and stops as soon as the limit is passed. */
  method CopyStream(chunks: seq<Bytes>, before: nat, maxBytes: real) returns (content: Bytes, written: nat, ok: bool)
    requires before as real <= maxBytes
    ensures ok <==> (before + |Content(chunks)|) as real <= maxBytes
    ensures ok ==> content == Content(chunks) && written == before + |Content(chunks)|
  {
    content, written := [], before;
    var i := 0;
    while i < |chunks|
      invariant 0 <= i <= |chunks|
      invariant content == Content(chunks[..i]) && written == before + |content| && written as real <= maxBytes
    {
      assert chunks[..i + 1][..i] == chunks[..i];
      content := content + chunks[i];
      written := written + |chunks[i]|;
      i := i + 1;
      if written as real > maxBytes {
        ContentGrows(chunks, i);
        return content, written, false;
      }
    }
    assert chunks[..i] == chunks;
    ok := true;
  }

  lemma {:induction false} ContentGrows(chunks: seq<Bytes>, n: nat)
    requires n <= |chunks|
    ensures |Content(chunks[..n])| <= |Content(chunks)|
    decreases |chunks|
  {
    if n == |chunks| {
      assert chunks[..n] == chunks;
    } else {
      var front := chunks[..|chunks| - 1];
      assert front[..n] == chunks[..n];
      ContentGrows(front, n);
    }
  }

  /** There is something at the place already, or a file where one of its directories should be. */
  ghost predicate InTheWay(t: Tree, p: Path) {
    p in t.dirs || p in t.files || exists k :: 0 <= k < |p| && p[..k] in t.files
  }

  lemma InTheWayIff(t: Tree, p: Path)
    ensures InTheWay(t, p) <==> !CanCreate(t, p)
  {
    if InTheWay(t, p) && p !in t.dirs && p !in t.files {
      var k :| 0 <= k < |p| && p[..k] in t.files;
      assert p[..k] in Parents(p);
    }
    if !(Parents(p) !! t.files.Keys) {
      var q :| q in Parents(p) && q in t.files;
      ParentsArePrefixes(p, q);
      assert p[..|q|] == q;
    }
  }

  /** The checks and the write of one file entry, after `done` have been unpacked from `t` into `now`. */
  method ExtractEntry(e: Entry, dest: Path, ghost t: Tree, now: Tree, ghost done: seq<Entry>, written: nat,
                      fileCount: nat, maxFiles: real, maxBytes: real)
    returns (r: Result<Tree, Error>, total: nat)
    requires Admissible(done, t, maxFiles, maxBytes) && Gained(t, now, done)
    requires written == Size(done) && fileCount == |done|
    ensures r.Ok? <==> Admissible(done + [e], t, maxFiles, maxBytes)
    ensures r.Ok? ==> Gained(t, r.value, done + [e]) && total == Size(done + [e])
    ensures r == Err(TooManyFiles) <==> (fileCount + 1) as real > maxFiles
    ensures r == Err(SymlinkEntry) <==> (fileCount + 1) as real <= maxFiles && !Escapes(e.name) && e.symlink
    ensures r == Err(UnsafePath) <==>
              (fileCount + 1) as real <= maxFiles && (Escapes(e.name) || (!e.symlink && Target(e) == []))
    ensures r == Err(AlreadyExists) <==>
              && (fileCount + 1) as real <= maxFiles && !Escapes(e.name) && !e.symlink && Target(e) != []
              && InTheWay(now, Target(e))
    ensures r == Err(TooLarge) <==>
              && (fileCount + 1) as real <= maxFiles && !Escapes(e.name) && !e.symlink && Target(e) != []
              && !InTheWay(now, Target(e)) && (written + |Content(e.chunks)|) as real > maxBytes
    ensures r != Err(IoError)
  {
    UnsafeIff(e.name);
    InTheWayIff(now, Target(e));
    AdmissibleAppend(done, e, t, maxFiles, maxBytes);
    SizeOnAppend(done, e);
    total := written;
    if (fileCount + 1) as real > maxFiles {
      return Err(TooManyFiles), total;
    }
    if Unsafe(e.name) {
      return Err(UnsafePath), total;
    }
    if e.symlink {
      return Err(SymlinkEntry), total;
    }
    ContainmentFiresIff(dest, e);
    var target := Resolve(dest, Split(e.name));
    if !StrictlyUnder(dest, target) {
      return Err(UnsafePath), total;
    }
    var place := target[|dest|..];
    assert place == Target(e);
    NextFits(t, now, done, e);
    if !CanCreate(now, place) {
      return Err(AlreadyExists), total;
    }
    var content, sum, ok := CopyStream(e.chunks, written, maxBytes);
    if !ok {
      return Err(TooLarge), total;
    }
    GainsOne(t, now, done, e);
    return Ok(WithFile(now, place, content)), sum;
  }

  lemma IntactNext(broken: set<nat>, n: nat)
    requires Intact(broken, n)
    ensures Intact(broken, n + 1) <==> n !in broken
  {
    assert n in broken ==> !(n >= n + 1);
  }

  lemma BrokenIsUnreadable(entries: seq<Entry>, broken: set<nat>, n: nat)
    requires n <= |entries| && n in broken
    ensures !Readable(entries, broken)
  {
  }

  lemma CannotRecover(entries: seq<Entry>, n: nat, t: Tree, maxFiles: real, maxBytes: real)
    requires n <= |entries| && !Admissible(FileEntries(entries[..n]), t, maxFiles, maxBytes)
    ensures !Admissible(FileEntries(entries), t, maxFiles, maxBytes)
  {
    if Admissible(FileEntries(entries), t, maxFiles, maxBytes) {
      AdmissiblePrefix(entries, n, t, maxFiles, maxBytes);
    }
  }

  predicate Readable(entries: seq<Entry>, broken: set<nat>) {
    Intact(broken, |entries| + 1)
  }

  /** Nothing is broken before index n. */
  predicate Intact(broken: set<nat>, n: nat) {
    forall k :: k in broken ==> k >= n
  }

  /** Said of the archive's own entries, without the list of those that are files. */
  ghost predicate IsFile(e: Entry) {
    |e.name| == 0 || e.name[|e.name| - 1] != '/'
  }

  /** Every file of the archive is at its place with its bytes, nothing else is new, and nothing is lost. */
  ghost predicate Unpacked(entries: seq<Entry>, before: Tree, after: Tree) {
    && (forall i :: 0 <= i < |entries| && IsFile(entries[i]) ==>
          Target(entries[i]) in after.files && after.files[Target(entries[i])] == Content(entries[i].chunks))
    && (forall f :: f in after.files && f !in before.files ==>
          exists i :: 0 <= i < |entries| && IsFile(entries[i]) && Target(entries[i]) == f)
    && (forall f :: f in before.files ==> f in after.files && after.files[f] == before.files[f])
  }

  lemma GainedIsUnpacked(entries: seq<Entry>, before: Tree, after: Tree, maxFiles: real, maxBytes: real)
    requires Gained(before, after, FileEntries(entries))
    ensures Unpacked(entries, before, after)
    ensures Admissible(FileEntries(entries), before, maxFiles, maxBytes) ==>
              forall e :: e in entries && IsFile(e) ==> !Escapes(e.name) && !e.symlink && Target(e) != []
  {
    FileEntriesMembers(entries);
    var files := FileEntries(entries);
    forall f | f in after.files && f !in before.files
      ensures exists i :: 0 <= i < |entries| && IsFile(entries[i]) && Target(entries[i]) == f
    {
      var e :| e in files && Target(e) == f;
      var i :| 0 <= i < |entries| && entries[i] == e;
    }
    if Admissible(files, before, maxFiles, maxBytes) {
      forall e | e in entries && IsFile(e)
        ensures !Escapes(e.name) && !e.symlink && Target(e) != []
      {
        var k :| 0 <= k < |files| && files[k] == e;
        assert EntryOk(files[k], before);
        UnsafeIff(e.name);
      }
    }
  }

  /**
   * Unpacks the entries in order. `broken` says at which entry reading or writing fails for
   * reasons of its own (|entries| for the end of the archive).
   */
  method ExtractZip(entries: seq<Entry>, dest: Path, t: Tree, maxFiles: real, maxBytes: real, broken: set<nat>)
    returns (r: Result<Tree, Error>)
    requires maxFiles >= 0.0 && maxBytes >= 0.0
    ensures r.Ok? ==> Gained(t, r.value, FileEntries(entries))
    ensures r.Ok? <==> Admissible(FileEntries(entries), t, maxFiles, maxBytes) && Readable(entries, broken)
    ensures r == Err(IoError) ==> !Readable(entries, broken)
    ensures r.Ok? ==> Unpacked(entries, t, r.value)
    ensures r.Ok? ==> forall e :: e in entries && IsFile(e) ==> !Escapes(e.name) && !e.symlink && Target(e) != []
  {
    r := ExtractEntries(entries, dest, t, maxFiles, maxBytes, broken);
    if r.Ok? {
      GainedIsUnpacked(entries, t, r.value, maxFiles, maxBytes);
    }
  }

  method ExtractEntries(entries: seq<Entry>, dest: Path, t: Tree, maxFiles: real, maxBytes: real, broken: set<nat>)
    returns (r: Result<Tree, Error>)
    requires maxFiles >= 0.0 && maxBytes >= 0.0
    ensures r.Ok? ==> Gained(t, r.value, FileEntries(entries))
    ensures r.Ok? <==> Admissible(FileEntries(entries), t, maxFiles, maxBytes) && Readable(entries, broken)
    ensures r == Err(IoError) ==> !Readable(entries, broken)
  {
    var now, written, fileCount := t, 0, 0;
    var i := 0;
    while i < |entries|
      invariant 0 <= i <= |entries| && Intact(broken, i)
      invariant var done := FileEntries(entries[..i]);
                && Admissible(done, t, maxFiles, maxBytes) && Gained(t, now, done)
                && written == Size(done) && fileCount == |done|
    {
      IntactNext(broken, i);
      if i in broken {
        BrokenIsUnreadable(entries, broken, i);
        return Err(IoError);
      }
      NextEntry(entries, i);
      if !IsDirectory(entries[i].name) {
        var step, total := ExtractEntry(entries[i], dest, t, now, FileEntries(entries[..i]), written, fileCount,
            maxFiles, maxBytes);
        if step.Err? {
          CannotRecover(entries, i + 1, t, maxFiles, maxBytes);
          return Err(step.error);
        }
        now, written, fileCount := step.value, total, fileCount + 1;
      }
      i := i + 1;
    }
    assert entries[..i] == entries;
    IntactNext(broken, i);
    if i in broken {
      BrokenIsUnreadable(entries, broken, i);
      return Err(IoError);
    }
    return Ok(now);
  }

  /** Unpacked files are at different places, all of them new. */
  lemma UnpackedFiles(before: Tree, files: seq<Entry>, maxFiles: real, maxBytes: real)
    requires Admissible(files, before, maxFiles, maxBytes)
    ensures |Targets(files)| == |files| && Targets(files) !! before.files.Keys
    ensures forall p :: p in Targets(files) ==> p != []
  {
    TargetsDiffer(files);
    forall e | e in files
      ensures EntryOk(e, before)
    {
      var i :| 0 <= i < |files| && files[i] == e;
    }
  }

  lemma TargetIsNoDirectory(before: Tree, files: seq<Entry>, maxFiles: real, maxBytes: real, e: Entry)
    requires Admissible(files, before, maxFiles, maxBytes) && e in files
    ensures Target(e) !in before.dirs + NewDirs(files) && Target(e) != []
  {
    var i :| 0 <= i < |files| && files[i] == e;
    assert EntryOk(files[i], before);
    forall f | f in files
      ensures Target(e) !in Parents(Target(f))
    {
      var j :| 0 <= j < |files| && files[j] == f;
      ParentsArePrefixes(Target(f), Target(e));
      assert i < j ==> !Conflict(Target(files[i]), Target(files[j]));
      assert j < i ==> !Conflict(Target(files[j]), Target(files[i]));
    }
  }

  lemma OldFileIsNoDirectory(before: Tree, files: seq<Entry>, maxFiles: real, maxBytes: real, f: Path)
    requires Admissible(files, before, maxFiles, maxBytes) && f in before.files
    ensures f !in NewDirs(files)
  {
    forall e | e in files
      ensures f !in Parents(Target(e))
    {
      var i :| 0 <= i < |files| && files[i] == e;
      assert EntryOk(files[i], before);
      ParentsArePrefixes(Target(e), f);
    }
  }

  /** Unpacking leaves a proper directory tree: no file is also a directory, every file lies in directories. */
  lemma UnpackedTree(before: Tree, after: Tree, files: seq<Entry>, maxFiles: real, maxBytes: real)
    requires Admissible(files, before, maxFiles, maxBytes) && Gained(before, after, files) && WellFormed(before)
    ensures WellFormed(after)
  {
    forall f | f in after.files
      ensures f != [] && f !in after.dirs && Parents(f) <= after.dirs
    {
      if f in before.files {
        OldFileIsNoDirectory(before, files, maxFiles, maxBytes, f);
      } else {
        var e :| e in files && Target(e) == f;
        TargetIsNoDirectory(before, files, maxFiles, maxBytes, e);
      }
    }
  }

  lemma {:induction false} TargetsDiffer(files: seq<Entry>)
    requires PairwiseApart(files)
    ensures |Targets(files)| == |files|
  {
    if files != [] {
      var front, last := files[..|files| - 1], files[|files| - 1];
      TargetsDiffer(front);
      assert files == front + [last];
      assert Targets(files) == Targets(front) + {Target(last)};
      assert Target(last) !in Targets(front);
    }
  }

  // ---- Storing an uploaded archive -----------------------------------------------

  datatype StoreError = UploadTooLarge | InvalidFile | InvalidName | MoveFailed | BadArchive(error: Error)

  /**
   * What the upload and the disk have to offer: the upload passed its own validation, and making the
   * directory and moving into it work.
   */
  datatype Upload = Upload(name: string, archive: Bytes, entries: seq<Entry>, valid: bool, disk: bool, broken: set<nat>)

  predicate Free(before: Tree, at: Path) {
    at !in before.files && at !in before.dirs
  }

  function WithArchive(before: Tree, u: Upload): Tree {
    Tree(before.files[[u.name] := u.archive], before.dirs)
  }

  /** When an uploaded archive is stored. */
  ghost predicate Storable(u: Upload, before: Tree, maxUpload: real, maxFiles: real, maxBytes: real) {
    && |u.archive| as real <= maxUpload && u.valid && u.disk && ProperFileName(u.name) && Free(before, [u.name])
    && Admissible(FileEntries(u.entries), WithArchive(before, u), maxFiles, maxBytes) && Readable(u.entries, u.broken)
  }

  /**
   * The archive is moved into the input directory, unpacked there, and deleted again. An archive that
   * is too large is refused at once; after any other failure the whole directory of the job is removed
   * (`after` is None), which is assumed to work.
   */
  method StoreArchive(u: Upload, dest: Path, before: Tree, maxUpload: real, maxFiles: real, maxBytes: real)
    returns (r: Result<(), StoreError>, after: Option<Tree>)
    requires maxFiles >= 0.0 && maxBytes >= 0.0
    ensures r.Ok? <==> Storable(u, before, maxUpload, maxFiles, maxBytes)
    ensures r.Ok? ==> after.Some? && Gained(before, after.value, FileEntries(u.entries))
    ensures r.Ok? ==> Unpacked(u.entries, before, after.value)
    ensures r.Ok? ==> forall e :: e in u.entries && IsFile(e) ==> !Escapes(e.name) && !e.symlink && Target(e) != []
    ensures r.Ok? ==> [u.name] !in after.value.files
    ensures r.Ok? ==> forall e :: e in FileEntries(u.entries) ==> [u.name] != Target(e)
    ensures r == Err(UploadTooLarge) <==> |u.archive| as real > maxUpload
    ensures r.Err? ==> after == if r.error == UploadTooLarge then Some(before) else None
  {
    ClientNameIff(u.name);
    if |u.archive| as real > maxUpload {
      return Err(UploadTooLarge), Some(before);
    }
    if !u.valid {
      return Err(InvalidFile), None;
    }
    if !SafeClientName(u.name) {
      return Err(InvalidName), None;
    }
    if !u.disk || [u.name] in before.files || [u.name] in before.dirs {
      return Err(MoveFailed), None;
    }
    var withArchive := Tree(before.files[[u.name] := u.archive], before.dirs);
    var unpacked := ExtractZip(u.entries, dest, withArchive, maxFiles, maxBytes, u.broken);
    match unpacked
    case Err(error) => return Err(BadArchive(error)), None;
    case Ok(tree) =>
      ArchiveIsNoTarget(before, [u.name], u.archive, FileEntries(u.entries), maxFiles, maxBytes);
      after := Some(Tree(tree.files - {[u.name]}, tree.dirs));
      GainedIsUnpacked(u.entries, before, after.value, maxFiles, maxBytes);
      r := Ok(());
  }

  lemma ArchiveIsNoTarget(before: Tree, at: Path, archive: Bytes, files: seq<Entry>, maxFiles: real, maxBytes: real)
    requires at !in before.files
    requires Admissible(files, Tree(before.files[at := archive], before.dirs), maxFiles, maxBytes)
    ensures Admissible(files, before, maxFiles, maxBytes)
    ensures forall e :: e in files ==> Target(e) != at
  {
    var t := Tree(before.files[at := archive], before.dirs);
    assert at in t.files;
    forall i | 0 <= i < |files|
      ensures EntryOk(files[i], before) && Target(files[i]) != at
    {
      assert EntryOk(files[i], t);
      assert forall f :: f in before.files ==> f in t.files;
    }
  }
}
