/** Resolution of the Terraform working directories a job must process
    (internal/adapters/workingdir: config.go, list.go, parse.go).

    The file system, `regexp.Compile` and `filepath.Join` are outside the
    model; they are passed in as a `Host`. The `dir` and `file` validation
    tags consult the file system through a `FileSystem`. */
module WorkingDir {
  import opened Wrappers
  import opened Strings
  import Partition

  // ---------------------------------------------------------------- config.go

  /** Buildkite's parallel-job context; both pointers may be nil. */
  datatype Parallelism = Parallelism(parallelJob: Option<int>, parallelJobCount: Option<int>)

  datatype Directories = Directories(parentDirectory: string, artifact: string, nameRegex: string)

  datatype Working = Working(
    directory: Option<string>,
    directories: Option<Directories>,
    parallelism: Option<Parallelism>)

  const ParallelJobEnv: string := "BUILDKITE_PARALLEL_JOB"
  const ParallelJobCountEnv: string := "BUILDKITE_PARALLEL_JOB_COUNT"

  /** What the `dir` and `file` validation tags ask of the file system. */
  datatype FileSystem = FileSystem(isDir: string -> bool, isFile: string -> bool)

  /** The `dir` tag: the path names an existing directory (the empty path
      never does). */
  predicate DirTag(fs: FileSystem, path: string) {
    path != "" && fs.isDir(path)
  }

  /** The `file` tag: the path names an existing regular file. */
  predicate FileTag(fs: FileSystem, path: string) {
    path != "" && fs.isFile(path)
  }

  /** The tags of `Parallelism`. `omitempty` skips every check of a nil
      pointer, so `required_with` on `ParallelJob` never fires; `ltefield`
      fails when the count is nil and otherwise demands job <= count. The
      count's own tags hold whenever it is set. */
  predicate ParallelismValid(p: Parallelism) {
    p.parallelJob.Some? ==>
      p.parallelJobCount.Some? && p.parallelJob.value <= p.parallelJobCount.value
  }

  /** The tags of `Directories`: `ParentDirectory` carries `dir` without
      `omitempty` and is excluded by a non-empty `Artifact`; a non-empty
      `Artifact` must be a file and excludes `ParentDirectory`. */
  predicate DirectoriesValid(d: Directories, fs: FileSystem) {
    && DirTag(fs, d.parentDirectory)
    && (d.artifact != "" ==> d.parentDirectory == "")
    && (d.artifact != "" ==> FileTag(fs, d.artifact) && d.parentDirectory == "")
  }

  /** The tags of `Working`. On a pointer field `omitempty` skips the
      checks only when the pointer is nil: a `Directory` that is set, even to
      "", must name an existing directory, and `excluded_with` on either
      field counts any non-nil pointer as present. */
  predicate WorkingValid(w: Working, fs: FileSystem) {
    && (w.directory.Some? ==> DirTag(fs, w.directory.value) && w.directories.None?)
    && (w.directories.Some? ==>
          w.directory.None? && DirectoriesValid(w.directories.value, fs))
    && (w.parallelism.Some? ==> ParallelismValid(w.parallelism.value))
  }

  /** Validation never admits both a single directory and a
      directory-discovery block, and a single directory it admits names an
      existing directory. */
  lemma WorkingModesExclusive(w: Working, fs: FileSystem)
    requires WorkingValid(w, fs)
    ensures !(w.directory.Some? && w.directories.Some?)
    ensures w.directory.Some? ==> w.directory.value != "" && fs.isDir(w.directory.value)
  {
  }

  /** A `Directory` set to "" is refused: `omitempty` does not skip a
      non-nil pointer, and `dir` fails on the empty path. */
  lemma EmptyDirectoryRefused(fs: FileSystem, directories: Option<Directories>, parallelism: Option<Parallelism>)
    ensures !WorkingValid(Working(Some(""), directories, parallelism), fs)
  {
  }

  /** A validated discovery block always names an existing parent directory
      and never an artifact, so the artifact path of the resolution is out of
      reach of validated configuration. */
  lemma ValidatedDirectoriesUseParent(d: Directories, fs: FileSystem)
    requires DirectoriesValid(d, fs)
    ensures d.parentDirectory != "" && d.artifact == ""
  {
  }

  /** `ltefield` admits a job index equal to the job count. */
  lemma JobIndexMayEqualCount(n: int)
    ensures ParallelismValid(Parallelism(Some(n), Some(n)))
    ensures !ParallelismValid(Parallelism(Some(n + 1), Some(n)))
  {
  }

  /** A count without an index passes validation; an index without a count
      does not. */
  lemma ParallelismNilCases(n: int)
    ensures ParallelismValid(Parallelism(None, Some(n)))
    ensures !ParallelismValid(Parallelism(Some(n), None))
  {
  }

  /** One branch of the JSON schema's `oneOf`: `required` must be present and
      `forbidden` absent. */
  datatype SchemaBranch = SchemaBranch(required: string, forbidden: string)

  /** The `oneOf` that `JSONSchemaExtend` attaches to `Working`. */
  function WorkingOneOf(): seq<SchemaBranch> {
    [SchemaBranch("directory", "directories"), SchemaBranch("directories", "directory")]
  }

  predicate BranchAccepts(b: SchemaBranch, keys: set<string>) {
    b.required in keys && b.forbidden !in keys
  }

  function AcceptingBranches(branches: seq<SchemaBranch>, keys: set<string>): nat {
    if branches == [] then 0
    else (if BranchAccepts(branches[0], keys) then 1 else 0)
         + AcceptingBranches(branches[1..], keys)
  }

  /** A `oneOf` accepts an object matched by exactly one branch. */
  predicate SchemaAccepts(keys: set<string>) {
    AcceptingBranches(WorkingOneOf(), keys) == 1
  }

  /** The schema accepts a `working` object exactly when it has one of
      `directory` and `directories` and not both. */
  lemma SchemaRequiresExactlyOne(keys: set<string>)
    ensures SchemaAccepts(keys) <==> (("directory" in keys) != ("directories" in keys))
  {
    var b := WorkingOneOf();
    assert b[1..][1..] == [];
    assert AcceptingBranches(b[1..][1..], keys) == 0;
    assert b[1..][0] == b[1];
    assert AcceptingBranches(b[1..], keys) == (if BranchAccepts(b[1], keys) then 1 else 0);
  }

  /** The runtime tags, unlike the schema, accept a `working` block with
      neither `directory` nor `directories` (only parallelism). */
  lemma ValidationWeakerThanSchema(fs: FileSystem)
    ensures WorkingValid(Working(None, None, Some(Parallelism(Some(0), Some(2)))), fs)
    ensures !SchemaAccepts({"parallelism"})
  {
    SchemaRequiresExactlyOne({"parallelism"});
    assert "directory" != "parallelism" && "directories" != "parallelism";
  }

  // ------------------------------------------------------------------ list.go

  datatype DirEntry = DirEntry(name: string, isDir: bool)

  /** The operating system as `listDirs` sees it. */
  datatype Host = Host(
    compile: string -> Result<string -> bool>,
    readDir: string -> Result<seq<DirEntry>>,
    join: (string, string) -> string)

  /** An entry that `listDirs` keeps. */
  predicate Keeps(e: DirEntry, matches: string -> bool) {
    e.isDir && matches(e.name)
  }

  /** The joined paths of the kept entries, in directory order. */
  function FoundDirs(path: string, entries: seq<DirEntry>, matches: string -> bool,
                     join: (string, string) -> string): seq<string>
  {
    if entries == [] then []
    else
      var last := entries[|entries| - 1];
      FoundDirs(path, entries[..|entries| - 1], matches, join)
      + (if Keeps(last, matches) then [join(path, last.name)] else [])
  }

  function SkippedFiles(entries: seq<DirEntry>): nat {
    if entries == [] then 0
    else SkippedFiles(entries[..|entries| - 1]) + (if entries[|entries| - 1].isDir then 0 else 1)
  }

  function RegexFiltered(entries: seq<DirEntry>, matches: string -> bool): nat {
    if entries == [] then 0
    else
      var last := entries[|entries| - 1];
      RegexFiltered(entries[..|entries| - 1], matches)
      + (if last.isDir && !matches(last.name) then 1 else 0)
  }

  /** What `listDirs(path, nameRegex)` returns: the compile error, else the
      read error, else the found directories. */
  function ListedDirs(path: string, nameRegex: string, host: Host): Result<seq<string>> {
    var matches :- host.compile(nameRegex);
    var entries :- host.readDir(path);
    Ok(FoundDirs(path, entries, matches, host.join))
  }

  /** `listDirs`: one pass over the entries that skips files, filters names
      through the pattern and joins the survivors to `path`. Every entry is
      accounted for exactly once as found, skipped or filtered. */
  method ListDirs(path: string, nameRegex: string, host: Host)
    returns (r: Result<seq<string>>, ghost skippedFiles: nat, ghost regexFiltered: nat)
    ensures r == ListedDirs(path, nameRegex, host)
    ensures r.Ok? ==> |r.value| + skippedFiles + regexFiltered == |host.readDir(path).value|
  {
    skippedFiles, regexFiltered := 0, 0;
    var compiled := host.compile(nameRegex);
    if !compiled.Ok? {
      return compiled.PropagateFailure(), skippedFiles, regexFiltered;
    }
    var matches := compiled.value;
    var read := host.readDir(path);
    if !read.Ok? {
      return read.PropagateFailure(), skippedFiles, regexFiltered;
    }
    var entries := read.value;
    var dirs: seq<string> := [];
    var i := 0;
    while i < |entries|
      invariant 0 <= i <= |entries|
      invariant dirs == FoundDirs(path, entries[..i], matches, host.join)
      invariant skippedFiles == SkippedFiles(entries[..i])
      invariant regexFiltered == RegexFiltered(entries[..i], matches)
      invariant |dirs| + skippedFiles + regexFiltered == i
    {
      var entry := entries[i];
      assert entries[..i + 1][..i] == entries[..i];
      if !entry.isDir {
        skippedFiles := skippedFiles + 1;
      } else if !matches(entry.name) {
        regexFiltered := regexFiltered + 1;
      } else {
        dirs := dirs + [host.join(path, entry.name)];
      }
      i := i + 1;
    }
    assert entries[..i] == entries;
    return Ok(dirs), skippedFiles, regexFiltered;
  }

  /** Listing a directory in two parts lists the parts in order. */
  lemma {:induction false} FoundDirsAppend(path: string, a: seq<DirEntry>, b: seq<DirEntry>,
                                           matches: string -> bool, join: (string, string) -> string)
    ensures FoundDirs(path, a + b, matches, join)
            == FoundDirs(path, a, matches, join) + FoundDirs(path, b, matches, join)
    decreases |b|
  {
    if b == [] {
      assert a + b == a;
    } else {
      var b' := b[..|b| - 1];
      assert (a + b)[..|a + b| - 1] == a + b';
      FoundDirsAppend(path, a, b', matches, join);
    }
  }

  /** `dir` is the join of `path` with the name of a kept entry. */
  ghost predicate FromKeptEntry(dir: string, path: string, entries: seq<DirEntry>,
                                matches: string -> bool, join: (string, string) -> string)
  {
    exists i :: 0 <= i < |entries| && Keeps(entries[i], matches) && dir == join(path, entries[i].name)
  }

  /** Every found path is the join of `path` with a kept entry's name. */
  lemma {:induction false} FoundDirsSound(path: string, entries: seq<DirEntry>,
                                          matches: string -> bool, join: (string, string) -> string)
    ensures forall k :: 0 <= k < |FoundDirs(path, entries, matches, join)| ==>
              FromKeptEntry(FoundDirs(path, entries, matches, join)[k], path, entries, matches, join)
  {
    if entries != [] {
      var init := entries[..|entries| - 1];
      var last := |entries| - 1;
      FoundDirsSound(path, init, matches, join);
      var r := FoundDirs(path, entries, matches, join);
      var ri := FoundDirs(path, init, matches, join);
      assert r == ri + (if Keeps(entries[last], matches) then [join(path, entries[last].name)] else []);
      forall k | 0 <= k < |r|
        ensures FromKeptEntry(r[k], path, entries, matches, join)
      {
        if k < |ri| {
          assert r[k] == ri[k];
          assert FromKeptEntry(ri[k], path, init, matches, join);
          var i :| 0 <= i < |init| && Keeps(init[i], matches) && ri[k] == join(path, init[i].name);
          assert entries[i] == init[i];
        } else {
          assert Keeps(entries[last], matches) && r[k] == join(path, entries[last].name);
        }
      }
    }
  }

  /** Every kept entry shows up among the found paths. */
  lemma {:induction false} FoundDirsComplete(path: string, entries: seq<DirEntry>,
                                             matches: string -> bool, join: (string, string) -> string)
    ensures forall i :: 0 <= i < |entries| && Keeps(entries[i], matches) ==>
              join(path, entries[i].name) in FoundDirs(path, entries, matches, join)
  {
    if entries != [] {
      var init := entries[..|entries| - 1];
      FoundDirsComplete(path, init, matches, join);
      forall i | 0 <= i < |entries| && Keeps(entries[i], matches)
        ensures join(path, entries[i].name) in FoundDirs(path, entries, matches, join)
      {
        if i < |init| {
          assert entries[i] == init[i];
        }
      }
    }
  }

  /** A listing without sub-directories finds nothing. */
  lemma {:induction false} OnlyFilesFindsNothing(path: string, entries: seq<DirEntry>,
                                                 matches: string -> bool, join: (string, string) -> string)
    requires forall i :: 0 <= i < |entries| ==> !entries[i].isDir
    ensures FoundDirs(path, entries, matches, join) == []
  {
    if entries != [] {
      OnlyFilesFindsNothing(path, entries[..|entries| - 1], matches, join);
    }
  }

  /** Example: three sub-directories and a file, filtered by a pattern accepting
      `blue` and `green`. */
  lemma ListingExample()
    ensures FoundDirs("/tmp/t",
                      [DirEntry("blue", true), DirEntry("green", true),
                       DirEntry("notes.txt", false), DirEntry("red", true)],
                      n => n == "blue" || n == "green",
                      (p, n) => p + "/" + n)
            == ["/tmp/t/blue", "/tmp/t/green"]
  {
    var m := (n: string) => n == "blue" || n == "green";
    var j := (p: string, n: string) => p + "/" + n;
    var blue, green := DirEntry("blue", true), DirEntry("green", true);
    var notes, red := DirEntry("notes.txt", false), DirEntry("red", true);
    assert j("/tmp/t", "blue") == "/tmp/t/blue";
    assert j("/tmp/t", "green") == "/tmp/t/green";
    assert m("blue") && m("green");
    assert [blue][..0] == [];
    assert FoundDirs("/tmp/t", [blue], m, j) == ["/tmp/t/blue"];
    assert [blue, green][..1] == [blue];
    assert FoundDirs("/tmp/t", [blue, green], m, j) == ["/tmp/t/blue", "/tmp/t/green"];
    assert [blue, green, notes][..2] == [blue, green];
    assert FoundDirs("/tmp/t", [blue, green, notes], m, j) == ["/tmp/t/blue", "/tmp/t/green"];
    assert [blue, green, notes, red][..3] == [blue, green, notes];
    assert !m("red");
  }

  // ----------------------------------------------------------------- parse.go

  const NoValidConfiguration: string := "no valid working directory configuration found"
  const DirectoriesNil: string := "working directories configuration is nil"
  const ArtifactNotImplemented: string := "artifact handling not implemented yet"
  const NilDereference: string := "invalid memory address or nil pointer dereference"

  /** `handleWorkingDirectories`: a parent directory is listed; otherwise an
      artifact is refused as unimplemented; otherwise there is nothing to
      resolve. */
  function HandleWorkingDirectories(d: Option<Directories>, host: Host): (r: Result<seq<string>>)
    ensures d.Some? && d.value.parentDirectory != "" ==>
              r == ListedDirs(d.value.parentDirectory, d.value.nameRegex, host)
    ensures d.None? ==> r == Err(DirectoriesNil)
    ensures d.Some? && d.value.parentDirectory == "" ==>
              r == Err(if d.value.artifact != "" then ArtifactNotImplemented else NoValidConfiguration)
  {
    match d
    case None => Err(DirectoriesNil)
    case Some(dirs) =>
      if dirs.parentDirectory != "" then ListedDirs(dirs.parentDirectory, dirs.nameRegex, host)
      else if dirs.artifact != "" then Err(ArtifactNotImplemented)
      else Err(NoValidConfiguration)
  }

  /** `(*Working).Parse` dereferences both parallelism pointers without a
      check: it panics when discovery succeeds and either pointer is nil. */
  predicate ParsePanics(w: Option<Working>, host: Host) {
    && w.Some?
    && !(w.value.directory.Some? && w.value.directory.value != "")
    && w.value.directories.Some?
    && HandleWorkingDirectories(w.value.directories, host).Ok?
    && w.value.parallelism.Some?
    && (w.value.parallelism.value.parallelJob.None? || w.value.parallelism.value.parallelJobCount.None?)
  }

  /** `(*Working).Parse`: the directories this job processes, for every
      configuration on which it does not panic. */
  function Parse(w: Option<Working>, host: Host): Result<seq<string>>
    requires !ParsePanics(w, host)
  {
    match w
    case None => Ok([])
    case Some(wk) =>
      if wk.directory.Some? && wk.directory.value != "" then Ok([wk.directory.value])
      else if wk.directories.Some? then
        var dirs :- HandleWorkingDirectories(wk.directories, host);
        match wk.parallelism
        case None => Ok(dirs)
        case Some(p) => Ok(Partition.Partition(dirs, p.parallelJob.value, p.parallelJobCount.value))
      else Err(NoValidConfiguration)
  }

  /** No configuration means no directories, and no error. */
  lemma ParseNothingConfigured(host: Host)
    ensures !ParsePanics(None, host) && Parse(None, host) == Ok([])
  {
  }

  /** A non-empty single directory wins over everything else. */
  lemma ParseSingleDirectory(w: Working, host: Host)
    requires w.directory.Some? && w.directory.value != ""
    ensures !ParsePanics(Some(w), host) && Parse(Some(w), host) == Ok([w.directory.value])
  {
  }

  /** A single directory set to "" is treated as unset. */
  lemma ParseEmptyDirectoryIsUnset(w: Working, host: Host)
    requires w.directory == Some("") && !ParsePanics(Some(w), host)
    ensures !ParsePanics(Some(w.(directory := None)), host)
    ensures Parse(Some(w), host) == Parse(Some(w.(directory := None)), host)
  {
    var w' := w.(directory := None);
    assert w'.directories == w.directories && w'.parallelism == w.parallelism;
  }

  /** Neither mode configured is an error. */
  lemma ParseNeitherMode(w: Working, host: Host)
    requires w.directory.None? || w.directory.value == ""
    requires w.directories.None?
    ensures !ParsePanics(Some(w), host) && Parse(Some(w), host) == Err(NoValidConfiguration)
  {
  }

  /** Discovery without parallelism returns the discovered list unchanged;
      with a complete parallel context, this job's slice of it. A failure of
      discovery is passed on as it is. */
  lemma ParseDiscovery(w: Working, host: Host)
    requires w.directory.None? || w.directory.value == ""
    requires w.directories.Some? && !ParsePanics(Some(w), host)
    ensures var listed := HandleWorkingDirectories(w.directories, host);
            && (!listed.Ok? ==> Parse(Some(w), host) == listed)
            && (listed.Ok? && w.parallelism.None? ==> Parse(Some(w), host) == listed)
            && (listed.Ok? && w.parallelism.Some? && w.parallelism.value.parallelJob.Some?
                && w.parallelism.value.parallelJobCount.Some? ==>
                  Parse(Some(w), host)
                  == Ok(Partition.Partition(listed.value, w.parallelism.value.parallelJob.value,
                                            w.parallelism.value.parallelJobCount.value)))
  {
  }

  /** Validation alone does not rule the panic out: a count without an index
      validates, and with discovery configured `Parse` dereferences the nil
      index. */
  lemma ValidatedCountOnlyPanics(fs: FileSystem, host: Host)
    requires fs.isDir("/src")
    requires host.compile("").Ok? && host.readDir("/src").Ok?
    ensures var w := Working(None, Some(Directories("/src", "", "")), Some(Parallelism(None, Some(3))));
            WorkingValid(w, fs) && ParsePanics(Some(w), host)
  {
  }

  /** A validated parallel context that carries an index also carries the
      count, so `Parse` cannot panic on it. */
  lemma ValidatedIndexNeverPanics(w: Working, host: Host, fs: FileSystem)
    requires WorkingValid(w, fs)
    requires w.parallelism.Some? ==> w.parallelism.value.parallelJob.Some?
    ensures !ParsePanics(Some(w), host)
  {
  }

  /** With a validated parallel context that carries an index, `Parse` yields
      this job's contiguous slice of the discovered directories; an index
      equal to the count yields nothing. */
  lemma ParseValidatedParallel(w: Working, host: Host, fs: FileSystem)
    requires WorkingValid(w, fs)
    requires w.directories.Some? && w.parallelism.Some? && w.parallelism.value.parallelJob.Some?
    requires HandleWorkingDirectories(w.directories, host).Ok?
    ensures !ParsePanics(Some(w), host) && Parse(Some(w), host).Ok?
    ensures var all := HandleWorkingDirectories(w.directories, host).value;
            var job := w.parallelism.value.parallelJob.value;
            var count := w.parallelism.value.parallelJobCount.value;
            && |Parse(Some(w), host).value| <= |all|
            && (job == count ==> Parse(Some(w), host).value == [])
  {
    var all := HandleWorkingDirectories(w.directories, host).value;
    var job := w.parallelism.value.parallelJob.value;
    var count := w.parallelism.value.parallelJobCount.value;
    if Partition.ValidJob(job, count) {
      Partition.ChunkInBounds(|all|, job, count);
    }
  }
}
