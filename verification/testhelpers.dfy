/** The file filter of the test fixture copier
    (internal/testhelpers/copy_dir.go): which files an include list keeps,
    which ones a `.gitignore` drops, and the skip decision built from the
    two. Copying itself, and loading the `.gitignore`, are file-system work
    outside the model; the compiled ignore patterns are a predicate on
    relative paths. */
module TestHelpers {
  import opened Wrappers
  import opened Strings

  /** `os.FileInfo`, reduced to its name and whether it is a directory. */
  datatype FileInfo = FileInfo(name: string, isDir: bool)

  /** One include entry selects a file: it is the file's name or its
      relative path, it names the directory itself, or it is a directory
      the file lies under. */
  predicate EntrySelects(info: FileInfo, relPath: string, entry: string) {
    || info.name == entry
    || relPath == entry
    || (info.isDir && entry == info.name)
    || HasPrefix(relPath, entry + "/")
  }

  /** Some include entry selects the file. */
  predicate Included(info: FileInfo, relPath: string, includes: seq<string>) {
    exists k :: 0 <= k < |includes| && EntrySelects(info, relPath, includes[k])
  }

  /** `shouldIncludeFile`: try the entries in order, stopping at the first
      that selects the file. */
  method ShouldIncludeFile(info: FileInfo, relPath: string, includes: seq<string>) returns (ok: bool)
    ensures ok <==> Included(info, relPath, includes)
  {
    var i := 0;
    while i < |includes|
      invariant 0 <= i <= |includes|
      invariant forall k :: 0 <= k < i ==> !EntrySelects(info, relPath, includes[k])
    {
      var entry := includes[i];
      if info.name == entry || relPath == entry {
        return true;
      }
      if info.isDir && entry == info.name {
        return true;
      }
      if HasPrefix(relPath, entry + "/") {
        return true;
      }
      i := i + 1;
    }
    return false;
  }

  /** The directory test repeats the name test, so an entry selects a file
      exactly by name, by path, or as a parent directory. */
  lemma DirectoryClauseAddsNothing(info: FileInfo, relPath: string, entry: string)
    ensures EntrySelects(info, relPath, entry) <==>
            info.name == entry || relPath == entry || HasPrefix(relPath, entry + "/")
  {
  }

  /** An empty include list selects nothing; a listed directory selects
      everything under it, at any depth. */
  lemma IncludeListBounds(info: FileInfo, relPath: string, includes: seq<string>, dir: string, rest: string)
    ensures !Included(info, relPath, [])
    ensures dir in includes ==> Included(info, dir + "/" + rest, includes)
  {
    if dir in includes {
      var k :| 0 <= k < |includes| && includes[k] == dir;
      var path := dir + "/" + rest;
      assert path[..|dir + "/"|] == dir + "/";
      assert EntrySelects(info, path, includes[k]);
    }
  }

  const GitIgnoreFile: string := ".gitignore"

  /** `shouldSkipByGitignore`: the `.gitignore` file itself, and whatever
      the patterns match when there are any. */
  predicate ShouldSkipByGitignore(relPath: string, ignore: Option<string -> bool>) {
    relPath == GitIgnoreFile || (ignore.Some? && ignore.value(relPath))
  }

  /** Without patterns only the `.gitignore` file is skipped. */
  lemma NoPatternsSkipOnlyGitignore(relPath: string)
    ensures ShouldSkipByGitignore(relPath, None) <==> relPath == GitIgnoreFile
  {
  }

  /** What the skip function of `getCopyOptions` answers for one file: an
      error from `filepath.Rel` (`relTo`), which comes with "do not skip";
      with an include list, skip what it does not select; otherwise apply
      the `.gitignore` rules. */
  function SkipDecision(srcDir: string, includes: Option<seq<string>>, ignore: Option<string -> bool>,
                        relTo: (string, string) -> Result<string>, info: FileInfo, src: string): Result<bool>
  {
    match relTo(srcDir, src)
    case Err(e) => Err(e)
    case Ok(relPath) =>
      if includes.Some? then Ok(!Included(info, relPath, includes.value))
      else Ok(ShouldSkipByGitignore(relPath, ignore))
  }

  /** The skip function of `getCopyOptions`, applied to one file. */
  method CopySkip(srcDir: string, includes: Option<seq<string>>, ignore: Option<string -> bool>,
                  relTo: (string, string) -> Result<string>, info: FileInfo, src: string)
    returns (r: Result<bool>)
    ensures r == SkipDecision(srcDir, includes, ignore, relTo, info, src)
  {
    var relPath := relTo(srcDir, src);
    if relPath.Err? {
      return Err(relPath.msg);
    }
    if includes.Some? {
      var ok := ShouldIncludeFile(info, relPath.value, includes.value);
      return Ok(!ok);
    }
    return Ok(ShouldSkipByGitignore(relPath.value, ignore));
  }

  /** With an include list the ignore patterns play no part, and a
      `.gitignore` the list names is copied although the doc comment says
      it is always excluded; without a list, it is always skipped. */
  lemma IncludeListOverridesGitignore(srcDir: string, includes: seq<string>, ignore: Option<string -> bool>,
                                      relTo: (string, string) -> Result<string>, info: FileInfo, src: string)
    requires relTo(srcDir, src).Ok?
    ensures SkipDecision(srcDir, Some(includes), ignore, relTo, info, src)
            == SkipDecision(srcDir, Some(includes), None, relTo, info, src)
    ensures relTo(srcDir, src).value == GitIgnoreFile && GitIgnoreFile in includes ==>
              SkipDecision(srcDir, Some(includes), ignore, relTo, info, src) == Ok(false)
    ensures relTo(srcDir, src).value == GitIgnoreFile ==>
              SkipDecision(srcDir, None, ignore, relTo, info, src) == Ok(true)
  {
    if relTo(srcDir, src).value == GitIgnoreFile && GitIgnoreFile in includes {
      var k :| 0 <= k < |includes| && includes[k] == GitIgnoreFile;
      assert EntrySelects(info, GitIgnoreFile, includes[k]);
    }
  }
}
