/** The schema generator's caller lookup (pkg/schema/caller): find the
    `main.go` frame on the call stack and give its directory relative to the
    working directory, always starting with "./" or "../". The call stack,
    the working directory and `filepath.Rel`/`filepath.Dir` are parameters
    of the model. */
module Caller {
  import opened Wrappers
  import opened Strings

  /** A `runtime.Frame`, reduced to what the lookup reads. */
  datatype Frame = Frame(func: string, file: string, line: nat)

  /** The zero `runtime.Frame`. */
  const ZeroFrame: Frame := Frame("", "", 0)

  /** `maxCallerDepth`: at most this many return addresses are collected. */
  const MaxCallerDepth: nat := 32

  const NoMatchingFrame: string := "no matching frame found"

  /** The frames `findCaller` inspects: the first 32 of the stack, or the
      zero frame alone when the stack is empty (the frame iterator yields
      one zero frame before it reports that there are no more). */
  function Visited(stack: seq<Frame>): (frames: seq<Frame>)
    ensures 1 <= |frames| <= MaxCallerDepth
  {
    if stack == [] then [ZeroFrame]
    else if |stack| <= MaxCallerDepth then stack
    else stack[..MaxCallerDepth]
  }

  /** The first of `frames` the matcher accepts. */
  function FirstMatching(frames: seq<Frame>, matcher: Frame -> bool): (r: Result<Frame>)
    ensures r.Ok? <==> exists k :: 0 <= k < |frames| && matcher(frames[k])
    ensures r.Err? ==> r.msg == NoMatchingFrame
    ensures r.Ok? ==> exists k :: 0 <= k < |frames| && frames[k] == r.value && matcher(r.value)
                                  && forall j :: 0 <= j < k ==> !matcher(frames[j])
  {
    if frames == [] then Err(NoMatchingFrame)
    else if matcher(frames[0]) then Ok(frames[0])
    else
      var r := FirstMatching(frames[1..], matcher);
      assert r.Ok? ==> exists k :: 1 <= k < |frames| && frames[k] == r.value && matcher(r.value)
                                   && forall j :: 0 <= j < k ==> !matcher(frames[j]) by {
        if r.Ok? {
          var k :| 0 <= k < |frames[1..]| && frames[1..][k] == r.value && matcher(r.value)
                   && forall j :: 0 <= j < k ==> !matcher(frames[1..][j]);
          assert frames[k + 1] == r.value;
          forall j | 0 <= j < k + 1
            ensures !matcher(frames[j])
          {
            if j > 0 {
              assert frames[j] == frames[1..][j - 1];
            }
          }
        }
      }
      assert (exists k :: 0 <= k < |frames| && matcher(frames[k])) ==>
             exists k :: 0 <= k < |frames[1..]| && matcher(frames[1..][k]) by {
        if exists k :: 0 <= k < |frames| && matcher(frames[k]) {
          var k :| 0 <= k < |frames| && matcher(frames[k]);
          assert k > 0 && frames[1..][k - 1] == frames[k];
        }
      }
      r
  }

  /** `findCaller`: walk the collected frames and return the first one the
      matcher accepts. */
  method FindCaller(stack: seq<Frame>, matcher: Frame -> bool) returns (r: Result<Frame>)
    ensures r == FirstMatching(Visited(stack), matcher)
  {
    var frames := Visited(stack);
    var i := 0;
    while i < |frames|
      invariant 0 <= i <= |frames|
      invariant forall k :: 0 <= k < i ==> !matcher(frames[k])
    {
      if matcher(frames[i]) {
        FirstMatchingIsFirst(frames, matcher, i);
        return Ok(frames[i]);
      }
      i := i + 1;
    }
    return Err(NoMatchingFrame);
  }

  /** The first accepted frame is the one `FirstMatching` returns. */
  lemma {:induction false} FirstMatchingIsFirst(frames: seq<Frame>, matcher: Frame -> bool, i: nat)
    requires i < |frames| && matcher(frames[i])
    requires forall k :: 0 <= k < i ==> !matcher(frames[k])
    ensures FirstMatching(frames, matcher) == Ok(frames[i])
  {
    if i > 0 {
      forall k | 0 <= k < i - 1
        ensures !matcher(frames[1..][k])
      {
        assert frames[1..][k] == frames[k + 1];
      }
      FirstMatchingIsFirst(frames[1..], matcher, i - 1);
    }
  }

  /** The default matcher: the frame's file is named `main.go`. */
  predicate IsMainFile(frame: Frame) {
    Base(frame.file) == "main.go"
  }

  /** A frame of `<dir>/main.go` is the one the default matcher looks for. */
  lemma MainFileMatches(dir: string, line: nat, func: string)
    ensures IsMainFile(Frame(func, dir + "/main.go", line))
  {
    var path := dir + "/main.go";
    assert path[|path| - 1] == 'o';
    assert TrimTrailingSlashes(path) == path;
    assert path == dir + "/" + "main.go";
    AfterLastSlashOf(dir, "main.go");
    assert Base(path) == AfterLastSlash(path);
  }

  /** `caller`: its three dependencies. `workingDir` is what `os.Getwd`
      (or its replacement) returns. */
  datatype Caller = Caller(
    workingDir: () -> Result<string>,
    findCaller: (Frame -> bool) -> Result<Frame>,
    matcher: Frame -> bool)

  /** `ConfigOption`: each replaces one dependency unconditionally. */
  datatype CallerOption =
    | WithWorkingDirFn(workingDir: () -> Result<string>)
    | WithFindCallerFn(findCaller: (Frame -> bool) -> Result<Frame>)
    | WithMatcherFn(matcher: Frame -> bool)

  function ApplyCallerOption(c: Caller, o: CallerOption): Caller {
    match o
    case WithWorkingDirFn(fn) => c.(workingDir := fn)
    case WithFindCallerFn(fn) => c.(findCaller := fn)
    case WithMatcherFn(fn) => c.(matcher := fn)
  }

  /** The caller the options build from the defaults: the frame search over
      `stack`, `getwd`, and the `main.go` matcher. */
  function Configured(opts: seq<CallerOption>, stack: seq<Frame>, getwd: () -> Result<string>): Caller {
    if opts == [] then Caller(getwd, (m: Frame -> bool) => FirstMatching(Visited(stack), m), IsMainFile)
    else ApplyCallerOption(Configured(opts[..|opts| - 1], stack, getwd), opts[|opts| - 1])
  }

  /** `New`. */
  method New(opts: seq<CallerOption>, stack: seq<Frame>, getwd: () -> Result<string>) returns (c: Caller)
    ensures c == Configured(opts, stack, getwd)
  {
    c := Caller(getwd, (m: Frame -> bool) => FirstMatching(Visited(stack), m), IsMainFile);
    var i := 0;
    while i < |opts|
      invariant 0 <= i <= |opts|
      invariant c == Configured(opts[..i], stack, getwd)
    {
      assert opts[..i + 1][..i] == opts[..i];
      c := ApplyCallerOption(c, opts[i]);
      i := i + 1;
    }
    assert opts[..i] == opts;
  }

  /** Without options, the caller is the `main.go` frame nearest the top
      of the stack. */
  lemma DefaultFindsMain(stack: seq<Frame>, getwd: () -> Result<string>)
    ensures var c := Configured([], stack, getwd);
            c.findCaller(c.matcher) == FirstMatching(Visited(stack), IsMainFile)
            && c.workingDir == getwd
  {
  }

  const FindCallerFailed: string := "failed to find entrypoint caller: "
  const WorkingDirFailed: string := "failed to get working directory: "
  const RelativeFailed: string := "failed to make path relative: "

  /** A relative path as `CallPath` returns it: "./" is prepended unless it
      already starts with "./" or "../". */
  function DotRelative(rel: string): (r: string)
    ensures HasPrefix(r, "./") || HasPrefix(r, "../")
    ensures HasPrefix(rel, "./") || HasPrefix(rel, "../") ==> r == rel
    ensures !(HasPrefix(rel, "./") || HasPrefix(rel, "../")) ==> r == "./" + rel
  {
    if !HasPrefix(rel, "./") && !HasPrefix(rel, "../") then
      var r := "./" + rel;
      assert r[..2] == "./";
      r
    else rel
  }

  /** Normalising twice is normalising once. */
  lemma DotRelativeIdempotent(rel: string)
    ensures DotRelative(DotRelative(rel)) == DotRelative(rel)
  {
  }

  /** `(*caller).CallPath`. `relTo` is `filepath.Rel`, `dir` is
      `filepath.Dir`; `filepath.ToSlash` changes nothing on Unix. */
  function CallPath(c: Caller, relTo: (string, string) -> Result<string>, dir: string -> string): (r: Result<string>)
    ensures c.findCaller(c.matcher).Err? ==> r == Err(FindCallerFailed + c.findCaller(c.matcher).msg)
    ensures c.findCaller(c.matcher).Ok? && c.workingDir().Err? ==> r == Err(WorkingDirFailed + c.workingDir().msg)
    ensures r.Ok? ==> HasPrefix(r.value, "./") || HasPrefix(r.value, "../")
    ensures r.Ok? <==> c.findCaller(c.matcher).Ok? && c.workingDir().Ok?
                       && relTo(c.workingDir().value, dir(c.findCaller(c.matcher).value.file)).Ok?
  {
    match c.findCaller(c.matcher)
    case Err(e) => Err(FindCallerFailed + e)
    case Ok(frame) =>
      match c.workingDir()
      case Err(e) => Err(WorkingDirFailed + e)
      case Ok(cwd) =>
        match relTo(cwd, dir(frame.file))
        case Err(e) => Err(RelativeFailed + e)
        case Ok(rel) => Ok(DotRelative(rel))
  }

  /** The successful result is the relative path of the matched frame's
      directory, marked as relative: a bare "." becomes "./." and a name
      "x" becomes "./x". */
  lemma CallPathOfMatchedFrame(c: Caller, relTo: (string, string) -> Result<string>, dir: string -> string)
    requires CallPath(c, relTo, dir).Ok?
    ensures var frame := c.findCaller(c.matcher).value;
            CallPath(c, relTo, dir).value == DotRelative(relTo(c.workingDir().value, dir(frame.file)).value)
  {
  }
}
