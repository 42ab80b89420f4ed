/** Environment and logging helpers (internal/common/util.go). The process
    environment is a lookup function; zerolog's level parser and its level
    names are parameters. */
module Common {
  import opened Wrappers
  import opened Strings

  /** `os.LookupEnv`: the value of a set variable, `None` for an unset one. */
  type Env = string -> Option<string>

  /** `FetchEnv`: the variable's value whenever it is set, even when empty;
      the fallback only when it is unset. */
  function FetchEnv(env: Env, key: string, fallback: string): (r: string)
    ensures env(key).Some? ==> r == env(key).value
    ensures env(key).None? ==> r == fallback
  {
    match env(key)
    case Some(value) => value
    case None => fallback
  }

  /** The variable `IsTestMode` reads for a plugin, given strcase's
      SCREAMING_SNAKE conversion. */
  function TestModeVariable(plugin: string, screamingSnake: string -> string): string {
    "BUILDKITE_PLUGIN_" + screamingSnake(plugin) + "_TEST_MODE"
  }

  const TestModeValues: set<string> := {"true", "1", "yes"}

  /** `IsTestMode`: the variable, lower-cased, is "true", "1" or "yes"; an
      unset variable reads as "false". */
  function IsTestMode(env: Env, plugin: string, screamingSnake: string -> string): (b: bool)
    ensures var v := env(TestModeVariable(plugin, screamingSnake));
            b <==> v.Some? && Lower(v.value) in TestModeValues
  {
    var value := FetchEnv(env, TestModeVariable(plugin, screamingSnake), "false");
    assert Lower("false") == "false";
    Lower(value) in TestModeValues
  }

  /** Example: test mode is off when the variable is unset, and the
      comparison ignores case. */
  lemma TestModeExamples(env: Env, plugin: string, screamingSnake: string -> string)
    ensures env(TestModeVariable(plugin, screamingSnake)).None? ==> !IsTestMode(env, plugin, screamingSnake)
    ensures env(TestModeVariable(plugin, screamingSnake)) == Some("YeS") ==> IsTestMode(env, plugin, screamingSnake)
    ensures env(TestModeVariable(plugin, screamingSnake)) == Some("maybe") ==> !IsTestMode(env, plugin, screamingSnake)
  {
    assert Lower("YeS") == "yes";
    assert Lower("maybe") == "maybe";
  }

  /** zerolog's `InfoLevel`. */
  const InfoLevel: int := 1

  /** `ParseLogLevel`: read the variable (its default is the default
      level's name) and parse it; an unparsable value gives the default. */
  function ParseLogLevel(env: Env, envVar: string, defaultLevel: int,
                         parseLevel: string -> Option<int>, levelName: int -> string): int
  {
    var text := FetchEnv(env, envVar, levelName(defaultLevel));
    match parseLevel(text)
    case Some(l) => l
    case None => defaultLevel
  }

  /** A set variable that does not parse gives the default. */
  lemma ParseLogLevelInvalid(env: Env, envVar: string, defaultLevel: int,
                             parseLevel: string -> Option<int>, levelName: int -> string)
    requires env(envVar).Some? && parseLevel(env(envVar).value).None?
    ensures ParseLogLevel(env, envVar, defaultLevel, parseLevel, levelName) == defaultLevel
  {
  }

  /** An unset variable gives the default, as long as the default's own name
      parses back to it. */
  lemma ParseLogLevelUnset(env: Env, envVar: string, defaultLevel: int,
                           parseLevel: string -> Option<int>, levelName: int -> string)
    requires env(envVar).None? && parseLevel(levelName(defaultLevel)) == Some(defaultLevel)
    ensures ParseLogLevel(env, envVar, defaultLevel, parseLevel, levelName) == defaultLevel
  {
  }

  /** The level `SetLogLevel` installs globally: the parsed level, or info
      when it does not parse. */
  function LogLevelToSet(levelStr: string, parseLevel: string -> Option<int>): int {
    match parseLevel(levelStr)
    case Some(l) => l
    case None => InfoLevel
  }

  /** With info as the default, reading a set variable and parsing it
      chooses the level `SetLogLevel` installs for the variable's text: both
      fall back to info on a value that does not parse. */
  lemma SetAndParseAgree(env: Env, envVar: string, parseLevel: string -> Option<int>, levelName: int -> string)
    requires env(envVar).Some?
    ensures ParseLogLevel(env, envVar, InfoLevel, parseLevel, levelName)
            == LogLevelToSet(env(envVar).value, parseLevel)
    ensures parseLevel(env(envVar).value).None? ==> LogLevelToSet(env(envVar).value, parseLevel) == InfoLevel
  {
  }
}
