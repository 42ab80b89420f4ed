/** Terraform execution options (internal/adapters/terraform/config.go). */
module Terraform {
  import opened Wrappers
  import opened WorkingDir

  /** `InitOptions`: both pointers may be nil. */
  datatype InitOptions = InitOptions(pluginDir: Option<string>, get: Option<bool>)

  /** `Options`. */
  datatype Options = Options(execPath: Option<string>, initOptions: Option<InitOptions>)

  /** The tags of `Options` and `InitOptions`: a set `exec_path` must be a
      file and a set `plugin_dir` a directory. On a pointer field
      `omitempty` skips the checks only when the pointer is nil, so a
      pointer to "" is checked, and refused. `boolean` holds for every
      `bool`. */
  predicate OptionsValid(o: Options, fs: FileSystem) {
    && (o.execPath.Some? ==> FileTag(fs, o.execPath.value))
    && (o.initOptions.Some? && o.initOptions.value.pluginDir.Some? ==>
          DirTag(fs, o.initOptions.value.pluginDir.value))
  }

  /** A set `exec_path` or `plugin_dir` passes exactly when it names an
      existing file or directory; an empty one never does, and nil pointers
      pass. */
  lemma SetPathsMustExist(o: Options, fs: FileSystem, get: Option<bool>)
    ensures OptionsValid(o, fs) && o.execPath.Some? ==> o.execPath.value != "" && fs.isFile(o.execPath.value)
    ensures OptionsValid(o, fs) && o.initOptions.Some? && o.initOptions.value.pluginDir.Some? ==>
              o.initOptions.value.pluginDir.value != "" && fs.isDir(o.initOptions.value.pluginDir.value)
    ensures !OptionsValid(Options(Some(""), o.initOptions), fs)
    ensures !OptionsValid(Options(o.execPath, Some(InitOptions(Some(""), get))), fs)
    ensures OptionsValid(Options(None, Some(InitOptions(None, get))), fs)
  {
  }
}
