# terraform-buildkite-plugin, modelled in Dafny

The system is a Buildkite plugin that runs Terraform for one or more working directories of a build step. It proceeds as follows:

- It reads its own configuration from the `BUILDKITE_PLUGINS` environment variable, picking the plugin entry by name prefix.
- It overlays environment variables and the JSON document, then checks the validation tags.
- It resolves the working directories: one fixed directory, or the sub-directories of a parent. The sub-directories are filtered by a name pattern and split between the parallel jobs of the step.
- For each directory it runs `terraform init` and `terraform plan`, shows the plan, runs every configured OPA policy on it and, in apply mode, applies the plan.
- It maps the outcome to an exit status.

Around that core sit some helpers:

- the `buildkite-agent` client, which builds annotation and pipeline-upload command lines;
- a log-group writer;
- the OPA adapter, which turns policy violations into structured failures;
- a schema generator for the plugin's configuration, which checks file extensions, aggregates validation errors and normalises caller paths;
- the include/skip filter of the test fixture copier.

The project models these parts as one Dafny module per Go package:

- `Partition`, `WorkingDir`, `Config`, `Initiator`, `Orchestrator`, `Handle`;
- `Validators`, `Rego`, `Outputs`, `BuildkiteAgent`, `LogGroup`;
- `Common`, `SchemaHandler`, `Schema`, `Caller`, `TestHelpers`.

They share three support modules:

- `Wrappers` holds `Option`, and `Result`/`Outcome` for Go's `(value, error)` and `error` returns.
- `Json` holds JSON values.
- `Strings` covers the parts of Go's `strings`, `path` and `strconv` packages the core uses.

The model follows the form of the code:

- Go loops are methods whose loop invariants tie them to a specification function.
- Functional-option constructors are option loops proved equal to a fold over the options.
- The log-group manager and the annotation configuration are classes whose methods update their fields.
- Decision trees and pipelines are functions.

Everything the code consults outside itself is a parameter of the model, answering as the real dependency would:

- Terraform, `exec.LookPath` and OPA;
- gjson path lookup;
- JSON, URL and environment decoding;
- the tag validator's file-system checks;
- `regexp` and directory listing;
- `filepath.Rel`;
- the call stack;
- template rendering and the command runner.

Where the code and its design notes disagree, the model follows the code:

- The parallel job index may equal the job count (`ltefield` is "less than or equal"); such a job receives no directories.
- A working block with neither `directory` nor `directories` passes runtime validation, although the configuration schema requires exactly one of them.
- The copier's doc comment says `.gitignore` is never copied, but an include list that names it copies it (`TestHelpers.IncludeListOverridesGitignore`).

## Model

| member | source | states |
|---|---|---|
| Partition.Partition | internal/adapters/workingdir/partition.go:11-53 | invalid parameters (count <= 0, index < 0, index >= count) give an empty slice; otherwise the result has length base + 1 for the first `len % count` jobs and base after, and is the contiguous run of the input starting at the closed-formula offset |
| Partition.ChunkStartIsOffset | internal/adapters/workingdir/partition.go:28-41 | the closed start formula equals the sum of the sizes of all earlier jobs |
| Partition.ChunkStartEnd | internal/adapters/workingdir/partition.go:24-33 | the start formula evaluated at the job count is exactly the input length |
| Partition.OffsetMonotone | internal/adapters/workingdir/partition.go:36-41 | running totals of chunk sizes never decrease and are non-negative |
| Partition.ChunkInBounds | internal/adapters/workingdir/partition.go:50 | for valid parameters start >= 0, size >= 0 and start + size <= length, so the slice expression is in bounds |
| Partition.OffsetInRange | internal/adapters/workingdir/partition.go:24-41 | every running total of chunk sizes lies within the input length |
| Partition.PartitionAtOffset | internal/adapters/workingdir/partition.go:50 | job k's slice is exactly the input between the running totals before and after it |
| Partition.JobsPrefix | internal/adapters/workingdir/partition.go:5-10 | the concatenation of the slices of jobs 0..k-1 is the input's prefix of the summed length |
| Partition.JobsStep | internal/adapters/workingdir/partition.go:5-10 | appending one more job's slice extends that prefix to the next running total |
| Partition.PartitionsReassemble | internal/adapters/workingdir/partition.go:5-10 | the slices of jobs 0..count-1, concatenated in job order, are exactly the input |
| Partition.PartitionsDisjoint | internal/adapters/workingdir/partition.go:28-41 | an earlier job's slice ends at or before a later job's slice starts, so no position is shared |
| Partition.PositionHasOwner | internal/adapters/workingdir/partition.go:5-10 | every position of the input lies inside some valid job's slice |
| Partition.PartitionsBalanced | internal/adapters/workingdir/partition.go:9-10 | for two valid jobs i <= j, job i's slice is as long as job j's or one longer |
| Partition.MoreJobsThanItems | internal/adapters/workingdir/partition.go:24-41 | with more jobs than items, job i < len receives exactly [items[i]] and the others nothing |
| Partition.FiveOverTwo | internal/adapters/workingdir/partition.go:9-10 | worked example: five items over two jobs split as [1,2,3] and [4,5] |
| WorkingDir.WorkingValid | internal/adapters/workingdir/config.go:46-50 | the `Working` tags; stated by `WorkingDir.WorkingModesExclusive` and `EmptyDirectoryRefused` |
| WorkingDir.ParallelismValid | internal/adapters/workingdir/config.go:15-19 | the `Parallelism` tags; stated by `WorkingDir.JobIndexMayEqualCount` and `ParallelismNilCases` |
| WorkingDir.DirectoriesValid | internal/adapters/workingdir/config.go:31-36 | the `Directories` tags; stated by `WorkingDir.ValidatedDirectoriesUseParent` |
| WorkingDir.WorkingModesExclusive | internal/adapters/workingdir/config.go:46-50 | validation never admits a single directory together with a discovery block, and an admitted single directory names an existing directory |
| WorkingDir.EmptyDirectoryRefused | internal/adapters/workingdir/config.go:46 | a `directory` set to "" is refused: `omitempty` skips only a nil pointer, and `dir` fails on the empty path |
| Terraform.OptionsValid | internal/adapters/terraform/config.go:7-13 | the `Options` and `InitOptions` tags; stated by `Terraform.SetPathsMustExist` |
| Terraform.SetPathsMustExist | internal/adapters/terraform/config.go:7-13 | a set `exec_path` must be an existing file and a set `plugin_dir` an existing directory, so a pointer to "" is refused; nil pointers pass |
| WorkingDir.ValidatedDirectoriesUseParent | internal/adapters/workingdir/config.go:31-36 | a validated discovery block names a non-empty parent directory and no artifact |
| WorkingDir.JobIndexMayEqualCount | internal/adapters/workingdir/config.go:15 | `ltefield` admits an index equal to the count and refuses one above it |
| WorkingDir.ParallelismNilCases | internal/adapters/workingdir/config.go:15-19 | a count without an index validates; an index without a count fails |
| WorkingDir.SchemaRequiresExactlyOne | internal/adapters/workingdir/config.go:59-74 | the schema's oneOf accepts a key set exactly when it holds one of `directory`/`directories` and not both |
| WorkingDir.ValidationWeakerThanSchema | internal/adapters/workingdir/config.go:43-74 | a working block with only parallelism passes the tags but not the schema |
| WorkingDir.ListDirs | internal/adapters/workingdir/list.go:11-68 | compile error first, then read error, else the joined kept entries in listing order; found + skipped files + regex-filtered equals the number of entries |
| WorkingDir.FoundDirsAppend | internal/adapters/workingdir/list.go:39-58 | listing two parts of a directory gives the two results concatenated in order |
| WorkingDir.FoundDirsSound | internal/adapters/workingdir/list.go:40-57 | every result is `join(path, name)` of an entry that is a directory whose base name the pattern matches |
| WorkingDir.FoundDirsComplete | internal/adapters/workingdir/list.go:40-57 | every directory entry whose name matches appears, joined, in the result |
| WorkingDir.OnlyFilesFindsNothing | internal/adapters/workingdir/list.go:40-43 | a listing of files only gives an empty result |
| WorkingDir.ListingExample | internal/adapters/workingdir/list.go:39-58 | worked example: a mixed listing keeps the matching sub-directories in order and drops the file and the unmatched directory |
| WorkingDir.HandleWorkingDirectories | internal/adapters/workingdir/parse.go:58-84 | nil gives "working directories configuration is nil"; a parent directory is listed (errors passed on); else an artifact gives "artifact handling not implemented yet"; else "no valid working directory configuration found" |
| WorkingDir.Parse | internal/adapters/workingdir/parse.go:9-56 | `(*Working).Parse`; its outcomes are stated by `WorkingDir.ParseNothingConfigured`, `ParseSingleDirectory`, `ParseEmptyDirectoryIsUnset`, `ParseNeitherMode`, `ParseDiscovery` and `ParseValidatedParallel` |
| WorkingDir.ParseNothingConfigured | internal/adapters/workingdir/parse.go:12-17 | a nil Working gives an empty list and no error |
| WorkingDir.ParseSingleDirectory | internal/adapters/workingdir/parse.go:20-23 | a non-empty Directory gives exactly [Directory], without partitioning |
| WorkingDir.ParseEmptyDirectoryIsUnset | internal/adapters/workingdir/parse.go:20-25 | Directory set to "" behaves exactly as if it were nil |
| WorkingDir.ParseNeitherMode | internal/adapters/workingdir/parse.go:54-55 | neither Directory nor Directories gives "no valid working directory configuration found" |
| WorkingDir.ParseDiscovery | internal/adapters/workingdir/parse.go:25-52 | a discovery error is returned unchanged; without parallelism the listing is returned as is; with both pointers set, partition(listing, job, count) |
| WorkingDir.ValidatedCountOnlyPanics | internal/adapters/workingdir/parse.go:34-35 | a validated configuration with a count but no index reaches the nil dereference of the index |
| WorkingDir.ValidatedIndexNeverPanics | internal/adapters/workingdir/parse.go:34-35 | a validated parallel context that carries an index cannot reach the nil dereference |
| WorkingDir.ParseValidatedParallel | internal/adapters/workingdir/parse.go:33-44 | with a validated parallel context the result is never longer than the listing, and an index equal to the count selects nothing |
| Config.TwoModes | internal/config/plugin.go:17-20 | there are exactly two modes, "plan" and "apply" |
| Config.PluginValid | internal/config/plugin.go:30-36 | the tags reachable from `Plugin`: mode plan or apply, and the `Working` and `Options` tags when set; stated by `Config.ModeAloneDecides`, `LoadedPathsExist` and `EmptyPathsFailValidation` |
| Config.ModeAloneDecides | internal/config/plugin.go:27-42 | a plugin holding only a mode is valid exactly when the mode is "plan" or "apply"; working and terraform are optional |
| Config.GetPluginName | internal/config/parse.go:19-31 | an unparsable reference is returned unchanged; otherwise the name is the last slash-free segment of the URL path, preceded by a slash or the start of the path |
| Config.GithubReferenceNames | internal/config/parse.go:21-30 | "github.com/org/name" with or without "https://" and with or without a "#version" fragment names `name` |
| Config.PlainReferenceNames | internal/config/parse.go:24-30 | a bare name names itself and a reference that is not a URL is kept verbatim |
| Config.UnmarshalPlugins | internal/config/parse.go:34-42 | fails exactly when the JSON does not decode, always with "failed to parse plugin configuration"; otherwise the decoded list |
| Config.FlattenAppend | internal/config/parse.go:46-47 | scanning two lists of entries scans their key/value pairs in order |
| Config.FirstMatchAppend | internal/config/parse.go:46-53 | the first match in a concatenation is the first match of the first part if there is one, else of the second |
| Config.FirstMatchIsFirst | internal/config/parse.go:46-55 | nothing is found exactly when no key matches; otherwise the value of the earliest matching key |
| Config.FindRawPlugin | internal/config/parse.go:45-56 | returns the value of the first key, entries and keys in order, whose plugin name has `pluginName` as a prefix; else "could not initialize plugin" |
| Config.FlattenStep | internal/config/parse.go:46-47 | the pairs of the first i+1 entries are those of the first i followed by entry i's |
| Config.FindInEntry | internal/config/parse.go:47-52 | returns the value of the first key of one entry, in key order, whose plugin name has `pluginName` as a prefix, and nothing when there is none |
| Config.FoundInEntry | internal/config/parse.go:46-51 | a match inside entry i, after no match in the entries before it, is the first match of the whole list |
| Config.ParseRawPlugin | internal/config/parse.go:59-86 | `parseRawPlugin`: environment first, then the JSON on top; stated by `Config.OverlayKeepsAndOverrides`, `PreInit`, `EnvBeforeJson` and `EnvNotANumber` |
| Config.OverlayKeepsAndOverrides | internal/config/parse.go:72-81 | the JSON overlay keeps fields the document omits (including environment-set parallel job fields) and takes the values it gives |
| Config.PreInit | internal/config/parse.go:62-70 | Working with an empty Parallelism is pre-created exactly when either parallel-job variable is non-empty; nothing else is set |
| Config.EnvBeforeJson | internal/config/parse.go:66-84 | environment parallel-job values survive a document that only sets the mode |
| Config.EnvNotANumber | internal/config/parse.go:72-75 | a non-numeric parallel-job variable fails with "failed to parse environment variables" |
| Config.ValidatePlugin | internal/config/parse.go:88-95 | passes exactly when the plugin satisfies its tags; a failure starts with "failed to validate config: " |
| Config.NewConfig | internal/config/initialize.go:32-48 | the variable is BUILDKITE_PLUGINS unless options are given, then the last option's name |
| Config.LoadPlugin | internal/config/initialize.go:51-83 | a returned plugin always satisfies the validation tags |
| Config.LoadedPathsExist | internal/config/initialize.go:51-83 | a loaded plugin has mode plan or apply, and its `directory`, `exec_path` and `plugin_dir`, when set, are non-empty and name an existing directory, file and directory |
| Config.EmptyPathsFailValidation | internal/config/parse.go:88-95 | a plugin that sets `exec_path`, `plugin_dir` or `directory` to "" fails with "failed to validate config: " and the validator's text |
| Config.LoadPluginStages | internal/config/initialize.go:51-83 | unmarshal, find, parse and validate run in that order; the first failing stage's error is returned unchanged; success returns exactly the parsed plugin |
| Config.LoadPluginNothingConfigured | internal/config/initialize.go:54-66 | an unset variable fails with "failed to parse plugin configuration"; an empty list with "could not initialize plugin" |
| Common.FetchEnv | internal/common/util.go:44-50 | a set variable's value is returned even when empty; the fallback only when the variable is unset |
| Common.IsTestMode | internal/common/util.go:137-146 | true exactly when BUILDKITE_PLUGIN_<SCREAMING_SNAKE>_TEST_MODE is set and its lower-cased value is "true", "1" or "yes" |
| Common.TestModeExamples | internal/common/util.go:139-145 | worked example: an unset variable is not test mode; "YeS" is, "maybe" is not |
| Common.ParseLogLevel | internal/common/util.go:164-172 | `ParseLogLevel`; stated by `Common.ParseLogLevelInvalid`, `ParseLogLevelUnset` and `SetAndParseAgree` |
| Common.ParseLogLevelInvalid | internal/common/util.go:164-172 | a set but unparsable value gives the default level |
| Common.ParseLogLevelUnset | internal/common/util.go:165 | an unset variable gives the default level, whose name parses back to it |
| Common.LogLevelToSet | internal/common/util.go:107-114 | the level `SetLogLevel` sets; stated by `Common.SetAndParseAgree` |
| Common.SetAndParseAgree | internal/common/util.go:107-114 | SetLogLevel's level for a text equals ParseLogLevel of a variable holding it with default info; an unparsable text gives info |
| Initiator.NewInitiator | internal/plugin/initiator/init.go:30-47 | the loader is the default one unless an option supplies a non-nil loader, and then it is the last such loader |
| Initiator.ParseResult | internal/plugin/initiator/init.go:49-77 | a payload is only produced from a plugin that passed validation |
| Initiator.ParsePlugin | internal/plugin/initiator/init.go:49-77 | load, then convert outputs, then validations, then resolve directories; the first error stops the pipeline |
| Initiator.PayloadMatchesPlugin | internal/plugin/initiator/init.go:76 | the payload's mode is "plan" or "apply"; one annotator per output carrying that output's config and one validator per validation carrying its OPA config, in order |
| Initiator.ErrorsNameTheirStage | internal/plugin/initiator/init.go:55-74 | the loader's error is returned unchanged; later errors start with "failed to convert outputs: ", "failed to convert validations: " or "failed to parse working directories: " |
| Initiator.NoWorkingNoDirectories | internal/plugin/initiator/init.go:70 | a plugin without working settings yields an empty directory list and no error |
| Orchestrator.Built | internal/plugin/orchestrator/orchestrator.go:60-91 | construction fails exactly when no exec path is configured or given and the PATH lookup fails, with "terraform binary not found in PATH: "; otherwise the exec path is the configured one or the looked-up one |
| Orchestrator.NewOrchestrator | internal/plugin/orchestrator/orchestrator.go:60-91 | the option loop and lookup produce exactly `Built` |
| Orchestrator.OptionsKeepPayload | internal/plugin/orchestrator/orchestrator.go:43-57 | options never change the plugin, the validators or the outputers |
| Orchestrator.ExecPathUntouched | internal/plugin/orchestrator/orchestrator.go:43-49 | empty exec-path options and agent options leave the exec path as it was |
| Orchestrator.ExecPathOptionWins | internal/plugin/orchestrator/orchestrator.go:43-49 | a non-empty exec-path option overrides the configured path and earlier options unless a later non-empty one follows |
| Orchestrator.ApplyOptionsAppend | internal/plugin/orchestrator/orchestrator.go:77-79 | applying two runs of options equals applying their concatenation |
| Orchestrator.InitArgs | internal/plugin/orchestrator/orchestrator.go:196-205 | at most two init options, Get before PluginDir, each present exactly when the plugin sets it |
| Orchestrator.InitSteps | internal/plugin/orchestrator/orchestrator.go:169-220 | continues exactly when runner creation and init succeed, with the runner for the directory and exec path; otherwise an unsuccessful "initialization" result carrying an error |
| Orchestrator.PlanSteps | internal/plugin/orchestrator/orchestrator.go:222-265 | a plan error stops at "planning", a show error at "showing plan"; a plan without changes stops with success and "no changes detected in the Terraform plan"; continues exactly when there are changes and the plan shows |
| Orchestrator.ValidationVerdict | internal/plugin/orchestrator/orchestrator.go:272-300 | no result exactly when every validator ran and passed; otherwise an unsuccessful "validation" result, with "validation failed: " and the first error when one erred |
| Orchestrator.ValidateSteps | internal/plugin/orchestrator/orchestrator.go:267-301 | the loop returns the verdict of running the validators in order, stopping at the first error and counting non-passing results |
| Orchestrator.TallyNext | internal/plugin/orchestrator/orchestrator.go:273-290 | one more validator is one more step of the tally |
| Orchestrator.StoppedPersists | internal/plugin/orchestrator/orchestrator.go:275-286 | after the first error, later validators change nothing |
| Orchestrator.TallyWithoutErrors | internal/plugin/orchestrator/orchestrator.go:288-300 | without errors the count of failures is at most the number of validators and is zero exactly when all passed |
| Orchestrator.FirstErrorStops | internal/plugin/orchestrator/orchestrator.go:274-287 | the first validator that errs decides the error, whatever follows |
| Orchestrator.FirstErr | internal/plugin/orchestrator/orchestrator.go:273-287 | some validator at or before an erring one is the first to err |
| Orchestrator.Prepared | internal/plugin/orchestrator/orchestrator.go:112-147 | the shared init/plan/validate steps stop only at "initialization", "planning", "showing plan" or "validation", always for the given directory |
| Orchestrator.PlanResult | internal/plugin/orchestrator/orchestrator.go:112-132 | Plan's result names the directory; a success is either the validated plan or the no-changes result |
| Orchestrator.Plan | internal/plugin/orchestrator/orchestrator.go:112-132 | the method returns exactly `PlanResult` |
| Orchestrator.ApplyResult | internal/plugin/orchestrator/orchestrator.go:134-167 | Apply's result always names the directory |
| Orchestrator.Apply | internal/plugin/orchestrator/orchestrator.go:134-167 | the method returns exactly `ApplyResult` |
| Orchestrator.ApplyExtendsPlan | internal/plugin/orchestrator/orchestrator.go:134-167 | Apply returns Plan's result unless Plan produced a validated plan with changes, and only then reaches "applying" or "apply" |
| Orchestrator.AppliedOnlyWhenValidated | internal/plugin/orchestrator/orchestrator.go:140-148 | terraform apply is reached only after a plan with changes that showed and that every validator ran on and passed; it applies the same plan file, and the run succeeds exactly when the apply does |
| Orchestrator.RunResult | internal/plugin/orchestrator/orchestrator.go:93-110 | any mode other than plan or apply gives an unsuccessful "validation" result with "unsupported plugin mode: " and the mode |
| Orchestrator.Run | internal/plugin/orchestrator/orchestrator.go:93-110 | the method returns exactly `RunResult` |
| Orchestrator.SuccessfulRunStages | internal/plugin/orchestrator/orchestrator.go:93-167 | a successful run is a validated plan, a plan without changes, or (apply mode only) an applied plan |
| Handle.GetName | internal/plugin/handle.go:27-42 | the five exit statuses map to five distinct constant names, any other value to "Unknown(n)" |
| Handle.KnownNamesDistinct | internal/plugin/handle.go:27-42 | distinct known statuses have distinct names |
| Handle.NewHandler | internal/plugin/handle.go:66-103 | the handler is the defaults with the options applied in order, an empty path or nil interface leaving a setting unchanged |
| Handle.FailedRunsEmpty | internal/plugin/handle.go:136-157 | no failure is recorded exactly when every workspace succeeds; each recorded failure is unsuccessful; there are at most as many as workspaces |
| Handle.RunWorkspaces | internal/plugin/handle.go:136-149 | corrected loop: each workspace is run once, in order, and the failures are the unsuccessful results in order |
| Handle.RunWorkspacesAsWritten | internal/plugin/handle.go:136-149 | loop as written: same failures, but a failing workspace appears twice among the runs |
| Handle.FailingWorkspaceRunsTwice | internal/plugin/handle.go:142-144 | a single failing workspace is run twice |
| Handle.HandleResult | internal/plugin/handle.go:105-160 | the status is always one of the five known ones, and an error is returned exactly with UnexpectedFailure |
| Handle.Handle | internal/plugin/handle.go:105-160 | the method returns exactly `HandleResult`; it runs the workspaces with the corrected loop `Handle.RunWorkspaces`, so its status and error are those of the loop as written, but a failing workspace is run once rather than twice |
| Handle.SuccessMeansEveryWorkspaceSucceeded | internal/plugin/handle.go:109-159 | Success exactly when parsing succeeds, test mode is off, there is a directory, the orchestrator is built and every workspace run succeeds |
| Handle.TestModeExitsEarly | internal/plugin/handle.go:113-119 | a parsed plugin in test mode exits with TestModeEarlyExit and no error, whatever the directories |
| Handle.NoUnsupportedModeAfterParse | internal/plugin/handle.go:126-141 | the built orchestrator carries the parsed plugin, so each workspace run is a plan or an apply by its mode |
| Validators.NewOpaValidatorAdapter | internal/adapters/validators/opa.go:42-66 | a nil configuration becomes the empty one, an empty name becomes "opa-" and the query, and the evaluator is built from the configuration's bundle, query and condition |
| Validators.ToValidators | internal/adapters/validators/validator.go:9-33 | fails with "unknown validation type: {<nil>}" exactly when some entry has no OPA configuration; otherwise one "opa-validator" adapter per entry, in order |
| Validators.FirstNonEmptyPriority | internal/adapters/validators/opa.go:187-210 | the key search finds a string exactly when some key holds a non-empty string, and then it is the earliest such key's |
| Validators.FindNonEmpty | internal/adapters/validators/opa.go:189-195 | the loop over the keys returns what the key search specifies |
| Validators.MessageOf | internal/adapters/validators/opa.go:187-199 | the message is never empty: the first non-empty message key, or "Policy violation: " and the rendered object |
| Validators.MessageKeyFirst | internal/adapters/validators/opa.go:189 | a non-empty "message" wins over every other key |
| Validators.FirstNonEmptyAppend | internal/adapters/validators/opa.go:204-210 | searching `a` then `b` finds what `a` finds, otherwise what `b` finds |
| Validators.PathOf | internal/adapters/validators/opa.go:202-221 | `extractPath`; stated by `Validators.PathFallbackOnlyForEmptyResource` |
| Validators.PathFallbackOnlyForEmptyResource | internal/adapters/validators/opa.go:202-221 | a non-empty string `resource` is found by the key loop, so the resource/action fallback only ever sees an empty resource and yields "" or "." and the action |
| Validators.FailureOf | internal/adapters/validators/opa.go:148-184 | the failure's type is the query and its message is never empty; strings give their text and "violation[i]"; objects give their message, path and themselves as details; other values are rendered and kept under "raw_violation"; an empty message becomes "Policy violation" and the 1-based index |
| Validators.FailuresOf | internal/adapters/validators/opa.go:126-131 | one failure per violation, in order, each converted with its own index |
| Validators.ConvertViolationsToResult | internal/adapters/validators/opa.go:112-142 | passes exactly when there are no violations; the failures are the violations converted in order |
| Validators.Validate | internal/adapters/validators/opa.go:81-106 | an evaluation error is reported as "OPA policy evaluation failed for" the validator's name; otherwise the violations are converted |
| Validators.ValidateResultShape | internal/adapters/validators/opa.go:112-184 | a successful validation passes exactly when it has no failures, and every failure carries the query and a non-empty message |
| Validators.FailuresExample | internal/adapters/validators/opa.go:148-221 | worked example: a string, an object with "msg" and "resource", and a number convert to the three expected failures |
| Rego.NewRego | internal/adapters/validators/opa/rego.go:77-94 | the evaluator keeps the bundle, the query and the condition it was given |
| Rego.ExtractValues | internal/adapters/validators/opa/rego.go:254-295 | an array yields its elements in order, any other value yields itself |
| Rego.FilterResult | internal/adapters/validators/opa/rego.go:200-250 | `filterResult`; stated by `Rego.FilterErrorsOnlyWhenUnencodable`, `FilterWithoutCondition` and `FilterMissingPath` |
| Rego.FilterErrorsOnlyWhenUnencodable | internal/adapters/validators/opa/rego.go:200-222 | a nil value filters to nothing; filtering fails exactly when the value cannot be encoded, with "failed to marshal expression value to JSON: " |
| Rego.FilterWithoutCondition | internal/adapters/validators/opa/rego.go:231-234 | without a condition an array value yields its elements and any other value yields itself |
| Rego.FilterMissingPath | internal/adapters/validators/opa/rego.go:241-248 | a condition path that does not exist yields an empty list, not an error |
| Rego.GatherExpressions | internal/adapters/validators/opa/rego.go:148-173 | the inner loop extends the violations gathered so far exactly as gathering over the longer list of expressions would, or returns its error |
| Rego.Eval | internal/adapters/validators/opa/rego.go:112-181 | prepare, evaluate, then gather every non-nil expression of every result in order; the first failure of any stage is returned |
| Rego.ViolationsAbort | internal/adapters/validators/opa/rego.go:155-161 | after a filter error, further expressions leave the error unchanged |
| Rego.ExpressionsAppend | internal/adapters/validators/opa/rego.go:147-148 | the expressions of two runs of results are the expressions of each, in order |
| Rego.AbortAcrossResults | internal/adapters/validators/opa/rego.go:147-161 | a filter error in one result is the error of the whole evaluation |
| Rego.ViolationsAppend | internal/adapters/validators/opa/rego.go:146-174 | without errors, the violations of two runs of expressions are the concatenation of each run's violations |
| Rego.AllNilNoViolations | internal/adapters/validators/opa/rego.go:149 | a result set whose expressions are all nil gives an empty list of violations, not an error |
| Rego.EvalStageErrors | internal/adapters/validators/opa/rego.go:120-140 | a preparation failure is reported as "failed to prepare OPA query: " and an evaluation failure as "failed to evaluate OPA query: ", before any filtering |
| Rego.EvalExample | internal/adapters/validators/opa/rego.go:146-174 | worked example: an array result and a result holding a nil and a string flatten to the three violations in order |
| Outputs.AnnotationStyle | internal/adapters/outputs/annotator.go:64-75 | the style is "error" exactly for the four failure stages, "success" exactly for the three stages with an effect, and "info" for everything else, never "warning" |
| Outputs.StagesDisjoint | internal/adapters/outputs/annotator.go:65-71 | no stage is both a failure and a success |
| Outputs.NewBuildkiteAnnotator | internal/adapters/outputs/annotator.go:22-48 | the annotator is the default agent and no configuration, with the options applied in order |
| Outputs.NilOptionsKeepDefaults | internal/adapters/outputs/annotator.go:22-37 | nil options change nothing |
| Outputs.Ouput | internal/adapters/outputs/annotator.go:51-61 | annotates with the configured template rendered on the data, the stage's style and the configured context; a render or agent error is wrapped in "failed to create Buildkite annotation: " |
| Outputs.OutputArgs | internal/adapters/outputs/annotator.go:52-56 | the annotation command carries exactly the message, the style and the context, with no append flag and no artifact |
| Outputs.ToOutputers | internal/adapters/outputs/output.go:9-29 | fails with "unknown output type: {<nil>}" exactly when an entry has no annotation; otherwise one annotator per entry with the default agent and that entry's configuration |
| BuildkiteAgent.FourStyles | pkg/buildkite/agent/options.go:5-10 | the four annotation styles are distinct |
| BuildkiteAgent.NewAgent | pkg/buildkite/agent/agent.go:23-40 | the command function is the last non-nil one given, or the default |
| BuildkiteAgent.AnnotateConfig.constructor | pkg/buildkite/agent/agent.go:50-52 | a fresh configuration has style "info" and everything else empty |
| BuildkiteAgent.AnnotateConfig.Apply | pkg/buildkite/agent/options.go:22-50 | each option sets its own field and leaves the other four unchanged |
| BuildkiteAgent.AnnotateArgs | pkg/buildkite/agent/agent.go:60-66 | six leading arguments (message, style, context), then "--artifact" and the artifact when one is set, then "--append " (with its trailing space) when append is on |
| BuildkiteAgent.Annotate | pkg/buildkite/agent/agent.go:48-69 | runs buildkite-agent with the arguments of the default settings updated by the options in order |
| BuildkiteAgent.MessageUnaffected | pkg/buildkite/agent/options.go:22-50 | options other than WithMessage never change the message |
| BuildkiteAgent.StyleDefaultsToInfo | pkg/buildkite/agent/agent.go:50-52 | without a WithStyle option the style is "info" |
| BuildkiteAgent.LaterOptionWins | pkg/buildkite/agent/agent.go:55-57 | of two WithMessage options the later one decides |
| BuildkiteAgent.LastMessageWins | pkg/buildkite/agent/options.go:22-26 | for any option list, the message is the text of the last `WithMessage`, whatever options follow it |
| BuildkiteAgent.AnnotateWithTemplate | pkg/buildkite/agent/agent.go:72-89 | a render error is wrapped in "failed to render template: "; otherwise annotates with the caller's options followed by the rendered message |
| BuildkiteAgent.RenderedMessageWins | pkg/buildkite/agent/agent.go:85-88 | the rendered message is what reaches the command line, whatever message the caller's options carried |
| BuildkiteAgent.UploadPipeline | pkg/buildkite/agent/agent.go:43-45 | `UploadPipeline`; stated by `BuildkiteAgent.UploadNeverAnnotates` |
| BuildkiteAgent.UploadNeverAnnotates | pkg/buildkite/agent/agent.go:43-45 | the upload passes the pipeline as one argument after "pipeline upload", and its command line is never an annotation's |
| BuildkiteAgent.AnnotateArgsExample | pkg/buildkite/agent/agent.go:60-66 | worked example: a message, an artifact and append give the nine-argument command line |
| LogGroup.Buffer.constructor | pkg/buildkite/group/manager.go:149-154 | a fresh writer holds no text |
| LogGroup.GroupLine | pkg/buildkite/group/manager.go:162-166 | the line is the marker, one space, the title and a newline, in that order |
| LogGroup.Manager.constructor | pkg/buildkite/group/manager.go:149-154 | the manager writes to the writer it is given, or discards when given none |
| LogGroup.Manager.Write | pkg/buildkite/group/manager.go:162-166 | the writer's text grows by exactly the line, and a discarding manager changes nothing |
| LogGroup.Manager.Open | pkg/buildkite/group/manager.go:181-183 | appends the "+++" line for the title |
| LogGroup.Manager.Closed | pkg/buildkite/group/manager.go:209-211 | appends the "---" line for the title |
| LogGroup.Manager.Muted | pkg/buildkite/group/manager.go:239-241 | appends the "~~~" line for the title |
| LogGroup.Manager.OpenF | pkg/buildkite/group/manager.go:192-194 | appends the "+++" line for the formatted title |
| LogGroup.Manager.ClosedF | pkg/buildkite/group/manager.go:220-222 | appends the "---" line for the formatted title |
| LogGroup.Manager.MutedF | pkg/buildkite/group/manager.go:250-252 | appends the "~~~" line for the formatted title |
| LogGroup.Manager.OpenCurrent | pkg/buildkite/group/manager.go:271-275 | appends "^^^ +++" and a newline |
| LogGroup.Manager.SetOutput | pkg/buildkite/group/manager.go:294-301 | switches to the new writer (discarding when given none) and returns the same manager for chaining |
| LogGroup.Accumulate | pkg/buildkite/group/manager.go:121-130 | worked example: an open, a closed, a muted group and an expand accumulate in call order with their markers |
| LogGroup.DiscardAfterSetOutput | pkg/buildkite/group/manager.go:294-301 | worked example: after switching to the discard sink, later groups leave the earlier writer's text unchanged |
| Schema.ValidateInputSchema | pkg/schema/schema/validate.go:29-44 | passes exactly for a struct or a pointer to a struct; nil gives "input cannot be nil", anything else "expected struct, got " and its type name |
| Schema.DoublePointerRefused | pkg/schema/schema/validate.go:34-41 | a pointer to a pointer to a struct is refused, named with both stars |
| Schema.ValidateProperties | pkg/schema/schema/validate.go:47-52 | passes exactly when properties are set, otherwise "properties cannot be nil" |
| Schema.ValidationErrors | pkg/schema/schema/validate.go:9-19 | no errors exactly when both checks pass, and at most two |
| Schema.Aggregated | pkg/schema/schema/validate.go:17-25 | the aggregate passes exactly when there are no errors |
| Schema.BulletsPrefix | pkg/schema/schema/validate.go:20-25 | listing more errors only appends to the message |
| Schema.FirstErrorFirst | pkg/schema/schema/validate.go:20-25 | the aggregated message opens with "validation errors:" and a bullet for the first error |
| Schema.Validate | pkg/schema/schema/validate.go:9-26 | passes exactly when the schema is a struct (or pointer to one) and properties are set; otherwise the aggregated message |
| Schema.JoinErrors | pkg/schema/schema/validate.go:20-25 | the loop builds the header followed by one "\n - " line per error, in order |
| Schema.BothErrorsReported | pkg/schema/schema/validate.go:9-26 | with neither schema nor properties both errors are reported, the schema's first |
| Schema.New | pkg/schema/schema/schema.go:38-66 | the configuration is the zero one with the options applied in order |
| Schema.NilOptionIgnored | pkg/schema/schema/schema.go:38-52 | a nil properties or schema option, wherever it stands, changes nothing |
| Schema.CallerAlwaysSet | pkg/schema/schema/schema.go:54-58 | the caller option sets the path even when it is empty, and touches nothing else |
| Schema.GenerateJSONSchema | pkg/schema/schema/schema.go:70-93 | a failing input check is returned as is; a result is the decoded reflection of a struct type; other errors are the marshal or unmarshal error, each with its own prefix |
| Schema.GeneratePluginSchema | pkg/schema/schema/schema.go:95-111 | validates, then generates with "failed to generate configuration schema: " on error, copying the properties into the result |
| Schema.GeneratedSchemaContents | pkg/schema/schema/schema.go:95-111 | a generated schema carries the properties unchanged and the decoded reflection of a struct; a validation failure is reported unchanged; after validation passes only an encoding error can follow |
| SchemaHandler.FileExtensionValidator | pkg/schema/handler/validator.go:13-46 | accepts exactly a string field whose trimmed name is not blank and whose lower-cased extension is non-empty and listed (trimmed and lower-cased) in the space-separated parameter |
| SchemaHandler.ContainsMapped | pkg/schema/handler/validator.go:34-45 | the search finds the value exactly when some normalised entry equals it |
| SchemaHandler.OnlyNamedStringsPass | pkg/schema/handler/validator.go:15-25 | a non-string field or a blank name is refused whatever the parameter |
| SchemaHandler.MoreExtensionsAcceptMore | pkg/schema/handler/validator.go:34-45 | adding entries to the parameter never refuses an extension it accepted |
| SchemaHandler.SplitOnSeparator | pkg/schema/handler/validator.go:34 | splitting "a b" gives a's parts first, unchanged, and at least one more |
| SchemaHandler.TwoEntries | pkg/schema/handler/validator.go:34-45 | a parameter of two plain entries accepts exactly those two extensions |
| SchemaHandler.YamlIsPlain | pkg/schema/handler/handle.go:12 | "yaml" normalises to itself |
| SchemaHandler.YmlIsPlain | pkg/schema/handler/handle.go:12 | "yml" normalises to itself |
| SchemaHandler.PlainEntry | pkg/schema/handler/validator.go:36-37 | a lower-case word with no surrounding space normalises to itself |
| SchemaHandler.DottedNameTrimmed | pkg/schema/handler/validator.go:20-25 | a name without surrounding space is its own trim |
| SchemaHandler.ExtensionOf | pkg/schema/handler/validator.go:28-31 | the extension of "stem.suffix" is the suffix lower-cased, when the suffix has no dot or slash |
| SchemaHandler.OutputFileAllows | pkg/schema/handler/handle.go:12 | the output file's parameter accepts exactly "yaml" and "yml" |
| SchemaHandler.SuffixDecides | pkg/schema/handler/validator.go:13-46 | "stem.suffix" is accepted for the output file exactly when the suffix is "yaml" or "yml" in any case, including hidden names such as ".config.yaml" |
| SchemaHandler.TrailingDotRefused | pkg/schema/handler/validator.go:28-31 | a name ending in a dot has no extension and is refused |
| SchemaHandler.ValidateOptions | pkg/schema/handler/validator.go:50-60 | passes exactly when the output file is named and has an allowed extension; an empty name fails on "required", any other failure on "extension", both after "failed to validate options: " |
| Caller.Visited | pkg/schema/caller/caller.go:112-128 | at least one and at most 32 frames are inspected: the zero frame alone for an empty stack, otherwise the first 32 |
| Caller.FirstMatching | pkg/schema/caller/caller.go:120-130 | finds a frame exactly when some frame matches, and then the first matching one; otherwise "no matching frame found" |
| Caller.FindCaller | pkg/schema/caller/caller.go:112-131 | the frame walk returns the first matching frame among those visited |
| Caller.FirstMatchingIsFirst | pkg/schema/caller/caller.go:120-128 | a matching frame preceded only by non-matching ones is the answer |
| Caller.IsMainFile | pkg/schema/caller/caller.go:64-66 | the default matcher; stated by `Caller.MainFileMatches` |
| Caller.MainFileMatches | pkg/schema/caller/caller.go:64-66 | the default matcher accepts any frame of a file "<dir>/main.go" |
| Caller.New | pkg/schema/caller/caller.go:38-72 | the caller is the defaults with the options applied in order, each replacing its dependency |
| Caller.DefaultFindsMain | pkg/schema/caller/caller.go:60-72 | without options, the caller looks for the first main.go frame of the stack and uses the process's working directory |
| Caller.DotRelative | pkg/schema/caller/caller.go:103-105 | the result always starts with "./" or "../"; a path already starting so is kept, any other gets "./" |
| Caller.DotRelativeIdempotent | pkg/schema/caller/caller.go:103-105 | marking a path relative twice is marking it once |
| Caller.CallPath | pkg/schema/caller/caller.go:82-108 | errors are reported in stage order with their prefixes; a result exists exactly when all three steps succeed, and starts with "./" or "../" |
| Caller.CallPathOfMatchedFrame | pkg/schema/caller/caller.go:90-107 | the result is the matched frame's directory relative to the working directory, marked relative |
| TestHelpers.ShouldIncludeFile | internal/testhelpers/copy_dir.go:26-44 | a file is included exactly when some entry is its name, its relative path, or a directory it lies under |
| TestHelpers.DirectoryClauseAddsNothing | internal/testhelpers/copy_dir.go:26-44 | the directory test repeats the name test, so an entry selects by name, path or parent directory only |
| TestHelpers.IncludeListBounds | internal/testhelpers/copy_dir.go:26-44 | an empty list includes nothing; a listed directory includes everything under it at any depth |
| TestHelpers.ShouldSkipByGitignore | internal/testhelpers/copy_dir.go:59-70 | `shouldSkipByGitignore`; stated by `TestHelpers.NoPatternsSkipOnlyGitignore` and `IncludeListOverridesGitignore` |
| TestHelpers.NoPatternsSkipOnlyGitignore | internal/testhelpers/copy_dir.go:59-70 | without ignore patterns only ".gitignore" itself is skipped |
| TestHelpers.CopySkip | internal/testhelpers/copy_dir.go:88-108 | a path error is returned (with no skip); with an include list the unlisted are skipped; otherwise the gitignore rules decide |
| TestHelpers.IncludeListOverridesGitignore | internal/testhelpers/copy_dir.go:95-106 | with an include list the ignore patterns play no part and a listed ".gitignore" is copied; without one ".gitignore" is always skipped |
| Wrappers.LastSetIsLastSome | pkg/buildkite/agent/agent.go:23-40 | under options that ignore nil, every nil argument leaves the default and otherwise the last non-nil argument wins |

## Left out

- Terraform itself (`tfexec` init, plan, show, apply) and `exec.LookPath` are answers supplied to the model. The orchestrator sees their outcomes, not the processes.
- The OPA engine (`rego.New`, `PrepareForEval`, `Eval`) and gjson's `Get` are likewise supplied answers. JSON values are a datatype.
- `encoding/json`, `net/url.Parse`, `caarlos0/env`, `regexp` and `os.ReadDir` are modelled as given functions, as are the `dir`/`file` tags' file-system checks, `filepath.Rel`, `filepath.Dir` and `path.Join`. The go-playground validator is reduced to the tags the configuration carries.
- Schema reflection (`jsonschema.Reflector` with `json.Marshal`/`Unmarshal`) is a given function from a Go type to a decoded map.
- The runtime call stack is a list of frames, and `runtime.Callers`' truncation to 32 return addresses is modelled as keeping the first 32 frames. `filepath.ToSlash` is the identity, as on Unix.
- `fmt`'s `%v` rendering of arbitrary values and `fmt.Sprintf` in the log-group `*F` methods are given functions. `%d` of integers is written out.
- Lower-casing covers ASCII letters only; Unicode case folding is not modelled. White space is `unicode.IsSpace`'s full set.
- Floating-point numbers are `real`. Go's distinction between a nil and an empty slice is not kept: both are the empty sequence. The one exception is the include list of `getCopyOptions`, an `Option` whose `None` is nil (`TestHelpers.SkipDecision`, `TestHelpers.CopySkip`): `Some([])` skips every file.
- `Caller.CallerOption`: `WithWorkingDirFn(nil)`, `WithFindCallerFn(nil)` and `WithMatcherFn(nil)` store a nil function, and `CallPath` then panics when it calls it. Function values in the model cannot be nil, so this case is not represented.
- `Handle.RunWorkspacesAsWritten`: the second run of a failing workspace is assumed to give the same result as the first, because the outside world is modelled as a fixed function. A real re-run of `terraform apply` may differ.
- `WorkingDir.Parse`, `Initiator.ParseResult`, `Initiator.ParsePlugin`, `Handle.HandleResult` and `Handle.Handle` require that `(*Working).Parse` is not reached with a nil parallel-job pointer. There the Go code dereferences nil and panics. `WorkingDir.ValidatedCountOnlyPanics` shows that a validated configuration with a job count but no index reaches that point.
- `Outputs.Ouput` requires a configuration, because the Go method dereferences a nil one.
- `SchemaHandler.ValidateOptions` does not model the registration error of the `extension` validator, which cannot occur for a fixed valid tag name. The validator's own detail text after "failed to validate options: " is a given function of the failing tag.
- `Config.ValidatePlugin`: the validator's own detail text after "failed to validate config: " is a given function of the plugin (`Host.describe`), not derived from the failing tag.
- `Common.ParseLogLevel`: zerolog's level parser and level names are given functions. `SetLogLevel`'s write to the global level is not modelled.
- `Handle.GetName`: `ExitStatus.ToInt` is the identity on the status, which is an integer in the model.
- `WorkingDir.ListDirs` counts skipped files and filtered directories in ghost out-parameters, which exist only for its contract.
- Logging (zerolog), `WritePrettyJSON`, command execution and stdout capture (`command.go`), template rendering (`render.go`) and the global log-group singleton (`group.go`) are not part of this model. Neither are the `cmd/plugin` and `tools/schema` entry points, the cobra glue, the mocks, or the file-system test helpers (`dir.go`, `file.go`, `CopyDir`, `getGitIgnore`).
- Context cancellation is not modelled, and Go's map iteration order is not either: each plugin entry is an ordered list of key/value pairs.

## Findings

| source | as written | input that shows it | evidently intended | confidence | as-written member | corrected member |
|---|---|---|---|---|---|---|
| internal/plugin/handle.go:142-144 | after a workspace run fails, the loop calls `orchestrator.Run` on the same directory again and records that second result | a single working directory in apply mode whose `terraform apply` fails: apply is attempted twice | record the failed result of the first run without running the workspace again | not executed | Handle.FailingWorkspaceRunsTwice | Handle.RunWorkspaces |
