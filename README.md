# cypress-cloud runner core in Dafny

This project models the entry point of the cypress-cloud runner, the library
that runs Cypress tests against a cloud orchestration service.

- `packages/cypress-cloud/lib/run.ts` becomes module `Run`. It holds the two
  DeploySentinel helpers, which update `process.env` in place, and the
  decision skeleton of `run`.
  - `setDSCustomEnvs` makes `ELECTRON_EXTRA_LAUNCH_ARGS` carry a
    `--remote-debugging-port` flag.
  - `setDSMachineId` fills `CYPRESS_DEPLOYSENTINEL_MACHINE_ID`, and the first
    value set wins.
  - `run` covers the offline short-circuit, validation, the zero-spec early
    return, run creation, the order of the side effects, and the result with
    or without `runUrl`.

  The running process is the class `Run.Process`. Its fields are:
  - `env`, the environment map;
  - `apiBaseUrl` and `runId`, the HTTP client state;
  - `steps`, the log of calls `run` makes;
  - `requests`, the log of requests sent to `createRun`.

  The methods change these fields and are proved against the pure functions
  `WithLaunchArgs`, `WithMachineId` and `RunSpec`. The properties of those
  functions are proved as their `ensures` clauses and as lemmas.
- `packages/cypress-cloud/lib/config.ts` becomes module `Config`. It models
  `getConfig` with its truthiness (`||`) and nullish (`??`) fallbacks,
  `getConfigFilePath`, and the empty-config fallback of `getCurrentsConfig`.
  All three are pure functions.
- Module `PosixPath` models Node's posix `path.resolve`, which
  `getConfigFilePath` calls. Arguments are gathered from the right until one
  is absolute, with the working directory last. Empty arguments are skipped.
  The gathered path is then normalised, so `.`, `..` and empty segments are
  resolved and any trailing separator is dropped.
- Module `Wrappers` holds `Option` and `Result`. `Option.OrElse` is
  JavaScript's `??`.

The JavaScript values are modelled as follows:
- `undefined` and `null` are `None`.
- An empty string is falsy. Every array is truthy, even an empty one.
- A spec pattern is one glob (`Glob`) or a list of globs (`Globs`).
- `bootCypress`, `require`, `process.cwd()` and `crypto.randomUUID()` are
  replaced by the value they give.
- The collaborators of `run` are handled in three ways, as listed under
  "## Left out". Most are replaced by the value they return, gathered in
  `Run.Externals`. `preprocessParams` is folded into `offline` and
  `validated`. `getMergedConfig` and `runTillDoneOrCancelled` are only steps
  in the call log.
- The working directory `cwd` stands for `process.cwd()`. That value is always
  absolute, and the lemmas about the configuration file path assume it.

## Model

| member | source | states |
|---|---|---|
| Config.GetConfig | packages/cypress-cloud/lib/config.ts:23-58 | Two TypeErrors are modelled as errors. When Cypress resolved no configuration, the result is the error thrown at line 36. When the configuration lacks the `resolved` table or its `excludeSpecPattern` entry, the result is the error thrown at line 49. Otherwise `resolved` is that configuration unchanged and `projectId` is copied from the parameters. `projectRoot` is the configured root, or the working directory when the root is empty. `specPattern` is the configured pattern when it is truthy and `**/*.*` otherwise, so it is always truthy. `excludeSpecPattern` is the entry's value, or `[]` when that value is null or undefined. `additionalIgnorePattern` is the raw e2e pattern exactly when the testing type is component and that pattern is truthy, and `[]` otherwise. |
| Config.RawE2ESpecPattern | packages/cypress-cloud/lib/config.ts:36 | `rawJson?.e2e?.specPattern` is defined exactly when every link of the chain is, and is then the raw e2e pattern. |
| Config.GetConfigStable | packages/cypress-cloud/lib/config.ts:43-50 | The fallbacks are stable. A Cypress configuration that merges successfully and then already holds the merged `projectRoot`, `specPattern` and `excludeSpecPattern` merges to the same values again, under any working directory. |
| Config.GetConfigFilePath | packages/cypress-cloud/lib/config.ts:60-62 | The path is absolute whenever the working directory is. |
| Config.ConfigFileUnderLocation | packages/cypress-cloud/lib/config.ts:60-62 | For an absolute working directory, the configuration file is `currents.config.js` directly inside the resolved explicit location, or inside the working directory when none is given. Both the directory and the file path are absolute. |
| Config.ConfigFileEmptyLocation | packages/cypress-cloud/lib/config.ts:60-62 | `??` keeps an empty explicit location, but `path.resolve` skips it. So, for an absolute working directory, it gives the same path as no location. |
| Config.ConfigFileAbsoluteLocation | packages/cypress-cloud/lib/config.ts:60-62 | Any absolute explicit location makes the path independent of the working directory, and absolute whatever the working directory is. |
| Config.ConfigFileCanonicalLocation | packages/cypress-cloud/lib/config.ts:60-62 | An absolute explicit location in normal form, other than `/` itself, gives the location, then `/`, then `currents.config.js`. |
| Config.GetCurrentsConfig | packages/cypress-cloud/lib/config.ts:10-21 | When loading the file at the default path throws, the result is `{}`. Otherwise it is the module that was loaded. |
| PosixPath.Split | packages/cypress-cloud/lib/config.ts:61 | The segments of a path are never empty as a list, and none of them contains a separator. |
| PosixPath.Normalize | packages/cypress-cloud/lib/config.ts:61 | Normalised segments are never `""` or `.`, and each one is `..` or one of the input segments. For an absolute path, no segment is `..`. |
| PosixPath.Gather | packages/cypress-cloud/lib/config.ts:61 | The gathered path ends with a separator when it is non-empty. It is absolute when gathering stopped at an absolute argument. It always stops at one when the working directory is absolute. |
| PosixPath.Resolve | packages/cypress-cloud/lib/config.ts:61 | `path.resolve` never yields the empty string. Its result is absolute when gathering stopped at an absolute argument, and so always when the working directory is absolute. |
| PosixPath.ResolveUnder | packages/cypress-cloud/lib/config.ts:61 | Resolving a directory and then a plain file name gives the file directly inside the resolved directory. |
| PosixPath.ResolveSkipsEmpty | packages/cypress-cloud/lib/config.ts:61 | An empty first argument resolves as the working directory. |
| PosixPath.ResolveIgnoresCwd | packages/cypress-cloud/lib/config.ts:61 | When the first argument is absolute, the working directory does not matter and the result is absolute. |
| PosixPath.ResolveCanonicalUnder | packages/cypress-cloud/lib/config.ts:61 | An absolute directory already in normal form, other than `/` itself, followed by a plain file name, resolves to the two joined by `/`. |
| PosixPath.SplitJoin | packages/cypress-cloud/lib/config.ts:61 | Splitting the join of separator-free segments gives those segments back. |
| PosixPath.NormalizeCanonical | packages/cypress-cloud/lib/config.ts:61 | Normalising a rooted path of plain segments changes nothing. |
| Run.Includes | packages/cypress-cloud/lib/run.ts:45 | `String.prototype.includes`: true exactly when the substring occurs at some index. |
| Run.LaunchArgsValue | packages/cypress-cloud/lib/run.ts:37-52 | An unset or empty `ELECTRON_EXTRA_LAUNCH_ARGS` becomes exactly `--remote-debugging-port=40500`. A value is kept unchanged exactly when it is set, non-empty and already contains `--remote-debugging-port`. Any other value gets ` --remote-debugging-port=40500` appended. The old value is always a prefix of the new one. |
| Run.LaunchArgsCarryFlag | packages/cypress-cloud/lib/run.ts:37-52 | The new value always contains `--remote-debugging-port`. |
| Run.LaunchArgsIdempotent | packages/cypress-cloud/lib/run.ts:37-52 | Applying the launch-argument update to its own result changes nothing. |
| Run.WithLaunchArgs | packages/cypress-cloud/lib/run.ts:37-52 | After `setDSCustomEnvs`, `ELECTRON_EXTRA_LAUNCH_ARGS` is set, contains the flag and holds the value above. No other variable changes. |
| Run.WithLaunchArgsIdempotent | packages/cypress-cloud/lib/run.ts:37-52 | Calling `setDSCustomEnvs` twice leaves the environment as calling it once. |
| Run.MachineIdValue | packages/cypress-cloud/lib/run.ts:28-31 | The existing value wins, even when it is empty. Next comes the supplied machine id. The fresh UUID is used only when both are absent. |
| Run.WithMachineId | packages/cypress-cloud/lib/run.ts:27-36 | After `setDSMachineId`, `CYPRESS_DEPLOYSENTINEL_MACHINE_ID` is always set. An existing value is never overwritten. When the variable was unset, it takes the supplied id, or the fresh UUID when no id is supplied. No other variable changes. |
| Run.MachineIdFirstWins | packages/cypress-cloud/lib/run.ts:27-36 | Once a machine id is set, later calls change nothing, whatever they are given. |
| Run.EnvHelpersCommute | packages/cypress-cloud/lib/run.ts:27-52 | The two helpers touch different variables, so they commute. |
| Run.Process.SetDSMachineId | packages/cypress-cloud/lib/run.ts:27-36 | The method updates the process environment in place to `WithMachineId` of the old environment and touches nothing else. |
| Run.Process.SetDSCustomEnvs | packages/cypress-cloud/lib/run.ts:37-52 | The method runs the two branches of the source in place. The new environment is `WithLaunchArgs` of the old one, and nothing else changes. |
| Run.FlatPatternsIsFlat | packages/cypress-cloud/lib/run.ts:115 | The list of globs sent is what `[specPattern].flat(2)` gives under ECMAScript's `FlattenIntoArray`, modelled independently as `Flat` over nested JavaScript arrays. A single glob becomes a one-element list, and a list of globs is spread in unchanged. |
| Run.RelativePaths | packages/cypress-cloud/lib/run.ts:107 | The result has one relative path per spec, in order. |
| Run.Request | packages/cypress-cloud/lib/run.ts:105-120 | The `createRun` payload has one relative path per spec, in order. `parallel` is true exactly when the parameter is `true`, because `parallel ?? false`. `specPattern` is the `flat(2)` of the pattern. CI, commit and platform are those detected. Group, build id, project id, record key, tags, testing type, batch size and `autoCancelAfterFailures` are copied from the validated parameters. For `autoCancelAfterFailures`, a number (`Threshold`), `false` (`Disabled`) and unset (`None`) stay distinct. |
| Run.RunCalls | packages/cypress-cloud/lib/run.ts:54-159 | Of the modelled calls (`preprocessParams` and `isOffline` are folded into `offline`), an offline `run` calls only the bare runner and returns its result. Otherwise it never uses the bare runner, and its calls are an initial part of one fixed order that starts with validation. Each path is pinned down. A validation failure means only validation is called and the error is thrown. Zero specs means only the setup calls and an `undefined` result. A `createRun` rejection means the calls up to `createRun`, then its error is thrown. A created run means the whole order: run id, machine id, claim loop, uploads and summary, with a recorded result. `createRun` is called exactly once, and only when validation passed and specs were found. Its request is `Request` of the validated parameters. Only zero specs settles to `undefined`, and only the two failures reject. A recorded result is the summary, carrying the created run's `runUrl` exactly when the status is `finished`. |
| Run.RunState | packages/cypress-cloud/lib/run.ts:59-126 | Offline, or when validation fails, the environment and the HTTP client are unchanged. Once validation passes, the client's base URL is the service URL and the launch arguments carry the flag. Without a created run, the environment is the launch-argument update of the old one and the run id is untouched. With a created run, the run id is the created one and the environment also has the machine id filled in by precedence. The machine id is set exactly when it already was or when a run was created. |
| Run.RunOrdering | packages/cypress-cloud/lib/run.ts:59-158 | In every path, the launch arguments are set after validation. The run is created after the launch arguments are set and after spec discovery. The machine id is set after the run is created and before the claim loop starts. Uploads are awaited before the summary is computed. |
| Run.Process.Run | packages/cypress-cloud/lib/run.ts:54-159 | The method follows the source step by step with its early returns. It appends the calls it makes to the call log and the `createRun` request to the request log. The new environment, client state and outcome are those of the specification function `RunSpec`, whose meaning `RunCalls`, `RunState` and `RunOrdering` state. |

## Left out

- Logging and console output (`debug`, `info`, `divider`, `title`, `summaryTable`, `console.log`) have no effect on the model.
- Run.RunSpec: the sources of `preprocessParams`, `isOffline`, `validateParams`, `getMergedConfig`, `getSpecFiles`, `getPlatform`, `getGitInfo`, `getCI`, `createRun`, `runBareCypress`, `summarizeTestResults` and `runTillDoneOrCancelled` are not part of this model. They are handled in three ways.
  - `isOffline`, `validateParams`, `getSpecFiles`, `getPlatform`, `getGitInfo`, `getCI`, `createRun`, `runBareCypress` and `summarizeTestResults` are each replaced by the value they return, in `Externals`.
  - `preprocessParams` has no value of its own. Its effect is folded into `offline` and `validated`.
  - `getMergedConfig` and `runTillDoneOrCancelled` are only steps in the call log.
- Run.RunSpec: only two failures are modelled, a throw from `validateParams` and a rejection from `createRun`. Every other call is assumed to return or resolve. That includes the synchronous `preprocessParams`, `setAPIBaseUrl`, `getCI`, `cutInitialOutput` and `summarizeTestResults`, and the promise of `runBareCypress` that `run` returns offline.
- Run.RunState: every collaborator is assumed to leave `process.env` and the HTTP client state alone. That includes `getMergedConfig` and `runTillDoneOrCancelled`, which run between the writes of `run` and its end. The final environment and run id rest on that assumption.
- Run.RunSpec: the merged configuration is only a step in the call log. What `getMergedConfig` returns feeds `getSpecFiles`, `getPlatform`, `getGitInfo` and the claim loop, which are not part of this model.
- Run.RunSpec: the arguments passed to `runTillDoneOrCancelled` and the effect of the claim loop on the summary are not captured. The loop is asynchronous and its source is not part of this model.
- `Promise.allSettled(uploadTasks)` is only a step in the call log. The upload tasks run concurrently.
- `setAPIBaseUrl` and `setRunId` are modelled as assignments to the two client fields. The HTTP client itself is not part of this model.
- `crypto.randomUUID()` is a parameter (`freshUuid`), not randomness.
- `bootCypress` is replaced by the configuration it resolved. `require` of `currents.config.js` is a function from the path to the loaded module or the error thrown. `process.cwd()` is a parameter, `cwd`. The path lemmas assume it is absolute, as `process.cwd()` always is.
- Config.GetConfig: when `bootCypress` resolves `undefined`, line 36 of config.ts dereferences it without a guard and throws. The model returns that error and invents no fallback. As a result, the `?.` guards and the working-directory fallback for a missing configuration on lines 44-49 are unreachable and are not modelled as separate cases.
- Config.GetConfig: only the configuration fields that `getConfig` reads are modelled. `browsers` and the rest of Cypress's resolved options are left out.
- `getRandomPort` only chooses the port handed to `bootCypress`, so it has no effect on the model.
- PosixPath.Gather: only the posix flavour of `path.resolve` is modelled. Windows drive letters and backslashes are left out.
- Run.Summary: only the status and the counters of the summary are modelled. The shape of `summarizeTestResults`' result is not part of this model.
