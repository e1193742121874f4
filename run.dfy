/** The entry point of the cypress-cloud runner
    (packages/cypress-cloud/lib/run.ts): the two helpers that prepare the
    process environment for the DeploySentinel integration, and the decision
    skeleton of `run`.

    The process is a `Process` object: `process.env` is a string map that the
    helpers update in place, the HTTP client's base URL and run id are fields
    set by `run`, and two logs record what `run` asks of the outside world:
    the calls it makes, in order, and the requests it sends to `createRun`.
    The collaborators whose sources are not part of this model are handled
    in three ways. The offline check, validation, spec discovery, platform,
    CI and git detection, run creation, the bare runner and the summary are
    each replaced by the value they return, gathered in an `Externals`
    record. Parameter preprocessing has no value of its own: its effect is
    folded into `offline` and `validated`. Config merging and the claim loop
    are only steps in the call log. */
module Run {
  import opened Wrappers
  import Config

  const MachineIdKey: string := "CYPRESS_DEPLOYSENTINEL_MACHINE_ID"
  const LaunchArgsKey: string := "ELECTRON_EXTRA_LAUNCH_ARGS"
  const DebugPortFlag: string := "--remote-debugging-port"
  const DebugPortArg: string := "--remote-debugging-port=40500"

  /** `process.env[key]`: `undefined` when the variable is not set. */
  function Lookup(env: map<string, string>, key: string): Option<string> {
    if key in env then Some(env[key]) else None
  }

  /** `sub` occurs in `s` starting at index `i`. */
  predicate OccursAt(s: string, sub: string, i: int) {
    0 <= i && i + |sub| <= |s| && s[i..i + |sub|] == sub
  }

  /** `s.includes(sub)`. */
  function Includes(s: string, sub: string): (b: bool)
    ensures b <==> exists i :: OccursAt(s, sub, i)
    decreases |s|
  {
    if |s| < |sub| then false
    else if s[..|sub|] == sub then
      assert OccursAt(s, sub, 0);
      true
    else
      IncludesShift(s, sub);
      Includes(s[1..], sub)
  }

  /** Without an occurrence at the front, `sub` occurs in `s` exactly when it
      occurs in the rest of `s`. */
  lemma IncludesShift(s: string, sub: string)
    requires |s| > 0 && !OccursAt(s, sub, 0)
    ensures (exists i :: OccursAt(s, sub, i)) <==> (exists i :: OccursAt(s[1..], sub, i))
  {
    if i :| OccursAt(s, sub, i) {
      assert s[1..][i - 1..i - 1 + |sub|] == s[i..i + |sub|];
      assert OccursAt(s[1..], sub, i - 1);
    }
    if i :| OccursAt(s[1..], sub, i) {
      assert s[1..][i..i + |sub|] == s[i + 1..i + 1 + |sub|];
      assert OccursAt(s, sub, i + 1);
    }
  }

  // ---------------------------------------------------------------------------
  // setDSCustomEnvs

  /** The value `setDSCustomEnvs` leaves in ELECTRON_EXTRA_LAUNCH_ARGS, given
      the value before (`None` when unset). An unset or empty value becomes
      the debugging-port argument; a value that already names the flag, with
      whatever port, stays; any other value gets the argument appended. */
  function LaunchArgsValue(existing: Option<string>): (r: string)
    ensures existing.None? || existing.value == "" ==> r == DebugPortArg
    ensures existing.Some? && existing.value != "" ==> existing.value <= r
    ensures existing == Some(r) <==> existing.Some? && existing.value != "" && Includes(existing.value, DebugPortFlag)
    ensures existing.Some? && existing.value != "" && !Includes(existing.value, DebugPortFlag) ==>
      r == existing.value + " " + DebugPortArg
  {
    if existing.None? || existing.value == "" then DebugPortArg
    else if !Includes(existing.value, DebugPortFlag) then existing.value + " " + DebugPortArg
    else existing.value
  }

  /** The debugging-port argument names the flag, wherever it is appended. */
  lemma FlagInArgument(prefix: string)
    ensures Includes(prefix + DebugPortArg, DebugPortFlag)
  {
    var s := prefix + DebugPortArg;
    assert s[|prefix|..|prefix| + |DebugPortFlag|] == DebugPortArg[..|DebugPortFlag|];
    assert OccursAt(s, DebugPortFlag, |prefix|);
  }

  /** After `setDSCustomEnvs` the launch arguments always name the flag. */
  lemma LaunchArgsCarryFlag(existing: Option<string>)
    ensures Includes(LaunchArgsValue(existing), DebugPortFlag)
  {
    if existing.None? || existing.value == "" {
      FlagInArgument("");
      assert "" + DebugPortArg == DebugPortArg;
    } else if !Includes(existing.value, DebugPortFlag) {
      FlagInArgument(existing.value + " ");
    }
  }

  /** Running `setDSCustomEnvs` a second time changes nothing. */
  lemma LaunchArgsIdempotent(existing: Option<string>)
    ensures LaunchArgsValue(Some(LaunchArgsValue(existing))) == LaunchArgsValue(existing)
  {
    LaunchArgsCarryFlag(existing);
  }

  /** The environment after `setDSCustomEnvs`. */
  function WithLaunchArgs(env: map<string, string>): (e: map<string, string>)
    ensures LaunchArgsKey in e && Includes(e[LaunchArgsKey], DebugPortFlag)
    ensures e - {LaunchArgsKey} == env - {LaunchArgsKey}
    ensures e[LaunchArgsKey] == LaunchArgsValue(Lookup(env, LaunchArgsKey))
  {
    LaunchArgsCarryFlag(Lookup(env, LaunchArgsKey));
    env[LaunchArgsKey := LaunchArgsValue(Lookup(env, LaunchArgsKey))]
  }

  /** Calling `setDSCustomEnvs` twice leaves the environment as calling it once. */
  lemma WithLaunchArgsIdempotent(env: map<string, string>)
    ensures WithLaunchArgs(WithLaunchArgs(env)) == WithLaunchArgs(env)
  {
    LaunchArgsIdempotent(Lookup(env, LaunchArgsKey));
  }

  // ---------------------------------------------------------------------------
  // setDSMachineId

  /** `existing ?? machineId ?? freshUuid`: the first value that is defined,
      where an empty string counts as defined. */
  function MachineIdValue(existing: Option<string>, machineId: Option<string>, freshUuid: string): (r: string)
    ensures existing.Some? ==> r == existing.value
    ensures existing.None? && machineId.Some? ==> r == machineId.value
    ensures r == freshUuid <== existing.None? && machineId.None?
  {
    existing.OrElse(machineId.OrElse(freshUuid))
  }

  /** The environment after `setDSMachineId(machineId)` when
      `crypto.randomUUID()` would give `freshUuid`. */
  function WithMachineId(env: map<string, string>, machineId: Option<string>, freshUuid: string): (e: map<string, string>)
    ensures MachineIdKey in e
    ensures MachineIdKey in env ==> e == env
    ensures e - {MachineIdKey} == env - {MachineIdKey}
    ensures MachineIdKey !in env && machineId.Some? ==> e[MachineIdKey] == machineId.value
    ensures MachineIdKey !in env && machineId.None? ==> e[MachineIdKey] == freshUuid
  {
    env[MachineIdKey := MachineIdValue(Lookup(env, MachineIdKey), machineId, freshUuid)]
  }

  /** The first machine id set wins: later calls change nothing, whatever
      they are given. */
  lemma MachineIdFirstWins(env: map<string, string>, machineId: Option<string>, freshUuid: string,
                           laterId: Option<string>, laterUuid: string)
    ensures var once := WithMachineId(env, machineId, freshUuid);
      WithMachineId(once, laterId, laterUuid) == once
  {
  }

  /** The two helpers touch different variables, so their order does not matter. */
  lemma EnvHelpersCommute(env: map<string, string>, machineId: Option<string>, freshUuid: string)
    ensures WithLaunchArgs(WithMachineId(env, machineId, freshUuid))
         == WithMachineId(WithLaunchArgs(env), machineId, freshUuid)
  {
    assert Lookup(WithMachineId(env, machineId, freshUuid), LaunchArgsKey) == Lookup(env, LaunchArgsKey);
    assert Lookup(WithLaunchArgs(env), MachineIdKey) == Lookup(env, MachineIdKey);
  }

  // ---------------------------------------------------------------------------
  // run

  /** A discovered spec file. */
  datatype Spec = Spec(absolute: string, relative: string)

  /** `autoCancelAfterFailures` when it is given: a number of failures, or
      `false`. */
  datatype AutoCancel = Threshold(failures: int) | Disabled

  /** The validated run parameters that `run` reads. `autoCancelAfterFailures`
      is `None` when unset. */
  datatype ValidatedParams = ValidatedParams(
    cloudServiceUrl: string,
    recordKey: string,
    projectId: string,
    group: Option<string>,
    parallel: Option<bool>,
    ciBuildId: Option<string>,
    tag: seq<string>,
    testingType: Config.TestingType,
    batchSize: int,
    autoCancelAfterFailures: Option<AutoCancel>)

  /** The request `run` sends to `createRun`. */
  datatype CreateRunRequest = CreateRunRequest(
    ci: string,
    specs: seq<string>,
    commit: string,
    group: Option<string>,
    platform: string,
    parallel: bool,
    ciBuildId: Option<string>,
    projectId: string,
    recordKey: string,
    specPattern: seq<string>,
    tags: seq<string>,
    testingType: Config.TestingType,
    batchSize: int,
    autoCancelAfterFailures: Option<AutoCancel>)

  /** What `createRun` resolves to. */
  datatype CreatedRun = CreatedRun(runId: string, groupId: string, machineId: Option<string>, runUrl: string)

  /** What `summarizeTestResults` returns. */
  datatype Summary = Summary(status: string, totalTests: int, totalPassed: int, totalFailed: int,
                             totalPending: int, totalSkipped: int)

  /** What the collaborators of `run` return, in the order `run` asks them. */
  datatype Externals = Externals(
    offline: bool,                               // isOffline(preprocessParams(params))
    bareResult: string,                          // what runBareCypress resolves to
    validated: Result<ValidatedParams, string>,  // validateParams returns or throws
    specs: seq<Spec>,                            // getSpecFiles
    specPattern: Config.Pattern,
    platform: string,                            // getPlatform
    ci: string,                                  // getCI
    commit: string,                              // getGitInfo
    created: Result<CreatedRun, string>,         // createRun resolves or rejects
    freshUuid: string,                           // crypto.randomUUID
    summary: Summary)                            // summarizeTestResults

  /** What the promise returned by `run` settles to. */
  datatype RunOutcome =
    | BareRun(result: string)                            // the bare runner's result
    | NoSpecs                                            // undefined
    | Recorded(summary: Summary, runUrl: Option<string>) // the summary, with runUrl when finished
    | Rejected(error: string)                            // the error that was thrown

  /** The modelled calls `run` makes. Logging is left out, and
      `preprocessParams` and `isOffline` are folded into `Externals.offline`
      and `Externals.validated`. */
  datatype Step =
    | RunBareCypress | ValidateParams | SetApiBaseUrl | SetCustomEnvs | GetMergedConfig
    | GetSpecFiles | GetPlatform | GetCI | GetGitInfo | CreateRun | SetRunId | SetMachineId
    | CutInitialOutput | RunTillDoneOrCancelled | AwaitUploads | SummarizeTestResults

  /** The calls before the zero-spec check. */
  const SetupSteps: seq<Step> := [ValidateParams, SetApiBaseUrl, SetCustomEnvs, GetMergedConfig, GetSpecFiles]

  /** The calls that open the run with the orchestration service. */
  const RegistrationSteps: seq<Step> := [GetPlatform, GetCI, GetGitInfo, CreateRun]

  /** The calls once the run exists. */
  const ExecutionSteps: seq<Step> :=
    [SetRunId, SetMachineId, CutInitialOutput, RunTillDoneOrCancelled, AwaitUploads, SummarizeTestResults]

  /** The order of the recorded path through `run`; the calls of every
      path that is not offline are an initial part of it. */
  const RecordedOrder: seq<Step> := SetupSteps + RegistrationSteps + ExecutionSteps

  /** Which calls each early exit of `run` has made. */
  lemma PhaseFacts()
    ensures [ValidateParams] <= SetupSteps <= SetupSteps + RegistrationSteps <= RecordedOrder
    ensures ValidateParams in [ValidateParams] && ValidateParams in SetupSteps
    ensures CreateRun !in [ValidateParams] && CreateRun !in SetupSteps
    ensures CreateRun in SetupSteps + RegistrationSteps && CreateRun in RecordedOrder
    ensures SetMachineId !in [ValidateParams] && SetMachineId !in SetupSteps
    ensures SetMachineId !in SetupSteps + RegistrationSteps && SetMachineId in RecordedOrder
  {
    assert SetupSteps + RegistrationSteps == [ValidateParams, SetApiBaseUrl, SetCustomEnvs, GetMergedConfig, GetSpecFiles,
      GetPlatform, GetCI, GetGitInfo, CreateRun];
  }

  /** A JavaScript value as far as `Array.prototype.flat` looks at it. */
  datatype JsValue = JsString(s: string) | JsArray(items: seq<JsValue>)

  /** `FlattenIntoArray` of the ECMAScript language specification, for a
      finite depth: while depth remains, an element that is an array is
      spread into the result, itself flattened one level less; every other
      element is kept as it is. */
  function Flat(xs: seq<JsValue>, depth: nat): seq<JsValue>
    decreases depth, |xs|
  {
    if xs == [] then []
    else
      var first := if depth > 0 && xs[0].JsArray? then Flat(xs[0].items, depth - 1) else [xs[0]];
      first + Flat(xs[1..], depth)
  }

  /** A list of strings as a JavaScript array. */
  function Strings(ss: seq<string>): (r: seq<JsValue>)
    ensures |r| == |ss|
    ensures forall i :: 0 <= i < |ss| ==> r[i] == JsString(ss[i])
  {
    if ss == [] then [] else [JsString(ss[0])] + Strings(ss[1..])
  }

  /** A spec pattern as the JavaScript value it is. */
  function PatternValue(p: Config.Pattern): JsValue {
    match p
    case Glob(g) => JsString(g)
    case Globs(gs) => JsArray(Strings(gs))
  }

  /** A flat array of strings is left as it is by `flat`, at any depth. */
  lemma {:induction false} FlatStrings(ss: seq<string>, depth: nat)
    ensures Flat(Strings(ss), depth) == Strings(ss)
  {
    if ss != [] {
      assert Strings(ss)[1..] == Strings(ss[1..]);
      FlatStrings(ss[1..], depth);
    }
  }

  /** `[specPattern].flat(2)`, as the list of globs it yields. */
  function FlatPatterns(p: Config.Pattern): (r: seq<string>)
    ensures p.Glob? ==> r == [p.glob]
    ensures p.Globs? ==> r == p.globs
  {
    match p
    case Glob(g) => [g]
    case Globs(gs) => gs
  }

  /** `FlatPatterns` is what `flat(2)` makes of the one-element array holding
      the pattern: a single glob becomes a one-element list, a list of globs
      is spread into the result unchanged. */
  lemma FlatPatternsIsFlat(p: Config.Pattern)
    ensures Flat([PatternValue(p)], 2) == Strings(FlatPatterns(p))
  {
    match p
    case Glob(g) =>
      assert Strings([g]) == [JsString(g)];
    case Globs(gs) =>
      FlatStrings(gs, 1);
      assert Flat([PatternValue(p)], 2) == Flat(Strings(gs), 1) + Flat([], 2);
  }

  /** `specs.map((spec) => spec.relative)`. */
  function RelativePaths(specs: seq<Spec>): (r: seq<string>)
    ensures |r| == |specs|
    ensures forall i :: 0 <= i < |specs| ==> r[i] == specs[i].relative
  {
    if specs == [] then [] else [specs[0].relative] + RelativePaths(specs[1..])
  }

  /** The request built for `createRun`. */
  function Request(p: ValidatedParams, ext: Externals): (r: CreateRunRequest)
    ensures |r.specs| == |ext.specs| && forall i :: 0 <= i < |ext.specs| ==> r.specs[i] == ext.specs[i].relative
    ensures r.parallel <==> p.parallel == Some(true)
    ensures Strings(r.specPattern) == Flat([PatternValue(ext.specPattern)], 2)
    ensures r.ci == ext.ci && r.commit == ext.commit && r.platform == ext.platform
    ensures r.group == p.group && r.ciBuildId == p.ciBuildId && r.projectId == p.projectId
      && r.recordKey == p.recordKey && r.tags == p.tag && r.testingType == p.testingType
      && r.batchSize == p.batchSize && r.autoCancelAfterFailures == p.autoCancelAfterFailures
  {
    FlatPatternsIsFlat(ext.specPattern);
    CreateRunRequest(
      ci := ext.ci,
      specs := RelativePaths(ext.specs),
      commit := ext.commit,
      group := p.group,
      platform := ext.platform,
      parallel := p.parallel.OrElse(false),
      ciBuildId := p.ciBuildId,
      projectId := p.projectId,
      recordKey := p.recordKey,
      specPattern := FlatPatterns(ext.specPattern),
      tags := p.tag,
      testingType := p.testingType,
      batchSize := p.batchSize,
      autoCancelAfterFailures := p.autoCancelAfterFailures)
  }

  /** Everything one call of `run` does. */
  datatype RunEffect = RunEffect(
    steps: seq<Step>,
    env: map<string, string>,
    apiBaseUrl: Option<string>,
    runId: Option<string>,
    requests: seq<CreateRunRequest>,
    outcome: RunOutcome)

  /** The specification of `run`: what it does, starting from environment
      `env`, HTTP client state `apiBaseUrl` and `runId`, when its
      collaborators answer as `ext` says. `RunCalls`, `RunState` and
      `RunOrdering` state what it means. */
  function RunSpec(env: map<string, string>, apiBaseUrl: Option<string>, runId: Option<string>, ext: Externals): RunEffect
  {
    if ext.offline then
      RunEffect([RunBareCypress], env, apiBaseUrl, runId, [], BareRun(ext.bareResult))
    else
      match ext.validated
      case Failure(e) =>
        RunEffect([ValidateParams], env, apiBaseUrl, runId, [], Rejected(e))
      case Success(p) =>
        var env1 := WithLaunchArgs(env);
        var url := Some(p.cloudServiceUrl);
        if |ext.specs| == 0 then
          RunEffect(SetupSteps, env1, url, runId, [], NoSpecs)
        else
          var request := Request(p, ext);
          match ext.created
          case Failure(e) =>
            RunEffect(SetupSteps + RegistrationSteps, env1, url, runId, [request], Rejected(e))
          case Success(run) =>
            var summary := ext.summary;
            RunEffect(RecordedOrder, WithMachineId(env1, run.machineId, ext.freshUuid), url, Some(run.runId), [request],
                      Recorded(summary, if summary.status == "finished" then Some(run.runUrl) else None))
  }

  /** The calls `run` makes, the requests it sends and how its promise settles. */
  lemma RunCalls(env: map<string, string>, apiBaseUrl: Option<string>, runId: Option<string>, ext: Externals)
    ensures var r := RunSpec(env, apiBaseUrl, runId, ext);
      // offline: straight to the bare runner, nothing validated or created
      && (ext.offline ==> r.steps == [RunBareCypress] && r.requests == [] && r.outcome == BareRun(ext.bareResult))
      // otherwise the calls are an initial part of one fixed order, and the bare runner is not used
      && (!ext.offline ==> r.steps <= RecordedOrder && ValidateParams in r.steps && !r.outcome.BareRun?)
      // validation fails: nothing else is called and the error is thrown
      && (!ext.offline && ext.validated.Failure? ==>
            r.steps == [ValidateParams] && r.outcome == Rejected(ext.validated.error))
      // zero specs: setup only, and nothing is returned
      && (!ext.offline && ext.validated.Success? && |ext.specs| == 0 ==> r.steps == SetupSteps && r.outcome == NoSpecs)
      // createRun rejects: its error is thrown
      && (!ext.offline && ext.validated.Success? && |ext.specs| > 0 && ext.created.Failure? ==>
            r.steps == SetupSteps + RegistrationSteps && r.outcome == Rejected(ext.created.error))
      // a created run goes all the way: run id, machine id, claim loop, uploads, summary
      && (!ext.offline && ext.validated.Success? && |ext.specs| > 0 && ext.created.Success? ==>
            r.steps == RecordedOrder && r.outcome.Recorded?)
      // a run is created exactly when validation passed and specs were found, and then once
      && (CreateRun in r.steps <==> !ext.offline && ext.validated.Success? && |ext.specs| > 0)
      && |r.requests| == (if CreateRun in r.steps then 1 else 0)
      && (r.requests != [] ==> r.requests[0] == Request(ext.validated.value, ext))
      // zero specs is the only way to settle to undefined
      && (r.outcome == NoSpecs <==> !ext.offline && ext.validated.Success? && ext.specs == [])
      // the run URL is attached exactly to a finished summary
      && (r.outcome.Recorded? ==>
            && ext.created.Success?
            && r.outcome.summary == ext.summary
            && (r.outcome.runUrl.Some? <==> ext.summary.status == "finished")
            && (r.outcome.runUrl.Some? ==> r.outcome.runUrl.value == ext.created.value.runUrl))
      // failures of validation and of run creation, and only those, reject the promise
      && (r.outcome.Rejected? <==>
            !ext.offline && (ext.validated.Failure? || (|ext.specs| > 0 && ext.created.Failure?)))
  {
    PhaseFacts();
  }

  /** The environment and the HTTP client state `run` leaves behind. */
  lemma RunState(env: map<string, string>, apiBaseUrl: Option<string>, runId: Option<string>, ext: Externals)
    ensures var r := RunSpec(env, apiBaseUrl, runId, ext);
      // offline or unvalidated: nothing changes
      && (ext.offline || ext.validated.Failure? ==> r.env == env && r.apiBaseUrl == apiBaseUrl && r.runId == runId)
      // validated: the client gets the service URL and the launch arguments are set up
      && (!ext.offline && ext.validated.Success? ==>
            && r.apiBaseUrl == Some(ext.validated.value.cloudServiceUrl)
            && LaunchArgsKey in r.env && Includes(r.env[LaunchArgsKey], DebugPortFlag))
      // no run created: launch arguments only, run id untouched
      && (!ext.offline && ext.validated.Success? && (|ext.specs| == 0 || ext.created.Failure?) ==>
            r.env == WithLaunchArgs(env) && r.runId == runId)
      // a run created: its id is set and the machine id slot is filled
      && (!ext.offline && ext.validated.Success? && |ext.specs| > 0 && ext.created.Success? ==>
            && r.runId == Some(ext.created.value.runId)
            && r.env == WithMachineId(WithLaunchArgs(env), ext.created.value.machineId, ext.freshUuid))
      // the machine id is set exactly when it already was or a run was created
      && ((MachineIdKey in r.env) <==> (MachineIdKey in env || SetMachineId in r.steps))
  {
    PhaseFacts();
  }

  /** `a` is called before `b`. */
  predicate Before(steps: seq<Step>, a: Step, b: Step) {
    exists i, j :: 0 <= i < j < |steps| && steps[i] == a && steps[j] == b
  }

  /** The position of a call in `RecordedOrder`; the bare runner, which is
      not on the recorded path, comes last. */
  function Rank(s: Step): nat {
    match s
    case ValidateParams => 0
    case SetApiBaseUrl => 1
    case SetCustomEnvs => 2
    case GetMergedConfig => 3
    case GetSpecFiles => 4
    case GetPlatform => 5
    case GetCI => 6
    case GetGitInfo => 7
    case CreateRun => 8
    case SetRunId => 9
    case SetMachineId => 10
    case CutInitialOutput => 11
    case RunTillDoneOrCancelled => 12
    case AwaitUploads => 13
    case SummarizeTestResults => 14
    case RunBareCypress => 15
  }

  /** `Rank` and `RecordedOrder` agree: each recorded call sits at its rank. */
  lemma RankIsPosition()
    ensures |RecordedOrder| == 15
    ensures forall i :: 0 <= i < |RecordedOrder| ==> Rank(RecordedOrder[i]) == i
    ensures forall s :: Rank(s) < 15 ==> RecordedOrder[Rank(s)] == s
  {
    assert RecordedOrder ==
      [ValidateParams, SetApiBaseUrl, SetCustomEnvs, GetMergedConfig, GetSpecFiles,
       GetPlatform, GetCI, GetGitInfo, CreateRun,
       SetRunId, SetMachineId, CutInitialOutput, RunTillDoneOrCancelled, AwaitUploads, SummarizeTestResults];
  }

  /** Any initial part of `RecordedOrder` keeps its order: a call in it is
      preceded by every call ranked before it. */
  lemma PrefixKeepsOrder(steps: seq<Step>, a: Step, b: Step)
    requires steps <= RecordedOrder
    requires Rank(a) < Rank(b)
    requires b in steps
    ensures Before(steps, a, b)
  {
    RankIsPosition();
    var k :| 0 <= k < |steps| && steps[k] == b;
    assert RecordedOrder[k] == b;
    assert steps[Rank(a)] == a;
  }

  /** The orderings that every initial part of `RecordedOrder` keeps. */
  predicate OrderedCalls(steps: seq<Step>) {
    && (SetCustomEnvs in steps ==> Before(steps, ValidateParams, SetCustomEnvs))
    && (CreateRun in steps ==> Before(steps, SetCustomEnvs, CreateRun) && Before(steps, GetSpecFiles, CreateRun))
    && (SetMachineId in steps ==> Before(steps, CreateRun, SetMachineId))
    && (RunTillDoneOrCancelled in steps ==> Before(steps, SetMachineId, RunTillDoneOrCancelled))
    && (SummarizeTestResults in steps ==> Before(steps, AwaitUploads, SummarizeTestResults))
  }

  lemma RecordedPrefixOrdered(steps: seq<Step>)
    requires steps <= RecordedOrder
    ensures OrderedCalls(steps)
  {
    if SetCustomEnvs in steps { PrefixKeepsOrder(steps, ValidateParams, SetCustomEnvs); }
    if CreateRun in steps {
      PrefixKeepsOrder(steps, SetCustomEnvs, CreateRun);
      PrefixKeepsOrder(steps, GetSpecFiles, CreateRun);
    }
    if SetMachineId in steps { PrefixKeepsOrder(steps, CreateRun, SetMachineId); }
    if RunTillDoneOrCancelled in steps { PrefixKeepsOrder(steps, SetMachineId, RunTillDoneOrCancelled); }
    if SummarizeTestResults in steps { PrefixKeepsOrder(steps, AwaitUploads, SummarizeTestResults); }
  }

  /** The order of the side effects of `run`: the launch arguments are set
      after validation and before the run is created, which happens only
      after spec discovery; the machine id is set only once the run exists
      and before the claim loop starts; uploads are awaited before the
      summary is computed. */
  lemma RunOrdering(env: map<string, string>, apiBaseUrl: Option<string>, runId: Option<string>, ext: Externals)
    ensures OrderedCalls(RunSpec(env, apiBaseUrl, runId, ext).steps)
  {
    var steps := RunSpec(env, apiBaseUrl, runId, ext).steps;
    RunCalls(env, apiBaseUrl, runId, ext);
    if !ext.offline {
      RecordedPrefixOrdered(steps);
    }
  }

  /** The setup calls, logged one by one. */
  lemma SetupLog(log: seq<Step>)
    ensures log + [ValidateParams] + [SetApiBaseUrl] + [SetCustomEnvs] + [GetMergedConfig, GetSpecFiles]
         == log + SetupSteps
  {
  }

  /** The whole recorded path, logged phase by phase. */
  lemma ExecutionLog(log: seq<Step>)
    ensures log + SetupSteps + [GetPlatform, GetCI, GetGitInfo, CreateRun] + [SetRunId] + [SetMachineId]
              + [CutInitialOutput, RunTillDoneOrCancelled, AwaitUploads, SummarizeTestResults]
         == log + RecordedOrder
  {
  }

  /** The process running the runner. */
  class Process {
    var env: map<string, string>
    var apiBaseUrl: Option<string>
    var runId: Option<string>
    var steps: seq<Step>
    var requests: seq<CreateRunRequest>

    constructor (env0: map<string, string>)
      ensures env == env0 && apiBaseUrl == None && runId == None
      ensures steps == [] && requests == []
    {
      env := env0;
      apiBaseUrl := None;
      runId := None;
      steps := [];
      requests := [];
    }

    /** `setDSMachineId(machineId)`, with `crypto.randomUUID()` giving `freshUuid`. */
    method SetDSMachineId(machineId: Option<string>, freshUuid: string)
      modifies this`env
      ensures env == WithMachineId(old(env), machineId, freshUuid)
    {
      var existing := Lookup(env, MachineIdKey);
      env := env[MachineIdKey := MachineIdValue(existing, machineId, freshUuid)];
    }

    /** `setDSCustomEnvs()`. */
    method SetDSCustomEnvs()
      modifies this`env
      ensures env == WithLaunchArgs(old(env))
    {
      if LaunchArgsKey !in env || env[LaunchArgsKey] == "" {
        env := env[LaunchArgsKey := DebugPortArg];
      } else if !Includes(env[LaunchArgsKey], DebugPortFlag) {
        env := env[LaunchArgsKey := env[LaunchArgsKey] + " " + DebugPortArg];
      }
    }

    /** `run(params)`, its collaborators answering as `ext` says. */
    method Run(ext: Externals) returns (outcome: RunOutcome)
      modifies this
      ensures var e := RunSpec(old(env), old(apiBaseUrl), old(runId), ext);
        && steps == old(steps) + e.steps
        && requests == old(requests) + e.requests
        && env == e.env && apiBaseUrl == e.apiBaseUrl && runId == e.runId
        && outcome == e.outcome
    {
      ghost var steps0 := steps;
      if ext.offline {
        steps := steps + [RunBareCypress];
        return BareRun(ext.bareResult);
      }
      steps := steps + [ValidateParams];
      if ext.validated.Failure? {
        return Rejected(ext.validated.error);
      }
      var params := ext.validated.value;
      steps := steps + [SetApiBaseUrl];
      apiBaseUrl := Some(params.cloudServiceUrl);
      steps := steps + [SetCustomEnvs];
      SetDSCustomEnvs();
      steps := steps + [GetMergedConfig, GetSpecFiles];
      SetupLog(steps0);
      if |ext.specs| == 0 {
        return NoSpecs;
      }
      steps := steps + [GetPlatform, GetCI, GetGitInfo, CreateRun];
      requests := requests + [Request(params, ext)];
      if ext.created.Failure? {
        return Rejected(ext.created.error);
      }
      var run := ext.created.value;
      steps := steps + [SetRunId];
      runId := Some(run.runId);
      steps := steps + [SetMachineId];
      SetDSMachineId(run.machineId, ext.freshUuid);
      steps := steps + [CutInitialOutput, RunTillDoneOrCancelled, AwaitUploads, SummarizeTestResults];
      ExecutionLog(steps0);
      var summary := ext.summary;
      if summary.status == "finished" {
        return Recorded(summary, Some(run.runUrl));
      }
      return Recorded(summary, None);
    }
  }
}
