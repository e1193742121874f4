/** Configuration resolution of the cypress-cloud runner
    (packages/cypress-cloud/lib/config.ts).

    Loading is abstracted: `bootCypress` is replaced by the configuration it
    resolved (or `None` when it resolved `undefined`), `process.cwd()` by a
    parameter and `require` of the configuration file by a function from the
    file path to the module's exports or the error it throws. */
module Config {
  import opened Wrappers
  import PosixPath

  /** A spec pattern as Cypress accepts it: one glob or a list of globs. */
  datatype Pattern = Glob(glob: string) | Globs(globs: seq<string>)

  /** JavaScript truthiness of a pattern value: the empty string is falsy,
      every array (even an empty one) is truthy. */
  predicate Truthy(p: Pattern) {
    p.Globs? || p.glob != ""
  }

  /** Truthiness of a value that may be `undefined` or `null`. */
  predicate TruthyOpt(p: Option<Pattern>) {
    p.Some? && Truthy(p.value)
  }

  datatype TestingType = E2E | Component

  /** The run parameters `getConfig` reads. */
  datatype RunParameters = RunParameters(projectId: Option<string>, testingType: Option<TestingType>)

  /** `rawJson.e2e` of the user's Cypress configuration file. */
  datatype RawTestingConfig = RawTestingConfig(specPattern: Option<Pattern>)

  /** `rawJson`: the configuration file as the user wrote it. */
  datatype RawJson = RawJson(e2e: Option<RawTestingConfig>)

  /** One entry of Cypress's `resolved` table; a `null` or `undefined` value is `None`. */
  datatype ResolvedOption = ResolvedOption(value: Option<Pattern>)

  /** The part of Cypress's `resolved` table that is read; a missing entry is `None`. */
  datatype ResolvedOptions = ResolvedOptions(excludeSpecPattern: Option<ResolvedOption>)

  /** The configuration `bootCypress` resolves; a missing `resolved` table is `None`. */
  datatype CypressConfig = CypressConfig(
    projectRoot: string,
    specPattern: Option<Pattern>,
    rawJson: Option<RawJson>,
    resolved: Option<ResolvedOptions>)

  /** The record `getConfig` returns. */
  datatype MergedConfig = MergedConfig(
    projectRoot: string,
    projectId: Option<string>,
    specPattern: Pattern,
    excludeSpecPattern: Pattern,
    additionalIgnorePattern: Pattern,
    resolved: CypressConfig)

  /** The TypeErrors `getConfig` can throw. `ResolvedConfigUndefined`:
      `bootCypress` resolved `undefined`, and the `rawJson` lookup dereferences
      the configuration without a guard. `ExcludeSpecPatternUndefined`: the
      configuration has no `resolved` table or no `excludeSpecPattern` entry
      in it, and the lookup of its `value` has no guard either. */
  datatype ConfigError = ResolvedConfigUndefined | ExcludeSpecPatternUndefined

  const DefaultSpecPattern: Pattern := Glob("**/*.*")
  const NoPatterns: Pattern := Globs([])
  const ConfigFileName: string := "currents.config.js"

  /** `config.rawJson?.e2e?.specPattern`: defined only when every link of the chain is. */
  function RawE2ESpecPattern(c: CypressConfig): (r: Option<Pattern>)
    ensures r.Some? <==> c.rawJson.Some? && c.rawJson.value.e2e.Some? && c.rawJson.value.e2e.value.specPattern.Some?
    ensures r.Some? ==> r == c.rawJson.value.e2e.value.specPattern
  {
    match c.rawJson
    case None => None
    case Some(raw) =>
      match raw.e2e
      case None => None
      case Some(e2e) => e2e.specPattern
  }

  /** `config.resolved.excludeSpecPattern`: `None` when the table or the entry is missing. */
  function ExcludeSpecPatternEntry(c: CypressConfig): Option<ResolvedOption> {
    match c.resolved
    case None => None
    case Some(options) => options.excludeSpecPattern
  }

  /** `getConfig`: the typed configuration with its fallbacks. */
  function GetConfig(params: RunParameters, booted: Option<CypressConfig>, cwd: string): (r: Result<MergedConfig, ConfigError>)
    ensures booted.None? ==> r == Failure(ResolvedConfigUndefined)
    ensures booted.Some? && ExcludeSpecPatternEntry(booted.value).None? ==> r == Failure(ExcludeSpecPatternUndefined)
    ensures r.Success? <==> booted.Some? && ExcludeSpecPatternEntry(booted.value).Some?
    ensures r.Success? ==>
      var c, m := booted.value, r.value;
      && m.resolved == c
      && m.projectId == params.projectId
      && Truthy(m.specPattern)
      && (c.projectRoot != "" ==> m.projectRoot == c.projectRoot)
      && (c.projectRoot == "" ==> m.projectRoot == cwd)
      && (TruthyOpt(c.specPattern) ==> m.specPattern == c.specPattern.value)
      && (!TruthyOpt(c.specPattern) ==> m.specPattern == DefaultSpecPattern)
      && var entry := ExcludeSpecPatternEntry(c).value;
      && (entry.value.Some? ==> m.excludeSpecPattern == entry.value.value)
      && (entry.value.None? ==> m.excludeSpecPattern == NoPatterns)
    ensures r.Success? ==>
      var raw := RawE2ESpecPattern(booted.value);
      && (params.testingType == Some(Component) && TruthyOpt(raw) ==> r.value.additionalIgnorePattern == raw.value)
      && (params.testingType != Some(Component) || !TruthyOpt(raw) ==> r.value.additionalIgnorePattern == NoPatterns)
  {
    match booted
    case None => Failure(ResolvedConfigUndefined)
    case Some(c) =>
      var rawE2EPattern := RawE2ESpecPattern(c);
      var additionalIgnorePattern :=
        if params.testingType == Some(Component) && TruthyOpt(rawE2EPattern) then rawE2EPattern.value else NoPatterns;
      match ExcludeSpecPatternEntry(c)
      case None => Failure(ExcludeSpecPatternUndefined)
      case Some(entry) =>
        Success(MergedConfig(
          projectRoot := if c.projectRoot != "" then c.projectRoot else cwd,
          projectId := params.projectId,
          specPattern := if TruthyOpt(c.specPattern) then c.specPattern.value else DefaultSpecPattern,
          excludeSpecPattern := entry.value.OrElse(NoPatterns),
          additionalIgnorePattern := additionalIgnorePattern,
          resolved := c))
  }

  /** The fallbacks are stable: a Cypress configuration that already carries
      the merged values resolves to the same values again. */
  lemma GetConfigStable(params: RunParameters, c: CypressConfig, cwd: string, cwd': string)
    requires cwd != ""
    requires GetConfig(params, Some(c), cwd).Success?
    ensures
      var m := GetConfig(params, Some(c), cwd).value;
      var c' := c.(projectRoot := m.projectRoot, specPattern := Some(m.specPattern),
                   resolved := Some(ResolvedOptions(Some(ResolvedOption(Some(m.excludeSpecPattern))))));
      GetConfig(params, Some(c'), cwd').Success? &&
      var m' := GetConfig(params, Some(c'), cwd').value;
      m'.projectRoot == m.projectRoot && m'.specPattern == m.specPattern
      && m'.excludeSpecPattern == m.excludeSpecPattern
      && m'.additionalIgnorePattern == m.additionalIgnorePattern
  {
  }

  lemma ConfigFileNameIsPlain()
    ensures PosixPath.IsPlainSegment(ConfigFileName)
  {
  }

  /** `getConfigFilePath(explicitLocation)`. */
  function GetConfigFilePath(explicitLocation: Option<string>, cwd: string): (r: string)
    ensures PosixPath.IsAbsolute(cwd) ==> PosixPath.IsAbsolute(r)
  {
    PosixPath.Resolve([explicitLocation.OrElse(cwd), ConfigFileName], cwd)
  }

  /** The configuration file is `currents.config.js` directly inside the
      explicit location when one is given, inside the working directory
      otherwise, and its path is absolute. */
  lemma ConfigFileUnderLocation(explicitLocation: Option<string>, cwd: string)
    requires PosixPath.IsAbsolute(cwd)
    ensures
      var dir := PosixPath.Resolve([explicitLocation.OrElse(cwd)], cwd);
      && GetConfigFilePath(explicitLocation, cwd) == PosixPath.Under(dir, ConfigFileName)
      && PosixPath.IsAbsolute(dir)
      && PosixPath.IsAbsolute(GetConfigFilePath(explicitLocation, cwd))
  {
    ConfigFileNameIsPlain();
    PosixPath.ResolveUnder(explicitLocation.OrElse(cwd), ConfigFileName, cwd);
  }

  /** An empty explicit location is kept by `??` but skipped by `path.resolve`,
      so it means the working directory, as no location does. */
  lemma ConfigFileEmptyLocation(cwd: string)
    requires PosixPath.IsAbsolute(cwd)
    ensures GetConfigFilePath(Some(""), cwd) == GetConfigFilePath(None, cwd)
  {
    PosixPath.ResolveSkipsEmpty(ConfigFileName, cwd);
  }

  /** An absolute explicit location does not depend on the working directory,
      and gives an absolute path whatever the working directory is. */
  lemma ConfigFileAbsoluteLocation(loc: string, cwd: string, cwd': string)
    requires PosixPath.IsAbsolute(loc)
    ensures GetConfigFilePath(Some(loc), cwd) == GetConfigFilePath(Some(loc), cwd')
    ensures PosixPath.IsAbsolute(GetConfigFilePath(Some(loc), cwd))
  {
    PosixPath.ResolveIgnoresCwd(loc, ConfigFileName, cwd, cwd');
  }

  /** An absolute explicit location already in normal form, other than the
      root, is used verbatim. */
  lemma ConfigFileCanonicalLocation(segs: seq<string>, cwd: string)
    requires segs != []
    requires forall i :: 0 <= i < |segs| ==> PosixPath.IsPlainSegment(segs[i])
    ensures
      var loc := "/" + PosixPath.Join(segs);
      GetConfigFilePath(Some(loc), cwd) == loc + "/" + ConfigFileName
  {
    ConfigFileNameIsPlain();
    PosixPath.ResolveCanonicalUnder(segs, ConfigFileName, cwd);
  }

  /** The `currents.config.js` module's exports that are read. */
  datatype CurrentsConfig = CurrentsConfig(projectId: Option<string>, recordKey: Option<string>)

  /** `{}`. */
  const EmptyCurrentsConfig: CurrentsConfig := CurrentsConfig(None, None)

  /** `getCurrentsConfig`: the exports of the configuration file at the
      default location; `{}` whenever loading it throws. */
  function GetCurrentsConfig(cwd: string, require: string -> Result<CurrentsConfig, string>): (r: CurrentsConfig)
    ensures require(GetConfigFilePath(None, cwd)).Failure? ==> r == EmptyCurrentsConfig
    ensures require(GetConfigFilePath(None, cwd)).Success? ==> r == require(GetConfigFilePath(None, cwd)).value
  {
    match require(GetConfigFilePath(None, cwd))
    case Success(config) => config
    case Failure(_) => EmptyCurrentsConfig
  }
}
