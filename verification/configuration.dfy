/**
 * The plugin configuration: the `custom.serverless-oneagent` block of
 * serverless.yml and the command-line options, folded into one record.
 */
module Configuration {
  import opened Wrappers

  /** The `custom.serverless-oneagent` block of serverless.yml; every field may be absent. */
  datatype YamlConfig = YamlConfig(
    npmModuleVersion: Option<string>,
    options: Option<string>,
    debug: Option<bool>,
    verbose: Option<bool>)

  /** A missing block reads as a block with no fields. */
  const EmptyYaml := YamlConfig(None, None, None, None)

  /** The command-line options the plugin reads. */
  datatype CommandLine = CommandLine(
    v: Option<bool>,               // -v
    verbose: Option<bool>,         // --verbose
    agentOptions: Option<string>,  // --dt-oneagent-options
    debug: Option<bool>,           // --dt-debug
    moduleVersion: Option<string>) // --dt-oneagent-module-version

  /** The merged configuration. `npmModuleVersion` keeps JavaScript's `undefined` as `None`. */
  datatype Config = Config(
    debug: bool,
    verbose: bool,
    npmModuleVersion: Option<string>,
    agentOptions: string)

  /** The npm module the plugin injects. */
  const ModuleName := "@dynatrace/oneagent"

  /** JavaScript truthiness of an optional boolean. */
  predicate IsSet(flag: Option<bool>) {
    flag == Some(true)
  }

  /** JavaScript truthiness of an optional string: present and not empty. */
  predicate IsNonEmpty(text: Option<string>) {
    text.Some? && text.value != ""
  }

  /** The YAML block, with a missing block read as the empty one (`_.get(...) || {}`). */
  function YamlOf(yaml: Option<YamlConfig>): YamlConfig {
    yaml.GetOr(EmptyYaml)
  }

  /** `initConfig`: each field folded with JavaScript's `||`. */
  function InitConfig(yaml: Option<YamlConfig>, cli: CommandLine): (c: Config)
    ensures c.verbose <==> IsSet(YamlOf(yaml).verbose) || IsSet(cli.verbose) || IsSet(cli.v)
    ensures c.debug <==> IsSet(YamlOf(yaml).debug) || IsSet(cli.debug)
    ensures IsNonEmpty(cli.agentOptions) ==> c.agentOptions == cli.agentOptions.value
    ensures !IsNonEmpty(cli.agentOptions) && IsNonEmpty(YamlOf(yaml).options) ==>
              c.agentOptions == YamlOf(yaml).options.value
    ensures !IsNonEmpty(cli.agentOptions) && !IsNonEmpty(YamlOf(yaml).options) ==> c.agentOptions == ""
    ensures IsNonEmpty(cli.moduleVersion) ==> c.npmModuleVersion == cli.moduleVersion
    ensures !IsNonEmpty(cli.moduleVersion) ==> c.npmModuleVersion == YamlOf(yaml).npmModuleVersion
  {
    var y := YamlOf(yaml);
    Config(
      debug := IsSet(y.debug) || IsSet(cli.debug),
      verbose := IsSet(y.verbose) || IsSet(cli.verbose) || IsSet(cli.v),
      npmModuleVersion := if IsNonEmpty(cli.moduleVersion) then cli.moduleVersion else y.npmModuleVersion,
      agentOptions :=
        if IsNonEmpty(cli.agentOptions) then cli.agentOptions.value
        else if IsNonEmpty(y.options) then y.options.value
        else "")
  }

  /** A command-line value that is set decides its field whatever the YAML block says. */
  lemma CommandLineOverridesYaml(y1: Option<YamlConfig>, y2: Option<YamlConfig>, cli: CommandLine)
    ensures IsNonEmpty(cli.agentOptions) ==> InitConfig(y1, cli).agentOptions == InitConfig(y2, cli).agentOptions
    ensures IsNonEmpty(cli.moduleVersion) ==> InitConfig(y1, cli).npmModuleVersion == InitConfig(y2, cli).npmModuleVersion
    ensures IsSet(cli.debug) ==> InitConfig(y1, cli).debug && InitConfig(y2, cli).debug
    ensures IsSet(cli.verbose) || IsSet(cli.v) ==> InitConfig(y1, cli).verbose && InitConfig(y2, cli).verbose
  {
  }

  /** With nothing given anywhere, every field takes its default. */
  lemma Defaults()
    ensures InitConfig(None, CommandLine(None, None, None, None, None)) == Config(false, false, None, "")
  {
  }

  /**
   * `qualifiedNpmModuleName`: the module name, suffixed with `@version` when
   * a non-empty version is configured.
   */
  function QualifiedModuleName(version: Option<string>): (spec: string)
    ensures |spec| >= |ModuleName| && spec[..|ModuleName|] == ModuleName
    ensures IsNonEmpty(version) <==> spec != ModuleName
    ensures IsNonEmpty(version) ==> spec[|ModuleName|..] == "@" + version.value
  {
    ModuleName + if !IsNonEmpty(version) then "" else "@" + version.value
  }

  /** How npm reads a specifier back: the version tag after the module name, if any. */
  function VersionTag(spec: string): Option<string> {
    if |spec| > |ModuleName| + 1 && spec[..|ModuleName| + 1] == ModuleName + "@" then
      Some(spec[|ModuleName| + 1..])
    else
      None
  }

  /** The version tag npm sees is exactly the configured one when it is non-empty, and none otherwise. */
  lemma QualifiedNameRoundTrip(version: Option<string>)
    ensures VersionTag(QualifiedModuleName(version)) == if IsNonEmpty(version) then version else None
  {
    var spec := QualifiedModuleName(version);
    if IsNonEmpty(version) {
      assert spec == ModuleName + "@" + version.value;
      assert spec[..|ModuleName| + 1] == ModuleName + "@";
      assert spec[|ModuleName| + 1..] == version.value;
    }
  }
}
