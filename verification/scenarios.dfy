/** End-to-end runs of the plugin on concrete configurations. */
module Scenarios {
  import opened Wrappers
  import opened Configuration
  import opened Modes
  import opened Handlers
  import opened RuntimeFlag
  import opened Environment
  import opened Plugin

  const NoOptions := CommandLine(None, None, None, None, None)

  /** A service with one function `hello` whose handler is `index.hello`. */
  function SampleService(plugins: seq<string>, yaml: Option<YamlConfig>): Service {
    Service(plugins, yaml, Some("nodejs8.10"), map[], map["hello" := "index.hello"], None)
  }

  /** Agent options without debug, plain mode: the options variable is set and `DEBUG` is not. */
  lemma PlainPreStageSetsOptionsOnly(w: World, o: Oracle)
    requires w.config.agentOptions == "{\"server\":\"x\"}" && !w.config.debug
    requires DebugVariable !in w.service.environment
    requires w.service.runtime == Some("nodejs8.10")
    requires o.npmLoad == NpmOk && o.install == NpmOk && o.localTailoring == Closed(0, None)
    ensures var r := PreProcessPlain(w, o);
            && r.outcome == Resolved
            && OptionsVariable in r.world.service.environment
            && r.world.service.environment[OptionsVariable] == "{\"server\":\"x\"}"
            && DebugVariable !in r.world.service.environment
  {
  }

  /** Webpack mode without a force-include list: the constructor creates `["@dynatrace/oneagent"]`. */
  lemma WebpackCreatesForceInclude()
    ensures Construct(SampleService(["serverless-webpack"], None), NoOptions).service.forceInclude
            == Some(["@dynatrace/oneagent"])
  {
  }

  /** The same with `npmModuleVersion: next` in the YAML block, as in the webpack sample. */
  lemma WebpackCreatesVersionedForceInclude()
    ensures Construct(SampleService(["serverless-webpack"], Some(YamlConfig(Some("next"), None, None, None))),
                      NoOptions).service.forceInclude
            == Some(["@dynatrace/oneagent@next"])
  {
    var service := SampleService(["serverless-webpack"], Some(YamlConfig(Some("next"), None, None, None)));
    assert WebpackPlugin in service.plugins;
    var w := Construct(service, NoOptions);
    assert w.config.npmModuleVersion == Some("next");
    assert Spec(w) == ModuleName + "@" + "next" == "@dynatrace/oneagent@next";
  }

  /** No serverless-webpack instance found: no warning, and the handlers are still rewritten. */
  lemma WebpackInstanceMissing(w: World)
    ensures var r := PostProcessWebpack(w, InstanceMissing);
            && r.trace == w.trace
            && r.service.functions == RewriteFunctions(w.service.functions)
  {
  }

  /** serverless-webpack cannot be loaded: the warning is logged last, and the handlers are still rewritten. */
  lemma WebpackUnloadableWarns(w: World)
    ensures var r := PostProcessWebpack(w, WebpackUnloadable);
            && r.trace == w.trace + [Logged(CannotTailor)]
            && r.service.functions == RewriteFunctions(w.service.functions)
  {
  }

  /** A failed install ends the plain pre-stage: nothing is tailored and the environment is untouched. */
  lemma PlainInstallFailureAborts(w: World, o: Oracle)
    requires o.npmLoad == NpmOk && o.install == NpmError("E404")
    ensures var r := PreProcessPlain(w, o);
            && r.outcome == Rejected(NpmFailed("E404"))
            && r.world.service == w.service
            && !Spawns(Added(w, r.world))
  {
  }

  /** A tailoring failure is not caught: the plain pre-stage rejects and skips the environment. */
  lemma PlainTailoringFailureAborts(w: World, o: Oracle)
    requires o.npmLoad == NpmOk && o.install == NpmOk
    requires w.service.runtime == Some("python3.8")
    ensures var r := PreProcessPlain(w, o);
            && r.outcome == Rejected(UnsupportedRuntime("unsupported Lambda runtime 'python3.8'"))
            && r.world.service == w.service
  {
    var rt := "python3.8";
    forall i: nat ensures !LiteralAt(rt, i) {
      if i + |Literal| <= |rt| {
        assert rt[i..i + |Literal|][0] == rt[i] != 'n';
      }
    }
    NonNodeRuntimeUnsupported(rt);
    assert "unsupported Lambda runtime '" + rt + "'" == "unsupported Lambda runtime 'python3.8'";
    assert Tailor(DefaultModulesPath, w.service.runtime, o.localTailoring).outcome
        == Rejected(UnsupportedRuntime("unsupported Lambda runtime 'python3.8'"));
  }

  /** The runtime `nodejs12.x` yields the flag `--AwsLambdaV1`. */
  lemma NodeTwelveFlag()
    ensures TailorArgs("nodejs12.x") == Some(["--AwsLambdaV1"])
  {
    FlagDropsLastDigitBeforeX("12");
    assert "nodejs12.x" == Literal + "12" + ".x";
    assert "12"[..1] == "1";
    assert FlagPrefix + "1" == "--AwsLambdaV1";
  }
}
