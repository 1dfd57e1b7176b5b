/**
 * `DynatraceOneAgentPlugin`: the state a plugin instance keeps, the four
 * pipeline stages it runs, and the mode-gated hooks the host fires.
 *
 * Everything the plugin delegates to npm, to child processes and to the
 * serverless-webpack plugin is an oracle: the outcome of each such call is an
 * input, and the call itself is recorded as an `Action` in the world's trace.
 */
module Plugin {
  import opened Wrappers
  import opened Configuration
  import opened Modes
  import opened Handlers
  import opened RuntimeFlag
  import opened Environment
  import opened ForceInclude

  /** The parts of the Serverless service the plugin reads or changes. */
  datatype Service = Service(
    plugins: seq<string>,              // service.plugins
    oneagentYaml: Option<YamlConfig>,  // service.custom.serverless-oneagent
    runtime: Option<string>,           // service.provider.runtime
    environment: map<string, string>,  // service.provider.environment
    functions: map<string, string>,    // function name -> handler
    forceInclude: Option<seq<string>>) // service.custom.webpack.includeModules.forceInclude

  /** What the plugin does outside the service record, in order. */
  datatype Action =
    | Logged(message: string)                               // one call of `log`
    | NpmLoad                                               // `Npm.load`
    | NpmInstall(spec: string)                              // `Npm.commands.install([spec])`
    | NpmUninstall(spec: string)                            // `Npm.commands.uninstall([spec])`
    | TailorSpawned(directory: string, args: seq<string>)   // the tailoring executable started

  /** A plugin instance together with the service it works on. */
  datatype World = World(config: Config, mode: Mode, service: Service, trace: seq<Action>)

  /** The reasons a stage's promise rejects. */
  datatype Failure =
    | RuntimeMissing                     // no provider runtime
    | UnsupportedRuntime(message: string)
    | TailorThrew(error: string)         // the executable could not be accessed or spawned
    | TailorExited(signal: Option<string>)
    | NpmFailed(error: string)

  datatype Outcome = Resolved | Rejected(failure: Failure)

  datatype Step = Step(world: World, outcome: Outcome)

  /** Oracle: the callback error of an npm call. */
  datatype NpmResult = NpmOk | NpmError(error: string)

  /** Oracle: how a tailoring run ends once the runtime is supported. */
  datatype ProcessResult = NotAccessible(error: string) | Closed(exitCode: int, signal: Option<string>)

  /** Oracle: one serverless-webpack compilation result and how tailoring in its output goes. */
  datatype CompileEntry = CompileEntry(outputPath: Option<string>, tailoring: ProcessResult)

  /** Oracle: what the search for the serverless-webpack plugin instance finds. */
  datatype WebpackProbe =
    | PluginsNotArray                           // pluginManager.plugins is not an array
    | WebpackUnloadable                         // require("serverless-webpack") throws
    | InstanceMissing                           // no plugin is a serverless-webpack instance
    | InstanceFound(stats: Option<seq<CompileEntry>>) // None: compileStats.stats absent or not an array

  /** Every oracle outcome one hook firing may consult. */
  datatype Oracle = Oracle(
    npmLoad: NpmResult,
    install: NpmResult,
    uninstall: NpmResult,
    localTailoring: ProcessResult,
    webpack: WebpackProbe)

  /** The warning logged when tailoring could not be done; the source joins two literals without a space ("OneAgentnpm"). */
  const CannotTailor := "could not determine "
                        + "serverless-webpack intermediate files to tailor OneAgentnpm module(things will work, "
                        + "but zip package will contain files not need for selected Node.js runtime version"

  /** Where the plain pipeline tailors: the service directory. */
  const DefaultModulesPath := "./"

  const TailoringIn := "tailoring OneAgent module in "
  const TailoringFailed := "tailoring OneAgent module failed: "

  /** The actions a stage added to the trace. */
  function Added(before: World, after: World): seq<Action>
    requires before.trace <= after.trace
  {
    after.trace[|before.trace|..]
  }

  function Append(w: World, actions: seq<Action>): (r: World)
    ensures r.trace == w.trace + actions && r.service == w.service
    ensures r.config == w.config && r.mode == w.mode
  {
    w.(trace := w.trace + actions)
  }

  predicate Spawns(actions: seq<Action>) {
    exists i :: 0 <= i < |actions| && actions[i].TailorSpawned?
  }

  /** The module specifier npm and serverless-webpack are given. */
  function Spec(w: World): string {
    QualifiedModuleName(w.config.npmModuleVersion)
  }

  // ---------------------------------------------------------------------------
  // Tailoring

  /** The actions and outcome of one `tailorOneAgentModule(directory)`. */
  datatype Tailoring = Tailoring(actions: seq<Action>, outcome: Outcome)

  /**
   * `tailorOneAgentModule`: the runtime is checked before anything is
   * spawned; a missing runtime logs the cannot-tailor warning and rejects,
   * an unsupported one rejects with its message.
   */
  function Tailor(directory: string, runtime: Option<string>, process: ProcessResult): (t: Tailoring)
    ensures |t.actions| >= 1 && t.actions[0] == Logged(TailoringIn + directory)
    ensures Spawns(t.actions) <==> runtime.Some? && TailorArgs(runtime.value).Some? && process.Closed?
    ensures t.outcome.Resolved? <==>
              runtime.Some? && TailorArgs(runtime.value).Some? && process.Closed? && process.exitCode == 0
    ensures runtime.None? ==> t.outcome == Rejected(RuntimeMissing)
    ensures runtime.Some? && TailorArgs(runtime.value).None? ==>
              t.outcome == Rejected(UnsupportedRuntime("unsupported Lambda runtime '" + runtime.value + "'"))
    ensures forall i :: 0 <= i < |t.actions| && t.actions[i].TailorSpawned? ==>
              runtime.Some? && TailorArgs(runtime.value) == Some(t.actions[i].args) && t.actions[i].directory == directory
    ensures Logged(CannotTailor) in t.actions <==> runtime.None?
  {
    var announce := Logged(TailoringIn + directory);
    assert (TailoringIn + directory)[0] == 't';
    assert CannotTailor[0] == "could not determine "[0] == 'c';
    match runtime
    case None => Tailoring([announce, Logged(CannotTailor)], Rejected(RuntimeMissing))
    case Some(rt) =>
      match TailorArgs(rt)
      case None => Tailoring([announce], Rejected(UnsupportedRuntime("unsupported Lambda runtime '" + rt + "'")))
      case Some(args) =>
        match process
        case NotAccessible(e) =>
          assert (TailoringFailed + e)[0] == 't';
          Tailoring([announce, Logged(TailoringFailed + e)], Rejected(TailorThrew(e)))
        case Closed(rc, signal) =>
          assert [announce, TailorSpawned(directory, args)][1].TailorSpawned?;
          Tailoring([announce, TailorSpawned(directory, args)], if rc == 0 then Resolved else Rejected(TailorExited(signal)))
  }

  // ---------------------------------------------------------------------------
  // npm

  /** `npmInstallOneAgentModule`: npm is loaded, then the specifier installed; either failure rejects. */
  function InstallModule(w: World, load: NpmResult, install: NpmResult): (r: Step)
    ensures r.world.service == w.service && r.world.config == w.config && r.world.mode == w.mode
    ensures w.trace <= r.world.trace
    ensures r.outcome.Resolved? <==> load.NpmOk? && install.NpmOk?
    ensures load.NpmError? ==> r.outcome == Rejected(NpmFailed(load.error))
    ensures load.NpmOk? && install.NpmError? ==> r.outcome == Rejected(NpmFailed(install.error))
    ensures NpmInstall(Spec(w)) in Added(w, r.world) <==> load.NpmOk?
    ensures !Spawns(Added(w, r.world))
  {
    var loaded := Append(w, [NpmLoad]);
    match load
    case NpmError(e) => Step(Append(loaded, [Logged("npm load failed: " + e)]), Rejected(NpmFailed(e)))
    case NpmOk =>
      var installing := Append(loaded, [Logged("Installing Dynatrace oneagent npm module"), NpmInstall(Spec(w))]);
      match install
      case NpmError(e) =>
        var failed := Append(installing, [Logged("npm install failed: " + e)]);
        assert Added(w, failed) == [NpmLoad, Logged("Installing Dynatrace oneagent npm module"), NpmInstall(Spec(w)), Logged("npm install failed: " + e)];
        Step(failed, Rejected(NpmFailed(e)))
      case NpmOk =>
        assert Added(w, installing) == [NpmLoad, Logged("Installing Dynatrace oneagent npm module"), NpmInstall(Spec(w))];
        Step(installing, Resolved)
  }

  /** `npmUninstallOneAgentModule`: the uninstall is always attempted; its failure rejects. */
  function UninstallModule(w: World, uninstall: NpmResult): (r: Step)
    ensures r.world.service == w.service && r.world.config == w.config && r.world.mode == w.mode
    ensures w.trace <= r.world.trace
    ensures NpmUninstall(Spec(w)) in Added(w, r.world)
    ensures r.outcome.Resolved? <==> uninstall.NpmOk?
    ensures uninstall.NpmError? ==> r.outcome == Rejected(NpmFailed(uninstall.error))
  {
    var removing := Append(w, [Logged("Uninstalling Dynatrace oneagent npm module"), NpmUninstall(Spec(w))]);
    match uninstall
    case NpmError(e) =>
      var failed := Append(removing, [Logged("npm uninstall failed: " + e)]);
      assert Added(w, failed)[1] == NpmUninstall(Spec(w));
      Step(failed, Rejected(NpmFailed(e)))
    case NpmOk => Step(removing, Resolved)
  }

  // ---------------------------------------------------------------------------
  // Plain serverless pipeline

  /**
   * `preProcessPlainServerlessDeployment`: install, tailor in the service
   * directory, inject the environment — each step only after the previous
   * one resolved, a rejection ending the stage.
   */
  function PreProcessPlain(w: World, o: Oracle): (r: Step)
    ensures r.world.config == w.config && r.world.mode == w.mode
    ensures r.world.service == w.service.(environment := r.world.service.environment)
    ensures w.trace <= r.world.trace
    ensures r.outcome.Resolved? <==>
              o.npmLoad.NpmOk? && o.install.NpmOk? &&
              Tailor(DefaultModulesPath, w.service.runtime, o.localTailoring).outcome.Resolved?
    ensures r.outcome.Resolved? ==> r.world.service.environment == InjectEnv(w.config, w.service.environment)
    ensures r.outcome.Rejected? ==> r.world.service.environment == w.service.environment
    ensures !(o.npmLoad.NpmOk? && o.install.NpmOk?) ==> !Spawns(Added(w, r.world))
    ensures forall j :: 0 <= j < |Added(w, r.world)| && Added(w, r.world)[j].TailorSpawned? ==>
              NpmInstall(Spec(w)) in Added(w, r.world)[..j]
  {
    var installed := InstallModule(w, o.npmLoad, o.install);
    if installed.outcome.Rejected? then
      installed
    else
      var t := Tailor(DefaultModulesPath, w.service.runtime, o.localTailoring);
      var tailored := Append(installed.world, t.actions);
      ghost var before := Added(w, installed.world);
      assert Added(w, tailored) == before + t.actions;
      assert NpmInstall(Spec(w)) in before;
      assert forall j :: 0 <= j < |before| ==> !before[j].TailorSpawned?;
      assert forall j :: |before| <= j < |before + t.actions| ==> before <= (before + t.actions)[..j];
      if t.outcome.Rejected? then
        Step(tailored, t.outcome)
      else
        var s := tailored.service;
        Step(tailored.(service := s.(environment := InjectEnv(w.config, s.environment))), Resolved)
  }

  /**
   * `postProcessPlainServerlessDeployment`: the handlers are rewritten, then
   * the module uninstalled; an uninstall failure rejects but leaves the
   * rewrite in place.
   */
  function PostProcessPlain(w: World, o: Oracle): (r: Step)
    ensures r.world.config == w.config && r.world.mode == w.mode
    ensures r.world.service == w.service.(functions := RewriteFunctions(w.service.functions))
    ensures w.trace <= r.world.trace
    ensures NpmUninstall(Spec(w)) in Added(w, r.world)
    ensures r.outcome.Resolved? <==> o.uninstall.NpmOk?
  {
    var rewritten := w.(service := w.service.(functions := RewriteFunctions(w.service.functions)));
    UninstallModule(rewritten, o.uninstall)
  }

  // ---------------------------------------------------------------------------
  // serverless-webpack pipeline

  /**
   * `preProcessServerlessWebPackDeployment`: the specifier is appended to
   * (or becomes) the force-include list, then the environment is injected.
   */
  function PreProcessWebpack(w: World): (r: World)
    ensures r.config == w.config && r.mode == w.mode && r.trace == w.trace
    ensures r.service.plugins == w.service.plugins && r.service.functions == w.service.functions
    ensures r.service.runtime == w.service.runtime && r.service.oneagentYaml == w.service.oneagentYaml
    ensures r.service.forceInclude.Some?
    ensures r.service.forceInclude.value == w.service.forceInclude.GetOr([]) + [Spec(w)]
    ensures r.service.environment == InjectEnv(w.config, w.service.environment)
  {
    var s := w.service;
    var list := AddForceInclude(s.forceInclude, Spec(w));
    w.(service := s.(forceInclude := Some(list), environment := InjectEnv(w.config, s.environment)))
  }

  /** An entry is tailored successfully: it has an output path and tailoring there resolves. */
  predicate EntryTailored(entry: CompileEntry, runtime: Option<string>) {
    entry.outputPath.Some? && Tailor(entry.outputPath.value, runtime, entry.tailoring).outcome.Resolved?
  }

  /**
   * The tailoring runs over all compilation results, started in order and
   * joined; the flag is false as soon as one entry has no path or one run rejects.
   */
  function TailorEntries(entries: seq<CompileEntry>, runtime: Option<string>): (r: (seq<Action>, bool))
    ensures r.1 <==> forall i :: 0 <= i < |entries| ==> EntryTailored(entries[i], runtime)
    ensures r.1 ==> Logged(CannotTailor) !in r.0
    ensures forall i :: 0 <= i < |r.0| && r.0[i].TailorSpawned? ==>
              exists j :: 0 <= j < |entries| && entries[j].outputPath == Some(r.0[i].directory)
    decreases |entries|
  {
    if |entries| == 0 then ([], true)
    else
      var (rest, restOk) := TailorEntries(entries[1..], runtime);
      var e := entries[0];
      assert forall j :: 0 <= j < |entries[1..]| ==> entries[1..][j] == entries[j + 1];
      match e.outputPath
      case None => (rest, false)
      case Some(path) =>
        var t := Tailor(path, runtime, e.tailoring);
        var acts := t.actions + rest;
        assert forall i :: |t.actions| <= i < |acts| ==> acts[i] == rest[i - |t.actions|];
        (acts, restOk && t.outcome.Resolved?)
  }

  /** Whether the webpack post-stage keeps `tailoringSucceeded` true. */
  predicate TailoringSucceeded(probe: WebpackProbe, runtime: Option<string>) {
    match probe
    case PluginsNotArray => false
    case WebpackUnloadable => false
    case InstanceMissing => true
    case InstanceFound(None) => false
    case InstanceFound(Some(entries)) => forall i :: 0 <= i < |entries| ==> EntryTailored(entries[i], runtime)
  }

  /** The tailoring actions of the webpack post-stage and its success flag. */
  function TailorCompilations(probe: WebpackProbe, runtime: Option<string>): (r: (seq<Action>, bool))
    ensures r.1 <==> TailoringSucceeded(probe, runtime)
    ensures r.1 ==> Logged(CannotTailor) !in r.0
    ensures Spawns(r.0) ==> probe.InstanceFound? && probe.stats.Some?
  {
    match probe
    case InstanceFound(Some(entries)) => TailorEntries(entries, runtime)
    case InstanceMissing => ([], true)
    case _ => ([], false)
  }

  /**
   * `postProcessServerlessWebPackDeployment`: tailor every compilation
   * output, log the cannot-tailor warning if that did not fully succeed,
   * and in every case rewrite the handlers last. It never rejects.
   */
  function PostProcessWebpack(w: World, probe: WebpackProbe): (r: World)
    ensures r.config == w.config && r.mode == w.mode
    ensures r.service == w.service.(functions := RewriteFunctions(w.service.functions))
    ensures w.trace <= r.trace
    ensures Logged(CannotTailor) in Added(w, r) <==> !TailoringSucceeded(probe, w.service.runtime)
    ensures !TailoringSucceeded(probe, w.service.runtime) ==> r.trace[|r.trace| - 1] == Logged(CannotTailor)
    ensures Spawns(Added(w, r)) ==> probe.InstanceFound? && probe.stats.Some?
  {
    var (actions, succeeded) := TailorCompilations(probe, w.service.runtime);
    var warned := if succeeded then actions else actions + [Logged(CannotTailor)];
    assert Spawns(warned) ==> Spawns(actions) by {
      if !succeeded && Spawns(warned) {
        var i :| 0 <= i < |warned| && warned[i].TailorSpawned?;
        assert i < |actions|;
      }
    }
    var tailored := Append(w, warned);
    assert Added(w, tailored) == warned;
    tailored.(service := w.service.(functions := RewriteFunctions(w.service.functions)))
  }

  // ---------------------------------------------------------------------------
  // Hooks

  datatype Stage = PlainPre | PlainPost | WebpackPre | WebpackPost

  /** A registered hook: the stage it runs and the mode it is scoped to. */
  datatype Hook = Hook(stage: Stage, scope: Mode)

  /** The hooks the constructor registers, by lifecycle event. */
  const Hooks: map<string, Hook> := map[
    "before:package:createDeploymentArtifacts" := Hook(PlainPre, PlainServerless),
    "after:package:createDeploymentArtifacts" := Hook(PlainPost, PlainServerless),
    "before:aws:common:validate" := Hook(WebpackPre, Webpack),
    "after:webpack:package:packExternalModules" := Hook(WebpackPost, Webpack)]

  /** A stage body; only the service and the trace change. */
  /**
   * Each deployment mode gets one hook before and one after its packaging
   * step: four events, each stage under exactly one of them, each stage
   * scoped to the mode it belongs to.
   */
  lemma HookRegistrations()
    ensures |Hooks| == 4
    ensures forall e :: e in Hooks ==> Hooks[e].scope in {PlainServerless, Webpack}
    ensures forall e :: e in Hooks ==>
              (Hooks[e].scope == PlainServerless <==> Hooks[e].stage in {PlainPre, PlainPost})
    ensures forall e1, e2 :: e1 in Hooks && e2 in Hooks && Hooks[e1].stage == Hooks[e2].stage ==> e1 == e2
    ensures (set e | e in Hooks :: Hooks[e].stage) == {PlainPre, PlainPost, WebpackPre, WebpackPost}
  {
    assert Hooks["before:package:createDeploymentArtifacts"].stage == PlainPre;
    assert Hooks["after:package:createDeploymentArtifacts"].stage == PlainPost;
    assert Hooks["before:aws:common:validate"].stage == WebpackPre;
    assert Hooks["after:webpack:package:packExternalModules"].stage == WebpackPost;
  }

  function RunStage(w: World, stage: Stage, o: Oracle): (r: Step)
    ensures r.world.config == w.config && r.world.mode == w.mode
    ensures r.world.service.plugins == w.service.plugins
    ensures w.trace <= r.world.trace
    ensures stage == WebpackPre || stage == WebpackPost ==> r.outcome == Resolved
  {
    match stage
    case PlainPre => PreProcessPlain(w, o)
    case PlainPost => PostProcessPlain(w, o)
    case WebpackPre => Step(PreProcessWebpack(w), Resolved)
    case WebpackPost => Step(PostProcessWebpack(w, o.webpack), Resolved)
  }

  /**
   * The closure `defineEventHook` installs: an undetermined mode is detected
   * first; the body runs iff the mode equals the hook's scope or the scope is `All`.
   */
  function Fire(w: World, hook: Hook, o: Oracle): (r: Step)
    requires w.mode != All
    ensures r.world.mode == ResolveMode(w.mode, w.service.plugins)
    ensures r.world.config == w.config
    ensures w.trace <= r.world.trace
    ensures !Applies(r.world.mode, hook.scope) ==> r == Step(w.(mode := r.world.mode), Resolved)
    ensures Applies(r.world.mode, hook.scope) ==> r == RunStage(w.(mode := r.world.mode), hook.stage, o)
  {
    var resolved := w.(mode := ResolveMode(w.mode, w.service.plugins));
    if Applies(resolved.mode, hook.scope) then RunStage(resolved, hook.stage, o) else Step(resolved, Resolved)
  }

  /** The host firing one lifecycle event the plugin registered for. */
  function FireEvent(w: World, event: string, o: Oracle): (r: Step)
    requires w.mode != All
    requires event in Hooks
    ensures r.world.mode == ResolveMode(w.mode, w.service.plugins)
    ensures r.world.config == w.config
    ensures r.world.service.plugins == w.service.plugins
  {
    Fire(w, Hooks[event], o)
  }

  /**
   * The constructor: configuration merged, mode detected, and in webpack
   * mode the webpack pre-stage run at once.
   */
  function Construct(service: Service, cli: CommandLine): (w: World)
    ensures w.config == InitConfig(service.oneagentYaml, cli)
    ensures w.mode == DetectMode(service.plugins)
    ensures w.mode == PlainServerless ==> w.service == service && w.trace == []
    ensures w.mode == Webpack ==>
              w.service == service.(forceInclude := Some(AddForceInclude(service.forceInclude, Spec(w))),
                                    environment := InjectEnv(w.config, service.environment))
  {
    var initial := World(InitConfig(service.oneagentYaml, cli), Undetermined, service, []);
    var detected := initial.(mode := DetectMode(service.plugins));
    if detected.mode == Webpack then PreProcessWebpack(detected) else detected
  }

  /** The host firing `events` in order, stopping at the first rejected one. */
  function Deploy(w: World, events: seq<string>, oracles: seq<Oracle>): (r: Step)
    requires w.mode != All
    requires |events| == |oracles|
    requires forall i :: 0 <= i < |events| ==> events[i] in Hooks
    decreases |events|
  {
    if |events| == 0 then Step(w, Resolved)
    else
      var s := FireEvent(w, events[0], oracles[0]);
      if s.outcome.Rejected? then s else Deploy(s.world, events[1..], oracles[1..])
  }

  /** A resolved mode never changes again, and neither does the configuration. */
  lemma {:induction false} ModeNeverReverts(w: World, events: seq<string>, oracles: seq<Oracle>)
    requires w.mode == PlainServerless || w.mode == Webpack
    requires |events| == |oracles|
    requires forall i :: 0 <= i < |events| ==> events[i] in Hooks
    ensures Deploy(w, events, oracles).world.mode == w.mode
    ensures Deploy(w, events, oracles).world.config == w.config
    decreases |events|
  {
    if |events| > 0 {
      var s := FireEvent(w, events[0], oracles[0]);
      if s.outcome.Resolved? {
        ModeNeverReverts(s.world, events[1..], oracles[1..]);
      }
    }
  }

  /** The mode detected at construction governs the whole deployment. */
  lemma ConstructedModeIsFinal(service: Service, cli: CommandLine, events: seq<string>, oracles: seq<Oracle>)
    requires |events| == |oracles|
    requires forall i :: 0 <= i < |events| ==> events[i] in Hooks
    ensures Deploy(Construct(service, cli), events, oracles).world.mode == DetectMode(service.plugins)
  {
    ModeNeverReverts(Construct(service, cli), events, oracles);
  }

  /** A hook scoped to the other mode does nothing at all. */
  lemma OtherModeHookInert(w: World, event: string, o: Oracle)
    requires w.mode == PlainServerless || w.mode == Webpack
    requires event in Hooks && Hooks[event].scope != w.mode
    ensures FireEvent(w, event, o) == Step(w, Resolved)
  {
  }

  /**
   * In webpack mode the pre-stage runs from the constructor and again from
   * `before:aws:common:validate`, so the specifier is appended twice.
   */
  lemma WebpackSpecifierAppendedTwice(service: Service, cli: CommandLine, o: Oracle)
    requires WebpackPlugin in service.plugins
    ensures var w := Construct(service, cli);
            var r := FireEvent(w, "before:aws:common:validate", o);
            r.world.service.forceInclude == Some(service.forceInclude.GetOr([]) + [Spec(w), Spec(w)])
  {
    var w := Construct(service, cli);
    assert w.service.forceInclude.value == service.forceInclude.GetOr([]) + [Spec(w)];
    assert Hooks["before:aws:common:validate"] == Hook(WebpackPre, Webpack);
    assert FireEvent(w, "before:aws:common:validate", o) == Step(PreProcessWebpack(w), Resolved);
    var prior := service.forceInclude.GetOr([]);
    assert prior + [Spec(w)] + [Spec(w)] == prior + [Spec(w), Spec(w)];
  }
}
