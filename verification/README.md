# serverless-oneagent in Dafny

A model of `DynatraceOneAgentPlugin` from the Dynatrace serverless-oneagent Serverless Framework plugin.
At deployment time the plugin injects the Dynatrace OneAgent npm module (`@dynatrace/oneagent`) into an AWS Lambda package.
It works in one of two deployment modes:

- **Plain serverless**: it npm-installs the module before the deployment artifacts are created. It tailors the module to the Lambda Node.js runtime and puts the agent options into the provider environment. After packaging it rewrites every function handler to go through the agent's loader, then uninstalls the module.
- **serverless-webpack**: it adds the module to serverless-webpack's `forceInclude` list and sets the environment. After serverless-webpack has packed the external modules, it tailors each compilation output and rewrites the handlers.

The model is functional. A `World` holds the merged `Config`, the deployment `Mode`, the parts of the Serverless service the plugin touches, and a trace of outside actions. Those parts are the plugin list, the runtime, the environment map, the function-to-handler map and the optional `forceInclude` list. The outside actions are log calls, npm load/install/uninstall, and spawns of the tailoring executable. Every call into npm, child processes or serverless-webpack is an oracle: its outcome is an input (`Oracle`, `ProcessResult`, `WebpackProbe`), not something the model computes.

Modules, leaf first:

- `Wrappers`: `Option`.
- `Text`: JavaScript `split` and `join` with a one-character separator, with their round-trip lemmas.
- `Configuration`: the config merge and the qualified module specifier.
- `Modes`: the deployment modes, mode detection and hook scoping.
- `Handlers`: the handler rewrite.
- `RuntimeFlag`: the runtime regular expression, modelled as a backtracking search over the runtime's characters (Unicode code points, see "Left out"), and proved against a declarative definition of a leftmost, greedy match.
- `Logging`: how a message is split into tagged log lines.
- `Environment`: `DT_LAMBDA_OPTIONS` and `DEBUG`.
- `ForceInclude`: the serverless-webpack list.
- `Plugin`: tailoring, the npm steps, the four pipeline stages, the hook table and its mode gate, the constructor, and a host firing events in order.
- `Scenarios`: concrete end-to-end runs.

The model follows the code, including behaviour a reader of the plugin might not expect:

- A tailoring failure in the plain pre-stage is not caught. The stage rejects and the environment is not set (src/index.ts:439-443).
- If no serverless-webpack instance is found, `tailoringSucceeded` stays true and no warning is logged. The same holds when `compileStats.stats` is an empty array (src/index.ts:386-420).
- An uninstall failure rejects the plain post-stage (src/index.ts:566).
- In webpack mode the pre-stage runs twice: once from the constructor and once from `before:aws:common:validate`. The specifier is therefore appended to `forceInclude` twice (`Plugin.WebpackSpecifierAppendedTwice`).
- The runtime pattern `/nodejs([0-9]+).[0-9.]+/` is unanchored and its `.` is unescaped. A runtime written `nodejs<N>.<digits>` gives `--AwsLambdaV<N>`. For `nodejs<N>.x` with a major of two or more digits, backtracking gives up the last digit: `nodejs12.x` gives `--AwsLambdaV1` (`RuntimeFlag.FlagDropsLastDigitBeforeX`, `Scenarios.NodeTwelveFlag`).
- A handler whose path holds a dot is cut at that dot: `./index.hello` becomes `node_modules/@dynatrace/oneagent/index.$/index` (`Handlers.RewriteDottedPath`, src/index.ts:471-472).
- A handler without a `.` is rewritten with the export name `undefined`, the way JavaScript renders a missing array element (`Handlers.RewriteWithoutDot`).
- The cannot-tailor warning text keeps the source's missing space ("OneAgentnpm").

## Model

| member | source | states |
|---|---|---|
| `Configuration.InitConfig` | src/index.ts:293-300 | `verbose` iff the YAML `verbose`, `--verbose` or `-v` is set. `debug` iff the YAML `debug` or `--dt-debug` is set. The agent options are the command-line value if non-empty, else the YAML value if non-empty, else `""`. The module version is the command-line value if non-empty, else the YAML value as given. A missing YAML block counts as an empty one. |
| `Configuration.CommandLineOverridesYaml` | src/index.ts:296-299 | A set command-line value decides its field whatever the YAML block holds. |
| `Configuration.Defaults` | src/index.ts:614-618 | With nothing configured, the result is `debug=false`, `verbose=false`, no version and empty agent options. |
| `Configuration.QualifiedModuleName` | src/index.ts:285-287 | The specifier starts with `@dynatrace/oneagent`. It differs from the bare name iff the version is present and non-empty, and then the rest is `@<version>`. |
| `Configuration.QualifiedNameRoundTrip` | src/index.ts:285-287 | Reading the version tag back from the specifier gives the configured version when it is non-empty, and no tag otherwise. |
| `Modes.DetectMode` | src/index.ts:329-336 | The mode is `Webpack` iff the plugin list contains exactly `serverless-webpack`, and `PlainServerless` iff it does not. The result is never `Undetermined` or `All`. |
| `Modes.ResolveMode` | src/index.ts:346-349 | A fired hook detects an `Undetermined` mode and keeps a resolved one. |
| `Modes.ScopesExclusive` | src/index.ts:351 | No mode runs both a `PlainServerless`-scoped and a `Webpack`-scoped hook. Every mode runs an `All`-scoped hook. |
| `Environment.InjectEnv` | src/index.ts:600-609 | `DT_LAMBDA_OPTIONS` is set to the agent options verbatim iff they are non-empty, and is otherwise left as it was. `DEBUG` is set to `dynatrace` iff debug is on, and is otherwise left as it was. Every other key is unchanged. |
| `Environment.InjectIdempotent` | src/index.ts:600-609 | Injecting twice gives the same environment as injecting once. |
| `Environment.InjectNothing` | src/index.ts:601-608 | With no options and no debug, the environment is unchanged. |
| `ForceInclude.AddForceInclude` | src/index.ts:368-373 | An absent list becomes `[spec]`. An existing list keeps all its entries and gains `spec` at the end. |
| `ForceInclude.AddCountsOnce` | src/index.ts:369-370 | No de-duplication: every addition adds exactly one more occurrence of the specifier. |
| `Text.SplitOn` | src/index.ts:471 | `split` on a character gives at least one piece. No piece contains the separator. Joining the pieces with the separator gives back the input. |
| `Text.SplitWithoutSeparator` | src/index.ts:471 | A string without the separator splits into itself alone. |
| `Text.SplitAround` | src/index.ts:471 | Splitting `a + sep + b` gives the pieces of `a` followed by the pieces of `b`. |
| `Text.SplitJoin` | src/index.ts:471 | Splitting a join of separator-free pieces gives the pieces back. |
| `Handlers.RewriteHandler` | src/index.ts:470-472 | Every rewritten handler starts with `node_modules/@dynatrace/oneagent/index.`. |
| `Handlers.RewriteModuleExport` | src/index.ts:471-472 | A dot-free `A` and `B` turn `A.B` into `node_modules/@dynatrace/oneagent/index.A$B`. |
| `Handlers.RewriteIgnoresTail` | src/index.ts:471-472 | Only the first two dot-separated pieces are used: `A.B.C` is rewritten exactly like `A.B`. |
| `Handlers.RewriteDottedPath` | src/index.ts:471-472 | For dot-free `D` and `F`, `D.F.S` becomes `node_modules/@dynatrace/oneagent/index.D$F`: the export name is the piece after the first dot, whatever follows. |
| `Handlers.RewriteWithoutDot` | src/index.ts:471-472 | A handler without a dot gets the export `undefined`. |
| `Handlers.RewriteRoundTrip` | src/index.ts:472 | The rewrite is lossless: `A.B` (with `A` free of `$`) is recovered from its rewritten form by splitting at the first `$` after the prefix. |
| `Handlers.RewriteFunctions` | src/index.ts:468-474 | Every function is rewritten and the set of function names is unchanged. |
| `Handlers.RewriteAllModuleExports` | src/index.ts:468-474 | Every function whose handler is `A.B` ends up with `node_modules/@dynatrace/oneagent/index.A$B`. |
| `RuntimeFlag.DigitRun` | src/index.ts:495 | The greedy `[0-9]+` takes a run of digits that ends at a non-digit or at the end of the string. |
| `RuntimeFlag.BeyondRun` | src/index.ts:495 | No match has a group longer than the digit run. |
| `RuntimeFlag.Backtrack` | src/index.ts:495 | Backtracking from the longest group finds the longest group length at which the rest of the pattern matches, or proves that none does. |
| `RuntimeFlag.MatchAt` | src/index.ts:495 | At one start position the attempt returns the longest matching group, or proves that no group length matches there. |
| `RuntimeFlag.Search` | src/index.ts:495 | The scan returns the first start position with a match and the longest group there, or proves that there is no match from that position on. |
| `RuntimeFlag.Exec` | src/index.ts:495 | `exec` reports the leftmost, greedy match, and reports nothing iff the pattern matches nowhere. |
| `RuntimeFlag.TailorArgs` | src/index.ts:493-501 | There are no arguments iff the pattern does not match. Otherwise the single argument is `--AwsLambdaV` followed by group 1 of the leftmost, greedy match. |
| `RuntimeFlag.ReportedMatch` | src/index.ts:495-497 | A match at position 0 whose group ends before a non-digit is the match `exec` reports. |
| `RuntimeFlag.FlagForNodeVersion` | src/index.ts:495-497 | `nodejs<N>.<M>`, with N and M non-empty digit strings, gives exactly `["--AwsLambdaV<N>"]`. |
| `RuntimeFlag.FlagDropsLastDigitBeforeX` | src/index.ts:495-497 | `nodejs<N>.x`, with N of two or more digits, gives `--AwsLambdaV` followed by N without its last digit. |
| `RuntimeFlag.NonNodeRuntimeUnsupported` | src/index.ts:495-500 | A runtime in which `nodejs` does not occur gives no arguments. |
| `Logging.TrimSeparators` | src/index.ts:307 | Every piece that a line feed followed loses one trailing `\r`, which belonged to a `\r\n` separator. The last piece is kept whole. |
| `Logging.TrimRejoins` | src/index.ts:307 | The trimmed pieces, each followed by the separator it lost (`\r\n` or `\n`), rebuild the `\n`-joined message, and they form a well-formed split. |
| `Logging.SplitLines` | src/index.ts:307 | `split(/\n|\r\n/)`: at least one line. No line holds a line feed. Joined back with separators that are each `\n` or `\r\n`, the lines give the message again. A bare `\n` separator never follows a line ending in `\r`. |
| `Logging.SplitLinesAround` | src/index.ts:307 | A first line free of line feeds, followed by `\r\n`, or by `\n` when the line does not end in `\r`, comes off the front of the split unchanged. |
| `Logging.SplitLinesJoin` | src/index.ts:307 | The split is unique: any well-formed lines and separators, joined and split again, give the same lines back. |
| `Logging.Emit` | src/index.ts:308-312 | At most one output line per piece. Each line is the tag followed by a non-empty remainder. |
| `Logging.EmitAppend` | src/index.ts:308-312 | Output is in order: emitting two runs of pieces gives the first run's lines, then the second's. |
| `Logging.LogLines` | src/index.ts:306-313 | Every logged line starts with `[Dynatrace OneAgent] ` and has text after it. |
| `Logging.LogSingleLine` | src/index.ts:307-311 | A message without a line feed logs itself once behind the tag. An empty message logs nothing. |
| `Logging.LogSplitsAtCrLf` | src/index.ts:307 | At a `\r\n` separator, the lines are those of the first line followed by those of the rest. |
| `Logging.LogSplitsAtLf` | src/index.ts:307 | At a `\n` separator not preceded by `\r`, the lines are those of the first line followed by those of the rest. |
| `Logging.BlankMessageLogsNothing` | src/index.ts:309 | A message made only of line feeds logs nothing. |
| `Plugin.Tailor` | src/index.ts:482-527 | The executable is spawned iff the runtime is present, matches the pattern, and the executable is accessible. The run resolves iff it then exits with 0. A missing runtime logs the cannot-tailor warning and rejects. A non-matching runtime rejects with `unsupported Lambda runtime '<runtime>'`. The spawn gets the runtime's flag. |
| `Plugin.InstallModule` | src/index.ts:533-550 | npm is loaded, then the specifier is installed. The step resolves iff both succeed, and otherwise rejects with npm's error. The install is attempted iff the load succeeded. Nothing is spawned. |
| `Plugin.UninstallModule` | src/index.ts:555-570 | The uninstall is always attempted. It resolves iff npm succeeds, and otherwise rejects. |
| `Plugin.PreProcessPlain` | src/index.ts:439-443 | The order is install, then tailor, then environment, and the stage stops at the first rejection. It resolves iff all three succeed. The environment is injected iff it resolves. Nothing is spawned if the install fails. Every spawn comes after the install. Only the environment changes. |
| `Plugin.PostProcessPlain` | src/index.ts:450-453 | The handlers are rewritten whatever the outcome. The uninstall is attempted, and the stage resolves iff the uninstall succeeds. |
| `Plugin.PreProcessWebpack` | src/index.ts:368-376 | `forceInclude` becomes the old list, or the empty list, with the specifier appended. The environment is injected. Nothing else changes. |
| `Plugin.TailorEntries` | src/index.ts:408-417 | The success flag holds iff every compilation result has an output path and tailoring there resolves. Every spawn is in some result's output directory. |
| `Plugin.TailorCompilations` | src/index.ts:386-420 | Tailoring succeeds iff the instance is missing, or it is found with stats that all tailor successfully. Plugins that are not an array, a loader that throws, or missing stats count as failure. |
| `Plugin.PostProcessWebpack` | src/index.ts:385-431 | The stage always ends with every handler rewritten. It logs the cannot-tailor warning iff tailoring did not succeed, and then the warning is the last action. It spawns only when compilation stats were found. |
| `Plugin.RunStage` | src/index.ts:261-265 | No stage changes the mode, the configuration or the plugin list. The webpack stages never reject. |
| `Plugin.Fire` | src/index.ts:344-356 | A fired hook resolves an undetermined mode first. It runs its stage iff the mode equals its scope or the scope is `All`, and otherwise changes nothing else and resolves. |
| `Plugin.HookRegistrations` | src/index.ts:261-265 | Four events are registered. Each stage is registered under exactly one event, and every stage is. The plain stages are scoped to plain serverless, the webpack stages to webpack. |
| `Plugin.FireEvent` | src/index.ts:261-265 | Firing a registered event resolves the mode and keeps the configuration and the plugin list. |
| `Plugin.Construct` | src/index.ts:247-266 | The configuration is merged and the mode detected. In plain mode the service is untouched. In webpack mode the pre-stage has already extended `forceInclude` and set the environment. |
| `Plugin.ModeNeverReverts` | src/index.ts:346-349 | Over any sequence of fired events, a resolved mode and the configuration never change. |
| `Plugin.ConstructedModeIsFinal` | src/index.ts:255 | The mode detected in the constructor is the mode for the whole deployment. |
| `Plugin.OtherModeHookInert` | src/index.ts:351-354 | A hook scoped to the other mode does nothing. |
| `Plugin.WebpackSpecifierAppendedTwice` | src/index.ts:257-259 | In webpack mode, the constructor and then `before:aws:common:validate` leave the specifier appended twice. |
| `Scenarios.PlainPreStageSetsOptionsOnly` | src/index.ts:439-443 | Agent options `{"server":"x"}` without debug in plain mode give a `DT_LAMBDA_OPTIONS` with that value and no `DEBUG`. |
| `Scenarios.WebpackCreatesForceInclude` | src/index.ts:372 | Webpack mode with no list yields `["@dynatrace/oneagent"]`. |
| `Scenarios.WebpackCreatesVersionedForceInclude` | samples/aws-lambda-node.js-webpack/oneagent-serverless-options.js:9 | With `npmModuleVersion: next`, webpack mode yields `["@dynatrace/oneagent@next"]`. |
| `Scenarios.WebpackInstanceMissing` | src/index.ts:386-402 | No serverless-webpack instance: nothing is logged and the handlers are still rewritten. |
| `Scenarios.WebpackUnloadableWarns` | src/index.ts:421-430 | serverless-webpack cannot be loaded: the warning is logged, then the handlers are rewritten. |
| `Scenarios.PlainInstallFailureAborts` | src/index.ts:440 | A failed install rejects the pre-stage. Nothing is spawned and the service is untouched. |
| `Scenarios.PlainTailoringFailureAborts` | src/index.ts:441 | An unsupported runtime rejects the pre-stage before the environment is set. |
| `Scenarios.NodeTwelveFlag` | src/index.ts:495-497 | `nodejs12.x` gives `["--AwsLambdaV1"]`. |

## Left out

- RuntimeFlag.Exec: the runtime is a sequence of Unicode code points, not of UTF-16 code units. The pattern has no `u` flag, so in JavaScript `.` consumes one code unit, half of a character outside the Basic Multilingual Plane. In the model `.` consumes the whole character. A runtime with such a character right after the major version can match here and not in JavaScript.
- RuntimeFlag.TailorArgs: inherits the same code-point reading of the runtime from `RuntimeFlag.Exec`.
- npm itself (`setupNpm`, `Npm.commands.install` and `uninstall`, `LogStream`): foreign library calls. Each is an oracle outcome (`NpmResult`), recorded as an action. The choice of npm's log stream is not modelled.
- Child processes and the file system in `tailorOneAgentModule` (`ChildProcess.spawn`, output streaming, `FileSystem.accessSync`, `Path.join`): process and file-system I/O. `ProcessResult` says whether the executable was accessible and how the run closed.
- Plugin.Tailor: the recorded spawn names the output directory, not the joined path `<dir>/node_modules/.bin/dt-oneagent-tailor`, because path normalisation is file-system behaviour.
- The `require("serverless-webpack")`/`instanceof` search and the `Promise.all` fan-out: dynamic loading and concurrency. `WebpackProbe` lists the possible findings. The tailoring runs are recorded in the order they are started. Their order of completion does not matter to the result.
- lodash's deep `_.get`/`_.has`/`_.set` are modelled as explicit optional fields. A `forceInclude` path that exists but does not hold an array is not modelled. An absent provider environment is modelled as an empty map.
- Verbose-only log messages (`logVerbose`) are not modelled: they are diagnostics that change no state. The per-function line "modifying Lambda handler ..." is not modelled either, because its order follows `Object.keys`, which a map does not carry. So `verbose` is merged but affects nothing in the model.
- Handlers.RewriteFunctions: states the rewrite of every entry but not the log line emitted per function (see above).
- `getProvider("aws")` and the empty `commands` table are not modelled: they have no behaviour here.
- YAML values of the wrong type (for example a string where a boolean is expected) are not modelled: the fields are typed optional booleans and strings, and JavaScript truthiness is applied to those types only.
- `Plugin.Deploy` assumes the host stops a deployment at the first rejected hook. Event dispatch belongs to the host, not to this plugin.
- The webpack configuration files under samples/ are static data with no logic.
