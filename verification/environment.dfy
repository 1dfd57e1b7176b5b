/** `setDtLambdaOptions`: agent options and debug flag written into the provider environment. */
module Environment {
  import opened Configuration

  const OptionsVariable := "DT_LAMBDA_OPTIONS"
  const DebugVariable := "DEBUG"
  const DebugValue := "dynatrace"

  /** The provider environment after the plugin's variables are set. */
  function InjectEnv(config: Config, env: map<string, string>): (r: map<string, string>)
    ensures config.agentOptions != "" ==> OptionsVariable in r && r[OptionsVariable] == config.agentOptions
    ensures config.agentOptions == "" ==>
              (OptionsVariable in r <==> OptionsVariable in env) &&
              (OptionsVariable in env ==> r[OptionsVariable] == env[OptionsVariable])
    ensures config.debug ==> DebugVariable in r && r[DebugVariable] == DebugValue
    ensures !config.debug ==>
              (DebugVariable in r <==> DebugVariable in env) &&
              (DebugVariable in env ==> r[DebugVariable] == env[DebugVariable])
    ensures forall k :: k != OptionsVariable && k != DebugVariable ==>
              (k in r <==> k in env) && (k in env ==> r[k] == env[k])
  {
    var withOptions := if config.agentOptions != "" then env[OptionsVariable := config.agentOptions] else env;
    if config.debug then withOptions[DebugVariable := DebugValue] else withOptions
  }

  /** Injecting twice is injecting once. */
  lemma InjectIdempotent(config: Config, env: map<string, string>)
    ensures InjectEnv(config, InjectEnv(config, env)) == InjectEnv(config, env)
  {
  }

  /** With neither options nor debug configured the environment is left as it was. */
  lemma InjectNothing(config: Config, env: map<string, string>)
    requires config.agentOptions == "" && !config.debug
    ensures InjectEnv(config, env) == env
  {
  }
}
