/** Deployment modes and the mode scoping of event hooks. */
module Modes {

  /**
   * `Undetermined` until detection; then `PlainServerless` or `Webpack`.
   * `All` only ever scopes a hook and is never a plugin's mode.
   */
  datatype Mode = Undetermined | PlainServerless | Webpack | All

  /** The plugin whose presence selects webpack mode. */
  const WebpackPlugin := "serverless-webpack"

  /** `determineDeploymentMode`: webpack mode iff some configured plugin is exactly `serverless-webpack`. */
  function DetectMode(plugins: seq<string>): (m: Mode)
    ensures m == Webpack <==> WebpackPlugin in plugins
    ensures m == PlainServerless <==> WebpackPlugin !in plugins
    ensures m != Undetermined && m != All
  {
    if exists i :: 0 <= i < |plugins| && plugins[i] == WebpackPlugin then Webpack else PlainServerless
  }

  /** Whether a hook registered for `scope` runs its body when the plugin is in `mode`. */
  predicate Applies(mode: Mode, scope: Mode) {
    mode == scope || scope == All
  }

  /** The mode a fired hook sees: an undetermined mode is detected first, a resolved one is kept. */
  function ResolveMode(mode: Mode, plugins: seq<string>): (m: Mode)
    requires mode != All
    ensures m != Undetermined && m != All
    ensures mode != Undetermined ==> m == mode
    ensures mode == Undetermined ==> (m == Webpack <==> WebpackPlugin in plugins)
  {
    if mode == Undetermined then DetectMode(plugins) else mode
  }

  /** A hook scoped to one of the two real modes never runs in the other. */
  lemma ScopesExclusive(mode: Mode)
    ensures !(Applies(mode, PlainServerless) && Applies(mode, Webpack))
    ensures Applies(mode, All)
  {
  }
}
