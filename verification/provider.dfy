/**
 * `M365Provider`: the provider object holds the configuration it loaded at
 * construction; the Graph credential and client it also builds are not
 * part of this model.
 */
module Provider {
  import opened Wrappers
  import opened Errors
  import opened Config

  /** The key the provider answers to. */
  const ProviderName := "m365"

  datatype M365Provider = M365Provider(config: M365Config)

  /** `M365Provider.__init__`: the `config` argument is accepted and never
      consulted; the configuration always comes from the environment. */
  method NewProvider(env: Env, config: Option<map<string, string>>) returns (r: Result<M365Provider, ValueError>)
    ensures r.Success? <==> Missing(env) == []
    ensures r.Success? ==> r.value.config == LoadedConfig(env).value
    ensures r.Failure? ==> r.error == MissingEnvironmentVariables(Missing(env))
  {
    var loaded := FromEnv(env);
    if loaded.Failure? {
      return Failure(loaded.error);
    }
    r := Success(M365Provider(loaded.value));
  }
}
