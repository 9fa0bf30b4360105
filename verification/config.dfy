/** The configuration records the plugin service is built from (src/config.rs). */
module Configuration {
  import opened Basics

  /** The sandbox trust policy of one plugin; every part is optional in the configuration file. */
  datatype RuntimeConfig = RuntimeConfig(
    allowedHosts: Option<seq<string>>,
    allowedPaths: Option<seq<string>>,
    envVars: Option<map<string, string>>)

  /** One configured plugin: its name, where to get its module, and its optional trust policy. */
  datatype PluginConfig = PluginConfig(
    name: string,
    path: string,
    runtimeConfig: Option<RuntimeConfig>)

  /** The whole configuration: plugins in load order and the global signature-skip flag. */
  datatype Config = Config(
    plugins: seq<PluginConfig>,
    insecureSkipSignature: bool)

  /** The configuration as deserialised: an absent `insecure_skip_signature` field takes its
      serde default, so signatures are checked unless the file explicitly says otherwise. */
  function FromFields(plugins: seq<PluginConfig>, skipField: Option<bool>): (c: Config)
    ensures c.plugins == plugins
    ensures c.insecureSkipSignature <==> skipField == Some(true)
  {
    Config(plugins, skipField.GetOr(false))
  }

  /** The names of a sequence of configured plugins. */
  function Names(pcs: seq<PluginConfig>): set<string> {
    set i | 0 <= i < |pcs| :: pcs[i].name
  }

  lemma NamesCons(pcs: seq<PluginConfig>)
    requires pcs != []
    ensures Names(pcs) == {pcs[0].name} + Names(pcs[1..])
  {
  }

}
