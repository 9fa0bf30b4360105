/** The sandbox capability descriptor built from a plugin's trust policy
    (src/plugins.rs, the manifest section of `load_plugins`). */
module Manifests {
  import opened Basics
  import opened Configuration

  /** What the sandbox is told when a plugin is instantiated: the module bytes, the network
      hosts it may reach (appended in order), the host paths it may open with the path they
      appear under inside the sandbox, and the configuration keys it can read. */
  datatype Manifest = Manifest(
    wasm: Bytes,
    allowedHosts: seq<string>,
    allowedPaths: map<string, string>,
    config: map<string, string>)

  /** The minimal capability set: the module and nothing else. */
  function Minimal(wasm: Bytes): Manifest {
    Manifest(wasm, [], map[], map[])
  }

  /** `with_allowed_host` for each host in turn. */
  function WithAllowedHosts(m: Manifest, hosts: seq<string>): (r: Manifest)
    ensures r.allowedHosts == m.allowedHosts + hosts
    ensures r.wasm == m.wasm && r.allowedPaths == m.allowedPaths && r.config == m.config
    decreases |hosts|
  {
    if hosts == [] then m
    else WithAllowedHosts(m.(allowedHosts := m.allowedHosts + [hosts[0]]), hosts[1..])
  }

  /** `with_allowed_path(p, p)` for each path in turn: the path is exposed unchanged. */
  function WithAllowedPaths(m: Manifest, paths: seq<string>): (r: Manifest)
    ensures r.allowedPaths.Keys == m.allowedPaths.Keys + set i | 0 <= i < |paths| :: paths[i]
    ensures forall i | 0 <= i < |paths| :: r.allowedPaths[paths[i]] == paths[i]
    ensures forall p | p in m.allowedPaths && p !in paths :: r.allowedPaths[p] == m.allowedPaths[p]
    ensures r.wasm == m.wasm && r.allowedHosts == m.allowedHosts && r.config == m.config
    decreases |paths|
  {
    if paths == [] then m
    else
      var r := WithAllowedPaths(m.(allowedPaths := m.allowedPaths[paths[0] := paths[0]]), paths[1..]);
      assert forall i | 1 <= i < |paths| :: paths[i] == paths[1..][i - 1];
      r
  }

  /** `with_config_key(k, v)` for each entry of the environment map; the sandbox's config is a
      map, so the order in which the entries are visited does not matter. */
  function WithConfigKeys(m: Manifest, env: map<string, string>): (r: Manifest)
    ensures r.config.Keys == m.config.Keys + env.Keys
    ensures forall k | k in env :: r.config[k] == env[k]
    ensures forall k | k in m.config && k !in env :: r.config[k] == m.config[k]
    ensures r.wasm == m.wasm && r.allowedHosts == m.allowedHosts && r.allowedPaths == m.allowedPaths
  {
    m.(config := m.config + env)
  }

  /** The manifest a plugin is instantiated with. Without a trust policy it grants nothing;
      with one, it grants exactly the declared hosts (verbatim, in order), the declared paths
      (each at its own path), and the declared environment as configuration. */
  function BuildManifest(wasm: Bytes, policy: Option<RuntimeConfig>): (m: Manifest)
    ensures m.wasm == wasm
    ensures policy.None? ==> m == Minimal(wasm)
    ensures policy.Some? ==> m.allowedHosts == policy.value.allowedHosts.GetOr([])
    ensures policy.Some? ==> forall p :: p in m.allowedPaths <==> p in policy.value.allowedPaths.GetOr([])
    ensures forall p | p in m.allowedPaths :: m.allowedPaths[p] == p
    ensures policy.Some? ==> m.config == policy.value.envVars.GetOr(map[])
  {
    match policy
    case None => Minimal(wasm)
    case Some(rc) =>
      var m := Minimal(wasm);
      var m := if rc.allowedHosts.Some? then WithAllowedHosts(m, rc.allowedHosts.value) else m;
      var m := if rc.allowedPaths.Some? then WithAllowedPaths(m, rc.allowedPaths.value) else m;
      var m := if rc.envVars.Some? then WithConfigKeys(m, rc.envVars.value) else m;
      assert rc.envVars.Some? ==> m.config == rc.envVars.value;
      m
  }

  /** A policy that declares nothing grants what no policy grants. */
  lemma EmptyPolicyIsMinimal(wasm: Bytes, rc: RuntimeConfig)
    requires rc.allowedHosts.GetOr([]) == [] && rc.allowedPaths.GetOr([]) == []
    requires rc.envVars.GetOr(map[]) == map[]
    ensures BuildManifest(wasm, Some(rc)) == BuildManifest(wasm, None)
  {
  }
}
