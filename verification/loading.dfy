/** The startup load sequence (`PluginService::new` and `load_plugins`, src/plugins.rs):
    plugins are acquired, instantiated and described strictly in configuration order, and
    the first failure ends the whole load. */
module Loading {
  import opened Basics
  import opened Configuration
  import opened Sources
  import opened Manifests
  import opened Services

  /** The I/O and sandbox engine the load sequence depends on, as given results:
      `instantiate` yields the new module's memory, or nothing when the engine rejects the
      manifest; `describe` is the module's zero-argument self-description call. */
  datatype Host = Host(
    fetch: Fetcher,
    instantiate: Manifest -> Option<Bytes>,
    describe: Plugin -> DescribeReturn)

  /** Everything that stops the load; the last two are panics in the service itself. */
  datatype LoadError =
    | AcquisitionFailed(plugin: string, cause: AcquireError)
      /** `Plugin::new(..).unwrap()` on a manifest the sandbox engine rejects */
    | InstantiationFailed(plugin: string)
      /** the collision panic: `tool` is routed to `existing` when `incoming` declares it */
    | ToolCollision(tool: string, existing: string, incoming: string)

  /** The plugin whose loading raised the error. */
  function Culprit(e: LoadError): string {
    match e
    case AcquisitionFailed(plugin, _) => plugin
    case InstantiationFailed(plugin) => plugin
    case ToolCollision(_, _, incoming) => incoming
  }

  /** Acquire the plugin's bytes, build its manifest and instantiate it. */
  function Instantiate(pc: PluginConfig, skipSignature: bool, host: Host): (r: Result<Plugin, LoadError>)
    ensures Acquire(pc.name, pc.path, skipSignature, host.fetch).Err? ==>
              r == Err(AcquisitionFailed(pc.name, Acquire(pc.name, pc.path, skipSignature, host.fetch).error))
    ensures r.Ok? ==> Acquire(pc.name, pc.path, skipSignature, host.fetch).Ok?
    ensures r.Ok? ==> r.value.manifest == BuildManifest(Acquire(pc.name, pc.path, skipSignature, host.fetch).value, pc.runtimeConfig)
    ensures r.Err? ==> !r.error.ToolCollision? && r.error.plugin == pc.name
    ensures Acquire(pc.name, pc.path, skipSignature, host.fetch).Ok? ==>
              var m := BuildManifest(Acquire(pc.name, pc.path, skipSignature, host.fetch).value, pc.runtimeConfig);
              && (r.Ok? <==> host.instantiate(m).Some?)
              && (r.Ok? ==> r.value.memory == host.instantiate(m).value)
  {
    match Acquire(pc.name, pc.path, skipSignature, host.fetch)
    case Err(cause) => Err(AcquisitionFailed(pc.name, cause))
    case Ok(wasm) =>
      var manifest := BuildManifest(wasm, pc.runtimeConfig);
      match host.instantiate(manifest)
      case None => Err(InstantiationFailed(pc.name))
      case Some(memory) => Ok(Plugin(manifest, memory))
  }

  /** One iteration of the load loop: instantiate, describe, route the declared tools to this
      plugin (a tool routed to another plugin is fatal), then insert the plugin. A failed or
      unparsable description routes nothing but still loads the plugin. */
  function LoadOne(s: Service, pc: PluginConfig, skipSignature: bool, host: Host): (r: Result<Service, LoadError>)
    ensures Instantiate(pc, skipSignature, host).Err? ==> r == Err(Instantiate(pc, skipSignature, host).error)
    ensures r.Ok? ==> Instantiate(pc, skipSignature, host).Ok?
    ensures r.Ok? ==> r.value.plugins.Keys == s.plugins.Keys + {pc.name}
    ensures r.Ok? ==> forall n | n in s.plugins && n != pc.name :: r.value.plugins[n] == s.plugins[n]
    ensures r.Ok? ==> r.value.plugins[pc.name].manifest == Instantiate(pc, skipSignature, host).value.manifest
    ensures r.Ok? ==> forall t | t in s.toolIndex :: t in r.value.toolIndex && r.value.toolIndex[t] == s.toolIndex[t]
    ensures r.Ok? ==> forall t | t in r.value.toolIndex && t !in s.toolIndex :: r.value.toolIndex[t] == pc.name
    ensures r.Ok? && !host.describe(Instantiate(pc, skipSignature, host).value).outcome.Described? ==>
              r.value.toolIndex == s.toolIndex
    ensures r.Ok? && IndexConsistent(s) ==> IndexConsistent(r.value)
    ensures Instantiate(pc, skipSignature, host).Ok? &&
            !host.describe(Instantiate(pc, skipSignature, host).value).outcome.Described? ==>
              r.Ok?
    ensures r.Ok? ==> r.value.plugins[pc.name].memory == host.describe(Instantiate(pc, skipSignature, host).value).memory
    ensures Instantiate(pc, skipSignature, host).Ok? &&
            host.describe(Instantiate(pc, skipSignature, host).value).outcome.Described? ==>
              var tools := host.describe(Instantiate(pc, skipSignature, host).value).outcome.tools;
              && (r.Ok? <==> AllCompatible(s.toolIndex, pc.name, tools))
              && (r.Ok? ==> r.value.toolIndex == RouteAll(s.toolIndex, pc.name, NamesOf(tools)))
    ensures r.Err? ==> Culprit(r.error) == pc.name
    ensures r.Err? && r.error.ToolCollision? ==>
              && r.error.incoming == pc.name && r.error.existing != pc.name
              && r.error.tool in s.toolIndex && s.toolIndex[r.error.tool] == r.error.existing
  {
    var plugin :- Instantiate(pc, skipSignature, host);
    var described := host.describe(plugin);
    var loaded := plugin.(memory := described.memory);
    match described.outcome
    case Described(tools) =>
      (match RegisterTools(s.toolIndex, pc.name, tools)
       case Err(c) =>
         RegisterToolsCollision(s.toolIndex, pc.name, tools);
         Err(ToolCollision(c.tool, c.existing, c.incoming))
       case Ok(index) => Ok(Service(s.plugins[pc.name := loaded], index)))
    case _ => Ok(Service(s.plugins[pc.name := loaded], s.toolIndex))
  }

  /** The load loop from state `s` over `pcs`, in order, stopping at the first error. */
  function LoadAll(s: Service, pcs: seq<PluginConfig>, skipSignature: bool, host: Host): (r: Result<Service, LoadError>)
    ensures r.Err? ==> Culprit(r.error) in Names(pcs)
    decreases |pcs|
  {
    if pcs == [] then Ok(s)
    else
      NamesCons(pcs);
      match LoadOne(s, pcs[0], skipSignature, host)
      case Err(e) => Err(e)
      case Ok(s') => LoadAll(s', pcs[1..], skipSignature, host)
  }

  /** Unfolding the load loop once after a successful first plugin. */
  lemma LoadAllCons(s: Service, pcs: seq<PluginConfig>, skipSignature: bool, host: Host)
    requires pcs != [] && LoadOne(s, pcs[0], skipSignature, host).Ok?
    ensures LoadAll(s, pcs, skipSignature, host) == LoadAll(LoadOne(s, pcs[0], skipSignature, host).value, pcs[1..], skipSignature, host)
  {
  }

  /** Loading one more plugin continues from where the prefix left off. */
  lemma {:induction false} LoadAllSnoc(s: Service, pcs: seq<PluginConfig>, pc: PluginConfig, skipSignature: bool, host: Host)
    ensures LoadAll(s, pcs + [pc], skipSignature, host)
         == if LoadAll(s, pcs, skipSignature, host).Err? then LoadAll(s, pcs, skipSignature, host)
            else LoadOne(LoadAll(s, pcs, skipSignature, host).value, pc, skipSignature, host)
    decreases |pcs|
  {
    if pcs == [] {
      assert [pc][1..] == [];
    } else {
      assert (pcs + [pc])[1..] == pcs[1..] + [pc];
      match LoadOne(s, pcs[0], skipSignature, host)
      case Err(e) =>
      case Ok(s') => LoadAllSnoc(s', pcs[1..], pc, skipSignature, host);
    }
  }

  /** After a successful load every configured plugin is in the plugin map, those whose
      description failed or did not parse included, and nothing else was added. */
  lemma {:induction false} LoadAllNames(s: Service, pcs: seq<PluginConfig>, skipSignature: bool, host: Host)
    requires LoadAll(s, pcs, skipSignature, host).Ok?
    ensures LoadAll(s, pcs, skipSignature, host).value.plugins.Keys == s.plugins.Keys + Names(pcs)
    decreases |pcs|
  {
    if pcs != [] {
      var s1 := LoadOne(s, pcs[0], skipSignature, host).value;
      assert LoadAll(s, pcs, skipSignature, host) == LoadAll(s1, pcs[1..], skipSignature, host);
      LoadAllNames(s1, pcs[1..], skipSignature, host);
      NamesCons(pcs);
    }
  }

  /** Startup never shadows a tool: every route present before the load survives it. */
  lemma {:induction false} LoadAllKeepsRoutes(s: Service, pcs: seq<PluginConfig>, skipSignature: bool, host: Host)
    requires LoadAll(s, pcs, skipSignature, host).Ok?
    ensures var s' := LoadAll(s, pcs, skipSignature, host).value;
            forall t | t in s.toolIndex :: t in s'.toolIndex && s'.toolIndex[t] == s.toolIndex[t]
    decreases |pcs|
  {
    if pcs != [] {
      var s1 := LoadOne(s, pcs[0], skipSignature, host).value;
      LoadAllKeepsRoutes(s1, pcs[1..], skipSignature, host);
    }
  }

  /** The tool names plugin `pc` declares when it is loaded: none when it cannot be
      instantiated or its description fails or does not parse. */
  function Declared(pc: PluginConfig, skipSignature: bool, host: Host): set<string> {
    match Instantiate(pc, skipSignature, host)
    case Err(_) => {}
    case Ok(plugin) =>
      match host.describe(plugin).outcome
      case Described(tools) => NamesOf(tools)
      case _ => {}
  }

  /** After a successful load, every tool a configured plugin declares is routed to it. */
  ghost predicate RoutesDeclared(pcs: seq<PluginConfig>, skipSignature: bool, host: Host, index: map<string, string>) {
    forall i, k | 0 <= i < |pcs| && k in Declared(pcs[i], skipSignature, host) :: k in index && index[k] == pcs[i].name
  }

  /** One load iteration routes every tool the plugin declares to it. */
  lemma LoadOneRoutesDeclared(s: Service, pc: PluginConfig, skipSignature: bool, host: Host)
    requires LoadOne(s, pc, skipSignature, host).Ok?
    ensures var index := LoadOne(s, pc, skipSignature, host).value.toolIndex;
            forall k | k in Declared(pc, skipSignature, host) :: k in index && index[k] == pc.name
  {
  }

  /** The index is filled from the descriptions: a successful load routes every tool a
      configured plugin declares to that plugin. */
  lemma {:induction false} LoadAllRoutesDeclared(s: Service, pcs: seq<PluginConfig>, skipSignature: bool, host: Host)
    requires LoadAll(s, pcs, skipSignature, host).Ok?
    ensures RoutesDeclared(pcs, skipSignature, host, LoadAll(s, pcs, skipSignature, host).value.toolIndex)
    decreases |pcs|
  {
    if pcs != [] {
      var s1 := LoadOne(s, pcs[0], skipSignature, host).value;
      LoadAllCons(s, pcs, skipSignature, host);
      var index := LoadAll(s, pcs, skipSignature, host).value.toolIndex;
      LoadAllRoutesDeclared(s1, pcs[1..], skipSignature, host);
      LoadAllKeepsRoutes(s1, pcs[1..], skipSignature, host);
      LoadOneRoutesDeclared(s, pcs[0], skipSignature, host);
      forall i, k | 0 <= i < |pcs| && k in Declared(pcs[i], skipSignature, host)
        ensures k in index && index[k] == pcs[i].name
      {
        if i > 0 {
          assert pcs[i] == pcs[1..][i - 1];
        }
      }
    }
  }

  /** Every plugin of `pcs` can be loaded on top of `index`: it instantiates, none of the
      tools it declares is routed to another plugin in `index`, and two differently named
      plugins never declare the same tool. */
  ghost predicate Loadable(index: map<string, string>, pcs: seq<PluginConfig>, skipSignature: bool, host: Host) {
    && (forall i | 0 <= i < |pcs| :: Instantiate(pcs[i], skipSignature, host).Ok?)
    && (forall i, k | 0 <= i < |pcs| && k in Declared(pcs[i], skipSignature, host) :: Compatible(index, pcs[i].name, k))
    && (forall i, j, k | 0 <= i < j < |pcs| && pcs[i].name != pcs[j].name && k in Declared(pcs[i], skipSignature, host) ::
          k !in Declared(pcs[j], skipSignature, host))
  }

  /** One plugin that instantiates and declares only tools compatible with the index loads. */
  lemma LoadOneSucceeds(s: Service, pc: PluginConfig, skipSignature: bool, host: Host)
    requires Instantiate(pc, skipSignature, host).Ok?
    requires forall k | k in Declared(pc, skipSignature, host) :: Compatible(s.toolIndex, pc.name, k)
    ensures LoadOne(s, pc, skipSignature, host).Ok?
    ensures LoadOne(s, pc, skipSignature, host).value.toolIndex
         == RouteAll(s.toolIndex, pc.name, Declared(pc, skipSignature, host))
  {
    var plugin := Instantiate(pc, skipSignature, host).value;
    match host.describe(plugin).outcome
    case Described(tools) =>
      forall i | 0 <= i < |tools|
        ensures Compatible(s.toolIndex, pc.name, tools[i].name)
      {
        assert tools[i].name in NamesOf(tools);
      }
    case _ =>
      assert Declared(pc, skipSignature, host) == {};
      assert RouteAll(s.toolIndex, pc.name, {}) == s.toolIndex;
  }

  /** Conversely to fail-fast: a load in which every plugin instantiates, no declared tool is
      routed to another plugin beforehand, and no two differently named plugins declare the
      same tool, succeeds. */
  lemma {:induction false} LoadAllSucceeds(s: Service, pcs: seq<PluginConfig>, skipSignature: bool, host: Host)
    requires Loadable(s.toolIndex, pcs, skipSignature, host)
    ensures LoadAll(s, pcs, skipSignature, host).Ok?
    decreases |pcs|
  {
    if pcs != [] {
      LoadOneSucceeds(s, pcs[0], skipSignature, host);
      var s1 := LoadOne(s, pcs[0], skipSignature, host).value;
      LoadAllCons(s, pcs, skipSignature, host);
      var rest := pcs[1..];
      forall i, k | 0 <= i < |rest| && k in Declared(rest[i], skipSignature, host)
        ensures Compatible(s1.toolIndex, rest[i].name, k)
      {
        assert rest[i] == pcs[i + 1];
      }
      forall i, j, k | 0 <= i < j < |rest| && rest[i].name != rest[j].name && k in Declared(rest[i], skipSignature, host)
        ensures k !in Declared(rest[j], skipSignature, host)
      {
        assert rest[i] == pcs[i + 1] && rest[j] == pcs[j + 1];
      }
      assert Loadable(s1.toolIndex, rest, skipSignature, host);
      LoadAllSucceeds(s1, rest, skipSignature, host);
    }
  }

  /** A plugin that loads instantiated, and each tool it declares was compatible with the index. */
  lemma LoadOneLoadable(s: Service, pc: PluginConfig, skipSignature: bool, host: Host)
    requires LoadOne(s, pc, skipSignature, host).Ok?
    ensures Instantiate(pc, skipSignature, host).Ok?
    ensures forall k | k in Declared(pc, skipSignature, host) :: Compatible(s.toolIndex, pc.name, k)
  {
    var plugin := Instantiate(pc, skipSignature, host).value;
    match host.describe(plugin).outcome
    case Described(tools) =>
      forall k | k in Declared(pc, skipSignature, host)
        ensures Compatible(s.toolIndex, pc.name, k)
      {
        var i :| 0 <= i < |tools| && tools[i].name == k;
      }
    case _ =>
  }

  /** A successful load met only loadable plugins. */
  lemma {:induction false} LoadAllLoadable(s: Service, pcs: seq<PluginConfig>, skipSignature: bool, host: Host)
    requires LoadAll(s, pcs, skipSignature, host).Ok?
    ensures Loadable(s.toolIndex, pcs, skipSignature, host)
    decreases |pcs|
  {
    if pcs != [] {
      LoadOneLoadable(s, pcs[0], skipSignature, host);
      LoadOneRoutesDeclared(s, pcs[0], skipSignature, host);
      var s1 := LoadOne(s, pcs[0], skipSignature, host).value;
      LoadAllCons(s, pcs, skipSignature, host);
      var rest := pcs[1..];
      LoadAllLoadable(s1, rest, skipSignature, host);
      forall i | 0 <= i < |pcs|
        ensures Instantiate(pcs[i], skipSignature, host).Ok?
      {
        if i > 0 { assert pcs[i] == rest[i - 1]; }
      }
      forall i, k | 0 <= i < |pcs| && k in Declared(pcs[i], skipSignature, host)
        ensures Compatible(s.toolIndex, pcs[i].name, k)
      {
        if i > 0 { assert pcs[i] == rest[i - 1]; }
      }
      forall i, j, k | 0 <= i < j < |pcs| && pcs[i].name != pcs[j].name && k in Declared(pcs[i], skipSignature, host)
        ensures k !in Declared(pcs[j], skipSignature, host)
      {
        assert pcs[j] == rest[j - 1];
        if i > 0 { assert pcs[i] == rest[i - 1]; }
      }
    }
  }

  /** The startup load succeeds exactly when its plugins are loadable on top of the index. */
  lemma LoadAllOkIffLoadable(s: Service, pcs: seq<PluginConfig>, skipSignature: bool, host: Host)
    ensures LoadAll(s, pcs, skipSignature, host).Ok? <==> Loadable(s.toolIndex, pcs, skipSignature, host)
  {
    if Loadable(s.toolIndex, pcs, skipSignature, host) {
      LoadAllSucceeds(s, pcs, skipSignature, host);
    }
    if LoadAll(s, pcs, skipSignature, host).Ok? {
      LoadAllLoadable(s, pcs, skipSignature, host);
    }
  }

  /** Loading keeps the routing index pointing only at loaded plugins. */
  lemma {:induction false} LoadAllConsistent(s: Service, pcs: seq<PluginConfig>, skipSignature: bool, host: Host)
    requires IndexConsistent(s)
    requires LoadAll(s, pcs, skipSignature, host).Ok?
    ensures IndexConsistent(LoadAll(s, pcs, skipSignature, host).value)
    decreases |pcs|
  {
    if pcs != [] {
      var s1 := LoadOne(s, pcs[0], skipSignature, host).value;
      LoadAllConsistent(s1, pcs[1..], skipSignature, host);
    }
  }

  /** Plugin `i` is where the load stops: its predecessors all loaded, and loading it on top
      of them gives the load's result. */
  ghost predicate StopsAt(s: Service, pcs: seq<PluginConfig>, skipSignature: bool, host: Host, i: int) {
    && 0 <= i < |pcs|
    && LoadAll(s, pcs[..i], skipSignature, host).Ok?
    && LoadOne(LoadAll(s, pcs[..i], skipSignature, host).value, pcs[i], skipSignature, host)
       == LoadAll(s, pcs, skipSignature, host)
  }

  lemma StopsAtCons(s: Service, pcs: seq<PluginConfig>, skipSignature: bool, host: Host, i: int)
    requires pcs != [] && LoadOne(s, pcs[0], skipSignature, host).Ok?
    requires StopsAt(LoadOne(s, pcs[0], skipSignature, host).value, pcs[1..], skipSignature, host, i)
    ensures StopsAt(s, pcs, skipSignature, host, i + 1)
  {
    var p := pcs[..i + 1];
    assert p != [] && p[0] == pcs[0] && p[1..] == pcs[1..][..i];
    LoadAllCons(s, p, skipSignature, host);
    LoadAllCons(s, pcs, skipSignature, host);
    assert pcs[i + 1] == pcs[1..][i];
  }

  /** Loading is fail-fast and in order: an error is the error of some plugin `i` whose
      predecessors all loaded, met while loading `i` on top of them. */
  lemma {:induction false} LoadAllFailFast(s: Service, pcs: seq<PluginConfig>, skipSignature: bool, host: Host)
    requires LoadAll(s, pcs, skipSignature, host).Err?
    ensures exists i :: StopsAt(s, pcs, skipSignature, host, i)
    decreases |pcs|
  {
    match LoadOne(s, pcs[0], skipSignature, host)
    case Err(e) =>
      assert pcs[..0] == [];
      assert StopsAt(s, pcs, skipSignature, host, 0);
    case Ok(s1) =>
      LoadAllFailFast(s1, pcs[1..], skipSignature, host);
      var i :| StopsAt(s1, pcs[1..], skipSignature, host, i);
      StopsAtCons(s, pcs, skipSignature, host, i);
  }

  /** Once a plugin has failed, no later plugin is acquired, instantiated or described: the
      result does not depend on what follows. */
  lemma {:induction false} LoadAllIgnoresRest(s: Service, pcs: seq<PluginConfig>, rest: seq<PluginConfig>, skipSignature: bool, host: Host)
    requires LoadAll(s, pcs, skipSignature, host).Err?
    ensures LoadAll(s, pcs + rest, skipSignature, host) == LoadAll(s, pcs, skipSignature, host)
    decreases |pcs|
  {
    assert (pcs + rest)[0] == pcs[0];
    assert (pcs + rest)[1..] == pcs[1..] + rest;
    match LoadOne(s, pcs[0], skipSignature, host)
    case Err(e) =>
    case Ok(s1) => LoadAllIgnoresRest(s1, pcs[1..], rest, skipSignature, host);
  }

  /** Two plugins declaring the same tool: the collision is reported on the second one, in
      configuration order, naming the first as the existing owner. */
  lemma CollisionOnSecond(a: PluginConfig, b: PluginConfig, ta: Tool, tb: Tool, skipSignature: bool, host: Host)
    requires a.name != b.name && ta.name == tb.name
    requires Instantiate(a, skipSignature, host).Ok? && Instantiate(b, skipSignature, host).Ok?
    requires host.describe(Instantiate(a, skipSignature, host).value).outcome == Described([ta])
    requires host.describe(Instantiate(b, skipSignature, host).value).outcome == Described([tb])
    ensures LoadAll(EmptyService, [a, b], skipSignature, host) == Err(ToolCollision(ta.name, a.name, b.name))
  {
    var s1 := LoadOne(EmptyService, a, skipSignature, host);
    assert RegisterTools(map[], a.name, [ta]) == Ok(map[ta.name := a.name]);
    assert s1.Ok? && s1.value.toolIndex == map[ta.name := a.name];
    assert [a, b][1..] == [b];
    assert [b][1..] == [];
  }

  /** The loop's step: loading plugin `i` on top of its predecessors' state extends the
      prefix by one. */
  lemma LoadAllStep(s0: Service, pcs: seq<PluginConfig>, i: nat, s: Service, skipSignature: bool, host: Host)
    requires i < |pcs| && LoadAll(s0, pcs[..i], skipSignature, host) == Ok(s)
    ensures LoadAll(s0, pcs[..i + 1], skipSignature, host) == LoadOne(s, pcs[i], skipSignature, host)
  {
    var pre := pcs[..i];
    assert pcs[..i + 1] == pre + [pcs[i]];
    LoadAllSnoc(s0, pre, pcs[i], skipSignature, host);
  }

  /** An error while loading plugin `i` is the error of the whole load. */
  lemma LoadAllStopsAt(s0: Service, pcs: seq<PluginConfig>, i: nat, skipSignature: bool, host: Host)
    requires i < |pcs| && LoadAll(s0, pcs[..i + 1], skipSignature, host).Err?
    ensures LoadAll(s0, pcs, skipSignature, host) == LoadAll(s0, pcs[..i + 1], skipSignature, host)
  {
    LoadAllIgnoresRest(s0, pcs[..i + 1], pcs[i + 1..], skipSignature, host);
    assert pcs[..i + 1] + pcs[i + 1..] == pcs;
  }

  /** `PluginService::new`: the load loop over the configuration, from an empty service. */
  method LoadPlugins(cfg: Config, host: Host) returns (r: Result<Service, LoadError>)
    ensures r == LoadAll(EmptyService, cfg.plugins, cfg.insecureSkipSignature, host)
    ensures r.Ok? ==> r.value.plugins.Keys == Names(cfg.plugins) && IndexConsistent(r.value)
  {
    var s := EmptyService;
    var i := 0;
    while i < |cfg.plugins|
      invariant 0 <= i <= |cfg.plugins|
      invariant LoadAll(EmptyService, cfg.plugins[..i], cfg.insecureSkipSignature, host) == Ok(s)
    {
      var step := LoadOne(s, cfg.plugins[i], cfg.insecureSkipSignature, host);
      LoadAllStep(EmptyService, cfg.plugins, i, s, cfg.insecureSkipSignature, host);
      if step.Err? {
        LoadAllStopsAt(EmptyService, cfg.plugins, i, cfg.insecureSkipSignature, host);
        return step;
      }
      s := step.value;
      i := i + 1;
    }
    assert cfg.plugins[..i] == cfg.plugins;
    LoadAllNames(EmptyService, cfg.plugins, cfg.insecureSkipSignature, host);
    LoadAllConsistent(EmptyService, cfg.plugins, cfg.insecureSkipSignature, host);
    return Ok(s);
  }
}
