/** The plugin service's state: the plugin map and the tool routing index
    (`PluginService`, src/plugins.rs), and the two ways a plugin's tools enter the index. */
module Services {
  import opened Basics
  import opened Manifests

  /** A tool as a plugin describes it; only the name matters for routing. */
  datatype Tool = Tool(name: string, description: string, inputSchema: string)

  /** An instantiated sandboxed module: its manifest, and the sandbox memory that each call
      into the module may change. */
  datatype Plugin = Plugin(manifest: Manifest, memory: Bytes)

  /** The plugin map (name to plugin) and the routing index (tool name to plugin name). */
  datatype Service = Service(plugins: map<string, Plugin>, toolIndex: map<string, string>)

  /** What a `describe` call gave: the call failed, its answer did not parse as a tool list,
      or the tools it declares. */
  datatype DescribeOutcome =
    | DescribeFailed(cause: string)
    | DescribeMalformed(cause: string)
    | Described(tools: seq<Tool>)

  /** A `describe` call's outcome together with the module's memory after the call. */
  datatype DescribeReturn = DescribeReturn(memory: Bytes, outcome: DescribeOutcome)

  /** Tool `tool` is already routed to `existing` when plugin `incoming` declares it. */
  datatype Collision = Collision(tool: string, existing: string, incoming: string)

  const EmptyService := Service(map[], map[])

  /** The routing index only points at loaded plugins. */
  predicate IndexConsistent(s: Service) {
    forall t | t in s.toolIndex :: s.toolIndex[t] in s.plugins
  }

  function NamesOf(tools: seq<Tool>): set<string> {
    set i | 0 <= i < |tools| :: tools[i].name
  }

  /** Registering `name` for `owner` does not shadow another plugin's tool. */
  predicate Compatible(index: map<string, string>, owner: string, name: string) {
    name !in index || index[name] == owner
  }

  /** `index` with every name in `names` routed to `owner`. */
  function RouteAll(index: map<string, string>, owner: string, names: set<string>): map<string, string> {
    index + map n | n in names :: owner
  }

  /** Routing one more name first is the same as routing it along with the rest. */
  lemma RouteAllUpdate(index: map<string, string>, owner: string, name: string, names: set<string>)
    ensures RouteAll(index[name := owner], owner, names) == RouteAll(index, owner, {name} + names)
  {
  }

  /** Routing names that already route to `owner` changes nothing. */
  lemma RouteAllOwned(index: map<string, string>, owner: string, names: set<string>)
    requires forall n | n in names :: n in index && index[n] == owner
    ensures RouteAll(index, owner, names) == index
  {
  }

  lemma NamesOfCons(tools: seq<Tool>)
    requires tools != []
    ensures NamesOf(tools) == {tools[0].name} + NamesOf(tools[1..])
  {
  }

  predicate AllCompatible(index: map<string, string>, owner: string, tools: seq<Tool>) {
    forall i | 0 <= i < |tools| :: Compatible(index, owner, tools[i].name)
  }

  /** Routing a compatible name to its owner keeps the remaining tools' compatibility as it was. */
  lemma AllCompatibleTail(index: map<string, string>, owner: string, tools: seq<Tool>)
    requires tools != [] && Compatible(index, owner, tools[0].name)
    ensures AllCompatible(index[tools[0].name := owner], owner, tools[1..]) <==> AllCompatible(index, owner, tools)
  {
  }

  /** The startup insertion loop: each declared tool is routed to `owner`, and a tool already
      routed to a different plugin is a fatal collision. It succeeds exactly when no declared
      tool collides with the index as it was before the call, and it then routes exactly the
      declared names to `owner`. */
  function RegisterTools(index: map<string, string>, owner: string, tools: seq<Tool>): (r: Result<map<string, string>, Collision>)
    ensures r.Ok? <==> AllCompatible(index, owner, tools)
    ensures r.Ok? ==> r.value == RouteAll(index, owner, NamesOf(tools))
    decreases |tools|
  {
    if tools == [] then Ok(index)
    else
      var name := tools[0].name;
      if name in index && index[name] != owner then Err(Collision(name, index[name], owner))
      else
        var r := RegisterTools(index[name := owner], owner, tools[1..]);
        AllCompatibleTail(index, owner, tools);
        NamesOfCons(tools);
        RouteAllUpdate(index, owner, name, NamesOf(tools[1..]));
        r
  }

  /** A startup collision names the first declared tool that is routed to another plugin:
      the plugin being registered is the incoming one, the index's owner the existing one. */
  lemma {:induction false} RegisterToolsCollision(index: map<string, string>, owner: string, tools: seq<Tool>)
    requires RegisterTools(index, owner, tools).Err?
    ensures var c := RegisterTools(index, owner, tools).error;
            exists i | 0 <= i < |tools| ::
              && tools[i].name == c.tool
              && (forall j | 0 <= j < i :: Compatible(index, owner, tools[j].name))
              && c.tool in index && index[c.tool] == c.existing
              && c.existing != owner && c.incoming == owner
    decreases |tools|
  {
    var name := tools[0].name;
    if name in index && index[name] != owner {
      assert tools[0].name == name;
    } else {
      var index' := index[name := owner];
      var c := RegisterTools(index, owner, tools).error;
      assert RegisterTools(index', owner, tools[1..]).error == c;
      RegisterToolsCollision(index', owner, tools[1..]);
      var i :| 0 <= i < |tools[1..]| && tools[1..][i].name == c.tool
               && (forall j | 0 <= j < i :: Compatible(index', owner, tools[1..][j].name))
               && c.tool in index' && index'[c.tool] == c.existing
               && c.existing != owner && c.incoming == owner;
      assert tools[i + 1].name == c.tool;
      forall j | 0 <= j < i + 1
        ensures Compatible(index, owner, tools[j].name)
      {
        if j > 0 {
          assert tools[j] == tools[1..][j - 1];
        }
      }
    }
  }

  /** The re-enumeration insertion loop: each declared tool is routed to `owner`, overwriting
      whatever the index held for that name. */
  function InsertTools(index: map<string, string>, owner: string, tools: seq<Tool>): (r: map<string, string>)
    ensures r == RouteAll(index, owner, NamesOf(tools))
    decreases |tools|
  {
    if tools == [] then index
    else
      var r := InsertTools(index[tools[0].name := owner], owner, tools[1..]);
      NamesOfCons(tools);
      RouteAllUpdate(index, owner, tools[0].name, NamesOf(tools[1..]));
      r
  }

  /** Where the startup check passes, it routes exactly as the unchecked loop does. */
  lemma RegisterAgreesWithInsert(index: map<string, string>, owner: string, tools: seq<Tool>)
    requires RegisterTools(index, owner, tools).Ok?
    ensures RegisterTools(index, owner, tools).value == InsertTools(index, owner, tools)
  {
  }

  /** A plugin may declare its own tools again, any number of times. */
  lemma ReRegisterOwnTools(index: map<string, string>, owner: string, tools: seq<Tool>)
    requires forall i | 0 <= i < |tools| :: tools[i].name in index && index[tools[i].name] == owner
    ensures RegisterTools(index, owner, tools) == Ok(index)
  {
    RouteAllOwned(index, owner, NamesOf(tools));
  }
}
