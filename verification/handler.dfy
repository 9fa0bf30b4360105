/** The two request-facing operations of the service (`ServerHandler::call_tool` and
    `ServerHandler::list_tools`, src/plugins.rs), each an atomic step on the plugin map and
    the routing index. */
module Handler {
  import opened Basics
  import opened Services

  /** An incoming tool invocation: the tool's name and its arguments (opaque JSON text). */
  datatype CallRequest = CallRequest(name: string, arguments: Option<string>)

  /** The payload handed to the plugin's `call` entry point: `{"params": request}`. */
  datatype Envelope = Envelope(params: CallRequest)

  /** A plugin's answer to a call, opaque to the service beyond being well formed. */
  datatype ToolResult = ToolResult(content: seq<string>, isError: Option<bool>)

  /** What a `call` gave: the sandbox reported a failure, the answer did not parse, or a result. */
  datatype CallOutcome =
    | ExecFailed(cause: string)
    | ResultMalformed(cause: string)
    | Returned(result: ToolResult)

  /** A `call`'s outcome together with the module's memory after the call. */
  datatype CallReturn = CallReturn(memory: Bytes, outcome: CallOutcome)

  /** The typed errors a tool invocation reports to the caller. */
  datatype DispatchError =
    | MethodNotFound
    | PluginCallFailed(plugin: string, cause: string)
    | DeserializeFailed(cause: string)

  /** The `unwrap` on a plugin's self-description that does not parse as a tool list. */
  datatype ListError = DescribeUnparsable(plugin: string, cause: string)

  /** The service after a request, and the request's answer. */
  datatype Reply<T, E> = Reply(after: Service, result: Result<T, E>)

  /** `tool` routes to a plugin that is loaded. */
  predicate Routed(s: Service, tool: string) {
    tool in s.toolIndex && s.toolIndex[tool] in s.plugins
  }

  /** Invoke a tool: find its plugin through the routing index and the plugin map, call it with
      the request wrapped in an envelope, and report the result or a typed error. Only the
      called plugin's memory can change; neither map gains or loses a key. */
  function CallTool(s: Service, request: CallRequest, call: (Plugin, Envelope) -> CallReturn): (r: Reply<ToolResult, DispatchError>)
    ensures r.after.toolIndex == s.toolIndex
    ensures r.after.plugins.Keys == s.plugins.Keys
    ensures forall n | n in s.plugins :: r.after.plugins[n].manifest == s.plugins[n].manifest
    ensures forall n | n in s.plugins && !(Routed(s, request.name) && n == s.toolIndex[request.name]) ::
              r.after.plugins[n] == s.plugins[n]
    ensures r.result == Err(MethodNotFound) <==> !Routed(s, request.name)
    ensures !Routed(s, request.name) ==> r.after == s
    ensures Routed(s, request.name) ==>
              var owner := s.toolIndex[request.name];
              var ret := call(s.plugins[owner], Envelope(request));
              && r.after.plugins[owner].memory == ret.memory
              && (r.result.Ok? <==> ret.outcome.Returned?)
              && (r.result.Ok? ==> r.result.value == ret.outcome.result)
              && (ret.outcome.ExecFailed? ==> r.result == Err(PluginCallFailed(owner, ret.outcome.cause)))
              && (ret.outcome.ResultMalformed? ==> r.result == Err(DeserializeFailed(ret.outcome.cause)))
  {
    if Routed(s, request.name) then
      var owner := s.toolIndex[request.name];
      var ret := call(s.plugins[owner], Envelope(request));
      var after := s.(plugins := s.plugins[owner := s.plugins[owner].(memory := ret.memory)]);
      match ret.outcome
      case Returned(result) => Reply(after, Ok(result))
      case ResultMalformed(cause) => Reply(after, Err(DeserializeFailed(cause)))
      case ExecFailed(cause) => Reply(after, Err(PluginCallFailed(owner, cause)))
    else Reply(s, Err(MethodNotFound))
  }

  /** With a consistent index, "not found" means exactly that no plugin declared the tool. */
  lemma NotFoundIffUnrouted(s: Service, request: CallRequest, call: (Plugin, Envelope) -> CallReturn)
    requires IndexConsistent(s)
    ensures CallTool(s, request, call).result == Err(MethodNotFound) <==> request.name !in s.toolIndex
    ensures IndexConsistent(CallTool(s, request, call).after)
  {
  }

  /** `order` visits every key of the plugin map exactly once: the map's iteration order. */
  predicate IsEnumeration(order: seq<string>, keys: set<string>) {
    && (forall i | 0 <= i < |order| :: order[i] in keys)
    && (forall n | n in keys :: n in order)
    && (forall i, j | 0 <= i < j < |order| :: order[i] != order[j])
  }

  /** The tools a plugin's description declares, or none when the call failed or did not parse. */
  function ListedBy(plugins: map<string, Plugin>, describe: Plugin -> DescribeReturn, name: string): seq<Tool>
    requires name in plugins
  {
    match describe(plugins[name]).outcome
    case Described(tools) => tools
    case _ => []
  }

  /** The tools listed by the plugins of `order`, concatenated in that order. */
  function ListedAlong(plugins: map<string, Plugin>, describe: Plugin -> DescribeReturn, order: seq<string>): seq<Tool>
    requires forall i | 0 <= i < |order| :: order[i] in plugins
    decreases |order|
  {
    if order == [] then []
    else ListedBy(plugins, describe, order[0]) + ListedAlong(plugins, describe, order[1..])
  }

  lemma {:induction false} ListedAlongAppend(plugins: map<string, Plugin>, describe: Plugin -> DescribeReturn, a: seq<string>, b: seq<string>)
    requires forall i | 0 <= i < |a| :: a[i] in plugins
    requires forall i | 0 <= i < |b| :: b[i] in plugins
    ensures ListedAlong(plugins, describe, a + b) == ListedAlong(plugins, describe, a) + ListedAlong(plugins, describe, b)
    decreases |a|
  {
    if a == [] {
      assert a + b == b;
    } else {
      assert (a + b)[0] == a[0];
      assert (a + b)[1..] == a[1..] + b;
      ListedAlongAppend(plugins, describe, a[1..], b);
    }
  }

  lemma MultisetRemove(o1: seq<string>, o2: seq<string>, j: int)
    requires o1 != [] && 0 <= j < |o2| && o2[j] == o1[0] && multiset(o1) == multiset(o2)
    ensures multiset(o1[1..]) == multiset(o2[..j] + o2[j + 1..])
  {
    assert o1 == [o1[0]] + o1[1..];
    assert o2 == o2[..j] + [o2[j]] + o2[j + 1..];
    var rest2 := o2[..j] + o2[j + 1..];
    forall y
      ensures multiset(o1[1..])[y] == multiset(rest2)[y]
    {
      assert multiset(o1)[y] == multiset(o2)[y];
    }
  }

  /** Taking plugin `j` out of the iteration takes exactly its tools out of the listing. */
  lemma ListedAlongRemove(plugins: map<string, Plugin>, describe: Plugin -> DescribeReturn, o: seq<string>, j: int)
    requires forall i | 0 <= i < |o| :: o[i] in plugins
    requires 0 <= j < |o|
    ensures multiset(ListedAlong(plugins, describe, o))
         == multiset(ListedBy(plugins, describe, o[j])) + multiset(ListedAlong(plugins, describe, o[..j] + o[j + 1..]))
  {
    var tail := [o[j]] + o[j + 1..];
    assert o == o[..j] + tail;
    ListedAlongAppend(plugins, describe, o[..j], tail);
    ListedAlongAppend(plugins, describe, o[..j], o[j + 1..]);
    assert tail[0] == o[j] && tail[1..] == o[j + 1..];
  }

  /** Visiting the same plugins in another order lists the same tools, up to ordering. */
  lemma {:induction false} ListedAlongPermutation(plugins: map<string, Plugin>, describe: Plugin -> DescribeReturn, o1: seq<string>, o2: seq<string>)
    requires forall i | 0 <= i < |o1| :: o1[i] in plugins
    requires forall i | 0 <= i < |o2| :: o2[i] in plugins
    requires multiset(o1) == multiset(o2)
    ensures multiset(ListedAlong(plugins, describe, o1)) == multiset(ListedAlong(plugins, describe, o2))
    decreases |o1|
  {
    if o1 == [] {
      assert |o2| == |multiset(o2)| == 0;
    } else {
      assert o1[0] in multiset(o2);
      var j :| 0 <= j < |o2| && o2[j] == o1[0];
      MultisetRemove(o1, o2, j);
      var rest2 := o2[..j] + o2[j + 1..];
      assert forall i | 0 <= i < |rest2| :: rest2[i] in plugins by {
        forall i | 0 <= i < |rest2|
          ensures rest2[i] in plugins
        {
          if i < j { assert rest2[i] == o2[i]; } else { assert rest2[i] == o2[i + 1]; }
        }
      }
      ListedAlongPermutation(plugins, describe, o1[1..], rest2);
      ListedAlongRemove(plugins, describe, o2, j);
    }
  }

  /** A sequence without repetitions holds each of its elements once. */
  lemma {:induction false} DistinctOnce(o: seq<string>, x: string)
    requires forall i, j | 0 <= i < j < |o| :: o[i] != o[j]
    ensures multiset(o)[x] == if x in o then 1 else 0
    decreases |o|
  {
    if o != [] {
      assert o == [o[0]] + o[1..];
      DistinctOnce(o[1..], x);
      if x == o[0] {
        assert x !in o[1..] by {
          forall k | 0 <= k < |o[1..]|
            ensures o[1..][k] != x
          {
            assert o[1..][k] == o[k + 1];
          }
        }
      }
    }
  }

  /** Two iteration orders of the same map visit the same plugins, once each. */
  lemma EnumerationsArePermutations(o1: seq<string>, o2: seq<string>, keys: set<string>)
    requires IsEnumeration(o1, keys) && IsEnumeration(o2, keys)
    ensures multiset(o1) == multiset(o2)
  {
    forall x
      ensures multiset(o1)[x] == multiset(o2)[x]
    {
      DistinctOnce(o1, x);
      DistinctOnce(o2, x);
    }
  }

  /** The progress of the rebuild loop: the index so far, the tools listed so far, the plugins
      described so far, and the panic that ended the loop, if any. */
  datatype Rebuild = Rebuild(
    index: map<string, string>,
    listed: seq<Tool>,
    described: set<string>,
    panic: Option<ListError>)

  /** The rebuild loop of `list_tools` over the plugins in `order`, starting from an empty
      index: a failed description is skipped, an unparsable one panics, and each listed
      tool is routed to its plugin, a later plugin overwriting an earlier one. */
  function RebuildIndex(plugins: map<string, Plugin>, order: seq<string>, describe: Plugin -> DescribeReturn): (r: Rebuild)
    requires forall i | 0 <= i < |order| :: order[i] in plugins
    ensures r.panic.Some? ==> && r.panic.value.plugin in plugins
                              && describe(plugins[r.panic.value.plugin]).outcome == DescribeMalformed(r.panic.value.cause)
    decreases |order|
  {
    if order == [] then Rebuild(map[], [], {}, None)
    else
      var prev := RebuildIndex(plugins, order[..|order| - 1], describe);
      if prev.panic.Some? then prev
      else
        var name := order[|order| - 1];
        var prev := prev.(described := prev.described + {name});
        match describe(plugins[name]).outcome
        case DescribeFailed(_) => prev
        case DescribeMalformed(cause) => prev.(panic := Some(DescribeUnparsable(name, cause)))
        case Described(tools) => prev.(index := InsertTools(prev.index, name, tools), listed := prev.listed + tools)
  }

  /** Only plugins of `order` are described, and all of them unless the loop panicked; it
      panics exactly when some description does not parse, and then on such a plugin. */
  ghost predicate ProgressOk(plugins: map<string, Plugin>, order: seq<string>, describe: Plugin -> DescribeReturn, r: Rebuild)
    requires forall i | 0 <= i < |order| :: order[i] in plugins
  {
    && (forall n | n in r.described :: n in order)
    && (r.panic.None? ==> forall i | 0 <= i < |order| :: order[i] in r.described)
    && (r.panic.None? <==> forall i | 0 <= i < |order| :: !describe(plugins[order[i]]).outcome.DescribeMalformed?)
    && (r.panic.Some? ==> && r.panic.value.plugin in r.described
                          && describe(plugins[r.panic.value.plugin]).outcome == DescribeMalformed(r.panic.value.cause))
  }

  /** Every route points at a described, loaded plugin whose description lists the tool. */
  ghost predicate RoutesListed(plugins: map<string, Plugin>, describe: Plugin -> DescribeReturn, r: Rebuild) {
    forall k | k in r.index :: && r.index[k] in r.described && r.index[k] in plugins
                               && k in NamesOf(ListedBy(plugins, describe, r.index[k]))
  }

  /** Every tool a plugin of `order` lists is routed, and the listed tools are exactly those. */
  ghost predicate CoversListed(plugins: map<string, Plugin>, order: seq<string>, describe: Plugin -> DescribeReturn, r: Rebuild)
    requires forall i | 0 <= i < |order| :: order[i] in plugins
  {
    forall i, k | 0 <= i < |order| && k in NamesOf(ListedBy(plugins, describe, order[i])) :: k in r.index
  }

  ghost predicate ListsExactly(plugins: map<string, Plugin>, order: seq<string>, describe: Plugin -> DescribeReturn, r: Rebuild)
    requires forall i | 0 <= i < |order| :: order[i] in plugins
  {
    forall t :: t in r.listed <==> exists i | 0 <= i < |order| :: t in ListedBy(plugins, describe, order[i])
  }

  /** `order[i]` is the last plugin in `order` whose description lists tool `k`. */
  ghost predicate LastLister(plugins: map<string, Plugin>, order: seq<string>, describe: Plugin -> DescribeReturn, k: string, i: int)
    requires forall i | 0 <= i < |order| :: order[i] in plugins
  {
    && 0 <= i < |order|
    && k in NamesOf(ListedBy(plugins, describe, order[i]))
    && forall j | i < j < |order| :: k !in NamesOf(ListedBy(plugins, describe, order[j]))
  }

  /** Each route names the last plugin in `order` whose description lists the tool. */
  ghost predicate LastWriterOwns(plugins: map<string, Plugin>, order: seq<string>, describe: Plugin -> DescribeReturn, r: Rebuild)
    requires forall i | 0 <= i < |order| :: order[i] in plugins
  {
    forall k | k in r.index :: exists i :: LastLister(plugins, order, describe, k, i) && order[i] == r.index[k]
  }

  /** A last lister of a prefix stays the last lister when the next plugin does not list the tool. */
  lemma LastListerExtend(plugins: map<string, Plugin>, order: seq<string>, describe: Plugin -> DescribeReturn, k: string, i: int)
    requires forall i | 0 <= i < |order| :: order[i] in plugins
    requires order != []
    requires LastLister(plugins, order[..|order| - 1], describe, k, i)
    requires k !in NamesOf(ListedBy(plugins, describe, order[|order| - 1]))
    ensures LastLister(plugins, order, describe, k, i)
  {
  }

  lemma {:induction false} RebuildProgress(plugins: map<string, Plugin>, order: seq<string>, describe: Plugin -> DescribeReturn)
    requires forall i | 0 <= i < |order| :: order[i] in plugins
    ensures ProgressOk(plugins, order, describe, RebuildIndex(plugins, order, describe))
    decreases |order|
  {
    if order != [] {
      var init := order[..|order| - 1];
      assert forall i | 0 <= i < |init| :: init[i] == order[i];
      RebuildProgress(plugins, init, describe);
    }
  }

  lemma {:induction false} RebuildRoutes(plugins: map<string, Plugin>, order: seq<string>, describe: Plugin -> DescribeReturn)
    requires forall i | 0 <= i < |order| :: order[i] in plugins
    ensures RoutesListed(plugins, describe, RebuildIndex(plugins, order, describe))
    decreases |order|
  {
    if order != [] {
      var init := order[..|order| - 1];
      assert forall i | 0 <= i < |init| :: init[i] == order[i];
      RebuildRoutes(plugins, init, describe);
      var prev := RebuildIndex(plugins, init, describe);
      var name := order[|order| - 1];
      var r := RebuildIndex(plugins, order, describe);
      if prev.panic.None? && describe(plugins[name]).outcome.Described? {
        var tools := describe(plugins[name]).outcome.tools;
        assert r.index == RouteAll(prev.index, name, NamesOf(tools));
        assert ListedBy(plugins, describe, name) == tools;
        assert r.described == prev.described + {name};
        forall k | k in r.index
          ensures && r.index[k] in r.described && r.index[k] in plugins
                  && k in NamesOf(ListedBy(plugins, describe, r.index[k]))
        {
          if k !in NamesOf(tools) {
            assert r.index[k] == prev.index[k];
          }
        }
      }
    }
  }

  lemma {:induction false} RebuildCovers(plugins: map<string, Plugin>, order: seq<string>, describe: Plugin -> DescribeReturn)
    requires forall i | 0 <= i < |order| :: order[i] in plugins
    ensures RebuildIndex(plugins, order, describe).panic.None? ==>
              CoversListed(plugins, order, describe, RebuildIndex(plugins, order, describe))
    decreases |order|
  {
    if order != [] {
      var init := order[..|order| - 1];
      assert forall i | 0 <= i < |init| :: init[i] == order[i];
      RebuildCovers(plugins, init, describe);
      var prev := RebuildIndex(plugins, init, describe);
      var name := order[|order| - 1];
      var r := RebuildIndex(plugins, order, describe);
      if r.panic.None? {
        assert prev.panic.None?;
        var tools := ListedBy(plugins, describe, name);
        assert r.index.Keys == prev.index.Keys + NamesOf(tools);
        forall i, k | 0 <= i < |order| && k in NamesOf(ListedBy(plugins, describe, order[i]))
          ensures k in r.index
        {
          if i < |init| {
            assert ListedBy(plugins, describe, init[i]) == ListedBy(plugins, describe, order[i]);
          }
        }
      }
    }
  }

  lemma {:induction false} RebuildListsExactly(plugins: map<string, Plugin>, order: seq<string>, describe: Plugin -> DescribeReturn)
    requires forall i | 0 <= i < |order| :: order[i] in plugins
    ensures RebuildIndex(plugins, order, describe).panic.None? ==>
              ListsExactly(plugins, order, describe, RebuildIndex(plugins, order, describe))
    decreases |order|
  {
    if order != [] {
      var init := order[..|order| - 1];
      assert forall i | 0 <= i < |init| :: init[i] == order[i];
      RebuildListsExactly(plugins, init, describe);
      var prev := RebuildIndex(plugins, init, describe);
      var name := order[|order| - 1];
      var r := RebuildIndex(plugins, order, describe);
      if r.panic.None? {
        assert prev.panic.None?;
        var tools := ListedBy(plugins, describe, name);
        assert r.listed == prev.listed + tools;
        forall t
          ensures t in r.listed <==> exists i | 0 <= i < |order| :: t in ListedBy(plugins, describe, order[i])
        {
          if t in prev.listed {
            var i :| 0 <= i < |init| && t in ListedBy(plugins, describe, init[i]);
            assert order[i] == init[i];
          } else if t in tools {
            assert order[|order| - 1] == name;
          }
          if exists i | 0 <= i < |order| :: t in ListedBy(plugins, describe, order[i]) {
            var i :| 0 <= i < |order| && t in ListedBy(plugins, describe, order[i]);
            if i < |init| {
              assert order[i] == init[i];
              assert t in ListedBy(plugins, describe, init[i]);
            }
          }
        }
      }
    }
  }

  /** Without a panic, the listed tools are each plugin's tools, concatenated in iteration order. */
  lemma {:induction false} RebuildListsInOrder(plugins: map<string, Plugin>, order: seq<string>, describe: Plugin -> DescribeReturn)
    requires forall i | 0 <= i < |order| :: order[i] in plugins
    ensures RebuildIndex(plugins, order, describe).panic.None? ==>
              RebuildIndex(plugins, order, describe).listed == ListedAlong(plugins, describe, order)
    decreases |order|
  {
    if order != [] {
      var init := order[..|order| - 1];
      var last := order[|order| - 1];
      assert forall i | 0 <= i < |init| :: init[i] == order[i];
      RebuildListsInOrder(plugins, init, describe);
      assert order == init + [last];
      ListedAlongAppend(plugins, describe, init, [last]);
      assert ListedAlong(plugins, describe, [last]) == ListedBy(plugins, describe, last) + ListedAlong(plugins, describe, []);
    }
  }

  lemma {:induction false} RebuildLastWriter(plugins: map<string, Plugin>, order: seq<string>, describe: Plugin -> DescribeReturn)
    requires forall i | 0 <= i < |order| :: order[i] in plugins
    ensures RebuildIndex(plugins, order, describe).panic.None? ==>
              LastWriterOwns(plugins, order, describe, RebuildIndex(plugins, order, describe))
    decreases |order|
  {
    if order != [] {
      var init := order[..|order| - 1];
      assert forall i | 0 <= i < |init| :: init[i] == order[i];
      var prev := RebuildIndex(plugins, init, describe);
      var name := order[|order| - 1];
      var r := RebuildIndex(plugins, order, describe);
      RebuildLastWriter(plugins, init, describe);
      if r.panic.None? {
        assert prev.panic.None?;
        var tools := ListedBy(plugins, describe, name);
        assert r.index == RouteAll(prev.index, name, NamesOf(tools));
        forall k | k in r.index
          ensures exists i :: LastLister(plugins, order, describe, k, i) && order[i] == r.index[k]
        {
          if k in NamesOf(tools) {
            assert LastLister(plugins, order, describe, k, |order| - 1);
          } else {
            var i :| LastLister(plugins, init, describe, k, i) && init[i] == prev.index[k];
            LastListerExtend(plugins, order, describe, k, i);
          }
        }
      }
    }
  }

  /** List the tools of every plugin, rebuilding the routing index from scratch. */
  function ListTools(s: Service, order: seq<string>, describe: Plugin -> DescribeReturn): (r: Reply<seq<Tool>, ListError>)
    requires IsEnumeration(order, s.plugins.Keys)
    ensures r.after.plugins.Keys == s.plugins.Keys
    ensures forall n | n in s.plugins :: r.after.plugins[n].manifest == s.plugins[n].manifest
    ensures IndexConsistent(r.after)
    ensures r.result.Ok? <==> forall n | n in s.plugins :: !describe(s.plugins[n]).outcome.DescribeMalformed?
    ensures r.result.Err? ==> && r.result.error.plugin in s.plugins
                              && describe(s.plugins[r.result.error.plugin]).outcome == DescribeMalformed(r.result.error.cause)
    ensures r.result.Ok? ==> forall n | n in s.plugins :: r.after.plugins[n].memory == describe(s.plugins[n]).memory
    ensures forall k | k in r.after.toolIndex :: k in NamesOf(ListedBy(s.plugins, describe, r.after.toolIndex[k]))
    ensures r.result.Ok? ==> forall n, k | n in s.plugins && k in NamesOf(ListedBy(s.plugins, describe, n)) ::
              k in r.after.toolIndex
    ensures r.result.Ok? ==> forall t :: t in r.result.value <==>
              exists n | n in s.plugins :: t in ListedBy(s.plugins, describe, n)
    ensures r.result.Ok? ==> r.result.value == ListedAlong(s.plugins, describe, order)
  {
    var rb := RebuildIndex(s.plugins, order, describe);
    RebuildProgress(s.plugins, order, describe);
    RebuildRoutes(s.plugins, order, describe);
    RebuildCovers(s.plugins, order, describe);
    RebuildListsExactly(s.plugins, order, describe);
    RebuildListsInOrder(s.plugins, order, describe);
    var plugins := map n | n in s.plugins ::
      if n in rb.described then s.plugins[n].(memory := describe(s.plugins[n]).memory) else s.plugins[n];
    Reply(Service(plugins, rb.index), if rb.panic.Some? then Err(rb.panic.value) else Ok(rb.listed))
  }

  /** Without a collision check, a tool listed by several plugins is owned by the last of them
      in iteration order. */
  lemma ListToolsLastWriterWins(s: Service, order: seq<string>, describe: Plugin -> DescribeReturn)
    requires IsEnumeration(order, s.plugins.Keys)
    requires ListTools(s, order, describe).result.Ok?
    ensures var index := ListTools(s, order, describe).after.toolIndex;
            forall k | k in index :: exists i :: LastLister(s.plugins, order, describe, k, i) && order[i] == index[k]
  {
    RebuildLastWriter(s.plugins, order, describe);
    var rb := RebuildIndex(s.plugins, order, describe);
    assert ListTools(s, order, describe).after.toolIndex == rb.index;
  }

  /** After a successful listing, each plugin holds the memory its description call left. */
  lemma ListToolsPluginsAfter(s: Service, order: seq<string>, describe: Plugin -> DescribeReturn)
    requires IsEnumeration(order, s.plugins.Keys)
    requires ListTools(s, order, describe).result.Ok?
    ensures ListTools(s, order, describe).after.plugins
         == map n | n in s.plugins :: s.plugins[n].(memory := describe(s.plugins[n]).memory)
  {
    var after := ListTools(s, order, describe).after.plugins;
    var expected := map n | n in s.plugins :: s.plugins[n].(memory := describe(s.plugins[n]).memory);
    assert after.Keys == expected.Keys;
    forall n | n in after
      ensures after[n] == expected[n]
    {
      assert after[n].manifest == s.plugins[n].manifest;
      assert after[n].memory == describe(s.plugins[n]).memory;
    }
  }

  /** A successful listing routes exactly the tool names some plugin lists. */
  lemma ListToolsRoutedNames(s: Service, order: seq<string>, describe: Plugin -> DescribeReturn)
    requires IsEnumeration(order, s.plugins.Keys)
    requires ListTools(s, order, describe).result.Ok?
    ensures forall k :: k in ListTools(s, order, describe).after.toolIndex <==>
              exists n | n in s.plugins :: k in NamesOf(ListedBy(s.plugins, describe, n))
  {
    var index := ListTools(s, order, describe).after.toolIndex;
    forall k | k in index
      ensures exists n | n in s.plugins :: k in NamesOf(ListedBy(s.plugins, describe, n))
    {
      assert k in NamesOf(ListedBy(s.plugins, describe, index[k]));
    }
  }

  /** Up to ordering, listing does not depend on the map's iteration order: it fails for the
      same orders, routes the same tool names, lists the same tools, and leaves the same
      plugins behind. */
  lemma ListToolsOrderIndependent(s: Service, order1: seq<string>, order2: seq<string>, describe: Plugin -> DescribeReturn)
    requires IsEnumeration(order1, s.plugins.Keys) && IsEnumeration(order2, s.plugins.Keys)
    ensures var r1 := ListTools(s, order1, describe);
            var r2 := ListTools(s, order2, describe);
            && r1.result.Ok? == r2.result.Ok?
            && (r1.result.Ok? ==> && r1.after.toolIndex.Keys == r2.after.toolIndex.Keys
                                  && multiset(r1.result.value) == multiset(r2.result.value)
                                  && r1.after.plugins == r2.after.plugins)
  {
    if ListTools(s, order1, describe).result.Ok? {
      assert ListTools(s, order2, describe).result.Ok?;
      ListToolsPluginsAfter(s, order1, describe);
      ListToolsPluginsAfter(s, order2, describe);
      ListToolsRoutedNames(s, order1, describe);
      ListToolsRoutedNames(s, order2, describe);
      EnumerationsArePermutations(order1, order2, s.plugins.Keys);
      ListedAlongPermutation(s.plugins, describe, order1, order2);
    }
  }

  /** A tool just listed can be invoked: it routes to a loaded plugin. */
  lemma ListedToolsAreCallable(s: Service, order: seq<string>, describe: Plugin -> DescribeReturn,
                               t: Tool, arguments: Option<string>, call: (Plugin, Envelope) -> CallReturn)
    requires IsEnumeration(order, s.plugins.Keys)
    requires ListTools(s, order, describe).result.Ok?
    requires t in ListTools(s, order, describe).result.value
    ensures CallTool(ListTools(s, order, describe).after, CallRequest(t.name, arguments), call).result != Err(MethodNotFound)
  {
  }
}
