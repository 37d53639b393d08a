/** The structural side of a saved workflow: the default configuration of
    each node type, the check that edges join known nodes and that a user
    query and an output node exist, and the depth-first search for a path
    from the first user-query node to an output node. A workflow's nodes are
    its node map (id to node dict, insertion order); its edges are the
    `source`/`target` pairs of its edge map, in insertion order. */
module WorkflowValidator {
  import opened Wrappers
  import opened PyValues
  import opened EdgeNavigator

  /** The configuration records of the five node types, with their fields. */
  datatype NodeConfig =
    | UserQueryConfig(placeholder: string)
    | KnowledgeBaseConfig(files: seq<string>, embeddingModel: string, apiKey: Option<string>)
    | LlmConfig(model: string, apiKey: Option<string>, temperature: real, prompt: string,
                webSearchEnabled: bool)
    | WebSearchConfig(provider: string, apiKey: Option<string>)
    | OutputConfig(format: string)
  {
    /** The node type a configuration record belongs to. */
    function NodeType(): string {
      match this
      case UserQueryConfig(_) => "userQuery"
      case KnowledgeBaseConfig(_, _, _) => "knowledgeBase"
      case LlmConfig(_, _, _, _, _) => "llmEngine"
      case WebSearchConfig(_, _) => "webSearch"
      case OutputConfig(_) => "output"
    }
  }

  /** `NODE_CONFIG_MAPPING[t]()`: the configuration a node of type `t` gets
      when nothing is set; `None` for a type the mapping does not know. */
  function DefaultConfig(t: string): (c: Option<NodeConfig>)
    ensures c.Some? <==> t in {"userQuery", "knowledgeBase", "llmEngine", "webSearch", "output"}
    ensures c.Some? ==> c.value.NodeType() == t
  {
    match t
    case "userQuery" => Some(UserQueryConfig("Write your query here"))
    case "knowledgeBase" => Some(KnowledgeBaseConfig([], "text-embedding-3-large", None))
    case "llmEngine" => Some(LlmConfig("gpt-4o-mini", None, 0.75, "You are a helpful AI assistant.", false))
    case "webSearch" => Some(WebSearchConfig("serpapi", None))
    case "output" => Some(OutputConfig("text"))
    case _ => None
  }

  /** The LLM defaults: model `gpt-4o-mini` at temperature 0.75, no key, web
      search off. */
  lemma {:induction false} LlmDefaults()
    ensures DefaultConfig("llmEngine") == Some(LlmConfig("gpt-4o-mini", None, 0.75, "You are a helpful AI assistant.", false))
    ensures DefaultConfig("knowledgeBase").value.embeddingModel == "text-embedding-3-large"
  {
  }

  /** `[nodes[id]["type"] for id in nodes]`: the first node without a
      `type` raises. */
  function NodeTypeList(nodes: Fields): (r: Result<seq<Value>, Exc>)
    ensures r.Ok? ==> |r.value| == |nodes|
    ensures r.Ok? ==> forall i :: 0 <= i < |nodes| ==> Subscript(nodes[i].val, "type") == Ok(r.value[i])
    ensures r.Err? ==> exists i :: 0 <= i < |nodes| && Subscript(nodes[i].val, "type") == Err(r.error)
    ensures r.Err? <==> exists i :: 0 <= i < |nodes| && Subscript(nodes[i].val, "type").Err?
  {
    if nodes == [] then Ok([])
    else
      match Subscript(nodes[0].val, "type")
      case Err(e) => Err(e)
      case Ok(t) =>
        var rest := NodeTypeList(nodes[1..]);
        assert forall i :: 1 <= i < |nodes| ==> nodes[i] == nodes[1..][i - 1];
        if rest.Err? then Err(rest.error) else Ok([t] + rest.value)
  }

  /** Some node has the given `type`. */
  predicate HasNodeOfType(nodes: Fields, t: string) {
    exists i :: 0 <= i < |nodes| && Subscript(nodes[i].val, "type") == Ok(Str(t))
  }

  /** `validate_workflow`: `False` as soon as an edge names an unknown node;
      otherwise the node types are read (a node without `type` raises) and
      the workflow is valid when it has a `userQuery` and an `output` node. */
  function ValidateWorkflow(nodes: Fields, edges: seq<Edge>): (r: Result<bool, Exc>)
    ensures MissingEndpoint(Keys(nodes), edges).Some? ==> r == Ok(false)
    ensures r == Ok(true) <==>
      (forall i :: 0 <= i < |edges| ==> edges[i].source in Keys(nodes) && edges[i].target in Keys(nodes)) &&
      NodeTypeList(nodes).Ok? && HasNodeOfType(nodes, "userQuery") && HasNodeOfType(nodes, "output")
    ensures r.Err? ==> MissingEndpoint(Keys(nodes), edges).None? && NodeTypeList(nodes).Err?
  {
    if MissingEndpoint(Keys(nodes), edges).Some? then Ok(false)
    else
      match NodeTypeList(nodes)
      case Err(e) => Err(e)
      case Ok(types) =>
        assert HasNodeOfType(nodes, "userQuery") <==> Str("userQuery") in types;
        assert HasNodeOfType(nodes, "output") <==> Str("output") in types;
        Ok(Str("userQuery") in types && Str("output") in types)
  }

  predicate IsUserQueryAt(nodes: Fields, i: int) {
    0 <= i < |nodes| && Subscript(nodes[i].val, "type") == Ok(Str("userQuery"))
  }

  /** `[id for id, node in nodes.items() if node["type"] == "userQuery"]` */
  function UserQueryNodes(nodes: Fields): (r: Result<seq<NodeId>, Exc>)
    ensures NodeTypeList(nodes).Ok? <==> r.Ok?
    ensures r.Ok? ==> forall x :: x in r.value <==> exists i :: IsUserQueryAt(nodes, i) && nodes[i].key == x
    ensures r.Ok? && r.value != [] ==>
      exists i :: IsUserQueryAt(nodes, i) && nodes[i].key == r.value[0] && forall j :: 0 <= j < i ==> !IsUserQueryAt(nodes, j)
  {
    if nodes == [] then Ok([])
    else
      match Subscript(nodes[0].val, "type")
      case Err(e) => Err(e)
      case Ok(t) =>
        var rest := UserQueryNodes(nodes[1..]);
        ShiftUserQuery(nodes);
        if rest.Err? then Err(rest.error)
        else if t == Str("userQuery") then
          assert IsUserQueryAt(nodes, 0);
          Ok([nodes[0].key] + rest.value)
        else
          assert !IsUserQueryAt(nodes, 0);
          Ok(rest.value)
  }

  lemma {:induction false} ShiftUserQuery(nodes: Fields)
    requires nodes != []
    ensures forall i :: 1 <= i < |nodes| ==> (IsUserQueryAt(nodes, i) <==> IsUserQueryAt(nodes[1..], i - 1))
    ensures forall i :: 1 <= i < |nodes| ==> nodes[i].key == nodes[1..][i - 1].key
    ensures NodeTypeList(nodes).Ok? <==> Subscript(nodes[0].val, "type").Ok? && NodeTypeList(nodes[1..]).Ok?
  {
  }

  /** `graph` is the graph of the first `k` edges: an entry for each of
      their sources only, listing its targets once per edge, in edge order. */
  ghost predicate GraphOf(edges: seq<Edge>, k: nat, graph: map<NodeId, seq<NodeId>>)
    requires k <= |edges|
  {
    graph.Keys == (set i | 0 <= i < k :: edges[i].source) &&
    (forall u :: u in graph ==> graph[u] == Targets(edges[..k], u)) &&
    (forall u :: u !in graph ==> Targets(edges[..k], u) == [])
  }

  /** The `graph` of `get_execution_flow`: an entry for each edge source
      only, listing its targets once per edge, in edge order. */
  method BuildGraph(edges: seq<Edge>) returns (graph: map<NodeId, seq<NodeId>>)
    ensures graph.Keys == set i | 0 <= i < |edges| :: edges[i].source
    ensures forall u :: u in graph ==> graph[u] == Targets(edges, u)
  {
    graph := map[];
    var k := 0;
    while k < |edges|
      invariant 0 <= k <= |edges|
      invariant GraphOf(edges, k, graph)
    {
      var e := edges[k];
      GraphStep(edges, k, graph);
      if e.source !in graph {
        graph := graph[e.source := []];
      }
      graph := graph[e.source := graph[e.source] + [e.target]];
      k := k + 1;
    }
    assert edges[..k] == edges;
  }

  /** Adding edge `k` to the graph of the first `k` edges gives the graph
      of the first `k + 1`. */
  lemma {:induction false} GraphStep(edges: seq<Edge>, k: nat, graph: map<NodeId, seq<NodeId>>)
    requires k < |edges| && GraphOf(edges, k, graph)
    ensures GraphOf(edges, k + 1, graph[edges[k].source := Neighbors(graph, edges[k].source) + [edges[k].target]])
  {
    var e := edges[k];
    var g := graph[e.source := Neighbors(graph, e.source) + [e.target]];
    TargetsStep(edges, k);
    SourcesStep(edges, k);
    forall u | u in g
      ensures g[u] == Targets(edges[..k + 1], u)
    {
      assert Targets(edges[..k + 1], u) == Targets(edges[..k], u) + EdgeTarget(e, u);
      if u != e.source {
        assert EdgeTarget(e, u) == [];
      }
    }
    forall u | u !in g
      ensures Targets(edges[..k + 1], u) == []
    {
      assert Targets(edges[..k + 1], u) == Targets(edges[..k], u) + EdgeTarget(e, u);
    }
  }

  /** The sources of the first `k + 1` edges are those of the first `k`
      and the source of edge `k`. */
  lemma {:induction false} SourcesStep(edges: seq<Edge>, k: nat)
    requires k < |edges|
    ensures (set i | 0 <= i < k + 1 :: edges[i].source) == (set i | 0 <= i < k :: edges[i].source) + {edges[k].source}
  {
  }

  /** The target of `e` when it leaves `u`. */
  function EdgeTarget(e: Edge, u: NodeId): seq<NodeId> {
    if e.source == u then [e.target] else []
  }

  /** One more edge adds its target to its source's targets only. */
  lemma {:induction false} TargetsStep(edges: seq<Edge>, k: nat)
    requires k < |edges|
    ensures forall u :: Targets(edges[..k + 1], u) == Targets(edges[..k], u) + EdgeTarget(edges[k], u)
  {
    assert edges[..k + 1][..k] == edges[..k];
  }

  /** `graph.get(u, [])` */
  function Neighbors(graph: map<NodeId, seq<NodeId>>, u: NodeId): seq<NodeId> {
    if u in graph then graph[u] else []
  }

  /** Every id the graph can lead to lies in `univ`. */
  predicate GraphWithin(graph: map<NodeId, seq<NodeId>>, univ: set<NodeId>) {
    forall u, i :: u in graph && 0 <= i < |graph[u]| ==> graph[u][i] in univ
  }

  /** `nodes.get(u, {}).get("type") == "output"`; a node that is not a dict
      raises `AttributeError`. */
  function IsOutput(nodes: Fields, u: NodeId): (r: Result<bool, Exc>)
    ensures r.Err? ==> r.error.AttributeError?
    ensures AllDicts(nodes) ==> r.Ok?
  {
    match GetIn(GetOr(nodes, u, Obj([])), "type", Null)
    case Err(e) => Err(e)
    case Ok(t) => Ok(t == Str("output"))
  }

  predicate IsOutputNode(nodes: Fields, u: NodeId) {
    IsOutput(nodes, u) == Ok(true)
  }

  /** Every node of the map is a dict. */
  predicate AllDicts(nodes: Fields) {
    forall i :: 0 <= i < |nodes| ==> nodes[i].val.Obj?
  }

  /** `r` continues `path` through graph edges, without repeating an id
      when `path` repeats none, and stops at an output node. */
  predicate Extends(nodes: Fields, graph: map<NodeId, seq<NodeId>>, path: seq<NodeId>, r: seq<NodeId>) {
    |path| < |r| && r[..|path|] == path && IsOutputNode(nodes, r[|r| - 1]) &&
    (forall m :: |path| <= m < |r| - 1 ==> r[m + 1] in Neighbors(graph, r[m])) &&
    (Distinct(path) ==> Distinct(r))
  }

  /** A path found past `u` through one of its neighbours is a path found
      from `u`. */
  lemma {:induction false} ExtendsStep(nodes: Fields, graph: map<NodeId, seq<NodeId>>, path: seq<NodeId>, u: NodeId, p: seq<NodeId>)
    requires u !in path
    requires Extends(nodes, graph, path + [u], p) && p[|path| + 1] in Neighbors(graph, u)
    ensures Extends(nodes, graph, path, p) && p[|path|] == u
  {
    var cur := path + [u];
    assert p[..|cur|][..|path|] == cur[..|path|];
    assert p[..|cur|][|path|] == cur[|path|];
    if Distinct(path) {
      assert Distinct(cur);
    }
  }

  /** `dfs(u, path, visited)`: the ids visited are exactly those on `path`,
      since every neighbour gets its own copy of the set. The first
      neighbour, in edge order, that completes a path wins; `[]` when none
      does. */
  function Dfs(nodes: Fields, graph: map<NodeId, seq<NodeId>>, univ: set<NodeId>, u: NodeId,
               path: seq<NodeId>): (r: Result<seq<NodeId>, Exc>)
    requires GraphWithin(graph, univ) && u in univ
    ensures r.Ok? && r.value != [] ==> Extends(nodes, graph, path, r.value) && r.value[|path|] == u
    ensures r.Err? ==> r.error.AttributeError?
    ensures AllDicts(nodes) ==> r.Ok?
    decreases univ - Elems(path), 0
  {
    if u in path then Ok([])
    else
      var cur := path + [u];
      match IsOutput(nodes, u)
      case Err(e) => Err(e)
      case Ok(true) => Ok(cur)
      case Ok(false) =>
        assert forall k :: 0 <= k < |Neighbors(graph, u)| ==> Neighbors(graph, u)[k] in univ;
        assert Elems(cur) == Elems(path) + {u};
        assert u in univ - Elems(path) && u !in univ - Elems(cur);
        var r := TryNeighbors(nodes, graph, univ, Neighbors(graph, u), cur);
        if r.Ok? && r.value != [] then
          ExtendsStep(nodes, graph, path, u, r.value);
          r
        else r
  }

  /** The `for neighbor in graph.get(u, [])` loop of `dfs`, with `path`
      ending in `u`. */
  function TryNeighbors(nodes: Fields, graph: map<NodeId, seq<NodeId>>, univ: set<NodeId>,
                        nbrs: seq<NodeId>, path: seq<NodeId>): (r: Result<seq<NodeId>, Exc>)
    requires GraphWithin(graph, univ) && forall k :: 0 <= k < |nbrs| ==> nbrs[k] in univ
    ensures r.Ok? && r.value != [] ==> Extends(nodes, graph, path, r.value) && r.value[|path|] in nbrs
    ensures r.Err? ==> r.error.AttributeError?
    ensures AllDicts(nodes) ==> r.Ok?
    decreases univ - Elems(path), 1, |nbrs|
  {
    if nbrs == [] then Ok([])
    else
      match Dfs(nodes, graph, univ, nbrs[0], path)
      case Err(e) => Err(e)
      case Ok(p) =>
        if p != [] then Ok(p)
        else
          var r := TryNeighbors(nodes, graph, univ, nbrs[1..], path);
          assert r.Ok? && r.value != [] ==> r.value[|path|] in nbrs by {
            if r.Ok? && r.value != [] {
              assert r.value[|path|] in nbrs[1..];
            }
          }
          r
  }

  /** When the neighbour loop finds nothing, every neighbour's search found
      nothing. */
  lemma {:induction false} TryNeighborsEmpty(nodes: Fields, graph: map<NodeId, seq<NodeId>>, univ: set<NodeId>,
                                             nbrs: seq<NodeId>, path: seq<NodeId>, k: nat)
    requires GraphWithin(graph, univ) && forall j :: 0 <= j < |nbrs| ==> nbrs[j] in univ
    requires TryNeighbors(nodes, graph, univ, nbrs, path) == Ok([])
    requires k < |nbrs|
    ensures Dfs(nodes, graph, univ, nbrs[k], path) == Ok([])
    decreases |nbrs|
  {
    if k > 0 {
      TryNeighborsEmpty(nodes, graph, univ, nbrs[1..], path, k - 1);
    }
  }

  /** The neighbour loop returns the result of the first neighbour, in list
      order, whose search raises or finds a path. */
  lemma {:induction false} TryNeighborsFirst(nodes: Fields, graph: map<NodeId, seq<NodeId>>, univ: set<NodeId>,
                                             nbrs: seq<NodeId>, path: seq<NodeId>, k: nat)
    requires GraphWithin(graph, univ) && forall j :: 0 <= j < |nbrs| ==> nbrs[j] in univ
    requires k < |nbrs| && forall j :: 0 <= j < k ==> Dfs(nodes, graph, univ, nbrs[j], path) == Ok([])
    requires Dfs(nodes, graph, univ, nbrs[k], path) != Ok([])
    ensures TryNeighbors(nodes, graph, univ, nbrs, path) == Dfs(nodes, graph, univ, nbrs[k], path)
    decreases k
  {
    if k > 0 {
      var rest := nbrs[1..];
      forall j | 0 <= j < k - 1 ensures Dfs(nodes, graph, univ, rest[j], path) == Ok([]) {
        assert rest[j] == nbrs[j + 1];
      }
      assert rest[k - 1] == nbrs[k];
      TryNeighborsFirst(nodes, graph, univ, rest, path, k - 1);
    }
  }

  /** The neighbour loop finds nothing when no neighbour's search finds
      anything. */
  lemma {:induction false} TryNeighborsNone(nodes: Fields, graph: map<NodeId, seq<NodeId>>, univ: set<NodeId>,
                                            nbrs: seq<NodeId>, path: seq<NodeId>)
    requires GraphWithin(graph, univ) && forall j :: 0 <= j < |nbrs| ==> nbrs[j] in univ
    requires forall j :: 0 <= j < |nbrs| ==> Dfs(nodes, graph, univ, nbrs[j], path) == Ok([])
    ensures TryNeighbors(nodes, graph, univ, nbrs, path) == Ok([])
    decreases |nbrs|
  {
    if nbrs != [] {
      var rest := nbrs[1..];
      forall j | 0 <= j < |rest| ensures Dfs(nodes, graph, univ, rest[j], path) == Ok([]) {
        assert rest[j] == nbrs[j + 1];
      }
      assert Dfs(nodes, graph, univ, nbrs[0], path) == Ok([]);
      TryNeighborsNone(nodes, graph, univ, rest, path);
    }
  }

  /** Consecutive ids of `w` are joined by graph edges. */
  predicate IsWalkIn(graph: map<NodeId, seq<NodeId>>, w: seq<NodeId>) {
    forall m :: 0 <= m < |w| - 1 ==> w[m + 1] in Neighbors(graph, w[m])
  }

  /** The search is complete: when it finds nothing from `u`, no walk from
      `u` that avoids `path` and repeats no id ends at an output node. */
  lemma {:induction false} DfsComplete(nodes: Fields, graph: map<NodeId, seq<NodeId>>, univ: set<NodeId>,
                                       u: NodeId, path: seq<NodeId>, w: seq<NodeId>)
    requires GraphWithin(graph, univ) && u in univ
    requires Dfs(nodes, graph, univ, u, path) == Ok([])
    requires w != [] && w[0] == u && Distinct(w) && IsWalkIn(graph, w)
    requires forall m :: 0 <= m < |w| ==> w[m] !in path
    ensures !IsOutputNode(nodes, w[|w| - 1])
    decreases univ - Elems(path)
  {
    assert u !in path;
    var cur := path + [u];
    var nbrs := Neighbors(graph, u);
    assert IsOutput(nodes, u) == Ok(false);
    if |w| > 1 {
      assert w[1] in nbrs;
      var k :| 0 <= k < |nbrs| && nbrs[k] == w[1];
      assert forall j :: 0 <= j < |nbrs| ==> nbrs[j] in univ;
      assert Elems(cur) == Elems(path) + {u};
      TryNeighborsEmpty(nodes, graph, univ, nbrs, cur, k);
      var w' := w[1..];
      forall m | 0 <= m < |w'| ensures w'[m] !in cur {
        assert w'[m] == w[m + 1];
        assert w[m + 1] != w[0];
      }
      assert IsWalkIn(graph, w') by {
        forall m | 0 <= m < |w'| - 1 ensures w'[m + 1] in Neighbors(graph, w'[m]) {
          assert w'[m] == w[m + 1] && w'[m + 1] == w[m + 2];
        }
      }
      DfsComplete(nodes, graph, univ, w[1], cur, w');
      assert w'[|w'| - 1] == w[|w| - 1];
    }
  }

  /** The ids an edge can lead to, plus the starting id. */
  function Reachable(edges: seq<Edge>, start: NodeId): (univ: set<NodeId>)
    ensures start in univ
    ensures forall i :: 0 <= i < |edges| ==> edges[i].target in univ
  {
    {start} + set i | 0 <= i < |edges| :: edges[i].target
  }

  /** The `graph` of `get_execution_flow`, as a value. */
  function EdgeGraph(edges: seq<Edge>): map<NodeId, seq<NodeId>> {
    map u | u in (set i | 0 <= i < |edges| :: edges[i].source) :: Targets(edges, u)
  }

  /** What `get_execution_flow` computes: the error of the node-type scan,
      `[]` without a user-query node, otherwise the depth-first search from
      the first user-query node over the edge graph. */
  function ExecutionFlow(nodes: Fields, edges: seq<Edge>): Result<seq<NodeId>, Exc> {
    match UserQueryNodes(nodes)
    case Err(e) => Err(e)
    case Ok(starts) =>
      if starts == [] then Ok([])
      else
        var graph := EdgeGraph(edges);
        GraphWithinReachable(edges, graph, starts[0]);
        Dfs(nodes, graph, Reachable(edges, starts[0]), starts[0], [])
  }

  lemma {:induction false} IsEdgeGraph(edges: seq<Edge>, graph: map<NodeId, seq<NodeId>>)
    requires graph.Keys == set i | 0 <= i < |edges| :: edges[i].source
    requires forall u :: u in graph ==> graph[u] == Targets(edges, u)
    ensures graph == EdgeGraph(edges)
  {
  }

  /** `WorkflowValidator.get_execution_flow`: `[]` without a user-query
      node; otherwise the depth-first path from the first user-query node,
      in node-map order, to an output node, or `[]` when no such path
      exists. */
  method GetExecutionFlow(nodes: Fields, edges: seq<Edge>) returns (r: Result<seq<NodeId>, Exc>)
    ensures r == ExecutionFlow(nodes, edges)
    ensures NodeTypeList(nodes).Err? ==> r == Err(UserQueryNodes(nodes).error)
    ensures r.Err? && NodeTypeList(nodes).Ok? ==> r.error.AttributeError?
    ensures AllDicts(nodes) ==> r.Ok? || NodeTypeList(nodes).Err?
    ensures UserQueryNodes(nodes) == Ok([]) ==> r == Ok([])
    ensures r.Ok? && r.value != [] ==> UserQueryNodes(nodes).Ok? && r.value[0] == UserQueryNodes(nodes).value[0]
    ensures r.Ok? && r.value != [] ==> IsOutputNode(nodes, r.value[|r.value| - 1])
    ensures r.Ok? ==> IsWalk(edges, r.value) && Distinct(r.value)
    ensures r == Ok([]) && UserQueryNodes(nodes).Ok? && UserQueryNodes(nodes).value != [] ==>
      forall w :: w != [] && w[0] == UserQueryNodes(nodes).value[0] && Distinct(w) && IsWalk(edges, w) ==>
        !IsOutputNode(nodes, w[|w| - 1])
  {
    var starts := UserQueryNodes(nodes);
    if starts.Err? {
      return Err(starts.error);
    }
    if starts.value == [] {
      return Ok([]);
    }
    var start := starts.value[0];
    var graph := BuildGraph(edges);
    IsEdgeGraph(edges, graph);
    var univ := Reachable(edges, start);
    GraphWithinReachable(edges, graph, start);
    r := Dfs(nodes, graph, univ, start, []);
    if r.Ok? && r.value != [] {
      FoundPath(nodes, graph, r.value);
      GraphWalkIsEdgeWalk(edges, graph, r.value);
    }
    if r == Ok([]) {
      NoOutputWalk(nodes, edges, graph, univ, start);
    }
  }

  /** A path found from an empty path is a simple walk through the graph
      that ends at an output node. */
  lemma {:induction false} FoundPath(nodes: Fields, graph: map<NodeId, seq<NodeId>>, p: seq<NodeId>)
    requires Extends(nodes, graph, [], p)
    ensures IsOutputNode(nodes, p[|p| - 1]) && Distinct(p) && IsWalkIn(graph, p)
  {
    assert Distinct<NodeId>([]);
  }

  /** Every target of the graph of `BuildGraph` is reachable. */
  lemma {:induction false} GraphWithinReachable(edges: seq<Edge>, graph: map<NodeId, seq<NodeId>>, start: NodeId)
    requires forall u :: u in graph ==> graph[u] == Targets(edges, u)
    ensures GraphWithin(graph, Reachable(edges, start))
  {
    var univ := Reachable(edges, start);
    forall u, i | u in graph && 0 <= i < |graph[u]| ensures graph[u][i] in univ {
      assert HasEdge(edges, u, graph[u][i]);
    }
  }

  /** When the search from `start` finds nothing, no simple walk along the
      edges from `start` ends at an output node. */
  lemma {:induction false} NoOutputWalk(nodes: Fields, edges: seq<Edge>, graph: map<NodeId, seq<NodeId>>,
                                        univ: set<NodeId>, start: NodeId)
    requires graph.Keys == set i | 0 <= i < |edges| :: edges[i].source
    requires forall u :: u in graph ==> graph[u] == Targets(edges, u)
    requires GraphWithin(graph, univ) && start in univ
    requires Dfs(nodes, graph, univ, start, []) == Ok([])
    ensures forall w :: w != [] && w[0] == start && Distinct(w) && IsWalk(edges, w) ==>
      !IsOutputNode(nodes, w[|w| - 1])
  {
    forall w | w != [] && w[0] == start && Distinct(w) && IsWalk(edges, w)
      ensures !IsOutputNode(nodes, w[|w| - 1])
    {
      EdgeWalkIsGraphWalk(edges, graph, w);
      DfsComplete(nodes, graph, univ, start, [], w);
    }
  }

  /** A walk through the graph of `BuildGraph` follows edges. */
  lemma {:induction false} GraphWalkIsEdgeWalk(edges: seq<Edge>, graph: map<NodeId, seq<NodeId>>, p: seq<NodeId>)
    requires forall u :: u in graph ==> graph[u] == Targets(edges, u)
    requires IsWalkIn(graph, p)
    ensures IsWalk(edges, p)
  {
    forall m | 0 <= m < |p| - 1 ensures HasEdge(edges, p[m], p[m + 1]) {
      assert p[m + 1] in Neighbors(graph, p[m]);
    }
  }

  /** A walk along edges is a walk through the graph of `BuildGraph`. */
  lemma {:induction false} EdgeWalkIsGraphWalk(edges: seq<Edge>, graph: map<NodeId, seq<NodeId>>, w: seq<NodeId>)
    requires graph.Keys == set i | 0 <= i < |edges| :: edges[i].source
    requires forall u :: u in graph ==> graph[u] == Targets(edges, u)
    requires IsWalk(edges, w)
    ensures IsWalkIn(graph, w)
  {
    forall m | 0 <= m < |w| - 1 ensures w[m + 1] in Neighbors(graph, w[m]) {
      var i :| 0 <= i < |edges| && edges[i] == Edge(w[m], w[m + 1]);
      assert w[m] in graph;
      TargetsComplete(edges, w[m], w[m + 1]);
    }
  }
}
