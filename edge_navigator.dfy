/** The execution-order computation of the workflow engine: the adjacency
    list built from the edge map and Kahn's algorithm with a FIFO queue seeded
    in node-map order. A workflow is given by its node ids (the keys of the
    node map, in insertion order) and its edges (the values of the edge map, in
    insertion order). */
module EdgeNavigator {
  import opened Wrappers

  type NodeId = string

  /** An edge value `{"source": ..., "target": ...}`. */
  datatype Edge = Edge(source: NodeId, target: NodeId)

  predicate Distinct<T(==)>(s: seq<T>) {
    forall i, j :: 0 <= i < j < |s| ==> s[i] != s[j]
  }

  function Elems<T>(s: seq<T>): set<T> {
    set x | x in s
  }

  predicate HasEdge(edges: seq<Edge>, a: NodeId, b: NodeId) {
    exists i :: 0 <= i < |edges| && edges[i] == Edge(a, b)
  }

  /** Consecutive ids of `w` are joined by edges. */
  predicate IsWalk(edges: seq<Edge>, w: seq<NodeId>) {
    forall m :: 0 <= m < |w| - 1 ==> HasEdge(edges, w[m], w[m + 1])
  }

  predicate IsClosedWalk(edges: seq<Edge>, w: seq<NodeId>) {
    |w| >= 2 && w[0] == w[|w| - 1] && IsWalk(edges, w)
  }

  /** The edges contain a cycle (a self-loop included). */
  ghost predicate HasCycle(edges: seq<Edge>) {
    exists w :: IsClosedWalk(edges, w)
  }

  /** A topological order of the workflow: every id exactly once, every edge
      from an earlier to a later entry. */
  predicate IsPermutationOf(order: seq<NodeId>, ids: seq<NodeId>) {
    |order| == |ids| && Distinct(order) &&
    (forall x :: x in order ==> x in ids) && (forall x :: x in ids ==> x in order)
  }

  predicate RespectsEdges(order: seq<NodeId>, edges: seq<Edge>) {
    forall i, a, b ::
      (0 <= i < |edges| && 0 <= a < |order| && 0 <= b < |order| &&
       order[a] == edges[i].source && order[b] == edges[i].target) ==> a < b
  }

  /** The first edge source, in edge order, that is not a node id. */
  function MissingSource(ids: seq<NodeId>, edges: seq<Edge>): (r: Option<NodeId>)
    ensures r.None? <==> forall i :: 0 <= i < |edges| ==> edges[i].source in ids
    ensures r.Some? ==> exists k :: (0 <= k < |edges| && edges[k].source == r.value && r.value !in ids &&
      forall i :: 0 <= i < k ==> edges[i].source in ids)
  {
    if edges == [] then None
    else if edges[0].source !in ids then Some(edges[0].source)
    else
      var r := MissingSource(ids, edges[1..]);
      assert forall i :: 1 <= i < |edges| ==> edges[i] == edges[1..][i - 1];
      r
  }

  /** The first edge target, in edge order, that is not a node id. */
  function MissingTarget(ids: seq<NodeId>, edges: seq<Edge>): (r: Option<NodeId>)
    ensures r.None? <==> forall i :: 0 <= i < |edges| ==> edges[i].target in ids
    ensures r.Some? ==> exists k :: (0 <= k < |edges| && edges[k].target == r.value && r.value !in ids &&
      forall i :: 0 <= i < k ==> edges[i].target in ids)
  {
    if edges == [] then None
    else if edges[0].target !in ids then Some(edges[0].target)
    else
      var r := MissingTarget(ids, edges[1..]);
      assert forall i :: 1 <= i < |edges| ==> edges[i] == edges[1..][i - 1];
      r
  }

  /** The key of the `KeyError` a workflow raises: all sources are looked up
      (adjacency list) before any target (in-degree table). */
  function MissingEndpoint(ids: seq<NodeId>, edges: seq<Edge>): (r: Option<NodeId>)
    ensures r.None? <==> forall i :: 0 <= i < |edges| ==> edges[i].source in ids && edges[i].target in ids
  {
    if MissingSource(ids, edges).Some? then MissingSource(ids, edges) else MissingTarget(ids, edges)
  }

  /** The targets of the edges leaving `u`, once per edge, in edge order. */
  function Targets(edges: seq<Edge>, u: NodeId): (r: seq<NodeId>)
    ensures forall k :: 0 <= k < |r| ==> HasEdge(edges, u, r[k])
  {
    if edges == [] then []
    else
      var init := edges[..|edges| - 1];
      var r := Targets(init, u);
      assert forall k :: 0 <= k < |r| ==> HasEdge(edges, u, r[k]) by {
        forall k | 0 <= k < |r| ensures HasEdge(edges, u, r[k]) {
          var i :| 0 <= i < |init| && init[i] == Edge(u, r[k]);
          assert edges[i] == init[i];
        }
      }
      r + (if edges[|edges| - 1].source == u then [edges[|edges| - 1].target] else [])
  }

  /** Every edge out of `u` is listed among its targets. */
  lemma {:induction false} TargetsComplete(edges: seq<Edge>, u: NodeId, v: NodeId)
    requires HasEdge(edges, u, v)
    ensures v in Targets(edges, u)
  {
    var init := edges[..|edges| - 1];
    if edges[|edges| - 1] != Edge(u, v) {
      var i :| 0 <= i < |edges| && edges[i] == Edge(u, v);
      assert init[i] == edges[i];
      TargetsComplete(init, u, v);
    }
  }

  function Count(s: seq<NodeId>, v: NodeId): nat {
    if s == [] then 0 else Count(s[..|s| - 1], v) + (if s[|s| - 1] == v then 1 else 0)
  }

  /** The number of edges into `v` whose source is not in `done`: the
      in-degree of `v` once the nodes of `done` have been scheduled. */
  function InDeg(edges: seq<Edge>, v: NodeId, done: set<NodeId>): nat {
    if edges == [] then 0
    else
      var e := edges[|edges| - 1];
      InDeg(edges[..|edges| - 1], v, done) + (if e.target == v && e.source !in done then 1 else 0)
  }

  /** The nodes with no incoming edge, in node-map order: the initial queue. */
  function Sources(ids: seq<NodeId>, edges: seq<Edge>): (r: seq<NodeId>)
    ensures forall x :: x in r <==> x in ids && InDeg(edges, x, {}) == 0
    ensures Distinct(ids) ==> Distinct(r)
  {
    if ids == [] then []
    else
      var init := ids[..|ids| - 1];
      var last := ids[|ids| - 1];
      assert ids == init + [last];
      var r := Sources(init, edges);
      assert Distinct(ids) ==> last !in init;
      r + (if InDeg(edges, last, {}) == 0 then [last] else [])
  }

  /** An edge has a source outside `done` exactly when the in-degree counts it. */
  lemma {:induction false} InDegPositive(edges: seq<Edge>, v: NodeId, done: set<NodeId>)
    ensures InDeg(edges, v, done) > 0 <==>
      exists i :: 0 <= i < |edges| && edges[i].target == v && edges[i].source !in done
  {
    if edges != [] {
      var init := edges[..|edges| - 1];
      InDegPositive(init, v, done);
      if exists i :: 0 <= i < |edges| && edges[i].target == v && edges[i].source !in done {
        var i :| 0 <= i < |edges| && edges[i].target == v && edges[i].source !in done;
        if i < |init| {
          assert init[i] == edges[i];
        }
      }
      if exists i :: 0 <= i < |init| && init[i].target == v && init[i].source !in done {
        var i :| 0 <= i < |init| && init[i].target == v && init[i].source !in done;
        assert edges[i] == init[i];
      }
    }
  }

  /** Scheduling `u` lowers the in-degree of `v` by the number of edges from
      `u` to `v`. */
  lemma {:induction false} InDegStep(edges: seq<Edge>, v: NodeId, done: set<NodeId>, u: NodeId)
    requires u !in done
    ensures InDeg(edges, v, done) == InDeg(edges, v, done + {u}) + Count(Targets(edges, u), v)
  {
    if edges != [] {
      var init := edges[..|edges| - 1];
      var e := edges[|edges| - 1];
      InDegStep(init, v, done, u);
      var t := Targets(init, u);
      if e.source == u {
        assert (t + [e.target])[..|t|] == t;
      } else {
        assert t + [] == t;
      }
    }
  }

  lemma {:induction false} CountPrefix(s: seq<NodeId>, j: nat, v: NodeId)
    requires j < |s|
    ensures Count(s[..j + 1], v) == Count(s[..j], v) + (if s[j] == v then 1 else 0)
    ensures Count(s[..j + 1], v) <= Count(s, v)
    decreases |s|
  {
    assert s[..j + 1][..j] == s[..j];
    if j + 1 < |s| {
      CountPrefix(s[..|s| - 1], j, v);
      assert s[..|s| - 1][..j + 1] == s[..j + 1];
      assert s[..|s| - 1][..j] == s[..j];
    } else {
      assert s[..j + 1] == s;
    }
  }

  lemma {:induction false} DistinctCard<T>(s: seq<T>)
    requires Distinct(s)
    ensures |Elems(s)| == |s|
  {
    if s != [] {
      var init := s[..|s| - 1];
      DistinctCard(init);
      assert Elems(s) == Elems(init) + {s[|s| - 1]};
      assert s[|s| - 1] !in init;
    }
  }

  lemma {:induction false} SubsetCard<T>(a: set<T>, b: set<T>)
    requires a <= b
    ensures |a| <= |b|
    ensures a != b ==> |a| < |b|
    decreases b
  {
    if b != {} {
      var x :| x in b;
      SubsetCard(a - {x}, b - {x});
      if x in a && a != b {
        assert !(b <= a);
        var y :| y in b && y !in a;
        assert y != x;
        assert y in b - {x} && y !in a - {x};
      }
    }
  }

  /** A repetition-free sequence of node ids is no longer than the id list,
      and as long only when it holds every id. */
  lemma {:induction false} DistinctSubsetLength<T>(s: seq<T>, ids: seq<T>)
    requires Distinct(s) && Distinct(ids)
    requires forall x :: x in s ==> x in ids
    ensures |s| <= |ids|
    ensures |s| == |ids| ==> forall x :: x in ids ==> x in s
  {
    DistinctCard(s);
    DistinctCard(ids);
    assert Elems(s) <= Elems(ids);
    SubsetCard(Elems(s), Elems(ids));
    if |s| == |ids| {
      assert Elems(s) == Elems(ids);
      forall x | x in ids ensures x in s {
        assert x in Elems(ids);
      }
    }
  }

  /** The position of `x` in a sequence that holds it. */
  function Pos(s: seq<NodeId>, x: NodeId): (k: nat)
    requires x in s
    ensures k < |s| && s[k] == x
  {
    if s[0] == x then 0 else 1 + Pos(s[1..], x)
  }

  /** Along a walk, positions in a topological order strictly increase. */
  lemma {:induction false} WalkClimbs(order: seq<NodeId>, edges: seq<Edge>, w: seq<NodeId>, n: nat)
    requires Distinct(order) && RespectsEdges(order, edges) && IsWalk(edges, w)
    requires forall m :: 0 <= m < |w| ==> w[m] in order
    requires 1 <= n < |w|
    ensures Pos(order, w[0]) < Pos(order, w[n])
  {
    assert HasEdge(edges, w[n - 1], w[n]);
    var i :| 0 <= i < |edges| && edges[i] == Edge(w[n - 1], w[n]);
    var a, b := Pos(order, w[n - 1]), Pos(order, w[n]);
    assert order[a] == edges[i].source && order[b] == edges[i].target;
    if n > 1 {
      WalkClimbs(order, edges, w, n - 1);
    }
  }

  /** A workflow with a cycle has no topological order. */
  lemma {:induction false} CycleHasNoOrder(order: seq<NodeId>, ids: seq<NodeId>, edges: seq<Edge>)
    requires IsPermutationOf(order, ids) && RespectsEdges(order, edges)
    requires MissingEndpoint(ids, edges).None?
    ensures !HasCycle(edges)
  {
    if HasCycle(edges) {
      var w :| IsClosedWalk(edges, w);
      forall m | 0 <= m < |w| ensures w[m] in order {
        var i;
        if m < |w| - 1 {
          assert HasEdge(edges, w[m], w[m + 1]);
          i :| 0 <= i < |edges| && edges[i] == Edge(w[m], w[m + 1]);
        } else {
          assert HasEdge(edges, w[m - 1], w[m]);
          i :| 0 <= i < |edges| && edges[i] == Edge(w[m - 1], w[m]);
        }
        assert edges[i].source in ids && edges[i].target in ids;
      }
      WalkClimbs(order, edges, w, |w| - 1);
    }
  }

  /** Some edge into `x` starts in `stuck`. */
  predicate HasPredIn(edges: seq<Edge>, stuck: set<NodeId>, x: NodeId) {
    exists i :: 0 <= i < |edges| && edges[i].target == x && edges[i].source in stuck
  }

  /** A walk of `n + 1` ids of `stuck` ending in `v`, built backwards from
      predecessors that all lie in `stuck`. */
  lemma {:induction false} WalkInto(edges: seq<Edge>, stuck: set<NodeId>, v: NodeId, n: nat) returns (w: seq<NodeId>)
    requires v in stuck
    requires forall x {:trigger HasPredIn(edges, stuck, x)} :: x in stuck ==> HasPredIn(edges, stuck, x)
    ensures |w| == n + 1 && w[n] == v && IsWalk(edges, w)
    ensures forall m :: 0 <= m < |w| ==> w[m] in stuck
  {
    if n == 0 {
      w := [v];
    } else {
      var w0 := WalkInto(edges, stuck, v, n - 1);
      var x := w0[0];
      assert HasPredIn(edges, stuck, x);
      var i :| 0 <= i < |edges| && edges[i].target == x && edges[i].source in stuck;
      var u := edges[i].source;
      w := [u] + w0;
      assert edges[i] == Edge(u, x);
      assert HasEdge(edges, u, x);
      forall m | 0 <= m < |w| - 1 ensures HasEdge(edges, w[m], w[m + 1]) {
        if m > 0 {
          assert w[m] == w0[m - 1] && w[m + 1] == w0[m];
          assert HasEdge(edges, w0[m - 1], w0[m]);
        }
      }
      forall m | 0 <= m < |w| ensures w[m] in stuck {
        if m > 0 {
          assert w[m] == w0[m - 1];
        }
      }
    }
  }

  /** If every node of a nonempty set has a predecessor in the set, the edges
      contain a cycle. */
  lemma {:induction false} StuckHasCycle(edges: seq<Edge>, stuck: set<NodeId>)
    requires stuck != {}
    requires forall x {:trigger HasPredIn(edges, stuck, x)} :: x in stuck ==> HasPredIn(edges, stuck, x)
    ensures HasCycle(edges)
  {
    var v :| v in stuck;
    var w := WalkInto(edges, stuck, v, |stuck|);
    if Distinct(w) {
      DistinctCard(w);
      assert Elems(w) <= stuck;
      SubsetCard(Elems(w), stuck);
      assert false;
    }
    var i, j :| 0 <= i < j < |w| && w[i] == w[j];
    var c := w[i..j + 1];
    forall m | 0 <= m < |c| - 1 ensures HasEdge(edges, c[m], c[m + 1]) {
      assert c[m] == w[i + m] && c[m + 1] == w[i + m + 1];
    }
    assert IsClosedWalk(edges, c);
  }

  /** The first edge whose source is not a node id is the one reported. */
  lemma {:induction false} FirstMissingSource(ids: seq<NodeId>, edges: seq<Edge>, k: nat)
    requires k < |edges| && edges[k].source !in ids
    requires forall i :: 0 <= i < k ==> edges[i].source in ids
    ensures MissingSource(ids, edges) == Some(edges[k].source)
  {
    var m := MissingSource(ids, edges);
    assert m.Some?;
    var k' :| 0 <= k' < |edges| && edges[k'].source == m.value && m.value !in ids &&
      forall i :: 0 <= i < k' ==> edges[i].source in ids;
    assert k' == k;
  }

  /** The first edge whose target is not a node id is the one reported. */
  lemma {:induction false} FirstMissingTarget(ids: seq<NodeId>, edges: seq<Edge>, k: nat)
    requires k < |edges| && edges[k].target !in ids
    requires forall i :: 0 <= i < k ==> edges[i].target in ids
    ensures MissingTarget(ids, edges) == Some(edges[k].target)
  {
    var m := MissingTarget(ids, edges);
    assert m.Some?;
    var k' :| 0 <= k' < |edges| && edges[k'].target == m.value && m.value !in ids &&
      forall i :: 0 <= i < k' ==> edges[i].target in ids;
    assert k' == k;
  }

  /** `_build_adjacency_list`: an entry per node id listing the targets of the
      edges leaving it; a source that is not a node id raises `KeyError`. */
  method BuildAdjacencyList(ids: seq<NodeId>, edges: seq<Edge>) returns (r: Result<map<NodeId, seq<NodeId>>, Exc>)
    ensures r.Err? <==> MissingSource(ids, edges).Some?
    ensures r.Err? ==> r.error == KeyError(MissingSource(ids, edges).value)
    ensures r.Ok? ==> r.value.Keys == Elems(ids)
    ensures r.Ok? ==> forall u :: u in r.value ==> r.value[u] == Targets(edges, u)
  {
    var adj: map<NodeId, seq<NodeId>> := map v | v in ids :: [];
    var k := 0;
    while k < |edges|
      invariant 0 <= k <= |edges|
      invariant adj.Keys == Elems(ids)
      invariant forall u :: u in adj ==> adj[u] == Targets(edges[..k], u)
      invariant forall i :: 0 <= i < k ==> edges[i].source in ids
    {
      var e := edges[k];
      if e.source !in adj {
        FirstMissingSource(ids, edges, k);
        return Err(KeyError(e.source));
      }
      assert edges[..k + 1][..k] == edges[..k];
      adj := adj[e.source := adj[e.source] + [e.target]];
      k := k + 1;
    }
    assert edges[..k] == edges;
    return Ok(adj);
  }

  /** The in-degree table: `KeyError` for the first target that is not a
      node id. */
  method InDegreeTable(ids: seq<NodeId>, edges: seq<Edge>) returns (r: Result<map<NodeId, int>, Exc>)
    ensures r.Err? <==> MissingTarget(ids, edges).Some?
    ensures r.Err? ==> r.error == KeyError(MissingTarget(ids, edges).value)
    ensures r.Ok? ==> r.value.Keys == Elems(ids)
    ensures r.Ok? ==> forall v :: v in r.value ==> r.value[v] == InDeg(edges, v, {})
  {
    var inDegree: map<NodeId, int> := map v | v in ids :: 0;
    var k := 0;
    while k < |edges|
      invariant 0 <= k <= |edges|
      invariant inDegree.Keys == Elems(ids)
      invariant forall v :: v in inDegree ==> inDegree[v] == InDeg(edges[..k], v, {})
      invariant forall i :: 0 <= i < k ==> edges[i].target in ids
    {
      var e := edges[k];
      if e.target !in inDegree {
        FirstMissingTarget(ids, edges, k);
        return Err(KeyError(e.target));
      }
      assert edges[..k + 1][..k] == edges[..k];
      inDegree := inDegree[e.target := inDegree[e.target] + 1];
      k := k + 1;
    }
    assert edges[..k] == edges;
    return Ok(inDegree);
  }

  /** The zero-in-degree ids, in node-map order. */
  method InitialQueue(ids: seq<NodeId>, edges: seq<Edge>, inDegree: map<NodeId, int>) returns (queue: seq<NodeId>)
    requires forall v :: v in ids ==> v in inDegree && inDegree[v] == InDeg(edges, v, {})
    ensures queue == Sources(ids, edges)
  {
    queue := [];
    for i := 0 to |ids|
      invariant queue == Sources(ids[..i], edges)
    {
      assert ids[..i + 1][..i] == ids[..i];
      if inDegree[ids[i]] == 0 {
        queue := queue + [ids[i]];
      }
    }
    assert ids[..|ids|] == ids;
  }

  /** The bookkeeping of Kahn's loop: `order` and `queue` hold distinct node
      ids; the table holds, for each id, the number of its incoming edges
      whose source is not in `done`, less the releases already counted in
      `released`; and an id is scheduled or queued exactly when its entry is
      zero. */
  ghost predicate Bookkeeping(ids: seq<NodeId>, edges: seq<Edge>, done: set<NodeId>, released: seq<NodeId>,
                              inDegree: map<NodeId, int>, order: seq<NodeId>, queue: seq<NodeId>)
  {
    QueueOk(ids, order + queue) && TableOk(ids, edges, done, released, inDegree) &&
    ZeroIffQueued(ids, inDegree, order + queue)
  }

  ghost predicate QueueOk(ids: seq<NodeId>, seen: seq<NodeId>) {
    Distinct(seen) && forall x :: x in seen ==> x in ids
  }

  ghost predicate TableOk(ids: seq<NodeId>, edges: seq<Edge>, done: set<NodeId>, released: seq<NodeId>,
                          inDegree: map<NodeId, int>)
  {
    inDegree.Keys == Elems(ids) &&
    forall v :: v in ids ==> inDegree[v] == InDeg(edges, v, done) - Count(released, v)
  }

  ghost predicate ZeroIffQueued(ids: seq<NodeId>, inDegree: map<NodeId, int>, seen: seq<NodeId>)
    requires forall v :: v in ids ==> v in inDegree
  {
    forall v :: v in ids ==> (v in seen <==> inDegree[v] == 0)
  }

  /** Every edge into a scheduled node comes from a node scheduled earlier. */
  ghost predicate PredsScheduledFirst(edges: seq<Edge>, order: seq<NodeId>) {
    forall k, i :: 0 <= k < |order| && 0 <= i < |edges| && edges[i].target == order[k] ==>
      edges[i].source in order[..k]
  }

  lemma {:induction false} ScheduleKeepsPredsFirst(edges: seq<Edge>, order: seq<NodeId>, u: NodeId)
    requires PredsScheduledFirst(edges, order)
    requires forall i :: 0 <= i < |edges| && edges[i].target == u ==> edges[i].source in order
    ensures PredsScheduledFirst(edges, order + [u])
  {
    var o := order + [u];
    forall k, i | 0 <= k < |o| && 0 <= i < |edges| && edges[i].target == o[k]
      ensures edges[i].source in o[..k]
    {
      if k < |order| {
        assert o[k] == order[k] && o[..k] == order[..k];
      } else {
        assert o[..k] == order;
      }
    }
  }

  lemma {:induction false} DistinctSnoc(s: seq<NodeId>, v: NodeId)
    requires Distinct(s) && v !in s
    ensures Distinct(s + [v])
  {
  }

  /** One release keeps the bookkeeping: the released id's entry drops by
      one and the id is queued when it reaches zero. */
  lemma {:induction false} ReleaseOne(ids: seq<NodeId>, edges: seq<Edge>, done: set<NodeId>, released: seq<NodeId>,
                   inDegree: map<NodeId, int>, order: seq<NodeId>, queue: seq<NodeId>, v: NodeId)
    requires Bookkeeping(ids, edges, done, released, inDegree, order, queue)
    requires v in ids && Count(released, v) < InDeg(edges, v, done)
    ensures var d := inDegree[v := inDegree[v] - 1];
      Bookkeeping(ids, edges, done, released + [v], d, order, if d[v] == 0 then queue + [v] else queue)
  {
    var d := inDegree[v := inDegree[v] - 1];
    ReleaseTable(ids, edges, done, released, inDegree, v);
    assert inDegree[v] > 0;
    assert v !in order + queue;
    if d[v] == 0 {
      assert order + (queue + [v]) == (order + queue) + [v];
      DistinctSnoc(order + queue, v);
      ZeroIffQueuedSnoc(ids, inDegree, d, order + queue, v);
    } else {
      ZeroIffQueuedKeep(ids, inDegree, d, order + queue, v);
    }
  }

  lemma {:induction false} ReleaseTable(ids: seq<NodeId>, edges: seq<Edge>, done: set<NodeId>, released: seq<NodeId>,
                     inDegree: map<NodeId, int>, v: NodeId)
    requires TableOk(ids, edges, done, released, inDegree) && v in ids
    ensures TableOk(ids, edges, done, released + [v], inDegree[v := inDegree[v] - 1])
  {
    var r := released + [v];
    assert r[..|released|] == released;
    forall x | x in ids ensures Count(r, x) == Count(released, x) + (if v == x then 1 else 0) {
    }
  }

  lemma {:induction false} ZeroIffQueuedSnoc(ids: seq<NodeId>, inDegree: map<NodeId, int>, d: map<NodeId, int>, seen: seq<NodeId>, v: NodeId)
    requires forall x :: x in ids ==> x in inDegree
    requires ZeroIffQueued(ids, inDegree, seen)
    requires d == inDegree[v := 0] && v in ids
    ensures ZeroIffQueued(ids, d, seen + [v])
  {
  }

  lemma {:induction false} ZeroIffQueuedKeep(ids: seq<NodeId>, inDegree: map<NodeId, int>, d: map<NodeId, int>, seen: seq<NodeId>, v: NodeId)
    requires forall x :: x in ids ==> x in inDegree
    requires ZeroIffQueued(ids, inDegree, seen)
    requires v in ids && v !in seen && v in d && d == inDegree[v := d[v]] && d[v] != 0
    ensures ZeroIffQueued(ids, d, seen)
  {
  }

  /** One release: the id's entry drops by one, and the id joins the back of
      the queue when its entry reaches zero. */
  function Release(v: NodeId, inDegree: map<NodeId, int>, queue: seq<NodeId>): (r: (map<NodeId, int>, seq<NodeId>))
  {
    if v !in inDegree then (inDegree, queue)
    else
      var d := inDegree[v := inDegree[v] - 1];
      (d, if d[v] == 0 then queue + [v] else queue)
  }

  /** The releases after one node is scheduled, in the order of its edge
      targets. */
  function ReleaseAll(nbrs: seq<NodeId>, inDegree: map<NodeId, int>, queue: seq<NodeId>): (r: (map<NodeId, int>, seq<NodeId>))
  {
    if nbrs == [] then (inDegree, queue)
    else
      var p := ReleaseAll(nbrs[..|nbrs| - 1], inDegree, queue);
      Release(nbrs[|nbrs| - 1], p.0, p.1)
  }

  /** Kahn's first-in-first-out schedule as a function: pop the front of the
      queue, append it to the order and release its targets; stop when the
      queue is empty (or after `fuel` pops). */
  function KahnSchedule(adj: map<NodeId, seq<NodeId>>, inDegree: map<NodeId, int>, queue: seq<NodeId>,
                        order: seq<NodeId>, fuel: nat): (r: seq<NodeId>)
    decreases fuel
  {
    if queue == [] || fuel == 0 then order
    else
      var u := queue[0];
      var next := ReleaseAll(if u in adj then adj[u] else [], inDegree, queue[1..]);
      KahnSchedule(adj, next.0, next.1, order + [u], fuel - 1)
  }

  /** One pop of the schedule, unfolded. */
  lemma {:induction false} KahnStep(adj: map<NodeId, seq<NodeId>>, inDegree: map<NodeId, int>, queue: seq<NodeId>,
                                    order: seq<NodeId>, fuel: nat)
    requires queue != [] && fuel > 0 && queue[0] in adj
    ensures var next := ReleaseAll(adj[queue[0]], inDegree, queue[1..]);
      KahnSchedule(adj, inDegree, queue, order, fuel) == KahnSchedule(adj, next.0, next.1, order + [queue[0]], fuel - 1)
  {
  }

  /** What `get_topological_order` computes: Kahn's schedule from the
      zero-in-degree ids in node-map order, or `[]` when it stops short of
      every id. */
  function KahnOrder(ids: seq<NodeId>, edges: seq<Edge>): (r: seq<NodeId>)
  {
    var order := KahnSchedule(Adjacency(ids, edges), InDegrees(ids, edges), Sources(ids, edges), [], |ids|);
    if |order| == |ids| then order else []
  }

  /** The adjacency list: each node id mapped to its edge targets. */
  function Adjacency(ids: seq<NodeId>, edges: seq<Edge>): map<NodeId, seq<NodeId>> {
    map u | u in Elems(ids) :: Targets(edges, u)
  }

  /** The in-degree table: each node id mapped to its number of incoming edges. */
  function InDegrees(ids: seq<NodeId>, edges: seq<Edge>): map<NodeId, int> {
    map v | v in Elems(ids) :: InDeg(edges, v, {})
  }

  lemma {:induction false} IsAdjacency(ids: seq<NodeId>, edges: seq<Edge>, adj: map<NodeId, seq<NodeId>>)
    requires adj.Keys == Elems(ids) && forall u :: u in adj ==> adj[u] == Targets(edges, u)
    ensures adj == Adjacency(ids, edges)
  {
  }

  lemma {:induction false} IsInDegrees(ids: seq<NodeId>, edges: seq<Edge>, inDegree: map<NodeId, int>)
    requires inDegree.Keys == Elems(ids) && forall v :: v in inDegree ==> inDegree[v] == InDeg(edges, v, {})
    ensures inDegree == InDegrees(ids, edges)
  {
  }

  /** The inner loop of Kahn's algorithm: each edge out of the node `u` just
      scheduled lowers its target's in-degree by one, and a target whose
      in-degree reaches zero joins the back of the queue. */
  method ReleaseNeighbors(ghost ids: seq<NodeId>, ghost edges: seq<Edge>, ghost done: set<NodeId>,
                          u: NodeId, nbrs: seq<NodeId>, order: seq<NodeId>,
                          inDegree0: map<NodeId, int>, queue0: seq<NodeId>)
    returns (inDegree: map<NodeId, int>, queue: seq<NodeId>)
    requires MissingEndpoint(ids, edges).None?
    requires nbrs == Targets(edges, u) && u !in done
    requires Bookkeeping(ids, edges, done, [], inDegree0, order, queue0)
    ensures Bookkeeping(ids, edges, done + {u}, [], inDegree, order, queue)
    ensures queue0 <= queue
    ensures (inDegree, queue) == ReleaseAll(nbrs, inDegree0, queue0)
  {
    inDegree, queue := inDegree0, queue0;
    assert nbrs[..0] == [];
    var j := 0;
    while j < |nbrs|
      invariant 0 <= j <= |nbrs|
      invariant inDegree.Keys == Elems(ids)
      invariant (inDegree, queue) == ReleaseAll(nbrs[..j], inDegree0, queue0)
    {
      var v := nbrs[j];
      TargetInIds(ids, edges, u, v);
      ReleaseAllSnoc(nbrs, j, inDegree0, queue0);
      inDegree := inDegree[v := inDegree[v] - 1];
      if inDegree[v] == 0 {
        queue := queue + [v];
      }
      j := j + 1;
    }
    ReleaseAllKeeps(ids, edges, done, u, nbrs, j, inDegree0, order, queue0);
    assert nbrs[..j] == nbrs;
    Rebase(ids, edges, done, u, inDegree);
  }

  /** The `j`-th release from `u` keeps the bookkeeping. */
  lemma {:induction false} ReleaseNext(ids: seq<NodeId>, edges: seq<Edge>, done: set<NodeId>, u: NodeId,
                                       nbrs: seq<NodeId>, j: nat, inDegree: map<NodeId, int>,
                                       order: seq<NodeId>, queue: seq<NodeId>)
    requires MissingEndpoint(ids, edges).None?
    requires nbrs == Targets(edges, u) && u !in done && j < |nbrs|
    requires Bookkeeping(ids, edges, done, nbrs[..j], inDegree, order, queue)
    ensures nbrs[j] in ids && nbrs[j] in inDegree
    ensures var v := nbrs[j];
      var d := inDegree[v := inDegree[v] - 1];
      Bookkeeping(ids, edges, done, nbrs[..j + 1], d, order, if d[v] == 0 then queue + [v] else queue)
  {
    var v := nbrs[j];
    TargetInIds(ids, edges, u, v);
    Releasable(edges, done, u, nbrs, j);
    assert nbrs[..j + 1] == nbrs[..j] + [v];
    ReleaseOne(ids, edges, done, nbrs[..j], inDegree, order, queue, v);
  }

  /** Releasing the first `j` targets of `u` keeps the bookkeeping and only
      adds to the back of the queue. */
  lemma {:induction false} ReleaseAllKeeps(ids: seq<NodeId>, edges: seq<Edge>, done: set<NodeId>, u: NodeId,
                                           nbrs: seq<NodeId>, j: nat, inDegree: map<NodeId, int>,
                                           order: seq<NodeId>, queue: seq<NodeId>)
    requires MissingEndpoint(ids, edges).None?
    requires nbrs == Targets(edges, u) && u !in done && j <= |nbrs|
    requires Bookkeeping(ids, edges, done, [], inDegree, order, queue)
    ensures var p := ReleaseAll(nbrs[..j], inDegree, queue);
      Bookkeeping(ids, edges, done, nbrs[..j], p.0, order, p.1) && queue <= p.1
  {
    if j == 0 {
      assert nbrs[..0] == [];
    } else {
      ReleaseAllKeeps(ids, edges, done, u, nbrs, j - 1, inDegree, order, queue);
      ReleaseAllKeepsStep(ids, edges, done, u, nbrs, j - 1, inDegree, order, queue);
    }
  }

  /** One more release keeps the bookkeeping and only adds to the queue. */
  lemma {:induction false} ReleaseAllKeepsStep(ids: seq<NodeId>, edges: seq<Edge>, done: set<NodeId>, u: NodeId,
                                               nbrs: seq<NodeId>, j: nat, inDegree: map<NodeId, int>,
                                               order: seq<NodeId>, queue: seq<NodeId>)
    requires MissingEndpoint(ids, edges).None?
    requires nbrs == Targets(edges, u) && u !in done && j < |nbrs|
    requires var p := ReleaseAll(nbrs[..j], inDegree, queue);
      Bookkeeping(ids, edges, done, nbrs[..j], p.0, order, p.1) && queue <= p.1
    ensures var p := ReleaseAll(nbrs[..j + 1], inDegree, queue);
      Bookkeeping(ids, edges, done, nbrs[..j + 1], p.0, order, p.1) && queue <= p.1
  {
    var p := ReleaseAll(nbrs[..j], inDegree, queue);
    ReleaseNext(ids, edges, done, u, nbrs, j, p.0, order, p.1);
    ReleaseAllSnoc(nbrs, j, inDegree, queue);
    PrefixTrans(queue, p.1, Release(nbrs[j], p.0, p.1).1);
  }

  /** The releases of one more target: those before it, then its own. */
  lemma {:induction false} ReleaseAllSnoc(nbrs: seq<NodeId>, j: nat, inDegree: map<NodeId, int>, queue: seq<NodeId>)
    requires j < |nbrs|
    ensures var p := ReleaseAll(nbrs[..j], inDegree, queue);
      ReleaseAll(nbrs[..j + 1], inDegree, queue) == Release(nbrs[j], p.0, p.1)
  {
    assert nbrs[..j + 1][..j] == nbrs[..j];
  }

  /** The `j`-th release from `u` keeps the count of releases of its target
      below that target's in-degree. */
  lemma {:induction false} Releasable(edges: seq<Edge>, done: set<NodeId>, u: NodeId, nbrs: seq<NodeId>, j: nat)
    requires nbrs == Targets(edges, u) && u !in done && j < |nbrs|
    ensures Count(nbrs[..j], nbrs[j]) < InDeg(edges, nbrs[j], done)
  {
    CountPrefix(nbrs, j, nbrs[j]);
    InDegStep(edges, nbrs[j], done, u);
  }

  /** Every edge target is a node id once no endpoint is missing. */
  lemma {:induction false} TargetInIds(ids: seq<NodeId>, edges: seq<Edge>, u: NodeId, v: NodeId)
    requires MissingEndpoint(ids, edges).None?
    requires HasEdge(edges, u, v)
    ensures v in ids
  {
    var i :| 0 <= i < |edges| && edges[i] == Edge(u, v);
    assert edges[i].target in ids;
  }

  /** Once every edge out of `u` is released, the table holds the in-degrees
      with `u` counted as scheduled. */
  lemma {:induction false} Rebase(ids: seq<NodeId>, edges: seq<Edge>, done: set<NodeId>, u: NodeId, inDegree: map<NodeId, int>)
    requires u !in done
    requires TableOk(ids, edges, done, Targets(edges, u), inDegree)
    ensures TableOk(ids, edges, done + {u}, [], inDegree)
  {
    forall v | v in ids ensures inDegree[v] == InDeg(edges, v, done + {u}) - Count([], v) {
      InDegStep(edges, v, done, u);
    }
  }

  /** A schedule that reached every id is a topological order. */
  lemma {:induction false} CompleteSchedule(ids: seq<NodeId>, edges: seq<Edge>, order: seq<NodeId>)
    requires Distinct(ids) && Distinct(order) && |order| == |ids|
    requires forall x :: x in order ==> x in ids
    requires PredsScheduledFirst(edges, order)
    requires MissingEndpoint(ids, edges).None?
    ensures IsPermutationOf(order, ids) && RespectsEdges(order, edges)
    ensures !HasCycle(edges)
  {
    DistinctSubsetLength(order, ids);
    forall i, a, b | 0 <= i < |edges| && 0 <= a < |order| && 0 <= b < |order| &&
      order[a] == edges[i].source && order[b] == edges[i].target
      ensures a < b
    {
      var a' :| 0 <= a' < b && order[..b][a'] == edges[i].source;
    }
    CycleHasNoOrder(order, ids, edges);
  }

  /** A schedule that stopped short with an empty queue left a cycle behind. */
  lemma {:induction false} StuckSchedule(ids: seq<NodeId>, edges: seq<Edge>, inDegree: map<NodeId, int>, order: seq<NodeId>)
    requires Distinct(ids) && |order| < |ids|
    requires MissingEndpoint(ids, edges).None?
    requires Bookkeeping(ids, edges, Elems(order), [], inDegree, order, [])
    ensures HasCycle(edges)
  {
    assert order + [] == order;
    var stuck := Elems(ids) - Elems(order);
    assert stuck != {} by {
      DistinctCard(order);
      DistinctCard(ids);
      if stuck == {} {
        forall x | x in Elems(ids) ensures x in Elems(order) {
          assert x !in stuck;
        }
        SubsetCard(Elems(ids), Elems(order));
      }
    }
    forall x | x in stuck
      ensures HasPredIn(edges, stuck, x)
    {
      InDegPositive(edges, x, Elems(order));
      var i :| 0 <= i < |edges| && edges[i].target == x && edges[i].source !in Elems(order);
      assert edges[i].source in ids;
    }
    StuckHasCycle(edges, stuck);
  }

  /** The initial table and queue satisfy the bookkeeping with nothing
      scheduled. */
  lemma {:induction false} InitialBookkeeping(ids: seq<NodeId>, edges: seq<Edge>, inDegree: map<NodeId, int>, queue: seq<NodeId>)
    requires Distinct(ids)
    requires inDegree.Keys == Elems(ids)
    requires forall v :: v in inDegree ==> inDegree[v] == InDeg(edges, v, {})
    requires queue == Sources(ids, edges)
    ensures Bookkeeping(ids, edges, Elems([]), [], inDegree, [], queue)
    ensures |queue| <= |ids|
  {
    assert Elems<NodeId>([]) == {};
    assert [] + queue == queue;
    DistinctSubsetLength(queue, ids);
  }

  lemma {:induction false} PrefixGrows(p: seq<NodeId>, before: seq<NodeId>, order: seq<NodeId>, mid: seq<NodeId>, queue: seq<NodeId>)
    requires p <= before && before == order + mid && mid <= queue
    ensures p <= order + queue
  {
    assert order + mid <= order + queue;
  }

  /** Moving the head of the queue to the end of the order keeps the
      bookkeeping; the head was not yet scheduled and has in-degree zero. */
  lemma {:induction false} PopFront(ids: seq<NodeId>, edges: seq<Edge>, done: set<NodeId>, inDegree: map<NodeId, int>,
                 order: seq<NodeId>, queue: seq<NodeId>)
    requires queue != []
    requires Bookkeeping(ids, edges, done, [], inDegree, order, queue)
    ensures queue[0] !in order && queue[0] in ids && InDeg(edges, queue[0], done) == 0
    ensures Bookkeeping(ids, edges, done, [], inDegree, order + [queue[0]], queue[1..])
    ensures order + queue == (order + [queue[0]]) + queue[1..]
  {
    var all := order + queue;
    assert all == (order + [queue[0]]) + queue[1..];
    assert all[|order|] == queue[0];
    forall k | 0 <= k < |order| ensures order[k] != queue[0] {
      assert all[k] == order[k];
    }
  }

  /** One step of the outer loop before its edges are released: the head of
      the queue moves to the end of the order, keeping the bookkeeping and
      the rule that predecessors come first. */
  lemma {:induction false} SchedulePop(ids: seq<NodeId>, edges: seq<Edge>, inDegree: map<NodeId, int>,
                    order: seq<NodeId>, queue: seq<NodeId>)
    requires Distinct(ids) && queue != []
    requires Bookkeeping(ids, edges, Elems(order), [], inDegree, order, queue)
    requires PredsScheduledFirst(edges, order)
    ensures |order| < |ids|
    ensures queue[0] !in Elems(order) && queue[0] in ids
    ensures Elems(order + [queue[0]]) == Elems(order) + {queue[0]}
    ensures Bookkeeping(ids, edges, Elems(order), [], inDegree, order + [queue[0]], queue[1..])
    ensures PredsScheduledFirst(edges, order + [queue[0]])
    ensures order + queue == (order + [queue[0]]) + queue[1..]
  {
    assert QueueOk(ids, order + queue);
    DistinctSubsetLength(order + queue, ids);
    PopFront(ids, edges, Elems(order), inDegree, order, queue);
    InDegPositive(edges, queue[0], Elems(order));
    ScheduleKeepsPredsFirst(edges, order, queue[0]);
  }

  /** One round of the outer loop: the front of the queue moves to the end
      of the order and its outgoing edges are released, as the schedule
      function does. */
  method ScheduleNext(ghost ids: seq<NodeId>, ghost edges: seq<Edge>, adj: map<NodeId, seq<NodeId>>,
                      order0: seq<NodeId>, inDegree0: map<NodeId, int>, queue0: seq<NodeId>)
    returns (order: seq<NodeId>, inDegree: map<NodeId, int>, queue: seq<NodeId>)
    requires Distinct(ids) && queue0 != []
    requires MissingEndpoint(ids, edges).None?
    requires adj.Keys == Elems(ids) && forall u :: u in adj ==> adj[u] == Targets(edges, u)
    requires Bookkeeping(ids, edges, Elems(order0), [], inDegree0, order0, queue0)
    requires PredsScheduledFirst(edges, order0)
    ensures Bookkeeping(ids, edges, Elems(order), [], inDegree, order, queue)
    ensures PredsScheduledFirst(edges, order)
    ensures order0 + queue0 <= order + queue
    ensures order == order0 + [queue0[0]] && |order| <= |ids|
    ensures KahnSchedule(adj, inDegree, queue, order, |ids| - |order|) ==
            KahnSchedule(adj, inDegree0, queue0, order0, |ids| - |order0|)
  {
    var u := queue0[0];
    SchedulePop(ids, edges, inDegree0, order0, queue0);
    KahnStep(adj, inDegree0, queue0, order0, |ids| - |order0|);
    order := order0 + [u];
    inDegree, queue := ReleaseNeighbors(ids, edges, Elems(order0), u, adj[u], order, inDegree0, queue0[1..]);
    PrefixGrows(order0 + queue0, order0 + queue0, order, queue0[1..], queue);
  }

  lemma {:induction false} PrefixTrans(a: seq<NodeId>, b: seq<NodeId>, c: seq<NodeId>)
    requires a <= b && b <= c
    ensures a <= c
  {
  }

  /** The outer loop of Kahn's algorithm: pop the front of the queue, append
      it to the order, release its outgoing edges; stop when the queue is
      empty. */
  method DrainQueue(ghost ids: seq<NodeId>, ghost edges: seq<Edge>, adj: map<NodeId, seq<NodeId>>,
                    inDegree0: map<NodeId, int>, queue0: seq<NodeId>)
    returns (order: seq<NodeId>, inDegree: map<NodeId, int>)
    requires Distinct(ids)
    requires MissingEndpoint(ids, edges).None?
    requires adj.Keys == Elems(ids) && forall u :: u in adj ==> adj[u] == Targets(edges, u)
    requires Bookkeeping(ids, edges, Elems([]), [], inDegree0, [], queue0)
    ensures Bookkeeping(ids, edges, Elems(order), [], inDegree, order, [])
    ensures Distinct(order) && |order| <= |ids| && forall x :: x in order ==> x in ids
    ensures PredsScheduledFirst(edges, order)
    ensures queue0 <= order
    ensures order == KahnSchedule(adj, inDegree0, queue0, [], |ids|)
  {
    order, inDegree := [], inDegree0;
    var queue := queue0;
    while queue != []
      invariant Bookkeeping(ids, edges, Elems(order), [], inDegree, order, queue)
      invariant PredsScheduledFirst(edges, order)
      invariant queue0 <= order + queue
      invariant |order| <= |ids|
      invariant KahnSchedule(adj, inDegree, queue, order, |ids| - |order|) == KahnSchedule(adj, inDegree0, queue0, [], |ids|)
      decreases |ids| - |order|
    {
      ghost var before := order + queue;
      order, inDegree, queue := ScheduleNext(ids, edges, adj, order, inDegree, queue);
      PrefixTrans(queue0, before, order + queue);
    }
    assert order + queue == order;
    assert QueueOk(ids, order);
    DistinctSubsetLength(order, ids);
  }

  /** `get_topological_order`: Kahn's algorithm. The result is `[]` when some
      node cannot be scheduled; otherwise it is a topological order whose
      first entries are the initially unconstrained nodes in node-map order. */
  method GetTopologicalOrder(ids: seq<NodeId>, edges: seq<Edge>) returns (r: Result<seq<NodeId>, Exc>)
    requires Distinct(ids)
    ensures r.Err? <==> MissingEndpoint(ids, edges).Some?
    ensures r.Err? ==> r.error == KeyError(MissingEndpoint(ids, edges).value)
    ensures r.Ok? ==> r.value == [] || IsPermutationOf(r.value, ids)
    ensures r.Ok? ==> RespectsEdges(r.value, edges)
    ensures r.Ok? ==> (r.value != [] <==> ids != [] && !HasCycle(edges))
    ensures r.Ok? && r.value != [] ==> Sources(ids, edges) <= r.value
    ensures r.Ok? ==> r.value == KahnOrder(ids, edges)
  {
    var adjR := BuildAdjacencyList(ids, edges);
    if adjR.Err? {
      return Err(adjR.error);
    }
    var degR := InDegreeTable(ids, edges);
    if degR.Err? {
      return Err(degR.error);
    }
    var queue := InitialQueue(ids, edges, degR.value);
    InitialBookkeeping(ids, edges, degR.value, queue);
    IsAdjacency(ids, edges, adjR.value);
    IsInDegrees(ids, edges, degR.value);
    var order, inDegree := DrainQueue(ids, edges, adjR.value, degR.value, queue);
    if |order| == |ids| {
      assert order + [] == order;
      CompleteSchedule(ids, edges, order);
      return Ok(order);
    } else {
      StuckSchedule(ids, edges, inDegree, order);
      return Ok([]);
    }
  }

  /** With no edges every node is unconstrained from the start, so the order
      is the node-map order. */
  lemma {:induction false} NoEdgesSources(ids: seq<NodeId>)
    ensures Sources(ids, []) == ids
  {
    if ids != [] {
      NoEdgesSources(ids[..|ids| - 1]);
      assert InDeg([], ids[|ids| - 1], {}) == 0;
      assert ids == ids[..|ids| - 1] + [ids[|ids| - 1]];
    }
  }

  /** Without edges the order is the node ids in insertion order. */
  lemma {:induction false} NoEdgesKeepsNodeOrder(ids: seq<NodeId>, order: seq<NodeId>)
    requires IsPermutationOf(order, ids)
    requires Sources(ids, []) <= order
    ensures order == ids
  {
    NoEdgesSources(ids);
  }

  lemma {:induction false} NoEdgesNoCycle()
    ensures !HasCycle([])
  {
    forall w | |w| >= 2 ensures !IsClosedWalk([], w) {
      assert !HasEdge([], w[0], w[1]);
    }
  }
}
