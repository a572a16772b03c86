/** Properties of one scheduler round as a whole, from the listed objects to the requests it
    decides to schedule. */
module Planning {
  import opened Api
  import opened Ordering
  import opened Ranking
  import opened Scheduling
  import opened Selection
  import opened PreScheduling
  import opened Seqs

  /** The sorted candidates of a round. */
  ghost function Order(nodes: seq<Node>, reqs: seq<Request>, ctx: SchedulerContext): seq<Ranked> {
    SortRanked(RankAll(ClusterStateOf(nodes, reqs), ctx.candidates))
  }

  ghost function RoundWindow(nodes: seq<Node>, reqs: seq<Request>, ctx: SchedulerContext): seq<Ranked> {
    Window(Order(nodes, reqs, ctx), ctx.availableSlots)
  }

  lemma OrderIn(nodes: seq<Node>, reqs: seq<Request>, ctx: SchedulerContext, x: Ranked)
    requires Named(ctx.candidates)
    ensures x in Order(nodes, reqs, ctx) <==>
            x.req in ctx.candidates && x.rank == Weight(ClusterStateOf(nodes, reqs), x.req.nm.requestor)
  {
    var cs := ClusterStateOf(nodes, reqs);
    RankAllIn(cs, ctx.candidates, x);
    RankAllNamed(cs, ctx.candidates);
    SortRankedSorts(RankAll(cs, ctx.candidates));
    PermutationNamed(RankAll(cs, ctx.candidates), Order(nodes, reqs, ctx));
  }

  lemma WindowOnePerNode(nodes: seq<Node>, reqs: seq<Request>, ctx: SchedulerContext)
    requires Named(ctx.candidates)
    ensures OnePerNode(RoundWindow(nodes, reqs, ctx))
    ensures forall x :: x in RoundWindow(nodes, reqs, ctx) ==> x.req in ctx.candidates
    ensures |RoundWindow(nodes, reqs, ctx)| <= Max(0, ctx.availableSlots)
  {
    var s := Order(nodes, reqs, ctx);
    CompactOnePerNode(s);
    forall x | x in RoundWindow(nodes, reqs, ctx) ensures x.req in ctx.candidates {
      assert x in Compact(s);
      OrderIn(nodes, reqs, ctx, x);
    }
  }

  /** The chosen requests sit on different nodes. */
  lemma PicksOnePerNode(nodes: map<string, Node>, w: seq<Ranked>, budget: int)
    requires OnePerNode(w)
    ensures
      var p := Picks(nodes, w, budget);
      forall i, j :: 0 <= i < j < |p| ==> p[i].nm.node != p[j].nm.node
    ensures forall r :: r in Picks(nodes, w, budget) ==> exists x :: x in w && x.req == r
    ensures |Picks(nodes, w, budget)| <= |w|
  {
    var p := Picks(nodes, w, budget);
    var at := PicksInOrder(nodes, w, budget);
    forall r | r in p ensures exists x :: x in w && x.req == r {
      var j :| 0 <= j < |p| && p[j] == r;
      assert w[at[j]] in w;
    }
    forall i, j | 0 <= i < j < |p| ensures p[i].nm.node != p[j].nm.node {
      assert at[i] < at[j];
    }
    PicksLength(nodes, w, budget);
  }

  lemma {:induction false} PicksLength(nodes: map<string, Node>, w: seq<Ranked>, budget: int)
    ensures |Picks(nodes, w, budget)| <= |w|
  {
    if w != [] { PicksLength(nodes, w[..|w| - 1], budget); }
  }

  /** A planned request is listed, not yet under maintenance, and its node exists and has no
      request in progress in the list. */
  ghost predicate Eligible(nodes: seq<Node>, reqs: seq<Request>, r: Request) {
    && r in reqs
    && !UnderMaintenance(r.nm)
    && r.nm.node in Names(nodes)
    && forall q :: q in reqs && UnderMaintenance(q.nm) ==> q.nm.node != r.nm.node
  }

  lemma PlanSound(nodes: seq<Node>, reqs: seq<Request>, limits: Limits)
    requires Named(reqs)
    ensures forall r :: r in Plan(nodes, reqs, limits) ==> Eligible(nodes, reqs, r)
    ensures
      var p := Plan(nodes, reqs, limits);
      forall i, j :: 0 <= i < j < |p| ==> p[i].nm.node != p[j].nm.node
    ensures
      Plan(nodes, reqs, limits) != [] ==>
        MaxOperations(limits, |nodes|).Some? &&
        |NodesUnder(Names(nodes), reqs)| + |Plan(nodes, reqs, limits)| <= MaxOperations(limits, |nodes|).value
  {
    if Plan(nodes, reqs, limits) != [] {
      var ctx := ContextOf(nodes, reqs, limits).value;
      CandidatesFit(nodes, reqs, limits);
      WindowOnePerNode(nodes, reqs, ctx);
      PicksOnePerNode(NodeMap(nodes), RoundWindow(nodes, reqs, ctx), ctx.canBecomeUnavailable);
      forall r | r in Plan(nodes, reqs, limits) ensures Eligible(nodes, reqs, r) {
        var x :| x in RoundWindow(nodes, reqs, ctx) && x.req == r;
        CandidateEligible(nodes, reqs, limits, r);
      }
    }
  }

  lemma PlanInjective(nodes: seq<Node>, reqs: seq<Request>, limits: Limits, a: Request, b: Request)
    requires Named(reqs) && a in Plan(nodes, reqs, limits) && b in Plan(nodes, reqs, limits)
    requires a.nm.node == b.nm.node
    ensures a == b
  {
    var p := Plan(nodes, reqs, limits);
    PlanSound(nodes, reqs, limits);
    var x :| 0 <= x < |p| && p[x] == a;
    var y :| 0 <= y < |p| && p[y] == b;
    assert !(x < y) && !(y < x);
  }

  /** Of the candidates on one node a round takes none but the first in the order. */
  lemma PlanTakesBest(nodes: seq<Node>, reqs: seq<Request>, limits: Limits, r: Request, q: Request)
    requires Named(reqs) && r in Plan(nodes, reqs, limits) && q in reqs && q.nm.node == r.nm.node && q != r
    ensures
      var cs := ClusterStateOf(nodes, reqs);
      CompareRanked(Ranked(r, Weight(cs, r.nm.requestor)), Ranked(q, Weight(cs, q.nm.requestor))) <= 0
  {
    hide CompareRanked, Weight;
    var ctx, cs := ContextOf(nodes, reqs, limits).value, ClusterStateOf(nodes, reqs);
    var order := Order(nodes, reqs, ctx);
    CandidatesFit(nodes, reqs, limits);
    WindowOnePerNode(nodes, reqs, ctx);
    PicksOnePerNode(NodeMap(nodes), RoundWindow(nodes, reqs, ctx), ctx.canBecomeUnavailable);
    var x :| x in RoundWindow(nodes, reqs, ctx) && x.req == r;
    assert x in Compact(order);
    CompactOnePerNode(order);
    OrderIn(nodes, reqs, ctx, x);
    FilterIn((z: Request) => z.nm.node in ctx.candidateNodes, reqs, r);
    FilterIn((z: Request) => z.nm.node in ctx.candidateNodes, reqs, q);
    OrderIn(nodes, reqs, ctx, Ranked(q, Weight(cs, q.nm.requestor)));
    RankAllNamed(cs, ctx.candidates);
    SortRankedSorts(RankAll(cs, ctx.candidates));
    CompactKeepsBest(order);
  }

  lemma CandidateEligible(nodes: seq<Node>, reqs: seq<Request>, limits: Limits, r: Request)
    requires Named(reqs) && ContextOf(nodes, reqs, limits).Some?
    requires r in reqs && r.nm.node in CandidateNodes(nodes, reqs)
    ensures Eligible(nodes, reqs, r)
  {
    var names := Names(nodes);
    assert r.nm.node in names;
    forall q | q in reqs && UnderMaintenance(q.nm) ensures q.nm.node != r.nm.node {
      assert q.nm.node in NodesUnder(names, reqs) || q.nm.node !in names;
    }
  }

  /** The pipeline fits together: compaction leaves exactly one entry for each candidate node,
      and without an unavailability limit the round fills every slot it can. */
  lemma PipelineFit(nodes: seq<Node>, reqs: seq<Request>, limits: Limits)
    requires Named(reqs) && ContextOf(nodes, reqs, limits).Some?
    ensures
      var ctx := ContextOf(nodes, reqs, limits).value;
      |Compact(Order(nodes, reqs, ctx))| == |ctx.candidateNodes|
    ensures
      var ctx := ContextOf(nodes, reqs, limits).value;
      limits.maxUnavailable == None ==>
        |Plan(nodes, reqs, limits)| == Min(ctx.availableSlots, |ctx.candidateNodes|)
  {
    var ctx := ContextOf(nodes, reqs, limits).value;
    var s := Order(nodes, reqs, ctx);
    CandidatesFit(nodes, reqs, limits);
    CandidateNodesCovered(nodes, reqs, limits);
    CompactLength(s);
    if limits.maxUnavailable == None {
      AllChosen(NodeMap(nodes), RoundWindow(nodes, reqs, ctx), ctx.canBecomeUnavailable);
    }
  }

  lemma CandidateNodesCovered(nodes: seq<Node>, reqs: seq<Request>, limits: Limits)
    requires Named(reqs) && ContextOf(nodes, reqs, limits).Some?
    ensures
      var ctx := ContextOf(nodes, reqs, limits).value;
      NodesOf(Order(nodes, reqs, ctx)) == ctx.candidateNodes
  {
    var ctx := ContextOf(nodes, reqs, limits).value;
    var s := Order(nodes, reqs, ctx);
    CandidatesFit(nodes, reqs, limits);
    forall n ensures n in NodesOf(s) <==> n in ctx.candidateNodes {
      if n in NodesOf(s) {
        var x :| x in s && x.req.nm.node == n;
        OrderIn(nodes, reqs, ctx, x);
      }
      if n in ctx.candidateNodes {
        var r :| r in reqs && r.nm.reason == Pending && r.nm.node == n;
        var x := Ranked(r, Weight(ClusterStateOf(nodes, reqs), r.nm.requestor));
        OrderIn(nodes, reqs, ctx, x);
      }
    }
  }

  /** A budget as large as the window leaves nobody out. */
  lemma {:induction false} AllChosen(nodes: map<string, Node>, w: seq<Ranked>, budget: int)
    requires |w| <= budget
    ensures |Picks(nodes, w, budget)| == |w|
  {
    if w != [] {
      AllChosen(nodes, w[..|w| - 1], budget);
      CountAtMostLength(nodes, w[..|w| - 1]);
    }
  }

  lemma {:induction false} CountAtMostLength(nodes: map<string, Node>, w: seq<Ranked>)
    ensures AvailableCount(nodes, w) <= |w|
  {
    if w != [] { CountAtMostLength(nodes, w[..|w| - 1]); }
  }

  // ------------------------------------------------------ unavailability bound

  /** The nodes of a set of requests. */
  ghost function NodesFor(rs: set<Request>): set<string> {
    set r | r in rs :: r.nm.node
  }

  /** Planned requests on available nodes are at most as many as the budget. */
  lemma AvailablePicked(nodes: map<string, Node>, w: seq<Ranked>, budget: nat, rs: set<Request>)
    requires forall r :: r in rs ==> r in Picks(nodes, w, budget) && r.nm.node in nodes && Available(nodes[r.nm.node])
    ensures |NodesFor(rs)| <= budget
  {
    var at := PicksInOrder(nodes, w, budget);
    var both := ChosenIndices(nodes, w, budget) * AvailableIndices(nodes, w);
    ChosenAvailable(nodes, w, budget);
    var names := set i | i in both :: w[i].req.nm.node;
    ImageSize(w, both);
    forall n | n in NodesFor(rs) ensures n in names {
      var r :| r in rs && r.nm.node == n;
      var j :| 0 <= j < |Picks(nodes, w, budget)| && Picks(nodes, w, budget)[j] == r;
      assert at[j] in at;
      assert at[j] in both;
    }
    SubsetSize(NodesFor(rs), names);
  }

  lemma {:induction false} ImageSize(w: seq<Ranked>, ix: set<int>)
    requires forall i :: i in ix ==> 0 <= i < |w|
    ensures |set i | i in ix :: w[i].req.nm.node| <= |ix|
  {
    if |ix| > 0 {
      var x := Element(ix);
      var rest := ix - {x};
      ImageSize(w, rest);
      assert (set i | i in ix :: w[i].req.nm.node) == (set i | i in rest :: w[i].req.nm.node) + {w[x].req.nm.node};
      UnionSize(set i | i in rest :: w[i].req.nm.node, {w[x].req.nm.node});
    }
  }

  lemma NodeMapUnique(nodes: seq<Node>, n: Node)
    requires UniqueNames(nodes) && n in nodes
    ensures n.name in NodeMap(nodes) && NodeMap(nodes)[n.name] == n
  {
    NodeMapKeys(nodes, n.name);
  }

  /** Whichever of the planned writes succeed, the nodes that are unavailable or in maintenance
      afterwards are no more than the limit, unless they were already more before. */
  lemma UnavailabilityBound(nodes: seq<Node>, reqs: seq<Request>, limits: Limits, done: set<Request>)
    requires Named(reqs) && UniqueNames(nodes)
    requires forall r :: r in done ==> r in Plan(nodes, reqs, limits)
    requires MaxUnavailable(limits, |nodes|).Some? && MaxUnavailable(limits, |nodes|).value >= 0
    ensures |Committed(nodes, reqs) + NodesFor(done)| <=
            Max(|Committed(nodes, reqs)|, MaxUnavailable(limits, |nodes|).value)
  {
    var before := Committed(nodes, reqs);
    if done == {} {
      assert before + NodesFor(done) == before;
    } else {
      var some :| some in done;
      var ctx := ContextOf(nodes, reqs, limits).value;
      var taking := set r | r in done && r.nm.node in NodeMap(nodes) && Available(NodeMap(nodes)[r.nm.node]);
      AvailablePicked(NodeMap(nodes), RoundWindow(nodes, reqs, ctx), ctx.canBecomeUnavailable, taking);
      forall n | n in NodesFor(done) && n !in NodesFor(taking) ensures n in before {
        var r :| r in done && r.nm.node == n;
        PlanSound(nodes, reqs, limits);
        NodeMapKeys(nodes, n);
        assert NodeMap(nodes)[n] in nodes && !Available(NodeMap(nodes)[n]);
        assert n in UnavailableNames(nodes);
      }
      assert before + NodesFor(done) == before + NodesFor(taking) + (NodesFor(done) - NodesFor(taking));
      assert before + NodesFor(done) == before + NodesFor(taking);
      UnionSize(before, NodesFor(taking));
      if ctx.canBecomeUnavailable == 0 {
        assert NodesFor(taking) == {};
      }
    }
  }

  /** A percentage limit that holds before the round holds after it, measured exactly. */
  lemma PercentBound(nodes: seq<Node>, reqs: seq<Request>, limits: Limits, done: set<Request>, percent: nat)
    requires Named(reqs) && UniqueNames(nodes)
    requires forall r :: r in done ==> r in Plan(nodes, reqs, limits)
    requires limits.maxUnavailable == Some(Percent(percent))
    requires 100 * |Committed(nodes, reqs)| <= percent * |nodes|
    ensures 100 * |Committed(nodes, reqs) + NodesFor(done)| <= percent * |nodes|
  {
    UnavailabilityBound(nodes, reqs, limits, done);
  }

  // ------------------------------------------------------ order independence

  /** A round decides the same, in the same sequence, for every order of the listed objects. */
  lemma PlanOrderIndependence(nodes: seq<Node>, nodes': seq<Node>, reqs: seq<Request>, reqs': seq<Request>,
                              limits: Limits)
    requires Named(reqs) && Named(reqs') && SameElements(reqs, reqs')
    requires UniqueNames(nodes) && UniqueNames(nodes') && SameElements(nodes, nodes')
    ensures Plan(nodes, reqs, limits) == Plan(nodes', reqs', limits)
  {
    SameContext(nodes, nodes', reqs, reqs', limits);
    if ContextOf(nodes, reqs, limits).Some? {
      var a, b := ContextOf(nodes, reqs, limits).value, ContextOf(nodes', reqs', limits).value;
      CandidatesFit(nodes, reqs, limits);
      CandidatesFit(nodes', reqs', limits);
      SameClusterState(nodes, nodes', reqs, reqs');
      OrderIndependence(ClusterStateOf(nodes, reqs), ClusterStateOf(nodes', reqs'), a, b);
      SameEmptiness(a.candidates, b.candidates);
    }
  }

  lemma SameContext(nodes: seq<Node>, nodes': seq<Node>, reqs: seq<Request>, reqs': seq<Request>, limits: Limits)
    requires Named(reqs) && Named(reqs') && SameElements(reqs, reqs')
    requires UniqueNames(nodes) && UniqueNames(nodes') && SameElements(nodes, nodes')
    ensures
      var (a, b) := (ContextOf(nodes, reqs, limits), ContextOf(nodes', reqs', limits));
      (a.Some? <==> b.Some?) &&
      (a.Some? ==> a.value.(candidates := []) == b.value.(candidates := []))
  {
    SameCount(nodes, nodes');
    assert Names(nodes) == Names(nodes');
    assert UnavailableNames(nodes) == UnavailableNames(nodes');
    assert NodesUnder(Names(nodes), reqs) == NodesUnder(Names(nodes), reqs');
    assert NodesPending(Names(nodes), reqs) == NodesPending(Names(nodes), reqs');
  }

  lemma SameEmptiness(a: seq<Request>, b: seq<Request>)
    requires SameElements(a, b)
    ensures a == [] <==> b == []
  {
    assert |a| > 0 ==> a[0] in a;
    assert |b| > 0 ==> b[0] in b;
  }

  lemma SameCount(nodes: seq<Node>, nodes': seq<Node>)
    requires UniqueNames(nodes) && UniqueNames(nodes') && SameElements(nodes, nodes')
    ensures |nodes| == |nodes'|
  {
    DistinctLength(nodes);
    DistinctLength(nodes');
    assert (set n | n in nodes) == (set n | n in nodes');
  }

  lemma SameClusterState(nodes: seq<Node>, nodes': seq<Node>, reqs: seq<Request>, reqs': seq<Request>)
    requires Named(reqs) && Named(reqs') && SameElements(reqs, reqs')
    requires UniqueNames(nodes) && UniqueNames(nodes') && SameElements(nodes, nodes')
    ensures SameState(ClusterStateOf(nodes, reqs), ClusterStateOf(nodes', reqs'))
  {
    forall r ensures r in Filter(IsUnder, reqs) <==> r in Filter(IsUnder, reqs') {
      FilterIn(IsUnder, reqs, r);
      FilterIn(IsUnder, reqs', r);
    }
    forall r ensures r in Filter(IsPending, reqs) <==> r in Filter(IsPending, reqs') {
      FilterIn(IsPending, reqs, r);
      FilterIn(IsPending, reqs', r);
    }
    FilterDistinct(IsPending, reqs);
    FilterDistinct(IsPending, reqs');
    SameNodeMap(nodes, nodes');
  }

  lemma SameNodeMap(nodes: seq<Node>, nodes': seq<Node>)
    requires UniqueNames(nodes) && UniqueNames(nodes') && SameElements(nodes, nodes')
    ensures NodeMap(nodes) == NodeMap(nodes')
  {
    forall n: string
      ensures n in NodeMap(nodes) <==> n in NodeMap(nodes')
      ensures n in NodeMap(nodes) && n in NodeMap(nodes') ==> NodeMap(nodes)[n] == NodeMap(nodes')[n]
    {
      NodeMapKeys(nodes, n);
      NodeMapKeys(nodes', n);
      if n in NodeMap(nodes) {
        NodeMapUnique(nodes', NodeMap(nodes)[n]);
      }
    }
  }
}
