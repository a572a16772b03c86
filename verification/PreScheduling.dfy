/** preSchedule and the planning half of the scheduler's Reconcile
    (internal/controller/nodemaintenancescheduler_controller.go). */
module PreScheduling {
  import opened Api
  import opened Ordering
  import opened Ranking
  import opened Scheduling
  import opened Seqs

  /** intstr.IntOrString: a number, a percentage, or text that is neither. */
  datatype IntOrString = Number(n: int) | Percent(p: int) | Malformed

  /** The scheduler's options; an absent option is None. */
  datatype Limits = Limits(maxUnavailable: Option<IntOrString>, maxParallelOperations: Option<IntOrString>)

  /** intstr.GetScaledValueFromIntOrPercent. Division is Euclidean, so by a positive number it
      rounds down. */
  function Scaled(v: IntOrString, total: nat, roundUp: bool): Option<int> {
    match v
    case Number(n) => Some(n)
    case Percent(p) => if roundUp then Some(-((-(p * total)) / 100)) else Some(p * total / 100)
    case Malformed => None
  }

  /** getMaxUnavailableNodes: -1 stands for no limit. */
  function MaxUnavailable(limits: Limits, total: nat): Option<int> {
    match limits.maxUnavailable
    case None => Some(-1)
    case Some(v) => Scaled(v, total, false)
  }

  function MaxOperations(limits: Limits, total: nat): Option<int> {
    match limits.maxParallelOperations
    case None => Some(1)
    case Some(v) => Scaled(v, total, true)
  }

  function Names(nodes: seq<Node>): set<string> {
    set n | n in nodes :: n.name
  }

  ghost predicate UniqueNames(nodes: seq<Node>) {
    forall i, j :: 0 <= i < j < |nodes| ==> nodes[i].name != nodes[j].name
  }

  /** Names of existing nodes that have a request in progress. */
  function NodesUnder(names: set<string>, reqs: seq<Request>): set<string> {
    set r | r in reqs && UnderMaintenance(r.nm) && r.nm.node in names :: r.nm.node
  }

  /** Names of existing nodes that have a request in phase Pending. */
  function NodesPending(names: set<string>, reqs: seq<Request>): set<string> {
    set r | r in reqs && r.nm.reason == Pending && r.nm.node in names :: r.nm.node
  }

  function UnavailableNames(nodes: seq<Node>): set<string> {
    set n | n in nodes && !Available(n) :: n.name
  }

  function CandidateNodes(nodes: seq<Node>, reqs: seq<Request>): set<string> {
    NodesPending(Names(nodes), reqs) - NodesUnder(Names(nodes), reqs)
  }

  function Slots(nodes: seq<Node>, reqs: seq<Request>, maxOperations: int): int {
    Min(Max(0, maxOperations - |NodesUnder(Names(nodes), reqs)|), |nodes|)
  }

  /** Names of the nodes that are unavailable or will be because of a request in progress. */
  function Committed(nodes: seq<Node>, reqs: seq<Request>): set<string> {
    UnavailableNames(nodes) + NodesUnder(Names(nodes), reqs)
  }

  function Budget(nodes: seq<Node>, reqs: seq<Request>, maxUnavailable: int, slots: int): int {
    if maxUnavailable >= 0 then Max(0, maxUnavailable - |Committed(nodes, reqs)|) else slots
  }

  function ContextOf(nodes: seq<Node>, reqs: seq<Request>, limits: Limits): Option<SchedulerContext> {
    match (MaxUnavailable(limits, |nodes|), MaxOperations(limits, |nodes|))
    case (Some(maxUnavailable), Some(maxOperations)) =>
      var slots := Slots(nodes, reqs, maxOperations);
      var candidateNodes := CandidateNodes(nodes, reqs);
      Some(SchedulerContext(slots, Budget(nodes, reqs, maxUnavailable, slots), candidateNodes,
                            Filter((r: Request) => r.nm.node in candidateNodes, reqs)))
    case _ => None
  }

  method CurrentUnavailableNodes(nodes: seq<Node>) returns (unavailable: seq<string>)
    ensures (set n | n in unavailable) == UnavailableNames(nodes)
  {
    unavailable := [];
    for i := 0 to |nodes|
      invariant (set n | n in unavailable) == UnavailableNames(nodes[..i])
    {
      assert nodes[..i + 1] == nodes[..i] + [nodes[i]];
      if nodes[i].unschedulable || !NodeReady(nodes[i]) {
        ghost var before := unavailable;
        unavailable := unavailable + [nodes[i].name];
        assert (set n | n in unavailable) == (set n | n in before) + {nodes[i].name};
        assert UnavailableNames(nodes[..i + 1]) == UnavailableNames(nodes[..i]) + {nodes[i].name};
      } else {
        assert UnavailableNames(nodes[..i + 1]) == UnavailableNames(nodes[..i]);
      }
    }
    assert nodes[..|nodes|] == nodes;
  }

  method PreSchedule(nodes: seq<Node>, reqs: seq<Request>, limits: Limits) returns (ctx: Option<SchedulerContext>)
    ensures ctx == ContextOf(nodes, reqs, limits)
  {
    hide NodesUnder, NodesPending, UnavailableNames, Names, Filter, MaxUnavailable, MaxOperations;
    var names := NameSet(nodes);
    var under := UnderSet(names, reqs);
    var pending := PendingSet(names, reqs);
    var unavailable := CurrentUnavailableNodes(nodes);
    var total := (set n | n in unavailable) + under;
    var maxUnavailable := MaxUnavailable(limits, |nodes|);
    if maxUnavailable == None { return None; }
    var maxOperations := MaxOperations(limits, |nodes|);
    if maxOperations == None { return None; }
    var slots := Min(Max(0, maxOperations.value - |under|), |nodes|);
    var canBecomeUnavailable := slots;
    if maxUnavailable.value >= 0 {
      canBecomeUnavailable := Max(0, maxUnavailable.value - |total|);
    }
    var candidateNodes := pending - under;
    var candidates: seq<Request> := [];
    if |candidateNodes| > 0 {
      candidates := RequestsOn(candidateNodes, reqs);
    } else {
      FilterNone((r: Request) => r.nm.node in candidateNodes, reqs);
    }
    ctx := Some(SchedulerContext(slots, canBecomeUnavailable, candidateNodes, candidates));
  }

  method RequestsOn(candidateNodes: set<string>, reqs: seq<Request>) returns (candidates: seq<Request>)
    ensures candidates == Filter((r: Request) => r.nm.node in candidateNodes, reqs)
  {
    var p := (r: Request) => r.nm.node in candidateNodes;
    candidates := [];
    for i := 0 to |reqs|
      invariant candidates == Filter(p, reqs[..i])
    {
      FilterStep(p, reqs, i);
      if reqs[i].nm.node in candidateNodes {
        candidates := candidates + [reqs[i]];
      }
    }
    assert reqs[..|reqs|] == reqs;
  }

  lemma {:induction false} FilterNone(p: Request -> bool, reqs: seq<Request>)
    requires forall r :: r in reqs ==> !p(r)
    ensures Filter(p, reqs) == []
  {
    if reqs != [] { FilterNone(p, reqs[..|reqs| - 1]); }
  }

  method NameSet(nodes: seq<Node>) returns (names: set<string>)
    ensures names == Names(nodes)
  {
    names := {};
    for i := 0 to |nodes|
      invariant names == Names(nodes[..i])
    {
      assert nodes[..i + 1] == nodes[..i] + [nodes[i]];
      assert Names(nodes[..i + 1]) == Names(nodes[..i]) + {nodes[i].name};
      names := names + {nodes[i].name};
    }
    assert nodes[..|nodes|] == nodes;
  }

  method UnderSet(names: set<string>, reqs: seq<Request>) returns (under: set<string>)
    ensures under == NodesUnder(names, reqs)
  {
    under := {};
    for i := 0 to |reqs|
      invariant under == NodesUnder(names, reqs[..i])
    {
      assert reqs[..i + 1] == reqs[..i] + [reqs[i]];
      if UnderMaintenance(reqs[i].nm) && reqs[i].nm.node in names {
        assert NodesUnder(names, reqs[..i + 1]) == NodesUnder(names, reqs[..i]) + {reqs[i].nm.node};
        under := under + {reqs[i].nm.node};
      } else {
        assert NodesUnder(names, reqs[..i + 1]) == NodesUnder(names, reqs[..i]);
      }
    }
    assert reqs[..|reqs|] == reqs;
  }

  method PendingSet(names: set<string>, reqs: seq<Request>) returns (pending: set<string>)
    ensures pending == NodesPending(names, reqs)
  {
    pending := {};
    for i := 0 to |reqs|
      invariant pending == NodesPending(names, reqs[..i])
    {
      assert reqs[..i + 1] == reqs[..i] + [reqs[i]];
      if reqs[i].nm.reason == Pending && reqs[i].nm.node in names {
        assert NodesPending(names, reqs[..i + 1]) == NodesPending(names, reqs[..i]) + {reqs[i].nm.node};
        pending := pending + {reqs[i].nm.node};
      } else {
        assert NodesPending(names, reqs[..i + 1]) == NodesPending(names, reqs[..i]);
      }
    }
    assert reqs[..|reqs|] == reqs;
  }

  // ------------------------------------------------------------- one round

  /** The requests one scheduler round decides to schedule. */
  function Plan(nodes: seq<Node>, reqs: seq<Request>, limits: Limits): seq<Request> {
    match ContextOf(nodes, reqs, limits)
    case None => []
    case Some(ctx) =>
      if ctx.candidates == [] || ctx.candidateNodes == {} || ctx.availableSlots == 0 then []
      else Recommended(ClusterStateOf(nodes, reqs), ctx)
  }

  method PlanRound(nodes: seq<Node>, reqs: seq<Request>, limits: Limits) returns (toSchedule: seq<Request>)
    requires Named(reqs)
    ensures toSchedule == Plan(nodes, reqs, limits)
  {
    var ctx := PreSchedule(nodes, reqs, limits);
    if ctx == None { return []; }
    if |ctx.value.candidates| == 0 { return []; }
    if |ctx.value.candidateNodes| == 0 { return []; }
    if ctx.value.availableSlots == 0 { return []; }
    var cs := NewClusterState(nodes, reqs);
    CandidatesFit(nodes, reqs, limits);
    toSchedule := Schedule(cs, ctx.value);
  }

  /** Every candidate is known by name and its node is in the cluster state, so the scheduler
      finds every node it looks up. */
  lemma CandidatesFit(nodes: seq<Node>, reqs: seq<Request>, limits: Limits)
    requires Named(reqs) && ContextOf(nodes, reqs, limits).Some?
    ensures
      var ctx := ContextOf(nodes, reqs, limits).value;
      Named(ctx.candidates) &&
      forall r :: r in ctx.candidates <==> r in reqs && r.nm.node in ctx.candidateNodes
    ensures
      var ctx := ContextOf(nodes, reqs, limits).value;
      forall r :: r in ctx.candidates ==> r.nm.node in NodeMap(nodes)
  {
    var ctx := ContextOf(nodes, reqs, limits).value;
    var p := (r: Request) => r.nm.node in CandidateNodes(nodes, reqs);
    FilterNamed(p, reqs);
    forall r ensures r in ctx.candidates <==> r in reqs && r.nm.node in ctx.candidateNodes {
      FilterIn(p, reqs, r);
    }
    forall r | r in ctx.candidates ensures r.nm.node in NodeMap(nodes) {
      assert r.nm.node in Names(nodes);
      NodeMapKeys(nodes, r.nm.node);
    }
  }

  lemma {:induction false} FilterNamed(p: Request -> bool, reqs: seq<Request>)
    requires Named(reqs)
    ensures Named(Filter(p, reqs))
  {
    if reqs != [] {
      var front, last := reqs[..|reqs| - 1], reqs[|reqs| - 1];
      FilterNamed(p, front);
      forall r ensures r in Filter(p, front) <==> r in front && p(r) { FilterIn(p, front, r); }
      forall i | 0 <= i < |Filter(p, front)| ensures Filter(p, front)[i].key != last.key {
        assert Filter(p, front)[i] in front;
      }
    }
  }
}
