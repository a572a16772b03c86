/** The two rankers of internal/scheduler/ranker.go and the cluster state they look at. */
module Ranking {
  import opened Api
  import opened Ordering
  import opened Seqs

  const IN_PROGRESS_WEIGHT := 1000
  const LEAST_PENDING_MAX_WEIGHT := 100

  datatype ClusterState = ClusterState(nodes: map<string, Node>, inProgress: seq<Request>, pending: seq<Request>)

  datatype Ranker = InProgressRanker | LeastPendingRanker

  predicate IsUnder(r: Request) { UnderMaintenance(r.nm) }

  predicate IsPending(r: Request) { r.nm.reason == Pending }

  /** The node map: of two nodes with one name the later one is kept. */
  function NodeMap(nodes: seq<Node>): map<string, Node> {
    if nodes == [] then map[]
    else NodeMap(nodes[..|nodes| - 1])[nodes[|nodes| - 1].name := nodes[|nodes| - 1]]
  }

  function ClusterStateOf(nodes: seq<Node>, reqs: seq<Request>): ClusterState {
    ClusterState(NodeMap(nodes), Filter(IsUnder, reqs), Filter(IsPending, reqs))
  }

  method NewClusterState(nodes: seq<Node>, reqs: seq<Request>) returns (cs: ClusterState)
    ensures cs == ClusterStateOf(nodes, reqs)
  {
    var n: map<string, Node> := map[];
    for i := 0 to |nodes|
      invariant n == NodeMap(nodes[..i])
    {
      assert nodes[..i + 1][..i] == nodes[..i];
      n := n[nodes[i].name := nodes[i]];
    }
    assert nodes[..|nodes|] == nodes;
    var inProgress: seq<Request>, pending: seq<Request> := [], [];
    for i := 0 to |reqs|
      invariant inProgress == Filter(IsUnder, reqs[..i])
      invariant pending == Filter(IsPending, reqs[..i])
    {
      FilterStep(IsUnder, reqs, i);
      FilterStep(IsPending, reqs, i);
      if UnderMaintenance(reqs[i].nm) {
        inProgress := inProgress + [reqs[i]];
        continue;
      }
      if reqs[i].nm.reason == Pending {
        pending := pending + [reqs[i]];
      }
    }
    assert reqs[..|reqs|] == reqs;
    cs := ClusterState(n, inProgress, pending);
  }

  lemma {:induction false} NodeMapKeys(nodes: seq<Node>, name: string)
    ensures name in NodeMap(nodes) <==> exists n :: n in nodes && n.name == name
    ensures name in NodeMap(nodes) ==> NodeMap(nodes)[name] in nodes && NodeMap(nodes)[name].name == name
  {
    if nodes != [] {
      var front, last := nodes[..|nodes| - 1], nodes[|nodes| - 1];
      NodeMapKeys(front, name);
      assert nodes == front + [last];
      assert last in nodes;
    }
  }

  predicate HasInProgress(cs: ClusterState, who: string) {
    exists q | q in cs.inProgress :: q.nm.requestor == who
  }

  function PendingCount(pending: seq<Request>, who: string): nat {
    if pending == [] then 0
    else PendingCount(pending[..|pending| - 1], who) +
         if pending[|pending| - 1].nm.requestor == who then 1 else 0
  }

  function Contribution(cs: ClusterState, ranker: Ranker, who: string): int {
    match ranker
    case InProgressRanker => if HasInProgress(cs, who) then IN_PROGRESS_WEIGHT else 0
    case LeastPendingRanker =>
      LEAST_PENDING_MAX_WEIGHT - Min(PendingCount(cs.pending, who), LEAST_PENDING_MAX_WEIGHT)
  }

  function Total(cs: ClusterState, rankers: seq<Ranker>, who: string): int {
    if rankers == [] then 0
    else Total(cs, rankers[..|rankers| - 1], who) + Contribution(cs, rankers[|rankers| - 1], who)
  }

  lemma TotalStep(cs: ClusterState, rankers: seq<Ranker>, k: nat, who: string)
    requires k < |rankers|
    ensures Total(cs, rankers[..k + 1], who) == Total(cs, rankers[..k], who) + Contribution(cs, rankers[k], who)
  {
    assert rankers[..k + 1][..k] == rankers[..k];
  }

  method RankInProgress(cs: ClusterState, rnm: Ranked) returns (r: Ranked)
    ensures r == Ranked(rnm.req, rnm.rank + Contribution(cs, InProgressRanker, rnm.req.nm.requestor))
  {
    r := rnm;
    for i := 0 to |cs.inProgress|
      invariant r == rnm
      invariant forall j :: 0 <= j < i ==> cs.inProgress[j].nm.requestor != rnm.req.nm.requestor
    {
      if rnm.req.nm.requestor == cs.inProgress[i].nm.requestor {
        r := r.(rank := r.rank + IN_PROGRESS_WEIGHT);
        assert cs.inProgress[i] in cs.inProgress;
        return;
      }
    }
  }

  method RankLeastPending(cs: ClusterState, rnm: Ranked) returns (r: Ranked)
    ensures r == Ranked(rnm.req, rnm.rank + Contribution(cs, LeastPendingRanker, rnm.req.nm.requestor))
  {
    var totalPending := 0;
    for i := 0 to |cs.pending|
      invariant totalPending == PendingCount(cs.pending[..i], rnm.req.nm.requestor)
    {
      assert cs.pending[..i + 1][..i] == cs.pending[..i];
      if cs.pending[i].nm.requestor == rnm.req.nm.requestor {
        totalPending := totalPending + 1;
      }
    }
    assert cs.pending[..|cs.pending|] == cs.pending;
    if totalPending > LEAST_PENDING_MAX_WEIGHT {
      totalPending := LEAST_PENDING_MAX_WEIGHT;
    }
    r := rnm.(rank := rnm.rank + LEAST_PENDING_MAX_WEIGHT - totalPending);
  }

  method Rank(cs: ClusterState, ranker: Ranker, rnm: Ranked) returns (r: Ranked)
    ensures r == Ranked(rnm.req, rnm.rank + Contribution(cs, ranker, rnm.req.nm.requestor))
  {
    match ranker
    case InProgressRanker => r := RankInProgress(cs, rnm);
    case LeastPendingRanker => r := RankLeastPending(cs, rnm);
  }

  /** RankSlice: every ranker adds its contribution to every request, whose place does not change. */
  method RankSlice(cs: ClusterState, reqs: seq<Request>, rankers: seq<Ranker>) returns (ranked: seq<Ranked>)
    ensures
      ranked ==
      seq(|reqs|, i requires 0 <= i < |reqs| => Ranked(reqs[i], Total(cs, rankers, reqs[i].nm.requestor)))
  {
    ranked := seq(|reqs|, i requires 0 <= i < |reqs| => Ranked(reqs[i], 0));
    for k := 0 to |rankers|
      invariant |ranked| == |reqs|
      invariant forall i :: 0 <= i < |reqs| ==>
            ranked[i] == Ranked(reqs[i], Total(cs, rankers[..k], reqs[i].nm.requestor))
    {
      for i := 0 to |ranked|
        invariant |ranked| == |reqs|
        invariant forall j :: 0 <= j < i ==>
                    ranked[j] == Ranked(reqs[j], Total(cs, rankers[..k + 1], reqs[j].nm.requestor))
        invariant forall j :: i <= j < |reqs| ==>
              ranked[j] == Ranked(reqs[j], Total(cs, rankers[..k], reqs[j].nm.requestor))
      {
        TotalStep(cs, rankers, k, reqs[i].nm.requestor);
        var r := Rank(cs, rankers[k], ranked[i]);
        assert r == Ranked(reqs[i], Total(cs, rankers[..k + 1], reqs[i].nm.requestor));
        ranked := ranked[i := r];
      }
    }
    assert rankers[..|rankers|] == rankers;
  }

  /** The rank the scheduler gives a requestor. */
  function Weight(cs: ClusterState, who: string): int {
    Total(cs, [InProgressRanker, LeastPendingRanker], who)
  }

  /** One number carries the two criteria without mixing them: a requestor with work in progress
      comes before one without, and among equals the one with fewer pending requests (counted up
      to a hundred) comes first. */
  lemma WeightLexicographic(cs: ClusterState, a: string, b: string)
    ensures 0 <= Weight(cs, a) <= 1100
    ensures
      var pa, pb := Min(100, PendingCount(cs.pending, a)), Min(100, PendingCount(cs.pending, b));
      (Weight(cs, a) > Weight(cs, b) <==>
       (HasInProgress(cs, a) && !HasInProgress(cs, b)) ||
       (HasInProgress(cs, a) == HasInProgress(cs, b) && pa < pb))
  {
    var both := [InProgressRanker, LeastPendingRanker];
    assert both[..1] == [InProgressRanker];
    assert both[..1][..0] == [];
    WeightValue(cs, a);
    WeightValue(cs, b);
  }

  lemma WeightValue(cs: ClusterState, who: string)
    ensures Weight(cs, who) == Contribution(cs, InProgressRanker, who) + Contribution(cs, LeastPendingRanker, who)
  {
    var both := [InProgressRanker, LeastPendingRanker];
    assert both[..1] == [InProgressRanker];
    assert [InProgressRanker][..0] == [];
    assert Total(cs, [InProgressRanker], who) == Total(cs, [], who) + Contribution(cs, InProgressRanker, who);
  }

  ghost function PendingOf(pending: seq<Request>, who: string): set<Request> {
    set q | q in pending && q.nm.requestor == who
  }

  /** The pending count depends only on which requests are pending, not on their order. */
  lemma {:induction false} PendingCountIsSize(pending: seq<Request>, who: string)
    requires Distinct(pending)
    ensures PendingCount(pending, who) == |PendingOf(pending, who)|
  {
    if pending != [] {
      var front, last := pending[..|pending| - 1], pending[|pending| - 1];
      PendingCountIsSize(front, who);
      assert last !in front;
      PendingOfSnoc(front, last, who);
      assert pending == front + [last];
    }
  }

  lemma PendingOfSnoc(front: seq<Request>, last: Request, who: string)
    ensures PendingOf(front + [last], who) ==
            if last.nm.requestor == who then PendingOf(front, who) + {last} else PendingOf(front, who)
  {
    forall q ensures q in front + [last] <==> q in front || q == last {}
  }
}
