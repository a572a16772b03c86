/** What the recommendation is: exact, as large as the two limits allow, and independent of the
    order of the lists it is computed from. */
module Selection {
  import opened Api
  import opened Ordering
  import opened Ranking
  import opened Scheduling
  import opened Seqs

  ghost function AvailableIndices(nodes: map<string, Node>, w: seq<Ranked>): set<int> {
    set i | 0 <= i < |w| && OnAvailable(nodes, w[i])
  }

  ghost function ChosenIndices(nodes: map<string, Node>, w: seq<Ranked>, budget: int): set<int> {
    set i | 0 <= i < |w| && Chosen(nodes, w, budget, i)
  }

  lemma {:induction false} AvailableCountIsSize(nodes: map<string, Node>, w: seq<Ranked>)
    ensures AvailableCount(nodes, w) == |AvailableIndices(nodes, w)|
  {
    if w != [] {
      var front := w[..|w| - 1];
      AvailableCountIsSize(nodes, front);
      AvailableIndicesStep(nodes, w);
    }
  }

  lemma ChosenIndicesStep(nodes: map<string, Node>, w: seq<Ranked>, budget: int)
    requires w != []
    ensures
      var below := ChosenIndices(nodes, w[..|w| - 1], budget);
      ChosenIndices(nodes, w, budget) == if Chosen(nodes, w, budget, |w| - 1) then below + {|w| - 1} else below
  {
    var front := w[..|w| - 1];
    forall i | 0 <= i < |front| ensures Chosen(nodes, w, budget, i) == Chosen(nodes, front, budget, i) {
      assert front[..i] == w[..i];
    }
  }

  /** The recommendation lists the chosen positions of the window, each once and in their order. */
  lemma {:induction false} PicksInOrder(nodes: map<string, Node>, w: seq<Ranked>, budget: int) returns (at: seq<int>)
    ensures |at| == |Picks(nodes, w, budget)|
    ensures forall j :: 0 <= j < |at| ==> 0 <= at[j] < |w| && w[at[j]].req == Picks(nodes, w, budget)[j]
    ensures forall i, j :: 0 <= i < j < |at| ==> at[i] < at[j]
    ensures (set x | x in at) == ChosenIndices(nodes, w, budget)
  {
    if w == [] {
      at := [];
    } else {
      var front := w[..|w| - 1];
      at := PicksInOrder(nodes, front, budget);
      ChosenIndicesStep(nodes, w, budget);
      if Chosen(nodes, w, budget, |w| - 1) {
        var more := at + [|w| - 1];
        assert (set x | x in more) == (set x | x in at) + {|w| - 1};
        at := more;
      }
    }
  }

  lemma PicksCount(nodes: map<string, Node>, w: seq<Ranked>, budget: int)
    ensures |Picks(nodes, w, budget)| == |ChosenIndices(nodes, w, budget)|
  {
    var at := PicksInOrder(nodes, w, budget);
    DistinctLength(at);
  }

  lemma AvailableIndicesStep(nodes: map<string, Node>, w: seq<Ranked>)
    requires w != []
    ensures
      var below := AvailableIndices(nodes, w[..|w| - 1]);
      AvailableIndices(nodes, w) == if OnAvailable(nodes, w[|w| - 1]) then below + {|w| - 1} else below
  {
  }

  /** All requests on unavailable nodes are chosen, and of those on available nodes the first
      `budget`. */
  lemma {:induction false} ChosenAvailable(nodes: map<string, Node>, w: seq<Ranked>, budget: nat)
    ensures |ChosenIndices(nodes, w, budget) * AvailableIndices(nodes, w)| == Min(budget, AvailableCount(nodes, w))
  {
    if w != [] {
      var front, n := w[..|w| - 1], |w| - 1;
      ChosenAvailable(nodes, front, budget);
      ChosenIndicesStep(nodes, w, budget);
      AvailableIndicesStep(nodes, w);
      IntersectStep(ChosenIndices(nodes, front, budget), AvailableIndices(nodes, front), n,
                    Chosen(nodes, w, budget, n), OnAvailable(nodes, w[n]));
    }
  }

  lemma IntersectStep(c: set<int>, v: set<int>, n: int, inC: bool, inV: bool)
    requires n !in c && n !in v
    ensures |(if inC then c + {n} else c) * (if inV then v + {n} else v)| == |c * v| + if inC && inV then 1 else 0
  {
    assert (if inC then c + {n} else c) * (if inV then v + {n} else v) == if inC && inV then c * v + {n} else c * v;
  }

  lemma {:induction false} CountMonotone(nodes: map<string, Node>, w: seq<Ranked>, i: nat, j: nat)
    requires i <= j <= |w|
    ensures AvailableCount(nodes, w[..i]) <= AvailableCount(nodes, w[..j])
    decreases j
  {
    if i < j {
      CountMonotone(nodes, w, i, j - 1);
      assert w[..j][..j - 1] == w[..j - 1];
    }
  }

  /** No request on an available node is passed over for a lower one on an available node. */
  lemma NoOvertaking(nodes: map<string, Node>, w: seq<Ranked>, budget: int, i: nat, j: nat)
    requires i < j < |w|
    requires OnAvailable(nodes, w[j]) && Chosen(nodes, w, budget, j)
    ensures Chosen(nodes, w, budget, i)
  {
    CountMonotone(nodes, w, i, j);
  }

  /** No subset of the window that respects the budget is larger than the recommendation. */
  lemma SelectionMaximal(nodes: map<string, Node>, w: seq<Ranked>, budget: nat, other: set<int>)
    requires forall i :: i in other ==> 0 <= i < |w|
    requires |other * AvailableIndices(nodes, w)| <= budget
    ensures |other| <= |Picks(nodes, w, budget)|
  {
    var av, ch := AvailableIndices(nodes, w), ChosenIndices(nodes, w, budget);
    PicksCount(nodes, w, budget);
    ChosenAvailable(nodes, w, budget);
    AvailableCountIsSize(nodes, w);
    SplitSize(other, av);
    SplitSize(ch, av);
    SubsetSize(other * av, av);
    assert other - av <= ch - av;
    SubsetSize(other - av, ch - av);
  }

  // ------------------------------------------------------ order independence

  ghost predicate SameElements<T(!new)>(a: seq<T>, b: seq<T>) {
    forall x :: x in a <==> x in b
  }

  /** The two cluster states hold the same nodes and, in any order, the same requests. */
  ghost predicate SameState(a: ClusterState, b: ClusterState) {
    && a.nodes == b.nodes
    && SameElements(a.inProgress, b.inProgress)
    && SameElements(a.pending, b.pending)
    && Distinct(a.pending) && Distinct(b.pending)
  }

  lemma WeightSame(a: ClusterState, b: ClusterState, who: string)
    requires SameState(a, b)
    ensures Weight(a, who) == Weight(b, who)
  {
    WeightValue(a, who);
    WeightValue(b, who);
    PendingCountIsSize(a.pending, who);
    PendingCountIsSize(b.pending, who);
    assert PendingOf(a.pending, who) == PendingOf(b.pending, who);
    assert HasInProgress(a, who) == HasInProgress(b, who);
  }

  lemma RankAllIn(cs: ClusterState, reqs: seq<Request>, x: Ranked)
    ensures x in RankAll(cs, reqs) <==> x.req in reqs && x.rank == Weight(cs, x.req.nm.requestor)
  {
    if x.req in reqs && x.rank == Weight(cs, x.req.nm.requestor) {
      var i :| 0 <= i < |reqs| && reqs[i] == x.req;
      assert RankAll(cs, reqs)[i] == x;
    }
  }

  lemma SortedSame(a: ClusterState, b: ClusterState, ra: seq<Request>, rb: seq<Request>)
    requires SameState(a, b) && Named(ra) && Named(rb) && SameElements(ra, rb)
    ensures SortRanked(RankAll(a, ra)) == SortRanked(RankAll(b, rb))
  {
    var x, y := RankAll(a, ra), RankAll(b, rb);
    RankAllNamed(a, ra);
    RankAllNamed(b, rb);
    SortRankedSorts(x);
    SortRankedSorts(y);
    PermutationNamed(x, SortRanked(x));
    PermutationNamed(y, SortRanked(y));
    SortedStrictly(SortRanked(x));
    SortedStrictly(SortRanked(y));
    forall r ensures r in SortRanked(x) <==> r in SortRanked(y) {
      RankAllIn(a, ra, r);
      RankAllIn(b, rb, r);
      WeightSame(a, b, r.req.nm.requestor);
    }
    SortedUnique(SortRanked(x), SortRanked(y));
  }

  /** The recommendation, as a sequence, does not depend on the order of any list it is made from. */
  lemma OrderIndependence(a: ClusterState, b: ClusterState, ca: SchedulerContext, cb: SchedulerContext)
    requires SameState(a, b)
    requires Named(ca.candidates) && Named(cb.candidates) && SameElements(ca.candidates, cb.candidates)
    requires ca.availableSlots == cb.availableSlots && ca.canBecomeUnavailable == cb.canBecomeUnavailable
    ensures Recommended(a, ca) == Recommended(b, cb)
  {
    SortedSame(a, b, ca.candidates, cb.candidates);
  }
}
