/** The default scheduler (internal/scheduler/default_scheduler.go): rank, sort, keep the best
    request of every node, and choose from the first slots under the unavailability budget. */
module Scheduling {
  import opened Api
  import opened Ordering
  import opened Ranking
  import opened Seqs

  datatype SchedulerContext = SchedulerContext(
    availableSlots: int, canBecomeUnavailable: int, candidateNodes: set<string>, candidates: seq<Request>)

  // ---------------------------------------------------------------- sorting

  ghost predicate Sorted(s: seq<Ranked>) {
    forall i, j :: 0 <= i < j < |s| ==> CompareRanked(s[i], s[j]) <= 0
  }

  ghost predicate StrictlySorted(s: seq<Ranked>) {
    forall i, j :: 0 <= i < j < |s| ==> Before(s[i], s[j])
  }

  /** The list holds every request once, under a well formed name. */
  ghost predicate Named(s: seq<Request>) {
    && (forall i, j :: 0 <= i < j < |s| ==> s[i].key != s[j].key)
    && (forall r :: r in s ==> WellNamed(r.key))
  }

  ghost predicate NamedRanked(s: seq<Ranked>) {
    && (forall i, j :: 0 <= i < j < |s| ==> s[i].req.key != s[j].req.key)
    && (forall r :: r in s ==> WellNamed(r.req.key))
  }

  function Insert(x: Ranked, s: seq<Ranked>): seq<Ranked> {
    if s == [] || CompareRanked(x, s[0]) <= 0 then [x] + s else [s[0]] + Insert(x, s[1..])
  }

  function SortRanked(s: seq<Ranked>): seq<Ranked> {
    if s == [] then [] else Insert(s[|s| - 1], SortRanked(s[..|s| - 1]))
  }

  lemma {:induction false} InsertSorted(x: Ranked, s: seq<Ranked>)
    requires Sorted(s)
    ensures Sorted(Insert(x, s))
    ensures multiset(Insert(x, s)) == multiset(s) + multiset{x}
  {
    if s == [] {
    } else if CompareRanked(x, s[0]) <= 0 {
      forall j | 0 <= j < |s| ensures CompareRanked(x, s[j]) <= 0 {
        if j > 0 { OrderTransitive(x, s[0], s[j]); }
      }
    } else {
      assert s == [s[0]] + s[1..];
      InsertSorted(x, s[1..]);
      AtLeastHead(x, s);
    }
  }

  lemma AtLeastHead(x: Ranked, s: seq<Ranked>)
    requires Sorted(s) && s != [] && CompareRanked(x, s[0]) > 0
    requires multiset(Insert(x, s[1..])) == multiset(s[1..]) + multiset{x}
    ensures forall r :: r in Insert(x, s[1..]) ==> CompareRanked(s[0], r) <= 0
  {
    CompareSwap(x, s[0]);
    forall r | r in Insert(x, s[1..]) ensures CompareRanked(s[0], r) <= 0 {
      assert r in multiset(Insert(x, s[1..]));
      assert r in multiset(s[1..]) || r == x;
    }
  }

  lemma CompareSwap(a: Ranked, b: Ranked)
    ensures CompareRanked(a, b) > 0 <==> CompareRanked(b, a) < 0
  {
    CompareStringSwap(a.req.nm.node, b.req.nm.node);
    CompareStringSwap(a.req.nm.requestor, b.req.nm.requestor);
    CompareStringSwap(Joined(a.req.key), Joined(b.req.key));
  }

  lemma {:induction false} SortRankedSorts(s: seq<Ranked>)
    ensures Sorted(SortRanked(s))
    ensures multiset(SortRanked(s)) == multiset(s)
  {
    hide CompareRanked, Insert;
    if s != [] {
      SortRankedSorts(s[..|s| - 1]);
      InsertSorted(s[|s| - 1], SortRanked(s[..|s| - 1]));
      assert s == s[..|s| - 1] + [s[|s| - 1]];
    }
  }

  /** slices.SortFunc: all that is known of it is that the result is a sorted permutation. */
  method SortFunc(s: seq<Ranked>) returns (r: seq<Ranked>)
    ensures Sorted(r) && multiset(r) == multiset(s)
  {
    r := [];
    for i := 0 to |s|
      invariant r == SortRanked(s[..i])
    {
      assert s[..i + 1][..i] == s[..i];
      r := Insert(s[i], r);
    }
    assert s[..|s|] == s;
    SortRankedSorts(s);
  }

  lemma {:induction false} NamedCount(s: seq<Ranked>, x: Ranked)
    requires NamedRanked(s)
    ensures multiset(s)[x] <= 1
  {
    if s != [] {
      var front, last := s[..|s| - 1], s[|s| - 1];
      assert s == front + [last];
      NamedCount(front, x);
      if x == last { assert x !in front; }
    }
  }

  /** A permutation of a list of differently named requests again names each one once. */
  lemma PermutationNamed(s: seq<Ranked>, r: seq<Ranked>)
    requires NamedRanked(s) && multiset(r) == multiset(s)
    ensures NamedRanked(r)
    ensures forall x :: x in r <==> x in s
  {
    forall x ensures x in r <==> x in s {
      assert x in multiset(r) <==> x in multiset(s);
    }
    forall i, j | 0 <= i < j < |r| ensures r[i].req.key != r[j].req.key {
      if r[i].req.key == r[j].req.key {
        assert r[i] in s && r[j] in s;
        assert r[i] == r[j];
        assert r == r[..j] + r[j..];
        assert r[i] in r[..j] && r[j] in r[j..];
        assert multiset(r)[r[i]] == multiset(r[..j])[r[i]] + multiset(r[j..])[r[i]];
        NamedCount(s, r[i]);
      }
    }
  }

  lemma SortedStrictly(s: seq<Ranked>)
    requires Sorted(s) && NamedRanked(s)
    ensures StrictlySorted(s)
  {
    forall i, j | 0 <= i < j < |s| ensures Before(s[i], s[j]) {
      assert s[i] in s && s[j] in s;
      OrderTotal(s[i], s[j]);
      CompareSwap(s[i], s[j]);
    }
  }

  lemma SameHead(a: seq<Ranked>, b: seq<Ranked>)
    requires StrictlySorted(a) && StrictlySorted(b) && a != []
    requires forall x :: x in a <==> x in b
    ensures b != [] && a[0] == b[0]
  {
    assert a[0] in b;
    assert b[0] in a;
    var i :| 0 <= i < |a| && a[i] == b[0];
    var j :| 0 <= j < |b| && b[j] == a[0];
    if i > 0 && j > 0 {
      assert Before(a[0], a[i]) && Before(b[0], b[j]);
      CompareSwap(a[0], b[0]);
    }
  }

  /** There is only one sorted arrangement of differently named requests. */
  lemma {:induction false} SortedUnique(a: seq<Ranked>, b: seq<Ranked>)
    requires StrictlySorted(a) && StrictlySorted(b)
    requires forall x :: x in a <==> x in b
    ensures a == b
  {
    if a == [] {
      if b != [] { SameHead(b, a); }
    } else {
      SameHead(a, b);
      assert a == [a[0]] + a[1..] && b == [b[0]] + b[1..];
      forall x ensures x in a[1..] <==> x in b[1..] {
        NotHeadAgain(a, x);
        NotHeadAgain(b, x);
      }
      SortedUnique(a[1..], b[1..]);
    }
  }

  lemma NotHeadAgain(a: seq<Ranked>, x: Ranked)
    requires StrictlySorted(a) && a != []
    ensures x in a[1..] <==> x in a && x != a[0]
  {
    if x in a[1..] {
      var i :| 0 <= i < |a[1..]| && a[1..][i] == x;
      assert a[i + 1] == x && Before(a[0], a[i + 1]);
      CompareSwap(a[0], a[0]);
    }
    assert a == [a[0]] + a[1..];
  }

  // ------------------------------------------------------------- compaction

  ghost function NodesOf(s: seq<Ranked>): set<string> {
    set r | r in s :: r.req.nm.node
  }

  predicate HasNode(s: seq<Ranked>, node: string) {
    exists r | r in s :: r.req.nm.node == node
  }

  function Compact(s: seq<Ranked>): seq<Ranked> {
    if s == [] then []
    else
      var front, last := Compact(s[..|s| - 1]), s[|s| - 1];
      if HasNode(s[..|s| - 1], last.req.nm.node) then front else front + [last]
  }

  method CompactIdenticalNodes(ranked: seq<Ranked>) returns (compacted: seq<Ranked>)
    ensures compacted == Compact(ranked)
  {
    compacted := [];
    var seen: set<string> := {};
    for i := 0 to |ranked|
      invariant compacted == Compact(ranked[..i])
      invariant forall n :: n in seen <==> HasNode(ranked[..i], n)
    {
      assert ranked[..i + 1][..i] == ranked[..i];
      forall n ensures HasNode(ranked[..i + 1], n) <==> HasNode(ranked[..i], n) || n == ranked[i].req.nm.node {
        HasNodeStep(ranked, i, n);
      }
      if ranked[i].req.nm.node !in seen {
        compacted := compacted + [ranked[i]];
        seen := seen + {ranked[i].req.nm.node};
      }
    }
    assert ranked[..|ranked|] == ranked;
  }

  lemma HasNodeStep(s: seq<Ranked>, i: nat, n: string)
    requires i < |s|
    ensures HasNode(s[..i + 1], n) <==> HasNode(s[..i], n) || n == s[i].req.nm.node
  {
    assert s[..i + 1] == s[..i] + [s[i]];
    if n == s[i].req.nm.node { assert s[i] in s[..i + 1]; }
    if HasNode(s[..i], n) {
      var r :| r in s[..i] && r.req.nm.node == n;
      assert r in s[..i + 1];
    }
  }

  ghost predicate OnePerNode(s: seq<Ranked>) {
    forall i, j :: 0 <= i < j < |s| ==> s[i].req.nm.node != s[j].req.nm.node
  }

  /** Compaction keeps one request for every node and drops no node. */
  lemma {:induction false} CompactOnePerNode(s: seq<Ranked>)
    ensures forall x :: x in Compact(s) ==> x in s
    ensures OnePerNode(Compact(s))
    ensures forall n :: HasNode(Compact(s), n) <==> HasNode(s, n)
  {
    if s != [] {
      var front, last := s[..|s| - 1], s[|s| - 1];
      CompactOnePerNode(front);
      assert s == front + [last];
      forall i | 0 <= i < |Compact(front)| && !HasNode(front, last.req.nm.node)
        ensures Compact(front)[i].req.nm.node != last.req.nm.node
      {
        assert Compact(front)[i] in Compact(front);
      }
      forall n ensures HasNode(Compact(s), n) <==> HasNode(s, n) {
        HasNodeStep(s, |s| - 1, n);
        assert s[..|s|] == s;
        if !HasNode(front, last.req.nm.node) {
          HasNodeStep(Compact(s), |Compact(front)|, n);
          assert Compact(s)[..|Compact(front)| + 1] == Compact(s) && Compact(s)[..|Compact(front)|] == Compact(front);
        }
      }
    }
  }

  /** On a sorted list the request kept for a node is the best one for that node, and the order
      is kept. */
  lemma {:induction false} CompactKeepsBest(s: seq<Ranked>)
    requires Sorted(s)
    ensures Sorted(Compact(s))
    ensures forall x, y :: x in Compact(s) && y in s && x.req.nm.node == y.req.nm.node && x != y ==>
          CompareRanked(x, y) <= 0
  {
    hide CompareRanked;
    if s != [] {
      var front, last := s[..|s| - 1], s[|s| - 1];
      CompactKeepsBest(front);
      CompactOnePerNode(front);
      assert s == front + [last];
      forall x | x in front ensures CompareRanked(x, last) <= 0 {
        var i :| 0 <= i < |front| && front[i] == x;
        assert s[i] == x && s[|s| - 1] == last;
      }
    }
  }

  lemma CompactLength(s: seq<Ranked>)
    ensures |Compact(s)| == |NodesOf(s)|
  {
    CompactOnePerNode(s);
    var c := Compact(s);
    var names := seq(|c|, i requires 0 <= i < |c| => c[i].req.nm.node);
    DistinctLength(names);
    forall n ensures n in names <==> n in NodesOf(s) {
      if n in names {
        var i :| 0 <= i < |names| && names[i] == n;
        assert c[i] in c && c[i] in s;
      }
      if n in NodesOf(s) {
        assert HasNode(s, n);
        var r :| r in c && r.req.nm.node == n;
        var i :| 0 <= i < |c| && c[i] == r;
        assert names[i] == n;
      }
    }
    assert (set n | n in names) == NodesOf(s);
  }

  // -------------------------------------------------------------- selection

  predicate OnAvailable(nodes: map<string, Node>, r: Ranked) {
    r.req.nm.node in nodes && Available(nodes[r.req.nm.node])
  }

  function AvailableCount(nodes: map<string, Node>, s: seq<Ranked>): nat {
    if s == [] then 0
    else AvailableCount(nodes, s[..|s| - 1]) + if OnAvailable(nodes, s[|s| - 1]) then 1 else 0
  }

  /** Position `i` of the window is recommended. */
  predicate Chosen(nodes: map<string, Node>, window: seq<Ranked>, budget: int, i: nat)
    requires i < |window|
  {
    OnAvailable(nodes, window[i]) ==> budget < 0 || AvailableCount(nodes, window[..i]) < budget
  }

  function Picks(nodes: map<string, Node>, window: seq<Ranked>, budget: int): seq<Request> {
    if window == [] then []
    else
      var front := Picks(nodes, window[..|window| - 1], budget);
      if Chosen(nodes, window, budget, |window| - 1) then front + [window[|window| - 1].req] else front
  }

  function Window(sorted: seq<Ranked>, slots: int): seq<Ranked> {
    Compact(sorted)[..Max(0, Min(slots, |Compact(sorted)|))]
  }

  function RankAll(cs: ClusterState, reqs: seq<Request>): seq<Ranked> {
    seq(|reqs|, i requires 0 <= i < |reqs| => Ranked(reqs[i], Weight(cs, reqs[i].nm.requestor)))
  }

  /** What Schedule recommends. */
  function Recommended(cs: ClusterState, ctx: SchedulerContext): seq<Request> {
    Picks(cs.nodes, Window(SortRanked(RankAll(cs, ctx.candidates)), ctx.availableSlots), ctx.canBecomeUnavailable)
  }

  method Schedule(cs: ClusterState, ctx: SchedulerContext) returns (recommended: seq<Request>)
    requires Named(ctx.candidates)
    requires forall r :: r in ctx.candidates ==> r.nm.node in cs.nodes
    ensures recommended == Recommended(cs, ctx)
  {
    hide SortRanked, Sorted, CompareRanked, Compact, Total, OnePerNode;
    var ranked := RankSlice(cs, ctx.candidates, [InProgressRanker, LeastPendingRanker]);
    assert ranked == RankAll(cs, ctx.candidates);
    ghost var all := ranked;
    ranked := SortFunc(ranked);
    AnySort(cs, ctx.candidates, ranked);
    var compacted := CompactIdenticalNodes(ranked);
    CompactOnePerNode(ranked);
    recommended := [];
    var canBecomeUnavail := ctx.canBecomeUnavailable;
    var n := Max(0, Min(ctx.availableSlots, |compacted|));
    for i := 0 to n
      invariant recommended == Picks(cs.nodes, compacted[..i], ctx.canBecomeUnavailable)
      invariant canBecomeUnavail == Remaining(ctx.canBecomeUnavailable, AvailableCount(cs.nodes, compacted[..i]))
    {
      PicksStep(cs.nodes, compacted, ctx.canBecomeUnavailable, i);
      assert compacted[i] in compacted && compacted[i] in ranked;
      assert compacted[i] in all by { assert compacted[i] in multiset(ranked); }
      var node := cs.nodes[compacted[i].req.nm.node];
      var nodeAvailable := !node.unschedulable && NodeReady(node);
      if nodeAvailable {
        if canBecomeUnavail == 0 {
          continue;
        }
        canBecomeUnavail := canBecomeUnavail - 1;
        recommended := recommended + [compacted[i].req];
      } else {
        recommended := recommended + [compacted[i].req];
      }
    }
  }

  /** The budget left after `used` nodes took from it; a negative budget is never used up. */
  function Remaining(budget: int, used: nat): int {
    if budget < 0 then budget - used else Max(0, budget - used)
  }

  lemma PicksStep(nodes: map<string, Node>, s: seq<Ranked>, budget: int, i: nat)
    requires i < |s|
    ensures Picks(nodes, s[..i + 1], budget) ==
            if Chosen(nodes, s, budget, i) then Picks(nodes, s[..i], budget) + [s[i].req]
            else Picks(nodes, s[..i], budget)
    ensures AvailableCount(nodes, s[..i + 1]) ==
            AvailableCount(nodes, s[..i]) + if OnAvailable(nodes, s[i]) then 1 else 0
  {
    assert s[..i + 1][..i] == s[..i];
  }

  lemma RankAllNamed(cs: ClusterState, reqs: seq<Request>)
    requires Named(reqs)
    ensures NamedRanked(RankAll(cs, reqs))
  {
    forall r | r in RankAll(cs, reqs) ensures WellNamed(r.req.key) {
      assert r.req in reqs;
    }
  }

  /** Whatever the sort does with ties, there are none: its result is the one sorted arrangement. */
  lemma AnySort(cs: ClusterState, reqs: seq<Request>, r: seq<Ranked>)
    requires Named(reqs)
    requires Sorted(r) && multiset(r) == multiset(RankAll(cs, reqs))
    ensures r == SortRanked(RankAll(cs, reqs))
  {
    var all := RankAll(cs, reqs);
    RankAllNamed(cs, reqs);
    SortRankedSorts(all);
    PermutationNamed(all, r);
    PermutationNamed(all, SortRanked(all));
    SortedStrictly(r);
    SortedStrictly(SortRanked(all));
    SortedUnique(r, SortRanked(all));
  }
}
