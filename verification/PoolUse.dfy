/** mcpUsedByOtherNodeMaintenance with its two loops, and what its answer on listed objects means
    for the step system. */
module PoolUse {
  import opened Api
  import opened Versions
  import opened Operator

  predicate UsesPool(r: Request, names: set<string>, me: Key) {
    r.key != me && r.nm.node in names && r.nm.poolLabel.Some?
  }

  method UsedByOther(nodesInPool: seq<Node>, items: seq<Request>, me: Key) returns (used: bool)
    ensures used <==> exists r :: r in items && UsesPool(r, set n | n in nodesInPool :: n.name, me)
  {
    var inPool: set<string> := {};
    for i := 0 to |nodesInPool|
      invariant inPool == set n | n in nodesInPool[..i] :: n.name
    {
      assert nodesInPool[..i + 1] == nodesInPool[..i] + [nodesInPool[i]];
      inPool := inPool + {nodesInPool[i].name};
    }
    assert nodesInPool[..|nodesInPool|] == nodesInPool;
    for i := 0 to |items|
      invariant forall j :: 0 <= j < i ==> !UsesPool(items[j], inPool, me)
    {
      if items[i].nm.node !in inPool { continue; }
      if items[i].nm.poolLabel == None { continue; }
      if items[i].key == me { continue; }
      assert items[i] in items && UsesPool(items[i], inPool, me);
      return true;
    }
    return false;
  }

  /** On the nodes of the pool and the listed requests the loop gives the step system's answer. */
  lemma UseAgrees(s: State, pool: string, me: Key, nodesInPool: seq<Node>, items: seq<Request>)
    requires forall n :: n in nodesInPool ==> n.name in s.nodes && s.nodes[n.name] == n
    requires (set n | n in nodesInPool :: n.name) == set n | n in s.nodes && s.nodes[n].pool == pool
    requires Lists(s.st, items)
    ensures
      UsedIn(s, pool, me, false) <==>
      exists r :: r in items && UsesPool(r, set n | n in nodesInPool :: n.name, me)
  {
    var names := set n | n in nodesInPool :: n.name;
    if UsedIn(s, pool, me, false) {
      var q :| q in s.st.logs && q != me && View(s.st, q).Some? && InPool(s, View(s.st, q).value.node, pool) &&
               View(s.st, q).value.poolLabel.Some?;
      var r :| r in items && r.key == q;
      assert UsesPool(r, names, me);
    }
    if exists r :: r in items && UsesPool(r, names, me) {
      var r :| r in items && UsesPool(r, names, me);
      assert View(s.st, r.key) == Some(r.nm);
      assert r.key in s.st.logs;
    }
  }
}
