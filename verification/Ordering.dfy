/** CompareRanked: the five-level comparison that orders ranked requests, and the proof that it
    is a strict total order on requests with different names. */
module Ordering {
  import opened Api

  /** RankedNodeMaintenance. */
  datatype Ranked = Ranked(req: Request, rank: int)

  function CompareInt(a: int, b: int): int {
    if a < b then -1 else if a > b then 1 else 0
  }

  function CompareString(a: string, b: string): int {
    if a == [] && b == [] then 0
    else if a == [] then -1
    else if b == [] then 1
    else if a[0] < b[0] then -1
    else if a[0] > b[0] then 1
    else CompareString(a[1..], b[1..])
  }

  /** types.NamespacedName.String. */
  function Joined(k: Key): string {
    k.namespace + "/" + k.name
  }

  /** cmp.Or: the first comparison that decides. */
  function Or(c: int, rest: int): int {
    if c != 0 then c else rest
  }

  function CompareRanked(a: Ranked, b: Ranked): int {
    Or(CompareInt(b.rank, a.rank),
       Or(CompareInt(a.req.nm.created, b.req.nm.created),
          Or(CompareString(a.req.nm.node, b.req.nm.node),
             Or(CompareString(a.req.nm.requestor, b.req.nm.requestor),
                CompareString(Joined(a.req.key), Joined(b.req.key))))))
  }

  predicate Before(a: Ranked, b: Ranked) {
    CompareRanked(a, b) < 0
  }

  /** A namespace is a DNS label and so has no slash. */
  predicate WellNamed(k: Key) {
    '/' !in k.namespace
  }

  lemma {:induction false} CompareStringSwap(a: string, b: string)
    ensures CompareString(a, b) == -CompareString(b, a)
    ensures CompareString(a, b) == 0 <==> a == b
    decreases |a|
  {
    if a != [] && b != [] && a[0] == b[0] {
      CompareStringSwap(a[1..], b[1..]);
      assert a == [a[0]] + a[1..] && b == [b[0]] + b[1..];
    }
  }

  lemma {:induction false} CompareStringTransitive(a: string, b: string, c: string)
    requires CompareString(a, b) <= 0 && CompareString(b, c) <= 0
    ensures CompareString(a, c) <= 0
    ensures CompareString(a, b) < 0 || CompareString(b, c) < 0 ==> CompareString(a, c) < 0
    decreases |a|
  {
    if a != [] && b != [] && c != [] && a[0] == b[0] == c[0] {
      CompareStringTransitive(a[1..], b[1..], c[1..]);
    }
  }

  lemma {:induction false} SlashSplit(n1: string, m1: string, n2: string, m2: string)
    requires '/' !in n1 && '/' !in n2
    requires n1 + "/" + m1 == n2 + "/" + m2
    ensures n1 == n2 && m1 == m2
    decreases |n1|
  {
    var s, t := n1 + "/" + m1, n2 + "/" + m2;
    assert s[0] == if n1 == [] then '/' else n1[0];
    assert t[0] == if n2 == [] then '/' else n2[0];
    assert n1 == [] <==> n2 == [];
    if n1 == [] {
      assert s[1..] == m1 && t[1..] == m2;
    } else {
      assert s[1..] == n1[1..] + "/" + m1 && t[1..] == n2[1..] + "/" + m2;
      SlashSplit(n1[1..], m1, n2[1..], m2);
      assert n1 == [n1[0]] + n1[1..] && n2 == [n2[0]] + n2[1..];
    }
  }

  /** Distinct requests never tie: the comparison separates them in one of the two directions. */
  lemma OrderTotal(a: Ranked, b: Ranked)
    requires WellNamed(a.req.key) && WellNamed(b.req.key)
    ensures a.req.key != b.req.key ==> Before(a, b) || Before(b, a)
    ensures !(Before(a, b) && Before(b, a))
    ensures !Before(a, a)
  {
    CompareStringSwap(a.req.nm.node, b.req.nm.node);
    CompareStringSwap(a.req.nm.requestor, b.req.nm.requestor);
    CompareStringSwap(Joined(a.req.key), Joined(b.req.key));
    CompareStringSwap(a.req.nm.node, a.req.nm.node);
    CompareStringSwap(a.req.nm.requestor, a.req.nm.requestor);
    CompareStringSwap(Joined(a.req.key), Joined(a.req.key));
    if Joined(a.req.key) == Joined(b.req.key) {
      SlashSplit(a.req.key.namespace, a.req.key.name, b.req.key.namespace, b.req.key.name);
    }
  }

  lemma OrderTransitive(a: Ranked, b: Ranked, c: Ranked)
    requires CompareRanked(a, b) <= 0 && CompareRanked(b, c) <= 0
    ensures CompareRanked(a, c) <= 0
    ensures Before(a, b) || Before(b, c) ==> Before(a, c)
  {
    Level(a.req.nm.node, b.req.nm.node, c.req.nm.node);
    Level(a.req.nm.requestor, b.req.nm.requestor, c.req.nm.requestor);
    Level(Joined(a.req.key), Joined(b.req.key), Joined(c.req.key));
  }

  /** One string level of the comparison behaves like an integer one. */
  lemma Level(a: string, b: string, c: string)
    ensures CompareString(a, b) <= 0 && CompareString(b, c) <= 0 ==> CompareString(a, c) <= 0
    ensures CompareString(a, b) < 0 && CompareString(b, c) <= 0 ==> CompareString(a, c) < 0
    ensures CompareString(a, b) <= 0 && CompareString(b, c) < 0 ==> CompareString(a, c) < 0
    ensures CompareString(a, b) == 0 <==> a == b
    ensures CompareString(b, c) == 0 <==> b == c
    ensures CompareString(a, c) == 0 <==> a == c
  {
    if CompareString(a, b) <= 0 && CompareString(b, c) <= 0 { CompareStringTransitive(a, b, c); }
    CompareStringSwap(a, b);
    CompareStringSwap(b, c);
    CompareStringSwap(a, c);
  }
}
