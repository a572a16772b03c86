/** ConditionChangedPredicate.Update: both condition lists are sorted in place by type and then
    compared, which detects every change of lists that name each type once. */
module Conditions {
  import opened Api
  import opened Ordering
  import Operator

  /** A status condition; `detail` stands for its message, generation and transition time. */
  datatype Condition = Condition(kind: string, status: string, reason: string, detail: string)

  function Insert(c: Condition, s: seq<Condition>): seq<Condition> {
    if s == [] then [c]
    else if CompareString(s[|s| - 1].kind, c.kind) <= 0 then s + [c]
    else Insert(c, s[..|s| - 1]) + [s[|s| - 1]]
  }

  function SortedByType(s: seq<Condition>): seq<Condition> {
    if s == [] then [] else Insert(s[|s| - 1], SortedByType(s[..|s| - 1]))
  }

  ghost predicate UniqueTypes(s: seq<Condition>) {
    forall i, j :: 0 <= i < j < |s| ==> s[i].kind != s[j].kind
  }

  ghost predicate InOrder(s: seq<Condition>) {
    forall i, j :: 0 <= i < j < |s| ==> CompareString(s[i].kind, s[j].kind) <= 0
  }

  ghost predicate Increasing(s: seq<Condition>) {
    forall i, j :: 0 <= i < j < |s| ==> CompareString(s[i].kind, s[j].kind) < 0
  }

  ghost predicate SameConditions(x: seq<Condition>, y: seq<Condition>) {
    forall c :: c in x <==> c in y
  }

  // ----------------------------------------------------------------- sorting

  lemma {:induction false} InsertSorts(c: Condition, s: seq<Condition>)
    requires InOrder(s)
    ensures InOrder(Insert(c, s)) && multiset(Insert(c, s)) == multiset(s) + multiset{c}
  {
    hide CompareString;
    if s != [] {
      var front, last := s[..|s| - 1], s[|s| - 1];
      assert s == front + [last];
      if CompareString(last.kind, c.kind) <= 0 {
        forall i | 0 <= i < |s| ensures CompareString(s[i].kind, c.kind) <= 0 {
          if i < |s| - 1 { CompareStringTransitive(s[i].kind, last.kind, c.kind); }
        }
      } else {
        InsertSorts(c, front);
        CompareStringSwap(last.kind, c.kind);
        var r := Insert(c, front);
        forall i | 0 <= i < |r| ensures CompareString(r[i].kind, last.kind) <= 0 {
          assert r[i] in multiset(r);
          assert r[i] == c || r[i] in front;
        }
      }
    }
  }

  lemma EmptyInOrder()
    ensures InOrder([])
  {
  }

  lemma {:induction false} SortSorts(s: seq<Condition>)
    ensures InOrder(SortedByType(s)) && multiset(SortedByType(s)) == multiset(s)
  {
    hide InOrder, Insert;
    if s == [] {
      EmptyInOrder();
    } else {
      var front, last := s[..|s| - 1], s[|s| - 1];
      SortSorts(front);
      InsertSorts(last, SortedByType(front));
      assert s == front + [last];
    }
  }

  lemma {:induction false} UniqueCount(s: seq<Condition>, c: Condition)
    requires UniqueTypes(s)
    ensures multiset(s)[c] <= 1
  {
    if s != [] {
      var front, last := s[..|s| - 1], s[|s| - 1];
      assert s == front + [last];
      UniqueCount(front, c);
      if c == last { assert c !in front; }
    }
  }

  /** A sorted permutation of a list with unique types has the same conditions, each once. */
  lemma PermutationIncreasing(s: seq<Condition>, r: seq<Condition>)
    requires UniqueTypes(s) && InOrder(r) && multiset(r) == multiset(s)
    ensures Increasing(r) && SameConditions(r, s)
  {
    forall c ensures c in r <==> c in s { assert c in multiset(r) <==> c in multiset(s); }
    forall i, j | 0 <= i < j < |r| ensures CompareString(r[i].kind, r[j].kind) < 0 {
      CompareStringSwap(r[i].kind, r[j].kind);
      if r[i].kind == r[j].kind {
        assert r[i] in s && r[j] in s;
        assert r[i] == r[j];
        assert r == r[..j] + r[j..];
        assert r[i] in r[..j] && r[j] in r[j..];
        UniqueCount(s, r[i]);
      }
    }
  }

  lemma HeadSame(a: seq<Condition>, b: seq<Condition>)
    requires Increasing(a) && Increasing(b) && SameConditions(a, b) && a != []
    ensures b != [] && a[0] == b[0]
  {
    assert a[0] in b;
    assert b[0] in a;
    var i :| 0 <= i < |b| && b[i] == a[0];
    var j :| 0 <= j < |a| && a[j] == b[0];
    CompareStringSwap(a[0].kind, b[0].kind);
  }

  lemma TailHas(a: seq<Condition>, c: Condition)
    requires Increasing(a) && a != []
    ensures c in a[1..] <==> c in a && c != a[0]
  {
    CompareStringSwap(a[0].kind, a[0].kind);
    assert a == [a[0]] + a[1..];
    if c in a[1..] {
      var i :| 0 <= i < |a[1..]| && a[1..][i] == c;
      assert a[i + 1] == c;
    }
  }

  lemma {:induction false} IncreasingUnique(a: seq<Condition>, b: seq<Condition>)
    requires Increasing(a) && Increasing(b) && SameConditions(a, b)
    ensures a == b
  {
    if a == [] {
      if b != [] { HeadSame(b, a); }
    } else {
      HeadSame(a, b);
      forall c ensures c in a[1..] <==> c in b[1..] {
        TailHas(a, c);
        TailHas(b, c);
      }
      IncreasingUnique(a[1..], b[1..]);
      assert a == [a[0]] + a[1..] && b == [b[0]] + b[1..];
    }
  }

  /** Whatever sorted arrangements the sort picks, they are equal exactly if the lists hold the
      same conditions. */
  lemma SortThenCompare(x: seq<Condition>, y: seq<Condition>, x': seq<Condition>, y': seq<Condition>)
    requires UniqueTypes(x) && UniqueTypes(y)
    requires InOrder(x') && multiset(x') == multiset(x)
    requires InOrder(y') && multiset(y') == multiset(y)
    ensures x' == y' <==> SameConditions(x, y)
  {
    PermutationIncreasing(x, x');
    PermutationIncreasing(y, y');
    if SameConditions(x, y) {
      assert SameConditions(x', y');
      IncreasingUnique(x', y');
    }
  }

  // ------------------------------------------------------------ the predicate

  /** slices.SortFunc on a condition list, in place. */
  method SortByType(a: array<Condition>)
    modifies a
    ensures a[..] == SortedByType(old(a[..]))
  {
    ghost var was := a[..];
    for i := 0 to a.Length
      invariant a[..i] == SortedByType(was[..i])
      invariant a[i..] == was[i..]
    {
      assert was[..i + 1][..i] == was[..i] && was[i] == a[i];
      InsertInPlace(a, i);
    }
    assert was[..a.Length] == was && a[..a.Length] == a[..];
  }

  /** One round of the insertion sort: element `i` goes to its place among those before it. */
  method InsertInPlace(a: array<Condition>, i: nat)
    requires i < a.Length
    modifies a
    ensures a[..i + 1] == Insert(old(a[i]), old(a[..i]))
    ensures a[i + 1..] == old(a[i + 1..])
  {
    hide CompareString;
    ghost var c, s := a[i], a[..i];
    if i > 0 && CompareString(a[i - 1].kind, a[i].kind) > 0 {
      a[i - 1], a[i] := a[i], a[i - 1];
      assert a[..i - 1] == s[..i - 1];
      ghost var rest := a[i..];
      InsertInPlace(a, i - 1);
      assert a[i..] == rest && a[..i + 1] == a[..i] + [s[i - 1]];
      assert a[i + 1..] == rest[1..];
    } else {
      assert a[..i + 1] == s + [c];
    }
  }

  /** The conditions of an object; an absent list holds none. */
  ghost function Held(a: array?<Condition>): seq<Condition>
    reads a
  {
    if a == null then [] else a[..]
  }

  /** ConditionChangedPredicate.Update on two different objects. The comparison also tells an absent
      list from an empty one. */
  method Update(oldConditions: array?<Condition>, newConditions: array?<Condition>, deleting: bool)
    returns (enqueue: bool)
    requires oldConditions == null || oldConditions != newConditions
    modifies if oldConditions == null then {} else {oldConditions}
    modifies if newConditions == null then {} else {newConditions}
    ensures multiset(Held(oldConditions)) == multiset(old(Held(oldConditions))) && InOrder(Held(oldConditions))
    ensures multiset(Held(newConditions)) == multiset(old(Held(newConditions))) && InOrder(Held(newConditions))
    ensures UniqueTypes(old(Held(oldConditions))) && UniqueTypes(old(Held(newConditions))) ==>
              (enqueue <==>
                 || deleting
                 || (oldConditions == null) != (newConditions == null)
                 || !SameConditions(old(Held(oldConditions)), old(Held(newConditions))))
  {
    ghost var x, y := Held(oldConditions), Held(newConditions);
    if oldConditions != null { SortByType(oldConditions); }
    if newConditions != null { SortByType(newConditions); }
    SortSorts(x);
    SortSorts(y);
    if UniqueTypes(x) && UniqueTypes(y) { SortThenCompare(x, y, Held(oldConditions), Held(newConditions)); }
    if oldConditions == null || newConditions == null {
      enqueue := deleting || oldConditions != newConditions;
    } else {
      enqueue := deleting || oldConditions[..] != newConditions[..];
    }
  }

  // -------------------------------------------------------- link to the model

  function ReasonName(r: Reason): string {
    match r
    case Uninitialized => ""
    case Pending => "Pending"
    case Scheduled => "Scheduled"
    case Cordon => "Cordon"
    case WaitForPodCompletion => "WaitForPodCompletion"
    case Draining => "Draining"
    case Ready => "Ready"
    case RequestorFailed => "RequestorFailed"
  }

  /** The list carries the request's Ready and RequestorFailed conditions, among any others. */
  ghost predicate Carries(conditions: seq<Condition>, nm: NodeMaintenance) {
    && UniqueTypes(conditions)
    && (nm.reason == Uninitialized <==> forall c :: c in conditions ==> c.kind != "Ready")
    && (forall c :: c in conditions && c.kind == "Ready" ==>
          c.reason == ReasonName(nm.reason) && (c.status == "True" <==> nm.ready))
    && (nm.failed <==> exists c :: c in conditions && c.kind == "RequestorFailed" && c.status == "True")
  }

  lemma ReasonNameInjective(a: Reason, b: Reason)
    requires ReasonName(a) == ReasonName(b)
    ensures a == b
  {
    assert |ReasonName(a)| == |ReasonName(b)|;
    if a != Uninitialized {
      assert ReasonName(a)[0] == ReasonName(b)[0];
    }
  }

  /** Every change of a request that the reconciler has to see makes the predicate true: requests
      the step system puts in the queue are put there by the sorted comparison. */
  lemma ChangeDetected(x: seq<Condition>, y: seq<Condition>, a: NodeMaintenance, b: NodeMaintenance)
    requires Carries(x, a) && Carries(y, b) && (a.reason == Uninitialized ==> !a.ready)
    requires (b.reason == Uninitialized ==> !b.ready)
    requires Operator.Enqueues(Some(a), Some(b))
    ensures b.deleting || SortedByType(x) != SortedByType(y)
  {
    SortSorts(x);
    SortSorts(y);
    SortThenCompare(x, y, SortedByType(x), SortedByType(y));
    if SameConditions(x, y) {
      if a.reason != Uninitialized {
        var c :| c in x && c.kind == "Ready";
        assert c in y;
        ReasonNameInjective(a.reason, b.reason);
      } else {
        assert forall c :: c in y ==> c in x;
      }
    }
  }
}
