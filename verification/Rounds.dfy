/** The scheduler's rounds over a lagging cache: what a round has claimed, and why no node is ever
    claimed twice. */
module Rounds {
  import opened Api
  import opened Versions
  import opened Operator
  import opened Scheduling
  import opened PreScheduling
  import opened Planning
  import opened Lifecycle
  import opened Histories

  predicate IsUnder(e: Entry) { e.Some? && UnderMaintenance(e.value) }

  predicate UnderOn(e: Entry, node: string) { IsUnder(e) && e.value.node == node }

  predicate Waiting(e: Entry) { e.Some? && !UnderMaintenance(e.value) }

  /** The versions a round holds on to are what they were: unscheduled ones still to be written,
      and written ones that directly follow the version the cache had shown. */
  ghost predicate SchedOk(st: Store, sched: Sched) {
    sched.Round? ==>
      && (forall k :: k in sched.todo ==> sched.todo[k] <= Seen(st, k) && Waiting(Log(st, k)[sched.todo[k]]))
      && (forall k :: k in sched.wait ==> k !in sched.todo && WaitOk(st, k, sched.wait[k]))
  }

  ghost predicate WaitOk(st: Store, k: Key, i: int) {
    0 < i <= Last(st, k) && i - 1 <= Seen(st, k) && StartsAt(Log(st, k), i)
  }

  /** Version `i` is the one that schedules the request. */
  ghost predicate StartsAt(log: seq<Entry>, i: int) {
    0 < i < |log| && IsUnder(log[i]) && Waiting(log[i - 1])
  }

  /** A scheduling the cache does not show yet is one the current round waits for. */
  ghost predicate Unseen(st: Store, sched: Sched) {
    forall k, i :: StartsAt(Log(st, k), i) && i > Seen(st, k) ==>
      sched.Round? && k in sched.wait && sched.wait[k] == i
  }

  /** Request `k` is, is still shown as, or is about to be under maintenance on the node. */
  ghost predicate Claims(st: Store, sched: Sched, k: Key, node: string) {
    || UnderOn(Cur(st, k), node)
    || UnderOn(View(st, k), node)
    || (sched.Round? && k in sched.todo && sched.todo[k] <= Last(st, k) && NodeAt(Log(st, k)[sched.todo[k]], node))
    || (sched.Round? && k in sched.wait && sched.wait[k] <= Last(st, k) && NodeAt(Log(st, k)[sched.wait[k]], node))
  }

  predicate NodeAt(e: Entry, node: string) { e.Some? && e.value.node == node }

  ghost predicate Exclusive(st: Store, sched: Sched) {
    forall k, j, node :: Claims(st, sched, k, node) && Claims(st, sched, j, node) ==> k == j
  }

  /** No claim is new. */
  ghost predicate Fewer(st: Store, sched: Sched, st': Store, sched': Sched) {
    forall k, node :: Claims(st', sched', k, node) ==> Claims(st, sched, k, node)
  }

  /** Any new version other than the scheduler's own, on any state of the round. */
  lemma AppendSchedOk(st: Store, sched: Sched, k: Key, e: Entry)
    requires SchedOk(st, sched)
    ensures SchedOk(Append(st, k, e), sched)
  {
    var st' := Append(st, k, e);
    forall j | sched.Round? && j in sched.wait ensures WaitOk(st', j, sched.wait[j]) {
      assert WaitOk(st, j, sched.wait[j]);
    }
  }

  lemma AppendUnseen(st: Store, sched: Sched, k: Key, e: Entry)
    requires LogsOk(st) && Edge(Cur(st, k), e) && (IsUnder(e) ==> IsUnder(Cur(st, k)))
    requires Unseen(st, sched)
    ensures Unseen(Append(st, k, e), sched)
  {
    var st' := Append(st, k, e);
    forall j, i | StartsAt(Log(st', j), i) && i > Seen(st', j)
      ensures sched.Round? && j in sched.wait && sched.wait[j] == i
    {
      assert StartsAt(Log(st, j), i);
    }
  }

  lemma AppendFewer(st: Store, sched: Sched, k: Key, e: Entry)
    requires SchedOk(st, sched) && Edge(Cur(st, k), e) && (IsUnder(e) ==> IsUnder(Cur(st, k)))
    ensures Fewer(st, sched, Append(st, k, e), sched)
  {
    var st' := Append(st, k, e);
    forall j, node | Claims(st', sched, j, node) ensures Claims(st, sched, j, node) {
      if j != k {
        assert Log(st', j) == Log(st, j);
      } else if sched.Round? && k in sched.wait {
        assert WaitOk(st, k, sched.wait[k]);
      }
    }
  }

  lemma DeliverSchedOk(st: Store, sched: Sched, k: Key)
    requires SchedOk(st, sched) && Seen(st, k) < Last(st, k)
    ensures SchedOk(Advance(st, k), sched)
  {
    var st' := Advance(st, k);
    forall j | sched.Round? && j in sched.wait ensures WaitOk(st', j, sched.wait[j]) {
      assert WaitOk(st, j, sched.wait[j]);
    }
  }

  lemma DeliverRounds(st: Store, sched: Sched, k: Key)
    requires LogsOk(st) && SchedOk(st, sched) && Seen(st, k) < Last(st, k) && Unseen(st, sched)
    ensures Unseen(Advance(st, k), sched)
    ensures Fewer(st, sched, Advance(st, k), sched)
  {
    var st' := Advance(st, k);
    var log, v := Log(st, k), Seen(st, k);
    assert EdgeAt(log, v + 1);
    assert IsUnder(log[v + 1]) && !IsUnder(log[v]) ==> StartsAt(log, v + 1);
    forall j, node | Claims(st', sched, j, node) ensures Claims(st, sched, j, node) {
      assert Log(st', j) == Log(st, j);
    }
  }

  lemma RestartRounds(st: Store, sched: Sched)
    ensures SchedOk(CatchUp(st), Between)
    ensures Unseen(CatchUp(st), Between)
    ensures Fewer(st, sched, CatchUp(st), Between)
  {
  }

  /** Going back from a version under maintenance without meeting the version that scheduled it. */
  lemma {:induction false} UnderSince(log: seq<Entry>, v: int, j: int)
    requires LogOk(log) && 0 <= v <= j < |log| && IsUnder(log[j])
    requires forall i :: v < i <= j ==> !StartsAt(log, i)
    ensures Alive(log, v, j) && IsUnder(log[v])
    decreases j - v
  {
    if v < j {
      assert EdgeAt(log, j);
      assert StartsAt(log, j) || IsUnder(log[j - 1]);
      UnderSince(log, v, j - 1);
    }
  }

  /** Between rounds the cache shows every maintenance there is. */
  lemma SeenUnder(st: Store, k: Key)
    requires LogsOk(st) && Unseen(st, Between) && IsUnder(Cur(st, k))
    ensures UnderOn(View(st, k), Cur(st, k).value.node) && View(st, k).value.uid == Cur(st, k).value.uid
    ensures Alive(Log(st, k), Seen(st, k), Last(st, k))
  {
    UnderSince(Log(st, k), Seen(st, k), Last(st, k));
    AliveProgress(Log(st, k), Seen(st, k), Last(st, k));
  }

  ghost function Planned(st: Store, plan: set<Key>): Sched { Round(map k | k in plan :: Seen(st, k), map[]) }

  lemma ListRounds(st: Store, nodes: seq<Node>, reqs: seq<Request>, limits: Limits)
    requires LogsOk(st) && Lists(st, reqs)
    ensures SchedOk(st, Planned(st, Keys(Plan(nodes, reqs, limits))))
    ensures Unseen(st, Between) && Exclusive(st, Between) ==>
              Unseen(st, Planned(st, Keys(Plan(nodes, reqs, limits)))) &&
              Exclusive(st, Planned(st, Keys(Plan(nodes, reqs, limits))))
  {
    var plan := Plan(nodes, reqs, limits);
    var sched := Planned(st, Keys(plan));
    PlanSound(nodes, reqs, limits);
    forall k | k in sched.todo ensures Waiting(View(st, k)) {
      var r := PlannedRequest(st, nodes, reqs, limits, k);
    }
    if Unseen(st, Between) && Exclusive(st, Between) {
      forall k, j, node | Claims(st, sched, k, node) && Claims(st, sched, j, node) ensures k == j {
        ListExclusive(st, nodes, reqs, limits, k, j, node);
      }
    }
  }

  lemma PlannedRequest(st: Store, nodes: seq<Node>, reqs: seq<Request>, limits: Limits, k: Key) returns (r: Request)
    requires Lists(st, reqs) && k in Keys(Plan(nodes, reqs, limits))
    ensures r in Plan(nodes, reqs, limits) && r.key == k && Eligible(nodes, reqs, r)
    ensures View(st, k) == Some(r.nm) && Waiting(View(st, k))
  {
    PlanSound(nodes, reqs, limits);
    r :| r in Plan(nodes, reqs, limits) && r.key == k;
  }

  lemma ListExclusive(st: Store, nodes: seq<Node>, reqs: seq<Request>, limits: Limits, k: Key, j: Key, node: string)
    requires LogsOk(st) && Lists(st, reqs) && Unseen(st, Between) && Exclusive(st, Between)
    requires
      var sched := Planned(st, Keys(Plan(nodes, reqs, limits)));
      Claims(st, sched, k, node) && Claims(st, sched, j, node)
    ensures k == j
  {
    var plan := Plan(nodes, reqs, limits);
    if k in Keys(plan) && j in Keys(plan) {
      var a := PlannedRequest(st, nodes, reqs, limits, k);
      var b := PlannedRequest(st, nodes, reqs, limits, j);
      NotUnderWhenPlanned(st, k);
      NotUnderWhenPlanned(st, j);
      PlanInjective(nodes, reqs, limits, a, b);
    } else if k in Keys(plan) {
      PlanAgainstUnder(st, nodes, reqs, limits, k, j);
    } else if j in Keys(plan) {
      PlanAgainstUnder(st, nodes, reqs, limits, j, k);
    } else {
      assert Claims(st, Between, k, node) && Claims(st, Between, j, node);
    }
  }

  /** A request the cache shows as waiting is waiting. */
  lemma NotUnderWhenPlanned(st: Store, k: Key)
    requires LogsOk(st) && Unseen(st, Between) && Waiting(View(st, k))
    ensures !IsUnder(Cur(st, k))
  {
    if IsUnder(Cur(st, k)) { SeenUnder(st, k); }
  }

  /** No maintenance is, or is shown, on the node of a planned request. */
  lemma PlanAgainstUnder(st: Store, nodes: seq<Node>, reqs: seq<Request>, limits: Limits, k: Key, j: Key)
    requires LogsOk(st) && Lists(st, reqs) && Unseen(st, Between)
    requires k in Keys(Plan(nodes, reqs, limits))
    ensures View(st, k).Some? && !IsUnder(View(st, k)) && !IsUnder(Cur(st, k))
    ensures !UnderOn(View(st, j), View(st, k).value.node) && !UnderOn(Cur(st, j), View(st, k).value.node)
  {
    var r := PlannedRequest(st, nodes, reqs, limits, k);
    NotUnderWhenPlanned(st, k);
    if View(st, j).Some? {
      var q :| q in reqs && q.key == j;
      assert UnderMaintenance(q.nm) ==> q.nm.node != r.nm.node;
    }
    if IsUnder(Cur(st, j)) { SeenUnder(st, j); }
  }

  /** The scheduler's own write moves a claim from the plan to the store. */
  lemma WriteRounds(st: Store, todo: map<Key, nat>, wait: map<Key, nat>, k: Key)
    requires LogsOk(st) && SchedOk(st, Round(todo, wait))
    requires k in todo && todo[k] == Last(st, k)
    ensures
      var e := Some(WithReason(Cur(st, k).value, Scheduled));
      var st', sched' := Append(st, k, e), Round(todo - {k}, wait[k := Last(st, k) + 1]);
      && Edge(Cur(st, k), e)
      && SchedOk(st', sched')
      && (Unseen(st, Round(todo, wait)) ==> Unseen(st', sched'))
      && Fewer(st, Round(todo, wait), st', sched')
  {
    CurOk(st, k);
    WriteSchedOk(st, todo, wait, k);
    WriteUnseen(st, todo, wait, k);
    WriteFewer(st, todo, wait, k);
  }

  lemma WriteSchedOk(st: Store, todo: map<Key, nat>, wait: map<Key, nat>, k: Key)
    requires SchedOk(st, Round(todo, wait)) && k in todo && todo[k] == Last(st, k)
    ensures SchedOk(Append(st, k, Some(WithReason(Cur(st, k).value, Scheduled))),
                    Round(todo - {k}, wait[k := Last(st, k) + 1]))
  {
    var st' := Append(st, k, Some(WithReason(Cur(st, k).value, Scheduled)));
    var wait' := wait[k := Last(st, k) + 1];
    forall j | j in wait' ensures WaitOk(st', j, wait'[j]) {
      if j != k { assert WaitOk(st, j, wait[j]); }
    }
  }

  lemma WriteUnseen(st: Store, todo: map<Key, nat>, wait: map<Key, nat>, k: Key)
    requires SchedOk(st, Round(todo, wait)) && k in todo && todo[k] == Last(st, k)
    ensures Unseen(st, Round(todo, wait)) ==>
              Unseen(Append(st, k, Some(WithReason(Cur(st, k).value, Scheduled))),
                     Round(todo - {k}, wait[k := Last(st, k) + 1]))
  {
    var st' := Append(st, k, Some(WithReason(Cur(st, k).value, Scheduled)));
    forall j, i | StartsAt(Log(st', j), i) ensures StartsAt(Log(st, j), i) || (j == k && i == Last(st, k) + 1) {
    }
  }

  lemma WriteFewer(st: Store, todo: map<Key, nat>, wait: map<Key, nat>, k: Key)
    requires SchedOk(st, Round(todo, wait)) && k in todo && todo[k] == Last(st, k)
    ensures Fewer(st, Round(todo, wait), Append(st, k, Some(WithReason(Cur(st, k).value, Scheduled))),
                  Round(todo - {k}, wait[k := Last(st, k) + 1]))
  {
    var sched := Round(todo, wait);
    var st' := Append(st, k, Some(WithReason(Cur(st, k).value, Scheduled)));
    var sched' := Round(todo - {k}, wait[k := Last(st, k) + 1]);
    forall j, node | Claims(st', sched', j, node) ensures Claims(st, sched, j, node) {
      if j != k { assert Log(st', j) == Log(st, j); }
    }
  }

  /** Giving up one planned write. */
  lemma DropRounds(st: Store, todo: map<Key, nat>, wait: map<Key, nat>, k: Key)
    requires SchedOk(st, Round(todo, wait))
    ensures SchedOk(st, Round(todo - {k}, wait))
    ensures Unseen(st, Round(todo, wait)) ==> Unseen(st, Round(todo - {k}, wait))
    ensures Fewer(st, Round(todo, wait), st, Round(todo - {k}, wait))
  {
  }

  /** Ending one wait because the cache shows the maintenance, or shows that the request is gone. */
  lemma SeeRounds(st: Store, todo: map<Key, nat>, wait: map<Key, nat>, k: Key)
    requires SchedOk(st, Round(todo, wait)) && k in wait
    ensures SchedOk(st, Round(todo, wait - {k}))
    ensures Unseen(st, Round(todo, wait)) && SeenScheduled(View(st, k)) ==> Unseen(st, Round(todo, wait - {k}))
    ensures Fewer(st, Round(todo, wait), st, Round(todo, wait - {k}))
  {
    assert WaitOk(st, k, wait[k]);
  }

  lemma FewerExclusive(st: Store, sched: Sched, st': Store, sched': Sched)
    requires Exclusive(st, sched) && Fewer(st, sched, st', sched')
    ensures Exclusive(st', sched')
  {
  }
}
