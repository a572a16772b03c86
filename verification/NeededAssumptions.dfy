/** Runs that show why guarantees exclude stale use checks and waits that are given up. */
module NeededAssumptions {
  import opened Api
  import opened Versions
  import opened Handlers
  import opened Operator
  import opened PreScheduling
  import opened Planning
  import opened Scheduling
  import opened Ranking
  import opened Ordering
  import opened Rounds
  import opened Seqs
  import opened CordonRestore
  import opened Theorems
  import opened Runs
  import DR = DrainManagers

  const A := Key("ns", "a")
  const B := Key("ns", "b")
  const NODE_A := Node("na", false, [], "p")
  const NODE_B := Node("nb", false, [], "p")
  const FREE := Pool(false, false, "c", "c")
  const OURS := Pool(true, true, "c", "c")

  /** A new request. */
  function Born(uid: nat, requestor: string, node: string): NodeMaintenance {
    NodeMaintenance(uid, 0, requestor, node, true, false, None, {}, false, false, Uninitialized, false, false,
                    None, None, false)
  }

  const BORN_A := Born(0, "r", "na")
  const BORN_B := Born(1, "r", "nb")

  function Labelled(born: NodeMaintenance): NodeMaintenance {
    WithReason(born, Scheduled).(finalizer := true, poolLabel := Some("p"))
  }

  ghost predicate OnlyTwo(st: Store) { forall k :: k != A && k != B ==> Log(st, k) == [None] }

  /** Two requests on two nodes of one pool, and no drain; no node went and no round's wait was
      given up. */
  ghost predicate Scene(s: State, pool: Pool) {
    && OnlyTwo(s.st) && s.openshift && s.nodes == map["na" := NODE_A, "nb" := NODE_B]
    && s.pools == map["p" := pool] && s.dr == DR.Drains(map[], [], DR.Free)
    && s.h.lost == {} && s.h.lostPools == {} && !s.h.timedOut
  }

  /** The cache of the pool is up to date, and no wait for it was given up. */
  predicate Calm(s: State) { s.pview == s.pools && !s.h.poolTimedOut }

  function Initially(): State {
    State(true, Store(map[], map[]), map["na" := NODE_A, "nb" := NODE_B], map["p" := FREE], map["p" := FREE],
          Between, Resting, DR.Drains(map[], [], DR.Free), {}, {}, 0,
          History({}, {}, {}, map[], false, false, false, {}, false, 0))
  }

  // --------------------------------------------------------------- scheduling

  lemma BecomesPending(s: State, k: Key, born: NodeMaintenance) returns (s': State)
    requires Comes(s) && s.ctl == Resting && Shown(s.st, k, None) && Unborn(born) && born.uid == s.nextUid
    requires born.node in s.nodes
    ensures Comes(s')
    ensures s' == s.(st := s'.st, queue := s'.queue, nextUid := s.nextUid + 1, h := s.h.(entry := s'.h.entry))
    ensures s.queue <= s'.queue && k in s'.queue
    ensures Shown(s'.st, k, Some(WithReason(born, Pending))) && Others(s.st, s'.st, k)
  {
    hide Comes;
    s' := Creates(s, k, born);
    s' := Opens(s', k, born, Top(SetPending));
    s' := Closes(s', 0, WithReason(born, Pending));
  }

  const LIMITS := Limits(None, Some(Number(2)))
  const ASKED_A := Request(A, WithReason(BORN_A, Pending))
  const ASKED_B := Request(B, WithReason(BORN_B, Pending))

  lemma BothAreCandidates()
    ensures
      var nodes, reqs := [NODE_A, NODE_B], [ASKED_A, ASKED_B];
      && Named(reqs) && ContextOf(nodes, reqs, LIMITS).Some?
      && ContextOf(nodes, reqs, LIMITS).value.availableSlots == 2
      && |ContextOf(nodes, reqs, LIMITS).value.candidateNodes| == 2
  {
    var nodes, reqs := [NODE_A, NODE_B], [ASKED_A, ASKED_B];
    assert reqs[0] == ASKED_A && reqs[1] == ASKED_B && nodes[0] == NODE_A && nodes[1] == NODE_B;
    assert Names(nodes) == {"na", "nb"};
    assert NodesUnder({"na", "nb"}, reqs) == {};
    assert NodesPending({"na", "nb"}, reqs) == {"na", "nb"};
    assert CandidateNodes(nodes, reqs) == {"na", "nb"};
  }

  lemma PlanOfBoth()
    ensures Keys(Plan([NODE_A, NODE_B], [ASKED_A, ASKED_B], LIMITS)) == {A, B}
  {
    hide Plan, ContextOf, MaxOperations, NodesUnder;
    var nodes, reqs := [NODE_A, NODE_B], [ASKED_A, ASKED_B];
    BothAreCandidates();
    var plan := Plan(nodes, reqs, LIMITS);
    PipelineFit(nodes, reqs, LIMITS);
    PlanSound(nodes, reqs, LIMITS);
    assert plan[0] in plan && plan[1] in plan && plan[0] in reqs && plan[1] in reqs;
  }

  lemma ListsBoth(st: Store)
    requires Shown(st, A, Some(ASKED_A.nm)) && Shown(st, B, Some(ASKED_B.nm)) && OnlyTwo(st)
    ensures Lists(st, [ASKED_A, ASKED_B])
  {
    assert [ASKED_A, ASKED_B][0] == ASKED_A && [ASKED_A, ASKED_B][1] == ASKED_B;
  }

  lemma RoundOfBoth(s: State)
    ensures
      var s' := StartRound(s, [NODE_A, NODE_B], [ASKED_A, ASKED_B], LIMITS);
      s' == s.(sched := Round(map[A := Seen(s.st, A), B := Seen(s.st, B)], map[]), h := s.h.(limit := s'.h.limit))
  {
    hide Plan, MaxOperations, Keys;
    PlanOfBoth();
    assert StartRound(s, [NODE_A, NODE_B], [ASKED_A, ASKED_B], LIMITS).sched.todo ==
        map[A := Seen(s.st, A), B := Seen(s.st, B)];
  }

  lemma IsWritten(s: State, k: Key, nm: NodeMaintenance) returns (s': State)
    requires Comes(s) && Shown(s.st, k, Some(nm)) && nm.reason == Pending
    requires s.sched.Round? && k in s.sched.todo && s.sched.todo[k] == Last(s.st, k)
    ensures Comes(s') && s' == s.(st := s'.st, sched := s'.sched, queue := s.queue + {k})
    ensures Shown(s'.st, k, Some(WithReason(nm, Scheduled))) && Others(s.st, s'.st, k)
    ensures s'.sched.Round? && s'.sched.todo == s.sched.todo - {k}
  {
    hide Comes, Append;
    ThenTurn(s, WriteOne(k, true));
    s' := CatchesUp(WriteScheduled(s, k, true), k);
  }

  lemma BothPending() returns (s: State)
    ensures Comes(s) && Scene(s, FREE) && Calm(s) && s.ctl == Resting && s.sched == Between
    ensures Shown(s.st, A, Some(ASKED_A.nm)) && Shown(s.st, B, Some(ASKED_B.nm)) && A in s.queue && B in s.queue
  {
    hide Comes;
    Begins(Initially());
    s := BecomesPending(Initially(), A, BORN_A);
    s := BecomesPending(s, B, BORN_B);
  }

  lemma BothListed() returns (s: State)
    ensures Comes(s) && Scene(s, FREE) && Calm(s) && s.ctl == Resting
    ensures s.sched == Round(map[A := Last(s.st, A), B := Last(s.st, B)], map[])
    ensures Shown(s.st, A, Some(ASKED_A.nm)) && Shown(s.st, B, Some(ASKED_B.nm)) && A in s.queue && B in s.queue
  {
    hide Comes, Lists, StartRound;
    s := BothPending();
    ListsBoth(s.st);
    RoundOfBoth(s);
    assert [NODE_A, NODE_B][0] == NODE_A && [NODE_A, NODE_B][1] == NODE_B;
    assert Names([NODE_A, NODE_B]) == {"na", "nb"};
    ThenTurn(s, List([NODE_A, NODE_B], [ASKED_A, ASKED_B], LIMITS));
    s := StartRound(s, [NODE_A, NODE_B], [ASKED_A, ASKED_B], LIMITS);
  }

  lemma BothScheduled() returns (s: State)
    ensures Comes(s) && Scene(s, FREE) && Calm(s) && s.ctl == Resting
    ensures Shown(s.st, A, Some(WithReason(BORN_A, Scheduled))) && Shown(s.st, B, Some(WithReason(BORN_B, Scheduled)))
    ensures A in s.queue && B in s.queue
  {
    hide Comes;
    s := BothListed();
    s := IsWritten(s, A, ASKED_A.nm);
    s := IsWritten(s, B, ASKED_B.nm);
  }

  // ------------------------------------------------------------ both leave

  /** A call fails before the request enters phase Cordon, and the request is deleted. */
  lemma GivesUp(s: State, k: Key, nm: NodeMaintenance) returns (s': State)
    requires Comes(s) && s.ctl.Busy? && s.ctl.key == k && s.ctl.pc == Start(SetCordon) && Cur(s.st, k) == Some(nm)
    requires nm.finalizer && !nm.deleting
    ensures Comes(s') && s' == s.(st := s'.st, ctl := Resting, queue := s.queue + {k})
    ensures Shown(s'.st, k, Some(nm.(deleting := true))) && Others(s.st, s'.st, k)
  {
    hide Comes;
    ThenFail(s);
    s' := CtlFail(s);
    s' := Deletes(s', k, nm);
    assert s.queue + {k} + {k} == s.queue + {k};
  }

  /** A pauses the pool and is deleted. */
  lemma FirstGivesUp() returns (s: State)
    ensures Comes(s) && Scene(s, OURS) && Calm(s) && s.ctl == Resting && A in s.queue && B in s.queue
    ensures Shown(s.st, A, Some(Labelled(BORN_A).(deleting := true)))
    ensures Shown(s.st, B, Some(WithReason(BORN_B, Scheduled)))
  {
    hide Comes;
    s := BothScheduled();
    s := Attaches(s, A, WithReason(BORN_A, Scheduled));
    s := Pauses(s);
    s := GivesUp(s, A, Labelled(BORN_A));
  }

  /** B finds the pool paused and is deleted too. */
  lemma BothGiveUp() returns (s: State)
    ensures Comes(s) && Scene(s, OURS) && Calm(s) && s.ctl == Resting && A in s.queue && B in s.queue
    ensures Shown(s.st, A, Some(Labelled(BORN_A).(deleting := true)))
    ensures Shown(s.st, B, Some(Labelled(BORN_B).(deleting := true)))
  {
    hide Comes;
    s := FirstGivesUp();
    s := Attaches(s, B, WithReason(BORN_B, Scheduled));
    s := Looks(s);
    s := GivesUp(s, B, Labelled(BORN_B));
  }

  /** The clean-up of a request in phase Scheduled, up to the use check. */
  lemma Checks(s: State, k: Key, nm: NodeMaintenance) returns (s': State)
    requires Comes(s) && s.openshift && s.ctl == Resting && k in s.queue && Shown(s.st, k, Some(nm))
    requires nm.node in s.nodes
    requires nm.reason == Scheduled && nm.deleting
    requires s.nodes[nm.node].pool in s.pview && s.pview[s.nodes[nm.node].pool].marked
    ensures Comes(s')
    ensures s' == s.(queue := s.queue - {k},
                     ctl := Busy(k, Last(s.st, k), Last(s.st, k), nm, s.nodes[nm.node], 0, Clean(CheckUse)))
  {
    hide Comes;
    s' := Opens(s, k, nm, Clean(FindMarked));
    s' := Goes(s', 0, Clean(ReadMark));
    s' := Looks(s');
  }

  /** The pool is found in use, and the finalizer goes. */
  lemma FindsUse(s: State, k: Key, nm: NodeMaintenance) returns (s': State)
    requires Comes(s) && s.ctl.Busy? && s.ctl.key == k && s.ctl.nm == nm && s.ctl.pc == Clean(CheckUse)
    requires Current(s) && nm.deleting && nm.finalizer && UsedIn(s, s.ctl.node.pool, k, false)
    ensures Comes(s')
    ensures s' == s.(st := s'.st, ctl := Resting, h := s.h.(staleCheck := s'.h.staleCheck, leaked := s'.h.leaked))
    ensures Log(s'.st, k) == Log(s.st, k) + [None] && Seen(s'.st, k) == Seen(s.st, k) && Others(s.st, s'.st, k)
  {
    hide Comes, Append, UsedIn;
    s' := Looks(s);
    s' := Writes(s', 0, nm.(finalizer := false), End(Done));
  }

  lemma InUse(s: State, me: Key, other: Key, nm: NodeMaintenance)
    requires View(s.st, other) == Some(nm) && other != me && nm.poolLabel.Some? && InPool(s, nm.node, "p")
    ensures UsedIn(s, "p", me, false)
  {
    assert other in s.st.logs;
  }

  lemma FirstLeaves() returns (s: State)
    ensures Comes(s) && Scene(s, OURS) && Calm(s) && s.ctl == Resting && B in s.queue
    ensures Cur(s.st, A) == None && View(s.st, A) == Some(Labelled(BORN_A).(deleting := true))
    ensures Shown(s.st, B, Some(Labelled(BORN_B).(deleting := true)))
  {
    hide Comes, UsedIn;
    s := BothGiveUp();
    s := Checks(s, A, Labelled(BORN_A).(deleting := true));
    InUse(s, A, B, Labelled(BORN_B).(deleting := true));
    s := FindsUse(s, A, Labelled(BORN_A).(deleting := true));
  }

  /** Two requests leave one after the other, and the cache still shows the first when the second
      checks: the pool stays paused and annotated, and no request is left. */
  lemma PauseLeaks() returns (start: State, steps: seq<Step>, s: State)
    ensures Reached(start, steps, s) && s.openshift && !s.h.timedOut && !s.h.poolTimedOut
    ensures s.h.lost == {} && s.h.lostPools == {}
    ensures s.pools == map["p" := OURS] && forall k :: Cur(s.st, k) == None
  {
    hide Reached, UsedIn;
    s := FirstLeaves();
    s := Checks(s, B, Labelled(BORN_B).(deleting := true));
    InUse(s, B, A, Labelled(BORN_A).(deleting := true));
    s := FindsUse(s, B, Labelled(BORN_B).(deleting := true));
    start, steps :| Reached(start, steps, s);
  }

  // -------------------------------------------- a wait for a pool given up

  /** A unpauses the pool, and its wait to see that is given up. */
  lemma WaitGivenUp() returns (s: State)
    ensures Comes(s) && Scene(s, FREE) && s.pview == map["p" := OURS] && s.ctl == Resting && B in s.queue
    ensures Shown(s.st, B, Some(WithReason(BORN_B, Scheduled)))
  {
    hide Comes, Append;
    s := FirstGivesUp();
    s := Checks(s, A, Labelled(BORN_A).(deleting := true));
    NotInUse(s);
    s := UnpausesBlindly(s);
  }

  lemma NotInUse(s: State)
    requires OnlyTwo(s.st) && View(s.st, B).Some? && View(s.st, B).value.poolLabel == None
    ensures !UsedIn(s, "p", A, false)
  {
  }

  lemma UnpausesBlindly(s: State) returns (s': State)
    requires Comes(s) && s.ctl.Busy? && s.ctl.pc == Clean(CheckUse) && s.ctl.node.pool == "p"
    requires !UsedIn(s, "p", s.ctl.key, false) && s.pools == map["p" := OURS] && s.pview == s.pools
    ensures Comes(s')
    ensures s' == s.(pools := map["p" := FREE], ctl := Resting, queue := s.queue + {s.ctl.key},
                     h := s.h.(staleCheck := false, poolTimedOut := true))
  {
    hide Comes, UsedIn;
    s' := Looks(s);
    s' := Looks(s');
    ThenFail(s');
    s' := CtlFail(s');
  }

  /** Without the wait a request enters phase Cordon with its pool not paused. */
  lemma CordonWithoutPause() returns (start: State, steps: seq<Step>, s: State)
    ensures Reached(start, steps, s) && s.openshift && !s.h.timedOut && s.h.lost == {}
    ensures IsLate(Cur(s.st, B)) && !Cur(s.st, B).value.deleting && Cur(s.st, B).value.node == "nb"
    ensures s.nodes == map["na" := NODE_A, "nb" := NODE_B] && s.pools == map["p" := FREE]
  {
    hide Reached, Append;
    s := WaitGivenUp();
    s := Attaches(s, B, WithReason(BORN_B, Scheduled));
    s := Looks(s);
    s := Closes(s, 0, WithReason(Labelled(BORN_B), Cordon));
    start, steps :| Reached(start, steps, s);
  }

  // ------------------------------------------- a wait for a request given up

  const LATER_B := Born(1, "q", "na")
  const ONE := Limits(None, None)
  const ASKED_LATER := Request(B, WithReason(LATER_B, Pending))

  /** Both requests ask for node "na". */
  ghost predicate Rivals(s: State) {
    OnlyTwo(s.st) && s.nodes == map["na" := NODE_A] && s.ctl == Resting && s.sched == Between && s.h.lost == {}
  }

  function Alone(): State { Initially().(nodes := map["na" := NODE_A]) }

  lemma PlanOfFirst()
    ensures Plan([NODE_A], [ASKED_A], ONE) == [ASKED_A]
  {
    hide Plan;
    var nodes, reqs := [NODE_A], [ASKED_A];
    assert reqs[0] == ASKED_A && nodes[0] == NODE_A;
    assert Names(nodes) == {"na"};
    assert NodesUnder({"na"}, reqs) == {};
    assert NodesPending({"na"}, reqs) == {"na"};
    assert CandidateNodes(nodes, reqs) == {"na"};
    var plan := Plan(nodes, reqs, ONE);
    PipelineFit(nodes, reqs, ONE);
    assert |plan| == 1;
    PlanSound(nodes, reqs, ONE);
    assert plan[0] in plan && plan[0] in reqs;
  }

  lemma PendingBoth()
    ensures
      var cs := ClusterStateOf([NODE_A], [ASKED_A, ASKED_LATER]);
      cs.inProgress == [] && cs.pending == [ASKED_A, ASKED_LATER]
  {
    var reqs := [ASKED_A, ASKED_LATER];
    assert reqs[..0] == [] && reqs[..2] == reqs;
    FilterStep(Ranking.IsUnder, reqs, 0);
    FilterStep(Ranking.IsUnder, reqs, 1);
    FilterStep(Ranking.IsPending, reqs, 0);
    FilterStep(Ranking.IsPending, reqs, 1);
    assert [] + [ASKED_A] + [ASKED_LATER] == reqs;
  }

  lemma SameWeight()
    ensures
      var cs := ClusterStateOf([NODE_A], [ASKED_A, ASKED_LATER]);
      Weight(cs, "r") == Weight(cs, "q")
  {
    hide ClusterStateOf;
    var cs := ClusterStateOf([NODE_A], [ASKED_A, ASKED_LATER]);
    PendingBoth();
    WeightValue(cs, "r");
    WeightValue(cs, "q");
    CountOfOne(ASKED_A, ASKED_LATER, "r");
    CountOfOne(ASKED_A, ASKED_LATER, "q");
    assert "r"[0] != "q"[0];
  }

  lemma CountOfOne(a: Request, b: Request, who: string)
    ensures PendingCount([a, b], who) ==
              (if a.nm.requestor == who then 1 else 0) + if b.nm.requestor == who then 1 else 0
  {
    assert [a, b][..1] == [a];
    assert [a][..0] == [];
    assert PendingCount([a], who) == PendingCount([], who) + if a.nm.requestor == who then 1 else 0;
  }

  /** Equal in all else, the requestors' names decide. */
  lemma LaterIsBetter()
    ensures
      var cs := ClusterStateOf([NODE_A], [ASKED_A, ASKED_LATER]);
      CompareRanked(Ranked(ASKED_A, Weight(cs, "r")), Ranked(ASKED_LATER, Weight(cs, "q"))) > 0
  {
    hide ClusterStateOf, Weight;
    SameWeight();
    CompareStringSwap("na", "na");
    assert "r"[0] > "q"[0];
    assert CompareString(ASKED_A.nm.requestor, ASKED_LATER.nm.requestor) == 1;
    assert CompareString(ASKED_A.nm.node, ASKED_LATER.nm.node) == 0;
    assert ASKED_A.nm.created == ASKED_LATER.nm.created;
  }

  lemma PlanOfLater()
    ensures Plan([NODE_A], [ASKED_A, ASKED_LATER], ONE) == [ASKED_LATER]
  {
    hide Plan, CompareRanked, Weight;
    var nodes, reqs := [NODE_A], [ASKED_A, ASKED_LATER];
    assert reqs[0] == ASKED_A && reqs[1] == ASKED_LATER && nodes[0] == NODE_A;
    assert Names(nodes) == {"na"};
    assert NodesUnder({"na"}, reqs) == {};
    assert NodesPending({"na"}, reqs) == {"na"};
    assert CandidateNodes(nodes, reqs) == {"na"};
    var plan := Plan(nodes, reqs, ONE);
    PipelineFit(nodes, reqs, ONE);
    assert |plan| == 1;
    PlanSound(nodes, reqs, ONE);
    assert plan[0] in plan && plan[0] in reqs;
    LaterIsBetter();
    if plan[0] == ASKED_A { PlanTakesBest(nodes, reqs, ONE, ASKED_A, ASKED_LATER); }
  }

  lemma RoundOf(s: State, reqs: seq<Request>, r: Request)
    requires Plan([NODE_A], reqs, ONE) == [r]
    ensures
      var s' := StartRound(s, [NODE_A], reqs, ONE);
      s' == s.(sched := Round(map[r.key := Seen(s.st, r.key)], map[]), h := s.h.(limit := s'.h.limit))
  {
    hide Plan, MaxOperations;
    assert [r][0] == r;
    assert Keys([r]) == {r.key};
    assert StartRound(s, [NODE_A], reqs, ONE).sched.todo == map[r.key := Seen(s.st, r.key)];
  }

  lemma StartsRound(s: State, reqs: seq<Request>, r: Request) returns (s': State)
    requires Comes(s) && s.sched == Between && s.nodes == map["na" := NODE_A] && Lists(s.st, reqs)
    requires Plan([NODE_A], reqs, ONE) == [r]
    ensures Comes(s')
    ensures s' == s.(sched := Round(map[r.key := Seen(s.st, r.key)], map[]), h := s.h.(limit := s'.h.limit))
  {
    hide Comes, Lists, StartRound, Plan;
    RoundOf(s, reqs, r);
    assert [NODE_A][0] == NODE_A;
    assert Names([NODE_A]) == {"na"};
    ThenTurn(s, List([NODE_A], reqs, ONE));
    s' := StartRound(s, [NODE_A], reqs, ONE);
  }

  lemma ListsFirst(st: Store)
    requires OnlyTwo(st) && View(st, A) == Some(ASKED_A.nm) && View(st, B) == None
    ensures Lists(st, [ASKED_A])
  {
    assert [ASKED_A][0] == ASKED_A;
  }

  lemma ListsRivals(st: Store)
    requires OnlyTwo(st) && View(st, A) == Some(ASKED_A.nm) && View(st, B) == Some(ASKED_LATER.nm)
    ensures Lists(st, [ASKED_A, ASKED_LATER])
  {
    assert [ASKED_A, ASKED_LATER][0] == ASKED_A && [ASKED_A, ASKED_LATER][1] == ASKED_LATER;
  }

  lemma FirstListed() returns (s: State)
    ensures Comes(s) && OnlyTwo(s.st) && s.nodes == map["na" := NODE_A] && s.ctl == Resting && s.h.lost == {}
    ensures s.nextUid == 1
    ensures Shown(s.st, A, Some(ASKED_A.nm)) && Shown(s.st, B, None)
    ensures s.sched == Round(map[A := Last(s.st, A)], map[])
  {
    hide Comes, Plan, Lists;
    Begins(Alone());
    s := BecomesPending(Alone(), A, BORN_A);
    ListsFirst(s.st);
    PlanOfFirst();
    s := StartsRound(s, [ASKED_A], ASKED_A);
  }

  /** A is scheduled, but the cache does not show it when the round ends. */
  lemma FirstUnseen() returns (s: State)
    ensures Comes(s) && Rivals(s) && s.nextUid == 1 && Shown(s.st, B, None)
    ensures Cur(s.st, A) == Some(WithReason(BORN_A, Scheduled)) && View(s.st, A) == Some(ASKED_A.nm)
  {
    hide Comes, Append;
    s := FirstListed();
    ThenTurn(s, WriteOne(A, true));
    s := WriteScheduled(s, A, true);
    ThenTurn(s, GiveUp(A));
    s := DoSchedule(s, GiveUp(A));
    ThenTurn(s, EndRound);
    s := DoSchedule(s, EndRound);
  }

  lemma BothRivals() returns (s: State)
    ensures Comes(s) && Rivals(s) && Shown(s.st, B, Some(ASKED_LATER.nm))
    ensures Cur(s.st, A) == Some(WithReason(BORN_A, Scheduled)) && View(s.st, A) == Some(ASKED_A.nm)
  {
    hide Comes;
    s := FirstUnseen();
    s := BecomesPending(s, B, LATER_B);
  }

  /** Without the wait two requests come under maintenance on one node. */
  lemma TwoOnOneNode() returns (start: State, steps: seq<Step>, s: State)
    ensures Reached(start, steps, s) && s.h.lost == {} && A != B
    ensures UnderOn(Cur(s.st, A), "na") && UnderOn(Cur(s.st, B), "na")
  {
    hide Reached, Append, Plan, Lists;
    s := BothRivals();
    ListsRivals(s.st);
    PlanOfLater();
    s := StartsRound(s, [ASKED_A, ASKED_LATER], ASKED_LATER);
    s := IsWritten(s, B, ASKED_LATER.nm);
    start, steps :| Reached(start, steps, s);
  }
}
