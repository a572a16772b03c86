/** Runs in which promises of the operator fail, although no node went, no wait for a cache was
    given up, and every cache was up to date when it was read. */
module Counterexamples {
  import opened Api
  import opened Versions
  import opened Handlers
  import opened Operator
  import opened PreScheduling
  import opened Planning
  import opened Scheduling
  import opened CordonRestore
  import opened Requestors
  import opened Theorems
  import opened Runs
  import DR = DrainManagers

  const K := Key("ns", "nm")
  const N := Node("n", false, [], "p")
  const BORN := NodeMaintenance(
    0, 0, "r", "n", true, false, None, {}, false, false, Uninitialized, false, false, None, None, false)
  const PENDING := WithReason(BORN, Pending)
  const SCHEDULED := WithReason(BORN, Scheduled)
  const LABELLED := SCHEDULED.(finalizer := true, poolLabel := Some("p"))
  const CORDON := WithReason(LABELLED, Cordon)
  const NOTED := CORDON.(initial := Some(false))
  const DRAINING := WithReason(NOTED, Draining)
  const READY := WithReason(NOTED, Ready)
  const LEAVING := READY.(deleting := true)
  const FREE := Pool(false, false, "c", "c")
  const OURS := Pool(true, true, "c", "c")
  const FOREIGN := Pool(true, false, "c", "c")

  /** No node went, no wait was given up, and no pool leaked. */
  predicate Undisturbed(h: History) {
    h.lost == {} && h.lostPools == {} && !h.timedOut && !h.poolTimedOut && !h.staleCheck && h.leaked == {}
  }

  ghost predicate Lone(st: Store) { forall k :: k != K ==> Log(st, k) == [None] }

  /** One request, one node in one pool, the pool's cache up to date, and no drain. */
  ghost predicate Scene(s: State, pool: Pool, cordoned: bool) {
    && Lone(s.st) && s.openshift && s.nodes == map["n" := N.(unschedulable := cordoned)]
    && s.pools == map["p" := pool] && s.pview == s.pools
    && s.dr == DR.Drains(map[], [], DR.Free) && Undisturbed(s.h)
  }

  /** The reconciler rests, and the request is queued in this version. */
  predicate Rests(s: State, nm: NodeMaintenance) {
    s.ctl == Resting && K in s.queue && Shown(s.st, K, Some(nm))
  }

  /** The reconciler is at a statement with a current copy. */
  predicate Works(s: State, nm: NodeMaintenance, cordoned: bool, pc: PC) {
    && s.ctl.Busy? && s.ctl.key == K && s.ctl.nm == nm && s.ctl.node == N.(unschedulable := cordoned) && s.ctl.pc == pc
    && Current(s) && Cur(s.st, K) == Some(nm)
  }

  function Start(): State {
    State(true, Store(map[], map[]), map["n" := N], map["p" := FREE], map["p" := FREE], Between, Resting,
          DR.Drains(map[], [], DR.Free), {}, {}, 0, History({}, {}, {}, map[], false, false, false, {}, false, 0))
  }

  // --------------------------------------------------------------- scheduling

  const LIMITS := Limits(None, None)
  const ASKED := Request(K, PENDING)

  /** The only candidate is planned. */
  lemma PlanOfOne()
    ensures Plan([N], [ASKED], LIMITS) == [ASKED]
  {
    hide Plan;
    var nodes, reqs := [N], [ASKED];
    assert reqs[0] == ASKED && nodes[0] == N;
    assert Names(nodes) == {"n"};
    assert NodesUnder({"n"}, reqs) == {};
    assert NodesPending({"n"}, reqs) == {"n"};
    assert CandidateNodes(nodes, reqs) == {"n"};
    var plan := Plan(nodes, reqs, LIMITS);
    PipelineFit(nodes, reqs, LIMITS);
    assert |plan| == 1;
    PlanSound(nodes, reqs, LIMITS);
    assert plan[0] in plan && plan[0] in reqs;
  }

  lemma IsPending() returns (s: State)
    ensures Comes(s) && Scene(s, FREE, false) && Rests(s, PENDING) && s.sched == Between
  {
    hide Comes;
    Begins(Start());
    s := Creates(Start(), K, BORN);
    s := Opens(s, K, BORN, Top(SetPending));
    s := Closes(s, 0, PENDING);
  }

  lemma ListsOne(st: Store)
    requires Shown(st, K, Some(PENDING)) && Lone(st)
    ensures Lists(st, [ASKED])
  {
    assert [ASKED][0] == ASKED;
  }

  lemma RoundOfOne(s: State)
    requires s.sched == Between && Shown(s.st, K, Some(PENDING))
    ensures
      var s' := StartRound(s, [N], [ASKED], LIMITS);
      s' == s.(sched := Round(map[K := Last(s.st, K)], map[]), h := s.h.(limit := s'.h.limit))
  {
    hide Plan, MaxOperations;
    PlanOfOne();
    assert [ASKED][0] == ASKED;
    assert Keys([ASKED]) == {K};
    assert StartRound(s, [N], [ASKED], LIMITS).sched.todo == map[K := Last(s.st, K)];
  }

  lemma IsScheduled() returns (s: State)
    ensures Comes(s) && Scene(s, FREE, false) && Rests(s, SCHEDULED)
  {
    hide Comes, Lists, StartRound;
    s := IsPending();
    ListsOne(s.st);
    RoundOfOne(s);
    assert [N][0] == N;
    assert Names([N]) == {"n"};
    ThenTurn(s, List([N], [ASKED], LIMITS));
    s := StartRound(s, [N], [ASKED], LIMITS);
    s := IsWritten(s);
  }

  lemma IsWritten(s: State) returns (s': State)
    requires Comes(s) && Shown(s.st, K, Some(PENDING)) && s.sched == Round(map[K := Last(s.st, K)], map[])
    ensures Comes(s') && s' == s.(st := s'.st, sched := s'.sched, queue := s.queue + {K})
    ensures Shown(s'.st, K, Some(SCHEDULED)) && (Lone(s.st) ==> Lone(s'.st))
  {
    hide Comes, Append;
    ThenTurn(s, WriteOne(K, true));
    s' := CatchesUp(WriteScheduled(s, K, true), K);
  }

  // ------------------------------------------------- a pause taken over

  /** A pool that somebody else paused is not safe from the operator: a pause between read and patch
      is taken over. */
  lemma ForeignPauseTakenOver() returns (start: State, steps: seq<Step>, s: State, step: Step)
    ensures Reached(start, steps, s) && s.openshift && Undisturbed(s.h)
    ensures Enabled(s, step) && step.Reconcile? && ForeignPause(s, "p")
    ensures "p" in Apply(s, step).pools && Apply(s, step).pools["p"] == OURS
  {
    hide Reached, Enabled, Apply;
    s := IsRaced();
    start, steps :| Reached(start, steps, s);
    step := Reconcile(true, 0);
    PatchTakesOver(s);
  }

  lemma IsRaced() returns (s: State)
    ensures Comes(s) && s.openshift && Undisturbed(s.h) && s.ctl.Busy? && s.ctl.pc == Pause(PatchPool)
    ensures s.ctl.node == N && s.pools == map["p" := FOREIGN]
  {
    hide Comes;
    s := IsScheduled();
    s := Attaches(s, K, SCHEDULED);
    s := Looks(s);
    ThenChange(s, EditPool("p", FOREIGN));
    s := DoChange(s, EditPool("p", FOREIGN));
  }

  lemma PatchTakesOver(s: State)
    requires s.ctl.Busy? && s.ctl.pc == Pause(PatchPool) && s.ctl.node == N && s.pools == map["p" := FOREIGN]
    ensures Enabled(s, Reconcile(true, 0))
    ensures
      var s' := Apply(s, Reconcile(true, 0));
      "p" in s'.pools && s'.pools["p"] == OURS
  {
  }

  // ---------------------------------------- a clean-up despite a requestor

  lemma IsCordoned() returns (s: State)
    ensures Comes(s) && Scene(s, OURS, true) && Rests(s, WithReason(NOTED, WaitForPodCompletion))
  {
    hide Comes, Append;
    s := IsScheduled();
    s := Attaches(s, K, SCHEDULED);
    s := Pauses(s);
    s := Closes(s, 0, CORDON);
    s := IsMarked(s);
  }

  lemma IsNoted(s: State) returns (s': State)
    requires Comes(s) && Scene(s, OURS, false) && Rests(s, CORDON)
    ensures Comes(s') && Scene(s', OURS, false) && Works(s', NOTED, false, Cordoning(CordonNode))
  {
    hide Comes, Append;
    s' := Opens(s, K, CORDON, Cordoning(NoteInitial));
    s' := Writes(s', 0, NOTED, To(Cordoning(CordonNode)));
  }

  lemma IsMarked(s: State) returns (s': State)
    requires Comes(s) && Scene(s, OURS, false) && Rests(s, CORDON)
    ensures Comes(s') && Scene(s', OURS, true) && Rests(s', WithReason(NOTED, WaitForPodCompletion))
  {
    hide Comes, Append;
    s' := IsNoted(s);
    s' := Marks(s', true, To(Cordoning(SetWaitForPods)));
    s' := Closes(s', 0, WithReason(NOTED, WaitForPodCompletion));
  }

  lemma IsDraining() returns (s: State)
    ensures Comes(s) && Scene(s, OURS, true) && Rests(s, DRAINING)
  {
    hide Comes, Append;
    s := IsCordoned();
    s := Opens(s, K, WithReason(NOTED, WaitForPodCompletion), Pods(SetDraining));
    s := Closes(s, 0, DRAINING);
  }

  lemma IsReady() returns (s: State)
    ensures Comes(s) && Scene(s, OURS, true) && Rests(s, READY)
  {
    hide Comes, Append, Code, CtlLook;
    s := IsDraining();
    s := IsDrained(s);
    s := Closes(s, 0, READY);
  }

  lemma DrainingCode(node: Node)
    ensures Handler(DRAINING, true) == To(Drain(RemoveDrain(ThenClearStatus)))
    ensures AfterRemoval(ThenClearStatus, DRAINING, true) == To(Drain(ClearStatus))
    ensures Code(Drain(ClearStatus), DRAINING, node, true, 0) == Go(To(Drain(SetReady)))
    ensures Code(Drain(SetReady), DRAINING, node, true, 0) == Write(READY, End(Done))
  {
  }

  /** Without a drain spec there is nothing to drain. */
  lemma IsDrained(s: State) returns (s': State)
    requires Comes(s) && Scene(s, OURS, true) && Rests(s, DRAINING)
    ensures Comes(s') && Scene(s', OURS, true) && Works(s', DRAINING, true, Drain(SetReady))
    ensures Code(s'.ctl.pc, s'.ctl.nm, s'.ctl.node, s'.openshift, 0) == Write(READY, End(Done))
  {
    hide Comes, Code, Handler, AfterRemoval;
    DrainingCode(N.(unschedulable := true));
    s' := Opens(s, K, DRAINING, Drain(RemoveDrain(ThenClearStatus)));
    s' := FindsNoDrain(s', ThenClearStatus, Drain(ClearStatus));
    s' := Goes(s', 0, Drain(SetReady));
  }

  lemma IsLeaving() returns (s: State)
    ensures Comes(s) && Scene(s, OURS, true) && Works(s, LEAVING, true, Clean(UncordonNode))
  {
    hide Comes, Append;
    s := IsReady();
    s := Deletes(s, K, READY);
    s := Opens(s, K, LEAVING, Clean(UncordonNode));
  }

  /** The stored request is terminal and under deletion, and somebody still wants it; the reconciler
      works on the version before. */
  ghost predicate WantedBehind(s: State, nm: NodeMaintenance, pc: PC) {
    && s.ctl.Busy? && s.ctl.key == K && s.ctl.nm == nm && s.ctl.pc == pc && Terminal(nm) && nm.deleting
    && Lives(s.st, s.ctl) && Cur(s.st, K) == Some(nm.(additional := {"x"})) && s.ctl.at == Last(s.st, K) - 1
  }

  /** The node of a terminal request becomes schedulable while an additional requestor waits. */
  lemma UncordonedWhileWanted() returns (start: State, steps: seq<Step>, s: State, step: Step)
    ensures Reached(start, steps, s) && Undisturbed(s.h) && WantedBehind(s, LEAVING, Clean(UncordonNode))
    ensures Enabled(s, step) && step.Reconcile? && Flag(s.nodes, "n") && !Flag(Apply(s, step).nodes, "n")
  {
    hide Reached, Enabled, Apply;
    s := IsLeaving();
    s := Joins(s, K, LEAVING, {"x"});
    start, steps :| Reached(start, steps, s);
    step := Reconcile(true, 0);
    FlagGoes(s);
  }

  lemma FlagGoes(s: State)
    requires s.ctl.Busy? && s.ctl.pc == Clean(UncordonNode) && s.ctl.nm == LEAVING && s.ctl.node.unschedulable
    requires Flag(s.nodes, "n")
    ensures Enabled(s, Reconcile(true, 0)) && !Flag(Apply(s, Reconcile(true, 0)).nodes, "n")
  {
  }

  const UNCORDONED := LEAVING.(initial := None)

  lemma IsUncordoned() returns (s: State)
    ensures Comes(s) && Scene(s, OURS, false) && Works(s, UNCORDONED, false, Clean(ReadMark))
  {
    hide Comes, Append;
    s := IsLeaving();
    s := Marks(s, false, To(Clean(ForgetInitial)));
    s := Writes(s, 0, UNCORDONED, To(Clean(FindMarked)));
    s := Goes(s, 0, Clean(ReadMark));
  }

  lemma IsUnpausing() returns (s: State)
    ensures Comes(s) && Scene(s, OURS, false) && Works(s, UNCORDONED, false, Clean(PatchUnpause))
  {
    hide Comes, Append;
    s := IsUncordoned();
    s := Looks(s);
    s := Looks(s);
  }

  /** The pool of a terminal request is unpaused while an additional requestor waits. */
  lemma UnpausedWhileWanted() returns (start: State, steps: seq<Step>, s: State, step: Step)
    ensures Reached(start, steps, s) && Undisturbed(s.h) && WantedBehind(s, UNCORDONED, Clean(PatchUnpause))
    ensures Enabled(s, step) && step.Reconcile? && "p" in s.pools && s.pools["p"] == OURS
    ensures "p" in Apply(s, step).pools && Apply(s, step).pools["p"] == FREE
  {
    hide Reached, Enabled, Apply;
    s := IsUnpausing();
    s := Joins(s, K, UNCORDONED, {"x"});
    start, steps :| Reached(start, steps, s);
    step := Reconcile(true, 0);
    MarkGoes(s);
  }

  lemma MarkGoes(s: State)
    requires s.ctl.Busy? && s.ctl.pc == Clean(PatchUnpause) && s.ctl.node.pool == "p" && s.pools == map["p" := OURS]
    ensures Enabled(s, Reconcile(true, 0))
    ensures
      var s' := Apply(s, Reconcile(true, 0));
      "p" in s'.pools && s'.pools["p"] == FREE
  {
  }
}
