/** The guarantees of the operator, over every run from a start without requests: any number of
    requests, nodes and pools, in any interleaving of all parties. */
module Theorems {
  import opened Api
  import opened Versions
  import opened Handlers
  import opened Operator
  import opened Lifecycle
  import opened Histories
  import opened Rounds
  import opened Control
  import opened CoreInvariant
  import opened Effects
  import opened Steadiness
  import opened Capacity
  import opened CordonRestore
  import opened Labels
  import opened Pools
  import opened Drainage
  import opened Wakeups
  import opened Moves
  import opened Requestors
  import opened PreScheduling
  import Shapes
  import DR = DrainManagers

  ghost predicate Inv(s: State) {
    && Core(s) && SteadyInv(s) && CapacityInv(s) && CordonInv(s)
    && LabelInv(s) && PoolInv(s) && DrainageInv(s) && WakeInv(s)
  }

  lemma InitInv(s: State)
    requires Init(s)
    ensures Inv(s)
  {
    hide Core, SteadyInv, CapacityInv, CordonInv, LabelInv, PoolInv, DrainageInv, WakeInv;
    InitCore(s);
    InitSteady(s);
    InitCapacity(s);
    InitCordon(s);
    InitLabels(s);
    InitPools(s);
    InitDrainage(s);
    InitWake(s);
  }

  lemma InitSteady(s: State)
    requires Init(s)
    ensures SteadyInv(s)
  {
    forall k ensures SteadyLog(Log(s.st, k), Seen(s.st, k), s.h.lost) {
      assert HeldAt(Log(s.st, k), s.h.lost, 0) && HeldAlive(Log(s.st, k), Seen(s.st, k), s.h.lost, 0);
    }
  }

  lemma InvStep(s: State, step: Step)
    requires Inv(s) && Enabled(s, step)
    ensures Inv(Apply(s, step))
  {
    hide Core, SteadyInv, CapacityInv, CordonInv, LabelInv, PoolInv, DrainageInv, WakeInv, Enabled, Apply;
    CoreStep(s, step);
    SteadyStep(s, step);
    CapacityStep(s, step);
    CordonStep(s, step);
    LabelStep(s, step);
    PoolStep(s, step);
    DrainageStep(s, step);
    WakeStep(s, step);
  }

  lemma {:induction false} RunInv(s: State, steps: seq<Step>)
    requires Inv(s) && Run(s, steps).Some?
    ensures Inv(Run(s, steps).value)
    decreases |steps|
  {
    hide Inv, Enabled, Apply;
    if steps != [] {
      InvStep(s, steps[0]);
      RunInv(Apply(s, steps[0]), steps[1..]);
    }
  }

  /** The state is reached from some start. */
  ghost predicate Reached(start: State, steps: seq<Step>, s: State) {
    Init(start) && Run(start, steps) == Some(s)
  }

  lemma ReachedInv(start: State, steps: seq<Step>, s: State)
    requires Reached(start, steps, s)
    ensures Inv(s)
  {
    hide Inv, Init, Run;
    InitInv(start);
    RunInv(start, steps);
  }

  // -------------------------------------------------------------- scheduling

  /** No two requests are under maintenance on one node. */
  lemma PerNodeExclusion(start: State, steps: seq<Step>, s: State, k: Key, j: Key)
    requires Reached(start, steps, s) && !s.h.timedOut
    requires IsUnder(Cur(s.st, k)) && IsUnder(Cur(s.st, j)) && Cur(s.st, k).value.node == Cur(s.st, j).value.node
    ensures k == j
  {
    hide Reached, SteadyInv, CapacityInv, CordonInv, LabelInv, PoolInv, DrainageInv, WakeInv, LogsOk, UidsOk,
         SchedOk, CtlOk, Unseen;
    ReachedInv(start, steps, s);
    assert Claims(s.st, s.sched, k, Cur(s.st, k).value.node) && Claims(s.st, s.sched, j, Cur(s.st, k).value.node);
  }

  /** Between rounds the cache shows every request under maintenance as such. */
  lemma CacheShowsMaintenance(start: State, steps: seq<Step>, s: State, k: Key)
    requires Reached(start, steps, s) && !s.h.timedOut && s.sched == Between && IsUnder(Cur(s.st, k))
    ensures UnderOn(View(s.st, k), Cur(s.st, k).value.node) && View(s.st, k).value.uid == Cur(s.st, k).value.uid
  {
    hide Reached, SteadyInv, CapacityInv, CordonInv, LabelInv, PoolInv, DrainageInv, WakeInv, UidsOk, SchedOk,
         CtlOk, Exclusive;
    ReachedInv(start, steps, s);
    SeenUnder(s.st, k);
  }

  lemma {:induction false} RunLimit(s: State, steps: seq<Step>, n: int)
    requires Run(s, steps).Some? && s.h.limit <= n && forall i :: 0 <= i < |steps| ==> WithinLimit(steps[i], n)
    ensures Run(s, steps).value.h.limit <= n
    decreases |steps|
  {
    hide Enabled, Apply, WithinLimit;
    if steps != [] {
      LimitMoves(s, steps[0], n);
      RunLimit(Apply(s, steps[0]), steps[1..], n);
    }
  }

  /** With an operation limit of at most `n` in every round, at most `n` of the nodes that were
      never removed are under maintenance; all of them exist. */
  lemma OperationLimit(start: State, steps: seq<Step>, s: State, n: nat)
    requires Reached(start, steps, s) && !s.h.timedOut && forall i :: 0 <= i < |steps| ==> WithinLimit(steps[i], n)
    ensures |BusyNodes(s)| <= n && BusyNodes(s) <= s.nodes.Keys
  {
    hide Core, SteadyInv, CapacityInv, CordonInv, LabelInv, PoolInv, DrainageInv, WakeInv, Run, WithinLimit;
    ReachedInv(start, steps, s);
    RunLimit(start, steps, n);
    CapacityBound(s);
  }

  // --------------------------------------------------------------- lifecycle

  /** From one version of an object to the next the reason follows the phase diagram, over any
      stretch it never goes back, and the Ready condition is true exactly in phase Ready. */
  lemma PhasesNeverGoBack(start: State, steps: seq<Step>, s: State, k: Key, i: int, j: int)
    requires Reached(start, steps, s) && Alive(Log(s.st, k), i, j)
    ensures
      var x, y := Log(s.st, k)[i].value, Log(s.st, k)[j].value;
      && SameIdentity(x, y) && Rank(x.reason) <= Rank(y.reason) && (y.ready <==> y.reason == Ready)
      && (j == i + 1 ==> ReasonEdge(x.reason, y.reason))
  {
    hide Reached, SteadyInv, CapacityInv, CordonInv, LabelInv, PoolInv, DrainageInv, WakeInv, UidsOk, SchedOk,
         CtlOk;
    ReachedInv(start, steps, s);
    var log := Log(s.st, k);
    AliveProgress(log, i, j);
    EntryAt(log, j);
    if j == i + 1 { assert EdgeAt(log, j); }
  }

  /** What the store ever held stays in the history the previous theorem speaks of. */
  lemma {:induction false} HistoriesGrow(s: State, steps: seq<Step>, k: Key)
    requires Inv(s) && Run(s, steps).Some?
    ensures Log(s.st, k) <= Log(Run(s, steps).value.st, k)
    decreases |steps|
  {
    hide Core, SteadyInv, CapacityInv, CordonInv, LabelInv, PoolInv, DrainageInv, WakeInv, Enabled, Apply;
    if steps != [] {
      InvStep(s, steps[0]);
      LogsGrow(s, steps[0], k);
      HistoriesGrow(Apply(s, steps[0]), steps[1..], k);
    }
  }

  /** While its node stays, a request with effects outside itself holds the finalizer. */
  lemma FinalizerCover(start: State, steps: seq<Step>, s: State, k: Key)
    requires Reached(start, steps, s) && Kept(Cur(s.st, k), s.h.lost) && Engaged(Cur(s.st, k).value)
    ensures Cur(s.st, k).value.finalizer && Cur(s.st, k).value.node in s.nodes
  {
    hide Reached, CordonInv, LabelInv, PoolInv, DrainageInv, WakeInv, UidsOk, SchedOk, CtlOk, CapacityInv;
    ReachedInv(start, steps, s);
    assert SteadyLog(Log(s.st, k), Seen(s.st, k), s.h.lost);
    assert HeldAt(Log(s.st, k), s.h.lost, Last(s.st, k));
    CurOk(s.st, k);
    KeptExists(s, k);
  }

  /** The step takes the finalizer, or the whole object, away. */
  ghost predicate Leaves(s: State, s': State, k: Key) {
    && Cur(s.st, k).Some? && Cur(s.st, k).value.finalizer
    && !(Cur(s'.st, k).Some? && Cur(s'.st, k).value.finalizer)
  }

  lemma WhoLeaves(s: State, step: Step, k: Key)
    requires Inv(s) && Enabled(s, step) && Kept(Cur(s.st, k), s.h.lost) && Leaves(s, Apply(s, step), k)
    ensures s.ctl.Busy? && s.ctl.key == k && s.ctl.pc == Clean(RemoveFinalizer) && Cur(s.st, k) == Some(s.ctl.nm)
  {
    hide Core, CapacityInv, CordonInv, LabelInv, PoolInv, DrainageInv, WakeInv, Enabled, Apply, Steady, Edge;
    StoreMoves(s, step);
  }

  /** What has been done by the time a request leaves: its drain is gone from the manager, so none
      of its goroutines runs; the node's flag is what it was on entering phase Cordon; its pool is
      unmarked, or another request minds it unless the use check was stale; and no additional
      requestor waits for a terminal one. */
  ghost predicate CleanedUp(s: State, nm: NodeMaintenance, k: Key) {
    && nm.deleting && nm.initial == None
    && (Terminal(nm) ==> nm.additional == {})
    && nm.uid !in s.dr.byUid
    && (forall i :: 0 <= i < |s.dr.requests| && s.dr.requests[i].uid == nm.uid ==> !DR.Active(s.dr.requests[i]))
    && (Late(nm) && !s.h.timedOut && nm.uid !in s.h.touched ==>
          nm.uid in s.h.entry && Flag(s.nodes, nm.node) == s.h.entry[nm.uid])
    && (s.openshift && !s.h.poolTimedOut && nm.node in s.nodes && s.nodes[nm.node].pool !in s.h.lostPools ==>
          LeftToOthers(s, s.nodes[nm.node].pool, k))
  }

  /** A pool that stays marked is minded by another request, exactly if the use check was not stale. */
  ghost predicate LeftToOthers(s: State, p: string, k: Key) {
    Marked(s, p) ==> (MindedByOther(s.st, s.nodes, s.h.lost, p, k) <==> !s.h.staleCheck)
  }

  lemma LeavingDrain(s: State)
    requires Core(s) && DrainageInv(s) && s.ctl.Busy? && s.ctl.pc.Clean? && s.ctl.nm.node !in s.h.lost
    ensures s.ctl.nm.uid !in s.dr.byUid
    ensures forall i :: 0 <= i < |s.dr.requests| && s.dr.requests[i].uid == s.ctl.nm.uid ==>
          !DR.Active(s.dr.requests[i])
  {
    hide LogsOk, UidsOk, SchedOk, CtlOk, EarnedLogs, Issued;
  }

  lemma LeavingFlag(s: State)
    requires Core(s) && CordonInv(s) && !s.h.timedOut && s.ctl.Busy? && s.ctl.pc == Clean(RemoveFinalizer)
    requires Cur(s.st, s.ctl.key) == Some(s.ctl.nm) && Late(s.ctl.nm) && Guarded(s.ctl.nm, s.h)
    ensures s.ctl.nm.uid in s.h.entry && Flag(s.nodes, s.ctl.nm.node) == s.h.entry[s.ctl.nm.uid]
  {
    hide Core, NotesOk, DropsOk, CtlCordon;
    CopyFacts(s);
  }

  lemma LeavingPool(s: State)
    requires LabelInv(s) && PoolInv(s) && s.openshift && !s.h.poolTimedOut
    requires s.ctl.Busy? && s.ctl.pc == Clean(RemoveFinalizer) && s.ctl.nm.node !in s.h.lost
    requires s.ctl.nm.node in s.nodes && s.nodes[s.ctl.nm.node].pool !in s.h.lostPools
    ensures LeftToOthers(s, s.nodes[s.ctl.nm.node].pool, s.ctl.key)
  {
    hide LabelsSeen, Anchored, CopyLives, LabelHeld, Synced, PoolAt, Safe, NoLeak, Annotated, MindedByOther;
  }

  /** While its node stays, no request vanishes or loses its finalizer before it is cleaned up. */
  lemma NothingLeavesUnclean(start: State, steps: seq<Step>, s: State, step: Step, k: Key)
    requires Reached(start, steps, s) && Enabled(s, step) && Kept(Cur(s.st, k), s.h.lost)
    requires Leaves(s, Apply(s, step), k)
    ensures CleanedUp(s, Cur(s.st, k).value, k)
  {
    hide Reached, Core, SteadyInv, CapacityInv, CordonInv, LabelInv, PoolInv, DrainageInv, WakeInv, Enabled,
         Apply, Leaves, LeftToOthers, DR.Active;
    ReachedInv(start, steps, s);
    WhoLeaves(s, step, k);
    CopyFacts(s);
    LeavingDrain(s);
    if !s.h.timedOut && Late(s.ctl.nm) && Guarded(s.ctl.nm, s.h) { LeavingFlag(s); }
    if s.openshift && !s.h.poolTimedOut && s.ctl.nm.node in s.nodes && s.nodes[s.ctl.nm.node].pool !in s.h.lostPools {
      LeavingPool(s);
    }
  }

  // ------------------------------------------------------ additional requestors

  /** A clean-up step for a terminal request that somebody still wants does something exactly in two
      cases: it is the uncordon or the unpause, which are not version checked, and the requestor
      joined after the version the reconciler works from. */
  lemma CleanUpDespiteRequestor(start: State, steps: seq<Step>, s: State, choice: nat)
    requires Reached(start, steps, s) && s.ctl.Busy? && s.ctl.pc.Clean? && CtlReady(s)
    requires Lives(s.st, s.ctl) && Terminal(Cur(s.st, s.ctl.key).value)
    ensures Enabled(s, Reconcile(true, choice))
    ensures
      Wanted(Cur(s.st, s.ctl.key)) && CleansUp(s, Apply(s, Reconcile(true, choice))) <==>
        (Uncordons(s) || Unpauses(s)) && JoinedSince(Log(s.st, s.ctl.key), s.ctl.at, Last(s.st, s.ctl.key))
  {
    hide Reached, Core, SteadyInv, CapacityInv, CordonInv, LabelInv, PoolInv, DrainageInv, WakeInv, CtlAct,
         CtlReady, CleansUp, Uncordons, Unpauses, JoinedSince;
    ReachedInv(start, steps, s);
    TerminalCopy(s);
    WantedOrNot(Log(s.st, s.ctl.key), s.ctl.at, Last(s.st, s.ctl.key));
    if Wanted(Cur(s.st, s.ctl.key)) { WantedCleanUp(s, choice); }
  }

  /** Only a user's edit makes a requestor join. */
  lemma RequestorsJoinByEdit(start: State, steps: seq<Step>, s: State, step: Step, k: Key)
    requires Reached(start, steps, s) && Enabled(s, step)
    requires Unwanted(Cur(s.st, k)) && Wanted(Cur(Apply(s, step).st, k))
    ensures step.Edits? && step.edit.EditSpec? && step.edit.k == k
  {
    hide Reached, Core, SteadyInv, CapacityInv, CordonInv, LabelInv, PoolInv, DrainageInv, WakeInv, Enabled,
         Apply;
    ReachedInv(start, steps, s);
    OnlyEditsJoin(s, step, k);
  }

  /** Version-checked writes respect every requestor: no step of anybody takes the finalizer, the
      annotation or the object away while a terminal request is wanted. */
  lemma WantedRequestStays(start: State, steps: seq<Step>, s: State, step: Step, k: Key)
    requires Reached(start, steps, s) && Enabled(s, step) && Kept(Cur(s.st, k), s.h.lost)
    requires Terminal(Cur(s.st, k).value) && Wanted(Cur(s.st, k))
    ensures Stays(Cur(s.st, k).value, Cur(Apply(s, step).st, k))
  {
    hide Reached, Core, SteadyInv, CapacityInv, CordonInv, LabelInv, PoolInv, DrainageInv, WakeInv, Enabled,
         Apply, Stays;
    ReachedInv(start, steps, s);
    WritesKeepWanted(s, step, k);
  }

  /** No drain of a terminal request is ever cancelled or removed: a removal that does anything
      meets its request in phase Draining. */
  lemma DrainRemovedWhileDraining(start: State, steps: seq<Step>, s: State, choice: nat)
    requires Reached(start, steps, s) && s.ctl.Busy? && s.ctl.pc.Drain? && s.ctl.pc.drain.RemoveDrain? && CtlReady(s)
    requires s.ctl.nm.node !in s.h.lost && CtlAct(s, choice).dr != s.dr
    ensures DrainingAs(Cur(s.st, s.ctl.key), s.ctl.nm.uid, s.ctl.nm.node)
  {
    hide Reached, Core, SteadyInv, CapacityInv, CordonInv, LabelInv, PoolInv, DrainageInv, WakeInv, CtlAct;
    ReachedInv(start, steps, s);
    RemovalMeetsDraining(s, choice);
  }

  // ------------------------------------------------------------- the cordon

  /** From phase WaitForPodCompletion to the deletion of a cordoning request its node is
      unschedulable; before, and for a request that does not cordon, the flag is as on entry. */
  lemma CordonHolds(start: State, steps: seq<Step>, s: State, k: Key)
    requires Reached(start, steps, s) && !s.h.timedOut && IsLate(Cur(s.st, k)) && Guarded(Cur(s.st, k).value, s.h)
    ensures
      var nm := Cur(s.st, k).value;
      && nm.node in s.nodes && nm.uid in s.h.entry
      && (nm.cordon && nm.reason != Cordon && !nm.deleting ==> s.nodes[nm.node].unschedulable)
      && (!nm.cordon || nm.initial == None ==> s.nodes[nm.node].unschedulable == s.h.entry[nm.uid])
  {
    hide Reached, Core, SteadyInv, CapacityInv, LabelInv, PoolInv, DrainageInv, WakeInv, NotesOk, DropsOk,
         CtlCordon;
    ReachedInv(start, steps, s);
  }

  /** The only step that makes the node of such a request schedulable is its own clean-up. */
  lemma OnlyCleanUpUncordons(start: State, steps: seq<Step>, s: State, step: Step, k: Key)
    requires Reached(start, steps, s) && !s.h.timedOut && Enabled(s, step) && IsLate(Cur(s.st, k))
    requires
      var nm, s' := Cur(s.st, k).value, Apply(s, step);
      Guarded(nm, s'.h) && Flag(s.nodes, nm.node) && !Flag(s'.nodes, nm.node)
    ensures s.ctl.Busy? && s.ctl.key == k && s.ctl.pc == Clean(UncordonNode) && s.ctl.nm.deleting
    ensures Cur(s.st, k).value.deleting
  {
    hide Reached, Core, SteadyInv, CapacityInv, LabelInv, PoolInv, DrainageInv, WakeInv, NotesOk, DropsOk,
         FlagsOk, Enabled, Apply;
    ReachedInv(start, steps, s);
    var n := Cur(s.st, k).value.node;
    FlagMoves(s, step, n);
    LostGrows(s, step);
    if step.Changes? {
      ChangesApart(s, step.change);
      NotTouched(s, step.change, k);
    }
    CopyFacts(s);
    assert s.ctl.key != k ==> !LateOn(Cur(s.st, k), n);
    LivesLate(s);
  }

  lemma NotTouched(s: State, c: Change, k: Key)
    requires CanChange(s, c) && IsLate(Cur(s.st, k)) && Guarded(Cur(s.st, k).value, DoChange(s, c).h)
    ensures c != RemoveNode(Cur(s.st, k).value.node)
    ensures forall b :: c != SetUnschedulable(Cur(s.st, k).value.node, b)
  {
    assert k in s.st.logs;
  }

  lemma ChangeLost(s: State, c: Change)
    requires CanChange(s, c)
    ensures s.h.lost <= DoChange(s, c).h.lost
  {
    hide CanEditPool, ChangedNodes, ChangedHistory;
  }

  lemma LostGrows(s: State, step: Step)
    requires Enabled(s, step)
    ensures s.h.lost <= Apply(s, step).h.lost
  {
    hide CanEdit, Edited, CanChange, DoChange, CanSchedule, DoSchedule, CtlAct, CtlFail, CtlReady, CannotFail;
    match step
    case Changes(c) => ChangeLost(s, c);
    case Scheduling(t) => TurnLost(s, t);
    case Reconcile(ok, choice) => if ok { ActLost(s, choice); } else { Shapes.FailShape(s); }
    case _ =>
  }

  lemma ChangesApart(s: State, c: Change)
    requires Enabled(s, Changes(c))
    ensures CanChange(s, c) && Apply(s, Changes(c)) == DoChange(s, c)
  {
  }

  lemma TurnLost(s: State, t: Turn)
    requires CanSchedule(s, t)
    ensures DoSchedule(s, t).h.lost == s.h.lost
  {
    hide Lists;
  }

  lemma LookLost(s: State, choice: nat)
    requires s.ctl.Busy? && CtlReady(s) && Looks(s.ctl.pc)
    ensures s.h.lost <= CtlLook(s, choice).h.lost
  {
    hide CtlReady, PauseLook, UnpauseLook, DrainLook, DrainLooks;
    if s.ctl.pc != Top(GetNode) { Shapes.LookShape(s, choice); }
  }

  lemma ActLost(s: State, choice: nat)
    requires s.ctl.Busy? && CtlReady(s)
    ensures s.h.lost <= CtlAct(s, choice).h.lost
  {
    hide Code, CtlLook, CtlReady, Follow, Flip, Finish, Looks;
    CodeLooks(s.ctl.pc, s.ctl.nm, s.ctl.node, s.openshift, choice);
    if Looks(s.ctl.pc) { LookLost(s, choice); } else { ActFrame(s, choice); }
  }

  // --------------------------------------------------------------- the pools

  /** Every request in phase Cordon or later that is not being deleted has its pool paused, and
      annotated by the operator. */
  lemma PoolSafety(start: State, steps: seq<Step>, s: State, k: Key)
    requires Reached(start, steps, s) && s.openshift && !s.h.poolTimedOut
    requires IsLate(Cur(s.st, k)) && !Cur(s.st, k).value.deleting && Kept(Cur(s.st, k), s.h.lost)
    ensures Cur(s.st, k).value.node in s.nodes
    ensures
      var p := s.nodes[Cur(s.st, k).value.node].pool;
      p in s.pools && s.pools[p].paused && s.pools[p].marked
  {
    hide Reached, Core, SteadyInv, CapacityInv, CordonInv, LabelInv, DrainageInv, WakeInv, Synced, PoolAt,
         Minding;
    ReachedInv(start, steps, s);
    KeptExists(s, k);
    var p := s.nodes[Cur(s.st, k).value.node].pool;
    assert Relies(Cur(s.st, k), s.nodes, s.h.lost, p);
    assert MarkedIn(s.pools, p);
  }

  /** A pool annotated by the operator has a request with label and finalizer on one of its nodes,
      exactly if it has not leaked. */
  lemma NoLeakedPause(start: State, steps: seq<Step>, s: State, p: string)
    requires Reached(start, steps, s) && s.openshift && !s.h.poolTimedOut
    requires p !in s.h.lostPools && p in s.pools && s.pools[p].marked
    ensures Minded(s.st, s.nodes, s.h.lost, p) <==> p !in s.h.leaked
  {
    hide Reached, Core, SteadyInv, CapacityInv, CordonInv, LabelInv, DrainageInv, WakeInv, Pausings, Annotated,
         Leaving, Minded;
    ReachedInv(start, steps, s);
    assert MarkedIn(s.pools, p);
  }

  /** An annotated pool loses its last request exactly when that request's finalizer is removed
      after a use check whose list showed only requests that no longer used the pool. */
  lemma WhenPauseLeaks(start: State, steps: seq<Step>, s: State, step: Step, p: string)
    requires Reached(start, steps, s) && Enabled(s, step) && s.openshift && !Apply(s, step).h.poolTimedOut
    requires p !in Apply(s, step).h.lostPools && Marked(s, p) && Minded(s.st, s.nodes, s.h.lost, p)
    ensures
      var s' := Apply(s, step);
      Marked(s', p) && !Minded(s'.st, s'.nodes, s'.h.lost, p) <==> step.Reconcile? && step.ok && LeavesStale(s, p)
  {
    hide Reached, Core, SteadyInv, CapacityInv, CordonInv, LabelInv, DrainageInv, WakeInv, Pausings, Annotated,
         Leaving, Minded, Enabled, Apply, LeavesStale;
    ReachedInv(start, steps, s);
    InvStep(s, step);
    LeakMoves(s, step, p);
    assert MarkedIn(s.pools, p);
    assert Marked(Apply(s, step), p) == MarkedIn(Apply(s, step).pools, p);
    if step.Reconcile? && step.ok {
      EnabledBusy(s, step);
      if LeavesStale(s, p) { StaleLeaves(s, step.choice, p); }
    }
  }

  lemma StaleLeaves(s: State, choice: nat, p: string)
    requires Core(s) && s.ctl.Busy? && LeavesStale(s, p)
    ensures Enabled(s, Reconcile(true, choice))
    ensures
      var s' := Apply(s, Reconcile(true, choice));
      Marked(s', p) && p in s'.h.leaked && s'.openshift == s.openshift
  {
    hide Core;
    CopyFacts(s);
  }

  /** A pool somebody else paused. */
  predicate ForeignPause(s: State, p: string) { p in s.pools && s.pools[p].paused && !s.pools[p].marked }

  lemma OperatorPools(s: State, step: Step)
    requires Enabled(s, step) && !step.Changes?
    ensures
      Apply(s, step).pools ==
        if step.Reconcile? && step.ok && Patches(s.ctl.pc) && s.ctl.node.pool in s.pools
        then SetPool(s, s.ctl.node.pool, s.ctl.pc == Pause(PatchPool)).pools else s.pools
  {
    hide CanEdit, CanSchedule, CtlAct, CtlFail, CtlReady, CannotFail, Lists, Plan, Patches;
    match step
    case Reconcile(ok, choice) => if ok { ActPatches(s, choice); } else { Shapes.FailShape(s); }
    case _ =>
  }

  /** Whenever the operator unpauses a pool, on the undo path or on leaving, no request relies on it. */
  lemma UnpauseHurtsNobody(start: State, steps: seq<Step>, s: State, step: Step, p: string, k: Key)
    requires Reached(start, steps, s) && s.openshift && !s.h.poolTimedOut && Enabled(s, step) && !step.Changes?
    requires Marked(s, p) && !Marked(Apply(s, step), p)
    ensures !Relies(Cur(s.st, k), s.nodes, s.h.lost, p)
  {
    hide Reached, Core, SteadyInv, CapacityInv, CordonInv, LabelInv, DrainageInv, WakeInv, Synced, Safe, Minding,
         Annotated, Enabled, Apply, Relies;
    ReachedInv(start, steps, s);
    if step.Reconcile? { EnabledBusy(s, step); }
    OperatorPools(s, step);
    assert Unused(s.st, s.nodes, s.h.lost, p);
  }

  /** The operator changes a pool paused by somebody else in exactly one case: at its pause patch,
      which is not conditional on what the pool looks like by then. */
  lemma ForeignPauseChanged(start: State, steps: seq<Step>, s: State, step: Step, p: string)
    requires Reached(start, steps, s) && s.openshift && !s.h.poolTimedOut && Enabled(s, step) && !step.Changes?
    requires ForeignPause(s, p)
    ensures p in Apply(s, step).pools
    ensures Apply(s, step).pools[p] != s.pools[p] <==>
              step.Reconcile? && step.ok && s.ctl.Busy? && s.ctl.pc == Pause(PatchPool) && s.ctl.node.pool == p
  {
    hide Reached, Core, SteadyInv, CapacityInv, CordonInv, LabelInv, DrainageInv, WakeInv, Synced, Safe, Minding,
         Annotated, Enabled, Apply, Unused;
    ReachedInv(start, steps, s);
    if step.Reconcile? { EnabledBusy(s, step); }
    OperatorPools(s, step);
  }

  lemma EnabledBusy(s: State, step: Step)
    requires Enabled(s, step) && step.Reconcile?
    ensures s.ctl.Busy?
  {
  }

  /** An operator step changes a pool that somebody else paused exactly if it is the pause patch for
      that pool and the pool was found paused, or paused since, behind the cache's back. */
  lemma ForeignPauseRaced(start: State, steps: seq<Step>, s: State, step: Step, p: string)
    requires Reached(start, steps, s) && s.openshift && !s.h.poolTimedOut && Enabled(s, step) && !step.Changes?
    requires p in s.pools
    ensures p in Apply(s, step).pools
    ensures
      ForeignPause(s, p) && Apply(s, step).pools[p] != s.pools[p] <==>
        step.Reconcile? && step.ok && s.ctl.Busy? && s.ctl.pc == Pause(PatchPool) && s.ctl.node.pool == p && s.h.raced
  {
    hide Reached, Core, SteadyInv, CapacityInv, CordonInv, LabelInv, DrainageInv, WakeInv, Synced, Safe, Minding,
         Annotated, Enabled, Apply, Unused;
    ReachedInv(start, steps, s);
    if step.Reconcile? { EnabledBusy(s, step); }
    OperatorPools(s, step);
  }

  // -------------------------------------------------------------- the drains

  /** A request went from Draining to Ready only without drain spec, or after a drain for its UID
      with an equal spec had finished without error. */
  lemma ReadyIsEarned(start: State, steps: seq<Step>, s: State, k: Key, i: int)
    requires Reached(start, steps, s) && 0 < i < |Log(s.st, k)| && Readied(Log(s.st, k)[i - 1], Log(s.st, k)[i])
    ensures
      var x := Log(s.st, k)[i - 1].value;
      x.drainSpec == None ||
      exists id :: 0 <= id < |s.dr.requests| &&
          Succeeded(s.dr.requests[id], Log(s.st, k)[i].value.uid, x.drainSpec.value)
  {
    hide Reached, Core, SteadyInv, CapacityInv, CordonInv, LabelInv, PoolInv, WakeInv, OpOwned, Owners, Issued,
         CtlDrain;
    ReachedInv(start, steps, s);
    assert EarnedLog(s.dr, Log(s.st, k));
    assert EarnedAt(s.dr, Log(s.st, k), i);
  }

  /** Every drain goroutine at work belongs to the request the manager maps its UID to, and, unless
      its node was removed at some time, to a request in phase Draining. */
  lemma DrainsBelong(start: State, steps: seq<Step>, s: State, id: nat)
    requires Reached(start, steps, s) && id < |s.dr.requests| && DR.Active(s.dr.requests[id])
    ensures
      var r := s.dr.requests[id];
      && DR.Get(s.dr, r.uid) == Some(id)
      && (r.node !in s.h.lost ==> DrainingAs(Cur(s.st, r.key), r.uid, r.node))
  {
    hide Reached, SteadyInv, CapacityInv, CordonInv, LabelInv, PoolInv, WakeInv, OpOwned, EarnedLogs, Issued,
         CtlDrain, LogsOk, UidsOk, SchedOk, CtlOk;
    ReachedInv(start, steps, s);
    assert DR.Mapped(s.dr, id);
    assert OwnerOk(s.st, s.dr.requests[id], s.dr.requests[id].uid, s.h.lost);
  }

  // ------------------------------------------------------------- the wake-ups

  /** Every request whose node stays is settled, queued, due for a repetition, being worked on, or
      has a version the cache is still to deliver that will queue it. */
  lemma NoLostWakeUp(start: State, steps: seq<Step>, s: State, k: Key)
    requires Reached(start, steps, s) && Kept(Cur(s.st, k), s.h.lost)
    ensures
      || Settled(Cur(s.st, k).value)
      || k in s.queue || k in s.timers || (s.ctl.Busy? && s.ctl.key == k)
      || exists x :: Seen(s.st, k) <= x < Last(s.st, k) && Enqueues(Log(s.st, k)[x], Log(s.st, k)[x + 1])
  {
    hide Reached, Core, SteadyInv, CapacityInv, CordonInv, LabelInv, PoolInv, DrainageInv, Heard;
    ReachedInv(start, steps, s);
    if !Settled(Cur(s.st, k).value) {
      assert Awake(s, k);
      if Rings(Log(s.st, k), Seen(s.st, k), Last(s.st, k)) {
        var x :| Seen(s.st, k) <= x < Last(s.st, k) && EnqueuesAt(Log(s.st, k), x);
        assert Enqueues(Log(s.st, k)[x], Log(s.st, k)[x + 1]);
      }
    }
  }
}
