/** Building blocks for concrete runs: single steps that extend a run, and the stretches of a
    reconcile that the runs have in common. */
module Runs {
  import opened Api
  import opened Versions
  import opened Handlers
  import opened Operator
  import opened Theorems
  import DR = DrainManagers

  /** Some run from a start without requests leads to the state. */
  ghost predicate Comes(s: State) {
    exists start, steps :: Reached(start, steps, s)
  }

  lemma Begins(s: State)
    requires Init(s)
    ensures Comes(s)
  {
    assert Reached(s, [], s);
  }

  lemma {:induction false} RunOneMore(s: State, steps: seq<Step>, m: State, step: Step)
    requires Run(s, steps) == Some(m) && Enabled(m, step)
    ensures Run(s, steps + [step]) == Some(Apply(m, step))
    decreases |steps|
  {
    hide Enabled, Apply;
    if steps == [] {
      assert (steps + [step])[1..] == [];
    } else {
      assert (steps + [step])[1..] == steps[1..] + [step];
      RunOneMore(Apply(s, steps[0]), steps[1..], m, step);
    }
  }

  lemma Then(s: State, step: Step)
    requires Comes(s) && Enabled(s, step)
    ensures Comes(Apply(s, step))
  {
    hide Init, Run, Enabled, Apply;
    var start, steps :| Reached(start, steps, s);
    RunOneMore(start, steps, s, step);
    assert Reached(start, steps + [step], Apply(s, step));
  }

  lemma ThenEdit(s: State, e: Edit)
    requires Comes(s) && CanEdit(s, e)
    ensures Comes(DoEdit(s, e))
  {
    hide Comes, CanEdit, DoEdit;
    Then(s, Edits(e));
  }

  lemma ThenChange(s: State, c: Change)
    requires Comes(s) && CanChange(s, c)
    ensures Comes(DoChange(s, c))
  {
    hide Comes, CanChange, DoChange;
    Then(s, Changes(c));
  }

  lemma ThenRelay(s: State, r: Relay)
    requires Comes(s) && CanRelay(s, r)
    ensures Comes(DoRelay(s, r))
  {
    hide Comes, CanRelay, DoRelay;
    Then(s, Relays(r));
  }

  lemma ThenTurn(s: State, t: Turn)
    requires Comes(s) && CanSchedule(s, t)
    ensures Comes(DoSchedule(s, t))
  {
    hide Comes, CanSchedule, DoSchedule;
    Then(s, Scheduling(t));
  }

  lemma ThenFetch(s: State, k: Key)
    requires Comes(s) && s.ctl == Resting && k in s.queue
    ensures Comes(CtlRead(s, k))
  {
    hide Comes, CtlRead;
    Then(s, Fetch(k));
  }

  lemma ThenAct(s: State, choice: nat)
    requires Comes(s) && s.ctl.Busy? && CtlReady(s)
    ensures Comes(CtlAct(s, choice))
  {
    hide Comes, CtlReady, CtlAct;
    Then(s, Reconcile(true, choice));
  }

  lemma ThenFail(s: State)
    requires Comes(s) && s.ctl.Busy? && !CannotFail(s.ctl.pc)
    ensures Comes(CtlFail(s))
  {
    hide Comes, CtlFail, CannotFail;
    Then(s, Reconcile(false, 0));
  }

  // ------------------------------------------------------------- statements

  /** A statement that completes at once. */
  predicate Prompt(pc: PC) {
    match pc
    case Pause(p) => p == FindPool || p == SetLabel || p == ReadPool || p == PatchPool || p == UndoPatch
    case Clean(p) => p != AwaitUnmark
    case Drain(p) => p != AddDrain && !p.RemoveDrain?
    case _ => true
  }

  lemma Goes(s: State, choice: nat, pc: PC) returns (s': State)
    requires Comes(s) && s.ctl.Busy? && Prompt(s.ctl.pc)
    requires Code(s.ctl.pc, s.ctl.nm, s.ctl.node, s.openshift, choice) == Go(To(pc))
    ensures Comes(s') && s' == s.(ctl := s.ctl.(pc := pc))
  {
    hide Comes, Code, CtlLook;
    ThenAct(s, choice);
    s' := CtlAct(s, choice);
  }

  lemma Writes(s: State, choice: nat, obj: NodeMaintenance, next: Next) returns (s': State)
    requires Comes(s) && s.ctl.Busy? && Prompt(s.ctl.pc) && Current(s)
    requires Code(s.ctl.pc, s.ctl.nm, s.ctl.node, s.openshift, choice) == Write(obj, next)
    ensures Comes(s') && s' == Follow(Commit(s, obj), next)
  {
    hide Comes, Code, CtlLook, Follow, Commit;
    ThenAct(s, choice);
    s' := CtlAct(s, choice);
  }

  lemma Marks(s: State, value: bool, next: Next) returns (s': State)
    requires Comes(s) && s.ctl.Busy? && Prompt(s.ctl.pc) && s.ctl.nm.node in s.nodes
    requires Code(s.ctl.pc, s.ctl.nm, s.ctl.node, s.openshift, 0) == Mark(value, next)
    ensures Comes(s') && s' == Follow(Flip(s, value), next)
  {
    hide Comes, Code, CtlLook, Follow, Flip;
    ThenAct(s, 0);
    s' := CtlAct(s, 0);
  }

  lemma Looks(s: State) returns (s': State)
    requires Comes(s) && s.ctl.Busy? && CtlReady(s)
    requires Code(s.ctl.pc, s.ctl.nm, s.ctl.node, s.openshift, 0) == Look
    ensures Comes(s') && s' == CtlLook(s, 0)
  {
    hide Comes, Code, CtlLook, CtlReady;
    ThenAct(s, 0);
    s' := CtlAct(s, 0);
  }

  /** A removal that finds no drain. */
  lemma FindsNoDrain(s: State, after: AfterRemove, pc: PC) returns (s': State)
    requires Comes(s) && s.ctl.Busy? && s.ctl.pc == Drain(RemoveDrain(after)) && s.dr.op == DR.Free
    requires s.ctl.nm.uid !in s.dr.byUid && AfterRemoval(after, s.ctl.nm, s.openshift) == To(pc)
    ensures Comes(s') && s' == s.(ctl := s.ctl.(pc := pc))
  {
    hide Comes, AfterRemoval, PauseLook, UnpauseLook;
    s' := Looks(s);
  }

  // -------------------------------------------------------------- the cache

  /** The request's last version is `e`, and the cache shows it. */
  predicate Shown(st: Store, k: Key, e: Entry) { Cur(st, k) == e && Seen(st, k) == Last(st, k) }

  /** No other request changes. */
  ghost predicate Others(st: Store, st': Store, k: Key) {
    forall j :: j != k ==> Log(st', j) == Log(st, j) && Seen(st', j) == Seen(st, j)
  }

  /** The cache receives all versions of a request, of which the last one rings. */
  lemma {:induction false} CatchesUp(s: State, k: Key) returns (s': State)
    requires Comes(s) && Seen(s.st, k) < Last(s.st, k)
    requires Enqueues(Log(s.st, k)[Last(s.st, k) - 1], Cur(s.st, k))
    ensures Comes(s') && s' == s.(st := s'.st, queue := s.queue + {k})
    ensures Shown(s'.st, k, Cur(s.st, k)) && Others(s.st, s'.st, k)
    decreases Last(s.st, k) - Seen(s.st, k)
  {
    hide Comes, Enqueues;
    ThenRelay(s, Deliver(k));
    s' := DoRelay(s, Deliver(k));
    if Seen(s'.st, k) < Last(s'.st, k) {
      var q := s'.queue;
      s' := CatchesUp(s', k);
      assert q + {k} == s.queue + {k};
    }
  }

  /** The cache receives one version that does not ring. */
  lemma Hears(s: State, k: Key) returns (s': State)
    requires Comes(s) && Seen(s.st, k) < Last(s.st, k)
    requires !Enqueues(View(s.st, k), Log(s.st, k)[Seen(s.st, k) + 1])
    ensures Comes(s') && s' == s.(st := s'.st)
    ensures Log(s'.st, k) == Log(s.st, k) && Seen(s'.st, k) == Seen(s.st, k) + 1 && Others(s.st, s'.st, k)
  {
    hide Comes, Enqueues;
    ThenRelay(s, Deliver(k));
    s' := DoRelay(s, Deliver(k));
  }

  // --------------------------------------------------------------- stretches

  lemma Creates(s: State, k: Key, nm: NodeMaintenance) returns (s': State)
    requires Comes(s) && Shown(s.st, k, None) && Unborn(nm) && nm.uid == s.nextUid
    ensures Comes(s') && s' == s.(st := s'.st, queue := s.queue + {k}, nextUid := s.nextUid + 1)
    ensures Shown(s'.st, k, Some(nm)) && Others(s.st, s'.st, k)
  {
    hide Comes, Append;
    ThenEdit(s, Create(k, nm));
    s' := CatchesUp(DoEdit(s, Create(k, nm)), k);
  }

  lemma Deletes(s: State, k: Key, nm: NodeMaintenance) returns (s': State)
    requires Comes(s) && Cur(s.st, k) == Some(nm) && nm.finalizer && !nm.deleting
    ensures Comes(s') && s' == s.(st := s'.st, queue := s.queue + {k})
    ensures Shown(s'.st, k, Some(nm.(deleting := true))) && Others(s.st, s'.st, k)
  {
    hide Comes, Append;
    ThenEdit(s, Delete(k));
    s' := CatchesUp(DoEdit(s, Delete(k)), k);
  }

  /** Somebody changes the list of additional requestors. */
  lemma Joins(s: State, k: Key, nm: NodeMaintenance, who: set<string>) returns (s': State)
    requires Comes(s) && Cur(s.st, k) == Some(nm)
    ensures Comes(s') && s' == s.(st := s'.st) && Others(s.st, s'.st, k)
    ensures Log(s'.st, k) == Log(s.st, k) + [Some(nm.(additional := who))] && Seen(s'.st, k) == Seen(s.st, k)
  {
    hide Comes, Append;
    ThenEdit(s, EditSpec(k, nm.drainSpec, nm.waitPods, who));
    s' := DoEdit(s, EditSpec(k, nm.drainSpec, nm.waitPods, who));
  }

  /** A reconcile reads request and node and comes to the handler of the phase. */
  lemma Opens(s: State, k: Key, nm: NodeMaintenance, pc: PC) returns (s': State)
    requires Comes(s) && s.ctl == Resting && k in s.queue && Shown(s.st, k, Some(nm)) && nm.node in s.nodes
    requires Handler(nm, s.openshift) == To(pc)
    ensures Comes(s')
    ensures s' == s.(queue := s.queue - {k},
                     ctl := Busy(k, Last(s.st, k), Last(s.st, k), nm, s.nodes[nm.node], 0, pc))
  {
    hide Comes, Handler, PauseLook, UnpauseLook, DrainLook;
    ThenFetch(s, k);
    s' := CtlRead(s, k);
    s' := Looks(s');
    s' := Goes(s', 0, Top(Dispatch));
    s' := Goes(s', 0, pc);
  }

  /** The last write of a reconcile changes the phase, and the cache shows it. */
  lemma Closes(s: State, choice: nat, obj: NodeMaintenance) returns (s': State)
    requires Comes(s) && s.ctl.Busy? && Prompt(s.ctl.pc) && Current(s) && Cur(s.st, s.ctl.key) == Some(s.ctl.nm)
    requires Code(s.ctl.pc, s.ctl.nm, s.ctl.node, s.openshift, choice) == Write(obj, End(Done))
    requires obj.reason != s.ctl.nm.reason && !obj.deleting && s.ctl.pc != Pause(SetLabel)
    requires s.ctl.pc != Clean(RemoveFinalizer)
    ensures Comes(s')
    ensures s' == s.(st := s'.st, ctl := Resting, queue := s.queue + {s.ctl.key}, h := s.h.(entry := s'.h.entry))
    ensures Shown(s'.st, s.ctl.key, Some(obj)) && Others(s.st, s'.st, s.ctl.key)
  {
    hide Comes, Code, Append;
    var m := Writes(s, choice, obj, End(Done));
    assert Log(m.st, s.ctl.key)[Last(m.st, s.ctl.key) - 1] == Some(s.ctl.nm);
    s' := CatchesUp(m, s.ctl.key);
  }

  /** From phase Scheduled the reconciler sets finalizer and label. */
  lemma Holds(s: State, k: Key, nm: NodeMaintenance) returns (s': State)
    requires Comes(s) && s.openshift && s.ctl == Resting && k in s.queue && Shown(s.st, k, Some(nm))
    requires nm.node in s.nodes
    requires nm.reason == Scheduled && !nm.deleting && !nm.finalizer && nm.poolLabel == None
    ensures Comes(s') && s'.ctl.Busy?
    ensures
      var held := nm.(finalizer := true);
      && s' == s.(st := s'.st, queue := s.queue - {k},
                  ctl := Busy(k, s'.ctl.from, Last(s'.st, k), held, s.nodes[nm.node], 0, Pause(SetLabel)))
      && Log(s'.st, k) == Log(s.st, k) + [Some(held)] && Seen(s'.st, k) == Last(s.st, k) && Others(s.st, s'.st, k)
  {
    hide Comes, Append;
    s' := Opens(s, k, nm, Start(AddFinalizer));
    s' := Writes(s', 0, nm.(finalizer := true), To(Pause(FindPool)));
    s' := Goes(s', 0, Pause(SetLabel));
  }

  /** Only finalizer and label differ: the changes do not ring. */
  lemma Hears2(s: State, k: Key) returns (s': State)
    requires Comes(s) && Seen(s.st, k) + 2 == Last(s.st, k)
    requires
      var log, i := Log(s.st, k), Seen(s.st, k);
      !Enqueues(log[i], log[i + 1]) && !Enqueues(log[i + 1], log[i + 2])
    ensures Comes(s') && s' == s.(st := s'.st)
    ensures Log(s'.st, k) == Log(s.st, k) && Seen(s'.st, k) == Last(s.st, k) && Others(s.st, s'.st, k)
  {
    hide Comes, Enqueues;
    s' := Hears(s, k);
    s' := Hears(s', k);
  }

  /** It also sees the label in the cache, and comes to the look at the pool. */
  lemma Attaches(s: State, k: Key, nm: NodeMaintenance) returns (s': State)
    requires Comes(s) && s.openshift && s.ctl == Resting && k in s.queue && Shown(s.st, k, Some(nm))
    requires nm.node in s.nodes
    requires nm.reason == Scheduled && !nm.deleting && !nm.finalizer && nm.poolLabel == None
    ensures Comes(s') && s'.ctl.Busy?
    ensures
      var node := s.nodes[nm.node];
      var labelled := nm.(finalizer := true, poolLabel := Some(node.pool));
      && s' == s.(st := s'.st, queue := s.queue - {k}, h := s.h.(leaked := s.h.leaked - {node.pool}),
                  ctl := Busy(k, s'.ctl.from, Last(s'.st, k), labelled, node, 0, Pause(ReadPool)))
      && Shown(s'.st, k, Some(labelled)) && Others(s.st, s'.st, k)
  {
    hide Comes, Append, DrainLook, UnpauseLook;
    s' := Holds(s, k, nm);
    s' := Writes(s', 0, s'.ctl.nm.(poolLabel := Some(s'.ctl.node.pool)), To(Pause(AwaitLabel)));
    s' := Hears2(s', k);
    s' := Looks(s');
  }

  /** The pool is free: the reconciler pauses it, sees that in the cache, and comes to the write of
      phase Cordon. */
  lemma Pauses(s: State) returns (s': State)
    requires Comes(s) && s.ctl.Busy? && s.ctl.pc == Pause(ReadPool)
    requires
      var p := s.ctl.node.pool;
      && p in s.pools && p in s.pview && s.pview[p] == s.pools[p]
      && !s.pools[p].marked && !s.pools[p].paused && s.pools[p].wanted == s.pools[p].current
    ensures Comes(s')
    ensures
      var p := s.ctl.node.pool;
      var ours := s.pools[p].(paused := true, marked := true);
      s' == s.(ctl := s.ctl.(pc := Start(SetCordon)), pools := s.pools[p := ours], pview := s.pview[p := ours],
               h := s.h.(raced := false))
  {
    hide Comes;
    s' := Looks(s);
    s' := Looks(s');
    ThenRelay(s', DeliverPool(s.ctl.node.pool));
    s' := DoRelay(s', DeliverPool(s.ctl.node.pool));
    s' := Looks(s');
  }
}
