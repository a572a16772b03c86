/** Requests whose node stays: the finalizer is there from the first side effect on, and nothing
    that still shows it can vanish unnoticed. */
module Steadiness {
  import opened Api
  import opened Versions
  import opened Handlers
  import opened Operator
  import opened Lifecycle
  import opened Histories
  import opened Control
  import opened CoreInvariant
  import opened Effects
  import opened Shapes
  import opened Rounds
  import DR = DrainManagers

  predicate Kept(e: Entry, lost: set<string>) { e.Some? && e.value.node !in lost }

  /** The request has effects outside itself. */
  predicate Engaged(nm: NodeMaintenance) { Late(nm) || nm.poolLabel.Some? }

  /** Version `i` holds the finalizer if the request is engaged, and so does its successor. */
  ghost predicate HeldAt(log: seq<Entry>, lost: set<string>, i: int)
    requires 0 <= i < |log|
  {
    Kept(log[i], lost) ==>
      && (Engaged(log[i].value) ==> log[i].value.finalizer)
      && (i + 1 < |log| && log[i].value.finalizer && log[i + 1].Some? ==> log[i + 1].value.finalizer)
  }

  /** A version with finalizer, not under deletion, that the cache may still show is one of the
      object that exists now. */
  ghost predicate HeldAlive(log: seq<Entry>, seen: nat, lost: set<string>, i: int)
    requires 0 <= i < |log|
  {
    seen <= i && Kept(log[i], lost) && log[i].value.finalizer && !log[i].value.deleting ==> Alive(log, i, |log| - 1)
  }

  ghost predicate SteadyLog(log: seq<Entry>, seen: nat, lost: set<string>) {
    && |log| > 0
    && (forall i {:trigger HeldAt(log, lost, i)} :: 0 <= i < |log| ==> HeldAt(log, lost, i))
    && (forall i {:trigger HeldAlive(log, seen, lost, i)} :: 0 <= i < |log| ==> HeldAlive(log, seen, lost, i))
    && (Kept(log[|log| - 1], lost) && Late(log[|log| - 1].value) ==> Alive(log, seen, |log| - 1))
  }

  ghost predicate Steady(st: Store, lost: set<string>) {
    forall k :: SteadyLog(Log(st, k), Seen(st, k), lost)
  }

  ghost predicate SteadyInv(s: State) {
    && Steady(s.st, s.h.lost)
    && (s.ctl.Busy? && s.ctl.pc == Top(DropFinalizer) ==> s.ctl.nm.node in s.h.lost)
  }

  lemma {:induction false} FinalizerStays(log: seq<Entry>, seen: nat, lost: set<string>, i: int, j: int)
    requires LogOk(log) && SteadyLog(log, seen, lost) && Alive(log, i, j)
    requires Kept(log[i], lost) && log[i].value.finalizer
    ensures log[j].value.finalizer
    decreases j - i
  {
    if i < j {
      FinalizerStays(log, seen, lost, i, j - 1);
      AliveProgress(log, i, j - 1);
      assert HeldAt(log, lost, j - 1);
    }
  }

  /** The conditions under which a new version keeps a history steady. */
  ghost predicate SteadyNext(log: seq<Entry>, seen: nat, lost: set<string>, e: Entry)
    requires |log| > 0
  {
    var cur := log[|log| - 1];
    && (Kept(e, lost) ==> (Engaged(e.value) ==> e.value.finalizer))
    && (Kept(cur, lost) && cur.value.finalizer && e.Some? ==> e.value.finalizer)
    && (Kept(cur, lost) && cur.value.finalizer && e == None ==>
          forall i :: seen <= i < |log| && log[i].Some? ==> log[i].value.deleting)
    && (Kept(e, lost) && Late(e.value) && !(cur.Some? && Late(cur.value)) ==> Alive(log, seen, |log| - 1))
  }

  lemma SteadyLogAppend(log: seq<Entry>, seen: nat, lost: set<string>, e: Entry)
    requires LogOk(log) && SteadyLog(log, seen, lost) && Edge(log[|log| - 1], e) && SteadyNext(log, seen, lost, e)
    ensures SteadyLog(log + [e], seen, lost)
  {
    var log' := log + [e];
    forall i | 0 <= i < |log'| ensures HeldAt(log', lost, i) {
      if i < |log| { assert HeldAt(log, lost, i); }
    }
    forall i | 0 <= i < |log'| ensures HeldAlive(log', seen, lost, i) {
      if i < |log| {
        assert HeldAlive(log, seen, lost, i);
        if Alive(log, i, |log| - 1) && Kept(log[i], lost) && log[i].value.finalizer && seen <= i {
          FinalizerStays(log, seen, lost, i, |log| - 1);
          AliveProgress(log, i, |log| - 1);
        }
      }
    }
  }

  lemma SteadyAppend(st: Store, lost: set<string>, k: Key, e: Entry)
    requires LogsOk(st) && Steady(st, lost) && Edge(Cur(st, k), e) && SteadyNext(Log(st, k), Seen(st, k), lost, e)
    ensures Steady(Append(st, k, e), lost)
  {
    SteadyLogAppend(Log(st, k), Seen(st, k), lost, e);
  }

  lemma SteadyWeaker(log: seq<Entry>, seen: nat, seen': nat, lost: set<string>, lost': set<string>)
    requires SteadyLog(log, seen, lost) && seen <= seen' < |log| && lost <= lost'
    ensures SteadyLog(log, seen', lost')
  {
    forall i | 0 <= i < |log| ensures HeldAt(log, lost', i) { assert HeldAt(log, lost, i); }
    forall i | 0 <= i < |log| ensures HeldAlive(log, seen', lost', i) { assert HeldAlive(log, seen, lost, i); }
  }

  /** Others' edits. */
  lemma GentleSteady(st: Store, lost: set<string>, k: Key, e: Entry)
    requires LogsOk(st) && Steady(st, lost) && Edge(Cur(st, k), e) && Gentle(Cur(st, k), e)
    requires e.Some? && Engaged(e.value) ==> Cur(st, k).Some? && Engaged(Cur(st, k).value)
    requires e.Some? && Late(e.value) ==> Cur(st, k).Some? && Late(Cur(st, k).value)
    ensures Steady(Append(st, k, e), lost)
  {
    assert SteadyLog(Log(st, k), Seen(st, k), lost);
    assert HeldAt(Log(st, k), lost, Last(st, k));
    SteadyAppend(st, lost, k, e);
  }

  lemma EditSteady(s: State, e: Edit)
    requires Core(s) && SteadyInv(s) && CanEdit(s, e)
    ensures SteadyInv(DoEdit(s, e))
  {
    hide UidsOk, CtlOk;
    EditGentle(s, e);
    GentleSteady(s.st, s.h.lost, e.k, Edited(s, e));
  }

  lemma LostSteady(st: Store, lost: set<string>, lost': set<string>)
    requires Steady(st, lost) && lost <= lost'
    ensures Steady(st, lost')
  {
    forall k ensures SteadyLog(Log(st, k), Seen(st, k), lost') {
      SteadyWeaker(Log(st, k), Seen(st, k), Seen(st, k), lost, lost');
    }
  }

  lemma ChangeSteady(s: State, c: Change)
    requires SteadyInv(s) && CanChange(s, c)
    ensures SteadyInv(DoChange(s, c))
  {
    hide CanEditPool, ChangedNodes, ChangedHistory, Steady;
    LostSteady(s.st, s.h.lost, DoChange(s, c).h.lost);
  }

  lemma RelaySteady(s: State, r: Relay)
    requires Core(s) && SteadyInv(s) && CanRelay(s, r)
    ensures SteadyInv(DoRelay(s, r))
  {
    hide Core;
    var s' := DoRelay(s, r);
    forall k ensures SteadyLog(Log(s'.st, k), Seen(s'.st, k), s.h.lost) {
      SteadyWeaker(Log(s.st, k), Seen(s.st, k), Seen(s'.st, k), s.h.lost, s.h.lost);
    }
  }

  lemma WriteOneSteady(s: State, k: Key, ok: bool)
    requires Core(s) && SteadyInv(s) && CanSchedule(s, WriteOne(k, ok))
    ensures SteadyInv(WriteScheduled(s, k, ok))
  {
    hide UidsOk, SchedOk, CtlOk, DR.DrainsInv, Unseen, Exclusive, Steady, Edge, Gentle, LogsOk;
    if ok && s.sched.todo[k] == Last(s.st, k) && Cur(s.st, k).Some? {
      WriteOneFacts(s, k);
      GentleSteady(s.st, s.h.lost, k, Some(WithReason(Cur(s.st, k).value, Scheduled)));
    }
  }

  lemma TurnSteady(s: State, t: Turn)
    requires Core(s) && SteadyInv(s) && CanSchedule(s, t)
    ensures SteadyInv(DoSchedule(s, t))
  {
    hide Core, Steady;
    match t
    case WriteOne(k, ok) => WriteOneSteady(s, k, ok);
    case _ =>
  }

  // --------------------------------------------------------- the reconciler

  lemma CommitNext(st: Store, lost: set<string>, c: Ctl, obj: NodeMaintenance)
    requires c.Busy? && CtlOk(st, c) && c.at == Last(st, c.key) && Effect(c.pc, c.nm, c.node, obj)
    requires SteadyLog(Log(st, c.key), Seen(st, c.key), lost)
    requires c.pc == Top(DropFinalizer) ==> c.nm.node in lost
    ensures SteadyNext(Log(st, c.key), Seen(st, c.key), lost, Stored(obj))
  {
    assert HeldAt(Log(st, c.key), lost, c.at);
    assert Late(obj) && !Late(c.nm) ==> c.pc == Start(SetCordon);
  }

  lemma CommitSteady(s: State, obj: NodeMaintenance, next: Next)
    requires Core(s) && SteadyInv(s) && s.ctl.Busy? && Current(s)
    requires Edge(Some(s.ctl.nm), Stored(obj)) && Effect(s.ctl.pc, s.ctl.nm, s.ctl.node, obj) && Onward(next)
    ensures SteadyInv(Follow(Commit(s, obj), next))
  {
    hide UidsOk, SchedOk, Unseen, Exclusive, DR.DrainsInv, LogsOk, SteadyLog, SteadyNext, Effect, Edge, Follow,
         Stored;
    CommitNext(s.st, s.h.lost, s.ctl, obj);
    SteadyAppend(s.st, s.h.lost, s.ctl.key, Stored(obj));
    LandSteady(Commit(s, obj), next);
  }

  lemma LandSteady(s: State, next: Next)
    requires Steady(s.st, s.h.lost) && s.ctl.Busy? && Onward(next)
    ensures SteadyInv(Follow(s, next))
  {
    hide Steady;
  }

  lemma FollowSteady(s: State, next: Next)
    requires SteadyInv(s) && s.ctl.Busy? && Onward(next)
    ensures SteadyInv(Follow(s, next))
  {
    hide Steady;
  }

  lemma FailSteady(s: State)
    requires SteadyInv(s) && s.ctl.Busy?
    ensures SteadyInv(CtlFail(s))
  {
    hide Steady;
  }

  lemma FlipSteady(s: State, value: bool, next: Next)
    requires SteadyInv(s) && s.ctl.Busy? && s.ctl.nm.node in s.nodes && next.To? && Onward(next)
    ensures SteadyInv(Follow(Flip(s, value), next))
  {
    hide Steady;
  }

  lemma LookUpSteady(s: State)
    requires SteadyInv(s) && s.ctl.Busy?
    ensures SteadyInv(LookUpNode(s))
  {
    hide Steady;
    if s.ctl.nm.node !in s.nodes { LostSteady(s.st, s.h.lost, s.h.lost + {s.ctl.nm.node}); }
  }

  lemma LookedSteady(s: State, s': State)
    requires SteadyInv(s) && s.ctl.Busy? && Looked(s, s')
    ensures SteadyInv(s')
  {
    hide Steady;
  }

  lemma LookSteady(s: State, choice: nat)
    requires SteadyInv(s) && s.ctl.Busy? && CtlReady(s) && Looks(s.ctl.pc)
    ensures SteadyInv(CtlLook(s, choice))
  {
    hide SteadyInv, Looked, CtlReady, PauseLook, UnpauseLook, DrainLook, LookUpNode, DrainLooks;
    if s.ctl.pc == Top(GetNode) {
      LookUpSteady(s);
    } else {
      LookShape(s, choice);
      LookedSteady(s, CtlLook(s, choice));
    }
  }

  lemma ActSteady(s: State, choice: nat)
    requires Core(s) && SteadyInv(s) && s.ctl.Busy? && CtlReady(s)
    ensures SteadyInv(CtlAct(s, choice))
  {
    hide Core, SteadyInv, Code, CtlLook, Follow, Commit, Flip, Finish, CtlReady, PcOk, EntryOk, Edge, Effect,
         NextOk;
    CopyFacts(s);
    var c := s.ctl;
    CodeOk(c.pc, c.nm, c.node, s.openshift, choice);
    CodeEffect(c.pc, c.nm, c.node, s.openshift, choice);
    CodeLooks(c.pc, c.nm, c.node, s.openshift, choice);
    match Code(c.pc, c.nm, c.node, s.openshift, choice)
    case Go(next) => FollowSteady(s, next);
    case Write(obj, next) => if Current(s) { CommitSteady(s, obj, next); } else { RetrySteady(s); }
    case TryWrite(obj, next) =>
      if Current(s) { SameEffect(c); CommitSteady(s, obj, next); } else { FollowSteady(s, next); }
    case Mark(value, next) => if c.nm.node in s.nodes { FlipSteady(s, value, next); } else { RetrySteady(s); }
    case Look => LookSteady(s, choice);
  }

  lemma SameEffect(c: Ctl)
    requires c.Busy? && c.pc == Top(SetOwner)
    ensures Effect(c.pc, c.nm, c.node, c.nm)
  {
  }

  lemma RetrySteady(s: State)
    requires SteadyInv(s) && s.ctl.Busy?
    ensures SteadyInv(Finish(s, Retry))
  {
    FollowSteady(s, End(Retry));
  }

  lemma FetchSteady(s: State, k: Key)
    requires SteadyInv(s)
    ensures SteadyInv(CtlRead(s, k))
  {
    hide Steady;
  }

  lemma EvictSteady(s: State, e: Eviction)
    requires SteadyInv(s) && CanEvict(s, e)
    ensures SteadyInv(DoEvict(s, e))
  {
    hide Steady;
  }

  lemma SteadyStep(s: State, step: Step)
    requires Core(s) && SteadyInv(s) && Enabled(s, step)
    ensures SteadyInv(Apply(s, step))
  {
    hide Core, SteadyInv, CanEdit, DoEdit, CanChange, DoChange, CanRelay, DoRelay, CanEvict, DoEvict,
         CanSchedule, DoSchedule, CtlRead, CtlAct, CtlFail, CtlReady, CannotFail;
    match step
    case Edits(e) => EditSteady(s, e);
    case Changes(c) => ChangeSteady(s, c);
    case Relays(r) => RelaySteady(s, r);
    case Evictions(e) => EvictSteady(s, e);
    case Scheduling(t) => TurnSteady(s, t);
    case Fetch(k) => FetchSteady(s, k);
    case Reconcile(ok, choice) => if ok { ActSteady(s, choice); } else { FailSteady(s); }
  }
}
