/** No wake-up is lost: a request that still needs something done is queued, due, being worked on,
    or about to be queued by a version the cache has not shown yet. */
module Wakeups {
  import opened Api
  import opened Versions
  import opened Handlers
  import opened Operator
  import opened Lifecycle
  import opened Histories
  import opened Rounds
  import opened Control
  import opened CoreInvariant
  import opened Effects
  import opened Shapes
  import opened Steadiness
  import DR = DrainManagers

  /** Nothing is to be done: the request waits for the scheduler, or rests in step with its
      RequestorFailed condition. */
  predicate Settled(nm: NodeMaintenance) {
    nm.reason == Pending || (Terminal(nm) && !nm.deleting && (nm.reason == RequestorFailed <==> nm.failed))
  }

  predicate Unsettled(e: Entry, lost: set<string>) { Kept(e, lost) && !Settled(e.value) }

  ghost predicate EnqueuesAt(log: seq<Entry>, x: int) {
    0 <= x && x + 1 < |log| && Enqueues(log[x], log[x + 1])
  }

  /** Some change between the two versions puts the request in the queue. */
  ghost predicate Rings(log: seq<Entry>, i: int, j: int) {
    exists x :: i <= x < j && EnqueuesAt(log, x)
  }

  ghost predicate Awake(s: State, k: Key) {
    k in s.queue || k in s.timers || (s.ctl.Busy? && s.ctl.key == k) ||
        Rings(Log(s.st, k), Seen(s.st, k), Last(s.st, k))
  }

  ghost predicate AllAwake(s: State) {
    forall k :: Unsettled(Cur(s.st, k), s.h.lost) ==> Awake(s, k)
  }

  /** What the cache showed since the reconciler read the request is in the queue again. */
  ghost predicate Heard(st: Store, queue: set<Key>, c: Ctl) {
    c.Busy? && Rings(Log(st, c.key), c.from, Seen(st, c.key)) ==> c.key in queue
  }

  ghost predicate WakeInv(s: State) { AllAwake(s) && Heard(s.st, s.queue, s.ctl) }

  // ---------------------------------------------------------------- histories

  /** Without such a change the request is the same, and settled if it was. */
  lemma {:induction false} QuietVersions(log: seq<Entry>, i: int, j: int)
    requires 0 <= i <= j < |log| && !Rings(log, i, j) && log[i].Some?
    ensures Alive(log, i, j)
    ensures Settled(log[i].value) ==> Settled(log[j].value)
    decreases j - i
  {
    if i < j {
      assert !Rings(log, i, j - 1);
      QuietVersions(log, i, j - 1);
      assert !EnqueuesAt(log, j - 1);
    }
  }

  lemma {:induction false} NobodyBorn(log: seq<Entry>, i: int, j: int)
    requires 0 <= i <= j < |log| && !Rings(log, i, j) && log[i] == None
    ensures log[j] == None
    decreases j - i
  {
    if i < j {
      assert !Rings(log, i, j - 1);
      NobodyBorn(log, i, j - 1);
      assert !EnqueuesAt(log, j - 1);
    }
  }

  lemma RingsWider(log: seq<Entry>, i: int, j: int, i': int, j': int, e: seq<Entry>)
    requires Rings(log, i, j) && i' <= i && j <= j' && j < |log|
    ensures Rings(log + e, i', j')
  {
    var x :| i <= x < j && EnqueuesAt(log, x);
    assert EnqueuesAt(log + e, x);
  }

  // ----------------------------------------------------------- new versions

  /** A version by anybody: the request was unsettled before, or the change rings. */
  lemma AppendAwake(s: State, s': State, k: Key, e: Entry)
    requires AllAwake(s) && s'.st == Append(s.st, k, e) && Edge(Cur(s.st, k), e)
    requires s.queue <= s'.queue && s.timers <= s'.timers && s'.ctl.Busy? == s.ctl.Busy? && s'.h.lost == s.h.lost
    requires s.ctl.Busy? ==> s'.ctl.key == s.ctl.key
    ensures AllAwake(s')
  {
    forall j | Unsettled(Cur(s'.st, j), s'.h.lost) ensures Awake(s', j) {
      if j != k {
        assert Log(s'.st, j) == Log(s.st, j);
        assert Awake(s, j);
      } else if Enqueues(Cur(s.st, k), e) {
        assert EnqueuesAt(Log(s'.st, k), Last(s.st, k));
      } else {
        assert Awake(s, k);
        if Rings(Log(s.st, k), Seen(s.st, k), Last(s.st, k)) {
          RingsWider(Log(s.st, k), Seen(s.st, k), Last(s.st, k), Seen(s.st, k), Last(s'.st, k), [e]);
        }
      }
    }
  }

  lemma AppendHeard(st: Store, queue: set<Key>, c: Ctl, k: Key, e: Entry)
    requires Heard(st, queue, c)
    ensures Heard(Append(st, k, e), queue, c)
  {
    var st' := Append(st, k, e);
    if c.Busy? && Rings(Log(st', c.key), c.from, Seen(st', c.key)) {
      var x :| c.from <= x < Seen(st', c.key) && EnqueuesAt(Log(st', c.key), x);
      assert EnqueuesAt(Log(st, c.key), x);
    }
  }

  lemma ForeignWake(s: State, s': State, k: Key, e: Entry)
    requires WakeInv(s) && s'.st == Append(s.st, k, e) && Edge(Cur(s.st, k), e)
    requires s'.queue == s.queue && s'.timers == s.timers && s'.ctl == s.ctl && s'.h.lost == s.h.lost
    ensures WakeInv(s')
  {
    hide AllAwake, Heard, Edge, Append;
    AppendAwake(s, s', k, e);
    AppendHeard(s.st, s.queue, s.ctl, k, e);
  }

  lemma EditWake(s: State, e: Edit)
    requires Core(s) && WakeInv(s) && CanEdit(s, e)
    ensures WakeInv(DoEdit(s, e))
  {
    hide UidsOk, CtlOk, SchedOk, WakeInv, Append;
    EditGentle(s, e);
    ForeignWake(s, DoEdit(s, e), e.k, Edited(s, e));
  }

  lemma SameWake(s: State, s': State)
    requires WakeInv(s) && s'.st == s.st && s.queue <= s'.queue && s.timers <= s'.timers && s'.ctl == s.ctl
    requires s.h.lost <= s'.h.lost
    ensures WakeInv(s')
  {
    forall k | Unsettled(Cur(s'.st, k), s'.h.lost) ensures Awake(s', k) { assert Awake(s, k); }
  }

  lemma WriteOneWake(s: State, k: Key, ok: bool)
    requires Core(s) && WakeInv(s) && CanSchedule(s, WriteOne(k, ok))
    ensures WakeInv(WriteScheduled(s, k, ok))
  {
    hide Core, WakeInv, Edge, Append;
    if ok && s.sched.todo[k] == Last(s.st, k) && Cur(s.st, k).Some? {
      WriteOneFacts(s, k);
      ForeignWake(s, WriteScheduled(s, k, ok), k, Some(WithReason(Cur(s.st, k).value, Scheduled)));
    } else {
      SameWake(s, WriteScheduled(s, k, ok));
    }
  }

  lemma TurnWake(s: State, t: Turn)
    requires Core(s) && WakeInv(s) && CanSchedule(s, t)
    ensures WakeInv(DoSchedule(s, t))
  {
    hide Core, WakeInv, WriteScheduled;
    match t
    case WriteOne(k, ok) => WriteOneWake(s, k, ok);
    case _ => SameWake(s, DoSchedule(s, t));
  }

  lemma ChangeWake(s: State, c: Change)
    requires WakeInv(s) && CanChange(s, c)
    ensures WakeInv(DoChange(s, c))
  {
    hide WakeInv;
    SameWake(s, DoChange(s, c));
  }

  lemma EvictWake(s: State, e: Eviction)
    requires WakeInv(s) && CanEvict(s, e)
    ensures WakeInv(DoEvict(s, e))
  {
    hide WakeInv;
    SameWake(s, DoEvict(s, e));
  }

  // -------------------------------------------------------- caches and timers

  lemma DeliverWake(s: State, k: Key)
    requires WakeInv(s) && CanRelay(s, Deliver(k))
    ensures WakeInv(DoRelay(s, Deliver(k)))
  {
    var s' := DoRelay(s, Deliver(k));
    var seen := Seen(s.st, k);
    assert forall j :: Log(s'.st, j) == Log(s.st, j) && Cur(s'.st, j) == Cur(s.st, j);
    assert EnqueuesAt(Log(s.st, k), seen) ==> k in s'.queue;
    forall j | Unsettled(Cur(s'.st, j), s'.h.lost) ensures Awake(s', j) {
      assert Awake(s, j);
      if Rings(Log(s.st, j), Seen(s.st, j), Last(s.st, j)) {
        var x :| Seen(s.st, j) <= x < Last(s.st, j) && EnqueuesAt(Log(s.st, j), x);
        assert EnqueuesAt(Log(s'.st, j), x);
      }
    }
    var c := s.ctl;
    if c.Busy? && Rings(Log(s'.st, c.key), c.from, Seen(s'.st, c.key)) {
      var x :| c.from <= x < Seen(s'.st, c.key) && EnqueuesAt(Log(s'.st, c.key), x);
      assert EnqueuesAt(Log(s.st, c.key), x);
    }
  }

  lemma RestartWake(s: State)
    requires WakeInv(s)
    ensures WakeInv(DoRelay(s, Restart))
  {
    var s' := DoRelay(s, Restart);
    forall k | Unsettled(Cur(s'.st, k), s'.h.lost) ensures Awake(s', k) {
      assert Cur(s'.st, k) == Cur(s.st, k);
      assert k in s.st.logs;
    }
  }

  lemma FireWake(s: State, k: Key)
    requires WakeInv(s) && k in s.timers
    ensures WakeInv(DoRelay(s, Fire(k)))
  {
    var s' := DoRelay(s, Fire(k));
    forall j | Unsettled(Cur(s'.st, j), s'.h.lost) ensures Awake(s', j) { assert Awake(s, j); }
  }

  lemma RelayWake(s: State, r: Relay)
    requires WakeInv(s) && CanRelay(s, r)
    ensures WakeInv(DoRelay(s, r))
  {
    hide WakeInv;
    match r
    case Deliver(k) => DeliverWake(s, k);
    case DeliverPool(p) => SameWake(s, DoRelay(s, r));
    case Fire(k) => FireWake(s, k);
    case Restart => RestartWake(s);
  }

  // --------------------------------------------------------- the reconciler

  lemma FetchWake(s: State, k: Key)
    requires Core(s) && WakeInv(s) && s.ctl == Resting
    ensures WakeInv(CtlRead(s, k))
  {
    hide LogsOk, UidsOk, SchedOk, DR.DrainsInv;
    var s' := CtlRead(s, k);
    forall j | Unsettled(Cur(s'.st, j), s'.h.lost) ensures Awake(s', j) {
      assert Awake(s, j);
      if j == k && View(s.st, k) == None && !Rings(Log(s.st, k), Seen(s.st, k), Last(s.st, k)) {
        NobodyBorn(Log(s.st, k), Seen(s.st, k), Last(s.st, k));
      }
    }
  }

  /** The reconciler goes on with the same request, or leaves it in the queue or to a timer. */
  lemma OnwardWake(s: State, s': State)
    requires WakeInv(s) && s.ctl.Busy? && s'.st == s.st && s.queue <= s'.queue && s.timers <= s'.timers
    requires s.h.lost <= s'.h.lost
    requires if s'.ctl.Busy? then s'.ctl.key == s.ctl.key && s'.ctl.from == s.ctl.from
          else s.ctl.key in s'.queue + s'.timers
    ensures WakeInv(s')
  {
    forall k | Unsettled(Cur(s'.st, k), s'.h.lost) ensures Awake(s', k) { assert Awake(s, k); }
  }

  /** A reconcile that ends for good: its request is settled, or some later change rings. */
  lemma DoneWake(s: State, s': State)
    requires WakeInv(s) && s.ctl.Busy? && s'.st == s.st && s'.queue == s.queue && s'.timers == s.timers
    requires s'.h.lost == s.h.lost
    requires s'.ctl == Resting
    requires Unsettled(Cur(s.st, s.ctl.key), s.h.lost) ==>
          Rings(Log(s.st, s.ctl.key), s.ctl.from, Last(s.st, s.ctl.key))
    ensures WakeInv(s')
  {
    forall k | Unsettled(Cur(s'.st, k), s'.h.lost) ensures Awake(s', k) {
      assert Awake(s, k);
      if k == s.ctl.key {
        var x :| s.ctl.from <= x < Last(s.st, k) && EnqueuesAt(Log(s.st, k), x);
        if x < Seen(s.st, k) { assert Rings(Log(s.st, k), s.ctl.from, Seen(s.st, k)); }
      }
    }
  }

  /** At the end of a reconcile without a write the copy is settled. */
  lemma SettledCopy(s: State)
    requires Core(s) && SteadyInv(s) && s.ctl.Busy? && (Settled(s.ctl.nm) || s.ctl.pc == Top(DropFinalizer))
    ensures Unsettled(Cur(s.st, s.ctl.key), s.h.lost) ==> Rings(Log(s.st, s.ctl.key), s.ctl.from, Last(s.st, s.ctl.key))
  {
    hide UidsOk, SchedOk, DR.DrainsInv, Steady;
    var c := s.ctl;
    var log := Log(s.st, c.key);
    if Rings(log, c.at, |log| - 1) {
      RingsWider(log, c.at, |log| - 1, c.from, |log| - 1, []);
      assert log + [] == log;
    } else {
      QuietVersions(log, c.at, |log| - 1);
      AliveProgress(log, c.at, |log| - 1);
    }
  }

  predicate DoneWrite(pc: PC, c: NodeMaintenance, obj: NodeMaintenance) {
    obj.reason == Pending || obj.reason != c.reason || Stored(obj) == None || pc == Top(DropFinalizer)
  }

  lemma CodeDone(pc: PC, c: NodeMaintenance, node: Node, openshift: bool, choice: nat)
    requires PcOk(pc, c) && EntryOk(c)
    ensures
      match Code(pc, c, node, openshift, choice)
      case Go(next) => next == End(Done) ==> Settled(c) || pc == Top(DropFinalizer)
      case Write(obj, next) => next == End(Done) ==> DoneWrite(pc, c, obj)
      case TryWrite(_, next) => next.To?
      case Mark(_, next) => next.To?
      case Look => true
  {
  }

  lemma FollowWake(s: State, next: Next)
    requires Core(s) && SteadyInv(s) && WakeInv(s) && s.ctl.Busy?
    requires next == End(Done) ==> Settled(s.ctl.nm) || s.ctl.pc == Top(DropFinalizer)
    ensures WakeInv(Follow(s, next))
  {
    hide Core, SteadyInv, WakeInv, Rings;
    if next == End(Done) {
      SettledCopy(s);
      DoneWake(s, Follow(s, next));
    } else {
      OnwardWake(s, Follow(s, next));
    }
  }

  lemma CommitWakeStore(s: State, obj: NodeMaintenance)
    requires Core(s) && WakeInv(s) && s.ctl.Busy? && Current(s) && Edge(Some(s.ctl.nm), Stored(obj))
    ensures WakeInv(Commit(s, obj))
  {
    hide LogsOk, UidsOk, SchedOk, DR.DrainsInv, AllAwake, Heard, Edge, Append;
    AppendAwake(s, Commit(s, obj), s.ctl.key, Stored(obj));
    AppendHeard(s.st, s.queue, s.ctl, s.ctl.key, Stored(obj));
    HeardSame(Commit(s, obj).st, s.queue, s.ctl, Commit(s, obj).ctl);
  }

  lemma HeardSame(st: Store, queue: set<Key>, c: Ctl, c': Ctl)
    requires Heard(st, queue, c) && c.Busy? && c'.Busy? && c'.key == c.key && c'.from == c.from
    ensures Heard(st, queue, c')
  {
  }

  lemma CommitRings(s: State, obj: NodeMaintenance)
    requires Core(s) && SteadyInv(s) && s.ctl.Busy? && Current(s) && DoneWrite(s.ctl.pc, s.ctl.nm, obj)
    requires obj.node == s.ctl.nm.node
    ensures
      var s' := Commit(s, obj);
      Unsettled(Cur(s'.st, s'.ctl.key), s'.h.lost) ==>
          Rings(Log(s'.st, s'.ctl.key), s'.ctl.from, Last(s'.st, s'.ctl.key))
  {
    hide LogsOk, UidsOk, SchedOk, DR.DrainsInv, Steady;
    var log' := Log(Commit(s, obj).st, s.ctl.key);
    if obj.reason != s.ctl.nm.reason || Stored(obj) == None { assert EnqueuesAt(log', s.ctl.at); }
  }

  lemma CommitWake(s: State, obj: NodeMaintenance, next: Next)
    requires Core(s) && SteadyInv(s) && WakeInv(s) && s.ctl.Busy? && Current(s) && Edge(Some(s.ctl.nm), Stored(obj))
    requires Effect(s.ctl.pc, s.ctl.nm, s.ctl.node, obj) && (next == End(Done) ==> DoneWrite(s.ctl.pc, s.ctl.nm, obj))
    ensures WakeInv(Follow(Commit(s, obj), next))
  {
    hide Core, SteadyInv, WakeInv, Rings, Edge, Commit, DoneWrite;
    CommitWakeStore(s, obj);
    if next == End(Done) {
      CommitRings(s, obj);
      DoneWake(Commit(s, obj), Follow(Commit(s, obj), next));
    } else {
      OnwardWake(Commit(s, obj), Follow(Commit(s, obj), next));
    }
  }

  lemma FlipWake(s: State, value: bool, next: Next)
    requires WakeInv(s) && s.ctl.Busy? && s.ctl.nm.node in s.nodes && next.To?
    ensures WakeInv(Follow(Flip(s, value), next))
  {
    hide WakeInv;
    OnwardWake(s, Follow(Flip(s, value), next));
  }

  lemma LookWake(s: State, choice: nat)
    requires WakeInv(s) && s.ctl.Busy? && CtlReady(s) && Looks(s.ctl.pc)
    ensures WakeInv(CtlLook(s, choice))
  {
    hide WakeInv, CtlReady, PauseLook, UnpauseLook, DrainLook, DrainLooks;
    if s.ctl.pc != Top(GetNode) { LookShape(s, choice); }
    OnwardWake(s, CtlLook(s, choice));
  }

  lemma FailWake(s: State)
    requires WakeInv(s) && s.ctl.Busy?
    ensures WakeInv(CtlFail(s))
  {
    hide WakeInv, CtlFail;
    FailShape(s);
    OnwardWake(s, CtlFail(s));
  }

  lemma RetryWake(s: State)
    requires WakeInv(s) && s.ctl.Busy?
    ensures WakeInv(Finish(s, Retry))
  {
    hide WakeInv;
    OnwardWake(s, Finish(s, Retry));
  }

  lemma ActWake(s: State, choice: nat)
    requires Core(s) && SteadyInv(s) && WakeInv(s) && s.ctl.Busy? && CtlReady(s)
    ensures WakeInv(CtlAct(s, choice))
  {
    hide Core, SteadyInv, WakeInv, Code, CtlLook, Follow, Commit, Flip, Finish, CtlReady, PcOk, EntryOk, Edge,
         Effect, NextOk, DoneWrite, Settled, Marking;
    CopyFacts(s);
    var c := s.ctl;
    CodeOk(c.pc, c.nm, c.node, s.openshift, choice);
    CodeEffect(c.pc, c.nm, c.node, s.openshift, choice);
    CodeDone(c.pc, c.nm, c.node, s.openshift, choice);
    CodeLooks(c.pc, c.nm, c.node, s.openshift, choice);
    RetryWake(s);
    match Code(c.pc, c.nm, c.node, s.openshift, choice)
    case Go(next) => FollowWake(s, next);
    case Write(obj, next) => if Current(s) { CommitWake(s, obj, next); }
    case TryWrite(obj, next) => if Current(s) { SameEffect(c); CommitWake(s, obj, next); } else { FollowWake(s, next); }
    case Mark(value, next) => if c.nm.node in s.nodes { FlipWake(s, value, next); }
    case Look => LookWake(s, choice);
  }

  lemma WakeStep(s: State, step: Step)
    requires Core(s) && SteadyInv(s) && WakeInv(s) && Enabled(s, step)
    ensures WakeInv(Apply(s, step))
  {
    hide Core, SteadyInv, WakeInv, CanEdit, DoEdit, CanChange, DoChange, CanRelay, DoRelay, CanEvict, DoEvict,
         CanSchedule, DoSchedule, CtlRead, CtlAct, CtlFail, CtlReady, CannotFail;
    match step
    case Edits(e) => EditWake(s, e);
    case Changes(c) => ChangeWake(s, c);
    case Relays(r) => RelayWake(s, r);
    case Evictions(e) => EvictWake(s, e);
    case Scheduling(t) => TurnWake(s, t);
    case Fetch(k) => FetchWake(s, k);
    case Reconcile(ok, choice) => if ok { ActWake(s, choice); } else { FailWake(s); }
  }

  lemma InitWake(s: State)
    requires Init(s)
    ensures WakeInv(s)
  {
  }
}
