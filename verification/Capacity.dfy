/** The operation limit over whole runs: nodes under maintenance, and nodes a round is about to
    put under maintenance, always fit in a set no larger than the limit. */
module Capacity {
  import opened Api
  import opened Versions
  import opened Handlers
  import opened Operator
  import opened PreScheduling
  import opened Planning
  import opened Scheduling
  import opened Seqs
  import opened Lifecycle
  import opened Histories
  import opened Rounds
  import opened Control
  import opened CoreInvariant
  import opened Shapes
  import DR = DrainManagers

  /** Request `k` is, or is planned to be, under maintenance on the node. */
  ghost predicate Takes(st: Store, sched: Sched, k: Key, node: string) {
    || UnderOn(Cur(st, k), node)
    || (sched.Round? && k in sched.todo && sched.todo[k] <= Last(st, k) && NodeAt(Log(st, k)[sched.todo[k]], node))
  }

  ghost predicate FewerTakes(st: Store, sched: Sched, st': Store, sched': Sched) {
    forall k, node :: Takes(st', sched', k, node) ==> Takes(st, sched, k, node)
  }

  /** Every node taken, unless it was removed at some time, is in `slots`. */
  ghost predicate Fits(st: Store, sched: Sched, lost: set<string>, slots: set<string>) {
    forall k, node :: Takes(st, sched, k, node) && node !in lost ==> node in slots
  }

  ghost predicate Room(s: State, slots: set<string>) {
    |slots| <= s.h.limit && Fits(s.st, s.sched, s.h.lost, slots)
  }

  ghost predicate CapacityInv(s: State) {
    && Fits(s.st, s.sched, s.h.lost, s.nodes.Keys)
    && (!s.h.timedOut ==> exists slots :: Room(s, slots))
  }

  lemma FewerFits(st: Store, sched: Sched, st': Store, sched': Sched,
                  lost: set<string>, lost': set<string>, slots: set<string>, slots': set<string>)
    requires Fits(st, sched, lost, slots) && FewerTakes(st, sched, st', sched')
    requires lost <= lost' && slots - lost' <= slots'
    ensures Fits(st', sched', lost', slots')
  {
  }

  /** A step that takes no new node and lowers no limit. */
  lemma FewerRoom(s: State, s': State)
    requires CapacityInv(s) && FewerTakes(s.st, s.sched, s'.st, s'.sched)
    requires s.h.lost <= s'.h.lost && s.nodes.Keys - s'.h.lost <= s'.nodes.Keys
    requires s.h.limit <= s'.h.limit && (s.h.timedOut ==> s'.h.timedOut)
    ensures CapacityInv(s')
  {
    hide Fits, FewerTakes;
    FewerFits(s.st, s.sched, s'.st, s'.sched, s.h.lost, s'.h.lost, s.nodes.Keys, s'.nodes.Keys);
    if !s'.h.timedOut {
      var slots :| Room(s, slots);
      FewerFits(s.st, s.sched, s'.st, s'.sched, s.h.lost, s'.h.lost, slots, slots);
      assert Room(s', slots);
    }
  }

  lemma AppendTakes(st: Store, sched: Sched, k: Key, e: Entry)
    requires SchedOk(st, sched) && Edge(Cur(st, k), e) && (IsUnder(e) ==> IsUnder(Cur(st, k)))
    ensures FewerTakes(st, sched, Append(st, k, e), sched)
  {
    var st' := Append(st, k, e);
    forall j, node | Takes(st', sched, j, node) ensures Takes(st, sched, j, node) {
      if j != k { assert Log(st', j) == Log(st, j); }
    }
  }

  lemma SameTakes(st: Store, sched: Sched, st': Store, sched': Sched)
    requires forall k :: Log(st', k) == Log(st, k)
    requires sched' == sched || sched' == Between
    ensures FewerTakes(st, sched, st', sched')
  {
    forall j, node | Takes(st', sched', j, node) ensures Takes(st, sched, j, node) {
      assert Log(st', j) == Log(st, j);
    }
  }

  lemma TodoTakes(st: Store, todo: map<Key, nat>, wait: map<Key, nat>, todo': map<Key, nat>, wait': map<Key, nat>)
    requires forall k :: k in todo' ==> k in todo && todo'[k] == todo[k]
    ensures FewerTakes(st, Round(todo, wait), st, Round(todo', wait'))
  {
  }

  lemma WriteTakes(st: Store, todo: map<Key, nat>, wait: map<Key, nat>, k: Key)
    requires SchedOk(st, Round(todo, wait)) && k in todo && todo[k] == Last(st, k)
    ensures FewerTakes(st, Round(todo, wait), Append(st, k, Some(WithReason(Cur(st, k).value, Scheduled))),
                       Round(todo - {k}, wait[k := Last(st, k) + 1]))
  {
    var sched := Round(todo, wait);
    var st' := Append(st, k, Some(WithReason(Cur(st, k).value, Scheduled)));
    var sched' := Round(todo - {k}, wait[k := Last(st, k) + 1]);
    forall j, node | Takes(st', sched', j, node) ensures Takes(st, sched, j, node) {
      if j != k { assert Log(st', j) == Log(st, j); }
    }
  }

  // ------------------------------------------------------------ a new round

  function PlanNodes(p: seq<Request>): set<string> { set r | r in p :: r.nm.node }

  lemma {:induction false} PlanNodesSize(p: seq<Request>)
    ensures |PlanNodes(p)| <= |p|
  {
    if p != [] {
      var front, last := p[..|p| - 1], p[|p| - 1];
      PlanNodesSize(front);
      assert p == front + [last];
      assert PlanNodes(p) == PlanNodes(front) + {last.nm.node};
      UnionSize(PlanNodes(front), {last.nm.node});
    }
  }

  lemma ListTakes(s: State, nodes: seq<Node>, reqs: seq<Request>, limits: Limits, k: Key, node: string)
    requires LogsOk(s.st) && Lists(s.st, reqs) && Names(nodes) == s.nodes.Keys
    requires Fits(s.st, Between, s.h.lost, s.nodes.Keys)
    requires Takes(s.st, Planned(s.st, Keys(Plan(nodes, reqs, limits))), k, node) && node !in s.h.lost
    ensures node in s.nodes.Keys
    ensures Unseen(s.st, Between) ==> node in NodesUnder(Names(nodes), reqs) + PlanNodes(Plan(nodes, reqs, limits))
  {
    if UnderOn(Cur(s.st, k), node) {
      assert Takes(s.st, Between, k, node);
      if Unseen(s.st, Between) {
        SeenUnder(s.st, k);
        var q :| q in reqs && q.key == k;
        assert q.nm.node in NodesUnder(Names(nodes), reqs);
      }
    } else {
      var r := PlannedRequest(s.st, nodes, reqs, limits, k);
      assert r.nm.node in PlanNodes(Plan(nodes, reqs, limits));
    }
  }

  /** The slots of a round that plans something are within its limit. */
  lemma RoundSlots(nodes: seq<Node>, reqs: seq<Request>, limits: Limits)
    requires Named(reqs) && Plan(nodes, reqs, limits) != []
    ensures MaxOperations(limits, |nodes|).Some?
    ensures |NodesUnder(Names(nodes), reqs) + PlanNodes(Plan(nodes, reqs, limits))| <=
          MaxOperations(limits, |nodes|).value
  {
    hide Plan, MaxOperations, NodesUnder;
    PlanSound(nodes, reqs, limits);
    PlanNodesSize(Plan(nodes, reqs, limits));
    UnionSize(NodesUnder(Names(nodes), reqs), PlanNodes(Plan(nodes, reqs, limits)));
  }

  lemma ListFits(s: State, nodes: seq<Node>, reqs: seq<Request>, limits: Limits)
    requires LogsOk(s.st) && Lists(s.st, reqs) && Names(nodes) == s.nodes.Keys
    requires Fits(s.st, Between, s.h.lost, s.nodes.Keys)
    ensures
      var sched := Planned(s.st, Keys(Plan(nodes, reqs, limits)));
      && Fits(s.st, sched, s.h.lost, s.nodes.Keys)
      && (Unseen(s.st, Between) ==>
            Fits(s.st, sched, s.h.lost, NodesUnder(Names(nodes), reqs) + PlanNodes(Plan(nodes, reqs, limits))))
  {
    hide Lists, Unseen, LogsOk, Plan, NodesUnder, Takes, Keys;
    var sched := Planned(s.st, Keys(Plan(nodes, reqs, limits)));
    forall k, node | Takes(s.st, sched, k, node) && node !in s.h.lost
      ensures node in s.nodes.Keys
      ensures Unseen(s.st, Between) ==> node in NodesUnder(Names(nodes), reqs) + PlanNodes(Plan(nodes, reqs, limits))
    {
      ListTakes(s, nodes, reqs, limits, k, node);
    }
  }

  lemma ListRoom(s: State, nodes: seq<Node>, reqs: seq<Request>, limits: Limits)
    requires Core(s) && CapacityInv(s) && CanSchedule(s, List(nodes, reqs, limits))
    ensures CapacityInv(StartRound(s, nodes, reqs, limits))
  {
    hide LogsOk, UidsOk, CtlOk, DR.DrainsInv, SchedOk, Unseen, Exclusive, Lists, Fits, Plan, MaxOperations,
         NodesUnder;
    var s' := StartRound(s, nodes, reqs, limits);
    if Plan(nodes, reqs, limits) == [] {
      assert s'.sched.todo == map[];
      EmptyTakes(s.st, s'.sched);
      FewerRoom(s, s');
    } else {
      ListsNamed(s.st, reqs);
      RoundSlots(nodes, reqs, limits);
      ListFits(s, nodes, reqs, limits);
      if !s'.h.timedOut {
        assert Room(s', NodesUnder(Names(nodes), reqs) + PlanNodes(Plan(nodes, reqs, limits)));
      }
    }
  }

  lemma ListsNamed(st: Store, reqs: seq<Request>)
    requires Lists(st, reqs)
    ensures Named(reqs)
  {
  }

  lemma EmptyTakes(st: Store, sched: Sched)
    requires sched.Round? && sched.todo == map[]
    ensures FewerTakes(st, Between, st, sched)
  {
  }

  // ---------------------------------------------------------------- all steps

  lemma EditCapacity(s: State, e: Edit)
    requires Core(s) && CapacityInv(s) && CanEdit(s, e)
    ensures CapacityInv(DoEdit(s, e))
  {
    hide UidsOk, CtlOk, CapacityInv, FewerTakes;
    EditGentle(s, e);
    AppendTakes(s.st, s.sched, e.k, Edited(s, e));
    FewerRoom(s, DoEdit(s, e));
  }

  lemma ChangeCapacity(s: State, c: Change)
    requires CapacityInv(s) && CanChange(s, c)
    ensures CapacityInv(DoChange(s, c))
  {
    hide CapacityInv, FewerTakes;
    SameTakes(s.st, s.sched, s.st, s.sched);
    FewerRoom(s, DoChange(s, c));
  }

  lemma RelayCapacity(s: State, r: Relay)
    requires CapacityInv(s) && CanRelay(s, r)
    ensures CapacityInv(DoRelay(s, r))
  {
    hide CapacityInv, FewerTakes;
    SameTakes(s.st, s.sched, DoRelay(s, r).st, DoRelay(s, r).sched);
    FewerRoom(s, DoRelay(s, r));
  }

  lemma WriteOneCapacity(s: State, k: Key, ok: bool)
    requires Core(s) && CapacityInv(s) && CanSchedule(s, WriteOne(k, ok))
    ensures CapacityInv(WriteScheduled(s, k, ok))
  {
    hide LogsOk, UidsOk, CtlOk, DR.DrainsInv, SchedOk, Unseen, Exclusive, CapacityInv, FewerTakes;
    var todo, wait := s.sched.todo, s.sched.wait;
    if ok && todo[k] == Last(s.st, k) && Cur(s.st, k).Some? { WriteTakes(s.st, todo, wait, k); }
    TodoTakes(s.st, todo, wait, todo - {k}, wait);
    FewerRoom(s, WriteScheduled(s, k, ok));
  }

  lemma EndRoundCapacity(s: State)
    requires CapacityInv(s)
    ensures CapacityInv(s.(sched := Between))
  {
    hide CapacityInv, FewerTakes;
    SameTakes(s.st, s.sched, s.st, Between);
    FewerRoom(s, s.(sched := Between));
  }

  lemma TurnCapacity(s: State, t: Turn)
    requires Core(s) && CapacityInv(s) && CanSchedule(s, t)
    ensures CapacityInv(DoSchedule(s, t))
  {
    hide Core, CapacityInv, FewerTakes, WriteScheduled, StartRound, Lists;
    match t
    case List(nodes, reqs, limits) => ListRoom(s, nodes, reqs, limits);
    case WriteOne(k, ok) => WriteOneCapacity(s, k, ok);
    case EndRound => EndRoundCapacity(s);
    case _ =>
      TodoTakes(s.st, s.sched.todo, s.sched.wait, s.sched.todo, s.sched.wait - {t.k});
      FewerRoom(s, DoSchedule(s, t));
  }

  lemma CommitCapacity(s: State, obj: NodeMaintenance, next: Next)
    requires Core(s) && CapacityInv(s) && s.ctl.Busy? && Current(s) && Edge(Some(s.ctl.nm), Stored(obj))
    requires UnderMaintenance(obj) ==> UnderMaintenance(s.ctl.nm)
    ensures CapacityInv(Follow(Commit(s, obj), next))
  {
    hide LogsOk, UidsOk, DR.DrainsInv, SchedOk, Unseen, Exclusive, CapacityInv, FewerTakes, Edge, Append, Follow,
         Commit;
    CommitShape(s, obj, next);
    AppendTakes(s.st, s.sched, s.ctl.key, Stored(obj));
    FewerRoom(s, Follow(Commit(s, obj), next));
  }

  /** The requests and the round stay as they are. */
  lemma LocalCapacity(s: State, s': State)
    requires CapacityInv(s) && s'.st == s.st && s'.sched == s.sched && s'.nodes.Keys == s.nodes.Keys
    requires s.h.lost <= s'.h.lost && s'.h.limit == s.h.limit && s'.h.timedOut == s.h.timedOut
    ensures CapacityInv(s')
  {
    hide CapacityInv, FewerTakes;
    SameTakes(s.st, s.sched, s.st, s.sched);
    FewerRoom(s, s');
  }

  lemma LookCapacity(s: State, choice: nat)
    requires CapacityInv(s) && s.ctl.Busy? && CtlReady(s) && Looks(s.ctl.pc)
    ensures CapacityInv(CtlLook(s, choice))
  {
    hide CapacityInv, CtlReady, PauseLook, UnpauseLook, DrainLook, DrainLooks;
    if s.ctl.pc != Top(GetNode) { LookShape(s, choice); }
    LocalCapacity(s, CtlLook(s, choice));
  }

  lemma FollowCapacity(s: State, next: Next)
    requires CapacityInv(s) && s.ctl.Busy?
    ensures CapacityInv(Follow(s, next))
  {
    hide CapacityInv;
    LocalCapacity(s, Follow(s, next));
  }

  lemma FailCapacity(s: State)
    requires CapacityInv(s) && s.ctl.Busy?
    ensures CapacityInv(CtlFail(s))
  {
    hide CapacityInv;
    LocalCapacity(s, CtlFail(s));
  }

  lemma FlipCapacity(s: State, value: bool, next: Next)
    requires CapacityInv(s) && s.ctl.Busy? && s.ctl.nm.node in s.nodes
    ensures CapacityInv(Follow(Flip(s, value), next))
  {
    hide CapacityInv;
    LocalCapacity(s, Follow(Flip(s, value), next));
  }

  lemma ActCapacity(s: State, choice: nat)
    requires Core(s) && CapacityInv(s) && s.ctl.Busy? && CtlReady(s)
    ensures CapacityInv(CtlAct(s, choice))
  {
    hide Core, CapacityInv, Code, CtlLook, Follow, Commit, Flip, CtlReady, PcOk, EntryOk, Edge, NextOk;
    CopyFacts(s);
    var c := s.ctl;
    CodeOk(c.pc, c.nm, c.node, s.openshift, choice);
    CodeNeverSchedules(c.pc, c.nm, c.node, s.openshift, choice);
    CodeLooks(c.pc, c.nm, c.node, s.openshift, choice);
    RetryCapacity(s);
    match Code(c.pc, c.nm, c.node, s.openshift, choice)
    case Go(next) => FollowCapacity(s, next);
    case Write(obj, next) => if Current(s) { CommitCapacity(s, obj, next); }
    case TryWrite(obj, next) => if Current(s) { CommitCapacity(s, obj, next); } else { FollowCapacity(s, next); }
    case Mark(value, next) => if c.nm.node in s.nodes { FlipCapacity(s, value, next); }
    case Look => LookCapacity(s, choice);
  }

  lemma RetryCapacity(s: State)
    requires CapacityInv(s) && s.ctl.Busy?
    ensures CapacityInv(Finish(s, Retry))
  {
    FollowCapacity(s, End(Retry));
  }

  lemma FetchCapacity(s: State, k: Key)
    requires CapacityInv(s)
    ensures CapacityInv(CtlRead(s, k))
  {
    hide CapacityInv;
    LocalCapacity(s, CtlRead(s, k));
  }

  lemma EvictCapacity(s: State, e: Eviction)
    requires CapacityInv(s) && CanEvict(s, e)
    ensures CapacityInv(DoEvict(s, e))
  {
    hide CapacityInv;
    LocalCapacity(s, DoEvict(s, e));
  }

  lemma CapacityStep(s: State, step: Step)
    requires Core(s) && CapacityInv(s) && Enabled(s, step)
    ensures CapacityInv(Apply(s, step))
  {
    hide Core, CapacityInv, CanEdit, DoEdit, CanChange, DoChange, CanRelay, DoRelay, CanEvict, DoEvict,
         CanSchedule, DoSchedule, CtlRead, CtlAct, CtlFail, CtlReady, CannotFail;
    match step
    case Edits(e) => EditCapacity(s, e);
    case Changes(c) => ChangeCapacity(s, c);
    case Relays(r) => RelayCapacity(s, r);
    case Evictions(e) => EvictCapacity(s, e);
    case Scheduling(t) => TurnCapacity(s, t);
    case Fetch(k) => FetchCapacity(s, k);
    case Reconcile(ok, choice) => if ok { ActCapacity(s, choice); } else { FailCapacity(s); }
  }

  lemma InitCapacity(s: State)
    requires Init(s)
    ensures CapacityInv(s)
  {
    assert Room(s, {});
  }

  /** The nodes with a request under maintenance, without those removed at some time. */
  function BusyNodes(s: State): set<string> {
    set k | k in s.st.logs && IsUnder(Cur(s.st, k)) && Cur(s.st, k).value.node !in s.h.lost :: Cur(s.st, k).value.node
  }

  lemma CapacityBound(s: State)
    requires CapacityInv(s) && !s.h.timedOut
    ensures |BusyNodes(s)| <= s.h.limit && BusyNodes(s) <= s.nodes.Keys
  {
    var slots :| Room(s, slots);
    forall n | n in BusyNodes(s) ensures n in slots && n in s.nodes.Keys {
      var k :| k in s.st.logs && UnderOn(Cur(s.st, k), n);
      assert Takes(s.st, s.sched, k, n);
    }
    SubsetSize(BusyNodes(s), slots);
  }

  /** The node of a request under maintenance exists unless it was removed at some time. */
  lemma KeptExists(s: State, k: Key)
    requires CapacityInv(s) && IsUnder(Cur(s.st, k)) && Cur(s.st, k).value.node !in s.h.lost
    ensures Cur(s.st, k).value.node in s.nodes
  {
    assert Takes(s.st, s.sched, k, Cur(s.st, k).value.node);
  }
}
