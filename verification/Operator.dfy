/** The whole operator as one step system: the stored requests, nodes and pools, the caches, the
    scheduler's rounds, the reconciler, the drain manager with its goroutines, the work queue, and
    everything other parties may do in between. */
module Operator {
  import opened Api
  import opened Versions
  import opened Handlers
  import opened PreScheduling
  import opened Scheduling
  import DrainRequests
  import DR = DrainManagers

  /** The reconciler: the request it works on, the version it first read (`from`) and the version
      its copy `nm` has now (`at`), its copy of the node, the drain request it looks at. */
  datatype Ctl =
    | Resting
    | Busy(key: Key, from: nat, at: nat, nm: NodeMaintenance, node: Node, req: nat, pc: PC)

  /** The scheduler: between rounds, or in a round with versions still to be written (`todo`) and
      written versions it waits to see in the cache (`wait`). */
  datatype Sched = Between | Round(todo: map<Key, nat>, wait: map<Key, nat>)

  /** What happened so far that some guarantees exclude, and values remembered to state others.
      `lost`: nodes that were removed, moved to another pool or found missing; `lostPools`: their
      pools; `touched`: requests during whose maintenance someone else changed the node's
      unschedulable flag; `entry`: that flag when a request entered phase Cordon; `timedOut`,
      `poolTimedOut`: a wait for the cache was given up before the cache had caught up;
      `staleCheck`: the last pool-use check found only requests that no longer use the pool;
      `leaked`: pools whose last request left on such a check while they were annotated, and that
      no request has been labelled for since; `raced`: the pool the reconciler is about to pause is
      paused already; `limit`: the largest operation limit of any round. */
  datatype History = History(
    lost: set<string>, lostPools: set<string>, touched: set<nat>, entry: map<nat, bool>,
    timedOut: bool, poolTimedOut: bool, staleCheck: bool, leaked: set<string>, raced: bool, limit: int)

  datatype State = State(
    openshift: bool,
    st: Store,
    nodes: map<string, Node>,
    pools: map<string, Pool>,
    pview: map<string, Pool>,
    sched: Sched,
    ctl: Ctl,
    dr: DR.Drains,
    queue: set<Key>,
    timers: set<Key>,
    nextUid: nat,
    h: History)

  /** What users, other controllers and the garbage collector do to requests. */
  datatype Edit =
    | Create(k: Key, nm: NodeMaintenance)
    | Delete(k: Key)
    | EditSpec(k: Key, drainSpec: Option<DrainSpec>, waitPods: bool, additional: set<string>)
    | SetFailed(k: Key, failed: bool)

  /** What happens to nodes and pools outside the operator. */
  datatype Change =
    | AddNode(node: Node)
    | RemoveNode(name: string)
    | MoveNode(name: string, pool: string)
    | SetConditions(name: string, conditions: seq<NodeCondition>)
    | SetUnschedulable(name: string, value: bool)
    | EditPool(name: string, edited: Pool)

  /** The caches, the timers, and the process as a whole. */
  datatype Relay = Deliver(k: Key) | DeliverPool(name: string) | Fire(k: Key) | Restart

  /** The drain goroutines and the context they run under. */
  datatype Eviction = DrainResult(id: nat, failed: bool) | DrainEnd(id: nat) | ContextDone

  datatype Turn =
    | List(nodes: seq<Node>, reqs: seq<Request>, limits: Limits)
    | WriteOne(k: Key, ok: bool)
    | SeeOne(k: Key)
    | GiveUp(k: Key)
    | EndRound

  datatype Step =
    | Edits(edit: Edit)
    | Changes(change: Change)
    | Relays(relay: Relay)
    | Evictions(eviction: Eviction)
    | Scheduling(turn: Turn)
    | Fetch(k: Key)
    | Reconcile(ok: bool, choice: nat)

  // -------------------------------------------------------------- vocabulary

  /** A request as it is created. */
  predicate Unborn(nm: NodeMaintenance) {
    && nm.reason == Uninitialized && !nm.ready && !nm.failed && !nm.deleting && !nm.finalizer
    && nm.initial == None && nm.poolLabel == None && !nm.readyTime
  }

  /** An update that removes the last finalizer of an object under deletion removes the object. */
  function Stored(nm: NodeMaintenance): Entry {
    if nm.deleting && !nm.finalizer then None else Some(nm)
  }

  /** Does the change from one version to the next put the request in the work queue? */
  predicate Enqueues(before: Entry, after: Entry) {
    match (before, after)
    case (Some(a), Some(b)) => a.reason != b.reason || a.ready != b.ready || a.failed != b.failed || b.deleting
    case (None, None) => false
    case _ => true
  }

  predicate InPool(s: State, node: string, pool: string) {
    node in s.nodes && s.nodes[node].pool == pool
  }

  /** mcpUsedByOtherNodeMaintenance, on the stored versions or on the cached ones. */
  predicate UsedIn(s: State, pool: string, me: Key, latest: bool) {
    exists q | q in s.st.logs ::
      var e := if latest then Cur(s.st, q) else View(s.st, q);
      q != me && e.Some? && InPool(s, e.value.node, pool) && e.value.poolLabel.Some?
  }

  function Finish(s: State, result: Result): State
    requires s.ctl.Busy?
  {
    match result
    case Done => s.(ctl := Resting)
    case Later => s.(ctl := Resting, timers := s.timers + {s.ctl.key})
    case Retry => s.(ctl := Resting, queue := s.queue + {s.ctl.key})
  }

  function Follow(s: State, next: Next): State
    requires s.ctl.Busy?
  {
    match next
    case To(pc) => s.(ctl := s.ctl.(pc := pc))
    case End(result) => Finish(s, result)
  }

  predicate Current(s: State)
    requires s.ctl.Busy?
  {
    s.ctl.at == Last(s.st, s.ctl.key)
  }

  /** The store after the reconciler's write of `obj`, and its copy. */
  function Commit(s: State, obj: NodeMaintenance): (s': State)
    requires s.ctl.Busy?
    ensures s'.ctl.Busy?
  {
    s.(st := Append(s.st, s.ctl.key, Stored(obj)), ctl := s.ctl.(nm := obj, at := s.ctl.at + 1),
        h := AfterWrite(s, obj))
  }

  /** What is remembered of a write. */
  function AfterWrite(s: State, obj: NodeMaintenance): (h: History)
    requires s.ctl.Busy?
    ensures h == s.h.(entry := h.entry, leaked := h.leaked)
    ensures s.ctl.pc != Start(SetCordon) ==> h.entry == s.h.entry
    ensures forall u :: u != obj.uid && u in s.h.entry ==> u in h.entry && h.entry[u] == s.h.entry[u]
  {
    var p := s.ctl.node.pool;
    if s.ctl.pc == Start(SetCordon) && obj.node in s.nodes then
      s.h.(entry := s.h.entry[obj.uid := s.nodes[obj.node].unschedulable])
    else if s.ctl.pc == Pause(SetLabel) then s.h.(leaked := s.h.leaked - {p})
    else if s.ctl.pc == Clean(RemoveFinalizer) && s.h.staleCheck && Marked(s, p) then s.h.(leaked := s.h.leaked + {p})
    else s.h
  }

  function SetPool(s: State, name: string, on: bool): State
    requires name in s.pools
  {
    s.(pools := s.pools[name := s.pools[name].(paused := on, marked := on)])
  }

  predicate ViewMarked(s: State, name: string) {
    name in s.pview && s.pview[name].marked
  }

  predicate Marked(s: State, name: string) {
    name in s.pools && s.pools[name].marked
  }

  // --------------------------------------------------------- the reconciler

  /** Statements that make no call. */
  predicate CannotFail(pc: PC) {
    || pc == Top(Dispatch)
    || (pc.Drain? && pc.drain != InitStatus && pc.drain != ProgressStatus && pc.drain != FinalStatus &&
        pc.drain != ClearStatus && pc.drain != SetReady)
  }

  predicate PoolWait(pc: PC) { pc == Pause(AwaitMark) || pc == Pause(AwaitUndo) || pc == Clean(AwaitUnmark) }

  /** The statement at the program counter can complete. */
  predicate CtlReady(s: State)
    requires s.ctl.Busy?
  {
    match s.ctl.pc
    case Pause(AwaitLabel) =>
      var v := View(s.st, s.ctl.key);
      v.Some? && v.value.poolLabel == Some(s.ctl.node.pool)
    case Pause(AwaitMark) => ViewMarked(s, s.ctl.node.pool)
    case Pause(AwaitUndo) => !ViewMarked(s, s.ctl.node.pool)
    case Clean(AwaitUnmark) => !ViewMarked(s, s.ctl.node.pool)
    case Drain(AddDrain) => s.dr.op == DR.Free || (s.dr.op.Adding? && s.dr.op.id < |s.dr.requests|)
    case Drain(RemoveDrain(_)) => s.dr.op == DR.Free || DR.RemoveReady(s.dr)
    case _ => true
  }

  function CtlFail(s: State): State
    requires s.ctl.Busy?
  {
    if s.ctl.pc == Top(SetOwner) then Follow(s, To(Top(Dispatch)))
    else if PoolWait(s.ctl.pc) && ViewMarked(s, s.ctl.node.pool) != Marked(s, s.ctl.node.pool) then
      Finish(s.(h := s.h.(poolTimedOut := true)), Retry)
    else Finish(s, Retry)
  }

  function CtlAct(s: State, choice: nat): State
    requires s.ctl.Busy? && CtlReady(s)
  {
    match Code(s.ctl.pc, s.ctl.nm, s.ctl.node, s.openshift, choice)
    case Go(next) => Follow(s, next)
    case Write(obj, next) => if Current(s) then Follow(Commit(s, obj), next) else Finish(s, Retry)
    case TryWrite(obj, next) => if Current(s) then Follow(Commit(s, obj), next) else Follow(s, next)
    case Mark(value, next) => if s.ctl.nm.node in s.nodes then Follow(Flip(s, value), next) else Finish(s, Retry)
    case Look => CtlLook(s, choice)
  }

  function Flip(s: State, value: bool): (s': State)
    requires s.ctl.Busy? && s.ctl.nm.node in s.nodes
    ensures s'.ctl.Busy?
  {
    s.(nodes := s.nodes[s.ctl.nm.node := s.nodes[s.ctl.nm.node].(unschedulable := value)],
       ctl := s.ctl.(node := s.ctl.node.(unschedulable := value)))
  }

  function CtlLook(s: State, choice: nat): State
    requires s.ctl.Busy? && CtlReady(s)
  {
    match s.ctl.pc
    case Pause(_) => PauseLook(s)
    case Clean(_) => UnpauseLook(s)
    case Drain(_) => DrainLook(s, choice)
    case _ => LookUpNode(s)
  }

  /** The node of the request, or the path taken when it does not exist. */
  function LookUpNode(s: State): State
    requires s.ctl.Busy?
  {
    if s.ctl.nm.node in s.nodes then s.(ctl := s.ctl.(node := s.nodes[s.ctl.nm.node], pc := Top(SetOwner)))
    else s.(ctl := s.ctl.(pc := Top(DropFinalizer)), h := s.h.(lost := s.h.lost + {s.ctl.nm.node}))
  }

  /** PauseMCP from the label wait on. */
  function PauseLook(s: State): State
    requires s.ctl.Busy? && s.ctl.pc.Pause? && CtlReady(s)
  {
    match s.ctl.pc.pause
    case AwaitLabel => Refresh(s)
    case ReadPool => Follow(NoteRace(s, s.ctl.node.pool), AfterReadPool(s))
    case PatchPool => Patch(s, true, Pause(AwaitMark))
    case AwaitMark => Follow(s, AfterMark(s))
    case UndoPatch => Patch(s, false, Pause(AwaitUndo))
    case _ => Finish(s, Later)
  }

  predicate Paused(pools: map<string, Pool>, name: string) { name in pools && pools[name].paused }

  /** Whether the pool to be patched is paused already, which the operator does not know. */
  function NoteRace(s: State, name: string): State {
    s.(h := s.h.(raced := Paused(s.pools, name)))
  }

  /** The wait's last read replaces the copy by the version in the cache. */
  function Refresh(s: State): State
    requires s.ctl.Busy? && View(s.st, s.ctl.key).Some?
  {
    s.(ctl := s.ctl.(nm := View(s.st, s.ctl.key).value, at := Seen(s.st, s.ctl.key), pc := Pause(ReadPool)))
  }

  /** Already paused by the operator, paused by someone else, busy with a new configuration, or free. */
  function AfterReadPool(s: State): Next
    requires s.ctl.Busy?
  {
    var p := s.ctl.node.pool;
    if p !in s.pview then End(Retry)
    else if s.pview[p].marked then To(Start(SetCordon))
    else if s.pview[p].paused then End(Later)
    else if s.pview[p].wanted != s.pview[p].current then End(Later)
    else To(Pause(PatchPool))
  }

  /** A configuration change that began meanwhile undoes the pause. */
  function AfterMark(s: State): Next
    requires s.ctl.Busy? && s.ctl.node.pool in s.pview
  {
    var p := s.pview[s.ctl.node.pool];
    if p.wanted != p.current then To(Pause(UndoPatch)) else To(Start(SetCordon))
  }

  /** changeMachineConfigPoolPause: a merge patch without version check. */
  function Patch(s: State, on: bool, pc: PC): State
    requires s.ctl.Busy?
  {
    if s.ctl.node.pool in s.pools then Follow(SetPool(s, s.ctl.node.pool, on), To(pc)) else Finish(s, Retry)
  }

  /** UnpauseMCP after the pool's name is known. */
  function UnpauseLook(s: State): State
    requires s.ctl.Busy? && s.ctl.pc.Clean?
  {
    match s.ctl.pc.clean
    case ReadMark => Follow(s, AfterReadMark(s))
    case CheckUse => CheckUsers(s)
    case PatchUnpause => Patch(s, false, Clean(AwaitUnmark))
    case _ => Follow(s, To(Clean(RemoveFinalizer)))
  }

  function AfterReadMark(s: State): Next
    requires s.ctl.Busy?
  {
    var p := s.ctl.node.pool;
    if p !in s.pview then End(Retry)
    else if s.pview[p].marked then To(Clean(CheckUse))
    else To(Clean(RemoveFinalizer))
  }

  function CheckUsers(s: State): State
    requires s.ctl.Busy?
  {
    var used := UsedIn(s, s.ctl.node.pool, s.ctl.key, false);
    var stale := used && !UsedIn(s, s.ctl.node.pool, s.ctl.key, true);
    Follow(s.(h := s.h.(staleCheck := stale)), To(Clean(if used then RemoveFinalizer else PatchUnpause)))
  }

  /** The statements of handleDrainState that talk to the drain manager. */
  function DrainLook(s: State, choice: nat): State
    requires s.ctl.Busy? && s.ctl.pc.Drain? && CtlReady(s)
  {
    match s.ctl.pc.drain
    case GetDrain => FindDrain(s)
    case AddDrain => InsertDrain(s, choice)
    case RemoveDrain(after) => CancelDrain(s, after)
    case _ => Follow(s, To(Drain(AfterCheck(s))))
  }

  function FindDrain(s: State): State
    requires s.ctl.Busy?
  {
    match DR.Get(s.dr, s.ctl.nm.uid)
    case None => Follow(s, To(Drain(InitStatus)))
    case Some(r) => s.(ctl := s.ctl.(req := r, pc := Drain(CheckSpec)))
  }

  /** AddRequest: insertion and start; a second request for the UID is refused. */
  function InsertDrain(s: State, choice: nat): State
    requires s.ctl.Busy? && s.ctl.pc == Drain(AddDrain) && CtlReady(s)
  {
    var nm := s.ctl.nm;
    if s.dr.op.Adding? then Finish(s.(dr := DR.AddStart(s.dr)), Later)
    else if nm.drainSpec == None || nm.uid in s.dr.byUid then Finish(s, Later)
    else
      s.(dr := DR.AddInsert(s.dr, DrainRequests.NewDrainRequest(s.ctl.key, nm.uid, nm.node, nm.drainSpec.value,
          choice == 1)))
  }

  /** RemoveRequest, statement by statement. */
  function CancelDrain(s: State, after: AfterRemove): State
    requires s.ctl.Busy? && s.ctl.pc == Drain(RemoveDrain(after)) && CtlReady(s)
  {
    if s.dr.op.Removing? then
      var dr' := DR.RemoveStep(s.dr);
      if dr'.op == DR.Free then Follow(s.(dr := dr'), AfterRemoval(after, s.ctl.nm, s.openshift)) else s.(dr := dr')
    else if s.ctl.nm.uid in s.dr.byUid then s.(dr := DR.RemoveBegin(s.dr, s.ctl.nm.uid))
    else Follow(s, AfterRemoval(after, s.ctl.nm, s.openshift))
  }

  /** The comparisons with the request that was found, each a separate read of its state. */
  function AfterCheck(s: State): DrainPC
    requires s.ctl.Busy? && s.ctl.pc.Drain?
  {
    match s.ctl.pc.drain
    case CheckSpec => if SpecMatches(s) then CheckInProgress else RemoveDrain(ThenRequeue)
    case CheckInProgress => if DrainIs(s, DrainRequests.InProgress) then ProgressStatus else CheckError
    case CheckError => if DrainIs(s, DrainRequests.Error) then RemoveDrain(ThenRequeue) else CheckCanceled
    case CheckCanceled => if DrainIs(s, DrainRequests.Canceled) then RemoveDrain(ThenRequeue) else FinalStatus
    case other => other
  }

  predicate SpecMatches(s: State)
    requires s.ctl.Busy?
  {
    s.ctl.req < |s.dr.requests| && Some(s.dr.requests[s.ctl.req].spec) == s.ctl.nm.drainSpec
  }

  predicate DrainIs(s: State, d: DrainRequests.DrainState)
    requires s.ctl.Busy?
  {
    s.ctl.req < |s.dr.requests| && DrainRequests.State(s.dr.requests[s.ctl.req]) == d
  }

  const BLANK_NODE := Node("", false, [], "")

  function CtlRead(s: State, k: Key): State {
    match View(s.st, k)
    case None => s.(queue := s.queue - {k})
    case Some(v) =>
      s.(queue := s.queue - {k}, ctl := Busy(k, Seen(s.st, k), Seen(s.st, k), v, BLANK_NODE, 0, Top(GetNode)))
  }

  // ---------------------------------------------------------- the scheduler

  /** `reqs` is what a list call on the cache returns, in any order. */
  ghost predicate Lists(st: Store, reqs: seq<Request>) {
    && Named(reqs)
    && (forall r :: r in reqs ==> View(st, r.key) == Some(r.nm))
    && (forall k :: View(st, k).Some? ==> exists r :: r in reqs && r.key == k)
  }

  function Keys(reqs: seq<Request>): set<Key> { set r | r in reqs :: r.key }

  function StartRound(s: State, nodes: seq<Node>, reqs: seq<Request>, limits: Limits): State {
    var plan := Keys(Plan(nodes, reqs, limits));
    var ops := MaxOperations(limits, |nodes|);
    s.(sched := Round(map k | k in plan :: Seen(s.st, k), map[]),
       h := s.h.(limit := if ops.Some? then Max(s.h.limit, ops.value) else s.h.limit))
  }

  /** One goroutine's status update; a refused or failed one is dropped. */
  function WriteScheduled(s: State, k: Key, ok: bool): State
    requires s.sched.Round? && k in s.sched.todo
  {
    var todo' := s.sched.todo - {k};
    var n := Last(s.st, k);
    if ok && s.sched.todo[k] == n && Cur(s.st, k).Some? then
      s.(st := Append(s.st, k, Some(WithReason(Cur(s.st, k).value, Scheduled))),
         sched := Round(todo', s.sched.wait[k := n + 1]))
    else s.(sched := Round(todo', s.sched.wait))
  }

  /** What the scheduler's wait looks for. */
  predicate SeenScheduled(e: Entry) {
    e == None || UnderMaintenance(e.value)
  }

  // ----------------------------------------------------------- all the steps

  predicate CanEdit(s: State, e: Edit) {
    match e
    case Create(k, nm) => Cur(s.st, k) == None && Unborn(nm) && nm.uid == s.nextUid
    case Delete(k) => Cur(s.st, k).Some? && !Cur(s.st, k).value.deleting
    case EditSpec(k, _, _, _) => Cur(s.st, k).Some?
    case SetFailed(k, _) => Cur(s.st, k).Some?
  }

  /** The version an edit adds. */
  function Edited(s: State, e: Edit): Entry
    requires CanEdit(s, e)
  {
    match e
    case Create(k, nm) => Some(nm)
    case Delete(k) => Stored(Cur(s.st, k).value.(deleting := true))
    case EditSpec(k, ds, wp, ad) => Some(Cur(s.st, k).value.(drainSpec := ds, waitPods := wp, additional := ad))
    case SetFailed(k, f) => Some(Cur(s.st, k).value.(failed := f))
  }

  function DoEdit(s: State, e: Edit): State
    requires CanEdit(s, e)
  {
    s.(st := Append(s.st, e.k, Edited(s, e)), nextUid := if e.Create? then s.nextUid + 1 else s.nextUid)
  }

  predicate CanChange(s: State, c: Change) {
    match c
    case AddNode(n) => n.name !in s.nodes
    case EditPool(p, pool) => CanEditPool(s.pools, p, pool)
    case _ => c.name in s.nodes
  }

  /** Others leave the operator's annotation alone, and do not unpause what it paused. */
  predicate CanEditPool(pools: map<string, Pool>, p: string, pool: Pool) {
    if p in pools && pools[p].marked then pool.marked && pool.paused == pools[p].paused else !pool.marked
  }

  function DoChange(s: State, c: Change): State
    requires CanChange(s, c)
  {
    if c.EditPool? then DoEditPool(s, c.name, c.edited)
    else s.(nodes := ChangedNodes(s.nodes, c), h := ChangedHistory(s, c))
  }

  function ChangedNodes(nodes: map<string, Node>, c: Change): map<string, Node>
    requires !c.EditPool? && (c.AddNode? || c.name in nodes)
  {
    match c
    case AddNode(n) => nodes[n.name := n]
    case RemoveNode(n) => nodes - {n}
    case MoveNode(n, p) => nodes[n := nodes[n].(pool := p)]
    case SetConditions(n, cs) => nodes[n := nodes[n].(conditions := cs)]
    case SetUnschedulable(n, b) => nodes[n := nodes[n].(unschedulable := b)]
  }

  /** What is remembered of a change to a node. */
  function ChangedHistory(s: State, c: Change): (h: History)
    requires !c.EditPool? && (c.AddNode? || c.name in s.nodes)
    ensures s.h.lost <= h.lost && s.h.lostPools <= h.lostPools && s.h.touched <= h.touched
    ensures h == s.h.(lost := h.lost, lostPools := h.lostPools, touched := h.touched)
  {
    match c
    case AddNode(n) => if n.name in s.h.lost then s.h.(lostPools := s.h.lostPools + {n.pool}) else s.h
    case RemoveNode(n) => s.h.(lost := s.h.lost + {n}, lostPools := s.h.lostPools + {s.nodes[n].pool})
    case MoveNode(n, p) => s.h.(lost := s.h.lost + {n}, lostPools := s.h.lostPools + {s.nodes[n].pool, p})
    case SetConditions(_, _) => s.h
    case SetUnschedulable(n, _) => s.h.(touched := s.h.touched + LateUids(s, n))
  }

  function DoEditPool(s: State, p: string, pool: Pool): State {
    var s' := s.(pools := s.pools[p := pool]);
    if s.ctl.Busy? && s.ctl.pc == Pause(PatchPool) && s.ctl.node.pool == p then NoteRace(s', p) else s'
  }

  predicate CanRelay(s: State, r: Relay) {
    match r
    case Deliver(k) => Seen(s.st, k) < Last(s.st, k)
    case DeliverPool(p) => p in s.pools
    case Fire(k) => k in s.timers
    case Restart => true
  }

  function DoRelay(s: State, r: Relay): State
    requires CanRelay(s, r)
  {
    match r
    case Deliver(k) =>
      var st' := Advance(s.st, k);
      s.(st := st', queue := if Enqueues(View(s.st, k), View(st', k)) then s.queue + {k} else s.queue)
    case DeliverPool(p) => s.(pview := s.pview[p := s.pools[p]])
    case Fire(k) => s.(timers := s.timers - {k}, queue := s.queue + {k})
    case Restart =>
      s.(st := CatchUp(s.st), pview := s.pools, sched := Between, ctl := Resting, dr := DR.Reset(s.dr),
         queue := (set k | k in s.st.logs && Cur(s.st, k).Some?), timers := {})
  }

  predicate CanEvict(s: State, e: Eviction) {
    match e
    case DrainResult(id, _) => DR.CanRecord(s.dr, id)
    case DrainEnd(id) => DR.CanSignOff(s.dr, id)
    case ContextDone => true
  }

  function DoEvict(s: State, e: Eviction): State
    requires CanEvict(s, e)
  {
    match e
    case DrainResult(id, failed) => s.(dr := DR.RecordAt(s.dr, id, failed))
    case DrainEnd(id) => s.(dr := DR.SignOffAt(s.dr, id))
    case ContextDone => s.(dr := DR.Shutdown(s.dr))
  }

  ghost predicate CanSchedule(s: State, t: Turn) {
    match t
    case List(nodes, reqs, _) =>
      s.sched == Between && UniqueNames(nodes) && Names(nodes) == s.nodes.Keys && Lists(s.st, reqs)
    case WriteOne(k, _) => s.sched.Round? && k in s.sched.todo
    case SeeOne(k) => s.sched.Round? && k in s.sched.wait && SeenScheduled(View(s.st, k))
    case GiveUp(k) => s.sched.Round? && k in s.sched.wait
    case EndRound => s.sched == Round(map[], map[])
  }

  ghost function DoSchedule(s: State, t: Turn): State
    requires CanSchedule(s, t)
  {
    match t
    case List(nodes, reqs, limits) => StartRound(s, nodes, reqs, limits)
    case WriteOne(k, ok) => WriteScheduled(s, k, ok)
    case SeeOne(k) => s.(sched := s.sched.(wait := s.sched.wait - {k}))
    case GiveUp(k) =>
      s.(sched := s.sched.(wait := s.sched.wait - {k}),
         h := s.h.(timedOut := s.h.timedOut || !SeenScheduled(View(s.st, k))))
    case EndRound => s.(sched := Between)
  }

  ghost predicate Enabled(s: State, step: Step) {
    match step
    case Edits(e) => CanEdit(s, e)
    case Changes(c) => CanChange(s, c)
    case Relays(r) => CanRelay(s, r)
    case Evictions(e) => CanEvict(s, e)
    case Scheduling(t) => CanSchedule(s, t)
    case Fetch(k) => s.ctl == Resting && k in s.queue
    case Reconcile(ok, _) => s.ctl.Busy? && if ok then CtlReady(s) else !CannotFail(s.ctl.pc)
  }

  ghost function Apply(s: State, step: Step): State
    requires Enabled(s, step)
  {
    match step
    case Edits(e) => DoEdit(s, e)
    case Changes(c) => DoChange(s, c)
    case Relays(r) => DoRelay(s, r)
    case Evictions(e) => DoEvict(s, e)
    case Scheduling(t) => DoSchedule(s, t)
    case Fetch(k) => CtlRead(s, k)
    case Reconcile(ok, choice) => if ok then CtlAct(s, choice) else CtlFail(s)
  }

  /** The requests in phase Cordon or later on a node. */
  function LateUids(s: State, node: string): set<nat> {
    set k | k in s.st.logs && Cur(s.st, k).Some? && Late(Cur(s.st, k).value) && Cur(s.st, k).value.node == node
      :: Cur(s.st, k).value.uid
  }

  predicate Init(s: State) {
    && s.st == Store(map[], map[])
    && s.sched == Between && s.ctl == Resting
    && s.dr == DR.Drains(map[], [], DR.Free)
    && s.queue == {} && s.timers == {} && s.nextUid == 0
    && s.pview == s.pools
    && (forall p | p in s.pools :: !s.pools[p].marked)
    && s.h == History({}, {}, {}, map[], false, false, false, {}, false, 0)
  }

  /** The state after a sequence of steps, if every step is possible when its turn comes. */
  ghost function Run(s: State, steps: seq<Step>): Option<State>
    decreases |steps|
  {
    if steps == [] then Some(s)
    else if Enabled(s, steps[0]) then Run(Apply(s, steps[0]), steps[1..])
    else None
  }
}
