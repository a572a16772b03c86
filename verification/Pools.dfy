/** Machine config pools shared by any number of requests: pools relied on stay paused, and pools
    paused by the operator do not stay so for ever. */
module Pools {
  import opened Api
  import opened Versions
  import opened Handlers
  import opened Operator
  import opened Lifecycle
  import opened Histories
  import opened Rounds
  import opened Control
  import opened CoreInvariant
  import opened Effects
  import opened Shapes
  import opened Steadiness
  import opened Capacity
  import opened CordonRestore
  import opened Labels
  import DR = DrainManagers

  predicate MarkedIn(pools: map<string, Pool>, p: string) { p in pools && pools[p].marked }

  predicate OnPool(nodes: map<string, Node>, lost: set<string>, nm: NodeMaintenance, p: string) {
    nm.node !in lost && nm.node in nodes && nodes[nm.node].pool == p
  }

  /** The request counts on the pool being paused. */
  predicate Relies(e: Entry, nodes: map<string, Node>, lost: set<string>, p: string) {
    IsLate(e) && !e.value.deleting && OnPool(nodes, lost, e.value, p)
  }

  /** The request will look after the pool before it goes. */
  predicate Minds(e: Entry, nodes: map<string, Node>, lost: set<string>, p: string) {
    HasLabel(e) && e.value.finalizer && OnPool(nodes, lost, e.value, p)
  }

  ghost predicate Unused(st: Store, nodes: map<string, Node>, lost: set<string>, p: string) {
    forall k :: !Relies(Cur(st, k), nodes, lost, p)
  }

  /** Every pool relied on is marked. */
  ghost predicate Safe(st: Store, nodes: map<string, Node>, lost: set<string>, pools: map<string, Pool>) {
    forall k, p :: Relies(Cur(st, k), nodes, lost, p) ==> MarkedIn(pools, p)
  }

  ghost predicate Minded(st: Store, nodes: map<string, Node>, lost: set<string>, p: string) {
    exists k :: Minds(Cur(st, k), nodes, lost, p)
  }

  ghost predicate MindedByOther(st: Store, nodes: map<string, Node>, lost: set<string>, p: string, me: Key) {
    exists k :: k != me && Minds(Cur(st, k), nodes, lost, p)
  }

  /** A marked pool has a request that will look after it exactly if it has not leaked. */
  ghost predicate NoLeak(st: Store, nodes: map<string, Node>, h: History, pools: map<string, Pool>) {
    forall p :: p !in h.lostPools ==>
      && (p in h.leaked ==> !Minded(st, nodes, h.lost, p))
      && (MarkedIn(pools, p) && p !in h.leaked ==> Minded(st, nodes, h.lost, p))
  }

  /** At the removal of the finalizer a marked pool is minded by another request exactly if the use
      check was not stale. */
  ghost predicate Leaving(st: Store, nodes: map<string, Node>, h: History, pools: map<string, Pool>, c: Ctl) {
    c.Busy? && c.pc == Clean(RemoveFinalizer) && MarkedIn(pools, c.node.pool) && c.node.pool !in h.lostPools ==>
      (MindedByOther(st, nodes, h.lost, c.node.pool, c.key) <==> !h.staleCheck)
  }

  /** The cache is in step, except for the pool whose change the reconciler waits to see. */
  ghost predicate Synced(pools: map<string, Pool>, pview: map<string, Pool>, c: Ctl) {
    forall p :: (c.Busy? && PoolWait(c.pc) && c.node.pool == p) || MarkedIn(pview, p) == MarkedIn(pools, p)
  }

  predicate MarkedPc(pc: PC) {
    pc == Pause(AwaitMark) || pc == Pause(UndoPatch) || pc == Start(SetCordon) || pc == Clean(CheckUse) ||
        pc == Clean(PatchUnpause)
  }

  predicate UnmarkedPc(pc: PC) { pc == Pause(PatchPool) || pc == Pause(AwaitUndo) || pc == Clean(AwaitUnmark) }

  predicate UnusedPc(pc: PC) { pc == Pause(AwaitMark) || pc == Pause(UndoPatch) || pc == Clean(PatchUnpause) }

  /** A statement at which nothing is known about the pool. */
  predicate Silent(pc: PC) { !MarkedPc(pc) && !UnmarkedPc(pc) && pc != Clean(RemoveFinalizer) }

  ghost predicate PoolAt(st: Store, nodes: map<string, Node>, lost: set<string>, pools: map<string, Pool>, c: Ctl) {
    c.Busy? ==>
      && (MarkedPc(c.pc) ==> MarkedIn(pools, c.node.pool))
      && (UnmarkedPc(c.pc) ==> !MarkedIn(pools, c.node.pool))
      && (UnusedPc(c.pc) ==> Unused(st, nodes, lost, c.node.pool))
  }

  ghost predicate Pausings(s: State) {
    && Synced(s.pools, s.pview, s.ctl)
    && PoolAt(s.st, s.nodes, s.h.lost, s.pools, s.ctl)
    && Safe(s.st, s.nodes, s.h.lost, s.pools)
  }

  ghost predicate Minding(s: State) {
    NoLeak(s.st, s.nodes, s.h, s.pools) && Leaving(s.st, s.nodes, s.h, s.pools, s.ctl)
  }

  /** A marked pool is paused. */
  ghost predicate Annotated(pools: map<string, Pool>) {
    forall p :: MarkedIn(pools, p) ==> pools[p].paused
  }

  /** It is known whether the pool about to be patched is paused already. */
  ghost predicate RaceNoted(pools: map<string, Pool>, raced: bool, c: Ctl) {
    c.Busy? && c.pc == Pause(PatchPool) ==> (raced <==> Paused(pools, c.node.pool))
  }

  ghost predicate PoolInv(s: State) {
    && Annotated(s.pools)
    && RaceNoted(s.pools, s.h.raced, s.ctl)
    && (s.openshift && !s.h.poolTimedOut ==> Pausings(s) && Minding(s))
  }

  // ------------------------------------------------------ others' new versions

  lemma AppendSafe(st: Store, nodes: map<string, Node>, lost: set<string>, pools: map<string, Pool>, k: Key, e: Entry)
    requires Safe(st, nodes, lost, pools) && Edge(Cur(st, k), e) && (IsLate(e) ==> IsLate(Cur(st, k)))
    ensures Safe(Append(st, k, e), nodes, lost, pools)
  {
    var st' := Append(st, k, e);
    forall j, p | Relies(Cur(st', j), nodes, lost, p) ensures MarkedIn(pools, p) {
      assert Relies(Cur(st, j), nodes, lost, p) by { if j != k { assert Cur(st', j) == Cur(st, j); } }
    }
  }

  lemma AppendUnused(st: Store, nodes: map<string, Node>, lost: set<string>, p: string, k: Key, e: Entry)
    requires Unused(st, nodes, lost, p) && Edge(Cur(st, k), e) && (IsLate(e) ==> IsLate(Cur(st, k)))
    ensures Unused(Append(st, k, e), nodes, lost, p)
  {
    var st' := Append(st, k, e);
    forall j ensures !Relies(Cur(st', j), nodes, lost, p) {
      assert !Relies(Cur(st, j), nodes, lost, p);
      if j != k { assert Cur(st', j) == Cur(st, j); }
    }
  }

  /** The same requests mind the same pools, but for pools whose nodes went. */
  ghost predicate SameMinders(st: Store, st': Store, nodes: map<string, Node>, nodes': map<string, Node>,
                              h: History, h': History) {
    forall k, p :: p !in h'.lostPools ==>
      (Minds(Cur(st, k), nodes, h.lost, p) <==> Minds(Cur(st', k), nodes', h'.lost, p))
  }

  lemma AppendMinds(st: Store, nodes: map<string, Node>, h: History, k: Key, e: Entry)
    requires Edge(Cur(st, k), e) && Gentle(Cur(st, k), e)
    ensures SameMinders(st, Append(st, k, e), nodes, nodes, h, h)
  {
    var st' := Append(st, k, e);
    forall j, p ensures Minds(Cur(st, j), nodes, h.lost, p) <==> Minds(Cur(st', j), nodes, h.lost, p) {
      if j != k { assert Cur(st', j) == Cur(st, j); }
    }
  }

  lemma SameMinded(s: State, s': State, p: string, me: Key)
    requires SameMinders(s.st, s'.st, s.nodes, s'.nodes, s.h, s'.h) && p !in s'.h.lostPools
    ensures Minded(s.st, s.nodes, s.h.lost, p) <==> Minded(s'.st, s'.nodes, s'.h.lost, p)
    ensures MindedByOther(s.st, s.nodes, s.h.lost, p, me) <==> MindedByOther(s'.st, s'.nodes, s'.h.lost, p, me)
  {
    hide Minds;
    assert forall k :: Minds(Cur(s.st, k), s.nodes, s.h.lost, p) <==> Minds(Cur(s'.st, k), s'.nodes, s'.h.lost, p);
  }

  /** A step that changes neither who minds what nor marks a pool. */
  lemma MindingOn(s: State, s': State)
    requires Minding(s) && SameMinders(s.st, s'.st, s.nodes, s'.nodes, s.h, s'.h)
    requires s.h.lostPools <= s'.h.lostPools && s'.h.leaked == s.h.leaked
    requires forall p :: MarkedIn(s'.pools, p) ==> MarkedIn(s.pools, p)
    requires s'.ctl.Busy? && s'.ctl.pc == Clean(RemoveFinalizer) ==>
          s'.ctl == s.ctl && s'.h.staleCheck == s.h.staleCheck
    ensures Minding(s')
  {
    hide Minded, MindedByOther, SameMinders;
    forall p | p !in s'.h.lostPools
      ensures Minded(s.st, s.nodes, s.h.lost, p) <==> Minded(s'.st, s'.nodes, s'.h.lost, p)
    {
      SameMinded(s, s', p, Key("", ""));
    }
    if s'.ctl.Busy? && s'.ctl.node.pool !in s'.h.lostPools { SameMinded(s, s', s'.ctl.node.pool, s'.ctl.key); }
  }

  lemma ForeignPools(s: State, s': State, k: Key, e: Entry)
    requires PoolInv(s) && s'.st == Append(s.st, k, e) && s'.nodes == s.nodes && s'.pools == s.pools
    requires s'.pview == s.pview
    requires s'.openshift == s.openshift && s'.h == s.h && s'.ctl == s.ctl
    requires Edge(Cur(s.st, k), e) && Gentle(Cur(s.st, k), e) && (IsLate(e) ==> IsLate(Cur(s.st, k)))
    ensures PoolInv(s')
  {
    hide Annotated, RaceNoted, Synced, Safe, Unused, Edge, Gentle, Minding, Append, SameMinders;
    if s.openshift && !s.h.poolTimedOut {
      AppendSafe(s.st, s.nodes, s.h.lost, s.pools, k, e);
      if s.ctl.Busy? && UnusedPc(s.ctl.pc) { AppendUnused(s.st, s.nodes, s.h.lost, s.ctl.node.pool, k, e); }
      AppendMinds(s.st, s.nodes, s.h, k, e);
      MindingOn(s, s');
    }
  }

  lemma EditPools(s: State, e: Edit)
    requires Core(s) && PoolInv(s) && CanEdit(s, e)
    ensures PoolInv(DoEdit(s, e))
  {
    hide Core, PoolInv, Edited, Gentle, Edge;
    EditFacts(s, e);
    ForeignPools(s, DoEdit(s, e), e.k, Edited(s, e));
  }

  lemma WriteOnePools(s: State, k: Key, ok: bool)
    requires Core(s) && PoolInv(s) && CanSchedule(s, WriteOne(k, ok))
    ensures PoolInv(WriteScheduled(s, k, ok))
  {
    hide Core, PoolInv, Edge, Gentle;
    if ok && s.sched.todo[k] == Last(s.st, k) && Cur(s.st, k).Some? {
      WriteOneFacts(s, k);
      ForeignPools(s, WriteScheduled(s, k, ok), k, Some(WithReason(Cur(s.st, k).value, Scheduled)));
    } else {
      SamePools(s, WriteScheduled(s, k, ok));
    }
  }

  lemma SamePools(s: State, s': State)
    requires PoolInv(s) && s'.st == s.st && s'.nodes == s.nodes && s'.pools == s.pools && s'.pview == s.pview
    requires s'.openshift == s.openshift && s'.ctl == s.ctl
    requires s'.h.lost == s.h.lost && s'.h.lostPools == s.h.lostPools && s'.h.poolTimedOut == s.h.poolTimedOut
    requires s'.h.staleCheck == s.h.staleCheck && s'.h.leaked == s.h.leaked && s'.h.raced == s.h.raced
    ensures PoolInv(s')
  {
    hide Annotated, RaceNoted, Synced, Safe, PoolAt;
  }

  lemma TurnPools(s: State, t: Turn)
    requires Core(s) && PoolInv(s) && CanSchedule(s, t)
    ensures PoolInv(DoSchedule(s, t))
  {
    hide Core, PoolInv, WriteScheduled;
    match t
    case WriteOne(k, ok) => WriteOnePools(s, k, ok);
    case _ => SamePools(s, DoSchedule(s, t));
  }

  lemma DeliverPools(s: State, k: Key)
    requires PoolInv(s) && CanRelay(s, Deliver(k))
    ensures PoolInv(DoRelay(s, Deliver(k)))
  {
    hide Annotated, RaceNoted, Synced;
    assert forall j :: Cur(Advance(s.st, k), j) == Cur(s.st, j);
  }

  lemma DeliverPoolPools(s: State, p: string)
    requires PoolInv(s) && p in s.pools
    ensures PoolInv(DoRelay(s, DeliverPool(p)))
  {
    hide Annotated, RaceNoted, Safe, PoolAt, Minding;
    SameMinding(s, DoRelay(s, DeliverPool(p)));
  }

  lemma SameMinding(s: State, s': State)
    requires s'.st == s.st && s'.nodes == s.nodes && s'.pools == s.pools && s'.ctl == s.ctl
    requires s'.h == s.h
    ensures Minding(s') == Minding(s)
  {
  }

  lemma RestartPools(s: State)
    requires PoolInv(s)
    ensures PoolInv(DoRelay(s, Restart))
  {
    hide Annotated;
    assert forall j :: Cur(CatchUp(s.st), j) == Cur(s.st, j);
  }

  lemma RelayPools(s: State, r: Relay)
    requires PoolInv(s) && CanRelay(s, r)
    ensures PoolInv(DoRelay(s, r))
  {
    hide PoolInv;
    match r
    case Deliver(k) => DeliverPools(s, k);
    case DeliverPool(p) => DeliverPoolPools(s, p);
    case Fire(k) => SamePools(s, DoRelay(s, Fire(k)));
    case Restart => RestartPools(s);
  }

  // ---------------------------------------------------------- nodes and pools

  /** Nodes that stay keep their pool, nodes that do not have it noted, and no node of a request
      under maintenance is new. */
  ghost predicate NodesOn(st: Store, nodes: map<string, Node>, nodes': map<string, Node>, h: History, h': History) {
    && h.lost <= h'.lost && h.lostPools <= h'.lostPools
    && (forall n :: n in nodes && n !in h'.lost ==> n in nodes' && nodes'[n].pool == nodes[n].pool)
    && (forall n :: n in nodes && n in h'.lost && n !in h.lost ==> nodes[n].pool in h'.lostPools)
    && (forall k :: IsUnder(Cur(st, k)) && Cur(st, k).value.node !in h'.lost ==> Cur(st, k).value.node in nodes)
  }

  lemma NodesOnMinders(st: Store, nodes: map<string, Node>, nodes': map<string, Node>, h: History, h': History)
    requires LogsOk(st) && NodesOn(st, nodes, nodes', h, h')
    ensures SameMinders(st, st, nodes, nodes', h, h')
  {
    forall k, p | p !in h'.lostPools
      ensures Minds(Cur(st, k), nodes, h.lost, p) <==> Minds(Cur(st, k), nodes', h'.lost, p)
    {
      CurOk(st, k);
    }
  }

  lemma NodesOnPools(s: State, s': State)
    requires LogsOk(s.st) && PoolInv(s) && NodesOn(s.st, s.nodes, s'.nodes, s.h, s'.h)
    requires s'.st == s.st && s'.pools == s.pools && s'.pview == s.pview && s'.openshift == s.openshift
    requires s'.ctl == s.ctl
    requires s'.h.poolTimedOut == s.h.poolTimedOut && s'.h.staleCheck == s.h.staleCheck && s'.h.raced == s.h.raced
    requires s'.h.leaked == s.h.leaked
    ensures PoolInv(s')
  {
    hide Annotated, RaceNoted, Synced, Minding, LogsOk;
    if s.openshift && !s.h.poolTimedOut {
      assert forall k, p :: Relies(Cur(s.st, k), s'.nodes, s'.h.lost, p) ==> Relies(Cur(s.st, k), s.nodes, s.h.lost, p);
      NodesOnMinders(s.st, s.nodes, s'.nodes, s.h, s'.h);
      MindingOn(s, s');
    }
  }

  lemma ChangeNodesOn(s: State, c: Change)
    requires CapacityInv(s) && CanChange(s, c)
    ensures NodesOn(s.st, s.nodes, DoChange(s, c).nodes, s.h, DoChange(s, c).h)
  {
    hide CapacityInv, CanEditPool;
    UnderExists(s);
  }

  lemma UnderExists(s: State)
    requires CapacityInv(s)
    ensures forall k :: IsUnder(Cur(s.st, k)) && Cur(s.st, k).value.node !in s.h.lost ==>
          Cur(s.st, k).value.node in s.nodes
  {
    hide CapacityInv;
    forall k | IsUnder(Cur(s.st, k)) && Cur(s.st, k).value.node !in s.h.lost
      ensures Cur(s.st, k).value.node in s.nodes
    {
      KeptExists(s, k);
    }
  }

  lemma EditedPool(pools: map<string, Pool>, p: string, pool: Pool)
    requires Annotated(pools) && CanEditPool(pools, p, pool)
    ensures Annotated(pools[p := pool])
    ensures forall q :: MarkedIn(pools[p := pool], q) == MarkedIn(pools, q)
  {
  }

  lemma EditedRace(s: State, p: string, pool: Pool)
    requires RaceNoted(s.pools, s.h.raced, s.ctl)
    ensures var s' := DoEditPool(s, p, pool); RaceNoted(s'.pools, s'.h.raced, s'.ctl)
  {
  }

  lemma MarksPausings(s: State, s': State)
    requires Pausings(s) && s'.st == s.st && s'.nodes == s.nodes && s'.ctl == s.ctl && s'.pview == s.pview
    requires s'.h.lost == s.h.lost
    requires forall q :: MarkedIn(s'.pools, q) == MarkedIn(s.pools, q)
    ensures Pausings(s')
  {
    hide Unused, Relies;
  }

  lemma EditPoolPools(s: State, p: string, pool: Pool)
    requires PoolInv(s) && CanEditPool(s.pools, p, pool)
    ensures PoolInv(DoEditPool(s, p, pool))
  {
    hide Minding, Pausings, Annotated, RaceNoted, MarkedIn;
    var s' := DoEditPool(s, p, pool);
    EditedPool(s.pools, p, pool);
    EditedRace(s, p, pool);
    if s.openshift && !s.h.poolTimedOut {
      MarksPausings(s, s');
      PoolsMinding(s, s');
    }
  }

  lemma PoolsMinding(s: State, s': State)
    requires Minding(s) && s'.st == s.st && s'.nodes == s.nodes && s'.ctl == s.ctl
    requires forall q :: MarkedIn(s'.pools, q) == MarkedIn(s.pools, q)
    requires s'.h == s.h.(raced := s'.h.raced)
    ensures Minding(s')
  {
  }

  lemma ChangePools(s: State, c: Change)
    requires Core(s) && CapacityInv(s) && PoolInv(s) && CanChange(s, c)
    ensures PoolInv(DoChange(s, c))
  {
    hide CapacityInv, PoolInv, NodesOn, DoEditPool, CanEditPool, LogsOk, UidsOk, SchedOk, CtlOk, DR.DrainsInv;
    if c.EditPool? {
      EditPoolPools(s, c.name, c.edited);
    } else {
      ChangeNodesOn(s, c);
      NodesOnPools(s, DoChange(s, c));
    }
  }

  // --------------------------------------------------------- the reconciler

  /** The program moves to a statement that assumes nothing about the pool. */
  predicate Quiet(openshift: bool, next: Next) { openshift && next.To? ==> Silent(next.pc) && !PoolWait(next.pc) }

  predicate QuietAction(openshift: bool, a: Action) {
    match a
    case Go(next) => Quiet(openshift, next)
    case Write(_, next) => Quiet(openshift, next)
    case TryWrite(_, next) => Quiet(openshift, next)
    case Mark(_, next) => Quiet(openshift, next)
    case Look => true
  }

  lemma CodeQuiet(pc: PC, c: NodeMaintenance, node: Node, openshift: bool, choice: nat)
    ensures QuietAction(openshift, Code(pc, c, node, openshift, choice))
    ensures Code(pc, c, node, openshift, choice) != Look ==> !PoolWait(pc)
  {
  }

  /** A step of the reconciler that changes neither requests nor nodes nor pools. */
  lemma MovePools(s: State, s': State)
    requires PoolInv(s) && s'.st == s.st && s'.nodes == s.nodes && s'.pools == s.pools && s'.pview == s.pview
    requires s'.openshift == s.openshift && s'.h.lost == s.h.lost && s'.h.lostPools == s.h.lostPools
    requires s.h.poolTimedOut ==> s'.h.poolTimedOut
    requires s'.h.leaked == s.h.leaked
    requires RaceNoted(s'.pools, s'.h.raced, s'.ctl)
    requires
      s.openshift && !s'.h.poolTimedOut ==>
        && Synced(s'.pools, s'.pview, s'.ctl)
        && PoolAt(s'.st, s'.nodes, s'.h.lost, s'.pools, s'.ctl)
        && Leaving(s'.st, s'.nodes, s'.h, s'.pools, s'.ctl)
    ensures PoolInv(s')
  {
    hide Annotated, Safe, Synced, PoolAt, Leaving, RaceNoted;
    if s.openshift && !s'.h.poolTimedOut { SameNoLeak(s, s'); }
  }

  lemma SameNoLeak(s: State, s': State)
    requires NoLeak(s.st, s.nodes, s.h, s.pools) && s'.st == s.st && s'.nodes == s.nodes && s'.pools == s.pools
    requires s'.h.lost == s.h.lost && s'.h.lostPools == s.h.lostPools && s'.h.leaked == s.h.leaked
    ensures NoLeak(s'.st, s'.nodes, s'.h, s'.pools)
  {
    hide Minded;
  }

  lemma QuietPools(s: State, s': State)
    requires PoolInv(s) && s.ctl.Busy? && !PoolWait(s.ctl.pc)
    requires s'.ctl.Busy? ==> s'.ctl.pc != Pause(PatchPool)
    requires s'.ctl.Busy? && s.openshift ==> Silent(s'.ctl.pc) && !PoolWait(s'.ctl.pc)
    requires s'.st == s.st && s'.nodes == s.nodes && s'.pools == s.pools && s'.pview == s.pview
    requires s'.openshift == s.openshift
    requires s'.h == s.h
    ensures PoolInv(s')
  {
    hide Annotated, Safe, NoLeak;
    MovePools(s, s');
  }

  lemma QuietFollow(s: State, next: Next)
    requires PoolInv(s) && s.ctl.Busy? && !PoolWait(s.ctl.pc) && Quiet(s.openshift, next)
    requires next != To(Pause(PatchPool))
    ensures PoolInv(Follow(s, next))
  {
    hide PoolInv;
    QuietPools(s, Follow(s, next));
  }

  // -- writes

  lemma CommitSafe(s: State, obj: NodeMaintenance)
    requires Core(s) && LabelInv(s) && Pausings(s) && s.ctl.Busy? && Current(s)
    requires Effect(s.ctl.pc, s.ctl.nm, s.ctl.node, obj)
    ensures Safe(Append(s.st, s.ctl.key, Stored(obj)), s.nodes, s.h.lost, s.pools)
  {
    hide LogsOk, UidsOk, SchedOk, DR.DrainsInv, LabelsSeen, Anchored, CopyLives, LabelHeld, PoolsNoted, Synced,
         Effect, Unused;
    var c := s.ctl;
    var st' := Append(s.st, c.key, Stored(obj));
    EffectSame(c, obj);
    forall j, p | Relies(Cur(st', j), s.nodes, s.h.lost, p) ensures MarkedIn(s.pools, p) {
      if j != c.key {
        assert Relies(Cur(s.st, j), s.nodes, s.h.lost, p);
      } else if c.pc != Start(SetCordon) {
        StaysLate(c, obj);
        assert Relies(Cur(s.st, j), s.nodes, s.h.lost, p);
      }
    }
  }

  /** Only the label starts the minding, and only the removal of the finalizer ends it. */
  lemma CommitMinds(s: State, obj: NodeMaintenance)
    requires Core(s) && SteadyInv(s) && s.ctl.Busy? && Current(s) && Effect(s.ctl.pc, s.ctl.nm, s.ctl.node, obj)
    requires s.ctl.pc != Clean(RemoveFinalizer) && s.ctl.pc != Pause(SetLabel)
    ensures SameMinders(s.st, Append(s.st, s.ctl.key, Stored(obj)), s.nodes, s.nodes, s.h, s.h)
  {
    hide Core, SteadyInv, Effect, Stored, Minds;
    var c := s.ctl;
    var st' := Append(s.st, c.key, Stored(obj));
    forall j, p ensures Minds(Cur(s.st, j), s.nodes, s.h.lost, p) <==> Minds(Cur(st', j), s.nodes, s.h.lost, p) {
      if j != c.key { assert Log(st', j) == Log(s.st, j); } else { StillMinds(s, obj, p); }
    }
  }

  lemma StillMinds(s: State, obj: NodeMaintenance, p: string)
    requires Core(s) && SteadyInv(s) && s.ctl.Busy? && Current(s) && Effect(s.ctl.pc, s.ctl.nm, s.ctl.node, obj)
    requires s.ctl.pc != Clean(RemoveFinalizer) && s.ctl.pc != Pause(SetLabel)
    ensures Minds(Cur(s.st, s.ctl.key), s.nodes, s.h.lost, p) <==> Minds(Stored(obj), s.nodes, s.h.lost, p)
  {
    hide LogsOk, UidsOk, SchedOk, DR.DrainsInv;
    var c := s.ctl;
    assert SteadyLog(Log(s.st, c.key), Seen(s.st, c.key), s.h.lost);
    assert HeldAt(Log(s.st, c.key), s.h.lost, c.at);
  }

  /** The label makes the request mind its pool, and changes nothing else. */
  lemma LabelMinds(s: State, obj: NodeMaintenance)
    requires Core(s) && LabelInv(s) && s.ctl.Busy? && Current(s) && Effect(s.ctl.pc, s.ctl.nm, s.ctl.node, obj)
    requires s.ctl.pc == Pause(SetLabel) && NoLeak(s.st, s.nodes, s.h, s.pools)
    ensures NoLeak(Append(s.st, s.ctl.key, Stored(obj)), s.nodes, AfterWrite(s, obj), s.pools)
  {
    hide LogsOk, UidsOk, SchedOk, DR.DrainsInv, LabelsSeen, Anchored, CopyLives, LabelHeld, PoolsNoted;
    var c := s.ctl;
    var st' := Append(s.st, c.key, Stored(obj));
    forall p | p !in s.h.lostPools
      ensures Minded(s.st, s.nodes, s.h.lost, p) ==> Minded(st', s.nodes, s.h.lost, p)
      ensures p != c.node.pool && Minded(st', s.nodes, s.h.lost, p) ==> Minded(s.st, s.nodes, s.h.lost, p)
      ensures p == c.node.pool ==> Minded(st', s.nodes, s.h.lost, p)
    {
      OnePoolMinded(s, obj, p);
    }
  }

  lemma OnePoolMinded(s: State, obj: NodeMaintenance, p: string)
    requires Core(s) && LabelInv(s) && s.ctl.Busy? && Current(s) && Effect(s.ctl.pc, s.ctl.nm, s.ctl.node, obj)
    requires s.ctl.pc == Pause(SetLabel) && p !in s.h.lostPools
    ensures
      var st' := Append(s.st, s.ctl.key, Stored(obj));
      && (Minded(s.st, s.nodes, s.h.lost, p) ==> Minded(st', s.nodes, s.h.lost, p))
      && (p != s.ctl.node.pool && Minded(st', s.nodes, s.h.lost, p) ==> Minded(s.st, s.nodes, s.h.lost, p))
      && (p == s.ctl.node.pool ==> Minded(st', s.nodes, s.h.lost, p))
  {
    hide Core, LabelInv, Effect, Minds, Append, Stored;
    var c := s.ctl;
    var st' := Append(s.st, c.key, Stored(obj));
    OwnMinding(s, obj, p);
    if Minded(s.st, s.nodes, s.h.lost, p) {
      var k :| Minds(Cur(s.st, k), s.nodes, s.h.lost, p);
      assert Minds(Cur(st', k), s.nodes, s.h.lost, p);
    }
    if p != c.node.pool && Minded(st', s.nodes, s.h.lost, p) {
      var k :| Minds(Cur(st', k), s.nodes, s.h.lost, p);
      assert Minds(Cur(s.st, k), s.nodes, s.h.lost, p);
    }
  }

  lemma OwnMinding(s: State, obj: NodeMaintenance, p: string)
    requires Core(s) && LabelInv(s) && s.ctl.Busy? && Current(s) && Effect(s.ctl.pc, s.ctl.nm, s.ctl.node, obj)
    requires s.ctl.pc == Pause(SetLabel) && p !in s.h.lostPools
    ensures
      var st' := Append(s.st, s.ctl.key, Stored(obj));
      && (p == s.ctl.node.pool <==> Minds(Cur(st', s.ctl.key), s.nodes, s.h.lost, p))
      && (Minds(Cur(s.st, s.ctl.key), s.nodes, s.h.lost, p) ==> p == s.ctl.node.pool)
      && (forall k :: k != s.ctl.key ==> Cur(st', k) == Cur(s.st, k))
  {
    hide LogsOk, UidsOk, SchedOk, DR.DrainsInv, LabelsSeen, Anchored, CopyLives, LabelHeld, PoolsNoted;
    CopyFacts(s);
    var st' := Append(s.st, s.ctl.key, Stored(obj));
    assert forall k :: k != s.ctl.key ==> Log(st', k) == Log(s.st, k);
  }

  /** The finalizer's removal ends the request's minding of its pool, and changes nothing else. */
  lemma RemoveMinds(s: State, obj: NodeMaintenance)
    requires Core(s) && LabelInv(s) && Minding(s) && s.ctl.Busy? && Current(s)
    requires s.ctl.pc == Clean(RemoveFinalizer) && Effect(s.ctl.pc, s.ctl.nm, s.ctl.node, obj)
    ensures NoLeak(Append(s.st, s.ctl.key, Stored(obj)), s.nodes, AfterWrite(s, obj), s.pools)
  {
    hide LogsOk, UidsOk, SchedOk, DR.DrainsInv, LabelsSeen, Anchored, CopyLives, LabelHeld, PoolsNoted;
    var c := s.ctl;
    var st' := Append(s.st, c.key, Stored(obj));
    forall p | p !in s.h.lostPools
      ensures Minded(st', s.nodes, s.h.lost, p) <==> MindedByOther(s.st, s.nodes, s.h.lost, p, c.key)
      ensures p != c.node.pool ==>
                (Minded(s.st, s.nodes, s.h.lost, p) <==> MindedByOther(s.st, s.nodes, s.h.lost, p, c.key))
      ensures MindedByOther(s.st, s.nodes, s.h.lost, p, c.key) ==> Minded(s.st, s.nodes, s.h.lost, p)
    {
      OneLeft(s, obj, p);
    }
  }

  lemma OneLeft(s: State, obj: NodeMaintenance, p: string)
    requires Core(s) && LabelInv(s) && s.ctl.Busy? && Current(s) && p !in s.h.lostPools
    requires s.ctl.pc == Clean(RemoveFinalizer) && Effect(s.ctl.pc, s.ctl.nm, s.ctl.node, obj)
    ensures
      var st', others := Append(s.st, s.ctl.key, Stored(obj)), MindedByOther(s.st, s.nodes, s.h.lost, p, s.ctl.key);
      && (Minded(st', s.nodes, s.h.lost, p) <==> others)
      && (p != s.ctl.node.pool ==> (Minded(s.st, s.nodes, s.h.lost, p) <==> others))
      && (others ==> Minded(s.st, s.nodes, s.h.lost, p))
  {
    hide LogsOk, UidsOk, SchedOk, DR.DrainsInv, LabelsSeen, Anchored, CopyLives, LabelHeld, PoolsNoted;
    var c := s.ctl;
    var st' := Append(s.st, c.key, Stored(obj));
    assert !Minds(Cur(st', c.key), s.nodes, s.h.lost, p);
    assert p != c.node.pool ==> !Minds(Cur(s.st, c.key), s.nodes, s.h.lost, p);
    assert forall k :: k != c.key ==> Cur(st', k) == Cur(s.st, k);
    if MindedByOther(s.st, s.nodes, s.h.lost, p, c.key) {
      var k :| k != c.key && Minds(Cur(s.st, k), s.nodes, s.h.lost, p);
      assert Minds(Cur(st', k), s.nodes, s.h.lost, p);
    }
  }

  lemma CommitMinding(s: State, s': State, obj: NodeMaintenance)
    requires Core(s) && SteadyInv(s) && LabelInv(s) && Minding(s) && s.ctl.Busy? && Current(s)
    requires Effect(s.ctl.pc, s.ctl.nm, s.ctl.node, obj)
    requires s'.st == Append(s.st, s.ctl.key, Stored(obj)) && s'.nodes == s.nodes && s'.pools == s.pools
    requires s'.h == AfterWrite(s, obj)
    requires s'.ctl.Busy? ==> s'.ctl.pc != Clean(RemoveFinalizer)
    ensures Minding(s')
  {
    hide Core, SteadyInv, LabelInv, Effect, NoLeak, Append, Stored, SameMinders, AfterWrite;
    if s.ctl.pc == Clean(RemoveFinalizer) {
      RemoveMinds(s, obj);
    } else if s.ctl.pc == Pause(SetLabel) {
      LabelMinds(s, obj);
    } else {
      CommitMinds(s, obj);
      MindersHistory(s.st, s'.st, s.nodes, s.h, s'.h);
      KeepsLeaked(s, obj);
      MindingOn(s, s');
    }
  }

  lemma KeepsLeaked(s: State, obj: NodeMaintenance)
    requires s.ctl.Busy? && s.ctl.pc != Clean(RemoveFinalizer) && s.ctl.pc != Pause(SetLabel)
    ensures AfterWrite(s, obj).leaked == s.h.leaked
  {
  }

  lemma MindersHistory(st: Store, st': Store, nodes: map<string, Node>, h: History, h': History)
    requires SameMinders(st, st', nodes, nodes, h, h) && h'.lost == h.lost && h'.lostPools == h.lostPools
    ensures SameMinders(st, st', nodes, nodes, h, h')
  {
  }

  lemma LandPools(s: State, s': State)
    requires PoolInv(s) && (s.ctl.Busy? ==> !PoolWait(s.ctl.pc))
    requires s'.ctl.Busy? ==> s'.ctl.pc != Pause(PatchPool)
    requires s'.ctl.Busy? && s.openshift ==> Silent(s'.ctl.pc) && !PoolWait(s'.ctl.pc)
    requires s'.pools == s.pools && s'.pview == s.pview && s'.openshift == s.openshift
    requires s'.h.poolTimedOut == s.h.poolTimedOut
    requires s.openshift && !s.h.poolTimedOut ==> Safe(s'.st, s'.nodes, s'.h.lost, s'.pools) && Minding(s')
    ensures PoolInv(s')
  {
    hide Annotated, Safe, Minding;
  }

  lemma CommitPools(s: State, obj: NodeMaintenance, next: Next)
    requires Core(s) && SteadyInv(s) && LabelInv(s) && PoolInv(s) && s.ctl.Busy? && Current(s) && !PoolWait(s.ctl.pc)
    requires Effect(s.ctl.pc, s.ctl.nm, s.ctl.node, obj) && Quiet(s.openshift, next) && next != To(Pause(PatchPool))
    ensures PoolInv(Follow(Commit(s, obj), next))
  {
    hide Core, SteadyInv, LabelInv, Effect, Annotated, RaceNoted, Pausings, Minding, Safe, Append, Stored,
         Follow, Commit, AfterWrite;
    var s' := Follow(Commit(s, obj), next);
    CommitShape(s, obj, next);
    if s.openshift && !s.h.poolTimedOut {
      CommitSafe(s, obj);
      CommitMinding(s, s', obj);
    }
    LandPools(s, s');
  }

  // -- flips and the node

  lemma FlipPools(s: State, value: bool, next: Next)
    requires Core(s) && CapacityInv(s) && PoolInv(s) && s.ctl.Busy? && s.ctl.nm.node in s.nodes && !PoolWait(s.ctl.pc)
    requires Quiet(s.openshift, next) && next.To? && next != To(Pause(PatchPool))
    ensures PoolInv(Follow(Flip(s, value), next))
  {
    hide CapacityInv, PoolInv, NodesOn, LogsOk, UidsOk, SchedOk, CtlOk, DR.DrainsInv;
    var s1 := s.(nodes := Flip(s, value).nodes);
    FlipNodesOn(s, value);
    NodesOnPools(s, s1);
    QuietPools(s1, Follow(Flip(s, value), next));
  }

  lemma FlipNodesOn(s: State, value: bool)
    requires CapacityInv(s) && s.ctl.Busy? && s.ctl.nm.node in s.nodes
    ensures NodesOn(s.st, s.nodes, Flip(s, value).nodes, s.h, s.h)
  {
    hide CapacityInv;
    UnderExists(s);
  }

  lemma LookUpPools(s: State)
    requires Core(s) && CapacityInv(s) && PoolInv(s) && s.ctl.Busy? && s.ctl.pc == Top(GetNode)
    ensures PoolInv(LookUpNode(s))
  {
    hide CapacityInv, PoolInv, LogsOk, UidsOk, SchedOk, CtlOk, DR.DrainsInv;
    if s.ctl.nm.node in s.nodes {
      QuietPools(s, LookUpNode(s));
    } else {
      var s1 := s.(h := LookUpNode(s).h);
      UnderExists(s);
      NodesOnPools(s, s1);
      QuietPools(s1, LookUpNode(s));
    }
  }

  // -- pausing

  lemma SyncedAt(s: State, p: string)
    requires PoolInv(s) && s.openshift && !s.h.poolTimedOut && s.ctl.Busy? && !PoolWait(s.ctl.pc)
    ensures ViewMarked(s, p) == Marked(s, p)
  {
    assert MarkedIn(s.pview, p) == MarkedIn(s.pools, p);
  }

  lemma ReadPoolPools(s: State)
    requires PoolInv(s) && s.ctl.Busy? && s.ctl.pc == Pause(ReadPool)
    ensures PoolInv(PauseLook(s))
  {
    hide PoolInv;
    var s1 := NoteRace(s, s.ctl.node.pool);
    NotedPools(s, s1);
    AfterReadPools(s1);
  }

  lemma NotedPools(s: State, s1: State)
    requires PoolInv(s) && s.ctl.Busy? && s.ctl.pc == Pause(ReadPool) && s1 == NoteRace(s, s.ctl.node.pool)
    ensures PoolInv(s1)
  {
    hide Annotated, Safe, NoLeak, Synced, PoolAt;
    MovePools(s, s1);
  }

  lemma AfterReadPools(s: State)
    requires PoolInv(s) && s.ctl.Busy? && s.ctl.pc == Pause(ReadPool)
    requires (s.h.raced <==> Paused(s.pools, s.ctl.node.pool))
    ensures PoolInv(Follow(s, AfterReadPool(s)))
  {
    hide Annotated, Safe, NoLeak, Unused;
    if s.openshift && !s.h.poolTimedOut { SyncedAt(s, s.ctl.node.pool); }
    MovePools(s, Follow(s, AfterReadPool(s)));
  }

  /** The wait is over: the cache is in step again. */
  lemma AwaitMarkPools(s: State)
    requires PoolInv(s) && s.ctl.Busy? && s.ctl.pc == Pause(AwaitMark) && CtlReady(s)
    ensures PoolInv(Follow(s, AfterMark(s)))
  {
    hide Annotated, Safe, NoLeak, Unused;
    MovePools(s, Follow(s, AfterMark(s)));
  }

  lemma AwaitUndoPools(s: State)
    requires PoolInv(s) && s.ctl.Busy? && s.ctl.pc == Pause(AwaitUndo) && CtlReady(s)
    ensures PoolInv(Finish(s, Later))
  {
    hide Annotated, Safe, NoLeak, Unused;
    MovePools(s, Finish(s, Later));
  }

  lemma AwaitUnmarkPools(s: State)
    requires PoolInv(s) && s.ctl.Busy? && s.ctl.pc == Clean(AwaitUnmark) && CtlReady(s)
    ensures PoolInv(Follow(s, To(Clean(RemoveFinalizer))))
  {
    hide Annotated, Safe, NoLeak, Unused;
    MovePools(s, Follow(s, To(Clean(RemoveFinalizer))));
  }

  lemma ReadMarkPools(s: State)
    requires PoolInv(s) && s.ctl.Busy? && s.ctl.pc == Clean(ReadMark)
    ensures PoolInv(Follow(s, AfterReadMark(s)))
  {
    hide Annotated, Safe, NoLeak, Unused;
    if s.openshift && !s.h.poolTimedOut { SyncedAt(s, s.ctl.node.pool); }
    MovePools(s, Follow(s, AfterReadMark(s)));
  }

  lemma FailPools(s: State)
    requires PoolInv(s) && s.ctl.Busy?
    ensures PoolInv(CtlFail(s))
  {
    hide Annotated, Safe, NoLeak, Unused, Follow;
    FollowKeeps(s, To(Top(Dispatch)));
    MovePools(s, CtlFail(s));
  }

  /** The request on whose behalf a pool is paused exists, with finalizer and label. */
  lemma PatchMinded(s: State)
    requires Core(s) && SteadyInv(s) && LabelInv(s) && s.ctl.Busy? && s.ctl.pc == Pause(PatchPool)
    requires s.ctl.node.pool !in s.h.lostPools
    ensures Minds(Cur(s.st, s.ctl.key), s.nodes, s.h.lost, s.ctl.node.pool)
  {
    hide UidsOk, SchedOk, DR.DrainsInv, LabelsSeen, CopyLives, LabelHeld, PoolsNoted;
    var c := s.ctl;
    var log := Log(s.st, c.key);
    assert SteadyLog(log, Seen(s.st, c.key), s.h.lost);
    FinalizerStays(log, Seen(s.st, c.key), s.h.lost, c.at, |log| - 1);
    AliveProgress(log, c.at, |log| - 1);
  }

  /** Marking a pool that is unmarked, hence relied on by nobody. */
  lemma MarkPools(pools: map<string, Pool>, pview: map<string, Pool>, st: Store, nodes: map<string, Node>,
                  lost: set<string>, c: Ctl)
    requires c.Busy? && c.pc == Pause(PatchPool) && c.node.pool in pools
    requires Synced(pools, pview, c) && PoolAt(st, nodes, lost, pools, c) && Safe(st, nodes, lost, pools)
    ensures
      var p := c.node.pool;
      var pools', c' := pools[p := pools[p].(paused := true, marked := true)], c.(pc := Pause(AwaitMark));
      Synced(pools', pview, c') && PoolAt(st, nodes, lost, pools', c') && Safe(st, nodes, lost, pools')
  {
    hide Relies;
  }

  lemma MarkMinding(st: Store, nodes: map<string, Node>, h: History, pools: map<string, Pool>, p: string)
    requires NoLeak(st, nodes, h, pools) && p in pools && (p !in h.lostPools ==> Minded(st, nodes, h.lost, p))
    ensures NoLeak(st, nodes, h, pools[p := pools[p].(paused := true, marked := true)])
  {
    hide Minded;
  }

  /** Unmarking a pool nobody relies on. */
  lemma UnmarkPools(pools: map<string, Pool>, pview: map<string, Pool>, st: Store, nodes: map<string, Node>,
                    lost: set<string>, c: Ctl, pc: PC)
    requires c.Busy? && UnusedPc(c.pc) && c.node.pool in pools && PoolWait(pc) && UnmarkedPc(pc)
    requires !PoolWait(c.pc) && Synced(pools, pview, c) && PoolAt(st, nodes, lost, pools, c)
    requires Safe(st, nodes, lost, pools)
    ensures
      var p := c.node.pool;
      var pools', c' := pools[p := pools[p].(paused := false, marked := false)], c.(pc := pc);
      Synced(pools', pview, c') && PoolAt(st, nodes, lost, pools', c') && Safe(st, nodes, lost, pools')
  {
    hide Relies;
  }

  lemma UnmarkMinding(st: Store, nodes: map<string, Node>, h: History, pools: map<string, Pool>, p: string)
    requires NoLeak(st, nodes, h, pools) && p in pools
    ensures NoLeak(st, nodes, h, pools[p := pools[p].(paused := false, marked := false)])
  {
    hide Minded;
  }

  lemma PatchOnPools(s: State)
    requires Core(s) && SteadyInv(s) && LabelInv(s) && PoolInv(s) && s.ctl.Busy? && s.ctl.pc == Pause(PatchPool)
    ensures PoolInv(Patch(s, true, Pause(AwaitMark)))
  {
    hide Core, SteadyInv, LabelInv, Synced, PoolAt, Safe, NoLeak;
    var p := s.ctl.node.pool;
    if p !in s.pools {
      QuietFollow(s, End(Retry));
    } else if s.openshift && !s.h.poolTimedOut {
      MarkPools(s.pools, s.pview, s.st, s.nodes, s.h.lost, s.ctl);
      if p !in s.h.lostPools { PatchMinded(s); }
      MarkMinding(s.st, s.nodes, s.h, s.pools, p);
    }
  }

  lemma PatchOffPools(s: State, pc: PC)
    requires PoolInv(s) && s.ctl.Busy? && UnusedPc(s.ctl.pc) && !PoolWait(s.ctl.pc)
    requires pc == Pause(AwaitUndo) || pc == Clean(AwaitUnmark)
    ensures PoolInv(Patch(s, false, pc))
  {
    hide Synced, PoolAt, Safe, NoLeak;
    var p := s.ctl.node.pool;
    if p !in s.pools {
      QuietFollow(s, End(Retry));
    } else if s.openshift && !s.h.poolTimedOut {
      UnmarkPools(s.pools, s.pview, s.st, s.nodes, s.h.lost, s.ctl, pc);
      UnmarkMinding(s.st, s.nodes, s.h, s.pools, p);
    }
  }

  // -- the use check

  /** A request that relies on a pool shows up in the check, unless it is the one checking, which
      is being deleted. */
  lemma CheckFinds(s: State, k: Key)
    requires Core(s) && SteadyInv(s) && LabelInv(s) && s.openshift && s.ctl.Busy? && s.ctl.nm.deleting
    requires Relies(Cur(s.st, k), s.nodes, s.h.lost, s.ctl.node.pool)
    ensures UsedIn(s, s.ctl.node.pool, s.ctl.key, false)
  {
    hide UidsOk, SchedOk, DR.DrainsInv, LabelHeld, PoolsNoted, CtlOk, Anchored, NodeCopy;
    if k == s.ctl.key { LivesLate(s); }
    var log, seen := Log(s.st, k), Seen(s.st, k);
    assert SteadyLog(log, seen, s.h.lost);
    AliveProgress(log, seen, |log| - 1);
    assert HasLabel(View(s.st, k));
    assert k in s.st.logs;
  }

  lemma CheckUnused(s: State)
    requires Core(s) && SteadyInv(s) && LabelInv(s) && s.openshift && s.ctl.Busy? && s.ctl.nm.deleting
    requires !UsedIn(s, s.ctl.node.pool, s.ctl.key, false)
    ensures Unused(s.st, s.nodes, s.h.lost, s.ctl.node.pool)
  {
    hide Core, SteadyInv, LabelInv, UsedIn, Relies;
    forall k ensures !Relies(Cur(s.st, k), s.nodes, s.h.lost, s.ctl.node.pool) {
      if Relies(Cur(s.st, k), s.nodes, s.h.lost, s.ctl.node.pool) { CheckFinds(s, k); }
    }
  }

  /** Another request uses the pool in the store exactly if it minds it. */
  lemma CheckMinded(s: State)
    requires Core(s) && SteadyInv(s) && LabelInv(s) && s.ctl.Busy? && s.ctl.node.pool !in s.h.lostPools
    ensures UsedIn(s, s.ctl.node.pool, s.ctl.key, true) <==>
              MindedByOther(s.st, s.nodes, s.h.lost, s.ctl.node.pool, s.ctl.key)
  {
    hide UidsOk, SchedOk, DR.DrainsInv, LabelHeld, LabelsSeen, CtlOk, Anchored, NodeCopy, CopyLives;
    if UsedIn(s, s.ctl.node.pool, s.ctl.key, true) {
      var q :| q in s.st.logs && q != s.ctl.key && Cur(s.st, q).Some? &&
               InPool(s, Cur(s.st, q).value.node, s.ctl.node.pool) && Cur(s.st, q).value.poolLabel.Some?;
      assert SteadyLog(Log(s.st, q), Seen(s.st, q), s.h.lost);
      assert HeldAt(Log(s.st, q), s.h.lost, Last(s.st, q));
      assert Minds(Cur(s.st, q), s.nodes, s.h.lost, s.ctl.node.pool);
    }
    if MindedByOther(s.st, s.nodes, s.h.lost, s.ctl.node.pool, s.ctl.key) {
      var q :| q != s.ctl.key && Minds(Cur(s.st, q), s.nodes, s.h.lost, s.ctl.node.pool);
      assert q in s.st.logs;
    }
  }

  lemma CheckUsersPools(s: State)
    requires Core(s) && SteadyInv(s) && LabelInv(s) && PoolInv(s) && s.ctl.Busy? && s.ctl.pc == Clean(CheckUse)
    ensures PoolInv(CheckUsers(s))
  {
    hide Core, SteadyInv, LabelInv, UsedIn, Annotated, Safe, NoLeak, Unused, MindedByOther;
    CopyFacts(s);
    if s.openshift && !UsedIn(s, s.ctl.node.pool, s.ctl.key, false) { CheckUnused(s); }
    if s.ctl.node.pool !in s.h.lostPools { CheckMinded(s); }
    MovePools(s, CheckUsers(s));
  }

  // ---------------------------------------------------------------- dispatch

  lemma RefreshPools(s: State)
    requires PoolInv(s) && s.ctl.Busy? && s.ctl.pc == Pause(AwaitLabel) && CtlReady(s)
    ensures PoolInv(Refresh(s))
  {
    hide PoolInv;
    QuietPools(s, Refresh(s));
  }

  lemma PausePools(s: State)
    requires Core(s) && SteadyInv(s) && LabelInv(s) && PoolInv(s) && s.ctl.Busy? && s.ctl.pc.Pause? && CtlReady(s)
    requires Looks(s.ctl.pc)
    ensures PoolInv(PauseLook(s))
  {
    hide Core, SteadyInv, LabelInv, PoolInv, Refresh, Patch, Follow, Finish, AfterReadPool, AfterMark;
    match s.ctl.pc.pause
    case AwaitLabel => RefreshPools(s);
    case ReadPool => ReadPoolPools(s);
    case PatchPool => PatchOnPools(s);
    case AwaitMark => AwaitMarkPools(s);
    case UndoPatch => PatchOffPools(s, Pause(AwaitUndo));
    case AwaitUndo => AwaitUndoPools(s);
    case _ =>
  }

  lemma UnpausePools(s: State)
    requires Core(s) && SteadyInv(s) && LabelInv(s) && PoolInv(s) && s.ctl.Busy? && s.ctl.pc.Clean? && CtlReady(s)
    requires Looks(s.ctl.pc)
    ensures PoolInv(UnpauseLook(s))
  {
    hide Core, SteadyInv, LabelInv, PoolInv, Patch, Follow, AfterReadMark, CheckUsers;
    match s.ctl.pc.clean
    case ReadMark => ReadMarkPools(s);
    case CheckUse => CheckUsersPools(s);
    case PatchUnpause => PatchOffPools(s, Clean(AwaitUnmark));
    case AwaitUnmark => AwaitUnmarkPools(s);
    case _ =>
  }

  lemma DrainsPools(s: State, dr: DR.Drains, next: Next)
    requires PoolInv(s) && s.ctl.Busy? && !PoolWait(s.ctl.pc) && Quiet(s.openshift, next)
    requires next != To(Pause(PatchPool))
    ensures PoolInv(Follow(s.(dr := dr), next))
  {
    hide PoolInv;
    QuietPools(s, Follow(s.(dr := dr), next));
  }

  lemma FindDrainPools(s: State)
    requires PoolInv(s) && s.ctl.Busy? && s.ctl.pc == Drain(GetDrain)
    ensures PoolInv(FindDrain(s))
  {
    hide PoolInv;
    QuietPools(s, FindDrain(s));
  }

  lemma InsertDrainPools(s: State, choice: nat)
    requires PoolInv(s) && s.ctl.Busy? && s.ctl.pc == Drain(AddDrain) && CtlReady(s)
    ensures PoolInv(InsertDrain(s, choice))
  {
    hide PoolInv, DR.AddStart, DR.AddInsert;
    QuietPools(s, InsertDrain(s, choice));
  }

  lemma CancelDrainPools(s: State, after: AfterRemove)
    requires PoolInv(s) && s.ctl.Busy? && s.ctl.pc == Drain(RemoveDrain(after)) && CtlReady(s)
    ensures PoolInv(CancelDrain(s, after))
  {
    hide PoolInv, AfterRemoval, DR.RemoveStep, DR.RemoveBegin, Follow;
    RemovalQuiet(after, s.ctl.nm, s.openshift);
    var next := AfterRemoval(after, s.ctl.nm, s.openshift);
    QuietFollow(s, next);
    if s.dr.op.Removing? {
      DrainsPools(s, DR.RemoveStep(s.dr), next);
      SamePools(s, s.(dr := DR.RemoveStep(s.dr)));
    } else {
      SamePools(s, s.(dr := DR.RemoveBegin(s.dr, s.ctl.nm.uid)));
    }
  }

  lemma RemovalQuiet(after: AfterRemove, nm: NodeMaintenance, openshift: bool)
    ensures Quiet(openshift, AfterRemoval(after, nm, openshift))
    ensures AfterRemoval(after, nm, openshift) != To(Pause(PatchPool))
  {
  }

  lemma DrainLookPools(s: State, choice: nat)
    requires PoolInv(s) && s.ctl.Busy? && s.ctl.pc.Drain? && CtlReady(s) && Looks(s.ctl.pc)
    ensures PoolInv(DrainLook(s, choice))
  {
    hide PoolInv, Follow, FindDrain, InsertDrain, CancelDrain;
    match s.ctl.pc.drain
    case GetDrain => FindDrainPools(s);
    case AddDrain => InsertDrainPools(s, choice);
    case RemoveDrain(after) => CancelDrainPools(s, after);
    case CheckSpec | CheckInProgress | CheckError | CheckCanceled => QuietFollow(s, To(Drain(AfterCheck(s))));
    case _ =>
  }

  lemma LookPools(s: State, choice: nat)
    requires Core(s) && SteadyInv(s) && CapacityInv(s) && LabelInv(s) && PoolInv(s) && s.ctl.Busy? && CtlReady(s)
    requires Looks(s.ctl.pc)
    ensures PoolInv(CtlLook(s, choice))
  {
    hide Core, SteadyInv, CapacityInv, LabelInv, PoolInv, PauseLook, UnpauseLook, DrainLook, LookUpNode,
         CtlReady, DrainLooks;
    match s.ctl.pc
    case Pause(_) => PausePools(s);
    case Clean(_) => UnpausePools(s);
    case Drain(_) => DrainLookPools(s, choice);
    case Top(_) => LookUpPools(s);
    case _ =>
  }

  lemma NoPatchNext(pc: PC, c: NodeMaintenance, node: Node, openshift: bool, choice: nat)
    ensures
      match Code(pc, c, node, openshift, choice)
      case Go(next) => next != To(Pause(PatchPool))
      case Write(_, next) => next != To(Pause(PatchPool))
      case TryWrite(_, next) => next != To(Pause(PatchPool))
      case Mark(_, next) => next != To(Pause(PatchPool))
      case Look => true
  {
  }

  lemma ActPools(s: State, choice: nat)
    requires Core(s) && SteadyInv(s) && CapacityInv(s) && LabelInv(s) && PoolInv(s) && s.ctl.Busy? && CtlReady(s)
    ensures PoolInv(CtlAct(s, choice))
  {
    hide Core, SteadyInv, CapacityInv, LabelInv, PoolInv, Code, CtlLook, Follow, Commit, Flip, Finish, CtlReady,
         Effect, Quiet, PoolWait;
    var c := s.ctl;
    CodeEffect(c.pc, c.nm, c.node, s.openshift, choice);
    CodeQuiet(c.pc, c.nm, c.node, s.openshift, choice);
    NoPatchNext(c.pc, c.nm, c.node, s.openshift, choice);
    CodeLooks(c.pc, c.nm, c.node, s.openshift, choice);
    if !PoolWait(c.pc) { RetryPools(s); }
    match Code(c.pc, c.nm, c.node, s.openshift, choice)
    case Go(next) => QuietFollow(s, next);
    case Write(obj, next) => if Current(s) { CommitPools(s, obj, next); }
    case TryWrite(obj, next) =>
      if Current(s) { SameEffect(c); CommitPools(s, obj, next); } else { QuietFollow(s, next); }
    case Mark(value, next) => if c.nm.node in s.nodes { MarkTo(c, value, next); FlipPools(s, value, next); }
    case Look => LookPools(s, choice);
  }

  lemma MarkTo(c: Ctl, value: bool, next: Next)
    requires c.Busy? && Marking(c.pc, c.nm, c.node, value, next)
    ensures next.To?
  {
  }

  lemma RetryPools(s: State)
    requires PoolInv(s) && s.ctl.Busy? && !PoolWait(s.ctl.pc)
    ensures PoolInv(Finish(s, Retry))
  {
    hide PoolInv;
    QuietFollow(s, End(Retry));
  }

  lemma FetchPools(s: State, k: Key)
    requires PoolInv(s) && s.ctl == Resting
    ensures PoolInv(CtlRead(s, k))
  {
    hide Annotated, Safe, NoLeak;
    MovePools(s, CtlRead(s, k));
  }

  lemma EvictPools(s: State, e: Eviction)
    requires PoolInv(s) && CanEvict(s, e)
    ensures PoolInv(DoEvict(s, e))
  {
    hide PoolInv;
    SamePools(s, DoEvict(s, e));
  }

  lemma PoolStep(s: State, step: Step)
    requires Core(s) && SteadyInv(s) && CapacityInv(s) && LabelInv(s) && PoolInv(s) && Enabled(s, step)
    ensures PoolInv(Apply(s, step))
  {
    hide Core, SteadyInv, CapacityInv, LabelInv, PoolInv, CanEdit, DoEdit, CanChange, DoChange, CanRelay,
         DoRelay, CanEvict, DoEvict, CanSchedule, DoSchedule, CtlRead, CtlAct, CtlFail, CtlReady, CannotFail;
    match step
    case Edits(e) => EditPools(s, e);
    case Changes(c) => ChangePools(s, c);
    case Relays(r) => RelayPools(s, r);
    case Evictions(e) => EvictPools(s, e);
    case Scheduling(t) => TurnPools(s, t);
    case Fetch(k) => FetchPools(s, k);
    case Reconcile(ok, choice) => if ok { ActPools(s, choice); } else { FailPools(s); }
  }

  lemma InitPools(s: State)
    requires Init(s)
    ensures PoolInv(s)
  {
  }
}
