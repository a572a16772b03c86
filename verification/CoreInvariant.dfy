/** The invariant all guarantees build on, kept by every step. */
module CoreInvariant {
  import opened Api
  import opened Versions
  import opened Handlers
  import opened Operator
  import opened PreScheduling
  import opened Lifecycle
  import opened Histories
  import opened Rounds
  import opened Control
  import opened Effects
  import DR = DrainManagers

  ghost predicate Core(s: State) {
    && LogsOk(s.st)
    && UidsOk(s.st, s.nextUid)
    && SchedOk(s.st, s.sched)
    && CtlOk(s.st, s.ctl)
    && DR.DrainsInv(s.dr)
    && (!s.h.timedOut ==> Unseen(s.st, s.sched) && Exclusive(s.st, s.sched))
  }

  /** Nothing but the reconciler and what it alone controls has changed. */
  ghost predicate Frame(s: State, s': State) {
    && s'.openshift == s.openshift && s'.sched == s.sched && s'.nextUid == s.nextUid && s'.pview == s.pview
    && s'.h.timedOut == s.h.timedOut
  }

  lemma InitCore(s: State)
    requires Init(s)
    ensures Core(s)
  {
  }

  lemma EditCore(s: State, e: Edit)
    requires Core(s) && CanEdit(s, e)
    ensures Core(DoEdit(s, e))
  {
    EditGentle(s, e);
    var y := Edited(s, e);
    AppendLogs(s.st, e.k, y);
    AppendUids(s.st, e.k, y, s.nextUid, DoEdit(s, e).nextUid);
    AppendSchedOk(s.st, s.sched, e.k, y);
    CtlAppend(s.st, s.ctl, e.k, y);
    if !s.h.timedOut {
      AppendUnseen(s.st, s.sched, e.k, y);
      AppendFewer(s.st, s.sched, e.k, y);
      FewerExclusive(s.st, s.sched, Append(s.st, e.k, y), s.sched);
    }
  }

  lemma ChangeCore(s: State, c: Change)
    requires Core(s) && CanChange(s, c)
    ensures Core(DoChange(s, c))
  {
  }

  lemma SeenUids(st: Store, st': Store, next: nat)
    requires UidsOk(st, next) && forall k :: Log(st', k) == Log(st, k)
    ensures UidsOk(st', next)
  {
    forall k, i, u: nat ensures UidAt(st', k, i, u) <==> UidAt(st, k, i, u) {}
  }

  lemma DeliverCore(s: State, k: Key)
    requires Core(s) && CanRelay(s, Deliver(k))
    ensures Core(DoRelay(s, Deliver(k)))
  {
    var st' := Advance(s.st, k);
    SeenUids(s.st, st', s.nextUid);
    DeliverSchedOk(s.st, s.sched, k);
    CtlSeen(s.st, st', s.ctl);
    if !s.h.timedOut {
      DeliverRounds(s.st, s.sched, k);
      FewerExclusive(s.st, s.sched, st', s.sched);
    }
  }

  lemma RestartCore(s: State)
    requires Core(s)
    ensures Core(DoRelay(s, Restart))
  {
    var st' := CatchUp(s.st);
    SeenUids(s.st, st', s.nextUid);
    RestartRounds(s.st, s.sched);
    DR.DrainsStep(s.dr, DR.Restarted);
    if !s.h.timedOut { FewerExclusive(s.st, s.sched, st', Between); }
  }

  lemma RelayCore(s: State, r: Relay)
    requires Core(s) && CanRelay(s, r)
    ensures Core(DoRelay(s, r))
  {
    match r
    case Deliver(k) => DeliverCore(s, k);
    case Restart => RestartCore(s);
    case _ =>
  }

  lemma EvictCore(s: State, e: Eviction)
    requires Core(s) && CanEvict(s, e)
    ensures Core(DoEvict(s, e))
  {
    match e
    case DrainResult(id, failed) => DR.DrainsStep(s.dr, DR.RecordResult(id, failed));
    case DrainEnd(id) => DR.DrainsStep(s.dr, DR.EndThread(id));
    case ContextDone => DR.DrainsStep(s.dr, DR.CancelAll);
  }

  /** The scheduler's write is legal and touches nothing a reconciler relies on. */
  lemma WriteOneFacts(s: State, k: Key)
    requires Core(s) && s.sched.Round? && k in s.sched.todo && s.sched.todo[k] == Last(s.st, k) && Cur(s.st, k).Some?
    ensures
      var e := Some(WithReason(Cur(s.st, k).value, Scheduled));
      Edge(Cur(s.st, k), e) && Gentle(Cur(s.st, k), e) && !Late(e.value)
  {
    hide UidsOk, CtlOk, DR.DrainsInv, Unseen, Exclusive;
    CurOk(s.st, k);
  }

  lemma WriteStoreCore(s: State, k: Key)
    requires Core(s) && s.sched.Round? && k in s.sched.todo && s.sched.todo[k] == Last(s.st, k) && Cur(s.st, k).Some?
    ensures
      var st' := Append(s.st, k, Some(WithReason(Cur(s.st, k).value, Scheduled)));
      LogsOk(st') && UidsOk(st', s.nextUid) && CtlOk(st', s.ctl)
  {
    hide LogsOk, UidsOk, SchedOk, CtlOk, DR.DrainsInv, Unseen, Exclusive, Edge, Gentle;
    WriteOneFacts(s, k);
    var e := Some(WithReason(Cur(s.st, k).value, Scheduled));
    AppendLogs(s.st, k, e);
    AppendUids(s.st, k, e, s.nextUid, s.nextUid);
    CtlAppend(s.st, s.ctl, k, e);
  }

  lemma WriteSchedCore(s: State, k: Key)
    requires Core(s) && s.sched.Round? && k in s.sched.todo && s.sched.todo[k] == Last(s.st, k) && Cur(s.st, k).Some?
    ensures
      var st' := Append(s.st, k, Some(WithReason(Cur(s.st, k).value, Scheduled)));
      var sched' := Round(s.sched.todo - {k}, s.sched.wait[k := Last(s.st, k) + 1]);
      SchedOk(st', sched') && (!s.h.timedOut ==> Unseen(st', sched') && Exclusive(st', sched'))
  {
    hide LogsOk, UidsOk, SchedOk, CtlOk, DR.DrainsInv, Unseen, Exclusive, Edge, Append;
    WriteRounds(s.st, s.sched.todo, s.sched.wait, k);
    var st' := Append(s.st, k, Some(WithReason(Cur(s.st, k).value, Scheduled)));
    if !s.h.timedOut {
      FewerExclusive(s.st, s.sched, st', Round(s.sched.todo - {k}, s.sched.wait[k := Last(s.st, k) + 1]));
    }
  }

  lemma WriteOneCore(s: State, k: Key, ok: bool)
    requires Core(s) && CanSchedule(s, WriteOne(k, ok))
    ensures Core(WriteScheduled(s, k, ok))
  {
    hide LogsOk, UidsOk, SchedOk, CtlOk, DR.DrainsInv, Unseen, Exclusive, Append;
    var todo, wait := s.sched.todo, s.sched.wait;
    if ok && todo[k] == Last(s.st, k) && Cur(s.st, k).Some? {
      WriteStoreCore(s, k);
      WriteSchedCore(s, k);
    } else {
      DropRounds(s.st, todo, wait, k);
      if !s.h.timedOut { FewerExclusive(s.st, s.sched, s.st, Round(todo - {k}, wait)); }
    }
  }

  lemma TurnCore(s: State, t: Turn)
    requires Core(s) && CanSchedule(s, t)
    ensures Core(DoSchedule(s, t))
  {
    match t
    case List(nodes, reqs, limits) => ListRounds(s.st, nodes, reqs, limits);
    case WriteOne(k, ok) => WriteOneCore(s, k, ok);
    case EndRound =>
      FewerExclusiveEnd(s);
    case _ =>
      SeeRounds(s.st, s.sched.todo, s.sched.wait, t.k);
      if !s.h.timedOut { FewerExclusive(s.st, s.sched, s.st, Round(s.sched.todo, s.sched.wait - {t.k})); }
  }

  lemma FewerExclusiveEnd(s: State)
    requires Core(s) && s.sched == Round(map[], map[])
    ensures !s.h.timedOut ==> Unseen(s.st, Between) && Exclusive(s.st, Between)
  {
    if !s.h.timedOut {
      assert Fewer(s.st, s.sched, s.st, Between);
      FewerExclusive(s.st, s.sched, s.st, Between);
    }
  }

  lemma FetchCore(s: State, k: Key)
    requires Core(s) && s.ctl == Resting
    ensures Core(CtlRead(s, k))
  {
    hide LogsOk, UidsOk, SchedOk, Unseen, Exclusive, DR.DrainsInv;
  }

  // --------------------------------------------------------- the reconciler

  /** The reconciler moved on without touching the store. */
  ghost predicate LocalCore(s: State, s': State) {
    && Frame(s, s') && s'.st == s.st && CtlOk(s'.st, s'.ctl) && DR.DrainsInv(s'.dr)
  }

  lemma LocalKeepsCore(s: State, s': State)
    requires Core(s) && LocalCore(s, s')
    ensures Core(s')
  {
  }

  lemma CopyFacts(s: State)
    requires Core(s) && s.ctl.Busy?
    ensures EntryOk(s.ctl.nm) && PcOk(s.ctl.pc, s.ctl.nm)
  {
    EntryAt(Log(s.st, s.ctl.key), s.ctl.at);
  }

  /** A statement that only decides where to go. */
  lemma FollowCore(s: State, next: Next)
    requires Core(s) && s.ctl.Busy? && NextOk(next, s.ctl.nm) && GoKeeps(s.ctl.pc, next)
    ensures LocalCore(s, Follow(s, next))
  {
    hide LogsOk, UidsOk, SchedOk, Unseen, Exclusive, DR.DrainsInv, CtlOk, PcOk;
    RestingOk(s.st);
    if next.To? { CtlGo(s.st, s.ctl, next.pc); }
  }

  lemma FailCore(s: State)
    requires Core(s) && s.ctl.Busy?
    ensures LocalCore(s, CtlFail(s))
  {
    if s.ctl.pc == Top(SetOwner) { FollowCore(s, To(Top(Dispatch))); } else { FollowCore(s, End(Retry)); }
  }

  lemma CommitStoreCore(s: State, obj: NodeMaintenance)
    requires Core(s) && s.ctl.Busy? && Current(s)
    requires Edge(Some(s.ctl.nm), Stored(obj))
    requires (Stored(obj).Some? && UnderMaintenance(obj) ==> UnderMaintenance(s.ctl.nm))
    ensures Core(Commit(s, obj).(ctl := Resting))
  {
    var k, e := s.ctl.key, Stored(obj);
    AppendLogs(s.st, k, e);
    AppendUids(s.st, k, e, s.nextUid, s.nextUid);
    AppendSchedOk(s.st, s.sched, k, e);
    if !s.h.timedOut {
      AppendUnseen(s.st, s.sched, k, e);
      AppendFewer(s.st, s.sched, k, e);
      FewerExclusive(s.st, s.sched, Append(s.st, k, e), s.sched);
    }
  }

  lemma CommitCtl(s: State, obj: NodeMaintenance, pc: PC)
    requires Core(s) && s.ctl.Busy? && Current(s)
    requires Stored(obj).Some? && PcOk(pc, obj) && WriteKeeps(s.ctl.pc, s.ctl.nm, s.ctl.node, obj, To(pc))
    ensures CtlOk(Commit(s, obj).st, Commit(s, obj).ctl.(pc := pc))
  {
    hide LogsOk, UidsOk, SchedOk, Unseen, Exclusive, DR.DrainsInv, CtlOk, PcOk, WriteKeeps;
    CtlCommit(s.st, s.ctl, obj, pc);
  }

  lemma LandCore(s: State, next: Next)
    requires s.ctl.Busy? && Core(s.(ctl := Resting)) && (next.To? ==> CtlOk(s.st, s.ctl.(pc := next.pc)))
    ensures Core(Follow(s, next))
  {
    hide LogsOk, UidsOk, SchedOk, Unseen, Exclusive, DR.DrainsInv, CtlOk;
  }

  lemma CommitCore(s: State, obj: NodeMaintenance, next: Next)
    requires Core(s) && s.ctl.Busy? && Current(s)
    requires Edge(Some(s.ctl.nm), Stored(obj)) && NextOk(next, obj) && (next.To? ==> Stored(obj).Some?)
    requires WriteKeeps(s.ctl.pc, s.ctl.nm, s.ctl.node, obj, next)
    requires Stored(obj).Some? && UnderMaintenance(obj) ==> UnderMaintenance(s.ctl.nm)
    ensures Core(Follow(Commit(s, obj), next)) && Frame(s, Follow(Commit(s, obj), next))
  {
    hide LogsOk, UidsOk, SchedOk, Unseen, Exclusive, DR.DrainsInv, Edge, CtlOk, PcOk, WriteKeeps, Core;
    CommitStoreCore(s, obj);
    if next.To? { CommitCtl(s, obj, next.pc); }
    LandCore(Commit(s, obj), next);
  }

  /** The reconciler never takes a request out of the waiting phases. */
  lemma CodeNeverSchedules(pc: PC, c: NodeMaintenance, node: Node, openshift: bool, choice: nat)
    requires PcOk(pc, c)
    ensures
      match Code(pc, c, node, openshift, choice)
      case Write(obj, _) => UnderMaintenance(obj) ==> UnderMaintenance(c)
      case TryWrite(obj, _) => UnderMaintenance(obj) ==> UnderMaintenance(c)
      case _ => true
  {
    hide Code, PcOk;
    CodeEffect(pc, c, node, openshift, choice);
    match Code(pc, c, node, openshift, choice)
    case Write(obj, _) => EffectNeverSchedules(pc, c, node, obj);
    case _ =>
  }

  lemma EffectNeverSchedules(pc: PC, c: NodeMaintenance, node: Node, obj: NodeMaintenance)
    requires PcOk(pc, c) && Effect(pc, c, node, obj)
    ensures UnderMaintenance(obj) ==> UnderMaintenance(c)
  {
  }

  lemma LookUpCore(s: State)
    requires Core(s) && s.ctl.Busy? && s.ctl.pc == Top(GetNode)
    ensures LocalCore(s, LookUpNode(s))
  {
    hide LogsOk, UidsOk, SchedOk, Unseen, Exclusive, DR.DrainsInv;
  }

  lemma RefreshCore(s: State)
    requires Core(s) && s.ctl.Busy? && s.ctl.pc == Pause(AwaitLabel) && CtlReady(s)
    ensures LocalCore(s, Refresh(s))
  {
    hide LogsOk, UidsOk, SchedOk, Unseen, Exclusive, DR.DrainsInv;
    CtlRefresh(s.st, s.ctl, View(s.st, s.ctl.key).value);
  }

  lemma PatchCore(s: State, on: bool, pc: PC)
    requires Core(s) && s.ctl.Busy? && PcOk(pc, s.ctl.nm) && GoKeeps(s.ctl.pc, To(pc))
    ensures LocalCore(s, Patch(s, on, pc))
  {
    hide LogsOk, UidsOk, SchedOk, Unseen, Exclusive, DR.DrainsInv;
    FollowCore(s, End(Retry));
    CtlGo(s.st, s.ctl, pc);
  }

  lemma CheckUsersCore(s: State)
    requires Core(s) && s.ctl.Busy? && s.ctl.pc == Clean(CheckUse)
    ensures LocalCore(s, CheckUsers(s))
  {
    hide LogsOk, UidsOk, SchedOk, Unseen, Exclusive, DR.DrainsInv;
    CtlGo(s.st, s.ctl, Clean(RemoveFinalizer));
    CtlGo(s.st, s.ctl, Clean(PatchUnpause));
  }

  lemma FindDrainCore(s: State)
    requires Core(s) && s.ctl.Busy? && s.ctl.pc == Drain(GetDrain)
    ensures LocalCore(s, FindDrain(s))
  {
    hide LogsOk, UidsOk, SchedOk, Unseen, Exclusive, DR.DrainsInv;
    CtlGo(s.st, s.ctl, Drain(InitStatus));
    CtlGo(s.st, s.ctl, Drain(CheckSpec));
  }

  lemma InsertDrainCore(s: State, choice: nat)
    requires Core(s) && s.ctl.Busy? && s.ctl.pc == Drain(AddDrain) && CtlReady(s)
    ensures LocalCore(s, InsertDrain(s, choice))
  {
    hide LogsOk, UidsOk, SchedOk, Unseen, Exclusive, DR.DrainsInv;
    if s.dr.op.Adding? {
      DR.StartKeeps(s.dr);
    } else if s.ctl.nm.drainSpec.Some? {
      var nm := s.ctl.nm;
      DR.InsertKeeps(s.dr, DR.DrainRequests.NewDrainRequest(s.ctl.key, nm.uid, nm.node, nm.drainSpec.value,
          choice == 1));
    }
  }

  lemma CancelDrainCore(s: State, after: AfterRemove)
    requires Core(s) && s.ctl.Busy? && s.ctl.pc == Drain(RemoveDrain(after)) && CtlReady(s)
    ensures LocalCore(s, CancelDrain(s, after))
  {
    hide LogsOk, UidsOk, SchedOk, Unseen, Exclusive, DR.DrainsInv, AfterRemoval, CtlOk, PcOk, DR.RemoveStep,
         DR.RemoveBegin;
    CopyFacts(s);
    RemovalOk(after, s.ctl.nm, s.openshift);
    RemovalKeeps(after, s.ctl.nm, s.openshift);
    FollowCore(s, AfterRemoval(after, s.ctl.nm, s.openshift));
    if s.dr.op.Removing? { DR.RemoveKeeps(s.dr); } else { DR.BeginKeeps(s.dr, s.ctl.nm.uid); }
  }

  // ---------------------------------------------------------------- dispatch

  lemma ReadPoolCore(s: State)
    requires Core(s) && s.ctl.Busy? && s.ctl.pc == Pause(ReadPool)
    ensures LocalCore(s, PauseLook(s))
  {
    hide LogsOk, UidsOk, SchedOk, Unseen, Exclusive, DR.DrainsInv, Follow;
    FollowCore(NoteRace(s, s.ctl.node.pool), AfterReadPool(s));
  }

  lemma PauseCore(s: State)
    requires Core(s) && s.ctl.Busy? && s.ctl.pc.Pause? && CtlReady(s)
    requires s.ctl.pc.pause != FindPool && s.ctl.pc.pause != SetLabel
    ensures LocalCore(s, PauseLook(s))
  {
    hide Core, LocalCore, Refresh, Patch, Follow, Finish;
    CopyFacts(s);
    match s.ctl.pc.pause
    case AwaitLabel => RefreshCore(s);
    case ReadPool => ReadPoolCore(s);
    case PatchPool => PatchCore(s, true, Pause(AwaitMark));
    case AwaitMark => FollowCore(s, AfterMark(s));
    case UndoPatch => PatchCore(s, false, Pause(AwaitUndo));
    case _ => LaterCore(s);
  }

  lemma LaterCore(s: State)
    requires Core(s) && s.ctl.Busy?
    ensures LocalCore(s, Finish(s, Later))
  {
    FollowCore(s, End(Later));
  }

  lemma UnpauseCore(s: State)
    requires Core(s) && s.ctl.Busy? && s.ctl.pc.Clean?
    requires s.ctl.pc.clean != UncordonNode && s.ctl.pc.clean != ForgetInitial
    ensures LocalCore(s, UnpauseLook(s))
  {
    hide Core, LocalCore, Patch, Follow, Finish, CheckUsers;
    CopyFacts(s);
    match s.ctl.pc.clean
    case ReadMark => FollowCore(s, AfterReadMark(s));
    case CheckUse => CheckUsersCore(s);
    case PatchUnpause => PatchCore(s, false, Clean(AwaitUnmark));
    case _ => FollowCore(s, To(Clean(RemoveFinalizer)));
  }

  predicate DrainLooks(pc: DrainPC) {
    pc == GetDrain || pc == AddDrain || pc.RemoveDrain? ||
    pc == CheckSpec || pc == CheckInProgress || pc == CheckError || pc == CheckCanceled
  }

  lemma DrainCore(s: State, choice: nat)
    requires Core(s) && s.ctl.Busy? && s.ctl.pc.Drain? && CtlReady(s) && DrainLooks(s.ctl.pc.drain)
    ensures LocalCore(s, DrainLook(s, choice))
  {
    hide Core, LocalCore, Follow, FindDrain, InsertDrain, CancelDrain;
    CopyFacts(s);
    match s.ctl.pc.drain
    case GetDrain => FindDrainCore(s);
    case AddDrain => InsertDrainCore(s, choice);
    case RemoveDrain(after) => CancelDrainCore(s, after);
    case CheckSpec | CheckInProgress | CheckError | CheckCanceled => FollowCore(s, To(Drain(AfterCheck(s))));
    case _ =>
  }

  /** A statement that looks at shared state. */
  predicate Looks(pc: PC) {
    match pc
    case Top(p) => p == GetNode
    case Pause(p) => p != FindPool && p != SetLabel
    case Clean(p) => p == ReadMark || p == CheckUse || p == PatchUnpause || p == AwaitUnmark
    case Drain(p) => DrainLooks(p)
    case _ => false
  }

  lemma CodeLooks(pc: PC, c: NodeMaintenance, node: Node, openshift: bool, choice: nat)
    ensures Code(pc, c, node, openshift, choice) == Look <==> Looks(pc)
  {
  }

  lemma LookCore(s: State, choice: nat)
    requires Core(s) && s.ctl.Busy? && CtlReady(s) && Looks(s.ctl.pc)
    ensures LocalCore(s, CtlLook(s, choice))
  {
    hide Core, LocalCore, PauseLook, UnpauseLook, DrainLook, LookUpNode, CtlReady;
    match s.ctl.pc
    case Pause(_) => PauseCore(s);
    case Clean(_) => UnpauseCore(s);
    case Drain(_) => DrainCore(s, choice);
    case _ => LookUpCore(s);
  }

  lemma FlipCore(s: State, value: bool, next: Next)
    requires Core(s) && s.ctl.Busy? && s.ctl.nm.node in s.nodes && NextOk(next, s.ctl.nm) && GoKeeps(s.ctl.pc, next)
    requires s.ctl.pc != Pause(AwaitLabel)
    ensures LocalCore(s, Follow(Flip(s, value), next))
  {
    hide LogsOk, UidsOk, SchedOk, Unseen, Exclusive, DR.DrainsInv, PcOk;
    if next.To? { CtlGo(s.st, s.ctl, next.pc); }
  }

  lemma ActCore(s: State, choice: nat)
    requires Core(s) && s.ctl.Busy? && CtlReady(s)
    ensures Core(CtlAct(s, choice)) && Frame(s, CtlAct(s, choice))
  {
    hide Core, Code, CtlLook, Follow, Commit, Flip, Finish, CtlReady, PcOk, EntryOk, Edge, WriteKeeps, GoKeeps;
    CopyFacts(s);
    var c := s.ctl;
    CodeOk(c.pc, c.nm, c.node, s.openshift, choice);
    CodeKeeps(c.pc, c.nm, c.node, s.openshift, choice);
    CodeLooks(c.pc, c.nm, c.node, s.openshift, choice);
    CodeNeverSchedules(c.pc, c.nm, c.node, s.openshift, choice);
    match Code(c.pc, c.nm, c.node, s.openshift, choice)
    case Go(next) => FollowCore(s, next); LocalKeepsCore(s, Follow(s, next));
    case Write(obj, next) => if Current(s) { CommitCore(s, obj, next); } else { RetryCore(s); }
    case TryWrite(obj, next) =>
      if Current(s) { CommitCore(s, obj, next); } else { FollowCore(s, next); LocalKeepsCore(s, Follow(s, next)); }
    case Mark(value, next) =>
      if c.nm.node in s.nodes {
        FlipCore(s, value, next);
        LocalKeepsCore(s, Follow(Flip(s, value), next));
      } else {
        RetryCore(s);
      }
    case Look => LookCore(s, choice); LocalKeepsCore(s, CtlLook(s, choice));
  }

  lemma RetryCore(s: State)
    requires Core(s) && s.ctl.Busy?
    ensures Core(Finish(s, Retry)) && Frame(s, Finish(s, Retry))
  {
    FollowCore(s, End(Retry));
    LocalKeepsCore(s, Follow(s, End(Retry)));
  }

  lemma CoreStep(s: State, step: Step)
    requires Core(s) && Enabled(s, step)
    ensures Core(Apply(s, step))
  {
    hide Core, CanEdit, DoEdit, CanChange, DoChange, CanRelay, DoRelay, CanEvict, DoEvict, CanSchedule,
         DoSchedule, CtlRead, CtlAct, CtlFail, CtlReady, CannotFail;
    match step
    case Edits(e) => EditCore(s, e);
    case Changes(c) => ChangeCore(s, c);
    case Relays(r) => RelayCore(s, r);
    case Evictions(e) => EvictCore(s, e);
    case Scheduling(t) => TurnCore(s, t);
    case Fetch(k) => FetchCore(s, k);
    case Reconcile(ok, choice) =>
      if ok { ActCore(s, choice); } else { FailCore(s); LocalKeepsCore(s, CtlFail(s)); }
  }
}
