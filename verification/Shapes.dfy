/** What a statement of the reconciler that looks at shared state can change at all. */
module Shapes {
  import opened Api
  import opened Versions
  import opened Handlers
  import opened Operator
  import opened CoreInvariant
  import DR = DrainManagers

  /** Requests, nodes and history stay, the copy changes only in the label wait, and a reconcile
      that ends here is repeated. */
  ghost predicate Looked(s: State, s': State)
    requires s.ctl.Busy?
  {
    && s'.openshift == s.openshift && s'.st == s.st && s'.nodes == s.nodes && s'.sched == s.sched
    && s'.h.lost == s.h.lost && s'.h.lostPools == s.h.lostPools && s'.h.touched == s.h.touched
    && s'.h.entry == s.h.entry
    && s'.h.limit == s.h.limit && s'.h.timedOut == s.h.timedOut && s'.h.leaked == s.h.leaked
    && s'.h.poolTimedOut == s.h.poolTimedOut && s.queue <= s'.queue && s.timers <= s'.timers
    && if s'.ctl.Busy? then LookedCtl(s.ctl, s'.ctl) else s.ctl.key in s'.queue + s'.timers
  }

  predicate LookedCtl(c: Ctl, c': Ctl)
    requires c.Busy? && c'.Busy?
  {
    && c'.key == c.key && c'.from == c.from && c'.node == c.node && SidePc(c.pc, c'.pc)
    && ((c'.nm == c.nm && c'.at == c.at) || (c.pc == Pause(AwaitLabel) && c'.pc == Pause(ReadPool)))
  }

  /** Where such statements lead. */
  predicate SidePc(pc: PC, to: PC) {
    && !to.Top? && !to.Cordoning? && !to.Pods? && !to.Final? && to != Clean(ForgetInitial)
    && (to.Pause? || to == Start(SetCordon) ==> pc.Pause?)
  }

  predicate SideNext(pc: PC, next: Next) { if next.To? then SidePc(pc, next.pc) else next.result != Done }

  lemma FollowShape(s: State, next: Next)
    requires s.ctl.Busy? && SideNext(s.ctl.pc, next)
    ensures Looked(s, Follow(s, next))
  {
    hide Follow;
    FollowKeeps(s, next);
    FollowQueues(s, next);
  }

  lemma RefreshShape(s: State)
    requires s.ctl.Busy? && s.ctl.pc == Pause(AwaitLabel) && View(s.st, s.ctl.key).Some?
    ensures Looked(s, Refresh(s))
  {
  }

  lemma PatchShape(s: State, on: bool, pc: PC)
    requires s.ctl.Busy? && SidePc(s.ctl.pc, pc)
    ensures Looked(s, Patch(s, on, pc))
  {
    hide Looked, Follow, SetPool;
    if s.ctl.node.pool in s.pools {
      SetPoolOnly(s, on);
      FollowPools(s, SetPool(s, s.ctl.node.pool, on).pools, To(pc));
    } else {
      RetryShape(s);
    }
  }

  lemma SetPoolOnly(s: State, on: bool)
    requires s.ctl.Busy? && s.ctl.node.pool in s.pools
    ensures
      var s' := SetPool(s, s.ctl.node.pool, on);
      s' == s.(pools := s'.pools)
  {
  }

  lemma RetryShape(s: State)
    requires s.ctl.Busy?
    ensures Looked(s, Finish(s, Retry))
  {
  }

  lemma FollowPools(s: State, pools: map<string, Pool>, next: Next)
    requires s.ctl.Busy? && SideNext(s.ctl.pc, next)
    ensures Looked(s, Follow(s.(pools := pools), next))
  {
    hide Follow;
    FollowKeeps(s.(pools := pools), next);
    FollowQueues(s.(pools := pools), next);
  }

  /** A reconcile that does not end for good is queued again or timed. */
  lemma FollowQueues(s: State, next: Next)
    requires s.ctl.Busy?
    ensures
      var s' := Follow(s, next);
      && s.queue <= s'.queue && s.timers <= s'.timers
      && (next.End? && next.result != Done ==> s.ctl.key in s'.queue + s'.timers)
  {
  }

  lemma ReadPoolShape(s: State)
    requires s.ctl.Busy? && s.ctl.pc == Pause(ReadPool)
    ensures Looked(s, PauseLook(s))
  {
    hide Looked, Follow;
    RaceShape(s, AfterReadPool(s));
  }

  lemma RaceShape(s: State, next: Next)
    requires s.ctl.Busy? && SideNext(s.ctl.pc, next)
    ensures Looked(s, Follow(NoteRace(s, s.ctl.node.pool), next))
  {
    hide Follow;
    FollowKeeps(NoteRace(s, s.ctl.node.pool), next);
    FollowQueues(NoteRace(s, s.ctl.node.pool), next);
  }

  lemma PauseShape(s: State)
    requires s.ctl.Busy? && s.ctl.pc.Pause? && CtlReady(s) && Looks(s.ctl.pc)
    ensures Looked(s, PauseLook(s))
  {
    hide Looked, Refresh, Patch, Follow;
    match s.ctl.pc.pause
    case AwaitLabel => RefreshShape(s);
    case ReadPool => ReadPoolShape(s);
    case PatchPool => PatchShape(s, true, Pause(AwaitMark));
    case AwaitMark => FollowShape(s, AfterMark(s));
    case UndoPatch => PatchShape(s, false, Pause(AwaitUndo));
    case _ => LaterShape(s);
  }

  lemma LaterShape(s: State)
    requires s.ctl.Busy?
    ensures Looked(s, Finish(s, Later))
  {
  }

  lemma CheckUsersShape(s: State)
    requires s.ctl.Busy? && s.ctl.pc == Clean(CheckUse)
    ensures Looked(s, CheckUsers(s))
  {
    hide Follow, UsedIn;
    CheckedUsers(s);
  }

  lemma CheckedUsers(s: State)
    requires s.ctl.Busy? && s.ctl.pc == Clean(CheckUse)
    ensures
      var s' := CheckUsers(s);
      && s'.ctl.Busy? && (s'.ctl.pc == Clean(RemoveFinalizer) || s'.ctl.pc == Clean(PatchUnpause))
      && s' == s.(h := s.h.(staleCheck := s'.h.staleCheck), ctl := s.ctl.(pc := s'.ctl.pc))
  {
    hide UsedIn;
  }

  lemma UnpauseShape(s: State)
    requires s.ctl.Busy? && s.ctl.pc.Clean? && Looks(s.ctl.pc)
    ensures Looked(s, UnpauseLook(s))
  {
    hide Looked, Patch, Follow, CheckUsers;
    match s.ctl.pc.clean
    case ReadMark => FollowShape(s, AfterReadMark(s));
    case CheckUse => CheckUsersShape(s);
    case PatchUnpause => PatchShape(s, false, Clean(AwaitUnmark));
    case _ => FollowShape(s, To(Clean(RemoveFinalizer)));
  }

  lemma DrainShape(s: State, choice: nat)
    requires s.ctl.Busy? && s.ctl.pc.Drain? && CtlReady(s) && Looks(s.ctl.pc)
    ensures Looked(s, DrainLook(s, choice))
  {
    hide Looked, Follow, FindDrain, InsertDrain, CancelDrain;
    match s.ctl.pc.drain
    case GetDrain => FindDrainShape(s);
    case AddDrain => InsertDrainShape(s, choice);
    case RemoveDrain(after) => CancelDrainShape(s, after);
    case CheckSpec | CheckInProgress | CheckError | CheckCanceled => FollowShape(s, To(Drain(AfterCheck(s))));
    case _ =>
  }

  lemma FindDrainShape(s: State)
    requires s.ctl.Busy?
    ensures Looked(s, FindDrain(s))
  {
    hide Looked, Follow;
    FollowShape(s, To(Drain(InitStatus)));
    if s.ctl.nm.uid in s.dr.byUid { FoundShape(s, s.dr.byUid[s.ctl.nm.uid]); }
  }

  lemma FoundShape(s: State, r: nat)
    requires s.ctl.Busy?
    ensures Looked(s, s.(ctl := s.ctl.(req := r, pc := Drain(CheckSpec))))
  {
  }

  lemma FollowDrains(s: State, dr: DR.Drains, next: Next)
    requires s.ctl.Busy? && SideNext(s.ctl.pc, next)
    ensures Looked(s, Follow(s.(dr := dr), next))
  {
    hide Follow;
    FollowKeeps(s.(dr := dr), next);
    FollowQueues(s.(dr := dr), next);
  }

  lemma StayDrains(s: State, dr: DR.Drains)
    requires s.ctl.Busy? && SidePc(s.ctl.pc, s.ctl.pc)
    ensures Looked(s, s.(dr := dr))
  {
  }

  lemma InsertDrainShape(s: State, choice: nat)
    requires s.ctl.Busy? && s.ctl.pc == Drain(AddDrain) && CtlReady(s)
    ensures Looked(s, InsertDrain(s, choice))
  {
    hide Looked, DR.AddStart, DR.AddInsert;
    if s.dr.op.Adding? { FollowDrains(s, DR.AddStart(s.dr), End(Later)); } else { LaterShape(s); }
    StayDrains(s, InsertDrain(s, choice).dr);
  }

  lemma CancelDrainShape(s: State, after: AfterRemove)
    requires s.ctl.Busy? && s.ctl.pc == Drain(RemoveDrain(after)) && CtlReady(s)
    ensures Looked(s, CancelDrain(s, after))
  {
    hide Looked, Follow, AfterRemoval, DR.RemoveStep, DR.RemoveBegin;
    RemovalSide(after, s.ctl.nm, s.openshift);
    var next := AfterRemoval(after, s.ctl.nm, s.openshift);
    FollowShape(s, next);
    if s.dr.op.Removing? {
      FollowDrains(s, DR.RemoveStep(s.dr), next);
      StayDrains(s, DR.RemoveStep(s.dr));
    } else {
      StayDrains(s, DR.RemoveBegin(s.dr, s.ctl.nm.uid));
    }
  }

  lemma RemovalSide(after: AfterRemove, nm: NodeMaintenance, openshift: bool)
    ensures SideNext(Drain(RemoveDrain(after)), AfterRemoval(after, nm, openshift))
  {
  }

  lemma LookShape(s: State, choice: nat)
    requires s.ctl.Busy? && CtlReady(s) && Looks(s.ctl.pc) && s.ctl.pc != Top(GetNode)
    ensures Looked(s, CtlLook(s, choice))
  {
    hide Looked, PauseLook, UnpauseLook, DrainLook, LookUpNode, CtlReady, DrainLooks;
    match s.ctl.pc
    case Pause(_) => PauseShape(s);
    case Clean(_) => UnpauseShape(s);
    case Drain(_) => DrainShape(s, choice);
    case Top(_) =>
    case _ =>
  }

  /** A failed call: the owner reference may stay unset, everything else is retried. */
  ghost predicate Failed(s: State, s': State)
    requires s.ctl.Busy?
  {
    && s'.openshift == s.openshift && s'.st == s.st && s'.nodes == s.nodes && s'.pools == s.pools && s'.pview == s.pview
    && s'.sched == s.sched && s'.dr == s.dr && s'.timers == s.timers
    && s'.h.lost == s.h.lost && s'.h.lostPools == s.h.lostPools && s'.h.touched == s.h.touched
    && s'.h.entry == s.h.entry
    && s'.h.limit == s.h.limit && s'.h.timedOut == s.h.timedOut && s'.h.staleCheck == s.h.staleCheck
    && s'.h.leaked == s.h.leaked && (s.h.poolTimedOut ==> s'.h.poolTimedOut)
    && if s.ctl.pc == Top(SetOwner) then s'.ctl == s.ctl.(pc := Top(Dispatch)) && s'.queue == s.queue
       else s'.ctl == Resting && s'.queue == s.queue + {s.ctl.key}
  }

  lemma FailShape(s: State)
    requires s.ctl.Busy?
    ensures Failed(s, CtlFail(s))
  {
  }

  /** A write that passed the version check, and the move after it. */
  ghost predicate Landed(s: State, s': State, obj: NodeMaintenance, next: Next)
    requires s.ctl.Busy?
  {
    && s'.st == Append(s.st, s.ctl.key, Stored(obj))
    && s'.openshift == s.openshift && s'.nodes == s.nodes && s'.pools == s.pools && s'.pview == s.pview
    && s'.sched == s.sched && s'.dr == s.dr && s'.h == AfterWrite(s, obj)
    && s'.ctl == if next.To? then s.ctl.(nm := obj, at := s.ctl.at + 1, pc := next.pc) else Resting
  }

  /** Only the reconciler, the queue and the timers change by a move. */
  lemma FollowKeeps(s: State, next: Next)
    requires s.ctl.Busy?
    ensures
      var s' := Follow(s, next);
      && s'.st == s.st && s'.openshift == s.openshift && s'.nodes == s.nodes && s'.pools == s.pools
      && s'.pview == s.pview
      && s'.sched == s.sched && s'.dr == s.dr && s'.h == s.h
      && if next.To? then s'.ctl == s.ctl.(pc := next.pc) else s'.ctl == Resting
  {
  }

  lemma CommitShape(s: State, obj: NodeMaintenance, next: Next)
    requires s.ctl.Busy?
    ensures Landed(s, Follow(Commit(s, obj), next), obj, next)
  {
    hide Append, Stored, Follow, AfterWrite;
    FollowKeeps(Commit(s, obj), next);
  }
}
