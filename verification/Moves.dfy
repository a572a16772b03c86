/** What a single step of the whole system can do to the stored requests, to a node's flag, to a
    pool and to the remembered operation limit. */
module Moves {
  import opened Api
  import opened Versions
  import opened Handlers
  import opened Operator
  import opened PreScheduling
  import opened Lifecycle
  import opened Histories
  import opened Rounds
  import opened Control
  import opened CoreInvariant
  import opened Effects
  import opened Shapes
  import opened Steadiness
  import opened CordonRestore
  import opened Labels
  import DR = DrainManagers

  // -------------------------------------------------------------- the store

  ghost predicate SameLogs(st: Store, st': Store) {
    forall k :: Log(st', k) == Log(st, k)
  }

  ghost predicate Appended(st: Store, st': Store, k: Key, e: Entry) {
    Log(st', k) == Log(st, k) + [e] && forall j :: j != k ==> Log(st', j) == Log(st, j)
  }

  /** Somebody else's version of `k`. */
  ghost predicate ForeignMove(st: Store, st': Store, k: Key, e: Entry) {
    Appended(st, st', k, e) && Edge(Cur(st, k), e) && Gentle(Cur(st, k), e)
  }

  /** The reconciler's own version. */
  ghost predicate OwnMove(s: State, st': Store, obj: NodeMaintenance)
    requires s.ctl.Busy?
  {
    && Current(s) && Cur(s.st, s.ctl.key) == Some(s.ctl.nm)
    && Appended(s.st, st', s.ctl.key, Stored(obj))
    && Effect(s.ctl.pc, s.ctl.nm, s.ctl.node, obj)
  }

  ghost predicate StoreMove(s: State, step: Step, st': Store) {
    || SameLogs(s.st, st')
    || (exists k, e :: ForeignMove(s.st, st', k, e))
    || (step.Reconcile? && step.ok && s.ctl.Busy? && exists obj :: OwnMove(s, st', obj))
  }

  lemma EditMoves(s: State, e: Edit)
    requires Core(s) && CanEdit(s, e)
    ensures StoreMove(s, Edits(e), DoEdit(s, e).st)
  {
    hide Core, Edge, Gentle, Edited;
    EditFacts(s, e);
    assert ForeignMove(s.st, DoEdit(s, e).st, e.k, Edited(s, e));
  }

  lemma TurnMoves(s: State, t: Turn)
    requires Core(s) && CanSchedule(s, t)
    ensures StoreMove(s, Scheduling(t), DoSchedule(s, t).st)
  {
    hide Core, Edge, Gentle, StoreMove, Lists;
    match t
    case WriteOne(k, ok) => WriteOneMoves(s, k, ok);
    case _ => SameMoves(s, Scheduling(t), s.st);
  }

  lemma SameMoves(s: State, step: Step, st': Store)
    requires SameLogs(s.st, st')
    ensures StoreMove(s, step, st')
  {
  }

  lemma WriteOneMoves(s: State, k: Key, ok: bool)
    requires Core(s) && CanSchedule(s, WriteOne(k, ok))
    ensures StoreMove(s, Scheduling(WriteOne(k, ok)), WriteScheduled(s, k, ok).st)
  {
    hide Core, Edge, Gentle;
    if ok && s.sched.todo[k] == Last(s.st, k) && Cur(s.st, k).Some? {
      WriteOneFacts(s, k);
      assert ForeignMove(s.st, WriteScheduled(s, k, ok).st, k, Some(WithReason(Cur(s.st, k).value, Scheduled)));
    }
  }

  lemma CommitMoves(s: State, obj: NodeMaintenance, next: Next)
    requires Core(s) && s.ctl.Busy? && Current(s) && Effect(s.ctl.pc, s.ctl.nm, s.ctl.node, obj)
    ensures OwnMove(s, Follow(Commit(s, obj), next).st, obj)
  {
    hide Core, Effect, Stored, Follow, Commit;
    CopyCurrent(s);
    CommitShape(s, obj, next);
  }

  lemma LookMoves(s: State, choice: nat)
    requires s.ctl.Busy? && CtlReady(s) && Looks(s.ctl.pc)
    ensures
      var s' := CtlLook(s, choice);
      && s'.st == s.st && s'.nodes == s.nodes && s'.h.limit == s.h.limit && s'.h.leaked == s.h.leaked
      && s'.h.lostPools == s.h.lostPools && s'.openshift == s.openshift && s'.h.poolTimedOut == s.h.poolTimedOut
  {
    hide CtlReady, PauseLook, UnpauseLook, DrainLook, DrainLooks;
    if s.ctl.pc != Top(GetNode) { LookShape(s, choice); }
  }

  /** The reconciler adds its own version or none. */
  lemma OwnOrSame(s: State, choice: nat)
    requires Core(s) && s.ctl.Busy? && CtlReady(s)
    ensures
      var st' := CtlAct(s, choice).st;
      SameLogs(s.st, st') || exists obj :: OwnMove(s, st', obj)
  {
    hide Core, OwnMove, SameLogs, Code, CtlLook, Commit, CtlReady, Effect;
    var c := s.ctl;
    CodeEffect(c.pc, c.nm, c.node, s.openshift, choice);
    CodeLooks(c.pc, c.nm, c.node, s.openshift, choice);
    SameItself(s.st);
    match Code(c.pc, c.nm, c.node, s.openshift, choice)
    case Go(_) =>
    case Write(obj, next) => if Current(s) { CommitMoves(s, obj, next); }
    case TryWrite(obj, next) => if Current(s) { SameEffect(c); CommitMoves(s, obj, next); }
    case Mark(_, _) =>
    case Look => LookMoves(s, choice);
  }

  lemma OwnMoves(s: State, choice: nat)
    requires s.ctl.Busy? && CtlReady(s)
    requires SameLogs(s.st, CtlAct(s, choice).st) || exists obj :: OwnMove(s, CtlAct(s, choice).st, obj)
    ensures StoreMove(s, Reconcile(true, choice), CtlAct(s, choice).st)
  {
    hide CtlAct, CtlReady, OwnMove, SameLogs;
  }

  lemma SameItself(st: Store)
    ensures SameLogs(st, st)
  {
  }

  lemma ChangeStore(s: State, c: Change)
    requires CanChange(s, c)
    ensures DoChange(s, c).st == s.st
  {
    hide CanEditPool, ChangedNodes, ChangedHistory;
  }

  lemma RelayLogs(s: State, r: Relay)
    requires CanRelay(s, r)
    ensures SameLogs(s.st, DoRelay(s, r).st)
  {
  }

  /** Steps of other kinds than the three that write. */
  lemma QuietMoves(s: State, step: Step)
    requires Enabled(s, step)
    requires step.Changes? || step.Relays? || step.Evictions? || step.Fetch? || (step.Reconcile? && !step.ok)
    ensures SameLogs(s.st, Apply(s, step).st)
  {
    hide CanChange, DoChange, CanRelay, DoRelay, CtlFail, CannotFail, SameLogs;
    SameItself(s.st);
    match step
    case Changes(c) => ChangeStore(s, c);
    case Relays(r) => RelayLogs(s, r);
    case Reconcile(_, _) => FailShape(s);
    case _ =>
  }

  lemma StoreMoves(s: State, step: Step)
    requires Core(s) && Enabled(s, step)
    ensures StoreMove(s, step, Apply(s, step).st)
  {
    hide Core, StoreMove, CanEdit, DoEdit, CanSchedule, DoSchedule, CtlAct, CtlFail, CtlReady, CannotFail,
         SameLogs, OwnMove, CanChange, DoChange, CanRelay, DoRelay, CanEvict, DoEvict, CtlRead;
    if step.Edits? {
      EditMoves(s, step.edit);
    } else if step.Scheduling? {
      TurnMoves(s, step.turn);
    } else if step.Reconcile? && step.ok {
      OwnOrSame(s, step.choice);
      OwnMoves(s, step.choice);
    } else {
      QuietMoves(s, step);
      SameMoves(s, step, Apply(s, step).st);
    }
  }

  /** Histories are never rewritten. */
  lemma LogsGrow(s: State, step: Step, k: Key)
    requires Core(s) && Enabled(s, step)
    ensures Log(s.st, k) <= Log(Apply(s, step).st, k)
  {
    hide Core, Enabled, Apply, Edge, Gentle, Effect;
    StoreMoves(s, step);
  }

  // -------------------------------------------- what the reconciler leaves alone

  lemma FollowFrame(s: State, next: Next)
    requires s.ctl.Busy?
    ensures
      var s' := Follow(s, next);
      s'.openshift == s.openshift && s'.nodes == s.nodes && s'.pools == s.pools && s'.dr == s.dr && s'.h == s.h
  {
  }

  lemma CommitFrame(s: State, obj: NodeMaintenance)
    requires s.ctl.Busy?
    ensures
      var s' := Commit(s, obj);
      && s'.nodes == s.nodes && s'.pools == s.pools && s'.dr == s.dr && s'.h == AfterWrite(s, obj)
      && s'.openshift == s.openshift && s'.h.poolTimedOut == s.h.poolTimedOut
      && s'.h.limit == s.h.limit && s'.h.lost == s.h.lost && s'.h.lostPools == s.h.lostPools
  {
  }

  lemma FlipFrame(s: State, value: bool)
    requires s.ctl.Busy? && s.ctl.nm.node in s.nodes
    ensures
      var s' := Flip(s, value);
      && s'.openshift == s.openshift && s'.pools == s.pools && s'.dr == s.dr && s'.h == s.h
      && forall n :: Flag(s.nodes, n) && !Flag(s'.nodes, n) <==> n == s.ctl.nm.node && Flag(s.nodes, n) && !value
  {
  }

  /** The statement makes the node schedulable. */
  predicate Uncordons(s: State)
    requires s.ctl.Busy?
  {
    && s.ctl.pc == Clean(UncordonNode) && s.ctl.nm.initial == Some(false) && s.ctl.node.unschedulable
    && Flag(s.nodes, s.ctl.nm.node)
  }

  /** The write that removes the finalizer, after a stale use check of a marked pool. */
  predicate LeavesStale(s: State, p: string)
    requires s.ctl.Busy?
  {
    s.ctl.pc == Clean(RemoveFinalizer) && Current(s) && s.ctl.node.pool == p && s.h.staleCheck && Marked(s, p)
  }

  /** Pools, drains and limit stay, nodes change by a flip only, and a pool leaks in one way only. */
  ghost predicate Framed(s: State, s': State)
    requires s.ctl.Busy?
  {
    && s'.pools == s.pools && s'.dr == s.dr && s'.h.limit == s.h.limit && s'.h.lost == s.h.lost
    && s'.h.lostPools == s.h.lostPools && s'.openshift == s.openshift && s'.h.poolTimedOut == s.h.poolTimedOut
    && (forall n :: Flag(s.nodes, n) && !Flag(s'.nodes, n) ==> Uncordons(s) && s.ctl.nm.node == n)
    && (forall p :: p in s'.h.leaked && p !in s.h.leaked ==> LeavesStale(s, p))
  }

  lemma FramedFollow(s: State, next: Next)
    requires s.ctl.Busy?
    ensures Framed(s, Follow(s, next))
  {
    hide Follow, Flag, LeavesStale, Uncordons;
    FollowFrame(s, next);
  }

  lemma FramedCommit(s: State, obj: NodeMaintenance, next: Next)
    requires s.ctl.Busy? && Current(s)
    ensures Framed(s, Follow(Commit(s, obj), next))
  {
    hide Follow, Commit, Flag, Uncordons;
    CommitFrame(s, obj);
    FollowFrame(Commit(s, obj), next);
  }

  lemma FramedFlip(s: State, value: bool, next: Next)
    requires s.ctl.Busy? && s.ctl.nm.node in s.nodes && Marking(s.ctl.pc, s.ctl.nm, s.ctl.node, value, next)
    ensures Framed(s, Follow(Flip(s, value), next))
  {
    hide Follow, Flip, Flag, LeavesStale;
    FlipFrame(s, value);
    FollowFrame(Flip(s, value), next);
  }

  /** Every statement that does not look. */
  lemma ActFrame(s: State, choice: nat)
    requires s.ctl.Busy? && CtlReady(s) && !Looks(s.ctl.pc)
    ensures Framed(s, CtlAct(s, choice))
  {
    hide Code, CtlLook, CtlReady, Follow, Commit, Flip, Effect, Looks, Framed, Marking, Finish;
    var c := s.ctl;
    CodeEffect(c.pc, c.nm, c.node, s.openshift, choice);
    CodeLooks(c.pc, c.nm, c.node, s.openshift, choice);
    FramedRetry(s);
    match Code(c.pc, c.nm, c.node, s.openshift, choice)
    case Go(next) => FramedFollow(s, next);
    case Write(obj, next) => if Current(s) { FramedCommit(s, obj, next); }
    case TryWrite(obj, next) => if Current(s) { FramedCommit(s, obj, next); } else { FramedFollow(s, next); }
    case Mark(value, next) => if c.nm.node in s.nodes { FramedFlip(s, value, next); }
    case Look =>
  }

  lemma FramedRetry(s: State)
    requires s.ctl.Busy?
    ensures Framed(s, Finish(s, Retry))
  {
    FramedFollow(s, End(Retry));
  }

  // --------------------------------------------------------------- the flag

  lemma ActFlag(s: State, choice: nat, n: string)
    requires s.ctl.Busy? && CtlReady(s) && Flag(s.nodes, n) && !Flag(CtlAct(s, choice).nodes, n)
    ensures s.ctl.pc == Clean(UncordonNode) && s.ctl.nm.node == n
  {
    hide Code, CtlLook, CtlReady, Follow, Commit, Flip, Finish, Looks, Flag;
    CodeLooks(s.ctl.pc, s.ctl.nm, s.ctl.node, s.openshift, choice);
    if Looks(s.ctl.pc) { LookMoves(s, choice); } else { ActFrame(s, choice); }
  }

  lemma ChangeFlag(s: State, c: Change, n: string)
    requires CanChange(s, c) && Flag(s.nodes, n) && !Flag(DoChange(s, c).nodes, n)
    ensures c == RemoveNode(n) || c == SetUnschedulable(n, false)
  {
  }

  /** A node becomes schedulable only by somebody else, by its removal, or in the clean-up of the
      request the reconciler works on. */
  lemma FlagMoves(s: State, step: Step, n: string)
    requires Enabled(s, step) && Flag(s.nodes, n) && !Flag(Apply(s, step).nodes, n)
    ensures
      || step == Changes(RemoveNode(n))
      || step == Changes(SetUnschedulable(n, false))
      || (step.Reconcile? && step.ok && s.ctl.Busy? && s.ctl.pc == Clean(UncordonNode) && s.ctl.nm.node == n)
  {
    hide CanEdit, CanChange, DoChange, CanSchedule, DoSchedule, CtlAct, CtlFail, CtlReady, CannotFail, Flag;
    match step
    case Changes(c) => ChangeFlag(s, c, n);
    case Scheduling(t) => TurnLimit(s, t);
    case Reconcile(ok, choice) => if ok { ActFlag(s, choice, n); } else { FailShape(s); }
    case _ =>
  }

  // ------------------------------------------------------------- the limit

  /** A round that starts has at most `n` operations. */
  predicate WithinLimit(step: Step, n: int) {
    step.Scheduling? && step.turn.List? ==>
      var ops := MaxOperations(step.turn.limits, |step.turn.nodes|);
      ops.Some? ==> ops.value <= n
  }

  lemma ActLimit(s: State, choice: nat)
    requires s.ctl.Busy? && CtlReady(s)
    ensures CtlAct(s, choice).h.limit == s.h.limit
  {
    hide Code, CtlLook, CtlReady, Follow, Commit, Flip, Finish, Looks;
    CodeLooks(s.ctl.pc, s.ctl.nm, s.ctl.node, s.openshift, choice);
    if Looks(s.ctl.pc) { LookMoves(s, choice); } else { ActFrame(s, choice); }
  }

  lemma ChangeLimit(s: State, c: Change)
    requires CanChange(s, c)
    ensures DoChange(s, c).h.limit == s.h.limit
  {
    hide CanEditPool, ChangedNodes, ChangedHistory;
  }

  lemma TurnLimit(s: State, t: Turn)
    requires CanSchedule(s, t)
    ensures DoSchedule(s, t).nodes == s.nodes
    ensures
      DoSchedule(s, t).h.limit ==
        if t.List? && MaxOperations(t.limits, |t.nodes|).Some?
        then Max(s.h.limit, MaxOperations(t.limits, |t.nodes|).value)
        else s.h.limit
  {
    hide Lists, MaxOperations, Plan;
  }

  lemma LimitMoves(s: State, step: Step, n: int)
    requires Enabled(s, step) && WithinLimit(step, n) && s.h.limit <= n
    ensures Apply(s, step).h.limit <= n
  {
    hide CanEdit, CanChange, DoChange, CanSchedule, DoSchedule, CtlAct, CtlFail, CtlReady, CannotFail,
         MaxOperations;
    match step
    case Changes(c) => ChangeLimit(s, c);
    case Scheduling(t) => TurnLimit(s, t);
    case Reconcile(ok, choice) => if ok { ActLimit(s, choice); } else { FailShape(s); }
    case _ =>
  }

  // ------------------------------------------------------------- leaked pools

  /** Nothing that excludes a guarantee about pools is forgotten. */
  predicate Remembered(s: State, s': State) {
    && s'.openshift == s.openshift && s.h.lostPools <= s'.h.lostPools
    && (s.h.poolTimedOut ==> s'.h.poolTimedOut)
  }

  lemma ActLeaks(s: State, choice: nat, p: string)
    requires s.ctl.Busy? && CtlReady(s)
    ensures p in CtlAct(s, choice).h.leaked && p !in s.h.leaked ==> LeavesStale(s, p)
    ensures Remembered(s, CtlAct(s, choice))
  {
    hide Code, CtlLook, CtlReady, Follow, Commit, Flip, Finish, Looks, LeavesStale;
    CodeLooks(s.ctl.pc, s.ctl.nm, s.ctl.node, s.openshift, choice);
    if Looks(s.ctl.pc) { LookMoves(s, choice); } else { ActFrame(s, choice); }
  }

  lemma ChangeLeaks(s: State, c: Change)
    requires CanChange(s, c)
    ensures DoChange(s, c).h.leaked == s.h.leaked && Remembered(s, DoChange(s, c))
  {
    hide CanEditPool, ChangedNodes, ChangedHistory;
  }

  lemma RelayLeaks(s: State, r: Relay)
    requires CanRelay(s, r)
    ensures DoRelay(s, r).h == s.h && Remembered(s, DoRelay(s, r))
  {
  }

  lemma TurnLeaks(s: State, t: Turn)
    requires CanSchedule(s, t)
    ensures DoSchedule(s, t).h.leaked == s.h.leaked && Remembered(s, DoSchedule(s, t))
  {
    hide Lists, Plan, MaxOperations, Append;
  }

  /** A pool leaks by one kind of step only. */
  lemma LeakMoves(s: State, step: Step, p: string)
    requires Enabled(s, step)
    ensures Remembered(s, Apply(s, step))
    ensures p in Apply(s, step).h.leaked && p !in s.h.leaked ==> step.Reconcile? && step.ok && LeavesStale(s, p)
  {
    hide CanEdit, Edited, CanChange, DoChange, CanRelay, DoRelay, CanSchedule, DoSchedule, CtlAct, CtlFail,
         CtlReady, CannotFail, LeavesStale;
    match step
    case Changes(c) => ChangeLeaks(s, c);
    case Relays(r) => RelayLeaks(s, r);
    case Scheduling(t) => TurnLeaks(s, t);
    case Reconcile(ok, choice) => if ok { ActLeaks(s, choice, p); } else { FailShape(s); }
    case _ =>
  }

  // --------------------------------------------------------------- the pools

  predicate Patches(pc: PC) { pc == Pause(PatchPool) || pc == Pause(UndoPatch) || pc == Clean(PatchUnpause) }

  lemma PatchFrame(s: State, on: bool, pc: PC)
    requires s.ctl.Busy?
    ensures
      Patch(s, on, pc).pools ==
        if s.ctl.node.pool in s.pools then SetPool(s, s.ctl.node.pool, on).pools else s.pools
  {
    hide Follow;
    if s.ctl.node.pool in s.pools { FollowFrame(SetPool(s, s.ctl.node.pool, on), To(pc)); }
  }

  lemma PausePatches(s: State)
    requires s.ctl.Busy? && s.ctl.pc.Pause? && CtlReady(s)
    ensures
      PauseLook(s).pools ==
        if (s.ctl.pc == Pause(PatchPool) || s.ctl.pc == Pause(UndoPatch)) && s.ctl.node.pool in s.pools
        then SetPool(s, s.ctl.node.pool, s.ctl.pc == Pause(PatchPool)).pools else s.pools
  {
    hide Follow, Patch, SetPool;
    match s.ctl.pc.pause
    case ReadPool => FollowFrame(NoteRace(s, s.ctl.node.pool), AfterReadPool(s));
    case PatchPool => PatchFrame(s, true, Pause(AwaitMark));
    case AwaitMark => FollowFrame(s, AfterMark(s));
    case UndoPatch => PatchFrame(s, false, Pause(AwaitUndo));
    case _ =>
  }

  lemma UnpausePatches(s: State)
    requires s.ctl.Busy? && s.ctl.pc.Clean?
    ensures
      UnpauseLook(s).pools ==
        if s.ctl.pc == Clean(PatchUnpause) && s.ctl.node.pool in s.pools
        then SetPool(s, s.ctl.node.pool, false).pools else s.pools
  {
    hide Follow, Patch, SetPool, CheckUsers;
    match s.ctl.pc.clean
    case ReadMark => FollowFrame(s, AfterReadMark(s));
    case CheckUse => CheckedUsers(s);
    case PatchUnpause => PatchFrame(s, false, Clean(AwaitUnmark));
    case _ => FollowFrame(s, To(Clean(RemoveFinalizer)));
  }

  lemma DrainKeepsPools(s: State, choice: nat)
    requires s.ctl.Busy? && s.ctl.pc.Drain? && CtlReady(s)
    ensures DrainLook(s, choice).pools == s.pools
  {
    hide AfterRemoval, AfterCheck, Follow, InsertDrain, CancelDrain;
    match s.ctl.pc.drain
    case GetDrain => FollowFrame(s, To(Drain(InitStatus)));
    case AddDrain => InsertKeepsPools(s, choice);
    case RemoveDrain(after) => CancelKeepsPools(s, after);
    case _ => FollowFrame(s, To(Drain(AfterCheck(s))));
  }

  lemma InsertKeepsPools(s: State, choice: nat)
    requires s.ctl.Busy? && s.ctl.pc == Drain(AddDrain) && CtlReady(s)
    ensures InsertDrain(s, choice).pools == s.pools
  {
  }

  lemma CancelKeepsPools(s: State, after: AfterRemove)
    requires s.ctl.Busy? && s.ctl.pc == Drain(RemoveDrain(after)) && CtlReady(s)
    ensures CancelDrain(s, after).pools == s.pools
  {
    hide AfterRemoval, Follow;
    FollowFrame(s, AfterRemoval(after, s.ctl.nm, s.openshift));
    FollowFrame(s.(dr := CancelDrain(s, after).dr), AfterRemoval(after, s.ctl.nm, s.openshift));
    if s.dr.op.Removing? { FollowFrame(s.(dr := DR.RemoveStep(s.dr)), AfterRemoval(after, s.ctl.nm, s.openshift)); }
  }

  /** The reconciler changes a pool at three statements only, and there only its own. */
  lemma ActPatches(s: State, choice: nat)
    requires s.ctl.Busy? && CtlReady(s)
    ensures
      CtlAct(s, choice).pools ==
        if Patches(s.ctl.pc) && s.ctl.node.pool in s.pools
        then SetPool(s, s.ctl.node.pool, s.ctl.pc == Pause(PatchPool)).pools else s.pools
  {
    hide Code, PauseLook, UnpauseLook, DrainLook, CtlReady, Follow, Commit, Flip, Finish;
    CodeLooks(s.ctl.pc, s.ctl.nm, s.ctl.node, s.openshift, choice);
    if !Looks(s.ctl.pc) {
      ActFrame(s, choice);
    } else {
      match s.ctl.pc
      case Pause(_) => PausePatches(s);
      case Clean(_) => UnpausePatches(s);
      case Drain(_) => DrainKeepsPools(s, choice);
      case _ =>
    }
  }
}
