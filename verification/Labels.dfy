/** What the pool protocol rests on: the reconciler's copies of node and request are good enough,
    and the cache shows the pool label of every request that relies on a pool. */
module Labels {
  import opened Api
  import opened Versions
  import opened Handlers
  import opened Operator
  import opened Lifecycle
  import opened Histories
  import opened Rounds
  import opened Control
  import opened CoreInvariant
  import opened Effects
  import opened Shapes
  import opened Steadiness
  import opened CordonRestore
  import DR = DrainManagers

  /** A node that was removed, moved or missing has had all its pools noted. */
  ghost predicate PoolsNoted(nodes: map<string, Node>, h: History) {
    forall n :: n in nodes && n in h.lost ==> nodes[n].pool in h.lostPools
  }

  /** The copy of the node names the pool the node is in. */
  ghost predicate NodeCopy(nodes: map<string, Node>, h: History, c: Ctl) {
    c.Busy? && !BeforeNode(c.pc) ==>
      if c.nm.node in h.lost then c.node.pool in h.lostPools
      else c.nm.node in nodes && nodes[c.nm.node].pool == c.node.pool
  }

  predicate Pausing(pc: PC) { pc.Pause? || pc == Start(SetCordon) }

  /** A copy with finalizer is a version of the request that exists now. */
  ghost predicate Anchored(st: Store, lost: set<string>, c: Ctl) {
    c.Busy? && c.nm.node !in lost && c.nm.finalizer && (!c.nm.deleting || Pausing(c.pc)) ==>
      Alive(Log(st, c.key), c.at, Last(st, c.key))
  }

  /** A request in phase Cordon or later under the copy's name is the copy's. */
  ghost predicate CopyLives(st: Store, lost: set<string>, c: Ctl) {
    c.Busy? && IsLate(Cur(st, c.key)) && Kept(Cur(st, c.key), lost) ==> Lives(st, c)
  }

  predicate HasLabel(e: Entry) { e.Some? && e.value.poolLabel.Some? }

  ghost predicate LabelledFrom(log: seq<Entry>, i: int, j: int) {
    0 <= j < |log| && forall x :: 0 <= i <= x <= j ==> HasLabel(log[x])
  }

  /** The cache shows the label of every request in phase Cordon or later. */
  ghost predicate LabelsSeen(st: Store, lost: set<string>) {
    forall k :: IsLate(Cur(st, k)) && Kept(Cur(st, k), lost) ==> LabelledFrom(Log(st, k), Seen(st, k), Last(st, k))
  }

  /** From the label wait on, the cache shows the reconciler's label. */
  ghost predicate LabelHeld(st: Store, c: Ctl) {
    c.Busy? && Relabelled(c.pc) && c.pc != Pause(AwaitLabel) ==>
      HasLabel(Some(c.nm)) && LabelledFrom(Log(st, c.key), Seen(st, c.key), c.at)
  }

  ghost predicate CtlLabels(st: Store, nodes: map<string, Node>, h: History, openshift: bool, c: Ctl) {
    NodeCopy(nodes, h, c) && Anchored(st, h.lost, c) && CopyLives(st, h.lost, c) && (openshift ==> LabelHeld(st, c))
  }

  ghost predicate LabelInv(s: State) {
    && PoolsNoted(s.nodes, s.h)
    && (s.openshift ==> LabelsSeen(s.st, s.h.lost))
    && CtlLabels(s.st, s.nodes, s.h, s.openshift, s.ctl)
  }

  // ------------------------------------------------------ others' new versions

  lemma AppendLabels(st: Store, lost: set<string>, k: Key, e: Entry)
    requires LabelsSeen(st, lost) && Edge(Cur(st, k), e) && (IsLate(e) ==> IsLate(Cur(st, k)))
    ensures LabelsSeen(Append(st, k, e), lost)
  {
    var st' := Append(st, k, e);
    forall j | IsLate(Cur(st', j)) && Kept(Cur(st', j), lost)
      ensures LabelledFrom(Log(st', j), Seen(st', j), Last(st', j))
    {
      assert LabelledFrom(Log(st, j), Seen(st, j), Last(st, j));
      if j == k { assert HasLabel(Cur(st, k)); } else { assert Log(st', j) == Log(st, j); }
    }
  }

  lemma AppendAnchored(st: Store, lost: set<string>, c: Ctl, k: Key, e: Entry)
    requires LogsOk(st) && Steady(st, lost) && CtlOk(st, c) && Anchored(st, lost, c) && Gentle(Cur(st, k), e)
    ensures Anchored(Append(st, k, e), lost, c)
  {
    if c.Busy? && c.key == k && c.nm.node !in lost && c.nm.finalizer && (!c.nm.deleting || Pausing(c.pc)) {
      FinalizerStays(Log(st, k), Seen(st, k), lost, c.at, Last(st, k));
    }
  }

  lemma AppendCtlLabels(st: Store, nodes: map<string, Node>, h: History, openshift: bool, c: Ctl, k: Key, e: Entry)
    requires LogsOk(st) && Steady(st, h.lost) && CtlOk(st, c) && CtlLabels(st, nodes, h, openshift, c)
    requires Edge(Cur(st, k), e) && Gentle(Cur(st, k), e) && (IsLate(e) ==> IsLate(Cur(st, k)))
    ensures CtlLabels(Append(st, k, e), nodes, h, openshift, c)
  {
    hide LogsOk, Steady, Gentle;
    AppendAnchored(st, h.lost, c, k, e);
    if c.Busy? && c.key != k { assert Log(Append(st, k, e), c.key) == Log(st, c.key); }
  }

  lemma ForeignLabels(s: State, k: Key, e: Entry)
    requires Core(s) && SteadyInv(s) && LabelInv(s)
    requires Edge(Cur(s.st, k), e) && Gentle(Cur(s.st, k), e) && (IsLate(e) ==> IsLate(Cur(s.st, k)))
    ensures s.openshift ==> LabelsSeen(Append(s.st, k, e), s.h.lost)
    ensures CtlLabels(Append(s.st, k, e), s.nodes, s.h, s.openshift, s.ctl)
  {
    hide LogsOk, UidsOk, SchedOk, CtlOk, DR.DrainsInv, Steady, LabelsSeen, CtlLabels, Edge, Gentle;
    if s.openshift { AppendLabels(s.st, s.h.lost, k, e); }
    AppendCtlLabels(s.st, s.nodes, s.h, s.openshift, s.ctl, k, e);
  }

  lemma EditLabels(s: State, e: Edit)
    requires Core(s) && SteadyInv(s) && LabelInv(s) && CanEdit(s, e)
    ensures LabelInv(DoEdit(s, e))
  {
    hide Core, SteadyInv, PoolsNoted, LabelsSeen, CtlLabels, Edited, Gentle, Edge;
    EditFacts(s, e);
    ForeignLabels(s, e.k, Edited(s, e));
  }

  lemma EditFacts(s: State, e: Edit)
    requires Core(s) && CanEdit(s, e)
    ensures Edge(Cur(s.st, e.k), Edited(s, e)) && Gentle(Cur(s.st, e.k), Edited(s, e))
    ensures IsLate(Edited(s, e)) ==> IsLate(Cur(s.st, e.k))
  {
    EditGentle(s, e);
    EditLate(s, e);
  }

  lemma WriteOneLabels(s: State, k: Key, ok: bool)
    requires Core(s) && SteadyInv(s) && LabelInv(s) && CanSchedule(s, WriteOne(k, ok))
    ensures LabelInv(WriteScheduled(s, k, ok))
  {
    hide SteadyInv, PoolsNoted, LabelsSeen, CtlLabels, UidsOk, CtlOk, DR.DrainsInv;
    if ok && s.sched.todo[k] == Last(s.st, k) && Cur(s.st, k).Some? {
      CurOk(s.st, k);
      ForeignLabels(s, k, Some(WithReason(Cur(s.st, k).value, Scheduled)));
    }
  }

  lemma TurnLabels(s: State, t: Turn)
    requires Core(s) && SteadyInv(s) && LabelInv(s) && CanSchedule(s, t)
    ensures LabelInv(DoSchedule(s, t))
  {
    hide Core, SteadyInv, LabelsSeen, WriteScheduled, Anchored, CopyLives, LabelHeld;
    match t
    case WriteOne(k, ok) => WriteOneLabels(s, k, ok);
    case _ =>
  }

  lemma RelayLabels(s: State, r: Relay)
    requires LabelInv(s) && CanRelay(s, r)
    ensures LabelInv(DoRelay(s, r))
  {
    var s' := DoRelay(s, r);
    assert forall k :: Log(s'.st, k) == Log(s.st, k) && Cur(s'.st, k) == Cur(s.st, k);
  }

  lemma ChangeLabels(s: State, c: Change)
    requires LabelInv(s) && CanChange(s, c)
    ensures LabelInv(DoChange(s, c))
  {
    hide LabelHeld;
  }

  // --------------------------------------------------------- the reconciler

  predicate LabelMove(pc: PC, c: NodeMaintenance, openshift: bool, next: Next) {
    next.To? ==>
      && !BeforeNode(pc) && !BeforeNode(next.pc)
      && (Pausing(next.pc) ==> Pausing(pc) || !c.deleting)
      && (openshift && Relabelled(next.pc) ==> pc == Pause(SetLabel) && HasLabel(Some(c)))
  }

  predicate LabelWrite(pc: PC, openshift: bool, next: Next) {
    next.To? ==>
      && !BeforeNode(pc) && !BeforeNode(next.pc)
      && (openshift && Relabelled(next.pc) ==> next.pc == Pause(AwaitLabel))
  }

  lemma CodeLabelMove(pc: PC, c: NodeMaintenance, node: Node, openshift: bool, choice: nat)
    requires PcOk(pc, c)
    ensures
      match Code(pc, c, node, openshift, choice)
      case Go(next) => LabelMove(pc, c, openshift, next)
      case Write(_, next) => LabelWrite(pc, openshift, next)
      case TryWrite(_, next) => LabelMove(pc, c, openshift, next) && LabelWrite(pc, openshift, next)
      case Mark(_, next) => LabelMove(pc, c, openshift, next)
      case Look => true
  {
  }

  lemma GoLabels(st: Store, nodes: map<string, Node>, h: History, openshift: bool, c: Ctl, pc: PC)
    requires c.Busy? && CtlOk(st, c) && CtlLabels(st, nodes, h, openshift, c)
    requires LabelMove(c.pc, c.nm, openshift, To(pc))
    ensures CtlLabels(st, nodes, h, openshift, c.(pc := pc))
  {
  }

  lemma FollowLabels(s: State, next: Next)
    requires Core(s) && LabelInv(s) && s.ctl.Busy? && LabelMove(s.ctl.pc, s.ctl.nm, s.openshift, next)
    ensures LabelInv(Follow(s, next))
  {
    hide PoolsNoted, LabelsSeen, CtlLabels, LogsOk, UidsOk, SchedOk, CtlOk, DR.DrainsInv, LabelMove;
    RestingLabels();
    if next.To? { GoLabels(s.st, s.nodes, s.h, s.openshift, s.ctl, next.pc); }
  }

  lemma RestingLabels()
    ensures forall st, nodes, h, openshift :: CtlLabels(st, nodes, h, openshift, Resting)
  {
  }

  lemma CommitSeen(st: Store, lost: set<string>, c: Ctl, obj: NodeMaintenance)
    requires c.Busy? && CtlOk(st, c) && c.at == Last(st, c.key) && LabelsSeen(st, lost) && LabelHeld(st, c)
    requires Effect(c.pc, c.nm, c.node, obj)
    ensures LabelsSeen(Append(st, c.key, Stored(obj)), lost)
  {
    hide CtlOk, Effect, LabelHeld, LabelledFrom;
    var st' := Append(st, c.key, Stored(obj));
    forall j | IsLate(Cur(st', j)) && Kept(Cur(st', j), lost)
      ensures LabelledFrom(Log(st', j), Seen(st', j), Last(st', j))
    {
      if j == c.key {
        CommitLabelled(st, lost, c, obj);
      } else {
        assert Log(st', j) == Log(st, j);
      }
    }
  }

  lemma CommitLabelled(st: Store, lost: set<string>, c: Ctl, obj: NodeMaintenance)
    requires c.Busy? && CtlOk(st, c) && c.at == Last(st, c.key) && LabelsSeen(st, lost) && LabelHeld(st, c)
    requires Effect(c.pc, c.nm, c.node, obj) && Late(obj) && Stored(obj) == Some(obj) && Kept(Some(obj), lost)
    ensures LabelledFrom(Log(st, c.key) + [Some(obj)], Seen(st, c.key), Last(st, c.key) + 1)
  {
    var log := Log(st, c.key);
    assert Cur(st, c.key) == Some(c.nm);
    if c.pc != Start(SetCordon) { StaysLate(c, obj); }
    assert LabelledFrom(log, Seen(st, c.key), |log| - 1);
    assert HasLabel(Some(obj));
  }

  lemma CommitLabelCtl(st: Store, nodes: map<string, Node>, h: History, openshift: bool, c: Ctl,
                       obj: NodeMaintenance, pc: PC)
    requires c.Busy? && CtlOk(st, c) && c.at == Last(st, c.key) && CtlLabels(st, nodes, h, openshift, c)
    requires Effect(c.pc, c.nm, c.node, obj) && LabelWrite(c.pc, openshift, To(pc)) && Stored(obj).Some?
    ensures CtlLabels(Append(st, c.key, Stored(obj)), nodes, h, openshift, c.(nm := obj, at := c.at + 1, pc := pc))
  {
    EffectSame(c, obj);
  }

  lemma CommitLabels(s: State, obj: NodeMaintenance, next: Next)
    requires Core(s) && LabelInv(s) && s.ctl.Busy? && Current(s)
    requires Effect(s.ctl.pc, s.ctl.nm, s.ctl.node, obj) && LabelWrite(s.ctl.pc, s.openshift, next)
    requires next.To? ==> Stored(obj).Some?
    ensures LabelInv(Follow(Commit(s, obj), next))
  {
    hide PoolsNoted, LabelsSeen, LogsOk, UidsOk, SchedOk, CtlOk, DR.DrainsInv, LabelWrite, Effect, NodeCopy,
         Anchored, CopyLives, LabelHeld, Append, Stored;
    if s.openshift { CommitSeen(s.st, s.h.lost, s.ctl, obj); }
    if next.To? { CommitLabelCtl(s.st, s.nodes, s.h, s.openshift, s.ctl, obj, next.pc); }
    LandLabels(s, Commit(s, obj), next);
  }

  lemma LandLabels(s: State, s': State, next: Next)
    requires LabelInv(s) && s'.ctl.Busy? && s'.nodes == s.nodes
    requires s'.h == s.h.(entry := s'.h.entry, leaked := s'.h.leaked)
    requires s'.openshift == s.openshift
    requires s.openshift ==> LabelsSeen(s'.st, s.h.lost)
    requires next.To? ==> CtlLabels(s'.st, s.nodes, s.h, s.openshift, s'.ctl.(pc := next.pc))
    ensures LabelInv(Follow(s', next))
  {
    hide LabelsSeen, Anchored, CopyLives, LabelHeld;
    RestingLabels();
  }

  lemma FlipLabels(s: State, value: bool, next: Next)
    requires Core(s) && LabelInv(s) && s.ctl.Busy? && s.ctl.nm.node in s.nodes && next.To?
    requires LabelMove(s.ctl.pc, s.ctl.nm, s.openshift, next)
    ensures LabelInv(Follow(Flip(s, value), next))
  {
    hide LabelsSeen, LogsOk, UidsOk, SchedOk, CtlOk, DR.DrainsInv, LabelMove;
    GoLabels(s.st, s.nodes, s.h, s.openshift, s.ctl, next.pc);
  }

  lemma LookUpLabels(s: State)
    requires LabelInv(s) && s.ctl.Busy? && s.ctl.pc == Top(GetNode)
    ensures LabelInv(LookUpNode(s))
  {
  }

  lemma RefreshLabels(s: State)
    requires Core(s) && LabelInv(s) && s.ctl.Busy? && s.ctl.pc == Pause(AwaitLabel) && CtlReady(s)
    ensures LabelInv(Refresh(s))
  {
    hide LabelsSeen, LogsOk, UidsOk, SchedOk, DR.DrainsInv, PcOk;
    var v := View(s.st, s.ctl.key).value;
    CtlRefresh(s.st, s.ctl, v);
    SameRequest(s.st, s.ctl, s.ctl.(nm := v, at := Seen(s.st, s.ctl.key), pc := Pause(ReadPool)));
  }

  lemma LookedLabelCtl(st: Store, nodes: map<string, Node>, h: History, openshift: bool, c: Ctl, c': Ctl)
    requires c.Busy? && c'.Busy? && CtlLabels(st, nodes, h, openshift, c) && LookedCtl(c, c') && !BeforeNode(c.pc)
    requires c.pc != Pause(AwaitLabel) && (c.pc.Pause? ==> Relabelled(c.pc))
    ensures CtlLabels(st, nodes, h, openshift, c')
  {
  }

  lemma LookedLabels(s: State, s': State)
    requires LabelInv(s) && s.ctl.Busy? && Looked(s, s')
    requires !BeforeNode(s.ctl.pc) && s.ctl.pc != Pause(AwaitLabel) && (s.ctl.pc.Pause? ==> Relabelled(s.ctl.pc))
    ensures LabelInv(s')
  {
    hide LabelsSeen, Anchored, CopyLives, LabelHeld;
    RestingLabels();
    if s'.ctl.Busy? { LookedLabelCtl(s.st, s.nodes, s.h, s.openshift, s.ctl, s'.ctl); }
  }

  lemma LookLabels(s: State, choice: nat)
    requires Core(s) && LabelInv(s) && s.ctl.Busy? && CtlReady(s) && Looks(s.ctl.pc)
    ensures LabelInv(CtlLook(s, choice))
  {
    hide Core, LabelInv, Looked, CtlReady, UnpauseLook, DrainLook, LookUpNode, DrainLooks, Refresh, Follow,
         Patch, Finish;
    if s.ctl.pc == Top(GetNode) {
      LookUpLabels(s);
    } else if s.ctl.pc == Pause(AwaitLabel) {
      RefreshLabels(s);
    } else {
      LookShape(s, choice);
      LookedLabels(s, CtlLook(s, choice));
    }
  }

  lemma FailLabels(s: State)
    requires Core(s) && LabelInv(s) && s.ctl.Busy?
    ensures LabelInv(CtlFail(s))
  {
    hide LabelsSeen, CtlFail, LogsOk, UidsOk, SchedOk, CtlOk, DR.DrainsInv, Anchored, CopyLives, LabelHeld;
    FailShape(s);
    RestingLabels();
    if s.ctl.pc == Top(SetOwner) { GoLabels(s.st, s.nodes, s.h, s.openshift, s.ctl, Top(Dispatch)); }
  }

  lemma RetryLabels(s: State)
    requires LabelInv(s) && s.ctl.Busy?
    ensures LabelInv(Finish(s, Retry))
  {
    hide PoolsNoted, LabelsSeen;
  }

  lemma ActLabels(s: State, choice: nat)
    requires Core(s) && LabelInv(s) && s.ctl.Busy? && CtlReady(s)
    ensures LabelInv(CtlAct(s, choice))
  {
    hide Core, LabelInv, Code, CtlLook, Follow, Commit, Flip, Finish, CtlReady, PcOk, EntryOk, Edge, Effect,
         NextOk, LabelMove, LabelWrite;
    CopyFacts(s);
    var c := s.ctl;
    CodeOk(c.pc, c.nm, c.node, s.openshift, choice);
    CodeEffect(c.pc, c.nm, c.node, s.openshift, choice);
    CodeLabelMove(c.pc, c.nm, c.node, s.openshift, choice);
    CodeLooks(c.pc, c.nm, c.node, s.openshift, choice);
    RetryLabels(s);
    match Code(c.pc, c.nm, c.node, s.openshift, choice)
    case Go(next) => FollowLabels(s, next);
    case Write(obj, next) => if Current(s) { CommitLabels(s, obj, next); }
    case TryWrite(obj, next) =>
      if Current(s) { SameEffect(c); CommitLabels(s, obj, next); } else { FollowLabels(s, next); }
    case Mark(value, next) => if c.nm.node in s.nodes { FlipLabels(s, value, next); }
    case Look => LookLabels(s, choice);
  }

  lemma FetchLabels(s: State, k: Key)
    requires Core(s) && SteadyInv(s) && LabelInv(s) && s.ctl == Resting
    ensures LabelInv(CtlRead(s, k))
  {
    hide LabelsSeen, UidsOk, SchedOk, CtlOk, DR.DrainsInv;
    if View(s.st, k).Some? {
      var log, seen := Log(s.st, k), Seen(s.st, k);
      assert SteadyLog(log, seen, s.h.lost);
      assert HeldAlive(log, seen, s.h.lost, seen);
      if IsLate(Cur(s.st, k)) && Kept(Cur(s.st, k), s.h.lost) { AliveProgress(log, seen, |log| - 1); }
    }
  }

  lemma EvictLabels(s: State, e: Eviction)
    requires LabelInv(s) && CanEvict(s, e)
    ensures LabelInv(DoEvict(s, e))
  {
    hide PoolsNoted, LabelsSeen, CtlLabels;
  }

  lemma LabelStep(s: State, step: Step)
    requires Core(s) && SteadyInv(s) && LabelInv(s) && Enabled(s, step)
    ensures LabelInv(Apply(s, step))
  {
    hide Core, SteadyInv, LabelInv, CanEdit, DoEdit, CanChange, DoChange, CanRelay, DoRelay, CanEvict, DoEvict,
         CanSchedule, DoSchedule, CtlRead, CtlAct, CtlFail, CtlReady, CannotFail;
    match step
    case Edits(e) => EditLabels(s, e);
    case Changes(c) => ChangeLabels(s, c);
    case Relays(r) => RelayLabels(s, r);
    case Evictions(e) => EvictLabels(s, e);
    case Scheduling(t) => TurnLabels(s, t);
    case Fetch(k) => FetchLabels(s, k);
    case Reconcile(ok, choice) => if ok { ActLabels(s, choice); } else { FailLabels(s); }
  }

  lemma InitLabels(s: State)
    requires Init(s)
    ensures LabelInv(s)
  {
  }
}
