/** The reconciler's local variables: its copy is a version in the history of its request, and the
    assertion of the statement it is at holds, whatever everybody else does meanwhile. */
module Control {
  import opened Api
  import opened Versions
  import opened Handlers
  import opened Operator
  import opened Lifecycle
  import opened Histories

  /** Statements reached only after the pool label is known to be set. */
  predicate Relabelled(pc: PC) {
    pc == Start(SetCordon) || (pc.Pause? && pc.pause != FindPool && pc.pause != SetLabel)
  }

  /** The versions between the one read and the copy are the reconciler's own, and agree on
      deletion and label. */
  ghost predicate OwnWrites(log: seq<Entry>, from: int, at: int)
    requires Alive(log, from, at)
  {
    forall x :: from <= x <= at ==>
      log[x].value.deleting == log[at].value.deleting && log[x].value.poolLabel == log[at].value.poolLabel
  }

  /** While the reconciler waits to see its label in the cache: the label is in the version it
      wrote and in all later ones, and the versions it read before do not have it. */
  ghost predicate LabelPending(log: seq<Entry>, from: int, at: int, pool: string) {
    && Alive(log, from, |log| - 1) && from <= at < |log|
    && (forall x :: at <= x < |log| ==> Labelled(log[x], pool))
    && (forall x :: from <= x < at ==> log[x].value.poolLabel != Some(pool))
  }

  predicate Labelled(e: Entry, pool: string) {
    e.Some? && e.value.reason == Scheduled && e.value.finalizer && e.value.poolLabel == Some(pool)
  }

  ghost predicate CtlOk(st: Store, c: Ctl) {
    c.Busy? ==>
      var log := Log(st, c.key);
      && c.from <= c.at && c.from <= Seen(st, c.key)
      && Alive(log, c.from, c.at)
      && log[c.at] == Some(c.nm)
      && PcOk(c.pc, c.nm)
      && (c.pc == Pause(AwaitLabel) ==> LabelPending(log, c.from, c.at, c.node.pool))
      && (!Relabelled(c.pc) ==> OwnWrites(log, c.from, c.at))
  }

  /** What an edit by others, or by the scheduler, leaves alone in a request with the finalizer. */
  predicate Gentle(before: Entry, after: Entry) {
    && (before.Some? && before.value.finalizer ==>
          && after.Some? && after.value.reason == before.value.reason && after.value.finalizer
          && after.value.poolLabel == before.value.poolLabel && after.value.initial == before.value.initial)
    && (after.Some? && after.value.finalizer ==> before.Some? && before.value.finalizer)
  }

  lemma CtlAppend(st: Store, c: Ctl, k: Key, e: Entry)
    requires CtlOk(st, c) && Gentle(Cur(st, k), e)
    ensures CtlOk(Append(st, k, e), c)
  {
  }

  lemma CtlSeen(st: Store, st': Store, c: Ctl)
    requires CtlOk(st, c)
    requires forall k :: Log(st', k) == Log(st, k) && Seen(st, k) <= Seen(st', k)
    ensures CtlOk(st', c)
  {
  }

  lemma EditGentle(s: State, e: Edit)
    requires LogsOk(s.st) && CanEdit(s, e)
    ensures Edge(Cur(s.st, e.k), Edited(s, e))
    ensures Gentle(Cur(s.st, e.k), Edited(s, e))
    ensures Edited(s, e).Some? && UnderMaintenance(Edited(s, e).value) ==>
              Cur(s.st, e.k).Some? && UnderMaintenance(Cur(s.st, e.k).value)
  {
    CurOk(s.st, e.k);
  }

  // ------------------------------------------------------------- own moves

  /** What a statement's write keeps besides being legal. */
  predicate WriteKeeps(pc: PC, c: NodeMaintenance, node: Node, obj: NodeMaintenance, next: Next) {
    next.To? ==>
      if next.pc == Pause(AwaitLabel) then
        && pc == Pause(SetLabel) && c.poolLabel != Some(node.pool)
        && obj == c.(poolLabel := Some(node.pool))
      else
        obj.deleting == c.deleting && obj.poolLabel == c.poolLabel && (Relabelled(pc) ==> Relabelled(next.pc))
  }

  predicate GoKeeps(pc: PC, next: Next) {
    next.To? ==> next.pc != Pause(AwaitLabel) && (Relabelled(pc) ==> Relabelled(next.pc))
  }

  predicate ActionKeeps(pc: PC, c: NodeMaintenance, node: Node, a: Action) {
    match a
    case Go(next) => GoKeeps(pc, next)
    case Write(obj, next) => WriteKeeps(pc, c, node, obj, next)
    case TryWrite(obj, next) => WriteKeeps(pc, c, node, obj, next) && GoKeeps(pc, next)
    case Mark(_, next) => GoKeeps(pc, next)
    case Look => true
  }

  lemma TopKeeps(pc: TopPC, c: NodeMaintenance, node: Node, openshift: bool, choice: nat)
    ensures ActionKeeps(Top(pc), c, node, TopCode(pc, c, openshift, choice))
  {
  }

  lemma StartKeeps(pc: StartPC, c: NodeMaintenance, node: Node, openshift: bool)
    ensures ActionKeeps(Start(pc), c, node, StartCode(pc, c, openshift))
  {
  }

  lemma PauseKeeps(pc: PausePC, c: NodeMaintenance, node: Node)
    ensures ActionKeeps(Pause(pc), c, node, PauseCode(pc, c, node))
  {
  }

  lemma CordonKeeps(pc: CordonPC, c: NodeMaintenance, node: Node)
    ensures ActionKeeps(Cordoning(pc), c, node, CordonCode(pc, c, node))
  {
  }

  lemma DrainKeeps(pc: DrainPC, c: NodeMaintenance, node: Node, choice: nat)
    ensures ActionKeeps(Drain(pc), c, node, DrainCode(pc, c, choice))
  {
  }

  lemma CleanKeeps(pc: CleanPC, c: NodeMaintenance, node: Node, openshift: bool)
    ensures ActionKeeps(Clean(pc), c, node, CleanCode(pc, c, node, openshift))
  {
  }

  lemma OtherKeeps(pc: PC, c: NodeMaintenance, node: Node, openshift: bool, choice: nat)
    requires pc.Pods? || pc.Final?
    ensures ActionKeeps(pc, c, node, Code(pc, c, node, openshift, choice))
  {
  }

  lemma CodeKeeps(pc: PC, c: NodeMaintenance, node: Node, openshift: bool, choice: nat)
    ensures ActionKeeps(pc, c, node, Code(pc, c, node, openshift, choice))
  {
    hide ActionKeeps, TopCode, StartCode, PauseCode, CordonCode, PodsCode, DrainCode, TerminalCode, CleanCode;
    match pc
    case Top(p) => TopKeeps(p, c, node, openshift, choice);
    case Start(p) => StartKeeps(p, c, node, openshift);
    case Pause(p) => PauseKeeps(p, c, node);
    case Cordoning(p) => CordonKeeps(p, c, node);
    case Drain(p) => DrainKeeps(p, c, node, choice);
    case Clean(p) => CleanKeeps(p, c, node, openshift);
    case _ => OtherKeeps(pc, c, node, openshift, choice);
  }

  lemma RemovalKeeps(after: AfterRemove, c: NodeMaintenance, openshift: bool)
    ensures GoKeeps(Drain(RemoveDrain(after)), AfterRemoval(after, c, openshift))
  {
  }

  lemma RestingOk(st: Store)
    ensures CtlOk(st, Resting)
  {
  }

  lemma CtlGo(st: Store, c: Ctl, pc: PC)
    requires c.Busy? && CtlOk(st, c) && PcOk(pc, c.nm) && GoKeeps(c.pc, To(pc))
    ensures CtlOk(st, c.(pc := pc))
  {
  }

  lemma CtlCommit(st: Store, c: Ctl, obj: NodeMaintenance, pc: PC)
    requires c.Busy? && CtlOk(st, c) && c.at == Last(st, c.key)
    requires Stored(obj).Some? && PcOk(pc, obj) && WriteKeeps(c.pc, c.nm, c.node, obj, To(pc))
    ensures CtlOk(Append(st, c.key, Stored(obj)), c.(nm := obj, at := c.at + 1, pc := pc))
  {
    var log, log' := Log(st, c.key), Log(st, c.key) + [Some(obj)];
    assert Alive(log', c.from, c.at + 1);
    if pc == Pause(AwaitLabel) {
      assert OwnWrites(log, c.from, c.at);
      assert forall x :: c.from <= x < c.at + 1 ==> log'[x].value.poolLabel == c.nm.poolLabel;
    } else if !Relabelled(pc) {
      assert OwnWrites(log, c.from, c.at);
    }
  }

  /** After the wait the copy is what the cache shows: still the same request, in phase Scheduled,
      with finalizer and label. */
  lemma CtlRefresh(st: Store, c: Ctl, v: NodeMaintenance)
    requires c.Busy? && CtlOk(st, c) && c.pc == Pause(AwaitLabel)
    requires View(st, c.key) == Some(v) && v.poolLabel == Some(c.node.pool)
    ensures CtlOk(st, c.(nm := v, at := Seen(st, c.key), pc := Pause(ReadPool)))
    ensures c.at <= Seen(st, c.key)
  {
    assert c.at <= Seen(st, c.key);
    assert Labelled(Log(st, c.key)[Seen(st, c.key)], c.node.pool);
  }
}
