/** The life of one request: which versions may follow which, and what the reconciler's program
    knows about its copy at every statement. */
module Lifecycle {
  import opened Api
  import opened Versions
  import opened Handlers
  import opened Operator

  // -------------------------------------------------------- legal histories

  /** The phase diagram. */
  predicate ReasonEdge(a: Reason, b: Reason) {
    || a == b
    || (a == Uninitialized && (b == Pending || b == Scheduled))
    || (a == Pending && b == Scheduled)
    || (a == Scheduled && b == Cordon)
    || (a == Cordon && b == WaitForPodCompletion)
    || (a == WaitForPodCompletion && b == Draining)
    || (a == Draining && b == Ready)
    || (a == Ready && b == RequestorFailed)
    || (a == RequestorFailed && b == Ready)
  }

  /** What every stored version satisfies. */
  predicate EntryOk(x: NodeMaintenance) {
    && (x.ready <==> x.reason == Ready)
    && (!UnderMaintenance(x) ==> !x.finalizer && !x.deleting && x.poolLabel == None && x.initial == None)
    && (x.deleting ==> x.finalizer)
    && (x.initial.Some? ==> Late(x) && x.cordon)
  }

  predicate SameIdentity(x: NodeMaintenance, y: NodeMaintenance) {
    x.uid == y.uid && x.created == y.created && x.requestor == y.requestor && x.node == y.node && x.cordon == y.cordon
  }

  /** The node-initial-state annotation is set once, in phase Cordon, and dropped only on deletion. */
  predicate InitialEdge(x: NodeMaintenance, y: NodeMaintenance) {
    || x.initial == y.initial
    || (x.initial == None && x.reason == Cordon && !x.deleting && y.reason == Cordon)
    || (y.initial == None && x.deleting)
  }

  predicate Successor(x: NodeMaintenance, y: NodeMaintenance) {
    && SameIdentity(x, y)
    && ReasonEdge(x.reason, y.reason)
    && EntryOk(y)
    && (x.deleting ==> y.deleting)
    && (x.poolLabel.Some? ==> y.poolLabel.Some?)
    && (Late(y) && !Late(x) ==> x.finalizer && y.initial == None)
    && (x.reason == Cordon && y.reason != Cordon && x.cordon ==> x.initial.Some? && !x.deleting)
    && (y.reason != x.reason && x.reason != Scheduled ==> !x.deleting)
    && InitialEdge(x, y)
  }

  predicate Edge(a: Entry, b: Entry) {
    match (a, b)
    case (None, Some(y)) => Unborn(y)
    case (Some(x), None) => x.deleting || !x.finalizer
    case (Some(x), Some(y)) => Successor(x, y)
    case (None, None) => false
  }

  // ------------------------------------------------- the reconciler's program

  predicate DrainPcOk(pc: DrainPC, c: NodeMaintenance) {
    && c.reason == Draining
    && match pc
       case RemoveDrain(after) =>
         && (after == ThenCleanup <==> c.deleting)
         && (after == ThenRequeue || after == ThenReady ==> c.drainSpec.Some?)
         && (after == ThenClearStatus ==> c.drainSpec == None)
       case ClearStatus => !c.deleting && c.drainSpec == None
       case SetReady => !c.deleting
       case _ => !c.deleting && c.drainSpec.Some?
  }

  /** What holds of the copy `c` whenever the program is at `pc`. */
  predicate PcOk(pc: PC, c: NodeMaintenance) {
    match pc
    case Top(p) => p == SetPending ==> c.reason == Uninitialized
    case Start(p) => c.reason == Scheduled && if p == AddFinalizer then !c.deleting else c.finalizer
    case Pause(p) =>
      c.reason == Scheduled && c.finalizer && if p == FindPool || p == SetLabel then !c.deleting else c.poolLabel.Some?
    case Cordoning(p) =>
      && c.reason == Cordon && !c.deleting
      && (p != SetWaitForPods ==> c.cordon)
      && (p != NoteInitial && c.cordon ==> c.initial.Some?)
    case Pods(_) => c.reason == WaitForPodCompletion && !c.deleting
    case Drain(p) => DrainPcOk(p, c)
    case Final(_) => Terminal(c) && !c.deleting
    case Clean(p) =>
      && c.deleting && UnderMaintenance(c) && (Terminal(c) ==> c.additional == {})
      && if p == UncordonNode || p == ForgetInitial then Late(c) && c.cordon else c.initial == None
  }

  predicate NextOk(next: Next, c: NodeMaintenance) {
    next.To? ==> PcOk(next.pc, c)
  }

  predicate ActionOk(c: NodeMaintenance, a: Action) {
    match a
    case Go(next) => NextOk(next, c)
    case Write(obj, next) =>
      Edge(Some(c), Stored(obj)) && SameIdentity(c, obj) && NextOk(next, obj) && (next.To? ==> Stored(obj).Some?)
    case TryWrite(obj, next) =>
      Edge(Some(c), Stored(obj)) && obj == c && NextOk(next, c) && next.To? && Stored(obj).Some?
    case Mark(_, next) => NextOk(next, c)
    case Look => true
  }

  lemma HandlerOk(c: NodeMaintenance, openshift: bool)
    requires EntryOk(c)
    ensures NextOk(Handler(c, openshift), c)
  {
  }

  lemma TopCodeOk(pc: TopPC, c: NodeMaintenance, openshift: bool, choice: nat)
    requires EntryOk(c) && PcOk(Top(pc), c)
    ensures ActionOk(c, TopCode(pc, c, openshift, choice))
  {
    hide Handler;
    HandlerOk(c, openshift);
    SameWriteOk(c);
  }

  lemma StartCodeOk(pc: StartPC, c: NodeMaintenance, openshift: bool)
    requires EntryOk(c) && PcOk(Start(pc), c)
    ensures ActionOk(c, StartCode(pc, c, openshift))
  {
  }

  lemma PauseCodeOk(pc: PausePC, c: NodeMaintenance, node: Node)
    requires EntryOk(c) && PcOk(Pause(pc), c)
    ensures ActionOk(c, PauseCode(pc, c, node))
  {
  }

  lemma CordonCodeOk(pc: CordonPC, c: NodeMaintenance, node: Node)
    requires EntryOk(c) && PcOk(Cordoning(pc), c)
    ensures ActionOk(c, CordonCode(pc, c, node))
  {
  }

  lemma PodsCodeOk(pc: PodsPC, c: NodeMaintenance, choice: nat)
    requires EntryOk(c) && PcOk(Pods(pc), c)
    ensures ActionOk(c, PodsCode(pc, c, choice))
  {
  }

  /** A write of the copy as it is, for its status. */
  lemma SameWriteOk(c: NodeMaintenance)
    requires EntryOk(c)
    ensures Stored(c) == Some(c) && Edge(Some(c), Stored(c)) && SameIdentity(c, c)
  {
  }

  lemma ReadyWriteOk(c: NodeMaintenance)
    requires EntryOk(c) && c.reason == Draining && !c.deleting
    ensures Edge(Some(c), Stored(WithReason(c, Ready))) && SameIdentity(c, WithReason(c, Ready))
  {
  }

  lemma DrainCodeOk(pc: DrainPC, c: NodeMaintenance, choice: nat)
    requires EntryOk(c) && PcOk(Drain(pc), c)
    ensures ActionOk(c, DrainCode(pc, c, choice))
  {
    hide EntryOk, Edge, SameIdentity, Stored;
    SameWriteOk(c);
    if !c.deleting { ReadyWriteOk(c); }
  }

  lemma TerminalCodeOk(pc: TerminalPC, c: NodeMaintenance)
    requires EntryOk(c) && PcOk(Final(pc), c)
    ensures ActionOk(c, TerminalCode(pc, c))
  {
  }

  lemma CleanCodeOk(pc: CleanPC, c: NodeMaintenance, node: Node, openshift: bool)
    requires EntryOk(c) && PcOk(Clean(pc), c)
    ensures ActionOk(c, CleanCode(pc, c, node, openshift))
  {
  }

  /** Every statement leads to a statement whose assertion holds, and every write is legal. */
  lemma CodeOk(pc: PC, c: NodeMaintenance, node: Node, openshift: bool, choice: nat)
    requires EntryOk(c) && PcOk(pc, c)
    ensures ActionOk(c, Code(pc, c, node, openshift, choice))
  {
    match pc
    case Top(p) => TopCodeOk(p, c, openshift, choice);
    case Start(p) => StartCodeOk(p, c, openshift);
    case Pause(p) => PauseCodeOk(p, c, node);
    case Cordoning(p) => CordonCodeOk(p, c, node);
    case Pods(p) => PodsCodeOk(p, c, choice);
    case Drain(p) => DrainCodeOk(p, c, choice);
    case Final(p) => TerminalCodeOk(p, c);
    case Clean(p) => CleanCodeOk(p, c, node, openshift);
  }

  lemma RemovalOk(after: AfterRemove, c: NodeMaintenance, openshift: bool)
    requires EntryOk(c) && PcOk(Drain(RemoveDrain(after)), c)
    ensures NextOk(AfterRemoval(after, c, openshift), c)
  {
  }
}
