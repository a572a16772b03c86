/** What each write of the reconciler changes in the request. */
module Effects {
  import opened Api
  import opened Handlers

  function WrittenFinalizer(pc: PC, c: NodeMaintenance): bool {
    if pc == Start(AddFinalizer) then true
    else if pc == Top(DropFinalizer) || pc == Clean(RemoveFinalizer) then false
    else c.finalizer
  }

  function WrittenLabel(pc: PC, c: NodeMaintenance, node: Node): Option<string> {
    if pc == Pause(SetLabel) then Some(node.pool) else c.poolLabel
  }

  function WrittenInitial(pc: PC, c: NodeMaintenance, node: Node): Option<bool> {
    if pc == Cordoning(NoteInitial) then Some(node.unschedulable)
    else if pc == Clean(ForgetInitial) then None
    else c.initial
  }

  function WrittenReason(pc: PC, c: NodeMaintenance): Reason {
    if pc == Top(SetPending) then Pending
    else if pc == Start(SetCordon) then Cordon
    else if pc == Cordoning(SetWaitForPods) then WaitForPodCompletion
    else if pc == Pods(SetDraining) then Draining
    else if pc == Drain(SetReady) then Ready
    else if pc == Final(SyncReason) then (if c.failed then RequestorFailed else Ready)
    else c.reason
  }

  predicate Effect(pc: PC, c: NodeMaintenance, node: Node, obj: NodeMaintenance) {
    && pc != Top(GetNode)
    && obj.uid == c.uid && obj.node == c.node && obj.cordon == c.cordon && obj.drainSpec == c.drainSpec
    && obj.additional == c.additional && obj.deleting == c.deleting && obj.failed == c.failed
    && obj.finalizer == WrittenFinalizer(pc, c)
    && obj.poolLabel == WrittenLabel(pc, c, node)
    && obj.initial == WrittenInitial(pc, c, node) && (pc == Cordoning(NoteInitial) ==> c.initial == None)
    && obj.reason == WrittenReason(pc, c)
  }

  /** The node flag is set in two places, where it differs from what is wanted. */
  predicate Marking(pc: PC, c: NodeMaintenance, node: Node, value: bool, next: Next) {
    && c.initial == Some(false) && node.unschedulable == !value
    && (if value then pc == Cordoning(CordonNode) && next == To(Cordoning(SetWaitForPods))
        else pc == Clean(UncordonNode) && next == To(Clean(ForgetInitial)))
  }

  /** The node is looked up once, at the start. */
  predicate Onward(next: Next) { next != To(Top(GetNode)) && next != To(Top(DropFinalizer)) }

  predicate ActionEffect(pc: PC, c: NodeMaintenance, node: Node, a: Action) {
    match a
    case Go(next) => Onward(next)
    case Write(obj, next) => Effect(pc, c, node, obj) && Onward(next)
    case TryWrite(obj, next) => obj == c && pc == Top(SetOwner) && next == To(Top(Dispatch))
    case Mark(value, next) => Marking(pc, c, node, value, next)
    case Look => true
  }

  lemma TopEffect(pc: TopPC, c: NodeMaintenance, node: Node, openshift: bool, choice: nat)
    ensures ActionEffect(Top(pc), c, node, TopCode(pc, c, openshift, choice))
  {
  }

  lemma StartEffect(pc: StartPC, c: NodeMaintenance, node: Node, openshift: bool)
    ensures ActionEffect(Start(pc), c, node, StartCode(pc, c, openshift))
  {
  }

  lemma PauseEffect(pc: PausePC, c: NodeMaintenance, node: Node)
    ensures ActionEffect(Pause(pc), c, node, PauseCode(pc, c, node))
  {
  }

  lemma CordonEffect(pc: CordonPC, c: NodeMaintenance, node: Node)
    ensures ActionEffect(Cordoning(pc), c, node, CordonCode(pc, c, node))
  {
  }

  lemma PodsEffect(pc: PodsPC, c: NodeMaintenance, node: Node, choice: nat)
    ensures ActionEffect(Pods(pc), c, node, PodsCode(pc, c, choice))
  {
  }

  lemma DrainEffect(pc: DrainPC, c: NodeMaintenance, node: Node, choice: nat)
    ensures ActionEffect(Drain(pc), c, node, DrainCode(pc, c, choice))
  {
  }

  lemma TerminalEffect(pc: TerminalPC, c: NodeMaintenance, node: Node)
    ensures ActionEffect(Final(pc), c, node, TerminalCode(pc, c))
  {
  }

  lemma CleanEffect(pc: CleanPC, c: NodeMaintenance, node: Node, openshift: bool)
    ensures ActionEffect(Clean(pc), c, node, CleanCode(pc, c, node, openshift))
  {
  }

  lemma CodeEffect(pc: PC, c: NodeMaintenance, node: Node, openshift: bool, choice: nat)
    ensures ActionEffect(pc, c, node, Code(pc, c, node, openshift, choice))
  {
    hide ActionEffect, TopCode, StartCode, PauseCode, CordonCode, PodsCode, DrainCode, TerminalCode, CleanCode;
    match pc
    case Top(p) => TopEffect(p, c, node, openshift, choice);
    case Start(p) => StartEffect(p, c, node, openshift);
    case Pause(p) => PauseEffect(p, c, node);
    case Cordoning(p) => CordonEffect(p, c, node);
    case Pods(p) => PodsEffect(p, c, node, choice);
    case Drain(p) => DrainEffect(p, c, node, choice);
    case Final(p) => TerminalEffect(p, c, node);
    case Clean(p) => CleanEffect(p, c, node, openshift);
  }
}
