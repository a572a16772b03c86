/** The NodeMaintenance reconciler (internal/controller/nodemaintenance_controller.go) with the
    cordon handler and the pool manager it calls, as a program whose every statement makes at most
    one API call. `Code` gives, for a program counter and the local variables, what the statement
    does; statements that look at shared state other than the request are `Look`. */
module Handlers {
  import opened Api

  /** What the reconciler does after RemoveRequest. */
  datatype AfterRemove = ThenRequeue | ThenClearStatus | ThenReady | ThenCleanup

  /** Reconcile and handleUninitiaizedState. */
  datatype TopPC = GetNode | DropFinalizer | SetOwner | Dispatch | SetPending

  /** handleScheduledState. */
  datatype StartPC = AddFinalizer | SetCordon

  /** PauseMCP. */
  datatype PausePC = FindPool | SetLabel | AwaitLabel | ReadPool | PatchPool | AwaitMark | UndoPatch | AwaitUndo

  /** handleCordonState and HandleCordon. */
  datatype CordonPC = NoteInitial | CordonNode | SetWaitForPods

  /** handleWaitPodCompletionState. */
  datatype PodsPC = AwaitPods | SetDraining

  /** handleDrainState. */
  datatype DrainPC =
    | GetDrain
    | InitStatus
    | AddDrain
    | CheckSpec
    | CheckInProgress
    | ProgressStatus
    | CheckError
    | CheckCanceled
    | FinalStatus
    | RemoveDrain(after: AfterRemove)
    | ClearStatus
    | SetReady

  /** handleTerminalState. */
  datatype TerminalPC = NoteReadyTime | SyncReason

  /** The clean-up on deletion: HandleUnCordon, UnpauseMCP and the finalizer. */
  datatype CleanPC = UncordonNode | ForgetInitial | FindMarked | ReadMark | CheckUse
    | PatchUnpause | AwaitUnmark | RemoveFinalizer

  datatype PC =
    | Top(top: TopPC)
    | Start(start: StartPC)
    | Pause(pause: PausePC)
    | Cordoning(cordoning: CordonPC)
    | Pods(pods: PodsPC)
    | Drain(drain: DrainPC)
    | Final(final: TerminalPC)
    | Clean(clean: CleanPC)

  /** How a reconcile ends: done, to be repeated after a delay, or to be retried after an error. */
  datatype Result = Done | Later | Retry

  datatype Next = To(pc: PC) | End(result: Result)

  datatype Action =
    | Go(next: Next)
    | Write(obj: NodeMaintenance, next: Next)     // a version-checked update; its failure ends the reconcile
    | TryWrite(obj: NodeMaintenance, next: Next)  // one whose failure is only logged
    | Mark(unschedulable: bool, next: Next)       // RunCordonOrUncordon
    | Look

  /** The first statement after the clean-up of the cordon. */
  function Unpause(openshift: bool): Next { To(Clean(if openshift then FindMarked else RemoveFinalizer)) }

  function Cleanup(nm: NodeMaintenance, openshift: bool): Next {
    if nm.cordon then To(Clean(UncordonNode)) else Unpause(openshift)
  }

  /** The switch over the Ready condition's reason, and the first branch of the handler. */
  function Handler(nm: NodeMaintenance, openshift: bool): Next {
    match nm.reason
    case Uninitialized => To(Top(SetPending))
    case Pending => End(Done)
    case Scheduled => if nm.deleting then Unpause(openshift) else To(Start(AddFinalizer))
    case Cordon =>
      if nm.deleting then Cleanup(nm, openshift) else To(Cordoning(if nm.cordon then NoteInitial else SetWaitForPods))
    case WaitForPodCompletion =>
      if nm.deleting then Cleanup(nm, openshift) else To(Pods(if nm.waitPods then AwaitPods else SetDraining))
    case Draining =>
      To(Drain(if nm.deleting then RemoveDrain(ThenCleanup)
               else if nm.drainSpec.Some? then GetDrain else RemoveDrain(ThenClearStatus)))
    case _ =>
      if !nm.deleting then To(Final(NoteReadyTime))
      else if nm.additional != {} then End(Later)
      else Cleanup(nm, openshift)
  }

  function AfterRemoval(after: AfterRemove, nm: NodeMaintenance, openshift: bool): Next {
    match after
    case ThenRequeue => End(Later)
    case ThenClearStatus => To(Drain(ClearStatus))
    case ThenReady => To(Drain(SetReady))
    case ThenCleanup => Cleanup(nm, openshift)
  }

  function TopCode(pc: TopPC, nm: NodeMaintenance, openshift: bool, choice: nat): Action {
    match pc
    case GetNode => Look
    case DropFinalizer => if nm.finalizer then Write(nm.(finalizer := false), End(Done)) else Go(End(Done))
    case SetOwner => if choice == 0 then Go(To(Top(Dispatch))) else TryWrite(nm, To(Top(Dispatch)))
    case Dispatch => Go(Handler(nm, openshift))
    case SetPending => Write(WithReason(nm, Pending), End(Done))
  }

  function StartCode(pc: StartPC, nm: NodeMaintenance, openshift: bool): Action {
    match pc
    case AddFinalizer =>
      var next := To(if openshift then Pause(FindPool) else Start(SetCordon));
      if nm.finalizer then Go(next) else Write(nm.(finalizer := true), next)
    case SetCordon => Write(WithReason(nm, Cordon), End(Done))
  }

  function PauseCode(pc: PausePC, nm: NodeMaintenance, node: Node): Action {
    match pc
    case FindPool => Go(To(Pause(SetLabel)))
    case SetLabel =>
      if nm.poolLabel == Some(node.pool) then Go(To(Pause(ReadPool)))
      else Write(nm.(poolLabel := Some(node.pool)), To(Pause(AwaitLabel)))
    case _ => Look
  }

  function CordonCode(pc: CordonPC, nm: NodeMaintenance, node: Node): Action {
    match pc
    case NoteInitial =>
      if nm.initial.Some? then Go(To(Cordoning(CordonNode)))
      else Write(nm.(initial := Some(node.unschedulable)), To(Cordoning(CordonNode)))
    case CordonNode =>
      if nm.initial == Some(false) && !node.unschedulable then Mark(true, To(Cordoning(SetWaitForPods)))
      else Go(To(Cordoning(SetWaitForPods)))
    case SetWaitForPods => Write(WithReason(nm, WaitForPodCompletion), End(Done))
  }

  function PodsCode(pc: PodsPC, nm: NodeMaintenance, choice: nat): Action {
    match pc
    case AwaitPods =>
      if choice == 0 then Go(To(Pods(SetDraining)))
      else if choice == 1 then Go(End(Later))
      else Write(nm, To(Pods(AwaitPods)))
    case SetDraining => Write(WithReason(nm, Draining), End(Done))
  }

  function DrainCode(pc: DrainPC, nm: NodeMaintenance, choice: nat): Action {
    match pc
    case InitStatus => Write(nm, To(Drain(AddDrain)))
    case ProgressStatus => Write(nm, End(Later))
    case FinalStatus => Write(nm, To(Drain(RemoveDrain(ThenReady))))
    case ClearStatus => if choice == 0 then Go(To(Drain(SetReady))) else Write(nm, To(Drain(SetReady)))
    case SetReady => Write(WithReason(nm, Ready), End(Done))
    case _ => Look
  }

  function TerminalCode(pc: TerminalPC, nm: NodeMaintenance): Action {
    match pc
    case NoteReadyTime =>
      if nm.readyTime then Go(To(Final(SyncReason))) else Write(nm.(readyTime := true), To(Final(SyncReason)))
    case SyncReason =>
      if nm.failed && nm.reason == Ready then Write(WithReason(nm, RequestorFailed), End(Done))
      else if !nm.failed && nm.reason == RequestorFailed then Write(WithReason(nm, Ready), End(Done))
      else Go(End(Done))
  }

  function CleanCode(pc: CleanPC, nm: NodeMaintenance, node: Node, openshift: bool): Action {
    match pc
    case UncordonNode =>
      if nm.initial == Some(false) && node.unschedulable then Mark(false, To(Clean(ForgetInitial)))
      else Go(To(Clean(ForgetInitial)))
    case ForgetInitial =>
      if nm.initial.Some? then Write(nm.(initial := None), Unpause(openshift)) else Go(Unpause(openshift))
    case FindMarked => Go(To(Clean(ReadMark)))
    case RemoveFinalizer => if nm.finalizer then Write(nm.(finalizer := false), End(Done)) else Go(End(Done))
    case _ => Look
  }

  /** `choice` stands for what the statement finds outside the model: whether the owner reference is
      set, whether pods are still to be waited for, whether a drain status is to be cleared. */
  function Code(pc: PC, nm: NodeMaintenance, node: Node, openshift: bool, choice: nat): Action {
    match pc
    case Top(p) => TopCode(p, nm, openshift, choice)
    case Start(p) => StartCode(p, nm, openshift)
    case Pause(p) => PauseCode(p, nm, node)
    case Cordoning(p) => CordonCode(p, nm, node)
    case Pods(p) => PodsCode(p, nm, choice)
    case Drain(p) => DrainCode(p, nm, choice)
    case Final(p) => TerminalCode(p, nm)
    case Clean(p) => CleanCode(p, nm, node, openshift)
  }
}
