/** The objects the operator works on: NodeMaintenance requests, cluster nodes and
    OpenShift machine config pools, with the small readers of internal/k8sutils. */
module Api {

  datatype Option<+T> = None | Some(value: T)

  /** The reason of a request's Ready condition; `Uninitialized` is the absent condition. */
  datatype Reason =
    | Uninitialized
    | Pending
    | Scheduled
    | Cordon
    | WaitForPodCompletion
    | Draining
    | Ready
    | RequestorFailed

  datatype DrainSpec = DrainSpec(
    force: bool, podSelector: string, timeoutSeconds: int, deleteEmptyDir: bool, filters: seq<string>)

  /** A namespaced name. */
  datatype Key = Key(namespace: string, name: string)

  /** A NodeMaintenance object.
      `ready` and `reason` are the status and the reason of its Ready condition, `failed` tells
      whether its RequestorFailed condition is true, `initial` is the node-initial-state annotation,
      `poolLabel` the paused-pool label and `readyTime` tells whether the ready-time annotation is set. */
  datatype NodeMaintenance = NodeMaintenance(
    uid: nat,
    created: int,
    requestor: string,
    node: string,
    cordon: bool,
    waitPods: bool,
    drainSpec: Option<DrainSpec>,
    additional: set<string>,
    deleting: bool,
    finalizer: bool,
    reason: Reason,
    ready: bool,
    failed: bool,
    initial: Option<bool>,
    poolLabel: Option<string>,
    readyTime: bool)

  /** A NodeMaintenance together with its name, as a list call returns it. */
  datatype Request = Request(key: Key, nm: NodeMaintenance)

  datatype NodeCondition = NodeCondition(kind: string, status: string)

  datatype Node = Node(name: string, unschedulable: bool, conditions: seq<NodeCondition>, pool: string)

  /** A MachineConfigPool: `marked` is the annotation "paused by the operator"; `wanted` and
      `current` are the configuration names in its spec and in its status. */
  datatype Pool = Pool(paused: bool, marked: bool, wanted: string, current: string)

  predicate UnderMaintenance(nm: NodeMaintenance) {
    nm.reason != Uninitialized && nm.reason != Pending
  }

  /** The request has passed the Scheduled phase. */
  predicate Late(nm: NodeMaintenance) {
    UnderMaintenance(nm) && nm.reason != Scheduled
  }

  predicate Terminal(nm: NodeMaintenance) {
    nm.reason == Ready || nm.reason == RequestorFailed
  }

  /** SetReadyConditionReason: only the reason Ready makes the condition true. */
  function WithReason(nm: NodeMaintenance, reason: Reason): NodeMaintenance {
    nm.(reason := reason, ready := reason == Ready)
  }

  predicate NodeReady(n: Node) {
    forall c | c in n.conditions :: c.kind == "Ready" ==> c.status == "True"
  }

  predicate Available(n: Node) {
    !n.unschedulable && NodeReady(n)
  }

  function Min(a: int, b: int): int { if a < b then a else b }

  function Max(a: int, b: int): int { if a > b then a else b }
}
