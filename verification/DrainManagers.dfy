/** The drain manager (internal/drain/manager.go): a map of requests by UID under a lock that
    RemoveRequest keeps while it waits for the goroutine. */
module DrainManagers {
  import opened Api
  import opened DrainRequests

  /** The operation that holds the manager's lock. */
  datatype Operation =
    | Free
    | Adding(id: nat)
    | Removing(uid: nat, id: nat, progress: CancelCall)

  /** `requests` lists every request ever added; `byUid` is the manager's map into that list. */
  datatype Drains = Drains(byUid: map<nat, nat>, requests: seq<DrainReq>, op: Operation)

  /** AddRequest up to the insertion; a second request for the UID is refused. */
  function AddInsert(d: Drains, r: DrainReq): Drains {
    if r.uid in d.byUid then d
    else Drains(d.byUid[r.uid := |d.requests|], d.requests + [r], Adding(|d.requests|))
  }

  /** The StartDrain call with which AddRequest ends. */
  function AddStart(d: Drains): Drains
    requires d.op.Adding? && d.op.id < |d.requests|
  {
    d.(requests := d.requests[d.op.id := Start(d.requests[d.op.id])], op := Free)
  }

  /** GetRequest. */
  function Get(d: Drains, uid: nat): Option<nat> {
    if uid in d.byUid then Some(d.byUid[uid]) else None
  }

  /** RemoveRequest takes the lock; an unknown UID leaves nothing to do. */
  function RemoveBegin(d: Drains, uid: nat): Drains {
    if uid in d.byUid then d.(op := Removing(uid, d.byUid[uid], Entered)) else d
  }

  /** The next statement of CancelDrain, and after it the deletion from the map. */
  predicate RemoveReady(d: Drains) {
    && d.op.Removing? && d.op.id < |d.requests|
    && (d.op.progress == ContextCanceled ==> Idle(d.requests[d.op.id]))
  }

  function RemoveStep(d: Drains): Drains
    requires RemoveReady(d)
  {
    match d.op.progress
    case Entered =>
      d.(requests := d.requests[d.op.id := MarkCanceled(d.requests[d.op.id])], op := d.op.(progress := Marked))
    case Marked =>
      d.(requests := d.requests[d.op.id := CancelContext(d.requests[d.op.id])],
          op := d.op.(progress := ContextCanceled))
    case _ => d.(byUid := d.byUid - {d.op.uid}, op := Free)
  }

  predicate CanRecord(d: Drains, id: nat) { id < |d.requests| && d.requests[id].thread == Evicting }

  function RecordAt(d: Drains, id: nat, failed: bool): Drains
    requires CanRecord(d, id)
  {
    d.(requests := d.requests[id := Record(d.requests[id], failed)])
  }

  predicate CanSignOff(d: Drains, id: nat) { id < |d.requests| && d.requests[id].thread == Recorded }

  function SignOffAt(d: Drains, id: nat): Drains
    requires CanSignOff(d, id)
  {
    d.(requests := d.requests[id := SignOff(d.requests[id])])
  }

  /** The context of the whole manager is cancelled. */
  function Shutdown(d: Drains): Drains {
    d.(requests := seq(|d.requests|, i requires 0 <= i < |d.requests| => CancelContext(d.requests[i])))
  }

  /** The process restarts: all goroutines are gone and the new manager is empty. */
  function Reset(d: Drains): Drains {
    Drains(map[], seq(|d.requests|, i requires 0 <= i < |d.requests| => Kill(d.requests[i])), Free)
  }

  predicate Active(r: DrainReq) { !Idle(r) }

  /** The manager's map is sound, goroutines run only for requests it maps, and no request it
      maps is unstarted except the one being added. */
  ghost predicate DrainsInv(d: Drains) {
    && (forall i :: 0 <= i < |d.requests| ==> WellFormed(d.requests[i]))
    && (forall i :: 0 <= i < |d.requests| && Active(d.requests[i]) ==> Mapped(d, i))
    && (forall u :: u in d.byUid ==>
          && d.byUid[u] < |d.requests|
          && d.requests[d.byUid[u]].uid == u
          && (d.op != Adding(d.byUid[u]) ==> d.requests[d.byUid[u]].started)
          && ((d.op.Removing? && d.op.id == d.byUid[u]) || !d.requests[d.byUid[u]].canceled)
          && (d.requests[d.byUid[u]].thread == Gone ==> d.requests[d.byUid[u]].finished))
    && (d.op.Adding? ==> d.op.id < |d.requests| && Mapped(d, d.op.id))
    && (d.op.Removing? ==> d.op.uid in d.byUid && d.byUid[d.op.uid] == d.op.id && d.op.progress != Returned)
  }

  predicate Mapped(d: Drains, id: nat)
    requires id < |d.requests|
  {
    d.requests[id].uid in d.byUid && d.byUid[d.requests[id].uid] == id
  }

  /** Steps of any number of callers and of all goroutines. */
  datatype Action =
    | Insert(r: DrainReq)
    | StartAdded
    | BeginRemove(uid: nat)
    | ContinueRemove
    | RecordResult(id: nat, failed: bool)
    | EndThread(id: nat)
    | CancelAll
    | Restarted

  predicate Possible(d: Drains, a: Action) {
    match a
    case Insert(r) => d.op == Free && r == NewDrainRequest(r.key, r.uid, r.node, r.spec, r.contextDone)
    case StartAdded => d.op.Adding? && d.op.id < |d.requests|
    case BeginRemove(_) => d.op == Free
    case ContinueRemove => RemoveReady(d)
    case RecordResult(id, _) => CanRecord(d, id)
    case EndThread(id) => CanSignOff(d, id)
    case CancelAll => true
    case Restarted => true
  }

  function Perform(d: Drains, a: Action): Drains
    requires Possible(d, a)
  {
    match a
    case Insert(r) => AddInsert(d, r)
    case StartAdded => AddStart(d)
    case BeginRemove(uid) => RemoveBegin(d, uid)
    case ContinueRemove => RemoveStep(d)
    case RecordResult(id, failed) => RecordAt(d, id, failed)
    case EndThread(id) => SignOffAt(d, id)
    case CancelAll => Shutdown(d)
    case Restarted => Reset(d)
  }

  ghost predicate Kept(d: Drains, d': Drains) {
    && DrainsInv(d')
    && |d.requests| <= |d'.requests|
    && forall i :: 0 <= i < |d.requests| ==> Continues(d.requests[i], d'.requests[i])
  }

  lemma InsertKeeps(d: Drains, r: DrainReq)
    requires DrainsInv(d) && Possible(d, Insert(r))
    ensures Kept(d, AddInsert(d, r))
  {
  }

  lemma StartKeeps(d: Drains)
    requires DrainsInv(d) && Possible(d, StartAdded)
    ensures Kept(d, AddStart(d))
  {
  }

  lemma CancelKeeps(d: Drains)
    requires DrainsInv(d) && RemoveReady(d) && (d.op.progress == Entered || d.op.progress == Marked)
    ensures Kept(d, RemoveStep(d))
  {
    var d' := RemoveStep(d);
    forall i | 0 <= i < |d'.requests| && Active(d'.requests[i]) ensures Mapped(d', i) {
      assert Mapped(d, i);
    }
  }

  lemma DropKeeps(d: Drains)
    requires DrainsInv(d) && RemoveReady(d) && d.op.progress == ContextCanceled
    ensures Kept(d, RemoveStep(d))
  {
    var d' := RemoveStep(d);
    forall i | 0 <= i < |d'.requests| && Active(d'.requests[i]) ensures Mapped(d', i) {
      assert Mapped(d, i);
    }
  }

  lemma RemoveKeeps(d: Drains)
    requires DrainsInv(d) && RemoveReady(d)
    ensures Kept(d, RemoveStep(d))
  {
    hide Kept, RemoveStep;
    if d.op.progress == ContextCanceled { DropKeeps(d); } else { CancelKeeps(d); }
  }

  lemma RecordKeeps(d: Drains, id: nat, failed: bool)
    requires DrainsInv(d) && CanRecord(d, id)
    ensures Kept(d, RecordAt(d, id, failed))
  {
    var d' := RecordAt(d, id, failed);
    forall i | 0 <= i < |d'.requests| && Active(d'.requests[i]) ensures Mapped(d', i) {
      assert Mapped(d, i);
    }
  }

  lemma SignOffKeeps(d: Drains, id: nat)
    requires DrainsInv(d) && CanSignOff(d, id)
    ensures Kept(d, SignOffAt(d, id))
  {
    var d' := SignOffAt(d, id);
    forall i | 0 <= i < |d'.requests| && Active(d'.requests[i]) ensures Mapped(d', i) {
      assert Mapped(d, i);
    }
  }

  lemma ShutdownKeeps(d: Drains)
    requires DrainsInv(d)
    ensures Kept(d, Shutdown(d))
  {
    var d' := Shutdown(d);
    forall i | 0 <= i < |d'.requests| && Active(d'.requests[i]) ensures Mapped(d', i) {
      assert Mapped(d, i);
    }
  }

  lemma BeginKeeps(d: Drains, uid: nat)
    requires DrainsInv(d) && d.op == Free
    ensures Kept(d, RemoveBegin(d, uid))
  {
  }

  lemma ResetKeeps(d: Drains)
    requires DrainsInv(d)
    ensures Kept(d, Reset(d))
  {
  }

  lemma DrainsStep(d: Drains, a: Action)
    requires DrainsInv(d) && Possible(d, a)
    ensures Kept(d, Perform(d, a))
  {
    hide Kept, DrainsInv, AddInsert, AddStart, RemoveBegin, RemoveStep, RecordAt, SignOffAt, Shutdown, Reset;
    match a
    case Insert(r) => InsertKeeps(d, r);
    case StartAdded => StartKeeps(d);
    case BeginRemove(uid) => BeginKeeps(d, uid);
    case ContinueRemove => RemoveKeeps(d);
    case RecordResult(id, failed) => RecordKeeps(d, id, failed);
    case EndThread(id) => SignOffKeeps(d, id);
    case CancelAll => ShutdownKeeps(d);
    case Restarted => ResetKeeps(d);
  }

  /** What never changes about a request, and what is final. */
  predicate Continues(r: DrainReq, r': DrainReq) {
    && r'.key == r.key && r'.uid == r.uid && r'.node == r.node && r'.spec == r.spec
    && (r.finished ==> r'.finished && r'.failed == r.failed)
    && (r.contextDone ==> r'.contextDone)
  }

  function RunActions(d: Drains, actions: seq<Action>): Option<Drains>
    decreases |actions|
  {
    if actions == [] then Some(d)
    else if Possible(d, actions[0]) then RunActions(Perform(d, actions[0]), actions[1..])
    else None
  }

  lemma {:induction false} RunActionsKeep(d: Drains, actions: seq<Action>)
    requires DrainsInv(d) && RunActions(d, actions).Some?
    ensures DrainsInv(RunActions(d, actions).value)
    decreases |actions|
  {
    if actions != [] {
      DrainsStep(d, actions[0]);
      RunActionsKeep(Perform(d, actions[0]), actions[1..]);
    }
  }

  /** Over all interleavings: a goroutine that is still at work belongs to the very request the
      manager maps its UID to; so no UID has two of them, and a UID the manager does not map,
      in particular one whose RemoveRequest has returned, has none. No request found in a manager
      at rest is unstarted. */
  lemma DrainExclusivity(actions: seq<Action>)
    requires RunActions(Drains(map[], [], Free), actions).Some?
    ensures
      var d := RunActions(Drains(map[], [], Free), actions).value;
      && (forall i :: 0 <= i < |d.requests| && Active(d.requests[i]) ==> Get(d, d.requests[i].uid) == Some(i))
      && (forall i, j :: 0 <= i < j < |d.requests| && Active(d.requests[i]) && Active(d.requests[j]) ==>
            d.requests[i].uid != d.requests[j].uid)
      && (d.op == Free ==> forall u :: u in d.byUid ==>
            d.byUid[u] < |d.requests| && State(d.requests[d.byUid[u]]) != NotStarted)
  {
    RunActionsKeep(Drains(map[], [], Free), actions);
  }
}
