/** One drain request (internal/drain/request.go): flags under a mutex, a cancellable context and
    a goroutine counted by a wait group, under every interleaving of its callers. */
module DrainRequests {
  import opened Api

  /** The goroutine of a request: not launched, inside RunNodeDrain, result recorded but not yet
      signed off at the wait group, gone. */
  datatype Thread = Unlaunched | Evicting | Recorded | Gone

  datatype DrainState = NotStarted | InProgress | Canceled | Success | Error

  datatype DrainReq = DrainReq(
    key: Key, uid: nat, node: string, spec: DrainSpec,
    started: bool, canceled: bool, contextDone: bool, finished: bool, failed: bool, thread: Thread)

  function NewDrainRequest(key: Key, uid: nat, node: string, spec: DrainSpec, contextDone: bool): DrainReq {
    DrainReq(key, uid, node, spec, false, false, contextDone, false, false, Unlaunched)
  }

  function State(r: DrainReq): DrainState {
    if r.finished then (if r.failed then (if r.contextDone then Canceled else Error) else Success)
    else if r.canceled then Canceled
    else if r.started then InProgress
    else NotStarted
  }

  /** StartDrain, which is one critical section. */
  function Start(r: DrainReq): DrainReq {
    if r.canceled || r.started then r else r.(started := true, thread := Evicting)
  }

  /** The first and second statement of CancelDrain; the third waits until `Idle`. */
  function MarkCanceled(r: DrainReq): DrainReq { r.(canceled := true) }

  function CancelContext(r: DrainReq): DrainReq { r.(contextDone := true) }

  predicate Idle(r: DrainReq) { r.thread == Unlaunched || r.thread == Gone }

  /** The critical section of doDrain, with the outcome of RunNodeDrain. */
  function Record(r: DrainReq, failed: bool): DrainReq { r.(failed := failed, finished := true, thread := Recorded) }

  function SignOff(r: DrainReq): DrainReq { r.(thread := Gone) }

  /** The process that ran the goroutine is gone. */
  function Kill(r: DrainReq): DrainReq { if r.thread == Unlaunched then r else r.(thread := Gone) }

  /** The flags agree with where the goroutine is. */
  predicate WellFormed(r: DrainReq) {
    && (r.thread == Unlaunched <==> !r.started)
    && (r.finished ==> r.thread == Recorded || r.thread == Gone)
    && (r.thread == Recorded ==> r.finished)
    && (r.failed ==> r.finished)
  }

  // ----------------------------------------- one request and all its callers

  /** How far a call of CancelDrain has come. */
  datatype CancelCall = Entered | Marked | ContextCanceled | Returned

  datatype Machine = Machine(req: DrainReq, calls: seq<CancelCall>, launches: nat)

  datatype Event =
    | CallStart
    | CallCancel
    | CancelStep(call: nat)
    | ParentCanceled
    | Finish(failed: bool)
    | ThreadEnd

  predicate Enabled(m: Machine, e: Event) {
    match e
    case CancelStep(c) => c < |m.calls| && m.calls[c] != Returned && (m.calls[c] == ContextCanceled ==> Idle(m.req))
    case Finish(_) => m.req.thread == Evicting
    case ThreadEnd => m.req.thread == Recorded
    case _ => true
  }

  function Next(m: Machine, e: Event): Machine
    requires Enabled(m, e)
  {
    match e
    case CallStart =>
      m.(req := Start(m.req), launches := if m.req.canceled || m.req.started then m.launches else m.launches + 1)
    case CallCancel => m.(calls := m.calls + [Entered])
    case CancelStep(c) =>
      (match m.calls[c]
       case Entered => m.(req := MarkCanceled(m.req), calls := m.calls[c := Marked])
       case Marked => m.(req := CancelContext(m.req), calls := m.calls[c := ContextCanceled])
       case _ => m.(calls := m.calls[c := Returned]))
    case ParentCanceled => m.(req := CancelContext(m.req))
    case Finish(failed) => m.(req := Record(m.req, failed))
    case ThreadEnd => m.(req := SignOff(m.req))
  }

  /** Some call of CancelDrain has returned. */
  ghost predicate CancelReturned(m: Machine) {
    exists c :: 0 <= c < |m.calls| && m.calls[c] == Returned
  }

  ghost predicate MachineInv(m: Machine) {
    && WellFormed(m.req)
    && m.launches == (if m.req.started then 1 else 0)
    && (m.req.thread == Gone ==> m.req.finished)
    && (forall c :: 0 <= c < |m.calls| ==>
          && (m.calls[c] != Entered ==> m.req.canceled)
          && (m.calls[c] == ContextCanceled || m.calls[c] == Returned ==> m.req.contextDone)
          && (m.calls[c] == Returned ==> Idle(m.req)))
  }

  lemma MachineStep(m: Machine, e: Event)
    requires MachineInv(m) && Enabled(m, e)
    ensures MachineInv(Next(m, e))
    ensures State(m.req) == Success ==> State(Next(m, e).req) == Success
    ensures CancelReturned(m) ==> CancelReturned(Next(m, e)) && State(Next(m, e).req) == State(m.req)
  {
    if CancelReturned(m) {
      var c :| 0 <= c < |m.calls| && m.calls[c] == Returned;
      assert Next(m, e).calls[c] == Returned;
    }
  }

  /** The machines a run of events visits, if every event is possible when its turn comes. */
  function RunEvents(m: Machine, events: seq<Event>): Option<Machine>
    decreases |events|
  {
    if events == [] then Some(m)
    else if Enabled(m, events[0]) then RunEvents(Next(m, events[0]), events[1..])
    else None
  }

  lemma {:induction false} RunKeeps(m: Machine, events: seq<Event>)
    requires MachineInv(m) && RunEvents(m, events).Some?
    ensures MachineInv(RunEvents(m, events).value)
    ensures State(m.req) == Success ==> State(RunEvents(m, events).value.req) == Success
    ensures CancelReturned(m) ==> State(RunEvents(m, events).value.req) == State(m.req)
    decreases |events|
  {
    if events != [] {
      MachineStep(m, events[0]);
      RunKeeps(Next(m, events[0]), events[1..]);
    }
  }

  /** From a new request on, whatever the order of starts, cancels, context cancels and the
      goroutine's own steps: the goroutine is launched at most once, and once a CancelDrain has
      returned the state is Canceled or Success and stays that for ever. */
  lemma CancelIsFinal(r: DrainReq, before: seq<Event>, after: seq<Event>)
    requires r == NewDrainRequest(r.key, r.uid, r.node, r.spec, r.contextDone)
    requires RunEvents(Machine(r, [], 0), before).Some?
    requires
      var m := RunEvents(Machine(r, [], 0), before).value;
      RunEvents(m, after).Some?
    ensures
      var m := RunEvents(Machine(r, [], 0), before).value;
      var m' := RunEvents(m, after).value;
      && m'.launches <= 1
      && (State(m.req) == Success ==> State(m'.req) == Success)
      && (CancelReturned(m) ==>
            && (State(m.req) == Canceled || State(m.req) == Success)
            && State(m'.req) == State(m.req)
            && Idle(m.req))
  {
    RunKeeps(Machine(r, [], 0), before);
    RunKeeps(RunEvents(Machine(r, [], 0), before).value, after);
  }
}
