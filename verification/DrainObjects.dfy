/** The drain request and the drain manager as the objects of internal/drain, updated in place and
    specified by the values of the two modules on interleavings. */
module DrainObjects {
  import opened Api
  import opened DrainRequests
  import DR = DrainManagers

  class DrainRequest {
    const key: Key
    const uid: nat
    const node: string
    const spec: DrainSpec
    var started: bool
    var canceled: bool
    var contextDone: bool
    var finished: bool
    var failed: bool
    /** What the wait group knows of the goroutine. */
    var thread: Thread

    function Value(): DrainReq
      reads this
    {
      DrainReq(key, uid, node, spec, started, canceled, contextDone, finished, failed, thread)
    }

    ghost predicate Valid()
      reads this
    {
      WellFormed(Value()) && (thread == Gone ==> finished)
    }

    constructor (key: Key, uid: nat, node: string, spec: DrainSpec, contextDone: bool)
      ensures Valid() && Value() == NewDrainRequest(key, uid, node, spec, contextDone)
    {
      this.key, this.uid, this.node, this.spec := key, uid, node, spec;
      started, canceled, finished, failed := false, false, false, false;
      this.contextDone, thread := contextDone, Unlaunched;
    }

    method StartDrain()
      requires Valid()
      modifies this
      ensures Valid() && Value() == Start(old(Value()))
    {
      if canceled || started { return; }
      started := true;
      thread := Evicting;
    }

    /** The goroutine's critical section at the end of doDrain. */
    method RecordResult(failed: bool)
      requires Valid() && thread == Evicting
      modifies this
      ensures Valid() && Value() == Record(old(Value()), failed)
    {
      this.failed, finished, thread := failed, true, Recorded;
    }

    /** The goroutine signs off at the wait group. */
    method WaitGroupDone()
      requires Valid() && thread == Recorded
      modifies this
      ensures Valid() && Value() == SignOff(old(Value()))
    {
      thread := Gone;
    }

    /** CancelDrain with its wait: a goroutine still at work ends meanwhile, with `failed` as the
        outcome of its eviction. */
    method CancelDrain(failed: bool)
      requires Valid()
      modifies this
      ensures Valid() && canceled && contextDone && Idle(Value())
      ensures started == old(started)
      ensures DrainRequests.State(Value()) == Canceled || DrainRequests.State(Value()) == Success
      ensures old(finished) ==> finished && this.failed == old(this.failed)
      ensures !old(finished) && old(thread) == Evicting ==> finished && this.failed == failed
    {
      canceled := true;
      contextDone := true;
      if thread == Evicting { RecordResult(failed); }
      if thread == Recorded { WaitGroupDone(); }
    }

    method State() returns (state: DrainState)
      ensures state == DrainRequests.State(Value())
    {
      state := NotStarted;
      if finished {
        if failed {
          state := if contextDone then Canceled else Error;
        } else {
          state := Success;
        }
      } else if canceled {
        state := Canceled;
      } else if started {
        state := InProgress;
      }
    }
  }

  class Manager {
    var drainRequests: map<nat, DrainRequest>

    /** No request in the manager is unstarted, unless it was cancelled before. */
    ghost predicate Valid()
      reads this, drainRequests.Values
    {
      forall u :: u in drainRequests ==>
        drainRequests[u].uid == u && drainRequests[u].Valid() && (drainRequests[u].started || drainRequests[u].canceled)
    }

    /** The manager's content by value. */
    ghost function Contents(): map<nat, DrainReq>
      reads this, drainRequests.Values
    {
      map u | u in drainRequests :: drainRequests[u].Value()
    }

    constructor ()
      ensures Valid() && Contents() == map[]
    {
      drainRequests := map[];
    }

    method AddRequest(req: DrainRequest) returns (ok: bool)
      requires Valid() && req.Valid()
      modifies this, req
      ensures Valid()
      ensures ok <==> req.uid !in old(drainRequests)
      ensures Contents() == Added(old(Contents()), old(req.Value()))
      ensures !ok ==> req.Value() == old(req.Value()) && drainRequests == old(drainRequests)
    {
      if req.uid in drainRequests { return false; }
      assert forall u :: u in drainRequests ==> drainRequests[u] != req;
      drainRequests := drainRequests[req.uid := req];
      req.StartDrain();
      return true;
    }

    /** What is found belongs to the UID and is not unstarted, unless it was cancelled before. */
    method GetRequest(uid: nat) returns (req: DrainRequest?)
      requires Valid()
      ensures req != null <==> uid in Contents()
      ensures req != null ==>
                req.uid == uid && req.Value() == Contents()[uid] &&
                    (req.started || DrainRequests.State(req.Value()) == Canceled)
    {
      req := if uid in drainRequests then drainRequests[uid] else null;
    }

    method RemoveRequest(uid: nat, failed: bool)
      requires Valid()
      modifies this, drainRequests.Values
      ensures Valid() && Contents() == old(Contents()) - {uid}
      ensures drainRequests == old(drainRequests) - {uid}
      ensures uid in old(drainRequests) ==>
                var req := old(drainRequests[uid]);
                && Idle(req.Value()) && req.canceled
                && (DrainRequests.State(req.Value()) == Canceled || DrainRequests.State(req.Value()) == Success)
    {
      hide DrainRequests.State, WellFormed;
      if uid in drainRequests {
        assert drainRequests[uid] in drainRequests.Values;
        assert forall u :: u in drainRequests && u != uid ==> drainRequests[u] != drainRequests[uid];
        drainRequests[uid].CancelDrain(failed);
        drainRequests := drainRequests - {uid};
      }
    }

    method ListRequests() returns (reqs: seq<DrainRequest>)
      ensures (set r | r in reqs) == drainRequests.Values
    {
      reqs := [];
      var uids := drainRequests.Keys;
      while uids != {}
        invariant uids <= drainRequests.Keys
        invariant forall r :: r in reqs <==> exists u :: u in drainRequests.Keys - uids && drainRequests[u] == r
        decreases uids
      {
        var u :| u in uids;
        var before, left := reqs, uids - {u};
        reqs := reqs + [drainRequests[u]];
        forall r ensures r in reqs <==> exists v :: v in drainRequests.Keys - left && drainRequests[v] == r {
          if r == drainRequests[u] { assert u in drainRequests.Keys - left; }
          if exists v :: v in drainRequests.Keys - left && drainRequests[v] == r {
            var v :| v in drainRequests.Keys - left && drainRequests[v] == r;
            assert v == u || v in drainRequests.Keys - uids;
          }
          if exists v :: v in drainRequests.Keys - uids && drainRequests[v] == r {
            var v :| v in drainRequests.Keys - uids && drainRequests[v] == r;
            assert v in drainRequests.Keys - left;
          }
        }
        uids := left;
      }
    }
  }

  // ------------------------------------------------ the manager's calls by value

  /** AddRequest on the content: the request is started and mapped unless its UID is taken. */
  function Added(content: map<nat, DrainReq>, r: DrainReq): map<nat, DrainReq> {
    if r.uid in content then content else content[r.uid := Start(r)]
  }

  /** The requests an interleaved manager maps. */
  ghost function Mapping(d: DR.Drains): map<nat, DrainReq> {
    map u | u in d.byUid && d.byUid[u] < |d.requests| :: d.requests[d.byUid[u]]
  }

  /** The interleaved manager's insertion and start, taken together, are AddRequest. */
  lemma AddAgrees(d: DR.Drains, r: DrainReq)
    requires DR.DrainsInv(d) && DR.Possible(d, DR.Insert(r))
    ensures
      var d' := if r.uid in d.byUid then d else DR.AddStart(DR.AddInsert(d, r));
      d'.op == DR.Free && Mapping(d') == Added(Mapping(d), r)
  {
    if r.uid !in d.byUid {
      var d' := DR.AddStart(DR.AddInsert(d, r));
      forall u | u in Mapping(d') ensures u in Added(Mapping(d), r) && Mapping(d')[u] == Added(Mapping(d), r)[u] {}
      forall u | u in Added(Mapping(d), r) ensures u in Mapping(d') {}
    }
  }

  /** The interleaved manager's removal, whatever its goroutine did while it waited, leaves the
      content without the UID and every other request as it was. */
  lemma RemoveAgrees(d: DR.Drains)
    requires DR.DrainsInv(d) && DR.RemoveReady(d) && d.op.progress == ContextCanceled
    ensures
      var d' := DR.RemoveStep(d);
      && d'.op == DR.Free && Mapping(d') == Mapping(d) - {d.op.uid}
      && Idle(d'.requests[d.op.id])
  {
  }
}
