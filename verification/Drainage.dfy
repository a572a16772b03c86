/** Drains of the whole operator: the reconciler reads the state of a drain several times while its
    goroutine moves, and still moves a request to Ready only on a success. */
module Drainage {
  import opened Api
  import opened Versions
  import opened Handlers
  import opened Operator
  import opened Lifecycle
  import opened Histories
  import opened Rounds
  import opened Control
  import opened CoreInvariant
  import opened Effects
  import opened Shapes
  import opened Steadiness
  import opened CordonRestore
  import opened Labels
  import opened Pools
  import DrainRequests
  import DR = DrainManagers

  /** Some drain request for the UID with this spec has finished without error. */
  ghost predicate Earned(dr: DR.Drains, uid: nat, spec: DrainSpec) {
    exists id :: 0 <= id < |dr.requests| && Succeeded(dr.requests[id], uid, spec)
  }

  predicate Succeeded(r: DrainRequests.DrainReq, uid: nat, spec: DrainSpec) {
    r.uid == uid && r.spec == spec && DrainRequests.State(r) == DrainRequests.Success
  }

  predicate Readied(a: Entry, b: Entry) {
    a.Some? && b.Some? && a.value.reason == Draining && b.value.reason == Ready
  }

  ghost predicate EarnedAt(dr: DR.Drains, log: seq<Entry>, i: int)
    requires 0 < i < |log|
  {
    Readied(log[i - 1], log[i]) && log[i - 1].value.drainSpec.Some? ==>
      Earned(dr, log[i].value.uid, log[i - 1].value.drainSpec.value)
  }

  ghost predicate EarnedLog(dr: DR.Drains, log: seq<Entry>) {
    forall i {:trigger EarnedAt(dr, log, i)} :: 0 < i < |log| ==> EarnedAt(dr, log, i)
  }

  ghost predicate EarnedLogs(st: Store, dr: DR.Drains) {
    forall k :: EarnedLog(dr, Log(st, k))
  }

  /** The manager's lock is held by nobody but the reconciler, for its own request. */
  ghost predicate OpOwned(dr: DR.Drains, c: Ctl) {
    && (dr.op.Adding? ==> c.Busy? && c.pc == Drain(AddDrain))
    && (dr.op.Removing? ==> c.Busy? && c.pc.Drain? && c.pc.drain.RemoveDrain? && dr.op.uid == c.nm.uid)
  }

  predicate DrainingAs(e: Entry, uid: nat, node: string) {
    e.Some? && e.value.uid == uid && e.value.node == node && e.value.reason == Draining
  }

  /** Every drain the manager knows belongs to a request in phase Draining. */
  ghost predicate Owners(st: Store, dr: DR.Drains, lost: set<string>) {
    forall u :: u in dr.byUid && dr.byUid[u] < |dr.requests| ==> OwnerOk(st, dr.requests[dr.byUid[u]], u, lost)
  }

  predicate OwnerOk(st: Store, r: DrainRequests.DrainReq, uid: nat, lost: set<string>) {
    r.node !in lost ==> DrainingAs(Cur(st, r.key), uid, r.node)
  }

  ghost predicate VersionOf(st: Store, k: Key, i: int, uid: nat, node: string) {
    UidAt(st, k, i, uid) && Log(st, k)[i].value.node == node
  }

  ghost predicate IssuedFor(st: Store, r: DrainRequests.DrainReq, uid: nat) {
    exists i :: VersionOf(st, r.key, i, uid, r.node)
  }

  /** Every drain the manager knows was asked for by some version of its request. */
  ghost predicate Issued(st: Store, dr: DR.Drains) {
    forall u :: u in dr.byUid && dr.byUid[u] < |dr.requests| ==> IssuedFor(st, dr.requests[dr.byUid[u]], u)
  }

  /** The request the reconciler found is the one in the manager. */
  predicate Found(dr: DR.Drains, c: Ctl)
    requires c.Busy?
  {
    dr.op == DR.Free && c.req < |dr.requests| && c.nm.uid in dr.byUid && dr.byUid[c.nm.uid] == c.req
  }

  predicate FoundSpec(dr: DR.Drains, c: Ctl)
    requires c.Busy?
  {
    Found(dr, c) && Some(dr.requests[c.req].spec) == c.nm.drainSpec
  }

  ghost predicate EarnedFor(dr: DR.Drains, nm: NodeMaintenance) {
    nm.drainSpec.Some? ==> Earned(dr, nm.uid, nm.drainSpec.value)
  }

  ghost predicate DrainAt(st: Store, dr: DR.Drains, lost: set<string>, c: Ctl)
    requires c.Busy? && c.pc.Drain?
  {
    match c.pc.drain
    case AddDrain => c.nm.node !in lost ==> DrainingAs(Cur(st, c.key), c.nm.uid, c.nm.node)
    case CheckSpec => Found(dr, c)
    case CheckInProgress => FoundSpec(dr, c)
    case CheckError => FoundSpec(dr, c) && dr.requests[c.req].finished
    case CheckCanceled =>
      FoundSpec(dr, c) && dr.requests[c.req].finished && (dr.requests[c.req].failed ==> dr.requests[c.req].contextDone)
    case FinalStatus => EarnedFor(dr, c.nm)
    case RemoveDrain(after) => after == ThenReady ==> EarnedFor(dr, c.nm)
    case ClearStatus => c.nm.uid !in dr.byUid
    case SetReady => EarnedFor(dr, c.nm) && c.nm.uid !in dr.byUid
    case _ => true
  }

  /** What the program knows about the manager. */
  ghost predicate CtlDrain(st: Store, dr: DR.Drains, lost: set<string>, c: Ctl) {
    c.Busy? ==>
      && (c.pc.Drain? ==> DrainAt(st, dr, lost, c))
      && (c.pc.Clean? && c.nm.node !in lost ==> c.nm.uid !in dr.byUid)
  }

  ghost predicate DrainageInv(s: State) {
    && EarnedLogs(s.st, s.dr)
    && OpOwned(s.dr, s.ctl)
    && Owners(s.st, s.dr, s.h.lost) && Issued(s.st, s.dr)
    && CtlDrain(s.st, s.dr, s.h.lost, s.ctl)
  }

  // ------------------------------------------------------ others' new versions

  lemma AppendEarned(st: Store, dr: DR.Drains, k: Key, e: Entry)
    requires EarnedLogs(st, dr)
    requires Readied(Cur(st, k), e) && Cur(st, k).value.drainSpec.Some? ==>
          Earned(dr, e.value.uid, Cur(st, k).value.drainSpec.value)
    ensures EarnedLogs(Append(st, k, e), dr)
  {
    var st' := Append(st, k, e);
    forall j ensures EarnedLog(dr, Log(st', j)) {
      if j != k {
        assert Log(st', j) == Log(st, j);
      } else {
        forall i | 0 < i < |Log(st', k)| ensures EarnedAt(dr, Log(st', k), i) {
          if i < |Log(st, k)| { assert EarnedAt(dr, Log(st, k), i); }
        }
      }
    }
  }

  /** A request in phase Draining that others edit stays in it. */
  lemma AppendDraining(st: Store, lost: set<string>, k: Key, e: Entry, j: Key, uid: nat, node: string)
    requires Steady(st, lost) && Edge(Cur(st, k), e) && Gentle(Cur(st, k), e)
    requires DrainingAs(Cur(st, j), uid, node) && node !in lost
    ensures DrainingAs(Cur(Append(st, k, e), j), uid, node)
  {
    if j == k {
      assert SteadyLog(Log(st, k), Seen(st, k), lost);
      assert HeldAt(Log(st, k), lost, Last(st, k));
    } else {
      assert Log(Append(st, k, e), j) == Log(st, j);
    }
  }

  lemma AppendOwners(st: Store, dr: DR.Drains, lost: set<string>, k: Key, e: Entry)
    requires Steady(st, lost) && Edge(Cur(st, k), e) && Gentle(Cur(st, k), e) && Owners(st, dr, lost)
    ensures Owners(Append(st, k, e), dr, lost)
  {
    hide Steady, Edge, Gentle, Append;
    forall u | u in dr.byUid && dr.byUid[u] < |dr.requests|
      ensures OwnerOk(Append(st, k, e), dr.requests[dr.byUid[u]], u, lost)
    {
      var r := dr.requests[dr.byUid[u]];
      if r.node !in lost { AppendDraining(st, lost, k, e, r.key, u, r.node); }
    }
  }

  lemma AppendIssued(st: Store, dr: DR.Drains, k: Key, e: Entry)
    requires Issued(st, dr)
    ensures Issued(Append(st, k, e), dr)
  {
    forall u | u in dr.byUid && dr.byUid[u] < |dr.requests|
      ensures IssuedFor(Append(st, k, e), dr.requests[dr.byUid[u]], u)
    {
      var r := dr.requests[dr.byUid[u]];
      var i :| VersionOf(st, r.key, i, u, r.node);
      assert VersionOf(Append(st, k, e), r.key, i, u, r.node);
    }
  }

  lemma RunsIssued(st: Store, st': Store, dr: DR.Drains, dr': DR.Drains)
    requires Issued(st, dr) && Runs(dr, dr') && forall k :: Log(st', k) == Log(st, k)
    ensures Issued(st', dr')
  {
    forall u | u in dr'.byUid && dr'.byUid[u] < |dr'.requests| ensures IssuedFor(st', dr'.requests[dr'.byUid[u]], u) {
      var r := dr.requests[dr.byUid[u]];
      var i :| VersionOf(st, r.key, i, u, r.node);
      assert VersionOf(st', r.key, i, u, r.node);
    }
  }

  lemma AppendCtlDrain(st: Store, dr: DR.Drains, lost: set<string>, c: Ctl, k: Key, e: Entry)
    requires Steady(st, lost) && Edge(Cur(st, k), e) && Gentle(Cur(st, k), e) && CtlDrain(st, dr, lost, c)
    ensures CtlDrain(Append(st, k, e), dr, lost, c)
  {
    hide Steady, Edge, Gentle, Append;
    if c.Busy? && c.pc == Drain(AddDrain) && c.nm.node !in lost {
      AppendDraining(st, lost, k, e, c.key, c.nm.uid, c.nm.node);
    }
  }

  lemma ForeignDrainage(s: State, s': State, k: Key, e: Entry)
    requires SteadyInv(s) && DrainageInv(s) && Edge(Cur(s.st, k), e) && Gentle(Cur(s.st, k), e)
    requires !Readied(Cur(s.st, k), e)
    requires s'.st == Append(s.st, k, e) && s'.dr == s.dr && s'.ctl == s.ctl && s'.h.lost == s.h.lost
    ensures DrainageInv(s')
  {
    hide Steady, Edge, Gentle, EarnedLogs, OpOwned, Owners, Issued, CtlDrain, Append;
    AppendEarned(s.st, s.dr, k, e);
    AppendIssued(s.st, s.dr, k, e);
    AppendOwners(s.st, s.dr, s.h.lost, k, e);
    AppendCtlDrain(s.st, s.dr, s.h.lost, s.ctl, k, e);
  }

  lemma EditDrainage(s: State, e: Edit)
    requires Core(s) && SteadyInv(s) && DrainageInv(s) && CanEdit(s, e)
    ensures DrainageInv(DoEdit(s, e))
  {
    hide Core, SteadyInv, DrainageInv, Edge, Gentle, Append;
    EditFacts(s, e);
    ForeignDrainage(s, DoEdit(s, e), e.k, Edited(s, e));
  }

  lemma TurnDrainage(s: State, t: Turn)
    requires Core(s) && SteadyInv(s) && DrainageInv(s) && CanSchedule(s, t)
    ensures DrainageInv(DoSchedule(s, t))
  {
    hide Core, SteadyInv, EarnedLogs, OpOwned, Owners, Issued, CtlDrain, WriteScheduled;
    match t
    case WriteOne(k, ok) => WriteOneDrainage(s, k, ok);
    case _ =>
  }

  lemma WriteOneDrainage(s: State, k: Key, ok: bool)
    requires Core(s) && SteadyInv(s) && DrainageInv(s) && CanSchedule(s, WriteOne(k, ok))
    ensures DrainageInv(WriteScheduled(s, k, ok))
  {
    hide Core, SteadyInv, EarnedLogs, OpOwned, Owners, Issued, CtlDrain, Edge, Gentle, Append;
    if ok && s.sched.todo[k] == Last(s.st, k) && Cur(s.st, k).Some? {
      WriteOneFacts(s, k);
      ForeignDrainage(s, WriteScheduled(s, k, ok), k, Some(WithReason(Cur(s.st, k).value, Scheduled)));
    }
  }

  // ---------------------------------------------------- goroutines and others

  /** Steps of goroutines and contexts: the map and the lock stay, results stay. */
  ghost predicate Runs(dr: DR.Drains, dr': DR.Drains) {
    && dr'.byUid == dr.byUid && dr'.op == dr.op && |dr'.requests| == |dr.requests|
    && forall i :: 0 <= i < |dr.requests| ==> DR.Continues(dr.requests[i], dr'.requests[i])
  }

  /** All results stay. */
  ghost predicate Lasting(dr: DR.Drains, dr': DR.Drains) {
    |dr.requests| <= |dr'.requests| && forall i :: 0 <= i < |dr.requests| ==>
        DR.Continues(dr.requests[i], dr'.requests[i])
  }

  lemma LastingEarned(dr: DR.Drains, dr': DR.Drains, uid: nat, spec: DrainSpec)
    requires Lasting(dr, dr') && Earned(dr, uid, spec)
    ensures Earned(dr', uid, spec)
  {
    var id :| 0 <= id < |dr.requests| && Succeeded(dr.requests[id], uid, spec);
    assert DR.Continues(dr.requests[id], dr'.requests[id]);
    assert Succeeded(dr'.requests[id], uid, spec);
  }

  lemma LastingLogs(st: Store, st': Store, dr: DR.Drains, dr': DR.Drains)
    requires EarnedLogs(st, dr) && Lasting(dr, dr') && forall k :: Log(st', k) == Log(st, k)
    ensures EarnedLogs(st', dr')
  {
    hide Lasting, Earned;
    forall k ensures EarnedLog(dr', Log(st', k)) {
      var log := Log(st, k);
      assert EarnedLog(dr, log);
      forall i | 0 < i < |log| ensures EarnedAt(dr', log, i) {
        assert EarnedAt(dr, log, i);
        if Readied(log[i - 1], log[i]) && log[i - 1].value.drainSpec.Some? {
          LastingEarned(dr, dr', log[i].value.uid, log[i - 1].value.drainSpec.value);
        }
      }
    }
  }

  lemma RunsCtl(st: Store, dr: DR.Drains, dr': DR.Drains, lost: set<string>, c: Ctl)
    requires CtlDrain(st, dr, lost, c) && Runs(dr, dr')
    ensures CtlDrain(st, dr', lost, c)
  {
    hide Earned;
    if c.Busy? && c.nm.drainSpec.Some? && Earned(dr, c.nm.uid, c.nm.drainSpec.value) {
      LastingEarned(dr, dr', c.nm.uid, c.nm.drainSpec.value);
    }
  }

  lemma EvictRuns(s: State, e: Eviction)
    requires DR.DrainsInv(s.dr) && CanEvict(s, e)
    ensures Runs(s.dr, DoEvict(s, e).dr)
  {
  }

  lemma EvictDrainage(s: State, e: Eviction)
    requires Core(s) && DrainageInv(s) && CanEvict(s, e)
    ensures DrainageInv(DoEvict(s, e))
  {
    hide LogsOk, UidsOk, SchedOk, CtlOk, EarnedLogs, CtlDrain, Issued;
    EvictRuns(s, e);
    RunsIssued(s.st, s.st, s.dr, DoEvict(s, e).dr);
    LastingLogs(s.st, s.st, s.dr, DoEvict(s, e).dr);
    RunsCtl(s.st, s.dr, DoEvict(s, e).dr, s.h.lost, s.ctl);
  }

  lemma RelayDrainage(s: State, r: Relay)
    requires Core(s) && DrainageInv(s) && CanRelay(s, r)
    ensures DrainageInv(DoRelay(s, r))
  {
    hide LogsOk, UidsOk, SchedOk, CtlOk, EarnedLogs, Earned, EarnedFor, IssuedFor;
    var s' := DoRelay(s, r);
    assert forall k :: Log(s'.st, k) == Log(s.st, k) && Cur(s'.st, k) == Cur(s.st, k);
    if r == Restart { DR.DrainsStep(s.dr, DR.Restarted); } else { RunsIssued(s.st, s'.st, s.dr, s.dr); }
    LastingLogs(s.st, s'.st, s.dr, s'.dr);
  }

  lemma LostOwners(st: Store, dr: DR.Drains, lost: set<string>, lost': set<string>, c: Ctl)
    requires Owners(st, dr, lost) && CtlDrain(st, dr, lost, c) && lost <= lost'
    ensures Owners(st, dr, lost') && CtlDrain(st, dr, lost', c)
  {
  }

  lemma ChangeDrainage(s: State, c: Change)
    requires DrainageInv(s) && CanChange(s, c)
    ensures DrainageInv(DoChange(s, c))
  {
    hide EarnedLogs, OpOwned, Owners, Issued, CtlDrain;
    LostOwners(s.st, s.dr, s.h.lost, DoChange(s, c).h.lost, s.ctl);
  }

  // --------------------------------------------------------- the reconciler

  /** A request under deletion stays in its phase, but for the step into Cordon. */
  predicate Frozen(x: NodeMaintenance, y: NodeMaintenance) {
    x.deleting ==>
      && y.deleting
      && (y.reason == x.reason || (x.reason == Scheduled && y.reason == Cordon) || (Terminal(x) && Terminal(y)))
  }

  lemma {:induction false} AliveFrozen(log: seq<Entry>, i: int, j: int)
    requires LogOk(log) && Alive(log, i, j)
    ensures Frozen(log[i].value, log[j].value)
    decreases j - i
  {
    if i < j {
      AliveFrozen(log, i, j - 1);
      assert EdgeAt(log, j);
    }
  }

  /** A drain known under the copy's UID was asked for by the copy's request. */
  lemma DrainOfCopy(s: State)
    requires Core(s) && DrainageInv(s) && s.ctl.Busy? && s.ctl.nm.uid in s.dr.byUid
    ensures s.dr.byUid[s.ctl.nm.uid] < |s.dr.requests|
    ensures s.dr.requests[s.dr.byUid[s.ctl.nm.uid]].key == s.ctl.key
    ensures s.dr.requests[s.dr.byUid[s.ctl.nm.uid]].node == s.ctl.nm.node
  {
    hide SchedOk, Unseen, Exclusive, EarnedLogs, OpOwned, CtlDrain, Owners;
    var u := s.ctl.nm.uid;
    CopyUid(s);
    var r := s.dr.requests[s.dr.byUid[u]];
    var i :| VersionOf(s.st, r.key, i, u, r.node);
    var log := Log(s.st, s.ctl.key);
    if i <= s.ctl.at { AliveProgress(log, i, s.ctl.at); } else { AliveProgress(log, s.ctl.at, i); }
  }

  /** No drain is known for a request that is cleaned up from another phase than Draining. */
  lemma CleanFree(s: State)
    requires Core(s) && DrainageInv(s) && s.ctl.Busy? && s.ctl.nm.deleting && s.ctl.nm.reason != Draining
    requires UnderMaintenance(s.ctl.nm) && s.ctl.nm.node !in s.h.lost
    ensures s.ctl.nm.uid !in s.dr.byUid
  {
    hide SchedOk, Unseen, Exclusive, EarnedLogs, OpOwned, CtlDrain, Issued;
    var c := s.ctl;
    if c.nm.uid in s.dr.byUid {
      DrainOfCopy(s);
      CopyUid(s);
      assert UidAt(s.st, c.key, Last(s.st, c.key), c.nm.uid);
      AliveFrozen(Log(s.st, c.key), c.at, Last(s.st, c.key));
    }
  }

  predicate DrainMove(pc: PC, c: NodeMaintenance, next: Next) {
    next.To? ==>
      && (next.pc.Drain? ==>
            || next.pc == Drain(GetDrain)
            || (next.pc.drain.RemoveDrain? && next.pc.drain.after != ThenReady)
            || (next.pc == Drain(SetReady) && pc == Drain(ClearStatus)))
      && (next.pc.Clean? ==> pc.Clean? || (c.deleting && c.reason != Draining && UnderMaintenance(c)))
  }

  predicate DrainWrite(pc: PC, next: Next) {
    next.To? ==>
      && (next.pc.Drain? ==>
            || (next.pc == Drain(AddDrain) && pc == Drain(InitStatus))
            || (next.pc == Drain(RemoveDrain(ThenReady)) && pc == Drain(FinalStatus))
            || (next.pc == Drain(SetReady) && pc == Drain(ClearStatus)))
      && (next.pc.Clean? ==> pc.Clean?)
  }

  lemma CodeDrainMove(pc: PC, c: NodeMaintenance, node: Node, openshift: bool, choice: nat)
    requires PcOk(pc, c)
    ensures
      match Code(pc, c, node, openshift, choice)
      case Go(next) => DrainMove(pc, c, next)
      case Write(_, next) => DrainWrite(pc, next)
      case TryWrite(_, next) => next == To(Top(Dispatch))
      case Mark(_, next) => DrainMove(pc, c, next)
      case Look => true
    ensures Code(pc, c, node, openshift, choice) != Look ==> !HoldsLock(pc)
  {
  }

  /** The statements during which the manager's lock may be held. */
  predicate HoldsLock(pc: PC) { pc.Drain? && (pc.drain == AddDrain || pc.drain.RemoveDrain?) }

  lemma GoCtlDrain(s: State, pc: PC)
    requires Core(s) && DrainageInv(s) && s.ctl.Busy? && DrainMove(s.ctl.pc, s.ctl.nm, To(pc))
    requires PcOk(s.ctl.pc, s.ctl.nm)
    ensures CtlDrain(s.st, s.dr, s.h.lost, s.ctl.(pc := pc))
  {
    hide Core, EarnedLogs, OpOwned, Owners, Issued, Earned;
    if pc.Clean? && !s.ctl.pc.Clean? && s.ctl.nm.node !in s.h.lost { CleanFree(s); }
  }

  lemma FreeLock(s: State)
    requires OpOwned(s.dr, s.ctl) && s.ctl.Busy? && !HoldsLock(s.ctl.pc)
    ensures s.dr.op == DR.Free && forall c :: OpOwned(s.dr, c)
  {
  }

  lemma FollowDrainage(s: State, next: Next)
    requires Core(s) && DrainageInv(s) && s.ctl.Busy? && DrainMove(s.ctl.pc, s.ctl.nm, next) && !HoldsLock(s.ctl.pc)
    ensures DrainageInv(Follow(s, next))
  {
    hide Core, EarnedLogs, OpOwned, Owners, Issued, CtlDrain, DrainMove;
    CopyFacts(s);
    FreeLock(s);
    RestingDrain(s.st, s.dr, s.h.lost);
    if next.To? { GoCtlDrain(s, next.pc); }
  }

  lemma RestingDrain(st: Store, dr: DR.Drains, lost: set<string>)
    ensures CtlDrain(st, dr, lost, Resting)
  {
  }

  lemma CommitEarned(s: State, obj: NodeMaintenance)
    requires Core(s) && DrainageInv(s) && s.ctl.Busy? && Current(s) && Effect(s.ctl.pc, s.ctl.nm, s.ctl.node, obj)
    ensures EarnedLogs(Append(s.st, s.ctl.key, Stored(obj)), s.dr)
  {
    hide LogsOk, UidsOk, SchedOk, EarnedLogs, Owners, Issued, Earned;
    AppendEarned(s.st, s.dr, s.ctl.key, Stored(obj));
  }

  lemma CommitOwners(s: State, obj: NodeMaintenance)
    requires Core(s) && SteadyInv(s) && DrainageInv(s) && s.ctl.Busy? && Current(s)
    requires Effect(s.ctl.pc, s.ctl.nm, s.ctl.node, obj)
    ensures Owners(Append(s.st, s.ctl.key, Stored(obj)), s.dr, s.h.lost)
  {
    hide LogsOk, UidsOk, SchedOk, EarnedLogs, Issued, Earned, Steady, DR.DrainsInv;
    var st' := Append(s.st, s.ctl.key, Stored(obj));
    CopyFacts(s);
    forall u | u in s.dr.byUid && s.dr.byUid[u] < |s.dr.requests|
      ensures OwnerOk(st', s.dr.requests[s.dr.byUid[u]], u, s.h.lost)
    {
      var r := s.dr.requests[s.dr.byUid[u]];
      assert OwnerOk(s.st, r, u, s.h.lost);
      if r.key != s.ctl.key { assert Cur(st', r.key) == Cur(s.st, r.key); }
    }
  }

  lemma CommitCtlDrain(s: State, obj: NodeMaintenance, pc: PC)
    requires DrainageInv(s) && s.ctl.Busy? && PcOk(s.ctl.pc, s.ctl.nm) && Effect(s.ctl.pc, s.ctl.nm, s.ctl.node, obj)
    requires DrainWrite(s.ctl.pc, To(pc)) && Stored(obj).Some?
    ensures CtlDrain(Append(s.st, s.ctl.key, Stored(obj)), s.dr, s.h.lost,
          s.ctl.(nm := obj, at := s.ctl.at + 1, pc := pc))
  {
    hide EarnedLogs, OpOwned, Owners, Issued, Earned;
  }

  lemma CommitDrainage(s: State, obj: NodeMaintenance, next: Next)
    requires Core(s) && SteadyInv(s) && DrainageInv(s) && s.ctl.Busy? && Current(s) && !HoldsLock(s.ctl.pc)
    requires Effect(s.ctl.pc, s.ctl.nm, s.ctl.node, obj) && DrainWrite(s.ctl.pc, next)
    requires (next.To? ==> Stored(obj).Some?)
    ensures DrainageInv(Follow(Commit(s, obj), next))
  {
    hide Core, SteadyInv, EarnedLogs, OpOwned, Owners, Issued, CtlDrain, Effect, DrainWrite, Append, Stored,
         PcOk;
    CopyFacts(s);
    CommitEarned(s, obj);
    CommitOwners(s, obj);
    AppendIssued(s.st, s.dr, s.ctl.key, Stored(obj));
    if next.To? { CommitCtlDrain(s, obj, next.pc); }
    FreeLock(s);
    LandDrainage(s, Commit(s, obj), next);
  }

  lemma LandDrainage(s: State, s': State, next: Next)
    requires s'.ctl.Busy? && s'.dr == s.dr && s'.h.lost == s.h.lost
    requires EarnedLogs(s'.st, s.dr) && Owners(s'.st, s.dr, s.h.lost) && Issued(s'.st, s.dr) &&
          forall c :: OpOwned(s.dr, c)
    requires next.To? ==> CtlDrain(s'.st, s.dr, s.h.lost, s'.ctl.(pc := next.pc))
    ensures DrainageInv(Follow(s', next))
  {
    hide EarnedLogs, OpOwned, Owners, Issued, CtlDrain;
    RestingDrain(s'.st, s.dr, s.h.lost);
  }

  lemma FlipDrainage(s: State, value: bool, next: Next)
    requires Core(s) && DrainageInv(s) && s.ctl.Busy? && s.ctl.nm.node in s.nodes && !HoldsLock(s.ctl.pc)
    requires Marking(s.ctl.pc, s.ctl.nm, s.ctl.node, value, next)
    ensures DrainageInv(Follow(Flip(s, value), next))
  {
    hide Core, EarnedLogs, Owners, Issued, Earned;
  }

  lemma LookUpDrainage(s: State)
    requires DrainageInv(s) && s.ctl.Busy? && s.ctl.pc == Top(GetNode)
    ensures DrainageInv(LookUpNode(s))
  {
    hide EarnedLogs, Issued, Owners, CtlDrain;
    LostOwners(s.st, s.dr, s.h.lost, LookUpNode(s).h.lost, s.ctl);
    TopDrain(s.st, s.dr, LookUpNode(s).h.lost, LookUpNode(s).ctl);
  }

  lemma TopDrain(st: Store, dr: DR.Drains, lost: set<string>, c: Ctl)
    requires c.Busy? && c.pc.Top?
    ensures CtlDrain(st, dr, lost, c)
  {
  }

  lemma FailDrainage(s: State)
    requires Core(s) && DrainageInv(s) && s.ctl.Busy? && !CannotFail(s.ctl.pc)
    ensures DrainageInv(CtlFail(s))
  {
    hide Core, EarnedLogs, Issued, Owners, CtlDrain, CtlFail;
    FailShape(s);
    if s.ctl.pc == Top(SetOwner) { TopDrain(s.st, s.dr, s.h.lost, CtlFail(s).ctl); }
    RestingDrain(s.st, s.dr, s.h.lost);
  }

  // -- statements that look at pools

  ghost predicate Apart(s: State, s': State)
    requires s.ctl.Busy?
  {
    && s'.st == s.st && s'.dr == s.dr && s'.h.lost == s.h.lost
    && (s'.ctl.Busy? ==> !s'.ctl.pc.Drain? && (s'.ctl.pc.Clean? ==> s.ctl.pc.Clean? && s'.ctl.nm == s.ctl.nm))
  }

  lemma FollowApart(s: State, next: Next)
    requires s.ctl.Busy? && (next.To? ==> !next.pc.Drain? && (next.pc.Clean? ==> s.ctl.pc.Clean?))
    ensures Apart(s, Follow(s, next))
  {
  }

  lemma PatchApart(s: State, on: bool, pc: PC)
    requires s.ctl.Busy? && !pc.Drain? && (pc.Clean? ==> s.ctl.pc.Clean?)
    ensures Apart(s, Patch(s, on, pc))
  {
    hide Follow;
    if s.ctl.node.pool in s.pools {
      FollowApart(SetPool(s, s.ctl.node.pool, on), To(pc));
    } else {
      FollowApart(s, End(Retry));
    }
  }

  lemma PauseApart(s: State)
    requires s.ctl.Busy? && s.ctl.pc.Pause? && CtlReady(s) && Looks(s.ctl.pc)
    ensures Apart(s, PauseLook(s))
  {
    hide Patch, Follow;
    match s.ctl.pc.pause
    case AwaitLabel =>
    case ReadPool =>
      FollowApart(NoteRace(s, s.ctl.node.pool), AfterReadPool(s));
    case PatchPool => PatchApart(s, true, Pause(AwaitMark));
    case AwaitMark => FollowApart(s, AfterMark(s));
    case UndoPatch => PatchApart(s, false, Pause(AwaitUndo));
    case _ =>
  }

  lemma CheckApart(s: State)
    requires s.ctl.Busy? && s.ctl.pc == Clean(CheckUse)
    ensures Apart(s, CheckUsers(s))
  {
    hide UsedIn;
  }

  lemma UnpauseApart(s: State)
    requires s.ctl.Busy? && s.ctl.pc.Clean? && Looks(s.ctl.pc)
    ensures Apart(s, UnpauseLook(s))
  {
    hide Patch, Follow, CheckUsers, Apart;
    match s.ctl.pc.clean
    case ReadMark => FollowApart(s, AfterReadMark(s));
    case CheckUse => CheckApart(s);
    case PatchUnpause => PatchApart(s, false, Clean(AwaitUnmark));
    case _ => FollowApart(s, To(Clean(RemoveFinalizer)));
  }

  lemma ApartDrainage(s: State, s': State)
    requires DrainageInv(s) && s.ctl.Busy? && !HoldsLock(s.ctl.pc) && Apart(s, s')
    ensures DrainageInv(s')
  {
    hide EarnedLogs, Issued, Owners;
  }

  // -- statements that talk to the manager

  lemma FindDrainage(s: State)
    requires Core(s) && DrainageInv(s) && s.ctl.Busy? && s.ctl.pc == Drain(GetDrain)
    ensures DrainageInv(FindDrain(s))
  {
    hide LogsOk, UidsOk, SchedOk, CtlOk, EarnedLogs, Issued, Owners;
  }

  /** Only what is mapped matters: no other request is added to the map. */
  lemma MappedOwners(st: Store, dr: DR.Drains, dr': DR.Drains, lost: set<string>)
    requires Owners(st, dr, lost) && Issued(st, dr) && Lasting(dr, dr')
    requires forall u :: u in dr'.byUid ==> u in dr.byUid && dr'.byUid[u] == dr.byUid[u] && dr.byUid[u] < |dr.requests|
    ensures Owners(st, dr', lost) && Issued(st, dr')
  {
    forall u | u in dr'.byUid && dr'.byUid[u] < |dr'.requests|
      ensures OwnerOk(st, dr'.requests[dr'.byUid[u]], u, lost) && IssuedFor(st, dr'.requests[dr'.byUid[u]], u)
    {
      assert DR.Continues(dr.requests[dr.byUid[u]], dr'.requests[dr'.byUid[u]]);
      assert OwnerOk(st, dr.requests[dr.byUid[u]], u, lost) && IssuedFor(st, dr.requests[dr.byUid[u]], u);
      var r := dr.requests[dr.byUid[u]];
      var i :| VersionOf(st, r.key, i, u, r.node);
      assert VersionOf(st, dr'.requests[dr'.byUid[u]].key, i, u, r.node);
    }
  }

  lemma KeptLasting(dr: DR.Drains, dr': DR.Drains)
    requires DR.Kept(dr, dr')
    ensures Lasting(dr, dr')
  {
  }

  /** Removal of the drain of the reconciler's request. */
  lemma RemoveDrainage(s: State, after: AfterRemove)
    requires Core(s) && DrainageInv(s) && s.ctl.Busy? && s.ctl.pc == Drain(RemoveDrain(after)) && s.dr.op.Removing?
    requires DR.RemoveReady(s.dr)
    ensures
      var dr' := DR.RemoveStep(s.dr);
      && EarnedLogs(s.st, dr') && Owners(s.st, dr', s.h.lost) && Issued(s.st, dr')
      && (after == ThenReady ==> EarnedFor(dr', s.ctl.nm))
      && (dr'.op == DR.Free ==> s.ctl.nm.uid !in dr'.byUid)
      && (dr'.op.Removing? ==> OpOwned(dr', s.ctl))
      && !dr'.op.Adding?
  {
    hide LogsOk, UidsOk, SchedOk, CtlOk, EarnedLogs, Issued, Owners, DR.DrainsInv, Earned, Lasting;
    var dr' := DR.RemoveStep(s.dr);
    DR.RemoveKeeps(s.dr);
    KeptLasting(s.dr, dr');
    LastingLogs(s.st, s.st, s.dr, dr');
    MappedInvs(s.dr, dr');
    MappedOwners(s.st, s.dr, dr', s.h.lost);
    if after == ThenReady && s.ctl.nm.drainSpec.Some? {
      LastingEarned(s.dr, dr', s.ctl.nm.uid, s.ctl.nm.drainSpec.value);
    }
  }

  lemma MappedInvs(dr: DR.Drains, dr': DR.Drains)
    requires DR.DrainsInv(dr) && DR.RemoveReady(dr) && dr' == DR.RemoveStep(dr)
    ensures forall u :: u in dr'.byUid ==> u in dr.byUid && dr'.byUid[u] == dr.byUid[u] && dr.byUid[u] < |dr.requests|
  {
  }

  /** After the removal no drain is known for the request, and the program goes on accordingly. */
  lemma RemovedCtl(st: Store, dr: DR.Drains, lost: set<string>, c: Ctl, after: AfterRemove, openshift: bool, pc: PC)
    requires c.Busy? && c.pc == Drain(RemoveDrain(after)) && AfterRemoval(after, c.nm, openshift) == To(pc)
    requires c.nm.uid !in dr.byUid && PcOk(c.pc, c.nm) && (after == ThenReady ==> EarnedFor(dr, c.nm))
    ensures CtlDrain(st, dr, lost, c.(pc := pc))
  {
    hide Earned;
  }

  lemma RemovedDrainage(s: State, dr: DR.Drains, after: AfterRemove)
    requires s.ctl.Busy? && s.ctl.pc == Drain(RemoveDrain(after)) && PcOk(s.ctl.pc, s.ctl.nm)
    requires EarnedLogs(s.st, dr) && Owners(s.st, dr, s.h.lost) && Issued(s.st, dr) && dr.op == DR.Free
    requires s.ctl.nm.uid !in dr.byUid && (after == ThenReady ==> EarnedFor(dr, s.ctl.nm))
    ensures DrainageInv(Follow(s.(dr := dr), AfterRemoval(after, s.ctl.nm, s.openshift)))
  {
    hide EarnedLogs, Owners, Issued, CtlDrain, AfterRemoval, PcOk, EarnedFor;
    var next := AfterRemoval(after, s.ctl.nm, s.openshift);
    RestingDrain(s.st, dr, s.h.lost);
    if next.To? { RemovedCtl(s.st, dr, s.h.lost, s.ctl, after, s.openshift, next.pc); }
  }

  lemma RemovingDrainage(s: State, dr: DR.Drains, after: AfterRemove)
    requires s.ctl.Busy? && s.ctl.pc == Drain(RemoveDrain(after))
    requires EarnedLogs(s.st, dr) && Owners(s.st, dr, s.h.lost) && Issued(s.st, dr) && dr.op.Removing?
    requires OpOwned(dr, s.ctl)
    requires after == ThenReady ==> EarnedFor(dr, s.ctl.nm)
    ensures DrainageInv(s.(dr := dr))
  {
    hide EarnedLogs, Owners, Issued, EarnedFor;
  }

  lemma BeginDrainage(s: State, after: AfterRemove)
    requires Core(s) && DrainageInv(s) && s.ctl.Busy? && s.ctl.pc == Drain(RemoveDrain(after))
    requires s.ctl.nm.uid in s.dr.byUid
    ensures DrainageInv(s.(dr := DR.RemoveBegin(s.dr, s.ctl.nm.uid)))
  {
    hide LogsOk, UidsOk, SchedOk, CtlOk, EarnedLogs, Issued, Owners, Earned;
    var dr' := DR.RemoveBegin(s.dr, s.ctl.nm.uid);
    LastingLogs(s.st, s.st, s.dr, dr');
    MappedOwners(s.st, s.dr, dr', s.h.lost);
    if after == ThenReady && s.ctl.nm.drainSpec.Some? {
      LastingEarned(s.dr, dr', s.ctl.nm.uid, s.ctl.nm.drainSpec.value);
    }
    RemovingDrainage(s, dr', after);
  }

  lemma CancelDrainage(s: State, after: AfterRemove)
    requires Core(s) && DrainageInv(s) && s.ctl.Busy? && s.ctl.pc == Drain(RemoveDrain(after)) && CtlReady(s)
    ensures DrainageInv(CancelDrain(s, after))
  {
    hide Core, EarnedLogs, Issued, Owners, Earned, AfterRemoval, Follow, DR.RemoveStep, DR.RemoveBegin, PcOk;
    CopyFacts(s);
    if s.dr.op.Removing? {
      RemoveDrainage(s, after);
      var dr' := DR.RemoveStep(s.dr);
      if dr'.op == DR.Free { RemovedDrainage(s, dr', after); } else { RemovingDrainage(s, dr', after); }
    } else if s.ctl.nm.uid in s.dr.byUid {
      BeginDrainage(s, after);
    } else {
      RemovedDrainage(s, s.dr, after);
    }
  }

  /** Insertion of a drain for the reconciler's request. */
  lemma InsertOwners(s: State, r: DrainRequests.DrainReq)
    requires Core(s) && DrainageInv(s) && s.ctl.Busy? && s.ctl.pc == Drain(AddDrain) && s.ctl.nm.uid !in s.dr.byUid
    requires r.key == s.ctl.key && r.uid == s.ctl.nm.uid && r.node == s.ctl.nm.node
    ensures Owners(s.st, DR.AddInsert(s.dr, r), s.h.lost) && Issued(s.st, DR.AddInsert(s.dr, r))
  {
    hide LogsOk, UidsOk, SchedOk, EarnedLogs, Earned;
    var dr' := DR.AddInsert(s.dr, r);
    assert VersionOf(s.st, r.key, s.ctl.at, r.uid, r.node);
    assert IssuedFor(s.st, r, r.uid);
    forall u | u in dr'.byUid && dr'.byUid[u] < |dr'.requests|
      ensures OwnerOk(s.st, dr'.requests[dr'.byUid[u]], u, s.h.lost) && IssuedFor(s.st, dr'.requests[dr'.byUid[u]], u)
    {
      if u != r.uid {
        assert dr'.requests[dr'.byUid[u]] == s.dr.requests[s.dr.byUid[u]];
      }
    }
  }

  lemma InsertedDrainage(s: State, r: DrainRequests.DrainReq)
    requires Core(s) && DrainageInv(s) && s.ctl.Busy? && s.ctl.pc == Drain(AddDrain) && s.ctl.nm.uid !in s.dr.byUid
    requires s.dr.op == DR.Free
    requires r == DrainRequests.NewDrainRequest(s.ctl.key, s.ctl.nm.uid, s.ctl.nm.node, r.spec, r.contextDone)
    ensures DrainageInv(s.(dr := DR.AddInsert(s.dr, r)))
  {
    hide LogsOk, UidsOk, SchedOk, CtlOk, EarnedLogs, Owners, Issued, Earned, DR.DrainsInv;
    InsertOwners(s, r);
    DR.InsertKeeps(s.dr, r);
    LastingLogs(s.st, s.st, s.dr, DR.AddInsert(s.dr, r));
  }

  lemma StartedDrainage(s: State)
    requires Core(s) && DrainageInv(s) && s.ctl.Busy? && s.dr.op.Adding? && s.dr.op.id < |s.dr.requests|
    ensures DrainageInv(s.(dr := DR.AddStart(s.dr), ctl := Resting))
  {
    hide LogsOk, UidsOk, SchedOk, CtlOk, EarnedLogs, Owners, Issued, Earned;
    var dr' := DR.AddStart(s.dr);
    DR.StartKeeps(s.dr);
    LastingLogs(s.st, s.st, s.dr, dr');
    MappedOwners(s.st, s.dr, dr', s.h.lost);
    RestingDrain(s.st, dr', s.h.lost);
  }

  lemma AddDrainage(s: State, choice: nat)
    requires Core(s) && DrainageInv(s) && s.ctl.Busy? && s.ctl.pc == Drain(AddDrain) && CtlReady(s)
    ensures DrainageInv(InsertDrain(s, choice))
  {
    hide Core, EarnedLogs, Owners, Issued, CtlDrain, DR.AddInsert, DR.AddStart;
    var nm := s.ctl.nm;
    if s.dr.op.Adding? {
      StartedDrainage(s);
      SameDrainage(s.(dr := DR.AddStart(s.dr), ctl := Resting), InsertDrain(s, choice));
    } else if nm.drainSpec == None || nm.uid in s.dr.byUid {
      RestingDrain(s.st, s.dr, s.h.lost);
    } else {
      InsertedDrainage(s, DrainRequests.NewDrainRequest(s.ctl.key, nm.uid, nm.node, nm.drainSpec.value, choice == 1));
    }
  }

  lemma SameDrainage(s: State, s': State)
    requires DrainageInv(s) && s'.st == s.st && s'.dr == s.dr && s'.ctl == s.ctl && s'.h.lost == s.h.lost
    ensures DrainageInv(s')
  {
    hide EarnedLogs, Owners, Issued, CtlDrain, OpOwned;
  }

  /** The repeated reads of a drain's state leave only success for the last branch. */
  lemma CheckedCtl(s: State)
    requires Core(s) && DrainageInv(s) && s.ctl.Busy? && s.ctl.pc.Drain?
    requires s.ctl.pc.drain in {CheckSpec, CheckInProgress, CheckError, CheckCanceled}
    ensures CtlDrain(s.st, s.dr, s.h.lost, s.ctl.(pc := Drain(AfterCheck(s))))
  {
    hide LogsOk, UidsOk, SchedOk, CtlOk, EarnedLogs, Owners, Issued;
    var r := s.dr.requests[s.ctl.req];
    assert r.started && !r.canceled && r.uid == s.ctl.nm.uid;
    if AfterCheck(s) == FinalStatus { assert Succeeded(r, s.ctl.nm.uid, s.ctl.nm.drainSpec.value); }
  }

  lemma CheckDrainage(s: State)
    requires Core(s) && DrainageInv(s) && s.ctl.Busy? && s.ctl.pc.Drain?
    requires s.ctl.pc.drain in {CheckSpec, CheckInProgress, CheckError, CheckCanceled}
    ensures DrainageInv(Follow(s, To(Drain(AfterCheck(s)))))
  {
    hide Core, EarnedLogs, Owners, Issued, CtlDrain, AfterCheck;
    CheckedCtl(s);
    FreeLock(s);
  }

  // ---------------------------------------------------------------- dispatch

  lemma DrainLookDrainage(s: State, choice: nat)
    requires Core(s) && DrainageInv(s) && s.ctl.Busy? && s.ctl.pc.Drain? && CtlReady(s) && Looks(s.ctl.pc)
    ensures DrainageInv(DrainLook(s, choice))
  {
    hide Core, DrainageInv, Follow, FindDrain, InsertDrain, CancelDrain, AfterCheck;
    match s.ctl.pc.drain
    case GetDrain => FindDrainage(s);
    case AddDrain => AddDrainage(s, choice);
    case RemoveDrain(after) => CancelDrainage(s, after);
    case CheckSpec | CheckInProgress | CheckError | CheckCanceled => CheckDrainage(s);
    case _ =>
  }

  lemma LookDrainage(s: State, choice: nat)
    requires Core(s) && DrainageInv(s) && s.ctl.Busy? && CtlReady(s) && Looks(s.ctl.pc)
    ensures DrainageInv(CtlLook(s, choice))
  {
    hide Core, DrainageInv, PauseLook, UnpauseLook, DrainLook, LookUpNode, CtlReady, DrainLooks, Apart;
    match s.ctl.pc
    case Pause(_) => PauseApart(s); ApartDrainage(s, PauseLook(s));
    case Clean(_) => UnpauseApart(s); ApartDrainage(s, UnpauseLook(s));
    case Drain(_) => DrainLookDrainage(s, choice);
    case Top(_) => LookUpDrainage(s);
    case _ =>
  }

  lemma OwnerDrainage(s: State, obj: NodeMaintenance, next: Next)
    requires Core(s) && SteadyInv(s) && DrainageInv(s) && s.ctl.Busy? && Current(s) && s.ctl.pc == Top(SetOwner)
    requires obj == s.ctl.nm && next == To(Top(Dispatch)) && Stored(obj).Some?
    ensures DrainageInv(Follow(Commit(s, obj), next)) && DrainageInv(Follow(s, next))
  {
    hide Core, SteadyInv, DrainageInv;
    SameEffect(s.ctl);
    CommitDrainage(s, obj, next);
    FollowDrainage(s, next);
  }

  lemma RetryDrainage(s: State)
    requires DrainageInv(s) && s.ctl.Busy? && !HoldsLock(s.ctl.pc)
    ensures DrainageInv(Finish(s, Retry))
  {
    hide EarnedLogs, Owners, Issued, CtlDrain;
    RestingDrain(s.st, s.dr, s.h.lost);
  }

  lemma ActDrainage(s: State, choice: nat)
    requires Core(s) && SteadyInv(s) && DrainageInv(s) && s.ctl.Busy? && CtlReady(s)
    ensures DrainageInv(CtlAct(s, choice))
  {
    hide Core, SteadyInv, DrainageInv, Code, CtlLook, Follow, Commit, Flip, Finish, CtlReady, PcOk, EntryOk,
         Edge, Effect, NextOk, DrainMove, DrainWrite, HoldsLock, Marking;
    CopyFacts(s);
    var c := s.ctl;
    CodeOk(c.pc, c.nm, c.node, s.openshift, choice);
    CodeEffect(c.pc, c.nm, c.node, s.openshift, choice);
    CodeDrainMove(c.pc, c.nm, c.node, s.openshift, choice);
    CodeLooks(c.pc, c.nm, c.node, s.openshift, choice);
    if !HoldsLock(c.pc) { RetryDrainage(s); }
    match Code(c.pc, c.nm, c.node, s.openshift, choice)
    case Go(next) => FollowDrainage(s, next);
    case Write(obj, next) => if Current(s) { CommitDrainage(s, obj, next); }
    case TryWrite(obj, next) =>
      if Current(s) { OwnerDrainage(s, obj, next); } else { OwnerMoves(c.nm); FollowDrainage(s, next); }
    case Mark(value, next) => if c.nm.node in s.nodes { FlipDrainage(s, value, next); }
    case Look => LookDrainage(s, choice);
  }

  lemma OwnerMoves(c: NodeMaintenance)
    ensures DrainMove(Top(SetOwner), c, To(Top(Dispatch)))
  {
  }

  lemma FetchDrainage(s: State, k: Key)
    requires DrainageInv(s) && s.ctl == Resting
    ensures DrainageInv(CtlRead(s, k))
  {
    hide EarnedLogs, Owners, Issued;
  }

  lemma DrainageStep(s: State, step: Step)
    requires Core(s) && SteadyInv(s) && DrainageInv(s) && Enabled(s, step)
    ensures DrainageInv(Apply(s, step))
  {
    hide Core, SteadyInv, DrainageInv, CanEdit, DoEdit, CanChange, DoChange, CanRelay, DoRelay, CanEvict,
         DoEvict, CanSchedule, DoSchedule, CtlRead, CtlAct, CtlFail, CtlReady, CannotFail;
    match step
    case Edits(e) => EditDrainage(s, e);
    case Changes(c) => ChangeDrainage(s, c);
    case Relays(r) => RelayDrainage(s, r);
    case Evictions(e) => EvictDrainage(s, e);
    case Scheduling(t) => TurnDrainage(s, t);
    case Fetch(k) => FetchDrainage(s, k);
    case Reconcile(ok, choice) => if ok { ActDrainage(s, choice); } else { FailDrainage(s); }
  }

  lemma InitDrainage(s: State)
    requires Init(s)
    ensures DrainageInv(s)
  {
  }
}
