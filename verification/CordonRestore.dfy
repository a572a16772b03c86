/** The node's unschedulable flag: what every request in phase Cordon or later knows about it, with
    any reconcile cut short after any call, stale copies, and everybody else moving in between. */
module CordonRestore {
  import opened Api
  import opened Versions
  import opened Handlers
  import opened Operator
  import opened Lifecycle
  import opened Histories
  import opened Rounds
  import opened Control
  import opened CoreInvariant
  import opened Effects
  import opened Shapes
  import opened Steadiness
  import opened Capacity
  import opened PreScheduling
  import DR = DrainManagers

  predicate IsLate(e: Entry) { e.Some? && Late(e.value) }

  predicate LateOn(e: Entry, node: string) { IsLate(e) && e.value.node == node }

  /** The request's node was never removed or moved, and nobody else changed the flag during its
      maintenance. */
  predicate Guarded(nm: NodeMaintenance, h: History) { nm.node !in h.lost && nm.uid !in h.touched }

  predicate Flag(nodes: map<string, Node>, name: string) { name in nodes && nodes[name].unschedulable }

  /** The flag against its value when the request entered phase Cordon: equal until the first and
      after the last flip; set from phase WaitForPodCompletion to the deletion. */
  predicate FlagOk(nm: NodeMaintenance, flag: bool, entry: map<nat, bool>) {
    && nm.uid in entry
    && (!nm.cordon || nm.initial == None ==> flag == entry[nm.uid])
    && (nm.initial.Some? ==> nm.initial.value == entry[nm.uid] && (entry[nm.uid] ==> flag))
    && (nm.cordon && nm.reason != Cordon && !nm.deleting ==> nm.initial.Some? && flag)
  }

  ghost predicate FlagsOk(st: Store, nodes: map<string, Node>, h: History) {
    forall k :: IsLate(Cur(st, k)) && Guarded(Cur(st, k).value, h) ==>
      Cur(st, k).value.node in nodes && FlagOk(Cur(st, k).value, Flag(nodes, Cur(st, k).value.node), h.entry)
  }

  predicate Noted(e: Entry, h: History) {
    e.Some? && e.value.initial.Some? && Guarded(e.value, h) ==>
      e.value.uid in h.entry && h.entry[e.value.uid] == e.value.initial.value
  }

  /** Every annotation ever written holds the value on entry. */
  ghost predicate NotesOk(st: Store, h: History) {
    forall k, i :: 0 <= i < |Log(st, k)| ==> Noted(Log(st, k)[i], h)
  }

  predicate NothingNoted(e: Entry, lost: set<string>) { IsLate(e) && Kept(e, lost) && e.value.initial == None }

  /** Once the annotation is dropped, the cache no longer shows the request as undeleted. */
  ghost predicate DroppedAt(log: seq<Entry>, seen: nat, lost: set<string>, i: int)
    requires 0 <= i < |log|
  {
    seen <= i && NothingNoted(log[|log| - 1], lost) && Alive(log, i, |log| - 1) && !log[i].value.deleting ==>
      log[i].value.initial == None
  }

  ghost predicate Dropped(log: seq<Entry>, seen: nat, lost: set<string>) {
    forall i {:trigger DroppedAt(log, seen, lost, i)} :: 0 <= i < |log| ==> DroppedAt(log, seen, lost, i)
  }

  ghost predicate DropsOk(st: Store, lost: set<string>) {
    forall k :: Dropped(Log(st, k), Seen(st, k), lost)
  }

  /** The request of the reconciler's copy still exists. */
  predicate Lives(st: Store, c: Ctl)
    requires c.Busy?
  {
    Cur(st, c.key).Some? && Cur(st, c.key).value.uid == c.nm.uid
  }

  predicate BeforeNode(pc: PC) { pc == Top(GetNode) || pc == Top(DropFinalizer) }

  /** What the program knows about the flag at the statements around its flips. */
  predicate FlagAt(pc: PC, nm: NodeMaintenance, node: Node, flag: bool, entry: map<nat, bool>) {
    && node.unschedulable == flag
    && (pc == Cordoning(SetWaitForPods) && nm.cordon ==> flag)
    && (pc == Clean(ForgetInitial) ==> nm.uid in entry && flag == entry[nm.uid])
  }

  /** No other request is in phase Cordon or later on the node. */
  ghost predicate Alone(st: Store, key: Key, node: string) {
    forall j :: j != key ==> !LateOn(Cur(st, j), node)
  }

  ghost predicate CtlCordon(st: Store, nodes: map<string, Node>, h: History, c: Ctl) {
    c.Busy? ==>
      var cur := Cur(st, c.key);
      && (UnderMaintenance(c.nm) ==> Alone(st, c.key, c.nm.node))
      && (IsLate(cur) && Kept(cur, h.lost) ==>
            Lives(st, c) && (!c.nm.deleting && c.nm.initial.Some? ==> cur.value.initial.Some?))
      && (Lives(st, c) && Late(c.nm) && Guarded(c.nm, h) && !BeforeNode(c.pc) ==>
            c.nm.node in nodes && FlagAt(c.pc, c.nm, c.node, Flag(nodes, c.nm.node), h.entry))
  }

  ghost predicate CordonInv(s: State) {
    !s.h.timedOut ==>
      && FlagsOk(s.st, s.nodes, s.h) && NotesOk(s.st, s.h) && DropsOk(s.st, s.h.lost)
      && CtlCordon(s.st, s.nodes, s.h, s.ctl)
  }

  // ------------------------------------------------------ others' new versions

  /** What a version written by others leaves alone. */
  ghost predicate Foreign(st: Store, k: Key, e: Entry) {
    && Edge(Cur(st, k), e)
    && (IsLate(e) ==>
          && IsLate(Cur(st, k)) && e.value.initial == Cur(st, k).value.initial
          && e.value.reason == Cur(st, k).value.reason)
    && (e.Some? && e.value.initial.Some? ==> IsLate(e))
  }

  lemma GentleForeign(st: Store, lost: set<string>, k: Key, e: Entry)
    requires LogsOk(st) && Steady(st, lost) && Edge(Cur(st, k), e) && Gentle(Cur(st, k), e)
    requires IsLate(e) ==> IsLate(Cur(st, k))
    requires Kept(e, lost)
    ensures Foreign(st, k, e)
  {
    assert SteadyLog(Log(st, k), Seen(st, k), lost);
    assert HeldAt(Log(st, k), lost, Last(st, k));
  }

  lemma ForeignFlags(st: Store, nodes: map<string, Node>, h: History, k: Key, e: Entry)
    requires FlagsOk(st, nodes, h) && Edge(Cur(st, k), e) && (Kept(e, h.lost) ==> Foreign(st, k, e))
    ensures FlagsOk(Append(st, k, e), nodes, h)
  {
    var st' := Append(st, k, e);
    forall j | IsLate(Cur(st', j)) && Guarded(Cur(st', j).value, h)
      ensures Cur(st', j).value.node in nodes
      ensures FlagOk(Cur(st', j).value, Flag(nodes, Cur(st', j).value.node), h.entry)
    {
      if j != k { assert Cur(st', j) == Cur(st, j); } else { assert Guarded(Cur(st, k).value, h); }
    }
  }

  lemma ForeignNotes(st: Store, h: History, k: Key, e: Entry)
    requires NotesOk(st, h) && Edge(Cur(st, k), e) && (Kept(e, h.lost) ==> Foreign(st, k, e))
    ensures NotesOk(Append(st, k, e), h)
  {
    var st' := Append(st, k, e);
    assert Noted(Cur(st, k), h);
    forall j, i | 0 <= i < |Log(st', j)| ensures Noted(Log(st', j)[i], h) {
      if i < |Log(st, j)| { assert Log(st', j)[i] == Log(st, j)[i]; }
    }
  }

  lemma AppendDropped(log: seq<Entry>, seen: nat, lost: set<string>, e: Entry)
    requires |log| > 0 && Dropped(log, seen, lost) && Edge(log[|log| - 1], e)
    requires NothingNoted(e, lost) ==> IsLate(log[|log| - 1]) && log[|log| - 1].value.initial == None
    ensures Dropped(log + [e], seen, lost)
  {
    var log' := log + [e];
    forall i | 0 <= i < |log'| ensures DroppedAt(log', seen, lost, i) {
      if i < |log| && Alive(log', i, |log'| - 1) {
        assert DroppedAt(log, seen, lost, i);
        assert forall x :: i <= x < |log| ==> log'[x] == log[x];
      }
    }
  }

  lemma ForeignDrops(st: Store, lost: set<string>, k: Key, e: Entry)
    requires DropsOk(st, lost) && Edge(Cur(st, k), e) && (Kept(e, lost) ==> Foreign(st, k, e))
    ensures DropsOk(Append(st, k, e), lost)
  {
    AppendDropped(Log(st, k), Seen(st, k), lost, e);
  }

  lemma ForeignCtl(st: Store, nodes: map<string, Node>, h: History, c: Ctl, k: Key, e: Entry)
    requires CtlCordon(st, nodes, h, c) && Edge(Cur(st, k), e) && (Kept(e, h.lost) ==> Foreign(st, k, e))
    requires IsLate(e) ==> IsLate(Cur(st, k))
    requires c.Busy? && c.key == k && Cur(st, k) == None ==> e.value.uid != c.nm.uid
    ensures CtlCordon(Append(st, k, e), nodes, h, c)
  {
    if c.Busy? {
      var st' := Append(st, k, e);
      if UnderMaintenance(c.nm) {
        forall j | j != c.key ensures !LateOn(Cur(st', j), c.nm.node) {
          assert !LateOn(Cur(st, j), c.nm.node);
          if j != k { assert Cur(st', j) == Cur(st, j); }
        }
      }
      if c.key != k { assert Cur(st', c.key) == Cur(st, c.key); }
    }
  }

  lemma ForeignCordon(s: State, k: Key, e: Entry)
    requires CordonInv(s) && !s.h.timedOut && Edge(Cur(s.st, k), e) && (Kept(e, s.h.lost) ==> Foreign(s.st, k, e))
    requires IsLate(e) ==> IsLate(Cur(s.st, k))
    requires s.ctl.Busy? && s.ctl.key == k && Cur(s.st, k) == None ==> e.value.uid != s.ctl.nm.uid
    ensures
      var st' := Append(s.st, k, e);
      FlagsOk(st', s.nodes, s.h) && NotesOk(st', s.h) && DropsOk(st', s.h.lost) && CtlCordon(st', s.nodes, s.h, s.ctl)
  {
    hide FlagsOk, NotesOk, DropsOk, CtlCordon, Foreign, Edge;
    ForeignFlags(s.st, s.nodes, s.h, k, e);
    ForeignNotes(s.st, s.h, k, e);
    ForeignDrops(s.st, s.h.lost, k, e);
    ForeignCtl(s.st, s.nodes, s.h, s.ctl, k, e);
  }

  /** The copy's UID is not the next one. */
  lemma CopyUid(s: State)
    requires Core(s) && s.ctl.Busy?
    ensures UidAt(s.st, s.ctl.key, s.ctl.at, s.ctl.nm.uid) && s.ctl.nm.uid < s.nextUid
  {
    assert UidAt(s.st, s.ctl.key, s.ctl.at, s.ctl.nm.uid);
  }

  lemma EditCordon(s: State, e: Edit)
    requires Core(s) && SteadyInv(s) && CordonInv(s) && CanEdit(s, e)
    ensures CordonInv(DoEdit(s, e))
  {
    hide FlagsOk, NotesOk, DropsOk, CtlCordon, Foreign, UidsOk, CtlOk, SchedOk, Unseen, Exclusive, Steady;
    if !s.h.timedOut {
      EditGentle(s, e);
      var y := Edited(s, e);
      EditLate(s, e);
      if Kept(y, s.h.lost) { GentleForeign(s.st, s.h.lost, e.k, y); }
      if s.ctl.Busy? { CopyUid(s); }
      ForeignCordon(s, e.k, y);
    }
  }

  lemma EditLate(s: State, e: Edit)
    requires CanEdit(s, e)
    ensures IsLate(Edited(s, e)) ==> IsLate(Cur(s.st, e.k))
    ensures Cur(s.st, e.k) == None ==> Edited(s, e).Some? && Edited(s, e).value.uid == s.nextUid
  {
  }

  lemma WriteOneCordon(s: State, k: Key, ok: bool)
    requires Core(s) && CordonInv(s) && CanSchedule(s, WriteOne(k, ok))
    ensures CordonInv(WriteScheduled(s, k, ok))
  {
    hide FlagsOk, NotesOk, DropsOk, CtlCordon, UidsOk, CtlOk, Unseen, Exclusive;
    if !s.h.timedOut && ok && s.sched.todo[k] == Last(s.st, k) && Cur(s.st, k).Some? {
      CurOk(s.st, k);
      var e := Some(WithReason(Cur(s.st, k).value, Scheduled));
      ForeignCordon(s, k, e);
    }
  }

  // -------------------------------------------------- nodes, caches, scheduler

  /** The flags of nodes that stay are what they were, and no history is forgotten. */
  ghost predicate SameFlags(nodes: map<string, Node>, nodes': map<string, Node>, h: History, h': History) {
    && h.lost <= h'.lost && h.touched <= h'.touched && h'.entry == h.entry
    && forall n :: n in nodes && n !in h'.lost ==> n in nodes' && Flag(nodes', n) == Flag(nodes, n)
  }

  lemma WeakerDropped(log: seq<Entry>, seen: nat, seen': nat, lost: set<string>, lost': set<string>)
    requires Dropped(log, seen, lost) && seen <= seen' && lost <= lost'
    ensures Dropped(log, seen', lost')
  {
    forall i | 0 <= i < |log| ensures DroppedAt(log, seen', lost', i) { assert DroppedAt(log, seen, lost, i); }
  }

  lemma WeakerDrops(st: Store, st': Store, lost: set<string>, lost': set<string>)
    requires DropsOk(st, lost) && lost <= lost' && forall k :: Log(st', k) == Log(st, k) && Seen(st, k) <= Seen(st', k)
    ensures DropsOk(st', lost')
  {
    forall k ensures Dropped(Log(st', k), Seen(st', k), lost') {
      WeakerDropped(Log(st, k), Seen(st, k), Seen(st', k), lost, lost');
    }
  }

  lemma SameFlagsCordon(s: State, s': State)
    requires CordonInv(s) && s'.st == s.st && s'.ctl == s.ctl && (s.h.timedOut ==> s'.h.timedOut)
    requires SameFlags(s.nodes, s'.nodes, s.h, s'.h)
    ensures CordonInv(s')
  {
    hide DropsOk, Alone;
    if !s'.h.timedOut { WeakerDrops(s.st, s.st, s.h.lost, s'.h.lost); }
  }

  /** Somebody else sets the flag: the requests concerned are no longer guarded. */
  lemma TouchFlags(s: State, n: string, nodes': map<string, Node>, h': History)
    requires FlagsOk(s.st, s.nodes, s.h) && h' == s.h.(touched := s.h.touched + LateUids(s, n))
    requires nodes'.Keys == s.nodes.Keys && forall m :: m != n ==> Flag(nodes', m) == Flag(s.nodes, m)
    ensures FlagsOk(s.st, nodes', h')
  {
    forall k | LateOn(Cur(s.st, k), n) ensures Cur(s.st, k).value.uid in h'.touched {
      assert k in s.st.logs;
    }
  }

  lemma TouchCtl(s: State, n: string, nodes': map<string, Node>, h': History)
    requires Core(s) && CtlCordon(s.st, s.nodes, s.h, s.ctl) && h' == s.h.(touched := s.h.touched + LateUids(s, n))
    requires nodes'.Keys == s.nodes.Keys && forall m :: m != n ==> Flag(nodes', m) == Flag(s.nodes, m)
    ensures CtlCordon(s.st, nodes', h', s.ctl)
  {
    hide Core, Alone;
    var c := s.ctl;
    if c.Busy? && Lives(s.st, c) && Late(c.nm) && c.nm.node == n {
      LivesLate(s);
      assert c.key in s.st.logs;
      assert c.nm.uid in h'.touched;
    }
  }

  lemma TouchCordon(s: State, n: string, value: bool)
    requires Core(s) && CordonInv(s) && n in s.nodes
    ensures CordonInv(DoChange(s, SetUnschedulable(n, value)))
  {
    hide Core, DropsOk, FlagsOk, NotesOk, CtlCordon;
    if !s.h.timedOut {
      var s' := DoChange(s, SetUnschedulable(n, value));
      TouchFlags(s, n, s'.nodes, s'.h);
      TouchCtl(s, n, s'.nodes, s'.h);
      TouchNotes(s.st, s.h, s'.h);
    }
  }

  lemma TouchNotes(st: Store, h: History, h': History)
    requires NotesOk(st, h) && h'.lost == h.lost && h'.entry == h.entry && h.touched <= h'.touched
    ensures NotesOk(st, h')
  {
    forall k, i | 0 <= i < |Log(st, k)| ensures Noted(Log(st, k)[i], h') { assert Noted(Log(st, k)[i], h); }
  }

  /** A copy in phase Cordon or later of a request that still exists: so is the request. */
  lemma LivesLate(s: State)
    requires Core(s) && s.ctl.Busy? && Lives(s.st, s.ctl)
    ensures Progress(s.ctl.nm, Cur(s.st, s.ctl.key).value)
    ensures Late(s.ctl.nm) ==> LateOn(Cur(s.st, s.ctl.key), s.ctl.nm.node)
  {
    var k := s.ctl.key;
    CopyUid(s);
    assert UidAt(s.st, k, Last(s.st, k), s.ctl.nm.uid);
    AliveProgress(Log(s.st, k), s.ctl.at, Last(s.st, k));
  }

  lemma ChangeCordon(s: State, c: Change)
    requires Core(s) && CordonInv(s) && CanChange(s, c)
    ensures CordonInv(DoChange(s, c))
  {
    hide CordonInv, CanEditPool;
    if c.SetUnschedulable? {
      TouchCordon(s, c.name, c.value);
    } else {
      ChangeKeepsFlags(s, c);
      SameFlagsCordon(s, DoChange(s, c));
    }
  }

  lemma ChangeKeepsFlags(s: State, c: Change)
    requires CanChange(s, c) && !c.SetUnschedulable?
    ensures
      var s' := DoChange(s, c);
      && SameFlags(s.nodes, s'.nodes, s.h, s'.h) && s'.st == s.st && s'.ctl == s.ctl
      && (s.h.timedOut <==> s'.h.timedOut)
  {
    hide CanEditPool, LateUids;
  }

  lemma SeenCordon(s: State, s': State)
    requires CordonInv(s) && (s'.ctl == s.ctl || s'.ctl == Resting) && s'.nodes == s.nodes && s'.h == s.h
    requires forall k :: Log(s'.st, k) == Log(s.st, k) && Seen(s.st, k) <= Seen(s'.st, k)
    ensures CordonInv(s')
  {
    hide DropsOk;
    if !s.h.timedOut {
      assert forall k :: Cur(s'.st, k) == Cur(s.st, k);
      WeakerDrops(s.st, s'.st, s.h.lost, s'.h.lost);
    }
  }

  lemma RelayCordon(s: State, r: Relay)
    requires CordonInv(s) && CanRelay(s, r)
    ensures CordonInv(DoRelay(s, r))
  {
    hide CordonInv;
    SeenCordon(s, DoRelay(s, r));
  }

  lemma TurnCordon(s: State, t: Turn)
    requires Core(s) && CordonInv(s) && CanSchedule(s, t)
    ensures CordonInv(DoSchedule(s, t))
  {
    hide Core, CordonInv, WriteScheduled, Lists, Plan, MaxOperations;
    match t
    case WriteOne(k, ok) => WriteOneCordon(s, k, ok);
    case _ => SameFlagsCordon(s, DoSchedule(s, t));
  }

  // --------------------------------------------------------- the reconciler

  /** The first read of a reconcile. */
  lemma FetchCtl(s: State, k: Key)
    requires Core(s) && SteadyInv(s) && CordonInv(s) && !s.h.timedOut && s.ctl == Resting
    ensures CtlCordon(s.st, s.nodes, s.h, CtlRead(s, k).ctl)
  {
    hide UidsOk, SchedOk, Unseen, DR.DrainsInv, CtlOk, FlagsOk, NotesOk;
    if View(s.st, k).Some? {
      var v, c := View(s.st, k).value, CtlRead(s, k).ctl;
      if UnderMaintenance(v) { FetchAlone(s, k, v); }
      if IsLate(Cur(s.st, k)) && Kept(Cur(s.st, k), s.h.lost) { FetchLives(s, k, v); }
    }
  }

  lemma FetchAlone(s: State, k: Key, v: NodeMaintenance)
    requires Exclusive(s.st, s.sched) && View(s.st, k) == Some(v) && UnderMaintenance(v)
    ensures Alone(s.st, k, v.node)
  {
    assert Claims(s.st, s.sched, k, v.node);
    forall j | j != k ensures !LateOn(Cur(s.st, j), v.node) {
      assert LateOn(Cur(s.st, j), v.node) ==> Claims(s.st, s.sched, j, v.node);
    }
  }

  lemma FetchLives(s: State, k: Key, v: NodeMaintenance)
    requires LogsOk(s.st) && Steady(s.st, s.h.lost) && DropsOk(s.st, s.h.lost) && View(s.st, k) == Some(v)
    requires IsLate(Cur(s.st, k)) && Kept(Cur(s.st, k), s.h.lost)
    ensures Cur(s.st, k).value.uid == v.uid
    ensures !v.deleting && v.initial.Some? ==> Cur(s.st, k).value.initial.Some?
  {
    var log, seen := Log(s.st, k), Seen(s.st, k);
    assert SteadyLog(log, seen, s.h.lost);
    assert Alive(log, seen, |log| - 1);
    AliveProgress(log, seen, |log| - 1);
    assert Dropped(log, seen, s.h.lost);
    assert DroppedAt(log, seen, s.h.lost, seen);
  }

  lemma FetchCordon(s: State, k: Key)
    requires Core(s) && SteadyInv(s) && CordonInv(s) && s.ctl == Resting
    ensures CordonInv(CtlRead(s, k))
  {
    hide Core, SteadyInv, FlagsOk, NotesOk, DropsOk, CtlCordon;
    if !s.h.timedOut { FetchCtl(s, k); }
  }

  /** What the store says about the flag when the copy's request still exists. */
  lemma EntryFlag(s: State)
    requires Core(s) && CordonInv(s) && !s.h.timedOut && s.ctl.Busy? && Lives(s.st, s.ctl)
    requires Late(s.ctl.nm) && Guarded(s.ctl.nm, s.h)
    ensures
      var nm, flag := s.ctl.nm, Flag(s.nodes, s.ctl.nm.node);
      && nm.uid in s.h.entry
      && (nm.initial.Some? ==> nm.initial.value == s.h.entry[nm.uid])
      && (s.h.entry[nm.uid] ==> flag)
      && (nm.deleting && nm.initial == None ==> flag == s.h.entry[nm.uid])
  {
    hide UidsOk, SchedOk, Unseen, Exclusive, DR.DrainsInv, DropsOk, CtlCordon;
    LivesLate(s);
    assert Noted(Log(s.st, s.ctl.key)[s.ctl.at], s.h);
  }

  /** Which moves lead to the two statements with an assertion about the flag. */
  predicate FlagMove(pc: PC, c: NodeMaintenance, node: Node, next: Next) {
    next.To? ==>
      && !BeforeNode(pc) && !BeforeNode(next.pc)
      && (next.pc == Cordoning(SetWaitForPods) ==>
            if pc == Cordoning(CordonNode) then c.initial != Some(false) || node.unschedulable else !c.cordon)
      && (next.pc == Clean(ForgetInitial) ==>
            pc == Clean(UncordonNode) && (c.initial != Some(false) || !node.unschedulable))
  }

  /** A write leads to neither of them. */
  predicate PlainMove(pc: PC, next: Next) {
    next.To? ==>
      && !BeforeNode(pc) && !BeforeNode(next.pc) && pc != Start(SetCordon)
      && next.pc != Cordoning(SetWaitForPods) && next.pc != Clean(ForgetInitial)
  }

  lemma CodeFlagMove(pc: PC, c: NodeMaintenance, node: Node, openshift: bool, choice: nat)
    requires PcOk(pc, c)
    ensures
      match Code(pc, c, node, openshift, choice)
      case Go(next) => FlagMove(pc, c, node, next)
      case Write(_, next) => PlainMove(pc, next)
      case TryWrite(_, next) => FlagMove(pc, c, node, next)
      case _ => true
  {
  }

  lemma GoCordon(s: State, next: Next)
    requires Core(s) && CordonInv(s) && s.ctl.Busy? && FlagMove(s.ctl.pc, s.ctl.nm, s.ctl.node, next)
    requires NextOk(next, s.ctl.nm)
    requires PcOk(s.ctl.pc, s.ctl.nm)
    ensures CordonInv(Follow(s, next))
  {
    hide Core, FlagsOk, NotesOk, DropsOk, Alone;
    if !s.h.timedOut && s.ctl.Busy? && Lives(s.st, s.ctl) && Late(s.ctl.nm) && Guarded(s.ctl.nm, s.h) { EntryFlag(s); }
  }

  /** The new version is in step with the flag, if the copy was current. */
  lemma CommitFlag(c: Ctl, flag: bool, entry: map<nat, bool>, obj: NodeMaintenance)
    requires c.Busy? && EntryOk(c.nm) && PcOk(c.pc, c.nm) && Effect(c.pc, c.nm, c.node, obj)
    requires c.pc != Start(SetCordon)
    requires Late(c.nm) && FlagOk(c.nm, flag, entry) && FlagAt(c.pc, c.nm, c.node, flag, entry)
    ensures FlagOk(obj, flag, entry)
  {
  }

  lemma StaysLate(c: Ctl, obj: NodeMaintenance)
    requires c.Busy? && PcOk(c.pc, c.nm) && Effect(c.pc, c.nm, c.node, obj) && c.pc != Start(SetCordon) && Late(obj)
    ensures Late(c.nm)
  {
  }

  lemma CommitFlags(s: State, obj: NodeMaintenance)
    requires Core(s) && SteadyInv(s) && CordonInv(s) && !s.h.timedOut && s.ctl.Busy? && Current(s)
    requires Effect(s.ctl.pc, s.ctl.nm, s.ctl.node, obj) && s.ctl.pc != Start(SetCordon)
    ensures FlagsOk(Append(s.st, s.ctl.key, Stored(obj)), s.nodes, s.h)
  {
    hide UidsOk, SchedOk, Unseen, Exclusive, DR.DrainsInv, DropsOk, NotesOk, Effect, PcOk, FlagOk, FlagAt,
         Steady;
    var c := s.ctl;
    CopyFacts(s);
    if Late(obj) && Guarded(obj, s.h) {
      EffectSame(c, obj);
      StaysLate(c, obj);
      CommitFlag(c, Flag(s.nodes, c.nm.node), s.h.entry, obj);
    }
    var st' := Append(s.st, c.key, Stored(obj));
    forall k | IsLate(Cur(st', k)) && Guarded(Cur(st', k).value, s.h)
      ensures Cur(st', k).value.node in s.nodes
      ensures FlagOk(Cur(st', k).value, Flag(s.nodes, Cur(st', k).value.node), s.h.entry)
    {
      if k != c.key { assert Cur(st', k) == Cur(s.st, k); }
    }
  }

  lemma EffectSame(c: Ctl, obj: NodeMaintenance)
    requires c.Busy? && Effect(c.pc, c.nm, c.node, obj)
    ensures obj.node == c.nm.node && obj.uid == c.nm.uid && obj.deleting == c.nm.deleting && c.pc != Top(GetNode)
  {
  }

  lemma CommitNotes(s: State, obj: NodeMaintenance)
    requires Core(s) && SteadyInv(s) && CordonInv(s) && !s.h.timedOut && s.ctl.Busy? && Current(s)
    requires Effect(s.ctl.pc, s.ctl.nm, s.ctl.node, obj) && s.ctl.pc != Start(SetCordon)
    ensures NotesOk(Append(s.st, s.ctl.key, Stored(obj)), s.h)
  {
    hide UidsOk, SchedOk, Unseen, Exclusive, DR.DrainsInv, DropsOk, Steady;
    var c := s.ctl;
    var st' := Append(s.st, c.key, Stored(obj));
    assert Noted(Cur(s.st, c.key), s.h);
    forall j, i | 0 <= i < |Log(st', j)| ensures Noted(Log(st', j)[i], s.h) {
      if i < |Log(s.st, j)| { assert Log(st', j)[i] == Log(s.st, j)[i]; }
    }
  }

  lemma ForgottenDropped(log: seq<Entry>, seen: nat, lost: set<string>, from: nat, e: Entry)
    requires Alive(log, from, |log| - 1) && from <= seen && e.Some? && e.value.initial == None
    requires forall x :: from <= x < |log| ==> log[x].value.deleting
    ensures Dropped(log + [e], seen, lost)
  {
    var log' := log + [e];
    forall i | 0 <= i < |log'| ensures DroppedAt(log', seen, lost, i) {
      if seen <= i < |log| { assert log'[i] == log[i]; }
    }
  }

  lemma EnteredDropped(log: seq<Entry>, seen: nat, lost: set<string>, e: Entry)
    requires LogOk(log) && log[|log| - 1].Some? && !Late(log[|log| - 1].value) && e.Some? && e.value.initial == None
    ensures Dropped(log + [e], seen, lost)
  {
    var log' := log + [e];
    forall i | 0 <= i < |log'| ensures DroppedAt(log', seen, lost, i) {
      if i < |log| && Alive(log', i, |log'| - 1) {
        assert forall x :: i <= x < |log| ==> log'[x] == log[x];
        assert Alive(log, i, |log| - 1);
        AliveProgress(log, i, |log| - 1);
        EntryAt(log, i);
      }
    }
  }

  lemma CommitDrops(s: State, obj: NodeMaintenance)
    requires Core(s) && CordonInv(s) && !s.h.timedOut && s.ctl.Busy? && Current(s)
    requires Effect(s.ctl.pc, s.ctl.nm, s.ctl.node, obj) && Edge(Some(s.ctl.nm), Stored(obj))
    ensures DropsOk(Append(s.st, s.ctl.key, Stored(obj)), s.h.lost)
  {
    hide UidsOk, SchedOk, Unseen, Exclusive, DR.DrainsInv, FlagsOk, NotesOk, CtlCordon, Dropped, Edge;
    var c := s.ctl;
    var log, seen := Log(s.st, c.key), Seen(s.st, c.key);
    CopyFacts(s);
    if c.pc == Clean(ForgetInitial) {
      ForgottenDropped(log, seen, s.h.lost, c.from, Stored(obj));
    } else if c.pc == Start(SetCordon) {
      EnteredDropped(log, seen, s.h.lost, Stored(obj));
    } else {
      if Late(obj) { StaysLate(c, obj); }
      AppendDropped(log, seen, s.h.lost, Stored(obj));
    }
  }

  lemma CommitCtlCordon(s: State, obj: NodeMaintenance, pc: PC)
    requires CordonInv(s) && !s.h.timedOut && s.ctl.Busy? && Current(s) && PcOk(s.ctl.pc, s.ctl.nm)
    requires Effect(s.ctl.pc, s.ctl.nm, s.ctl.node, obj) && PlainMove(s.ctl.pc, To(pc))
    requires CtlOk(s.st, s.ctl) && (UnderMaintenance(obj) ==> UnderMaintenance(s.ctl.nm))
    ensures CtlCordon(Append(s.st, s.ctl.key, Stored(obj)), s.nodes, s.h,
          s.ctl.(nm := obj, at := s.ctl.at + 1, pc := pc))
  {
    hide FlagsOk, NotesOk, DropsOk, Effect, PcOk;
    var c := s.ctl;
    var st' := Append(s.st, c.key, Stored(obj));
    EffectSame(c, obj);
    if Late(obj) { StaysLate(c, obj); }
    if UnderMaintenance(obj) {
      forall j | j != c.key ensures !LateOn(Cur(st', j), obj.node) {
        assert Cur(st', j) == Cur(s.st, j);
        assert !LateOn(Cur(s.st, j), obj.node);
      }
    }
  }

  // -------------------------------------------------- entering phase Cordon

  /** No version of a request that is not yet in phase Cordon has the annotation. */
  lemma NothingYet(s: State, k: Key, i: int)
    requires Core(s) && s.ctl.Busy? && Current(s) && !Late(s.ctl.nm)
    requires UidAt(s.st, k, i, s.ctl.nm.uid)
    ensures k == s.ctl.key && Log(s.st, k)[i].value.initial == None
  {
    CopyUid(s);
    AliveProgress(Log(s.st, k), i, Last(s.st, k));
    EntryAt(Log(s.st, k), i);
  }

  lemma EnterNotes(s: State, obj: NodeMaintenance, flag: bool)
    requires Core(s) && CordonInv(s) && !s.h.timedOut && s.ctl.Busy? && Current(s) && !Late(s.ctl.nm)
    requires obj.uid == s.ctl.nm.uid && obj.initial == None
    ensures NotesOk(Append(s.st, s.ctl.key, Stored(obj)), s.h.(entry := s.h.entry[obj.uid := flag]))
  {
    hide Core, DropsOk, FlagsOk, CtlCordon;
    var st', h' := Append(s.st, s.ctl.key, Stored(obj)), s.h.(entry := s.h.entry[obj.uid := flag]);
    forall k, i | 0 <= i < |Log(st', k)| ensures Noted(Log(st', k)[i], h') {
      if i < |Log(s.st, k)| {
        assert Log(st', k)[i] == Log(s.st, k)[i];
        assert Noted(Log(s.st, k)[i], s.h);
        if UidAt(s.st, k, i, obj.uid) { NothingYet(s, k, i); }
      }
    }
  }

  lemma EnterFlag(s: State, obj: NodeMaintenance)
    requires Core(s) && CapacityInv(s) && s.ctl.Busy? && Current(s)
    requires s.ctl.pc == Start(SetCordon) && Effect(s.ctl.pc, s.ctl.nm, s.ctl.node, obj) && obj.node !in s.h.lost
    ensures obj.node in s.nodes && FlagOk(obj, Flag(s.nodes, obj.node), AfterWrite(s, obj).entry)
  {
    hide Core, CapacityInv;
    CopyFacts(s);
    CopyCurrent(s);
    KeptExists(s, s.ctl.key);
  }

  lemma OtherEntry(s: State, obj: NodeMaintenance, k: Key)
    requires Core(s) && s.ctl.Busy? && k != s.ctl.key && Cur(s.st, k).Some? && obj.uid == s.ctl.nm.uid
    ensures
      var u := Cur(s.st, k).value.uid;
      u in s.h.entry ==> u in AfterWrite(s, obj).entry && AfterWrite(s, obj).entry[u] == s.h.entry[u]
  {
    hide Core, AfterWrite;
    OtherUid(s, k);
  }

  lemma EnterFlags(s: State, obj: NodeMaintenance)
    requires Core(s) && CapacityInv(s) && CordonInv(s) && !s.h.timedOut && s.ctl.Busy? && Current(s)
    requires s.ctl.pc == Start(SetCordon) && Effect(s.ctl.pc, s.ctl.nm, s.ctl.node, obj)
    ensures FlagsOk(Append(s.st, s.ctl.key, Stored(obj)), s.nodes, AfterWrite(s, obj))
  {
    hide Core, CapacityInv, DropsOk, NotesOk, CtlCordon, AfterWrite, Effect;
    var st', h' := Append(s.st, s.ctl.key, Stored(obj)), AfterWrite(s, obj);
    EffectSame(s.ctl, obj);
    forall k | IsLate(Cur(st', k)) && Guarded(Cur(st', k).value, h')
      ensures
        && Cur(st', k).value.node in s.nodes
        && FlagOk(Cur(st', k).value, Flag(s.nodes, Cur(st', k).value.node), h'.entry)
    {
      if k != s.ctl.key {
        assert Cur(st', k) == Cur(s.st, k);
        OtherEntry(s, obj, k);
      } else {
        EnterFlag(s, obj);
      }
    }
  }

  lemma CopyCurrent(s: State)
    requires Core(s) && s.ctl.Busy? && Current(s)
    ensures Cur(s.st, s.ctl.key) == Some(s.ctl.nm)
  {
  }

  lemma OtherUid(s: State, k: Key)
    requires Core(s) && s.ctl.Busy? && k != s.ctl.key && Cur(s.st, k).Some?
    ensures Cur(s.st, k).value.uid != s.ctl.nm.uid
  {
    CopyUid(s);
    assert UidAt(s.st, k, Last(s.st, k), Cur(s.st, k).value.uid);
  }

  lemma EnterCordon(s: State, obj: NodeMaintenance, next: Next)
    requires Core(s) && CapacityInv(s) && CordonInv(s) && s.ctl.Busy? && Current(s) && next.End?
    requires s.ctl.pc == Start(SetCordon) && Effect(s.ctl.pc, s.ctl.nm, s.ctl.node, obj)
    requires Edge(Some(s.ctl.nm), Stored(obj))
    ensures CordonInv(Follow(Commit(s, obj), next))
  {
    hide Core, CapacityInv, Edge, FlagsOk, NotesOk, DropsOk, CtlCordon, Append, Follow, Commit, Stored, Effect,
         AfterWrite;
    CommitShape(s, obj, next);
    if !s.h.timedOut {
      EnterFlags(s, obj);
      CommitDrops(s, obj);
      EnterNoted(s, obj);
      RestingCordon();
    }
  }

  lemma EnterNoted(s: State, obj: NodeMaintenance)
    requires Core(s) && CordonInv(s) && !s.h.timedOut && s.ctl.Busy? && Current(s)
    requires s.ctl.pc == Start(SetCordon) && Effect(s.ctl.pc, s.ctl.nm, s.ctl.node, obj)
    ensures NotesOk(Append(s.st, s.ctl.key, Stored(obj)), AfterWrite(s, obj))
  {
    hide Core, FlagsOk, NotesOk, DropsOk, CtlCordon, Append, Stored;
    CopyFacts(s);
    if obj.node in s.nodes { EnterNotes(s, obj, s.nodes[obj.node].unschedulable); } else { NotesUnchanged(s, obj); }
  }

  lemma NotesUnchanged(s: State, obj: NodeMaintenance)
    requires CordonInv(s) && !s.h.timedOut && s.ctl.Busy? && obj.initial == None
    ensures NotesOk(Append(s.st, s.ctl.key, Stored(obj)), s.h)
  {
    hide FlagsOk, DropsOk, CtlCordon;
    var st' := Append(s.st, s.ctl.key, Stored(obj));
    forall k, i | 0 <= i < |Log(st', k)| ensures Noted(Log(st', k)[i], s.h) {
      if i < |Log(s.st, k)| { assert Log(st', k)[i] == Log(s.st, k)[i]; }
    }
  }

  lemma CommitCordon(s: State, obj: NodeMaintenance, next: Next)
    requires Core(s) && SteadyInv(s) && CapacityInv(s) && CordonInv(s) && s.ctl.Busy? && Current(s)
    requires Effect(s.ctl.pc, s.ctl.nm, s.ctl.node, obj) && Edge(Some(s.ctl.nm), Stored(obj))
    requires PlainMove(s.ctl.pc, next)
    requires UnderMaintenance(obj) ==> UnderMaintenance(s.ctl.nm)
    ensures CordonInv(Follow(Commit(s, obj), next))
  {
    hide SteadyInv, CapacityInv, Edge, FlagsOk, NotesOk, DropsOk, CtlCordon, Effect, Append, PcOk, LogsOk,
         UidsOk, SchedOk, Unseen, Exclusive, DR.DrainsInv, CtlOk, Follow, Commit, Stored;
    if s.ctl.pc == Start(SetCordon) {
      EnterCordon(s, obj, next);
    } else {
      CommitShape(s, obj, next);
      if !s.h.timedOut {
        CopyFacts(s);
        CommitFlags(s, obj);
        CommitNotes(s, obj);
        CommitDrops(s, obj);
        if next.To? { CommitCtlCordon(s, obj, next.pc); }
      }
      LandCordon(s, Follow(Commit(s, obj), next), obj, next);
    }
  }

  lemma RestingCordon()
    ensures forall st', nodes', h' :: CtlCordon(st', nodes', h', Resting)
  {
  }

  lemma LandCordon(s: State, s': State, obj: NodeMaintenance, next: Next)
    requires s.ctl.Busy? && Landed(s, s', obj, next) && s.ctl.pc != Start(SetCordon)
    requires !s.h.timedOut ==> FlagsOk(s'.st, s.nodes, s.h) && NotesOk(s'.st, s.h) && DropsOk(s'.st, s.h.lost)
    requires !s.h.timedOut && next.To? ==> CtlCordon(s'.st, s.nodes, s.h, s'.ctl)
    ensures CordonInv(s')
  {
    hide FlagsOk, NotesOk, DropsOk, CtlCordon, AfterWrite, Append, Stored;
    RestingCordon();
    if !s.h.timedOut {
      SameRecords(s'.st, s.nodes, s.h, s'.h);
      if next.To? { CtlHistory(s'.st, s.nodes, s.h, s'.h, s'.ctl); }
    }
  }

  lemma SameRecords(st: Store, nodes: map<string, Node>, h: History, h': History)
    requires FlagsOk(st, nodes, h) && NotesOk(st, h)
    requires h'.lost == h.lost && h'.touched == h.touched && h'.entry == h.entry
    ensures FlagsOk(st, nodes, h') && NotesOk(st, h')
  {
  }

  // ------------------------------------------------------------------- flips

  /** A flip on behalf of a request leaves every request in step with the flag. */
  lemma FlipFlags(s: State, value: bool, next: Next)
    requires Core(s) && CordonInv(s) && !s.h.timedOut && s.ctl.Busy? && s.ctl.nm.node in s.nodes
    requires PcOk(s.ctl.pc, s.ctl.nm) && Marking(s.ctl.pc, s.ctl.nm, s.ctl.node, value, next)
    ensures FlagsOk(s.st, Flip(s, value).nodes, s.h)
  {
    hide Core, DropsOk;
    var c, nodes' := s.ctl, Flip(s, value).nodes;
    forall k | IsLate(Cur(s.st, k)) && Guarded(Cur(s.st, k).value, s.h)
      ensures Cur(s.st, k).value.node in nodes'
      ensures FlagOk(Cur(s.st, k).value, Flag(nodes', Cur(s.st, k).value.node), s.h.entry)
    {
      assert FlagOk(Cur(s.st, k).value, Flag(s.nodes, Cur(s.st, k).value.node), s.h.entry);
      if k == c.key {
        LivesLate(s);
        EntryFlag(s);
      } else {
        assert !LateOn(Cur(s.st, k), c.nm.node);
      }
    }
  }

  lemma FlipCtl(s: State, value: bool, next: Next)
    requires Core(s) && CordonInv(s) && !s.h.timedOut && s.ctl.Busy? && s.ctl.nm.node in s.nodes
    requires PcOk(s.ctl.pc, s.ctl.nm) && Marking(s.ctl.pc, s.ctl.nm, s.ctl.node, value, next)
    ensures CtlCordon(s.st, Flip(s, value).nodes, s.h, Flip(s, value).ctl.(pc := next.pc))
  {
    hide Core, DropsOk, NotesOk, FlagsOk, Alone;
    if Lives(s.st, s.ctl) && Guarded(s.ctl.nm, s.h) { EntryFlag(s); }
  }

  lemma FlipCordon(s: State, value: bool, next: Next)
    requires Core(s) && CordonInv(s) && s.ctl.Busy? && s.ctl.nm.node in s.nodes
    requires PcOk(s.ctl.pc, s.ctl.nm) && Marking(s.ctl.pc, s.ctl.nm, s.ctl.node, value, next)
    ensures CordonInv(Follow(Flip(s, value), next))
  {
    hide Core, DropsOk, NotesOk, FlagsOk, CtlCordon;
    if !s.h.timedOut {
      FlipFlags(s, value, next);
      FlipCtl(s, value, next);
    }
  }

  // ------------------------------------------------------------- looking about

  lemma LookUpCtl(st: Store, nodes: map<string, Node>, h: History, c: Ctl, node: Node, pc: PC)
    requires c.Busy? && CtlCordon(st, nodes, h, c)
    requires pc == Top(DropFinalizer) || (pc == Top(SetOwner) && c.nm.node in nodes && node == nodes[c.nm.node])
    ensures CtlCordon(st, nodes, h, c.(node := node, pc := pc))
  {
    hide Alone;
  }

  lemma LookUpCordon(s: State)
    requires CordonInv(s) && s.ctl.Busy?
    ensures CordonInv(LookUpNode(s))
  {
    hide FlagsOk, NotesOk, DropsOk, CtlCordon;
    if s.ctl.nm.node in s.nodes {
      if !s.h.timedOut { LookUpCtl(s.st, s.nodes, s.h, s.ctl, s.nodes[s.ctl.nm.node], Top(SetOwner)); }
    } else {
      var s1 := s.(h := s.h.(lost := s.h.lost + {s.ctl.nm.node}));
      SameFlagsCordon(s, s1);
      if !s.h.timedOut { LookUpCtl(s.st, s.nodes, s1.h, s.ctl, s.ctl.node, Top(DropFinalizer)); }
    }
  }

  lemma LookedCtlCordon(st: Store, nodes: map<string, Node>, h: History, c: Ctl, c': Ctl)
    requires c.Busy? && c'.Busy? && CtlCordon(st, nodes, h, c) && LookedCtl(c, c') && !BeforeNode(c.pc)
    requires c'.nm.node == c.nm.node && c'.nm.uid == c.nm.uid
    requires c.pc.Pause? ==> UnderMaintenance(c.nm)
    requires c'.pc.Pause? ==> !Late(c'.nm) && c'.nm.initial == None
    ensures CtlCordon(st, nodes, h, c')
  {
    hide Alone;
  }

  /** Two copies of one reconcile are versions of one request. */
  lemma SameRequest(st: Store, c: Ctl, c': Ctl)
    requires LogsOk(st) && c.Busy? && c'.Busy? && CtlOk(st, c) && CtlOk(st, c') && c'.key == c.key
    requires c'.from == c.from
    ensures SameIdentity(c.nm, c'.nm)
  {
    AliveProgress(Log(st, c.key), c.from, c.at);
    AliveProgress(Log(st, c.key), c.from, c'.at);
  }

  lemma LookedCordon(s: State, s': State)
    requires Core(s) && Core(s') && CordonInv(s) && s.ctl.Busy? && Looked(s, s') && !BeforeNode(s.ctl.pc)
    ensures CordonInv(s')
  {
    hide LogsOk, UidsOk, SchedOk, Unseen, Exclusive, DR.DrainsInv, CtlOk, FlagsOk, NotesOk, DropsOk, CtlCordon;
    if !s.h.timedOut {
      SameHistory(s, s');
      RestingCordon();
      if s'.ctl.Busy? {
        SameRequest(s.st, s.ctl, s'.ctl);
        CopyFacts(s);
        CopyFacts(s');
        CtlHistory(s.st, s.nodes, s.h, s'.h, s.ctl);
        LookedCtlCordon(s.st, s.nodes, s'.h, s.ctl, s'.ctl);
      }
    }
  }

  lemma CtlHistory(st: Store, nodes: map<string, Node>, h: History, h': History, c: Ctl)
    requires CtlCordon(st, nodes, h, c) && h'.lost == h.lost && h'.touched == h.touched && h'.entry == h.entry
    ensures CtlCordon(st, nodes, h', c)
  {
  }

  lemma SameHistory(s: State, s': State)
    requires CordonInv(s) && !s.h.timedOut && s'.st == s.st && s'.nodes == s.nodes
    requires s'.h.lost == s.h.lost && s'.h.touched == s.h.touched && s'.h.entry == s.h.entry
    ensures FlagsOk(s'.st, s'.nodes, s'.h) && NotesOk(s'.st, s'.h) && DropsOk(s'.st, s'.h.lost)
  {
    hide FlagsOk, NotesOk, DropsOk, CtlCordon;
    SameRecords(s.st, s.nodes, s.h, s'.h);
  }

  lemma LookCordon(s: State, choice: nat)
    requires Core(s) && CordonInv(s) && s.ctl.Busy? && CtlReady(s) && Looks(s.ctl.pc)
    ensures CordonInv(CtlLook(s, choice))
  {
    hide Core, CordonInv, Looked, CtlReady, PauseLook, UnpauseLook, DrainLook, LookUpNode, DrainLooks, LocalCore;
    if s.ctl.pc == Top(GetNode) {
      LookUpCordon(s);
    } else {
      LookShape(s, choice);
      LookCore(s, choice);
      LocalKeepsCore(s, CtlLook(s, choice));
      LookedCordon(s, CtlLook(s, choice));
    }
  }

  lemma FailCordon(s: State)
    requires CordonInv(s) && s.ctl.Busy?
    ensures CordonInv(CtlFail(s))
  {
    hide FlagsOk, NotesOk, DropsOk, CtlCordon, CtlFail;
    FailShape(s);
    if !s.h.timedOut {
      SameHistory(s, CtlFail(s));
      RestingCordon();
      if s.ctl.pc == Top(SetOwner) {
        CtlHistory(s.st, s.nodes, s.h, CtlFail(s).h, s.ctl);
        OwnerCtl(s.st, s.nodes, CtlFail(s).h, s.ctl);
      }
    }
  }

  lemma OwnerCtl(st: Store, nodes: map<string, Node>, h: History, c: Ctl)
    requires c.Busy? && c.pc == Top(SetOwner) && CtlCordon(st, nodes, h, c)
    ensures CtlCordon(st, nodes, h, c.(pc := Top(Dispatch)))
  {
  }

  lemma RetryCordon(s: State)
    requires CordonInv(s) && s.ctl.Busy?
    ensures CordonInv(Finish(s, Retry))
  {
    hide FlagsOk, NotesOk, DropsOk;
  }

  lemma ActCordon(s: State, choice: nat)
    requires Core(s) && SteadyInv(s) && CapacityInv(s) && CordonInv(s) && s.ctl.Busy? && CtlReady(s)
    ensures CordonInv(CtlAct(s, choice))
  {
    hide Core, SteadyInv, CapacityInv, CordonInv, Code, CtlLook, Follow, Commit, Flip, Finish, CtlReady, PcOk,
         EntryOk, Edge, Effect, NextOk, FlagMove, PlainMove, Marking;
    CopyFacts(s);
    var c := s.ctl;
    CodeOk(c.pc, c.nm, c.node, s.openshift, choice);
    CodeEffect(c.pc, c.nm, c.node, s.openshift, choice);
    CodeFlagMove(c.pc, c.nm, c.node, s.openshift, choice);
    CodeNeverSchedules(c.pc, c.nm, c.node, s.openshift, choice);
    CodeLooks(c.pc, c.nm, c.node, s.openshift, choice);
    RetryCordon(s);
    match Code(c.pc, c.nm, c.node, s.openshift, choice)
    case Go(next) => GoCordon(s, next);
    case Write(obj, next) => if Current(s) { CommitCordon(s, obj, next); }
    case TryWrite(obj, next) =>
      if Current(s) { SameEffect(c); OwnerMove(c.pc, next); CommitCordon(s, obj, next); } else { GoCordon(s, next); }
    case Mark(value, next) => if c.nm.node in s.nodes { FlipCordon(s, value, next); }
    case Look => LookCordon(s, choice);
  }

  lemma OwnerMove(pc: PC, next: Next)
    requires pc == Top(SetOwner) && next == To(Top(Dispatch))
    ensures PlainMove(pc, next)
  {
  }

  lemma EvictCordon(s: State, e: Eviction)
    requires CordonInv(s) && CanEvict(s, e)
    ensures CordonInv(DoEvict(s, e))
  {
    hide FlagsOk, NotesOk, DropsOk, CtlCordon;
  }

  lemma CordonStep(s: State, step: Step)
    requires Core(s) && SteadyInv(s) && CapacityInv(s) && CordonInv(s) && Enabled(s, step)
    ensures CordonInv(Apply(s, step))
  {
    hide Core, SteadyInv, CapacityInv, CordonInv, CanEdit, DoEdit, CanChange, DoChange, CanRelay, DoRelay,
         CanEvict, DoEvict, CanSchedule, DoSchedule, CtlRead, CtlAct, CtlFail, CtlReady, CannotFail;
    match step
    case Edits(e) => EditCordon(s, e);
    case Changes(c) => ChangeCordon(s, c);
    case Relays(r) => RelayCordon(s, r);
    case Evictions(e) => EvictCordon(s, e);
    case Scheduling(t) => TurnCordon(s, t);
    case Fetch(k) => FetchCordon(s, k);
    case Reconcile(ok, choice) => if ok { ActCordon(s, choice); } else { FailCordon(s); }
  }

  lemma InitCordon(s: State)
    requires Init(s)
    ensures CordonInv(s)
  {
  }
}
