/** Additional requestors of a terminal request: its clean-up starts only from a version without
    any, but the two calls that are not version checked go on if one joins later. */
module Requestors {
  import opened Api
  import opened Versions
  import opened Handlers
  import opened Operator
  import opened Lifecycle
  import opened Histories
  import opened Rounds
  import opened Control
  import opened CoreInvariant
  import opened Effects
  import opened Shapes
  import opened Steadiness
  import opened CordonRestore
  import opened Drainage
  import opened Moves
  import opened PreScheduling
  import DR = DrainManagers

  /** Somebody else still wants the maintenance. */
  predicate Wanted(e: Entry) { e.Some? && e.value.additional != {} }

  predicate Unwanted(e: Entry) { e.Some? && e.value.additional == {} }

  /** Version `v` is the one with which a requestor joined, and the list was never empty again. */
  ghost predicate JoinedAt(log: seq<Entry>, at: int, v: int, j: int) {
    0 <= at < v <= j < |log| && Unwanted(log[v - 1]) && forall w :: v <= w <= j ==> Wanted(log[w])
  }

  /** A requestor joined after version `at` and did not leave until version `j`. */
  ghost predicate JoinedSince(log: seq<Entry>, at: int, j: int) {
    exists v :: JoinedAt(log, at, v, j)
  }

  lemma {:induction false} WantedOrNot(log: seq<Entry>, at: int, j: int)
    requires Alive(log, at, j) && Unwanted(log[at])
    ensures Wanted(log[j]) <==> JoinedSince(log, at, j)
    decreases j - at
  {
    if at < j && Wanted(log[j]) {
      WantedOrNot(log, at, j - 1);
      if Wanted(log[j - 1]) {
        var v :| JoinedAt(log, at, v, j - 1);
        assert JoinedAt(log, at, v, j);
      } else {
        assert JoinedAt(log, at, j, j);
      }
    }
  }

  // --------------------------------------------------------- who may join

  lemma EditJoins(s: State, e: Edit, k: Key)
    requires CanEdit(s, e) && Unwanted(Cur(s.st, k)) && Wanted(Cur(DoEdit(s, e).st, k))
    ensures e.EditSpec? && e.k == k
  {
  }

  lemma ActJoins(s: State, choice: nat, k: Key)
    requires Core(s) && s.ctl.Busy? && CtlReady(s) && Unwanted(Cur(s.st, k))
    ensures !Wanted(Cur(CtlAct(s, choice).st, k))
  {
    hide Core, CtlAct, CtlReady, Edge, Gentle;
    OwnOrSame(s, choice);
    if !SameLogs(s.st, CtlAct(s, choice).st) {
      var obj :| OwnMove(s, CtlAct(s, choice).st, obj);
    }
  }

  lemma TurnJoins(s: State, t: Turn, k: Key)
    requires CanSchedule(s, t) && Unwanted(Cur(s.st, k))
    ensures !Wanted(Cur(DoSchedule(s, t).st, k))
  {
    hide Lists, Append, Plan, MaxOperations, Keys, StartRound;
    match t
    case List(nodes, reqs, limits) => StartStore(s, nodes, reqs, limits);
    case _ =>
  }

  lemma StartStore(s: State, nodes: seq<Node>, reqs: seq<Request>, limits: Limits)
    ensures StartRound(s, nodes, reqs, limits).st == s.st
  {
    hide Plan, MaxOperations, Keys;
  }

  lemma SameWanted(st: Store, st': Store, k: Key)
    requires SameLogs(st, st')
    ensures Cur(st', k) == Cur(st, k)
  {
  }

  /** Only a user's edit of the spec makes a requestor join. */
  lemma OnlyEditsJoin(s: State, step: Step, k: Key)
    requires Core(s) && Enabled(s, step) && Unwanted(Cur(s.st, k)) && Wanted(Cur(Apply(s, step).st, k))
    ensures step.Edits? && step.edit.EditSpec? && step.edit.k == k
  {
    hide Core, CanEdit, DoEdit, CanSchedule, DoSchedule, CtlAct, CtlFail, CtlReady, CannotFail, SameLogs,
         CanChange, DoChange, CanRelay, DoRelay, CanEvict, DoEvict, CtlRead;
    if step.Edits? {
      EditJoins(s, step.edit, k);
    } else if step.Scheduling? {
      TurnJoins(s, step.turn, k);
    } else if step.Reconcile? && step.ok {
      ActJoins(s, step.choice, k);
    } else {
      QuietMoves(s, step);
      SameWanted(s.st, Apply(s, step).st, k);
    }
  }

  // ------------------------------------------------------------ the clean-up

  /** The statement unpauses the pool. */
  predicate Unpauses(s: State)
    requires s.ctl.Busy?
  {
    s.ctl.pc == Clean(PatchUnpause) && Marked(s, s.ctl.node.pool)
  }

  ghost predicate MadeSchedulable(s: State, s': State) {
    exists n :: Flag(s.nodes, n) && !Flag(s'.nodes, n)
  }

  ghost predicate Unpaused(s: State, s': State) {
    exists p :: Marked(s, p) && !Marked(s', p)
  }

  /** The step does something of the clean-up. */
  ghost predicate CleansUp(s: State, s': State) {
    MadeSchedulable(s, s') || Unpaused(s, s') || s'.dr != s.dr || !SameLogs(s.st, s'.st)
  }

  /** A clean-up statement of a terminal request that still exists: so is its copy, which names no
      additional requestor. */
  lemma TerminalCopy(s: State)
    requires Core(s) && s.ctl.Busy? && s.ctl.pc.Clean? && Lives(s.st, s.ctl) && Terminal(Cur(s.st, s.ctl.key).value)
    ensures Terminal(s.ctl.nm) && s.ctl.nm.additional == {}
    ensures Alive(Log(s.st, s.ctl.key), s.ctl.at, Last(s.st, s.ctl.key))
    ensures Unwanted(Log(s.st, s.ctl.key)[s.ctl.at])
  {
    hide SchedOk, Unseen, Exclusive, DR.DrainsInv;
    var c := s.ctl;
    CopyFacts(s);
    CopyUid(s);
    assert UidAt(s.st, c.key, Last(s.st, c.key), c.nm.uid);
    AliveFrozen(Log(s.st, c.key), c.at, Last(s.st, c.key));
  }

  lemma UncordonMoves(s: State, choice: nat)
    requires s.ctl.Busy? && s.ctl.pc == Clean(UncordonNode)
    ensures MadeSchedulable(s, CtlAct(s, choice)) <==> Uncordons(s)
    ensures CtlAct(s, choice).st == s.st && CtlAct(s, choice).pools == s.pools && CtlAct(s, choice).dr == s.dr
  {
    if Uncordons(s) { assert Flag(s.nodes, s.ctl.nm.node) && !Flag(CtlAct(s, choice).nodes, s.ctl.nm.node); }
  }

  lemma PatchMoves(s: State, choice: nat)
    requires s.ctl.Busy? && s.ctl.pc == Clean(PatchUnpause)
    ensures Unpaused(s, CtlAct(s, choice)) <==> Unpauses(s)
    ensures
      var s' := CtlAct(s, choice);
      s'.st == s.st && s'.nodes == s.nodes && s'.dr == s.dr
  {
    if Unpauses(s) { assert Marked(s, s.ctl.node.pool) && !Marked(CtlAct(s, choice), s.ctl.node.pool); }
  }

  lemma ForgetMoves(s: State, choice: nat)
    requires s.ctl.Busy? && (s.ctl.pc == Clean(ForgetInitial) || s.ctl.pc == Clean(RemoveFinalizer)) && !Current(s)
    ensures
      var s' := CtlAct(s, choice);
      s'.st == s.st && s'.nodes == s.nodes && s'.dr == s.dr && s'.pools == s.pools
  {
    hide Commit;
  }

  lemma ReadMoves(s: State, choice: nat)
    requires s.ctl.Busy? && s.ctl.pc.Clean? && CtlReady(s)
    requires s.ctl.pc.clean in {FindMarked, ReadMark, CheckUse, AwaitUnmark}
    ensures
      var s' := CtlAct(s, choice);
      s'.st == s.st && s'.nodes == s.nodes && s'.dr == s.dr && s'.pools == s.pools
  {
    hide UsedIn;
  }

  lemma NothingCleaned(s: State, s': State)
    requires s'.st == s.st && s'.dr == s.dr
    ensures s'.nodes == s.nodes ==> !MadeSchedulable(s, s')
    ensures s'.pools == s.pools ==> !Unpaused(s, s')
    ensures SameLogs(s.st, s'.st)
  {
  }

  /** What the clean-up of a terminal request does when the stored request is wanted. */
  lemma WantedCleanUp(s: State, choice: nat)
    requires Core(s) && s.ctl.Busy? && s.ctl.pc.Clean? && CtlReady(s) && Lives(s.st, s.ctl)
    requires Terminal(Cur(s.st, s.ctl.key).value) && Wanted(Cur(s.st, s.ctl.key))
    ensures CleansUp(s, CtlAct(s, choice)) <==> Uncordons(s) || Unpauses(s)
  {
    hide Core, CtlAct, MadeSchedulable, Unpaused, SameLogs, Flag, CtlReady;
    TerminalCopy(s);
    var s' := CtlAct(s, choice);
    match s.ctl.pc.clean
    case UncordonNode => UncordonMoves(s, choice); NothingCleaned(s, s');
    case PatchUnpause => PatchMoves(s, choice); NothingCleaned(s, s');
    case ForgetInitial =>
      if Current(s) { CopyCurrent(s); }
      ForgetMoves(s, choice); NothingCleaned(s, s');
    case RemoveFinalizer =>
      if Current(s) { CopyCurrent(s); }
      ForgetMoves(s, choice); NothingCleaned(s, s');
    case _ => ReadMoves(s, choice); NothingCleaned(s, s');
  }

  // ------------------------------------------------------ version-checked writes

  /** What a wanted request keeps. */
  predicate Stays(x: NodeMaintenance, e: Entry) {
    e.Some? && e.value.finalizer && e.value.initial == x.initial && e.value.uid == x.uid
  }

  lemma OwnWriteStays(s: State, obj: NodeMaintenance)
    requires SteadyInv(s) && s.ctl.Busy? && PcOk(s.ctl.pc, s.ctl.nm) && Effect(s.ctl.pc, s.ctl.nm, s.ctl.node, obj)
    requires s.ctl.nm.node !in s.h.lost && Terminal(s.ctl.nm) && s.ctl.nm.additional != {} && s.ctl.nm.finalizer
    ensures Stays(s.ctl.nm, Stored(obj))
  {
    hide Steady;
  }

  lemma ForeignWriteStays(x: NodeMaintenance, e: Entry)
    requires x.finalizer && Edge(Some(x), e) && Gentle(Some(x), e)
    ensures Stays(x, e)
  {
  }

  /** No write, of anybody, takes finalizer or annotation from a wanted terminal request. */
  lemma WritesKeepWanted(s: State, step: Step, k: Key)
    requires Core(s) && SteadyInv(s) && Enabled(s, step)
    requires Kept(Cur(s.st, k), s.h.lost) && Terminal(Cur(s.st, k).value) && Wanted(Cur(s.st, k))
    ensures Stays(Cur(s.st, k).value, Cur(Apply(s, step).st, k))
  {
    hide LogsOk, UidsOk, SchedOk, CtlOk, DR.DrainsInv, Enabled, Apply, Effect, Edge, Gentle, PcOk, Stays, Stored;
    StoreMoves(s, step);
    assert SteadyLog(Log(s.st, k), Seen(s.st, k), s.h.lost);
    assert HeldAt(Log(s.st, k), s.h.lost, Last(s.st, k));
    var x, st' := Cur(s.st, k).value, Apply(s, step).st;
    if SameLogs(s.st, st') {
      ItStays(x);
    } else if exists j, e :: ForeignMove(s.st, st', j, e) {
      var j, e :| ForeignMove(s.st, st', j, e);
      if j == k { ForeignWriteStays(x, e); } else { ItStays(x); }
    } else {
      var obj :| OwnMove(s, st', obj);
      CopyFacts(s);
      if s.ctl.key == k { OwnWriteStays(s, obj); } else { ItStays(x); }
    }
  }

  lemma ItStays(x: NodeMaintenance)
    requires x.finalizer
    ensures Stays(x, Some(x))
  {
  }

  // ------------------------------------------------------------- the drains

  /** What a drain removal finds. */
  lemma RemovalMeetsDraining(s: State, choice: nat)
    requires Core(s) && DrainageInv(s) && s.ctl.Busy? && s.ctl.pc.Drain? && s.ctl.pc.drain.RemoveDrain? && CtlReady(s)
    requires s.ctl.nm.node !in s.h.lost && CtlAct(s, choice).dr != s.dr
    ensures DrainingAs(Cur(s.st, s.ctl.key), s.ctl.nm.uid, s.ctl.nm.node)
  {
    hide LogsOk, UidsOk, SchedOk, CtlOk, EarnedLogs, Issued, Earned, AfterRemoval;
    RemovalKnown(s, choice);
    DrainOfCopy(s);
  }

  lemma RemovalKnown(s: State, choice: nat)
    requires DR.DrainsInv(s.dr) && OpOwned(s.dr, s.ctl)
    requires s.ctl.Busy? && s.ctl.pc.Drain? && s.ctl.pc.drain.RemoveDrain? && CtlReady(s)
    requires CtlAct(s, choice).dr != s.dr
    ensures s.ctl.nm.uid in s.dr.byUid
  {
    hide AfterRemoval;
  }
}
