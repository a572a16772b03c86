/** Every log is a legal history, and the reconciler's copy is a version in it. */
module Histories {
  import opened Api
  import opened Versions
  import opened Handlers
  import opened Operator
  import opened Lifecycle

  // ------------------------------------------------------------ one history

  ghost predicate EdgeAt(log: seq<Entry>, i: int)
    requires 0 < i < |log|
  {
    Edge(log[i - 1], log[i])
  }

  ghost predicate LogOk(log: seq<Entry>) {
    && |log| > 0 && log[0] == None
    && forall i {:trigger EdgeAt(log, i)} :: 0 < i < |log| ==> EdgeAt(log, i)
  }

  /** The object exists in all versions from `i` to `j`: they belong to one object. */
  ghost predicate Alive(log: seq<Entry>, i: int, j: int) {
    0 <= i <= j < |log| && forall x :: i <= x <= j ==> log[x].Some?
  }

  function Rank(r: Reason): nat {
    match r
    case Uninitialized => 0
    case Pending => 1
    case Scheduled => 2
    case Cordon => 3
    case WaitForPodCompletion => 4
    case Draining => 5
    case _ => 6
  }

  /** What an object keeps from one version to any later one. */
  predicate Progress(x: NodeMaintenance, y: NodeMaintenance) {
    && SameIdentity(x, y)
    && Rank(x.reason) <= Rank(y.reason)
    && (x.deleting ==> y.deleting)
    && (x.poolLabel.Some? ==> y.poolLabel.Some?)
    && (x.deleting ==> y.initial == x.initial || y.initial == None)
  }

  lemma EntryAt(log: seq<Entry>, i: int)
    requires LogOk(log) && 0 <= i < |log| && log[i].Some?
    ensures i > 0 && EntryOk(log[i].value)
  {
    assert EdgeAt(log, i);
  }

  lemma {:induction false} AliveProgress(log: seq<Entry>, i: int, j: int)
    requires LogOk(log) && Alive(log, i, j)
    ensures Progress(log[i].value, log[j].value)
    decreases j - i
  {
    if i < j {
      AliveProgress(log, i, j - 1);
      assert EdgeAt(log, j);
      SuccessorProgress(log[j - 1].value, log[j].value);
    }
  }

  lemma SuccessorProgress(x: NodeMaintenance, y: NodeMaintenance)
    requires Successor(x, y)
    ensures Progress(x, y)
  {
  }

  lemma AppendLogOk(log: seq<Entry>, e: Entry)
    requires LogOk(log) && Edge(log[|log| - 1], e)
    ensures LogOk(log + [e])
  {
    var log' := log + [e];
    forall i | 0 < i < |log'| ensures EdgeAt(log', i) {
      if i < |log| {
        assert EdgeAt(log, i);
        assert log'[i - 1] == log[i - 1] && log'[i] == log[i];
      }
    }
  }

  // ------------------------------------------------------------- all of them

  ghost predicate LogsOk(st: Store) {
    forall k :: LogOk(Log(st, k))
  }

  lemma AppendLogs(st: Store, k: Key, e: Entry)
    requires LogsOk(st) && Edge(Cur(st, k), e)
    ensures LogsOk(Append(st, k, e))
  {
    AppendLogOk(Log(st, k), e);
  }

  lemma CurOk(st: Store, k: Key)
    requires LogsOk(st)
    ensures Cur(st, k).Some? ==> EntryOk(Cur(st, k).value)
    ensures View(st, k).Some? ==> EntryOk(View(st, k).value)
  {
    if Cur(st, k).Some? { EntryAt(Log(st, k), Last(st, k)); }
    if View(st, k).Some? { EntryAt(Log(st, k), Seen(st, k)); }
  }

  /** Version `i` of `k` belongs to the object with this UID. */
  ghost predicate UidAt(st: Store, k: Key, i: int, uid: nat) {
    0 <= i < |Log(st, k)| && Log(st, k)[i].Some? && Log(st, k)[i].value.uid == uid
  }

  /** A UID is given to one object of one name only. */
  ghost predicate UidsOk(st: Store, next: nat) {
    && (forall k, i, u: nat :: UidAt(st, k, i, u) ==> u < next)
    && (forall k, i, j, m, u: nat :: UidAt(st, k, i, u) && UidAt(st, j, m, u) ==> k == j)
    && (forall k, i, m, u: nat :: UidAt(st, k, i, u) && UidAt(st, k, m, u) && i <= m ==> Alive(Log(st, k), i, m))
  }

  /** A new version continues its object, or is a new object with the next UID. */
  lemma AppendUidAt(st: Store, k: Key, e: Entry, next: nat, j: Key, i: int, u: nat)
    requires Edge(Cur(st, k), e) && (Cur(st, k) == None ==> e.value.uid == next)
    ensures UidAt(Append(st, k, e), j, i, u) ==>
              || UidAt(st, j, i, u)
              || (j == k && i == |Log(st, k)| && if Cur(st, k) == None then u == next else UidAt(st, k, i - 1, u))
    ensures UidAt(st, j, i, u) ==> UidAt(Append(st, k, e), j, i, u)
  {
  }

  lemma AppendUids(st: Store, k: Key, e: Entry, next: nat, next': nat)
    requires UidsOk(st, next) && Edge(Cur(st, k), e)
    requires if Cur(st, k) == None then e.value.uid == next && next' == next + 1 else next' == next
    ensures UidsOk(Append(st, k, e), next')
  {
    var st' := Append(st, k, e);
    forall j, i, u: nat | UidAt(st', j, i, u) ensures u < next' {
      AppendUidAt(st, k, e, next, j, i, u);
    }
    forall j, i, l, m, u: nat | UidAt(st', j, i, u) && UidAt(st', l, m, u) ensures j == l {
      AppendUidAt(st, k, e, next, j, i, u);
      AppendUidAt(st, k, e, next, l, m, u);
    }
    forall j, i, m, u: nat | UidAt(st', j, i, u) && UidAt(st', j, m, u) && i <= m ensures Alive(Log(st', j), i, m) {
      AppendAlive(st, k, e, next, j, i, m, u);
    }
  }

  lemma AppendAlive(st: Store, k: Key, e: Entry, next: nat, j: Key, i: int, m: int, u: nat)
    requires UidsOk(st, next) && Edge(Cur(st, k), e) && (Cur(st, k) == None ==> e.value.uid == next)
    requires UidAt(Append(st, k, e), j, i, u) && UidAt(Append(st, k, e), j, m, u) && i <= m
    ensures Alive(Log(Append(st, k, e), j), i, m)
  {
    AppendUidAt(st, k, e, next, j, i, u);
    AppendUidAt(st, k, e, next, j, m, u);
    if j == k && m == |Log(st, k)| && i < m {
      assert UidAt(st, k, i, u);
      assert UidAt(st, k, m - 1, u);
      assert Alive(Log(st, k), i, m - 1);
    }
  }
}
