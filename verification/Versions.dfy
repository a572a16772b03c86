/** The API server's storage of requests and the operator's informer cache.

    Every name has a log of all the versions it ever had, None where no object existed; the
    position in the log plays the part of resourceVersion. The cache holds, for every name, a
    position in that log that only moves forward. */
module Versions {
  import opened Api

  type Entry = Option<NodeMaintenance>

  datatype Store = Store(logs: map<Key, seq<Entry>>, seen: map<Key, nat>)

  function Log(st: Store, k: Key): (l: seq<Entry>)
    ensures |l| > 0
  {
    if k in st.logs && |st.logs[k]| > 0 then st.logs[k] else [None]
  }

  function Last(st: Store, k: Key): nat { |Log(st, k)| - 1 }

  function Seen(st: Store, k: Key): (i: nat)
    ensures i < |Log(st, k)|
  {
    if k in st.seen && st.seen[k] < |Log(st, k)| then st.seen[k] else 0
  }

  /** The object as the API server holds it. */
  function Cur(st: Store, k: Key): Entry { Log(st, k)[Last(st, k)] }

  /** The object as the cache shows it. */
  function View(st: Store, k: Key): Entry { Log(st, k)[Seen(st, k)] }

  /** A write that passed the version check. */
  function Append(st: Store, k: Key, e: Entry): (st': Store)
    ensures Log(st', k) == Log(st, k) + [e]
    ensures Cur(st', k) == e
    ensures forall j :: j != k ==> Log(st', j) == Log(st, j)
    ensures forall j :: Seen(st', j) == Seen(st, j)
  {
    Store(st.logs[k := Log(st, k) + [e]], st.seen[k := Seen(st, k)])
  }

  /** The cache receives the next version of one object. */
  function Advance(st: Store, k: Key): (st': Store)
    requires Seen(st, k) < Last(st, k)
    ensures forall j :: Log(st', j) == Log(st, j)
    ensures Seen(st', k) == Seen(st, k) + 1
    ensures forall j :: j != k ==> Seen(st', j) == Seen(st, j)
  {
    st.(seen := st.seen[k := Seen(st, k) + 1])
  }

  /** A new process lists everything before it starts. */
  function CatchUp(st: Store): (st': Store)
    ensures forall j :: Log(st', j) == Log(st, j)
    ensures forall j :: Seen(st', j) == Last(st, j)
  {
    st.(seen := map k | k in st.logs :: Last(st, k))
  }
}
