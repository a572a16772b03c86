/** NodeMaintenanceSchedulerReconcilerOptions: values are stored by another party at any time and
    take effect at the next round's Load, both of them together. */
module SchedulerOptions {
  import opened Api
  import opened PreScheduling

  class Options {
    var pendingMaxUnavailable: Option<IntOrString>
    var pendingMaxParallelOperations: Option<IntOrString>
    var maxUnavailable: Option<IntOrString>
    var maxParallelOperations: Option<IntOrString>

    function Loaded(): Limits
      reads this
    {
      Limits(maxUnavailable, maxParallelOperations)
    }

    function Pending(): Limits
      reads this
    {
      Limits(pendingMaxUnavailable, pendingMaxParallelOperations)
    }

    constructor ()
      ensures Loaded() == Pending() == Limits(None, Some(Number(1)))
    {
      pendingMaxUnavailable, maxUnavailable := None, None;
      pendingMaxParallelOperations, maxParallelOperations := Some(Number(1)), Some(Number(1));
    }

    method Store(maxUnavailable: Option<IntOrString>, maxParallelOperations: Option<IntOrString>)
      modifies this
      ensures Pending() == Limits(maxUnavailable, maxParallelOperations) && Loaded() == old(Loaded())
    {
      pendingMaxUnavailable := maxUnavailable;
      pendingMaxParallelOperations := maxParallelOperations;
    }

    method Load()
      modifies this
      ensures Loaded() == old(Pending()) && Pending() == old(Pending())
    {
      maxUnavailable := pendingMaxUnavailable;
      maxParallelOperations := pendingMaxParallelOperations;
    }

    /** A percentage is rounded down. */
    method GetMaxUnavailableNodes(total: nat) returns (n: Option<int>)
      ensures
        match maxUnavailable
        case None => n == Some(-1)
        case Some(Number(v)) => n == Some(v)
        case Some(Percent(p)) => n.Some? && 100 * n.value <= p * total < 100 * (n.value + 1)
        case Some(Malformed) => n == None
      ensures n == MaxUnavailable(Loaded(), total)
    {
      if maxUnavailable == None { return Some(-1); }
      n := Scaled(maxUnavailable.value, total, false);
    }

    /** A percentage is rounded up. */
    method GetMaxOperations(total: nat) returns (n: Option<int>)
      ensures
        match maxParallelOperations
        case None => n == Some(1)
        case Some(Number(v)) => n == Some(v)
        case Some(Percent(p)) => n.Some? && 100 * (n.value - 1) < p * total <= 100 * n.value
        case Some(Malformed) => n == None
      ensures n == MaxOperations(Loaded(), total)
    {
      if maxParallelOperations == None { return Some(1); }
      n := Scaled(maxParallelOperations.value, total, true);
    }
  }
}
