/** HandleCordon and HandleUnCordon as the handler runs them, without interference: ordered API
    calls on the request and the node, any of which may fail. */
module CordonHandler {
  import opened Api
  import opened Handlers

  /** The two objects at the API server. */
  class Cluster {
    var nm: NodeMaintenance
    var node: Node

    constructor (nm: NodeMaintenance, node: Node)
      ensures this.nm == nm && this.node == node
    {
      this.nm, this.node := nm, node;
    }

    method Update(nm: NodeMaintenance, works: bool) returns (ok: bool)
      modifies this`nm
      ensures ok == works && this.nm == if works then nm else old(this.nm)
    {
      if works { this.nm := nm; }
      ok := works;
    }

    method RunCordonOrUncordon(desired: bool, works: bool) returns (ok: bool)
      modifies this`node
      ensures ok == works && node == if works then old(node).(unschedulable := desired) else old(node)
    {
      if works { node := node.(unschedulable := desired); }
      ok := works;
    }

    method HandleCordon(updateWorks: bool, cordonWorks: bool) returns (ok: bool)
      modifies this
      ensures forall entry :: Remembers(old(nm), old(node), entry) ==>
                Remembers(nm, node, entry) && (ok ==> nm.initial == Some(entry) && node.unschedulable)
      ensures nm == old(nm).(initial := nm.initial) && node == old(node).(unschedulable := node.unschedulable)
      ensures updateWorks && cordonWorks ==> ok
      ensures
        Attempt(nm, node, if ok then Some(To(Cordoning(SetWaitForPods))) else None) ==
        Cordons(old(nm), old(node), updateWorks, cordonWorks)
    {
      ok := true;
      if nm.initial == None {
        ok := Update(nm.(initial := Some(node.unschedulable)), updateWorks);
        if !ok { return; }
      }
      if nm.initial == Some(false) && !node.unschedulable {
        ok := RunCordonOrUncordon(true, cordonWorks);
      }
    }

    method HandleUnCordon(openshift: bool, updateWorks: bool, cordonWorks: bool) returns (ok: bool)
      modifies this
      ensures forall entry :: Remembers(old(nm), old(node), entry) ==>
                Remembers(nm, node, entry) && (ok ==> nm.initial == None && node.unschedulable == entry)
      ensures nm == old(nm).(initial := nm.initial) && node == old(node).(unschedulable := node.unschedulable)
      ensures updateWorks && cordonWorks ==> ok
      ensures
        Attempt(nm, node, if ok then Some(Unpause(openshift)) else None) ==
        Uncordons(old(nm), old(node), openshift, updateWorks, cordonWorks)
    {
      hide Uncordons;
      UncordonsInOrder(nm, node, openshift, updateWorks, cordonWorks);
      ok := true;
      if nm.initial == Some(false) && node.unschedulable {
        ok := RunCordonOrUncordon(false, cordonWorks);
        if !ok { return; }
      }
      if nm.initial.Some? { ok := Update(nm.(initial := None), updateWorks); }
    }
  }

  // ------------------------------------------------ the statements in one go

  /** Request and node after statements of the reconciler's program, and where it goes on, if no
      call failed. */
  datatype Attempt = Attempt(nm: NodeMaintenance, node: Node, next: Option<Next>)

  /** One statement of the program without interference. */
  function Statement(pc: PC, nm: NodeMaintenance, node: Node, openshift: bool, updateWorks: bool,
                     cordonWorks: bool): Attempt
  {
    match Code(pc, nm, node, openshift, 0)
    case Go(next) => Attempt(nm, node, Some(next))
    case Write(obj, next) => if updateWorks then Attempt(obj, node, Some(next)) else Attempt(nm, node, None)
    case Mark(value, next) =>
      if cordonWorks then Attempt(nm, node.(unschedulable := value), Some(next)) else Attempt(nm, node, None)
    case _ => Attempt(nm, node, None)
  }

  /** The two statements of the cordon, which the step system takes one by one. */
  function Cordons(nm: NodeMaintenance, node: Node, updateWorks: bool, cordonWorks: bool): Attempt {
    var a := Statement(Cordoning(NoteInitial), nm, node, true, updateWorks, cordonWorks);
    if a.next == Some(To(Cordoning(CordonNode))) then
      Statement(Cordoning(CordonNode), a.nm, a.node, true, updateWorks, cordonWorks)
    else a
  }

  /** The two statements of the uncordon. */
  function Uncordons(nm: NodeMaintenance, node: Node, openshift: bool, updateWorks: bool, cordonWorks: bool): Attempt {
    var a := Statement(Clean(UncordonNode), nm, node, openshift, updateWorks, cordonWorks);
    if a.next == Some(To(Clean(ForgetInitial))) then
      Statement(Clean(ForgetInitial), a.nm, a.node, openshift, updateWorks, cordonWorks)
    else a
  }

  /** First the flag, then the annotation. */
  lemma UncordonsInOrder(nm: NodeMaintenance, node: Node, openshift: bool, updateWorks: bool, cordonWorks: bool)
    ensures
      var flips, notes := nm.initial == Some(false) && node.unschedulable, nm.initial.Some?;
      var node' := if flips then node.(unschedulable := false) else node;
      Uncordons(nm, node, openshift, updateWorks, cordonWorks) ==
        if flips && !cordonWorks then Attempt(nm, node, None)
        else if notes && !updateWorks then Attempt(nm, node', None)
        else Attempt(nm.(initial := None), node', Some(Unpause(openshift)))
  {
  }

  /** Request and node together still tell the flag's value on entering phase Cordon: before and
      after the cordon it is the flag, in between the annotation, and a flag that was set stays so. */
  predicate Remembers(nm: NodeMaintenance, node: Node, entry: bool) {
    match nm.initial
    case None => node.unschedulable == entry
    case Some(noted) => noted == entry && (entry ==> node.unschedulable)
  }
}
