/** The objects of the dependence graph: the fields of DependableObject and the operations that touch one
    object, or one edge, at a time. */
module DependableObjects {

  /** DOSubmit, DOWait and CommutationDO. */
  datatype Kind = Task | Wait | Commutation

  /** A dependence target; whether two targets overlap is decided by the dependency plugin. */
  type Target = nat

  class DependableObject {
    const kind: Kind
    const readTargets: seq<Target>
    const writtenTargets: seq<Target>
    var numPredecessors: nat
    var references: nat
    var predecessors: set<DependableObject>
    var successors: set<DependableObject>
    var submitted: bool
    var needsSubmission: bool

    constructor (kind: Kind, readTargets: seq<Target>, writtenTargets: seq<Target>)
      ensures this.kind == kind && this.readTargets == readTargets && this.writtenTargets == writtenTargets
      ensures numPredecessors == 0 && references == 1 && predecessors == {} && successors == {}
      ensures !submitted && !needsSubmission
    {
      this.kind := kind;
      this.readTargets, this.writtenTargets := readTargets, writtenTargets;
      numPredecessors, references := 0, 1;
      predecessors, successors := {}, {};
      submitted, needsSubmission := false, false;
    }

    method IncreasePredecessors() returns (before: nat)
      modifies `numPredecessors
      ensures before == old(numPredecessors) && numPredecessors == before + 1
    {
      before := numPredecessors;
      numPredecessors := numPredecessors + 1;
    }

    method AddPredecessor(depObj: DependableObject) returns (inserted: bool)
      modifies `predecessors
      ensures inserted == (depObj != this && depObj !in old(predecessors))
      ensures predecessors == if depObj == this then old(predecessors) else old(predecessors) + {depObj}
    {
      if this == depObj { return false; }
      inserted := depObj !in predecessors;
      predecessors := predecessors + {depObj};
    }

    /** Both ends of the edge record it; true exactly when the edge is new. */
    method AddSuccessor(depObj: DependableObject, lists: bool) returns (inserted: bool)
      modifies `successors, depObj`predecessors
      ensures inserted == (depObj != this && depObj !in old(successors))
      ensures depObj == this ==> successors == old(successors) && predecessors == old(predecessors)
      ensures depObj != this ==> successors == old(successors) + {depObj}
      ensures depObj != this ==>
        depObj.predecessors == if lists then old(depObj.predecessors) + {this} else old(depObj.predecessors)
    {
      if this == depObj { return false; }
      if lists { var _ := depObj.AddPredecessor(this); }
      inserted := depObj !in successors;
      successors := successors + {depObj};
    }

    /** The decrement of decreasePredecessors and the upkeep of the predecessor list, under the lock. */
    method DecreaseInLock(finishedPred: DependableObject?, lists: bool) returns (numPred: nat)
      modifies `numPredecessors, `predecessors
      ensures numPred == numPredecessors == if old(numPredecessors) == 0 then 0xFFFF_FFFF else old(numPredecessors) - 1
      ensures predecessors ==
        if !lists then old(predecessors)
        else if numPred == 0 then {}
        else if finishedPred == null then old(predecessors) else old(predecessors) - {finishedPred}
    {
      numPredecessors := if numPredecessors == 0 then 0xFFFF_FFFF else numPredecessors - 1;
      numPred := numPredecessors;
      if lists {
        if finishedPred != null && predecessors != {} {
          predecessors := predecessors - {finishedPred};
        }
        if numPred == 0 && predecessors != {} {
          predecessors := {};
        }
      }
    }

    /** DOSubmit::canBeBatchReleased, apart from the scheduling policy's own veto. */
    predicate CanBeBatchReleased()
      reads this
    {
      kind.Task? && numPredecessors == 1 && needsSubmission
    }

    method Submitted()
      modifies `submitted, `needsSubmission
      ensures submitted && needsSubmission
    {
      submitted := true;
      needsSubmission := true;
    }

    method DisableSubmission()
      modifies `submitted, `needsSubmission
      ensures !submitted && !needsSubmission
    {
      needsSubmission := false;
      submitted := false;
    }
  }

  type Id = DependableObject
}
