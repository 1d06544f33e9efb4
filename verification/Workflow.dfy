/** What the AI workflow builder, the dependency check and the reconciler share. */
module Workflow {

  datatype OperationStatus =
    Pending | Executing | Submitted | Verifying | OpSucceeded | OpSkipped | OpFailed | OpBlocked

  datatype Operation = Operation(
    id: string,
    planId: string,
    risk: string,
    dependsOn: seq<string>,
    status: OperationStatus,
    taskId: string)

  ghost predicate UniqueIds(ops: seq<Operation>) {
    && (forall i :: 0 <= i < |ops| ==> ops[i].id != "")
    && (forall i, j :: 0 <= i < j < |ops| ==> ops[i].id != ops[j].id)
  }

  predicate HasId(ops: seq<Operation>, id: string) {
    exists i :: 0 <= i < |ops| && ops[i].id == id
  }

  ghost predicate NamesKnown(ops: seq<Operation>, op: Operation) {
    forall d :: d in op.dependsOn ==> HasId(ops, d) && d != op.id
  }

  ghost predicate DependenciesKnown(ops: seq<Operation>) {
    forall i :: 0 <= i < |ops| ==> NamesKnown(ops, ops[i])
  }
}
