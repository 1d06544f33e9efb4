/** The stored AI state the reconciler works on, with its transitions as the loops
    and in-place updates they are, each proved against the transition system. */
module WorkflowStore {
  import opened Wrappers
  import opened Workflow
  import opened WorkflowEngine

  datatype Entry = Entry(id: string, workflow: Stored)

  ghost predicate DistinctIds(entries: seq<Entry>) {
    forall i, j :: 0 <= i < j < |entries| ==> entries[i].id != entries[j].id
  }

  /** `after` is `before` with at most the workflow `id` replaced. */
  ghost predicate OnlyWorkflow(before: seq<Entry>, after: seq<Entry>, id: string) {
    && |after| == |before|
    && forall i :: 0 <= i < |before| ==> after[i].id == before[i].id && (before[i].id != id ==> after[i] == before[i])
  }

  ghost predicate Has(entries: seq<Entry>, id: string) {
    exists i :: 0 <= i < |entries| && entries[i].id == id
  }

  ghost function Of(entries: seq<Entry>, id: string): (w: Stored)
    requires Has(entries, id)
  {
    var i :| 0 <= i < |entries| && entries[i].id == id;
    entries[i].workflow
  }

  lemma OfIs(entries: seq<Entry>, i: int)
    requires DistinctIds(entries) && 0 <= i < |entries|
    ensures Has(entries, entries[i].id) && Of(entries, entries[i].id) == entries[i].workflow
  {
  }

  /** The loop every transition runs over the operations. */
  method SetStatus(ops: seq<Operation>, id: string, status: OperationStatus) returns (r: seq<Operation>)
    ensures r == WithStatus(ops, id, status)
  {
    r := ops;
    for j := 0 to |ops|
      invariant |r| == |ops|
      invariant forall k :: 0 <= k < |ops| ==> r[k] == if k < j then WithStatus(ops, id, status)[k] else ops[k]
    {
      if r[j].id == id {
        r := r[j := r[j].(status := status)];
      }
    }
  }

  method SetTask(ops: seq<Operation>, id: string, taskId: string) returns (r: seq<Operation>)
    ensures r == WithTask(ops, id, taskId)
  {
    r := ops;
    for j := 0 to |ops|
      invariant |r| == |ops|
      invariant forall k :: 0 <= k < |ops| ==> r[k] == if k < j then WithTask(ops, id, taskId)[k] else ops[k]
    {
      if r[j].id == id {
        r := r[j := r[j].(status := Submitted, taskId := taskId)];
      }
    }
  }

  method HasPending(ops: seq<Operation>, id: string) returns (found: bool)
    ensures found <==> IsPending(ops, id)
  {
    for j := 0 to |ops|
      invariant forall k :: 0 <= k < j ==> !(ops[k].id == id && ops[k].status.Pending?)
    {
      if ops[j].id == id && ops[j].status.Pending? {
        return true;
      }
    }
    found := false;
  }

  /** aiWorkflowAllSucceeded. */
  method EverySucceeded(ops: seq<Operation>) returns (all: bool)
    ensures all <==> AllSucceeded(ops)
  {
    if |ops| == 0 {
      return false;
    }
    for j := 0 to |ops|
      invariant forall k :: 0 <= k < j ==> Finished(ops[k])
    {
      if ops[j].status != OpSucceeded && ops[j].status != OpSkipped {
        return false;
      }
    }
    all := true;
  }

  ghost predicate StatusesOf(ops: seq<Operation>, k: nat, statuses: map<string, OperationStatus>) {
    && k <= |ops|
    && (forall i :: 0 <= i < k ==> ops[i].id in statuses)
    && (forall id :: id in statuses ==> exists i :: 0 <= i < k && ops[i].id == id && ops[i].status == statuses[id])
  }

  method CollectStatuses(ops: seq<Operation>) returns (statuses: map<string, OperationStatus>)
    ensures StatusesOf(ops, |ops|, statuses)
  {
    statuses := map[];
    for i := 0 to |ops|
      invariant StatusesOf(ops, i, statuses)
    {
      ghost var before := statuses;
      statuses := statuses[ops[i].id := ops[i].status];
      forall id | id in statuses
        ensures exists j :: 0 <= j < i + 1 && ops[j].id == id && ops[j].status == statuses[id]
      {
        if id != ops[i].id {
          var j :| 0 <= j < i && ops[j].id == id && ops[j].status == before[id];
        }
      }
    }
  }

  lemma StatusSays(ops: seq<Operation>, statuses: map<string, OperationStatus>, id: string)
    requires StatusesOf(ops, |ops|, statuses) && UniqueIds(ops)
    ensures FinishedId(ops, id) <==> id in statuses && (statuses[id].OpSucceeded? || statuses[id].OpSkipped?)
  {
  }

  method IsReady(ops: seq<Operation>, i: nat, statuses: map<string, OperationStatus>) returns (ready: bool)
    requires i < |ops| && UniqueIds(ops) && StatusesOf(ops, |ops|, statuses)
    ensures ready <==> Ready(ops, i)
  {
    if !ops[i].status.Pending? {
      return false;
    }
    for d := 0 to |ops[i].dependsOn|
      invariant forall e :: 0 <= e < d ==> FinishedId(ops, ops[i].dependsOn[e])
    {
      var dependency := ops[i].dependsOn[d];
      StatusSays(ops, statuses, dependency);
      if dependency !in statuses || (statuses[dependency] != OpSucceeded && statuses[dependency] != OpSkipped) {
        return false;
      }
    }
    ready := true;
  }

  /** aiWorkflowNextReady, with its status map. */
  method FindNextReady(ops: seq<Operation>) returns (next: Option<string>)
    requires UniqueIds(ops)
    ensures next == NextReady(ops, 0)
  {
    var statuses := CollectStatuses(ops);
    var i := 0;
    while i < |ops|
      invariant 0 <= i <= |ops| && NextReady(ops, 0) == NextReady(ops, i)
    {
      var ready := IsReady(ops, i, statuses);
      if ready {
        return Some(ops[i].id);
      }
      i := i + 1;
    }
    next := None;
  }

  class AiState {
    var entries: seq<Entry>

    constructor (entries: seq<Entry>)
      ensures this.entries == entries
    {
      this.entries := entries;
    }

    ghost predicate Valid()
      reads this
    {
      DistinctIds(entries)
    }

    method Find(id: string) returns (i: int)
      requires Valid()
      ensures -1 <= i < |entries| && (i < 0 <==> !Has(entries, id))
      ensures i >= 0 ==> entries[i].id == id && Of(entries, id) == entries[i].workflow
    {
      for k := 0 to |entries|
        invariant forall j :: 0 <= j < k ==> entries[j].id != id
      {
        if entries[k].id == id {
          OfIs(entries, k);
          return k;
        }
      }
      i := -1;
    }

    /** Writes one workflow back; the save may be lost. */
    method Save(i: int, w: Stored, saved: bool)
      requires Valid() && 0 <= i < |entries|
      modifies this
      ensures Valid() && OnlyWorkflow(old(entries), entries, old(entries)[i].id) && Has(entries, old(entries)[i].id)
      ensures Of(entries, old(entries)[i].id) == if saved then w else old(entries)[i].workflow
    {
      if saved {
        entries := entries[i := Entry(entries[i].id, w)];
      }
      OfIs(entries, i);
    }

    /** markAIWorkflowSubmitting. It reports success whether or not the save arrives. */
    method MarkSubmitting(id: string, op: string, allowed: bool, saved: bool) returns (updated: bool)
      requires Valid()
      modifies this
      ensures Valid() && OnlyWorkflow(old(entries), entries, id) && (Has(entries, id) <==> Has(old(entries), id))
      ensures updated <==> Has(old(entries), id) && allowed && Markable(Of(old(entries), id), op)
      ensures Has(entries, id) ==>
                Of(entries, id) == if saved then Marks(Of(old(entries), id), op, allowed) else Of(old(entries), id)
    {
      var i := Find(id);
      if i < 0 {
        return false;
      }
      var w := entries[i].workflow;
      if w.status != Running || w.current != "" {
        return false;
      }
      var pending := HasPending(w.operations, op);
      if !pending {
        return false;
      }
      if !allowed {
        var blocked := SetStatus(w.operations, op, OpBlocked);
        Save(i, w.(status := Blocked, operations := blocked), saved);
        return false;
      }
      var marked := SetStatus(w.operations, op, Executing);
      Save(i, w.(current := op, operations := marked), saved);
      updated := true;
    }

    /** recordAIWorkflowSubmission. */
    method RecordSubmission(id: string, op: string, taskId: string, saved: bool)
      requires Valid()
      modifies this
      ensures Valid() && OnlyWorkflow(old(entries), entries, id) && (Has(entries, id) <==> Has(old(entries), id))
      ensures Has(entries, id) ==>
                Of(entries, id) == if saved then Records(Of(old(entries), id), op, taskId) else Of(old(entries), id)
    {
      var i := Find(id);
      if i >= 0 && entries[i].workflow.current == op {
        var ops := SetTask(entries[i].workflow.operations, op, taskId);
        Save(i, entries[i].workflow.(operations := ops), saved);
      }
    }

    /** verifyAIWorkflowOperation. */
    method VerifyOperation(id: string, op: string, saved: bool) returns (updated: bool)
      requires Valid()
      modifies this
      ensures Valid() && OnlyWorkflow(old(entries), entries, id) && (Has(entries, id) <==> Has(old(entries), id))
      ensures updated <==> Has(old(entries), id) && Of(old(entries), id).current == op
      ensures Has(entries, id) ==>
                Of(entries, id) == if saved then Verifies(Of(old(entries), id), op) else Of(old(entries), id)
    {
      updated := false;
      var i := Find(id);
      if i >= 0 && entries[i].workflow.current == op {
        var ops := SetStatus(entries[i].workflow.operations, op, OpSucceeded);
        Save(i, entries[i].workflow.(current := "", operations := ops), saved);
        updated := true;
      }
    }

    /** failAIWorkflowOperation. */
    method FailOperation(id: string, op: string, saved: bool)
      requires Valid()
      modifies this
      ensures Valid() && OnlyWorkflow(old(entries), entries, id) && (Has(entries, id) <==> Has(old(entries), id))
      ensures Has(entries, id) ==>
                Of(entries, id) == if saved then Fails(Of(old(entries), id), op) else Of(old(entries), id)
    {
      var i := Find(id);
      if i >= 0 {
        var ops := SetStatus(entries[i].workflow.operations, op, OpFailed);
        Save(i, entries[i].workflow.(status := Failed, current := "", operations := ops), saved);
      }
    }

    /** completeAIWorkflow. */
    method Complete(id: string, saved: bool)
      requires Valid()
      modifies this
      ensures Valid() && OnlyWorkflow(old(entries), entries, id) && (Has(entries, id) <==> Has(old(entries), id))
      ensures Has(entries, id) ==>
                Of(entries, id) == if saved then Completes(Of(old(entries), id)) else Of(old(entries), id)
    {
      var i := Find(id);
      if i >= 0 {
        var all := EverySucceeded(entries[i].workflow.operations);
        if all {
          Save(i, entries[i].workflow.(status := Succeeded, current := ""), saved);
        }
      }
    }

    /** PauseWorkflow: refused unless the workflow runs; a failed save is reported. */
    method Pause(id: string, saved: bool) returns (ok: bool)
      requires Valid()
      modifies this
      ensures Valid() && OnlyWorkflow(old(entries), entries, id) && (Has(entries, id) <==> Has(old(entries), id))
      ensures ok <==> saved && Has(old(entries), id) && Of(old(entries), id).status.Running?
      ensures Has(entries, id) ==>
                Of(entries, id) == if ok then Of(old(entries), id).(status := Paused) else Of(old(entries), id)
    {
      ok := false;
      var i := Find(id);
      if i >= 0 && entries[i].workflow.status == Running {
        Save(i, entries[i].workflow.(status := Paused), saved);
        ok := saved;
      }
    }

    method FindTaskless(ops: seq<Operation>, op: string) returns (found: bool)
      requires UniqueIds(ops)
      ensures found <==> HasTaskless(ops, op)
    {
      for j := 0 to |ops|
        invariant forall k :: 0 <= k < j ==> ops[k].id != op
      {
        if ops[j].id == op {
          return ops[j].taskId == "";
        }
      }
      found := false;
    }

    /** ResumeWorkflow: refused where an interrupted workflow has a current operation
        that may or may not have been sent. */
    method Resume(id: string, saved: bool) returns (ok: bool)
      requires Valid() && (Has(entries, id) ==> UniqueIds(Of(entries, id).operations))
      modifies this
      ensures Valid() && OnlyWorkflow(old(entries), entries, id) && (Has(entries, id) <==> Has(old(entries), id))
      ensures ok <==> saved && Has(old(entries), id) && MayResume(Of(old(entries), id))
      ensures Has(entries, id) ==>
                Of(entries, id) == if ok then Of(old(entries), id).(status := Running) else Of(old(entries), id)
    {
      var i := Find(id);
      if i < 0 || (entries[i].workflow.status != Paused && entries[i].workflow.status != Interrupted) {
        return false;
      }
      var w := entries[i].workflow;
      if w.status == Interrupted && w.current != "" {
        var taskless := FindTaskless(w.operations, w.current);
        if taskless {
          return false;
        }
      }
      Save(i, w.(status := Running), saved);
      ok := saved;
    }
  }
}
