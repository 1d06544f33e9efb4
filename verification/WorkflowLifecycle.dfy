/** From the builder to the reconciler: every workflow the builder does not block is
    one the engine's results speak of. */
module WorkflowLifecycle {
  import opened Workflow
  import opened WorkflowGraph
  import B = WorkflowBuilder
  import opened WorkflowEngine

  /** A built workflow as it is stored, before anything happened to it. */
  function Initial(w: B.WorkflowRun): System {
    System(Stored(if w.status == "approval_required" then ApprovalRequired else Proposed, "", false, w.operations),
           Idle, [], multiset{})
  }

  lemma BuiltIsFresh(w: B.WorkflowRun, q: seq<B.Plan>, id: string)
    requires B.IsWorkflowOf(w, q, id) && q != [] && w.status != "blocked"
    ensures Fresh(Initial(w))
  {
    forall p | 0 <= p < |w.operations| ensures w.operations[p].status.Pending? && w.operations[p].taskId == "" {
      assert q[p].status != "blocked";
      assert w.operations[p] == B.OperationOf(q, p);
    }
  }

  /** It waits for approval exactly if one of its plans is of medium risk or above. */
  lemma BuiltAwaitsApproval(w: B.WorkflowRun, q: seq<B.Plan>, id: string)
    requires B.IsWorkflowOf(w, q, id) && w.status != "blocked"
    ensures Initial(w).stored.status.ApprovalRequired?
            <==> B.AnyRisk(q, "medium") || B.AnyRisk(q, "high") || B.AnyRisk(q, "critical")
  {
    B.RiskOfWorkflow(w, q, id);
  }

  /** "Succeeded" is never a mistake: for every plan of a built workflow that reads so the
      run holds a saved decision that found its operation verified. */
  lemma BuiltSucceedsVerified(w: B.WorkflowRun, q: seq<B.Plan>, id: string, actions: seq<Action>, p: nat)
      returns (k: nat)
    requires B.IsWorkflowOf(w, q, id) && q != [] && w.status != "blocked" && p < |w.operations|
    requires Run(Initial(w), actions).stored.status.Succeeded?
    ensures k < |actions| && DecidesOn(Run(Initial(w), actions[..k]), actions[k], w.operations[p].id)
    ensures actions[k].finding.Verified?
  {
    BuiltIsFresh(w, q, id);
    k := SucceededMeansVerified(Initial(w), actions, p);
  }

  /** Progress: whatever has happened, a built workflow that runs, has no current
      operation and is not finished has one that is ready. */
  lemma BuiltNeverStalls(w: B.WorkflowRun, q: seq<B.Plan>, id: string, actions: seq<Action>)
    requires B.IsWorkflowOf(w, q, id) && q != [] && w.status != "blocked"
    ensures var now := Run(Initial(w), actions).stored;
            now.status.Running? && now.current == "" && !AllSucceeded(now.operations)
            ==> NextReady(now.operations, 0).Some?
  {
    BuiltIsFresh(w, q, id);
    AlwaysAReadyStep(Initial(w), actions);
  }

  /** Order: its submissions follow its dependencies, so its root is sent first, and
      "succeeded" means every operation did. */
  lemma BuiltRunsInOrder(w: B.WorkflowRun, q: seq<B.Plan>, id: string, actions: seq<Action>)
    requires B.IsWorkflowOf(w, q, id) && q != [] && w.status != "blocked"
    ensures var t := Run(Initial(w), actions);
            && Topological(GraphOf(w.operations), t.log)
            && (t.log != [] ==> t.log[0] == w.operations[0].id)
            && (t.stored.status.Succeeded? ==> AllSucceeded(t.stored.operations))
  {
    BuiltIsFresh(w, q, id);
    SubmittedInOrder(Initial(w), actions);
    var log := Run(Initial(w), actions).log;
    if log != [] {
      LoggedIsKnown(Initial(w), actions, 0);
      FirstIsRoot(w.operations, log);
    }
  }

  lemma FirstIsRoot(ops: seq<Operation>, log: seq<string>)
    requires ValidDag(ops) && B.RootedAtFirst(ops) && Topological(GraphOf(ops), log)
    requires log != [] && log[0] in GraphOf(ops)
    ensures log[0] == ops[0].id
  {
    GraphOfIs(ops);
    var p :| 0 <= p < |ops| && ops[p].id == log[0];
    FirstDependsOnNothing(GraphOf(ops), log);
  }

  /** Economy: while its marks are saved no operation of it is sent twice, whatever
      else is lost and wherever the process stops. */
  lemma BuiltSubmitsOnce(w: B.WorkflowRun, q: seq<B.Plan>, id: string, actions: seq<Action>, i: int, j: int)
    requires B.IsWorkflowOf(w, q, id) && q != [] && w.status != "blocked"
    requires forall k :: 0 <= k < |actions| && actions[k].Decide? && actions[k].precheck.Allowed? ==> actions[k].saved
    requires 0 <= i < j < |Run(Initial(w), actions).log|
    ensures Run(Initial(w), actions).log[i] != Run(Initial(w), actions).log[j]
  {
    BuiltIsFresh(w, q, id);
    SubmittedAtMostOnce(Initial(w), actions, i, j);
  }

  /** And that needs the saves: any built workflow has a run without a crash that loses
      one mark and sends one operation twice. */
  lemma BuiltMaySubmitTwice(w: B.WorkflowRun, q: seq<B.Plan>, id: string) returns (actions: seq<Action>)
    requires B.IsWorkflowOf(w, q, id) && q != [] && w.status != "blocked"
    ensures Crash !in actions && |Run(Initial(w), actions).lostMarks| == 1
    ensures |Run(Initial(w), actions).log| == 2 && Run(Initial(w), actions).log[0] == Run(Initial(w), actions).log[1]
  {
    BuiltIsFresh(w, q, id);
    var op;
    actions, op := BoundIsAttained(Initial(w), 1);
  }
}
