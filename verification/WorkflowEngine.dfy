/** The reconciler of AI workflows as a transition system: it takes a snapshot,
    decides, and commits later, while approval, pause, resume, reject and crashes
    interleave and any save may be lost. */
module WorkflowEngine {
  import opened Wrappers
  import opened Workflow
  import opened WorkflowGraph

  datatype Status =
    Proposed | ApprovalRequired | Running | Paused | Interrupted | Failed | Blocked | Succeeded | Rejected

  datatype Stored = Stored(status: Status, current: string, hasParent: bool, operations: seq<Operation>)

  datatype Outcome = ActionError | NoTaskId | TaskStarted(taskId: string)

  /** Where the reconciling worker stands; a restarted process has none. */
  datatype Worker = Idle | Deciding(snapshot: Stored) | Marked(op: string) | Executed(op: string, outcome: Outcome)

  datatype System = System(
    stored: Stored,
    worker: Worker,
    log: seq<string>,                 // operations in the order they were sent out
    lostMarks: multiset<string>)      // "submitting" marks whose save failed unnoticed

  /** What the task centre and the monitoring context say of the current operation. */
  datatype Finding =
    TaskUnknown | TaskUnfinished | TaskFailed | ContextUnreadable | PlanMissing | Unverified(late: bool) | Verified

  /** What the checks before a submission say of the next one. */
  datatype Precheck = PlanGone | ContextLost | Unsafe | PolicyRevoked | Allowed

  datatype Action =
    | Approve
    | ApproveBlocked(op: string)
    | Reject
    | Pause
    | Resume
    | Crash
    | Load
    | Decide(parentCreated: bool, finding: Finding, precheck: Precheck, saved: bool)
    | Execute(outcome: Outcome)
    | Settle(saved: bool)

  // --- what each transition writes ------------------------------------------------------------

  function WithStatus(ops: seq<Operation>, id: string, status: OperationStatus): (r: seq<Operation>)
    ensures |r| == |ops|
    ensures forall i :: 0 <= i < |ops| ==> r[i] == if ops[i].id == id then ops[i].(status := status) else ops[i]
  {
    seq(|ops|, i requires 0 <= i < |ops| => if ops[i].id == id then ops[i].(status := status) else ops[i])
  }

  function WithTask(ops: seq<Operation>, id: string, taskId: string): (r: seq<Operation>)
    ensures |r| == |ops|
    ensures forall i :: 0 <= i < |ops| ==>
                          r[i] == if ops[i].id == id then ops[i].(status := Submitted, taskId := taskId) else ops[i]
  {
    seq(|ops|, i requires 0 <= i < |ops| =>
      if ops[i].id == id then ops[i].(status := Submitted, taskId := taskId) else ops[i])
  }

  function Interrupting(w: Stored): Stored { w.(status := Interrupted) }

  function Observed(w: Stored, op: string): Stored { w.(operations := WithStatus(w.operations, op, Executing)) }

  function VerificationPending(w: Stored, op: string): Stored {
    if w.current == op then w.(operations := WithStatus(w.operations, op, Verifying)) else w
  }

  function PausedForVerification(w: Stored, op: string): Stored {
    w.(status := Paused, operations := WithStatus(w.operations, op, Verifying))
  }

  function Verifies(w: Stored, op: string): Stored {
    if w.current == op then w.(current := "", operations := WithStatus(w.operations, op, OpSucceeded)) else w
  }

  function Fails(w: Stored, op: string): Stored {
    w.(status := Failed, current := "", operations := WithStatus(w.operations, op, OpFailed))
  }

  function PausedBeforeSubmit(w: Stored): Stored { w.(status := Paused) }

  function Blocks(w: Stored, op: string): Stored {
    w.(status := Blocked, operations := WithStatus(w.operations, op, OpBlocked))
  }

  predicate IsPending(ops: seq<Operation>, id: string) {
    exists i :: 0 <= i < |ops| && ops[i].id == id && ops[i].status.Pending?
  }

  predicate Markable(w: Stored, op: string) {
    w.status.Running? && w.current == "" && IsPending(w.operations, op)
  }

  function Marks(w: Stored, op: string, allowed: bool): Stored {
    if !Markable(w, op) then w
    else if !allowed then Blocks(w, op)
    else w.(current := op, operations := WithStatus(w.operations, op, Executing))
  }

  function Records(w: Stored, op: string, taskId: string): Stored {
    if w.current == op then w.(operations := WithTask(w.operations, op, taskId)) else w
  }

  predicate Finished(op: Operation) { op.status.OpSucceeded? || op.status.OpSkipped? }

  predicate AllSucceeded(ops: seq<Operation>) {
    ops != [] && forall i :: 0 <= i < |ops| ==> Finished(ops[i])
  }

  function Completes(w: Stored): Stored {
    if AllSucceeded(w.operations) then w.(status := Succeeded, current := "") else w
  }

  predicate MayResume(w: Stored) {
    w.status.Paused? || (w.status.Interrupted? && !(w.current != "" && HasTaskless(w.operations, w.current)))
  }

  predicate HasTaskless(ops: seq<Operation>, id: string) {
    exists i :: 0 <= i < |ops| && ops[i].id == id && ops[i].taskId == ""
  }

  predicate FinishedId(ops: seq<Operation>, id: string) {
    exists i :: 0 <= i < |ops| && ops[i].id == id && Finished(ops[i])
  }

  /** Pending, with every dependency succeeded or skipped. */
  predicate Ready(ops: seq<Operation>, i: int) {
    0 <= i < |ops| && ops[i].status.Pending? && forall d :: d in ops[i].dependsOn ==> FinishedId(ops, d)
  }

  /** aiWorkflowNextReady: the first ready operation from `i` on. */
  function NextReady(ops: seq<Operation>, i: nat): (r: Option<string>)
    ensures r.None? ==> forall j :: i <= j < |ops| ==> !Ready(ops, j)
    ensures r.Some? ==> exists j :: i <= j < |ops| && Ready(ops, j) && ops[j].id == r.value
    decreases |ops| - i
  {
    if i >= |ops| then None else if Ready(ops, i) then Some(ops[i].id) else NextReady(ops, i + 1)
  }

  // --- the transition system ----------------------------------------------------------------------

  function Saved(s: System, w: Stored, saved: bool): System {
    if saved then s.(stored := w, worker := Idle) else s.(worker := Idle)
  }

  /** One decision of the reconciler about a current operation. */
  function DecideCurrent(s: System, op: string, finding: Finding, saved: bool): System {
    var w := s.stored;
    match finding
    case TaskUnknown => Saved(s, Observed(w, op), saved)
    case TaskUnfinished => Saved(s, Observed(w, op), saved)
    case TaskFailed => Saved(s, Fails(w, op), saved)
    case ContextUnreadable => Saved(s, PausedForVerification(w, op), saved)
    case PlanMissing => Saved(s, Interrupting(w), saved)
    case Unverified(late) => Saved(s, if late then PausedForVerification(w, op) else VerificationPending(w, op), saved)
    case Verified => Saved(s, Verifies(w, op), saved)
  }

  /** And about the next one to submit. A mark whose save is lost still sends the
      worker on. */
  function DecideNext(s: System, op: string, precheck: Precheck, saved: bool): System {
    var w := s.stored;
    match precheck
    case PlanGone => Saved(s, Interrupting(w), saved)
    case ContextLost => Saved(s, PausedBeforeSubmit(w), saved)
    case Unsafe => Saved(s, Blocks(w, op), saved)
    case PolicyRevoked => Saved(s, Marks(w, op, false), saved)
    case Allowed =>
      if !Markable(w, op) then s.(worker := Idle)
      else if saved then s.(stored := Marks(w, op, true), worker := Marked(op))
      else s.(worker := Marked(op), lostMarks := s.lostMarks + multiset{op})
  }

  function Decision(s: System, a: Action): System
    requires s.worker.Deciding? && a.Decide?
  {
    var seen := s.worker.snapshot;
    if !(seen.status.Running? || seen.status.Paused?) then s.(worker := Idle)
    else if !seen.hasParent then
      Saved(s, if a.parentCreated then s.stored.(hasParent := true) else Interrupting(s.stored), a.saved)
    else if seen.current != "" then
      if !HasId(seen.operations, seen.current) || HasTaskless(seen.operations, seen.current)
      then Saved(s, Interrupting(s.stored), a.saved)
      else DecideCurrent(s, seen.current, a.finding, a.saved)
    else if AllSucceeded(seen.operations) then Saved(s, Completes(s.stored), a.saved)
    else if seen.status.Paused? then s.(worker := Idle)
    else
      var next := NextReady(seen.operations, 0);
      if next.None? then Saved(s, Interrupting(s.stored), a.saved) else DecideNext(s, next.value, a.precheck, a.saved)
  }

  function Settled(w: Stored, op: string, outcome: Outcome): Stored {
    match outcome
    case ActionError => Fails(w, op)
    case NoTaskId => Interrupting(w)
    case TaskStarted(taskId) => if taskId == "" then Interrupting(w) else Records(w, op, taskId)
  }

  /** An action that is not enabled changes nothing. */
  function Act(s: System, a: Action): System {
    match a
    case Approve =>
      if s.stored.status.Proposed? || s.stored.status.ApprovalRequired?
      then s.(stored := s.stored.(status := Running)) else s
    case ApproveBlocked(op) =>
      if s.stored.status.Proposed? || s.stored.status.ApprovalRequired? then s.(stored := Blocks(s.stored, op)) else s
    case Reject =>
      if s.stored.status.Proposed? || s.stored.status.ApprovalRequired?
      then s.(stored := s.stored.(status := Rejected)) else s
    case Pause => if s.stored.status.Running? then s.(stored := s.stored.(status := Paused)) else s
    case Resume => if MayResume(s.stored) then s.(stored := s.stored.(status := Running)) else s
    case Crash => s.(worker := Idle)
    case Load => if s.worker.Idle? then s.(worker := Deciding(s.stored)) else s
    case Decide(_, _, _, _) => if s.worker.Deciding? then Decision(s, a) else s
    case Execute(outcome) =>
      if s.worker.Marked? then s.(worker := Executed(s.worker.op, outcome), log := s.log + [s.worker.op]) else s
    case Settle(saved) =>
      if s.worker.Executed? then Saved(s, Settled(s.stored, s.worker.op, s.worker.outcome), saved) else s
  }

  function Fold<S, A>(step: (S, A) -> S, s: S, actions: seq<A>): S {
    if actions == [] then s else step(Fold(step, s, actions[..|actions| - 1]), actions[|actions| - 1])
  }

  lemma {:induction false} FoldConcat<S, A>(step: (S, A) -> S, s: S, a: seq<A>, b: seq<A>)
    ensures Fold(step, s, a + b) == Fold(step, Fold(step, s, a), b)
  {
    if b == [] {
      assert a + b == a;
    } else {
      FoldConcat(step, s, a, b[..|b| - 1]);
      assert (a + b)[..|a + b| - 1] == a + b[..|b| - 1];
    }
  }

  function Run(s: System, actions: seq<Action>): System {
    Fold(Act, s, actions)
  }

  /** A workflow as the builder leaves it when it is not blocked. */
  ghost predicate Fresh(s: System) {
    && (s.stored.status.Proposed? || s.stored.status.ApprovalRequired?) && s.stored.current == "" && !s.stored.hasParent
    && ValidDag(s.stored.operations) && s.stored.operations != []
    && (forall i :: 0 <= i < |s.stored.operations|
          ==> s.stored.operations[i].status.Pending? && s.stored.operations[i].taskId == "")
    && s.worker.Idle? && s.log == [] && s.lostMarks == multiset{}
  }

  // --- nothing becomes pending again ---------------------------------------------------------------

  ghost predicate SameShape(a: seq<Operation>, b: seq<Operation>) {
    |a| == |b| && forall i :: 0 <= i < |a| ==> a[i].id == b[i].id && a[i].dependsOn == b[i].dependsOn
  }

  /** The operations stay what they are, and none returns to pending. */
  ghost predicate Advances(a: seq<Operation>, b: seq<Operation>) {
    SameShape(a, b) && forall i :: 0 <= i < |a| ==> b[i].status.Pending? ==> a[i].status.Pending?
  }

  lemma PendingBefore(a: seq<Operation>, b: seq<Operation>)
    requires Advances(a, b)
    ensures forall id :: IsPending(b, id) ==> IsPending(a, id)
  {
  }

  lemma CurrentIsNotPending(w: Stored)
    requires Disciplined(w)
    ensures !IsPending(w.operations, w.current)
  {
  }

  lemma {:induction false} SameShapeSameGraph(a: seq<Operation>, b: seq<Operation>)
    requires SameShape(a, b)
    ensures GraphOf(a) == GraphOf(b)
    ensures ValidDag(a) ==> ValidDag(b)
  {
    SameGraph(a, b);
    if ValidDag(a) {
      forall i | 0 <= i < |b| ensures NamesKnown(b, b[i]) {
        assert NamesKnown(a, a[i]);
        forall d | d in b[i].dependsOn ensures HasId(b, d) {
          var j :| 0 <= j < |a| && a[j].id == d;
          assert b[j].id == d;
        }
      }
    }
  }

  lemma {:induction false} SameGraph(a: seq<Operation>, b: seq<Operation>)
    requires SameShape(a, b)
    ensures GraphOf(a) == GraphOf(b)
  {
    if a == [] {
    } else {
      SameGraph(a[..|a| - 1], b[..|b| - 1]);
    }
  }

  lemma DecideCurrentAdvances(s: System, op: string, finding: Finding, saved: bool)
    ensures Advances(s.stored.operations, DecideCurrent(s, op, finding, saved).stored.operations)
  {
  }

  lemma DecideNextAdvances(s: System, op: string, precheck: Precheck, saved: bool)
    ensures Advances(s.stored.operations, DecideNext(s, op, precheck, saved).stored.operations)
  {
  }

  lemma SettledAdvances(w: Stored, op: string, outcome: Outcome)
    ensures Advances(w.operations, Settled(w, op, outcome).operations)
  {
  }

  lemma DecisionAdvances(s: System, a: Action)
    requires s.worker.Deciding? && a.Decide?
    ensures Advances(s.stored.operations, Decision(s, a).stored.operations)
  {
    var seen := s.worker.snapshot;
    DecideCurrentAdvances(s, seen.current, a.finding, a.saved);
    var next := NextReady(seen.operations, 0);
    if next.Some? {
      DecideNextAdvances(s, next.value, a.precheck, a.saved);
    }
  }

  /** No transition, with whatever answers and whether or not it is saved, returns an
      operation to pending. */
  lemma NeverPendingAgain(s: System, a: Action)
    ensures Advances(s.stored.operations, Act(s, a).stored.operations)
  {
    if a.Decide? && s.worker.Deciding? {
      DecisionAdvances(s, a);
    } else if a.Settle? && s.worker.Executed? {
      SettledAdvances(s.stored, s.worker.op, s.worker.outcome);
    }
  }

  lemma {:induction false} NeverPendingAgainInRun(s: System, actions: seq<Action>)
    ensures Advances(s.stored.operations, Run(s, actions).stored.operations)
  {
    if actions == [] {
    } else {
      NeverPendingAgainInRun(s, actions[..|actions| - 1]);
      NeverPendingAgain(Run(s, actions[..|actions| - 1]), actions[|actions| - 1]);
    }
  }

  // --- the invariant ------------------------------------------------------------------------------------

  predicate Live(w: Stored) { !w.status.Failed? && !w.status.Blocked? }

  predicate UnderWay(w: Stored) { w.status.Running? || w.status.Paused? }

  /** Only the current operation is neither pending nor done. */
  ghost predicate Disciplined(w: Stored) {
    && (w.current == "" || HasId(w.operations, w.current))
    && forall i :: 0 <= i < |w.operations| ==>
         if w.operations[i].id == w.current
         then w.operations[i].status in {Executing, Submitted, Verifying}
         else w.operations[i].status in {Pending, OpSucceeded}
  }

  predicate Started(op: Operation) {
    op.status.Submitted? || op.status.Verifying? || op.status.OpSucceeded? || op.taskId != ""
  }

  ghost predicate StoredOk(w: Stored, log: seq<string>) {
    && ValidDag(w.operations) && w.operations != []
    && (Live(w) ==> Disciplined(w))
    && (forall i :: 0 <= i < |w.operations| ==> Started(w.operations[i]) ==> w.operations[i].id in log)
    && (w.status.Succeeded? ==> AllSucceeded(w.operations))
    && (forall i :: 0 <= i < |w.operations| ==> !w.operations[i].status.OpSkipped?)
  }

  /** An operation between its mark and its record. */
  ghost predicate InFlight(w: Stored, op: string) {
    && UnderWay(w) && (w.current == op || w.current == "") && op != ""
    && exists i ::
         0 <= i < |w.operations| && w.operations[i].id == op && (w.current == "" ==> w.operations[i].status.Pending?)
                   && forall d :: d in w.operations[i].dependsOn ==> FinishedId(w.operations, d)
  }

  ghost predicate WorkerOk(s: System) {
    match s.worker
    case Idle => true
    case Deciding(seen) =>
      UnderWay(seen) ==>
        UnderWay(s.stored) && seen.operations == s.stored.operations && seen.current == s.stored.current
    case Marked(op) => InFlight(s.stored, op)
    case Executed(op, _) => InFlight(s.stored, op) && op in s.log
  }

  function Attempts(s: System, op: string): nat {
    multiset(s.log)[op] + if s.worker == Marked(op) then 1 else 0
  }

  function Left(s: System, op: string): nat {
    s.lostMarks[op] + if IsPending(s.stored.operations, op) then 0 else 1
  }

  ghost predicate Counted(s: System) {
    forall op :: Attempts(s, op) <= Left(s, op)
  }

  ghost predicate Inv(s: System) {
    StoredOk(s.stored, s.log) && WorkerOk(s) && Counted(s) && Topological(GraphOf(s.stored.operations), s.log)
  }

  lemma FreshIsInv(s: System)
    requires Fresh(s)
    ensures Inv(s)
  {
  }

  /** Sends and marks aside, the counts can only gain room. */
  lemma CountsKept(s: System, t: System)
    requires Counted(s) && Advances(s.stored.operations, t.stored.operations)
    requires t.log == s.log && t.lostMarks == s.lostMarks
    requires t.worker.Marked? ==> s.worker == t.worker
    ensures Counted(t)
  {
    PendingBefore(s.stored.operations, t.stored.operations);
    forall op ensures Attempts(t, op) <= Left(t, op) {
      assert Attempts(s, op) <= Left(s, op);
    }
  }

  /** What a worker may write about the current operation. */
  lemma CurrentWriteOk(w: Stored, log: seq<string>, op: string, status: OperationStatus)
    requires StoredOk(w, log) && UnderWay(w) && w.current == op && op != "" && op in log
    requires status.Executing? || status.Verifying? || status.Submitted?
    ensures StoredOk(w.(operations := WithStatus(w.operations, op, status)), log)
    ensures StoredOk(w.(status := Paused, operations := WithStatus(w.operations, op, status)), log)
  {
    SameShapeSameGraph(w.operations, WithStatus(w.operations, op, status));
    IdKept(w.operations, op, status);
  }

  lemma FinishOk(w: Stored, log: seq<string>, op: string)
    requires StoredOk(w, log) && UnderWay(w) && w.current == op && op != "" && op in log
    ensures StoredOk(Verifies(w, op), log)
  {
    SameShapeSameGraph(w.operations, WithStatus(w.operations, op, OpSucceeded));
  }

  lemma FailsOk(w: Stored, log: seq<string>, op: string)
    requires StoredOk(w, log)
    ensures StoredOk(Fails(w, op), log)
  {
    SameShapeSameGraph(w.operations, WithStatus(w.operations, op, OpFailed));
  }

  lemma IdKept(ops: seq<Operation>, id: string, status: OperationStatus)
    ensures forall x :: HasId(ops, x) <==> HasId(WithStatus(ops, id, status), x)
  {
  }

  lemma SavedKeeps(s: System, w: Stored, saved: bool)
    requires Inv(s) && StoredOk(w, s.log) && Advances(s.stored.operations, w.operations)
    ensures Inv(Saved(s, w, saved))
  {
    CountsKept(s, Saved(s, w, saved));
    SameShapeSameGraph(s.stored.operations, w.operations);
  }

  /** A change of status alone, by whom it may be. */
  lemma StatusKeeps(s: System, status: Status)
    requires Inv(s) && (s.worker.Marked? || s.worker.Executed? ==> status.Running? || status.Paused?)
    requires (s.worker.Deciding? && UnderWay(s.worker.snapshot)) ==> status.Running? || status.Paused?
    requires !status.Succeeded? && Live(s.stored)
    ensures Inv(s.(stored := s.stored.(status := status)))
  {
    CountsKept(s, s.(stored := s.stored.(status := status)));
  }

  lemma ApproveBlockedKeeps(s: System, op: string)
    requires Inv(s)
    ensures Inv(Act(s, ApproveBlocked(op)))
  {
    NeverPendingAgain(s, ApproveBlocked(op));
    CountsKept(s, Act(s, ApproveBlocked(op)));
    SameShapeSameGraph(s.stored.operations, Act(s, ApproveBlocked(op)).stored.operations);
  }

  lemma WorkerKeeps(s: System, worker: Worker)
    requires Inv(s) && (worker.Idle? || worker == Deciding(s.stored))
    ensures Inv(s.(worker := worker))
  {
    CountsKept(s, s.(worker := worker));
  }

  lemma UserActionKeeps(s: System, a: Action)
    requires Inv(s) && (a.Approve? || a.ApproveBlocked? || a.Reject? || a.Pause? || a.Resume? || a.Crash? || a.Load?)
    ensures Inv(Act(s, a))
  {
    if Act(s, a) != s {
      match a
      case Approve => StatusKeeps(s, Running);
      case ApproveBlocked(op) => ApproveBlockedKeeps(s, op);
      case Reject => StatusKeeps(s, Rejected);
      case Pause => StatusKeeps(s, Paused);
      case Resume => StatusKeeps(s, Running);
      case Crash => WorkerKeeps(s, Idle);
      case Load => WorkerKeeps(s, Deciding(s.stored));
    }
  }

  /** The dependencies of an operation in flight are done, so they have been sent. */
  lemma DependenciesSent(s: System, op: string)
    requires StoredOk(s.stored, s.log) && InFlight(s.stored, op)
    ensures op in GraphOf(s.stored.operations) && forall d :: d in GraphOf(s.stored.operations)[op] ==> d in s.log
  {
    var ops := s.stored.operations;
    var i :| 0 <= i < |ops| && ops[i].id == op && forall d :: d in ops[i].dependsOn ==> FinishedId(ops, d);
    GraphOfIs(ops);
    forall d | d in ops[i].dependsOn ensures d in s.log {
      assert FinishedId(ops, d);
      var j :| 0 <= j < |ops| && ops[j].id == d && Finished(ops[j]);
      assert Started(ops[j]);
    }
  }

  lemma ExecuteKeeps(s: System, outcome: Outcome)
    requires Inv(s)
    ensures Inv(Act(s, Execute(outcome)))
  {
    if s.worker.Marked? {
      var op, t := s.worker.op, Act(s, Execute(outcome));
      DependenciesSent(s, op);
      TopologicalSnoc(GraphOf(s.stored.operations), s.log, op);
      forall x ensures Attempts(t, x) <= Left(t, x) {
        assert Attempts(s, x) <= Left(s, x);
      }
      assert forall x :: x in s.log ==> x in t.log;
      assert op in t.log;
    }
  }

  lemma SettledOk(w: Stored, log: seq<string>, op: string, outcome: Outcome)
    requires StoredOk(w, log) && UnderWay(w) && op in log && op != ""
    ensures StoredOk(Settled(w, op, outcome), log)
  {
    FailsOk(w, log, op);
    if w.current == op && outcome.TaskStarted? {
      RecordOk(w, log, op, outcome.taskId);
    }
  }

  lemma SettleKeeps(s: System, saved: bool)
    requires Inv(s)
    ensures Inv(Act(s, Settle(saved)))
  {
    if s.worker.Executed? {
      var op, outcome := s.worker.op, s.worker.outcome;
      SettledAdvances(s.stored, op, outcome);
      SettledOk(s.stored, s.log, op, outcome);
      SavedKeeps(s, Settled(s.stored, op, outcome), saved);
    }
  }

  lemma RecordOk(w: Stored, log: seq<string>, op: string, taskId: string)
    requires StoredOk(w, log) && UnderWay(w) && w.current == op && op != "" && op in log
    ensures StoredOk(Records(w, op, taskId), log)
  {
    var after := WithTask(w.operations, op, taskId);
    SameShapeSameGraph(w.operations, after);
    forall x | HasId(w.operations, x) ensures HasId(after, x) {
      var i :| 0 <= i < |w.operations| && w.operations[i].id == x;
      assert after[i].id == x;
    }
  }

  /** A task id is only ever stored for what was sent. */
  lemma TaskedIsLogged(w: Stored, log: seq<string>)
    requires StoredOk(w, log) && HasId(w.operations, w.current) && !HasTaskless(w.operations, w.current)
    ensures w.current in log
  {
  }

  lemma DecideCurrentOk(s: System, finding: Finding)
    requires StoredOk(s.stored, s.log) && UnderWay(s.stored) && s.stored.current != "" && s.stored.current in s.log
    ensures StoredOk(DecideCurrent(s, s.stored.current, finding, true).stored, s.log)
  {
    var w, op := s.stored, s.stored.current;
    match finding
    case TaskUnknown => CurrentWriteOk(w, s.log, op, Executing);
    case TaskUnfinished => CurrentWriteOk(w, s.log, op, Executing);
    case TaskFailed => FailsOk(w, s.log, op);
    case ContextUnreadable => CurrentWriteOk(w, s.log, op, Verifying);
    case PlanMissing =>
    case Unverified(_) => CurrentWriteOk(w, s.log, op, Verifying);
    case Verified => FinishOk(w, s.log, op);
  }

  lemma DecideCurrentKeeps(s: System, finding: Finding, saved: bool)
    requires Inv(s) && UnderWay(s.stored) && s.stored.current != "" && HasId(s.stored.operations, s.stored.current)
    requires !HasTaskless(s.stored.operations, s.stored.current)
    ensures Inv(DecideCurrent(s, s.stored.current, finding, saved))
  {
    TaskedIsLogged(s.stored, s.log);
    DecideCurrentOk(s, finding);
    DecideCurrentAdvances(s, s.stored.current, finding, true);
    SavedKeeps(s, DecideCurrent(s, s.stored.current, finding, true).stored, saved);
  }

  lemma BlocksOk(w: Stored, log: seq<string>, op: string)
    requires StoredOk(w, log)
    ensures StoredOk(Blocks(w, op), log)
  {
    SameShapeSameGraph(w.operations, WithStatus(w.operations, op, OpBlocked));
  }

  lemma MarkStoredOk(w: Stored, log: seq<string>, op: string)
    requires StoredOk(w, log) && Markable(w, op)
    ensures StoredOk(Marks(w, op, true), log)
    ensures !IsPending(Marks(w, op, true).operations, op)
  {
    SameShapeSameGraph(w.operations, WithStatus(w.operations, op, Executing));
    IdKept(w.operations, op, Executing);
  }

  lemma MarkInFlight(w: Stored, op: string)
    requires ValidDag(w.operations) && Markable(w, op) && InFlight(w, op)
    ensures InFlight(Marks(w, op, true), op)
  {
    var ops, after := w.operations, WithStatus(w.operations, op, Executing);
    var i :| 0 <= i < |ops| && ops[i].id == op && forall d :: d in ops[i].dependsOn ==> FinishedId(ops, d);
    assert after[i].id == op;
    assert NamesKnown(ops, ops[i]);
    forall d | d in after[i].dependsOn ensures FinishedId(after, d) {
      assert FinishedId(ops, d);
      var j :| 0 <= j < |ops| && ops[j].id == d && Finished(ops[j]);
      assert after[j] == ops[j];
    }
  }

  lemma MarkCounts(s: System, op: string, saved: bool)
    requires Counted(s) && !s.worker.Marked? && Markable(s.stored, op)
    requires !IsPending(Marks(s.stored, op, true).operations, op)
    ensures Counted(DecideNext(s, op, Allowed, saved))
  {
    var t := DecideNext(s, op, Allowed, saved);
    DecideNextAdvances(s, op, Allowed, saved);
    PendingBefore(s.stored.operations, t.stored.operations);
    forall x ensures Attempts(t, x) <= Left(t, x) {
      assert Attempts(s, x) <= Left(s, x);
    }
  }

  /** A mark, kept or lost. */
  lemma MarkKeeps(s: System, op: string, saved: bool)
    requires Inv(s) && s.worker.Deciding? && Markable(s.stored, op) && InFlight(s.stored, op)
    ensures Inv(DecideNext(s, op, Allowed, saved))
  {
    MarkStoredOk(s.stored, s.log, op);
    MarkInFlight(s.stored, op);
    MarkCounts(s, op, saved);
    SameShapeSameGraph(s.stored.operations, Marks(s.stored, op, true).operations);
  }

  lemma DecideNextKeeps(s: System, op: string, precheck: Precheck, saved: bool)
    requires Inv(s) && s.worker.Deciding? && UnderWay(s.stored) && s.stored.current == "" && InFlight(s.stored, op)
    ensures Inv(DecideNext(s, op, precheck, saved))
  {
    BlocksOk(s.stored, s.log, op);
    if precheck.Allowed? {
      if Markable(s.stored, op) {
        MarkKeeps(s, op, saved);
      } else {
        SavedKeeps(s, s.stored, false);
      }
    } else {
      DecideNextAdvances(s, op, precheck, true);
      SavedKeeps(s, DecideNext(s, op, precheck, true).stored, saved);
    }
  }

  lemma ReadyInFlight(w: Stored, i: int)
    requires UnderWay(w) && w.current == "" && Ready(w.operations, i) && w.operations[i].id != ""
    ensures InFlight(w, w.operations[i].id)
  {
  }

  lemma CompletesOk(w: Stored, log: seq<string>)
    requires StoredOk(w, log) && UnderWay(w)
    ensures StoredOk(Completes(w), log)
  {
  }

  lemma DecideKeeps(s: System, a: Action)
    requires Inv(s) && a.Decide?
    ensures Inv(Act(s, a))
  {
    if s.worker.Deciding? {
      var seen := s.worker.snapshot;
      if UnderWay(seen) {
        CompletesOk(s.stored, s.log);
        var next := NextReady(seen.operations, 0);
        if !seen.hasParent || seen.current != "" || AllSucceeded(seen.operations) || seen.status.Paused? || next.None? {
          DecideOtherKeeps(s, a);
        } else {
          var i :| 0 <= i < |seen.operations| && Ready(seen.operations, i) && seen.operations[i].id == next.value;
          ReadyInFlight(s.stored, i);
          DecideNextKeeps(s, next.value, a.precheck, a.saved);
        }
      } else {
        SavedKeeps(s, s.stored, false);
      }
    }
  }

  lemma DecideOtherKeeps(s: System, a: Action)
    requires Inv(s) && a.Decide? && s.worker.Deciding? && UnderWay(s.worker.snapshot)
    requires var seen := s.worker.snapshot;
             || !seen.hasParent || seen.current != "" || AllSucceeded(seen.operations) || seen.status.Paused?
             || NextReady(seen.operations, 0).None?
    ensures Inv(Act(s, a))
  {
    var seen := s.worker.snapshot;
    if !seen.hasParent {
      SavedKeeps(s, if a.parentCreated then s.stored.(hasParent := true) else Interrupting(s.stored), a.saved);
    } else if seen.current != "" {
      if !HasId(seen.operations, seen.current) || HasTaskless(seen.operations, seen.current) {
        SavedKeeps(s, Interrupting(s.stored), a.saved);
      } else {
        DecideCurrentKeeps(s, a.finding, a.saved);
      }
    } else if AllSucceeded(seen.operations) {
      CompletesOk(s.stored, s.log);
      SavedKeeps(s, Completes(s.stored), a.saved);
    } else if seen.status.Paused? {
      SavedKeeps(s, s.stored, false);
    } else {
      SavedKeeps(s, Interrupting(s.stored), a.saved);
    }
  }

  lemma InvKept(s: System, a: Action)
    requires Inv(s)
    ensures Inv(Act(s, a))
  {
    match a
    case Decide(_, _, _, _) => DecideKeeps(s, a);
    case Execute(outcome) => ExecuteKeeps(s, outcome);
    case Settle(saved) => SettleKeeps(s, saved);
    case _ => UserActionKeeps(s, a);
  }

  lemma {:induction false} InvAlways(s: System, actions: seq<Action>)
    requires Fresh(s)
    ensures Inv(Run(s, actions))
  {
    if actions == [] {
      FreshIsInv(s);
    } else {
      InvAlways(s, actions[..|actions| - 1]);
      InvKept(Run(s, actions[..|actions| - 1]), actions[|actions| - 1]);
    }
  }

  // --- what holds of every run --------------------------------------------------------------------------------

  /** At most one submission per operation, plus one for each "submitting" mark whose
      save was lost: over every interleaving of decisions, approval, pause, resume and
      crashes, in particular a crash between the mark and the record. */
  lemma SubmittedOncePerMark(s: System, actions: seq<Action>, op: string)
    requires Fresh(s)
    ensures var t := Run(s, actions); multiset(t.log)[op] <= 1 + t.lostMarks[op]
  {
    InvAlways(s, actions);
    assert Attempts(Run(s, actions), op) <= Left(Run(s, actions), op);
  }

  predicate LosesMark(a: Action) {
    a.Decide? && a.precheck.Allowed? && !a.saved
  }

  lemma MarkNotLost(s: System, a: Action)
    requires !LosesMark(a)
    ensures Act(s, a).lostMarks == s.lostMarks
  {
  }

  lemma {:induction false} NoMarkLost(s: System, actions: seq<Action>)
    requires Fresh(s) && forall i :: 0 <= i < |actions| ==> !LosesMark(actions[i])
    ensures Run(s, actions).lostMarks == multiset{}
  {
    if actions == [] {
    } else {
      NoMarkLost(s, actions[..|actions| - 1]);
      MarkNotLost(Run(s, actions[..|actions| - 1]), actions[|actions| - 1]);
    }
  }

  /** While the marks reach the store, whatever other saves are lost, no operation is
      sent twice. */
  lemma SubmittedAtMostOnce(s: System, actions: seq<Action>, i: int, j: int)
    requires Fresh(s)
    requires forall k :: 0 <= k < |actions| && actions[k].Decide? && actions[k].precheck.Allowed? ==> actions[k].saved
    requires 0 <= i < j < |Run(s, actions).log|
    ensures Run(s, actions).log[i] != Run(s, actions).log[j]
  {
    var log := Run(s, actions).log;
    NoMarkLost(s, actions);
    SubmittedOncePerMark(s, actions, log[i]);
    CountsBoth(log, i, j);
  }

  lemma CountsBoth(log: seq<string>, i: int, j: int)
    requires 0 <= i < j < |log|
    ensures log[i] == log[j] ==> multiset(log)[log[i]] >= 2
  {
    assert log == log[..j] + log[j..];
    assert log[..j][i] == log[i] && log[j..][0] == log[j];
  }

  // --- what each step does to the store, cause by cause --------------------------------------

  /** A saved decision about `op`, taken on a snapshot in which it is current and has a task. */
  ghost predicate DecidesOn(s: System, a: Action, op: string) {
    && s.worker.Deciding? && a.Decide? && a.saved && op != ""
    && var seen := s.worker.snapshot;
       && (seen.status.Running? || seen.status.Paused?) && seen.hasParent && seen.current == op
       && (exists i :: 0 <= i < |seen.operations| && seen.operations[i].id == op)
       && (forall i :: 0 <= i < |seen.operations| && seen.operations[i].id == op ==> seen.operations[i].taskId != "")
  }

  /** A decision about submitting `op`, the first ready operation of a running snapshot
      without a current one. */
  ghost predicate DecidesNext(s: System, a: Action, op: string) {
    && s.worker.Deciding? && a.Decide?
    && var seen := s.worker.snapshot;
       && seen.status.Running? && seen.hasParent && seen.current == ""
       && (exists i :: 0 <= i < |seen.operations| && !Finished(seen.operations[i]))
       && NextReady(seen.operations, 0) == Some(op)
  }

  /** A saved end of an action on `op`. */
  ghost predicate Settles(s: System, a: Action, op: string, outcome: Outcome) {
    a == Settle(true) && s.worker == Executed(op, outcome)
  }

  /** Nothing but a saved decision, a saved end of an action and what users do reaches
      the store. */
  lemma OnlySavesReachTheStore(s: System, a: Action)
    requires a.Crash? || a.Load? || a.Execute? || (a.Decide? && !a.saved) || (a.Settle? && !a.saved)
    ensures Act(s, a).stored == s.stored
  {
  }

  /** An operation comes to read succeeded exactly by a saved decision that found it
      verified, failed exactly by one that found its task failed or by the saved end of
      an action with an error, and blocked exactly by those who may. */
  ghost predicate EndsForCause(s: System, a: Action, i: nat)
    requires i < |s.stored.operations|
  {
    var before, after := s.stored.operations[i], Act(s, a).stored.operations;
    && |after| == |s.stored.operations| && after[i].id == before.id
    && (!before.status.OpSucceeded? ==>
          (after[i].status.OpSucceeded? <==> DecidesOn(s, a, before.id) && a.finding.Verified?))
    && (!before.status.OpFailed? ==>
          (after[i].status.OpFailed? <==> || (DecidesOn(s, a, before.id) && a.finding.TaskFailed?)
                                          || Settles(s, a, before.id, ActionError)))
    && (!before.status.OpBlocked? ==> (after[i].status.OpBlocked? <==> BlockedBy(s, a, before.id)))
  }

  lemma OperationEnds(s: System, a: Action, i: nat)
    requires Inv(s) && i < |s.stored.operations|
    ensures EndsForCause(s, a, i)
  {
    StepKeepsShape(s, a);
    DecidedInTime(s, a);
    assert s.stored.operations[i].id != "";
    if a.Decide? && s.worker.Deciding? {
      var seen := s.worker.snapshot;
      if UnderWay(seen) && seen.hasParent && seen.current != "" {
        EndsOnCurrent(s, a, i);
      } else {
        EndsOnNext(s, a, i);
      }
    } else {
      EndsOtherwise(s, a, i);
    }
  }

  lemma EndsOtherwise(s: System, a: Action, i: nat)
    requires i < |s.stored.operations| && !(a.Decide? && s.worker.Deciding?)
    ensures EndsForCause(s, a, i)
  {
    StepKeepsShape(s, a);
    assert !DecidesOn(s, a, s.stored.operations[i].id) && !DecidesOnNext(s, a);
  }

  lemma EndsOnCurrent(s: System, a: Action, i: nat)
    requires i < |s.stored.operations| && s.worker.Deciding? && a.Decide? && s.stored.operations[i].id != ""
    requires var seen := s.worker.snapshot;
             && UnderWay(seen) && seen.hasParent && seen.current != ""
             && seen.operations == s.stored.operations && seen.current == s.stored.current
    ensures EndsForCause(s, a, i)
  {
    var seen := s.worker.snapshot;
    StepKeepsShape(s, a);
    var blind := !HasId(seen.operations, seen.current) || HasTaskless(seen.operations, seen.current);
    assert DecidesOn(s, a, seen.current) <==> a.saved && !blind;
    assert !DecidesOnNext(s, a);
    if !blind {
      assert Act(s, a) == DecideCurrent(s, seen.current, a.finding, a.saved);
    }
  }

  lemma EndsOnNext(s: System, a: Action, i: nat)
    requires i < |s.stored.operations| && s.worker.Deciding? && a.Decide? && s.stored.operations[i].id != ""
    requires var seen := s.worker.snapshot;
             && !(UnderWay(seen) && seen.hasParent && seen.current != "")
             && (UnderWay(seen) ==> seen.operations == s.stored.operations && seen.current == s.stored.current)
    ensures EndsForCause(s, a, i)
  {
    var seen := s.worker.snapshot;
    StepKeepsShape(s, a);
    assert forall op :: !DecidesOn(s, a, op) || op == "";
    var next := NextReady(seen.operations, 0);
    var asks := seen.status.Running? && seen.hasParent && !AllSucceeded(seen.operations) && next.Some?;
    if asks {
      EndsOnAsked(s, a, i, next.value);
    } else {
      assert !DecidesOnNext(s, a);
    }
  }

  lemma EndsOnAsked(s: System, a: Action, i: nat, op: string)
    requires i < |s.stored.operations| && s.worker.Deciding? && a.Decide? && s.stored.operations[i].id != ""
    requires var seen := s.worker.snapshot;
             && seen.status.Running? && seen.hasParent && !AllSucceeded(seen.operations)
             && seen.operations == s.stored.operations && seen.current == s.stored.current == ""
             && NextReady(seen.operations, 0) == Some(op)
    ensures EndsForCause(s, a, i)
  {
    assert !DecidesOn(s, a, s.stored.operations[i].id);
    assert Act(s, a) == DecideNext(s, op, a.precheck, a.saved);
    NextIsPending(s.stored.operations, op);
    assert DecidesOnNext(s, a) <==> a.saved;
    var before, after := s.stored.operations[i], Act(s, a).stored.operations[i];
    assert after.status == before.status || (before.id == op && (after.status.Executing? || after.status.OpBlocked?));
    assert before.id == op && after.status.OpBlocked? && !before.status.OpBlocked? ==> BlockedBy(s, a, op);
  }

  lemma NextIsPending(ops: seq<Operation>, op: string)
    requires NextReady(ops, 0) == Some(op)
    ensures IsPending(ops, op)
  {
  }

  /** The statuses a workflow never leaves. */
  predicate Ended(status: Status) { status.Failed? || status.Blocked? || status.Rejected? || status.Succeeded? }

  /** The status of a workflow changes exactly for these causes. */
  ghost predicate StatusForCause(s: System, a: Action) {
    var before, after := s.stored.status, Act(s, a).stored.status;
    && (Ended(before) ==> after == before)
    && (!before.Running? ==>
          (after.Running? <==> || (a.Approve? && (before.Proposed? || before.ApprovalRequired?))
                               || (a.Resume? && Resumable(s.stored))))
    && (!before.Rejected? ==> (after.Rejected? <==> a.Reject? && (before.Proposed? || before.ApprovalRequired?)))
    && (!before.Paused? ==> (after.Paused? <==> PausedBy(s, a)))
    && (!before.Interrupted? ==> (after.Interrupted? <==> InterruptedBy(s, a)))
    && (!before.Failed? ==>
          (after.Failed? <==> (DecidesOnCurrent(s, a) && a.finding.TaskFailed?) || SettlesWith(s, a, ActionError)))
    && (!before.Blocked? ==>
          (after.Blocked? <==> || (a.ApproveBlocked? && (before.Proposed? || before.ApprovalRequired?))
                               || (DecidesOnNext(s, a) && a.precheck.Unsafe?)
                               || (DecidesOnNext(s, a) && a.precheck.PolicyRevoked? && before.Running?)))
    && (!before.Succeeded? ==> (after.Succeeded? <==> CompletedBy(s, a)))
    && (before.Proposed? || before.ApprovalRequired? ==> after == before || after in {Running, Rejected, Blocked})
    && (after.Proposed? || after.ApprovalRequired? ==> after == before)
  }

  /** Resume takes a paused workflow, or an interrupted one whose current operation, if
      there is one, has a task. */
  ghost predicate Resumable(w: Stored) {
    || w.status.Paused?
    || (w.status.Interrupted? &&
          (w.current != "" ==> forall i :: 0 <= i < |w.operations| && w.operations[i].id == w.current
                                           ==> w.operations[i].taskId != ""))
  }

  ghost predicate DecidesOnCurrent(s: System, a: Action) {
    s.worker.Deciding? && DecidesOn(s, a, s.worker.snapshot.current)
  }

  ghost predicate DecidesOnNext(s: System, a: Action) {
    && s.worker.Deciding? && a.Decide? && a.saved && NextReady(s.worker.snapshot.operations, 0).Some?
    && DecidesNext(s, a, NextReady(s.worker.snapshot.operations, 0).value)
  }

  ghost predicate SettlesWith(s: System, a: Action, outcome: Outcome) {
    a == Settle(true) && s.worker.Executed? && s.worker.outcome == outcome
  }

  ghost predicate PausedBy(s: System, a: Action) {
    || (a.Pause? && s.stored.status.Running?)
    || (DecidesOnCurrent(s, a) && (a.finding.ContextUnreadable? || a.finding == Unverified(true)))
    || (DecidesOnNext(s, a) && a.precheck.ContextLost?)
  }

  ghost predicate InterruptedBy(s: System, a: Action) {
    || (DecidesOnCurrent(s, a) && a.finding.PlanMissing?)
    || (DecidesOnNext(s, a) && a.precheck.PlanGone?)
    || SettlesWith(s, a, NoTaskId) || SettlesWith(s, a, TaskStarted(""))
    || (s.worker.Deciding? && a.Decide? && a.saved && Stuck(s.worker.snapshot, a.parentCreated))
  }

  /** A snapshot with which the reconciler cannot go on. */
  ghost predicate Stuck(seen: Stored, parentCreated: bool) {
    && (seen.status.Running? || seen.status.Paused?)
    && if !seen.hasParent then !parentCreated
       else if seen.current != "" then
         || (forall i :: 0 <= i < |seen.operations| ==> seen.operations[i].id != seen.current)
         || (exists i :: 0 <= i < |seen.operations| && seen.operations[i].id == seen.current
                         && seen.operations[i].taskId == "")
       else seen.status.Running? && !AllSucceeded(seen.operations) && NextReady(seen.operations, 0).None?
  }

  ghost predicate CompletedBy(s: System, a: Action) {
    && s.worker.Deciding? && a.Decide? && a.saved
    && var seen := s.worker.snapshot;
       && (seen.status.Running? || seen.status.Paused?) && seen.hasParent && seen.current == ""
       && seen.operations != [] && forall i :: 0 <= i < |seen.operations| ==> Finished(seen.operations[i])
  }

  lemma StatusChanges(s: System, a: Action)
    requires Inv(s)
    ensures StatusForCause(s, a)
  {
    DecidedInTime(s, a);
    if a.Decide? && s.worker.Deciding? {
      var seen := s.worker.snapshot;
      if UnderWay(seen) && seen.hasParent && seen.current != "" {
        StatusOnCurrent(s, a);
      } else if UnderWay(seen) && seen.hasParent {
        StatusOnNext(s, a);
      }
    } else {
      StatusOtherwise(s, a);
    }
  }

  lemma StatusOnCurrent(s: System, a: Action)
    requires s.worker.Deciding? && a.Decide? && UnderWay(s.stored)
    requires var seen := s.worker.snapshot;
             && UnderWay(seen) && seen.hasParent && seen.current != ""
             && seen.operations == s.stored.operations && seen.current == s.stored.current
    ensures StatusForCause(s, a)
  {
    var seen := s.worker.snapshot;
    var blind := !HasId(seen.operations, seen.current) || HasTaskless(seen.operations, seen.current);
    assert DecidesOnCurrent(s, a) <==> a.saved && !blind;
    assert Stuck(seen, a.parentCreated) <==> blind;
    assert !DecidesOnNext(s, a) && !CompletedBy(s, a);
    if blind {
      assert Act(s, a) == Saved(s, Interrupting(s.stored), a.saved);
    } else {
      assert Act(s, a) == DecideCurrent(s, seen.current, a.finding, a.saved);
    }
  }

  lemma StatusOnNext(s: System, a: Action)
    requires s.worker.Deciding? && a.Decide? && UnderWay(s.stored)
    requires var seen := s.worker.snapshot;
             && UnderWay(seen) && seen.hasParent && seen.current == s.stored.current == ""
             && seen.operations == s.stored.operations
    ensures StatusForCause(s, a)
  {
    var seen := s.worker.snapshot;
    var next := NextReady(seen.operations, 0);
    assert !DecidesOnCurrent(s, a);
    assert CompletedBy(s, a) <==> a.saved && AllSucceeded(seen.operations);
    if seen.status.Running? && !AllSucceeded(seen.operations) && next.Some? {
      NextIsPending(seen.operations, next.value);
      assert DecidesOnNext(s, a) <==> a.saved;
      assert Act(s, a) == DecideNext(s, next.value, a.precheck, a.saved);
    } else {
      assert !DecidesOnNext(s, a);
    }
  }

  lemma StatusOtherwise(s: System, a: Action)
    requires Inv(s) && !(a.Decide? && s.worker.Deciding?)
    ensures StatusForCause(s, a)
  {
    if a.Settle? && s.worker.Executed? {
      StatusOnSettle(s, a);
    } else {
      StatusOnUserAction(s, a);
    }
  }

  lemma StatusOnSettle(s: System, a: Action)
    requires UnderWay(s.stored) && a.Settle? && s.worker.Executed?
    ensures StatusForCause(s, a)
  {
    assert Act(s, a) == Saved(s, Settled(s.stored, s.worker.op, s.worker.outcome), a.saved);
  }

  lemma StatusOnUserAction(s: System, a: Action)
    requires !(a.Decide? && s.worker.Deciding?) && !(a.Settle? && s.worker.Executed?)
    ensures StatusForCause(s, a)
  {
    assert !DecidesOnCurrent(s, a) && !DecidesOnNext(s, a);
    if a.Resume? {
      assert MayResume(s.stored) <==> Resumable(s.stored);
    }
  }

  /** What blocks an operation: the approval refused it, or the checks before its
      submission did while it was still to be submitted. */
  ghost predicate BlockedBy(s: System, a: Action, op: string) {
    || (a == ApproveBlocked(op) && (s.stored.status.Proposed? || s.stored.status.ApprovalRequired?))
    || (&& DecidesOnNext(s, a) && NextReady(s.worker.snapshot.operations, 0) == Some(op)
        && (a.precheck.Unsafe? || (a.precheck.PolicyRevoked? && s.stored.status.Running?)))
  }

  lemma StepKeepsShape(s: System, a: Action)
    ensures SameShape(s.stored.operations, Act(s, a).stored.operations)
  {
    NeverPendingAgain(s, a);
  }

  /** A snapshot that is under way has not been overtaken. */
  lemma DecidedInTime(s: System, a: Action)
    requires Inv(s)
    ensures s.worker.Deciding? && UnderWay(s.worker.snapshot) ==>
              && s.worker.snapshot.operations == s.stored.operations && s.worker.snapshot.current == s.stored.current
              && UnderWay(s.stored)
  {
  }

  /** The steps in between: an operation comes to execute by the mark before its
      submission or a decision that found its task unfinished or unknown, to be verified
      by one that could not tell, and to be submitted, with its task, by the saved record. */
  ghost predicate AdvancesForCause(s: System, a: Action, i: nat)
    requires i < |s.stored.operations|
  {
    var before, after := s.stored.operations[i], Act(s, a).stored.operations;
    && |after| == |s.stored.operations|
    && (!before.status.Executing? ==>
          (after[i].status.Executing? <==>
             || (DecidesOn(s, a, before.id) && (a.finding.TaskUnknown? || a.finding.TaskUnfinished?))
             || (MarksNow(s, a, before.id) && a.saved)))
    && (!before.status.Verifying? ==>
          (after[i].status.Verifying? <==> && DecidesOn(s, a, before.id)
                                           && (a.finding.ContextUnreadable? || a.finding.Unverified?)))
    && (!before.status.Submitted? ==> (after[i].status.Submitted? <==> RecordsTask(s, a, before.id)))
    && after[i].taskId == (if RecordsTask(s, a, before.id) then s.worker.outcome.taskId else before.taskId)
    && (after[i].status.Pending? ==> before.status.Pending?)
  }

  /** A decision to submit `op` that still finds it to be submitted. */
  ghost predicate MarksNow(s: System, a: Action, op: string) {
    && DecidesNext(s, a, op) && a.precheck.Allowed? && s.stored.status.Running? && s.stored.current == ""
  }

  ghost predicate MarksNext(s: System, a: Action) {
    && s.worker.Deciding? && NextReady(s.worker.snapshot.operations, 0).Some?
    && MarksNow(s, a, NextReady(s.worker.snapshot.operations, 0).value)
  }

  ghost predicate RecordsTask(s: System, a: Action, op: string) {
    && a == Settle(true) && s.worker.Executed? && s.worker.op == op && s.stored.current == op
    && s.worker.outcome.TaskStarted? && s.worker.outcome.taskId != ""
  }

  lemma OperationAdvances(s: System, a: Action, i: nat)
    requires Inv(s) && i < |s.stored.operations|
    ensures AdvancesForCause(s, a, i)
  {
    StepKeepsShape(s, a);
    DecidedInTime(s, a);
    assert s.stored.operations[i].id != "";
    if a.Decide? && s.worker.Deciding? {
      var seen := s.worker.snapshot;
      if UnderWay(seen) && seen.hasParent && seen.current != "" {
        AdvancesOnCurrent(s, a, i);
      } else {
        AdvancesOnNext(s, a, i);
      }
    } else {
      AdvancesOtherwise(s, a, i);
    }
  }

  lemma AdvancesOtherwise(s: System, a: Action, i: nat)
    requires i < |s.stored.operations| && !(a.Decide? && s.worker.Deciding?)
    ensures AdvancesForCause(s, a, i)
  {
    StepKeepsShape(s, a);
    var id := s.stored.operations[i].id;
    assert !DecidesOn(s, a, id) && !MarksNow(s, a, id);
  }

  lemma AdvancesOnCurrent(s: System, a: Action, i: nat)
    requires i < |s.stored.operations| && s.worker.Deciding? && a.Decide? && s.stored.operations[i].id != ""
    requires var seen := s.worker.snapshot;
             && UnderWay(seen) && seen.hasParent && seen.current != ""
             && seen.operations == s.stored.operations && seen.current == s.stored.current
    ensures AdvancesForCause(s, a, i)
  {
    var seen, id := s.worker.snapshot, s.stored.operations[i].id;
    StepKeepsShape(s, a);
    var blind := !HasId(seen.operations, seen.current) || HasTaskless(seen.operations, seen.current);
    assert DecidesOn(s, a, id) <==> a.saved && !blind && id == seen.current;
    assert !MarksNow(s, a, id);
    if !blind {
      assert Act(s, a) == DecideCurrent(s, seen.current, a.finding, a.saved);
    }
  }

  lemma AdvancesOnNext(s: System, a: Action, i: nat)
    requires i < |s.stored.operations| && s.worker.Deciding? && a.Decide? && s.stored.operations[i].id != ""
    requires var seen := s.worker.snapshot;
             && !(UnderWay(seen) && seen.hasParent && seen.current != "")
             && (UnderWay(seen) ==> seen.operations == s.stored.operations && seen.current == s.stored.current)
    ensures AdvancesForCause(s, a, i)
  {
    var seen, id := s.worker.snapshot, s.stored.operations[i].id;
    StepKeepsShape(s, a);
    assert !DecidesOn(s, a, id);
    var next := NextReady(seen.operations, 0);
    if seen.status.Running? && seen.hasParent && !AllSucceeded(seen.operations) && next.Some? {
      AdvancesOnAsked(s, a, i, next.value);
    } else {
      assert !MarksNow(s, a, id);
    }
  }

  lemma AdvancesOnAsked(s: System, a: Action, i: nat, op: string)
    requires i < |s.stored.operations| && s.worker.Deciding? && a.Decide? && s.stored.operations[i].id != ""
    requires var seen := s.worker.snapshot;
             && seen.status.Running? && seen.hasParent && !AllSucceeded(seen.operations)
             && seen.operations == s.stored.operations && seen.current == s.stored.current == ""
             && NextReady(seen.operations, 0) == Some(op)
    ensures AdvancesForCause(s, a, i)
  {
    var before, after := s.stored.operations[i], Act(s, a).stored.operations[i];
    assert !DecidesOn(s, a, before.id);
    assert Act(s, a) == DecideNext(s, op, a.precheck, a.saved);
    NextIsPending(s.stored.operations, op);
    assert MarksNow(s, a, before.id) <==> before.id == op && a.precheck.Allowed? && s.stored.status.Running?;
    assert after.taskId == before.taskId;
    assert after.status == before.status || (before.id == op && (after.status.Executing? || after.status.OpBlocked?));
  }

  /** The worker: it takes a snapshot only when idle, holds a mark only by a decision that
      finds the operation still to be submitted, sends only what it has marked, and a lost
      mark is one whose save failed. */
  ghost predicate MovesForCause(s: System, a: Action) {
    var t := Act(s, a);
    && (a.Load? ==> t == if s.worker.Idle? then s.(worker := Deciding(s.stored)) else s)
    && (t.worker.Deciding? ==> t.worker == s.worker || a.Load?)
    && (t.worker.Marked? <==> (s.worker.Marked? && t.worker == s.worker) || MarksNext(s, a))
    && (MarksNext(s, a) ==> NextReady(s.worker.snapshot.operations, 0) == Some(t.worker.op))
    && t.log == (if s.worker.Marked? && a.Execute? then s.log + [s.worker.op] else s.log)
    && t.lostMarks == (if MarksNext(s, a) && !a.saved then s.lostMarks + multiset{t.worker.op} else s.lostMarks)
  }

  lemma WorkerMoves(s: System, a: Action)
    requires Inv(s)
    ensures MovesForCause(s, a)
  {
    DecidedInTime(s, a);
    if a.Decide? && s.worker.Deciding? {
      var seen := s.worker.snapshot;
      if UnderWay(seen) && seen.hasParent && seen.current == "" && !AllSucceeded(seen.operations) {
        MovesOnNext(s, a);
      } else {
        assert !MarksNext(s, a);
      }
    }
  }

  lemma MovesOnNext(s: System, a: Action)
    requires s.worker.Deciding? && a.Decide?
    requires var seen := s.worker.snapshot;
             && UnderWay(seen) && seen.hasParent && !AllSucceeded(seen.operations)
             && seen.operations == s.stored.operations && seen.current == s.stored.current == ""
    ensures MovesForCause(s, a)
  {
    var seen := s.worker.snapshot;
    var next := NextReady(seen.operations, 0);
    if seen.status.Running? && next.Some? {
      NextIsPending(seen.operations, next.value);
      assert Act(s, a) == DecideNext(s, next.value, a.precheck, a.saved);
      assert MarksNext(s, a) <==> a.precheck.Allowed? && s.stored.status.Running?;
    } else {
      assert !MarksNext(s, a);
    }
  }

  // --- what that means for whole runs ---------------------------------------------------------------

  /** If something holds after a run and did not before, some step brought it about. */
  lemma {:induction false} BroughtAbout(s: System, actions: seq<Action>, holds: System -> bool) returns (k: nat)
    requires !holds(s) && holds(Run(s, actions))
    ensures k < |actions| && !holds(Run(s, actions[..k])) && holds(Act(Run(s, actions[..k]), actions[k]))
  {
    var front := actions[..|actions| - 1];
    if holds(Run(s, front)) {
      k := BroughtAbout(s, front, holds);
      assert actions[..k] == front[..k];
    } else {
      k := |front|;
    }
  }

  /** An operation reads succeeded only if the run holds a saved decision, on a snapshot
      in which it was current and had a task, that found it verified. */
  lemma SucceededOnlyIfVerified(s: System, actions: seq<Action>, i: nat) returns (k: nat)
    requires Fresh(s) && i < |s.stored.operations| == |Run(s, actions).stored.operations|
    requires Run(s, actions).stored.operations[i].status.OpSucceeded?
    ensures k < |actions| && DecidesOn(Run(s, actions[..k]), actions[k], s.stored.operations[i].id)
    ensures actions[k].finding.Verified?
  {
    k := BroughtAbout(s, actions,
                      (t: System) => i < |t.stored.operations| && t.stored.operations[i].status.OpSucceeded?);
    CauseAt(s, actions[..k], actions[k], i);
  }

  /** And failed only if it holds one that found its task failed, or the saved end of its
      action with an error. */
  lemma FailedOnlyForCause(s: System, actions: seq<Action>, i: nat) returns (k: nat)
    requires Fresh(s) && i < |s.stored.operations| == |Run(s, actions).stored.operations|
    requires Run(s, actions).stored.operations[i].status.OpFailed?
    ensures k < |actions|
    ensures var t, op := Run(s, actions[..k]), s.stored.operations[i].id;
            (DecidesOn(t, actions[k], op) && actions[k].finding.TaskFailed?) || Settles(t, actions[k], op, ActionError)
  {
    k := BroughtAbout(s, actions, (t: System) => i < |t.stored.operations| && t.stored.operations[i].status.OpFailed?);
    CauseAt(s, actions[..k], actions[k], i);
  }

  /** So a workflow reads succeeded only if every operation of it was found verified. */
  lemma SucceededMeansVerified(s: System, actions: seq<Action>, i: nat) returns (k: nat)
    requires Fresh(s) && Run(s, actions).stored.status.Succeeded? && i < |s.stored.operations|
    ensures k < |actions| && DecidesOn(Run(s, actions[..k]), actions[k], s.stored.operations[i].id)
    ensures actions[k].finding.Verified?
  {
    InvAlways(s, actions);
    NeverPendingAgainInRun(s, actions);
    var w := Run(s, actions).stored;
    assert Finished(w.operations[i]);
    k := SucceededOnlyIfVerified(s, actions, i);
  }

  lemma CauseAt(s: System, before: seq<Action>, a: Action, i: nat)
    requires Fresh(s) && i < |s.stored.operations|
    ensures var t := Run(s, before);
            && i < |t.stored.operations| && t.stored.operations[i].id == s.stored.operations[i].id
            && EndsForCause(t, a, i)
  {
    InvAlways(s, before);
    NeverPendingAgainInRun(s, before);
    OperationEnds(Run(s, before), a, i);
  }

  /** What has ended stays as it is, and nothing more is sent. */
  lemma {:induction false} EndedStays(s: System, rest: seq<Action>)
    requires Inv(s) && Ended(s.stored.status)
    ensures Inv(Run(s, rest)) && Run(s, rest).stored == s.stored && Run(s, rest).log == s.log
  {
    if rest == [] {
    } else {
      var front, last := rest[..|rest| - 1], rest[|rest| - 1];
      EndedStays(s, front);
      InvKept(Run(s, front), last);
      EndedStep(Run(s, front), last);
    }
  }

  lemma EndedStep(s: System, a: Action)
    requires Inv(s) && Ended(s.stored.status)
    ensures Act(s, a).stored == s.stored && Act(s, a).log == s.log
  {
    DecidedInTime(s, a);
  }

  /** A saved "task failed" about the current operation, and a saved end of an action with
      an error, fail operation and workflow, and nothing is sent after that, whatever
      anybody does. */
  lemma FailureEndsTheRun(s: System, actions: seq<Action>, a: Action, op: string, rest: seq<Action>)
    requires Fresh(s)
    requires var t := Run(s, actions);
             (DecidesOn(t, a, op) && a.finding.TaskFailed?) || Settles(t, a, op, ActionError)
    ensures var t, u := Run(s, actions), Run(Act(Run(s, actions), a), rest);
            && u.log == t.log && u.stored.status.Failed?
            && forall i :: 0 <= i < |u.stored.operations| && u.stored.operations[i].id == op
                           ==> u.stored.operations[i].status.OpFailed?
  {
    var t := Run(s, actions);
    InvAlways(s, actions);
    InvKept(t, a);
    DecidedInTime(t, a);
    StatusChanges(t, a);
    assert Act(t, a).stored == Fails(t.stored, op);
    EndedStays(Act(t, a), rest);
  }

  /** While a workflow does not run and no mark is held, nothing is sent unless somebody
      approves or resumes it. */
  lemma {:induction false} SilentUntilResumed(s: System, rest: seq<Action>)
    requires Inv(s) && !s.stored.status.Running? && !s.worker.Marked?
    requires Approve !in rest && Resume !in rest
    ensures Run(s, rest).log == s.log
    ensures Inv(Run(s, rest)) && !Run(s, rest).stored.status.Running? && !Run(s, rest).worker.Marked?
  {
    if rest == [] {
    } else {
      var front, last := rest[..|rest| - 1], rest[|rest| - 1];
      assert last in rest;
      SilentUntilResumed(s, front);
      InvKept(Run(s, front), last);
      StatusChanges(Run(s, front), last);
      NoMarkWithoutRunning(Run(s, front), last);
    }
  }

  lemma NoMarkWithoutRunning(s: System, a: Action)
    requires !s.stored.status.Running? && !s.worker.Marked?
    ensures !Act(s, a).worker.Marked? && Act(s, a).log == s.log
  {
  }

  // --- what a lost mark costs ---------------------------------------------------------------

  lemma RunSnoc(s: System, actions: seq<Action>, a: Action)
    ensures Run(s, actions + [a]) == Act(Run(s, actions), a)
  {
  }

  lemma RunConcat(s: System, a: seq<Action>, b: seq<Action>)
    ensures Run(s, a + b) == Run(Run(s, a), b)
  {
    FoldConcat(Act, s, a, b);
  }

  /** A workflow that runs, between two rounds of the reconciler, with `op` to send. */
  ghost predicate Steady(s: System, op: string) {
    && s.stored.status.Running? && s.stored.hasParent && s.stored.current == "" && s.worker.Idle?
    && !AllSucceeded(s.stored.operations) && NextReady(s.stored.operations, 0) == Some(op) && op != ""
  }

  ghost predicate Plain(actions: seq<Action>) {
    Crash !in actions && forall i :: 0 <= i < |actions| ==> !LosesMark(actions[i])
  }

  lemma PlainConcat(a: seq<Action>, b: seq<Action>)
    requires Plain(a) && Plain(b)
    ensures Plain(a + b)
  {
  }

  /** A round whose mark is lost sends the operation and leaves the store as it was. */
  lemma RoundWithLostMark(s: System, op: string) returns (actions: seq<Action>)
    requires Steady(s, op)
    ensures Crash !in actions
    ensures Run(s, actions) == s.(log := s.log + [op], lostMarks := s.lostMarks + multiset{op})
  {
    var none: seq<Action> := [];
    var decide := Decide(true, TaskUnknown, Allowed, false);
    RunSnoc(s, none, Load);
    RunSnoc(s, none + [Load], decide);
    assert Run(s, none + [Load] + [decide]) == s.(worker := Marked(op), lostMarks := s.lostMarks + multiset{op});
    actions := none + [Load] + [decide];
    var sent := SendMarked(Run(s, actions), op);
    RunConcat(s, actions, sent);
    actions := actions + sent;
  }

  /** Once marked in vain, the operation is sent and its record finds nothing to update. */
  lemma SendMarked(s: System, op: string) returns (actions: seq<Action>)
    requires s.worker == Marked(op) && s.stored.current == "" && op != ""
    ensures Plain(actions) && Run(s, actions) == s.(log := s.log + [op], worker := Idle)
  {
    var none: seq<Action> := [];
    var execute := Execute(TaskStarted("task"));
    RunSnoc(s, none, execute);
    RunSnoc(s, none + [execute], Settle(true));
    actions := none + [execute] + [Settle(true)];
  }

  /** A round whose mark is kept sends it, too. */
  lemma RoundWithSavedMark(s: System, op: string) returns (actions: seq<Action>)
    requires Steady(s, op)
    ensures Plain(actions)
    ensures Run(s, actions).log == s.log + [op] && Run(s, actions).lostMarks == s.lostMarks
  {
    var none: seq<Action> := [];
    var decide, execute := Decide(true, TaskUnknown, Allowed, true), Execute(TaskStarted("task"));
    RunSnoc(s, none, Load);
    RunSnoc(s, none + [Load], decide);
    RunSnoc(s, none + [Load] + [decide], execute);
    actions := none + [Load] + [decide] + [execute];
  }

  /** What a decision that marks has seen. */
  lemma MarkDecided(s: System, a: Action, op: string)
    requires s.worker.Deciding? && a.Decide? && Decision(s, a).worker == Marked(op)
    ensures var seen := s.worker.snapshot;
            && seen.status.Running? && seen.hasParent && seen.current == "" && !AllSucceeded(seen.operations)
            && NextReady(seen.operations, 0) == Some(op) && Markable(s.stored, op) && a.precheck.Allowed?
            && Act(s, a) == DecideNext(s, op, Allowed, a.saved)
  {
  }

  /** Every lost mark lets its operation go out twice: whatever the state it is lost in,
      there is a continuation without a crash and without losing another mark that
      sends the operation two more times. */
  lemma LostMarkSendsTwice(s: System, a: Action, op: string) returns (rest: seq<Action>)
    requires Inv(s) && s.worker.Deciding? && LosesMark(a) && Decision(s, a).worker == Marked(op)
    ensures Plain(rest) && multiset(Run(Act(s, a), rest).log)[op] == multiset(s.log)[op] + 2
  {
    MarkDecided(s, a, op);
    var i :| 0 <= i < |s.stored.operations| && s.stored.operations[i].id == op;
    var t := Act(s, a);
    var first := SendMarked(t, op);
    var parent := GetParent(Run(t, first), op);
    RunConcat(t, first, parent);
    PlainConcat(first, parent);
    var second := RoundWithSavedMark(Run(t, first + parent), op);
    RunConcat(t, first + parent, second);
    PlainConcat(first + parent, second);
    rest := first + parent + second;
    assert Run(t, rest).log == s.log + [op] + [op];
  }

  /** If the parent task is not recorded yet, one more round records it. */
  lemma GetParent(s: System, op: string) returns (actions: seq<Action>)
    requires Steady(s.(stored := s.stored.(hasParent := true)), op)
    ensures Plain(actions) && Run(s, actions) == s.(stored := s.stored.(hasParent := true))
  {
    actions := [];
    if !s.stored.hasParent {
      var create := Decide(true, TaskUnknown, Allowed, true);
      RunSnoc(s, actions, Load);
      RunSnoc(s, actions + [Load], create);
      actions := actions + [Load] + [create];
    }
  }

  /** An operation that left pending gains no further attempt from anything. */
  lemma AttemptsStay(s: System, a: Action, op: string)
    requires !IsPending(s.stored.operations, op)
    ensures !IsPending(Act(s, a).stored.operations, op) && Attempts(Act(s, a), op) <= Attempts(s, op)
  {
    NeverPendingAgain(s, a);
    PendingBefore(s.stored.operations, Act(s, a).stored.operations);
  }

  lemma {:induction false} AttemptsStayForever(s: System, actions: seq<Action>, op: string)
    requires !IsPending(s.stored.operations, op)
    ensures !IsPending(Run(s, actions).stored.operations, op) && Attempts(Run(s, actions), op) <= Attempts(s, op)
  {
    if actions == [] {
    } else {
      AttemptsStayForever(s, actions[..|actions| - 1], op);
      AttemptsStay(Run(s, actions[..|actions| - 1]), actions[|actions| - 1], op);
    }
  }

  /** So the save of the mark is exactly what decides: it is kept if and only if the
      operation cannot go out more than once from here, whatever else happens. */
  lemma SentOnceIffMarkSaved(s: System, a: Action, op: string)
    requires Inv(s) && s.worker.Deciding? && a.Decide? && Decision(s, a).worker == Marked(op)
    ensures a.saved <==> forall rest :: multiset(Run(Act(s, a), rest).log)[op] <= multiset(s.log)[op] + 1
  {
    MarkDecided(s, a, op);
    if a.saved {
      MarkStoredOk(s.stored, s.log, op);
      forall rest ensures multiset(Run(Act(s, a), rest).log)[op] <= multiset(s.log)[op] + 1 {
        AttemptsStayForever(Act(s, a), rest, op);
      }
    } else {
      var rest := LostMarkSendsTwice(s, a, op);
    }
  }

  function Copies(op: string, n: nat): (r: seq<string>)
    ensures |r| == n && forall i :: 0 <= i < n ==> r[i] == op
  {
    seq(n, _ => op)
  }

  /** A fresh workflow, approved, has a first operation to send. */
  lemma FirstToSend(s: System) returns (op: string)
    requires Fresh(s)
    ensures NextReady(s.stored.operations, 0) == Some(op)
    ensures Steady(s.(stored := s.stored.(status := Running, hasParent := true)), op)
  {
    var i := FirstReady(s.stored.(status := Running), []);
    op := NextReady(s.stored.operations, 0).value;
    var j :| 0 <= j < |s.stored.operations| && Ready(s.stored.operations, j) && s.stored.operations[j].id == op;
  }

  lemma ApproveStarts(s: System)
    requires Fresh(s)
    ensures Run(s, [Approve]) == s.(stored := s.stored.(status := Running))
  {
    var none: seq<Action> := [];
    RunSnoc(s, none, Approve);
    assert none + [Approve] == [Approve];
  }

  /** From any fresh workflow to the state in which its first operation is to be sent. */
  lemma StartUp(s: System) returns (actions: seq<Action>, op: string)
    requires Fresh(s)
    ensures NextReady(s.stored.operations, 0) == Some(op)
    ensures Crash !in actions && Steady(Run(s, actions), op)
    ensures Run(s, actions).log == [] && Run(s, actions).lostMarks == multiset{}
  {
    op := FirstToSend(s);
    ApproveStarts(s);
    var parent := GetParent(s.(stored := s.stored.(status := Running)), op);
    RunConcat(s, [Approve], parent);
    actions := [Approve] + parent;
  }

  lemma {:induction false} LoseMarks(s: System, op: string, n: nat) returns (actions: seq<Action>)
    requires Steady(s, op) && s.log == [] && s.lostMarks == multiset{}
    ensures Crash !in actions
    ensures Run(s, actions).stored == s.stored && Run(s, actions).worker.Idle?
    ensures Run(s, actions).log == Copies(op, n) && Run(s, actions).lostMarks == multiset{}[op := n]
  {
    if n == 0 {
      actions := [];
    } else {
      var before := LoseMarks(s, op, n - 1);
      var round := RoundWithLostMark(Run(s, before), op);
      RunConcat(s, before, round);
      actions := before + round;
      assert Copies(op, n) == Copies(op, n - 1) + [op];
    }
  }

  /** The bound is attained: every fresh workflow has, for every `n`, a run without a
      crash that loses `n` marks of an operation and sends it `n + 1` times. */
  lemma BoundIsAttained(s: System, n: nat) returns (actions: seq<Action>, op: string)
    requires Fresh(s)
    ensures NextReady(s.stored.operations, 0) == Some(op)
    ensures Crash !in actions
    ensures Run(s, actions).log == Copies(op, n + 1) && Run(s, actions).lostMarks == multiset{}[op := n]
  {
    var start;
    start, op := StartUp(s);
    var lost := LoseMarks(Run(s, start), op, n);
    RunConcat(s, start, lost);
    var last := RoundWithSavedMark(Run(s, start + lost), op);
    RunConcat(s, start + lost, last);
    actions := start + lost + last;
    assert Copies(op, n + 1) == Copies(op, n) + [op];
  }

  /** In particular one lost mark, without any crash, sends one operation twice. */
  lemma LostMarkSubmitsTwice(s: System) returns (actions: seq<Action>)
    requires s == OneOperationWorkflow()
    ensures Fresh(s) && Crash !in actions
    ensures Run(s, actions).log == ["a", "a"] && Run(s, actions).lostMarks == multiset{"a"}
  {
    OneOperationIsFresh(s);
    var op;
    actions, op := BoundIsAttained(s, 1);
    assert op == "a";
    assert Copies(op, 2) == ["a", "a"];
  }

  function OneOperationWorkflow(): System {
    System(Stored(Proposed, "", false, [Operation("a", "p", "low", [], Pending, "")]), Idle, [], multiset{})
  }

  lemma OneOperationIsFresh(s: System)
    requires s == OneOperationWorkflow()
    ensures Fresh(s)
  {
    var ops := s.stored.operations;
    assert ops == [ops[0]];
    GraphOfIs(ops);
    var order := ["a"];
    TopologicalIsAcyclic(GraphOf(ops), order);
  }

  /** What makes an operation safe from being sent again: it left pending, and no
      worker holds its mark. */
  ghost predicate Retired(s: System, op: string) {
    !IsPending(s.stored.operations, op) && s.worker != Marked(op)
  }

  lemma RetiredStays(s: System, a: Action, op: string)
    requires Retired(s, op)
    ensures Retired(Act(s, a), op) && multiset(Act(s, a).log)[op] == multiset(s.log)[op]
  {
    NeverPendingAgain(s, a);
    PendingBefore(s.stored.operations, Act(s, a).stored.operations);
  }

  lemma {:induction false} RetiredForever(s: System, actions: seq<Action>, op: string)
    requires Retired(s, op)
    ensures Retired(Run(s, actions), op) && multiset(Run(s, actions).log)[op] == multiset(s.log)[op]
  {
    if actions == [] {
    } else {
      RetiredForever(s, actions[..|actions| - 1], op);
      RetiredStays(Run(s, actions[..|actions| - 1]), actions[|actions| - 1], op);
    }
  }

  /** After a crash that leaves a current operation without a task id, nothing that
      can happen sends that operation again. */
  lemma AmbiguousIsNeverResent(s: System, before: seq<Action>, after: seq<Action>)
    requires Fresh(s)
    ensures var t := Act(Run(s, before), Crash);
            t.stored.current != "" && Live(t.stored)
            ==> multiset(Run(t, after).log)[t.stored.current] == multiset(t.log)[t.stored.current]
  {
    InvAlways(s, before);
    var t := Act(Run(s, before), Crash);
    InvKept(Run(s, before), Crash);
    var op := t.stored.current;
    if op != "" && Live(t.stored) {
      CurrentIsNotPending(t.stored);
      RetiredForever(t, after, op);
    }
  }

  /** Only operations of the workflow are ever sent. */
  lemma {:induction false} LoggedIsKnown(s: System, actions: seq<Action>, i: int)
    requires Fresh(s) && 0 <= i < |Run(s, actions).log|
    ensures Run(s, actions).log[i] in GraphOf(s.stored.operations)
  {
    if actions == [] {
    } else {
      var front, last := actions[..|actions| - 1], actions[|actions| - 1];
      var t := Run(s, front);
      if i < |t.log| {
        LoggedIsKnown(s, front, i);
        LogGrows(t, last, i);
      } else {
        InvAlways(s, front);
        NeverPendingAgainInRun(s, front);
        SameShapeSameGraph(s.stored.operations, t.stored.operations);
        SentIsKnown(t, last, i);
      }
    }
  }

  lemma LogGrows(s: System, a: Action, i: int)
    requires 0 <= i < |s.log|
    ensures |s.log| <= |Act(s, a).log| && Act(s, a).log[i] == s.log[i]
  {
  }

  lemma SentIsKnown(s: System, a: Action, i: int)
    requires Inv(s) && |s.log| <= i < |Act(s, a).log|
    ensures Act(s, a).log[i] in GraphOf(s.stored.operations)
  {
    if s.worker.Marked? {
      DependenciesSent(s, s.worker.op);
    }
  }

  /** Submissions come in a topological order of the dependencies, and a workflow that
      reads "succeeded" has every operation succeeded. */
  lemma SubmittedInOrder(s: System, actions: seq<Action>)
    requires Fresh(s)
    ensures Topological(GraphOf(s.stored.operations), Run(s, actions).log)
    ensures Run(s, actions).stored.status.Succeeded? ==> AllSucceeded(Run(s, actions).stored.operations)
  {
    InvAlways(s, actions);
    NeverPendingAgainInRun(s, actions);
    SameShapeSameGraph(s.stored.operations, Run(s, actions).stored.operations);
  }

  /** "No step can advance" is never the answer: a running workflow with no current
      operation that is not finished always has a ready one. */
  lemma AlwaysAReadyStep(s: System, actions: seq<Action>)
    requires Fresh(s)
    ensures var w := Run(s, actions).stored;
            w.status.Running? && w.current == "" && !AllSucceeded(w.operations) ==> NextReady(w.operations, 0).Some?
  {
    InvAlways(s, actions);
    var w := Run(s, actions).stored;
    if w.status.Running? && w.current == "" && !AllSucceeded(w.operations) {
      var i := FirstReady(w, Run(s, actions).log);
      assert Ready(w.operations, i);
    }
  }

  lemma FirstReady(w: Stored, log: seq<string>) returns (i: int)
    requires StoredOk(w, log) && UnderWay(w) && w.current == "" && !AllSucceeded(w.operations)
    ensures Ready(w.operations, i)
  {
    var ops := w.operations;
    var waiting := set id | id in GraphOf(ops) && IsPending(ops, id);
    var k :| 0 <= k < |ops| && !Finished(ops[k]);
    GraphAt(ops, k);
    assert ops[k].status.Pending?;
    assert ops[k].id in waiting;
    var x := MinimalMember(GraphOf(ops), waiting);
    i :| 0 <= i < |ops| && ops[i].id == x && ops[i].status.Pending?;
    forall d | d in ops[i].dependsOn ensures FinishedId(ops, d) {
      assert NamesKnown(ops, ops[i]);
      NotWaiting(w, i, d, waiting);
    }
  }

  lemma NotWaiting(w: Stored, i: int, d: string, waiting: set<string>)
    requires ValidDag(w.operations) && Disciplined(w) && w.current == ""
    requires forall j :: 0 <= j < |w.operations| ==> !w.operations[j].status.OpSkipped?
    requires waiting == set id | id in GraphOf(w.operations) && IsPending(w.operations, id)
    requires 0 <= i < |w.operations| && d in w.operations[i].dependsOn && HasId(w.operations, d)
    requires !DependsInto(GraphOf(w.operations), w.operations[i].id, waiting)
    ensures FinishedId(w.operations, d)
  {
    var ops := w.operations;
    var j :| 0 <= j < |ops| && ops[j].id == d;
    GraphAt(ops, i);
    GraphAt(ops, j);
    assert DependsOn(GraphOf(ops), ops[i].id, d);
    assert d !in waiting;
    assert !IsPending(ops, d);
    assert Finished(ops[j]);
  }
}
