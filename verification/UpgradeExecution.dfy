/** A run of the rolling upgrade: ten ordered stages under one lock, two of which nest a
    complete switchover. */
module UpgradeExecution {
  import opened Wrappers
  import opened ArchitectureRequest
  import opened ClusterFleet
  import opened VipControl
  import opened RollingUpgrade
  import Switchover
  import LiveElection

  datatype StageStatus = PendingStage | RunningStage | SuccessStage | FailedStage

  datatype RunState = PendingRun | RunningRun | SucceededRun | FailedRun

  const STAGES := 10

  // --- what holds between stages ------------------------------------------------------------

  /** What stage `k` starts from. */
  function PhaseAt(k: nat): Phase {
    if k <= PREFLIGHT then Untouched
    else if k <= UPGRADE_REPLICAS then AsPlanned
    else if k <= SWITCH_AWAY then ReplicasDone
    else if k <= UPGRADE_ORIGINAL then Away
    else if k <= SWITCH_BACK then Attached
    else if k <= VERIFY_CLUSTER then Back
    else Complete
  }

  lemma SwitchingStaysSeen(before: set<Note>, later: nat, after: set<Note>, from: nat, p: Upgrade, current: Id,
                           newPrimary: Id, detach: bool)
    requires SeenSwitching(before, later, p, current, newPrimary, detach) && before <= after && from <= later
    ensures SeenSwitching(after, from, p, current, newPrimary, detach)
  {
    Switchover.HandedOverStays(before, later, after, from, current, newPrimary, false);
    forall id | IsMember(p.members, id) && !(detach && id == current)
      ensures VerifiedInTime(after, from, id, p, current, newPrimary)
    {
      assert VerifiedInTime(before, later, id, p, current, newPrimary);
    }
  }

  /** `fact` was noted in this run while the nodes stood as `phase` says. */
  ghost predicate NotedIn(p: Upgrade, notes: set<Note>, from: nat, fact: Fact, phase: Phase) {
    exists n :: n in notes && n.fact == fact && n.at >= from && NodesReached(p, phase, n.state.nodes)
  }

  ghost predicate AllNotedIn(p: Upgrade, notes: set<Note>, from: nat, check: Check, except: Id, phase: Phase) {
    forall i {:trigger NotedIn(p, notes, from, Passed(check, p.members[i].machine), phase)} ::
      0 <= i < |p.members| && p.members[i].machine != except
      ==> NotedIn(p, notes, from, Passed(check, p.members[i].machine), phase)
  }

  /** What stage `k` must have found, and in which state of the cluster. */
  ghost predicate Found(p: Upgrade, k: nat, notes: set<Note>, from: nat) {
    && (k == PREFLIGHT ==> AllNotedIn(p, notes, from, FoundReplicating, p.original, AsPlanned))
    && (k == PRECHECK ==> AllNotedIn(p, notes, from, UpgradePrecheck, NoId, AsPlanned))
    && (k == PRECHECK ==> PrecheckedFirst(p, notes, from + 1))
    && (k == VERIFY_REPLICAS ==> AllNotedIn(p, notes, from, FoundReplicating, p.original, ReplicasDone))
    && (k == SWITCH_AWAY ==> SeenSwitching(notes, from, p, p.original, p.temporary, true))
    && (k == UPGRADE_ORIGINAL ==> NotedIn(p, notes, from, Passed(FoundDetached, p.original), Away))
    && (k == UPGRADE_ORIGINAL ==> ComparedOffline(notes, from, p.original, p.temporary))
    && (k == VERIFY_ORIGINAL ==> NotedIn(p, notes, from, Passed(FoundReplicating, p.original), Attached))
    && (k == SWITCH_BACK ==> SeenSwitching(notes, from, p, p.temporary, p.original, false))
    && (k == VERIFY_CLUSTER ==> AllNotedIn(p, notes, from, FoundReplicating, p.original, Complete))
  }

  /** The lock was found held before stage `k` began, and the stage found what it must. */
  ghost predicate Evidence(p: Upgrade, k: nat, notes: set<Note>, from: nat) {
    NotedIn(p, notes, from, LockHeld, PhaseAt(k)) && Found(p, k, notes, from)
  }

  ghost predicate AllEvidence(p: Upgrade, k: nat, notes: set<Note>, from: nat) {
    forall j: nat {:trigger Evidence(p, j, notes, from)} :: j < k ==> Evidence(p, j, notes, from)
  }

  /** Nothing was sent before every precheck, nor unwatched. */
  ghost predicate Guarded(p: Upgrade, f: Fleet)
    reads f
  {
    |f.trace| == f.watchFrom + 1 || (f.watchWriters && PrecheckedFirst(p, f.notes, f.watchFrom + 1))
  }

  lemma NoteStays(p: Upgrade, before: set<Note>, after: set<Note>, from: nat, fact: Fact, phase: Phase)
    requires NotedIn(p, before, from, fact, phase) && before <= after
    ensures NotedIn(p, after, from, fact, phase)
  {
  }

  lemma NotesStay(p: Upgrade, before: set<Note>, after: set<Note>, from: nat, check: Check, except: Id, phase: Phase)
    requires AllNotedIn(p, before, from, check, except, phase) && before <= after
    ensures AllNotedIn(p, after, from, check, except, phase)
  {
    forall i | 0 <= i < |p.members| && p.members[i].machine != except
      ensures NotedIn(p, after, from, Passed(check, p.members[i].machine), phase)
    {
      NoteStays(p, before, after, from, Passed(check, p.members[i].machine), phase);
    }
  }

  lemma EvidenceStays(p: Upgrade, k: nat, before: set<Note>, after: set<Note>, from: nat)
    requires Evidence(p, k, before, from) && before <= after
    ensures Evidence(p, k, after, from)
  {
    if k == PREFLIGHT {
      NotesStay(p, before, after, from, FoundReplicating, p.original, AsPlanned);
    } else if k == PRECHECK {
      NotesStay(p, before, after, from, UpgradePrecheck, NoId, AsPlanned);
      PrechecksStay(p, before, after, from + 1);
    } else if k == VERIFY_REPLICAS {
      NotesStay(p, before, after, from, FoundReplicating, p.original, ReplicasDone);
    } else if k == SWITCH_AWAY {
      SwitchingStaysSeen(before, from, after, from, p, p.original, p.temporary, true);
    } else if k == SWITCH_BACK {
      SwitchingStaysSeen(before, from, after, from, p, p.temporary, p.original, false);
    } else if k == VERIFY_CLUSTER {
      NotesStay(p, before, after, from, FoundReplicating, p.original, Complete);
    }
  }

  lemma OneMoreStage(p: Upgrade, k: nat, before: set<Note>, after: set<Note>, from: nat)
    requires AllEvidence(p, k, before, from) && before <= after
    ensures AllEvidence(p, k, after, from)
    ensures Evidence(p, k, after, from) ==> AllEvidence(p, k + 1, after, from)
  {
    forall j: nat | j < k ensures Evidence(p, j, after, from) {
      EvidenceStays(p, j, before, after, from);
    }
  }

  lemma StageEnded(p: Upgrade, k: nat, before: set<Note>, held: set<Note>, after: set<Note>, from: nat)
    requires AllEvidence(p, k, before, from) && before <= held <= after
    ensures AllEvidence(p, k, after, from) && (k > PRECHECK ==> PrecheckedFirst(p, after, from + 1))
    ensures NotedIn(p, held, from, LockHeld, PhaseAt(k)) && Found(p, k, after, from)
            ==> AllEvidence(p, k + 1, after, from)
  {
    OneMoreStage(p, k, before, after, from);
    if k > PRECHECK {
      assert Evidence(p, PRECHECK, after, from);
    }
    if NotedIn(p, held, from, LockHeld, PhaseAt(k)) {
      NoteStays(p, held, after, from, LockHeld, PhaseAt(k));
    }
  }

  /** What every member was found to be in one state. */
  lemma FoundNow(p: Upgrade, notes: set<Note>, from: nat, check: Check, except: Id, phase: Phase, at: nat,
                 state: Snapshot)
    requires AllFound(notes, check, p.members, except, at, state) && from <= at && NodesReached(p, phase, state.nodes)
    ensures AllNotedIn(p, notes, from, check, except, phase)
  {
    forall i | 0 <= i < |p.members| && p.members[i].machine != except
      ensures NotedIn(p, notes, from, Passed(check, p.members[i].machine), phase)
    {
      assert Note(Passed(check, p.members[i].machine), at, state) in notes;
    }
  }

  /** Every member had passed its upgrade check before the first command of the run. */
  ghost predicate PrecheckedFirst(p: Upgrade, notes: set<Note>, start: nat) {
    forall m {:trigger PrecheckedAt(notes, m, start)} :: IsMember(p.members, m) ==> PrecheckedAt(notes, m, start)
  }

  ghost predicate PrecheckedAt(notes: set<Note>, m: Id, start: nat) {
    exists n :: n in notes && n.fact == Passed(UpgradePrecheck, m) && n.at == start
  }

  lemma PrechecksStay(p: Upgrade, before: set<Note>, after: set<Note>, start: nat)
    requires before <= after
    ensures PrecheckedFirst(p, before, start) ==> PrecheckedFirst(p, after, start)
  {
    forall m | PrecheckedAt(before, m, start) ensures PrecheckedAt(after, m, start) {
    }
  }

  /** The run has come to `phase`. */
  ghost predicate Arrived(p: Upgrade, phase: Phase, f: Fleet)
    reads f
  {
    && f.Valid() && Fits(p, f) && Reached(p, phase, f.nodes, f.holders, f.expected)
    && (if phase.Untouched? then AtMostOneWriter(f.nodes) ==> f.watchWriters else f.watchWriters)
  }

  /** What no stage changes: the watch, the past, and the notes taken. */
  twostate predicate Kept(f: Fleet)
    reads f
  {
    && f.watchFrom == old(f.watchFrom) && f.watchWriters == old(f.watchWriters) && f.watchLinks == old(f.watchLinks)
    && old(f.notes) <= f.notes && old(f.faults) <= f.faults && old(f.silent) <= f.silent
    && old(f.trace) <= f.trace
  }

  /** How a stage that leads to `phase` ends; only the release of the lock touches it. */
  twostate predicate Ends(p: Upgrade, phase: Phase, f: Fleet, ok: bool)
    reads f
  {
    && f.Valid() && Kept(f) && f.lockOwner == old(f.lockOwner) && (ok ==> Arrived(p, phase, f))
  }

  // --- the stages -------------------------------------------------------------------------------

  method PreflightStage(f: Fleet, p: Upgrade) returns (ok: bool)
    requires Arrived(p, Untouched, f) && f.lockOwner.Some?
    modifies f
    ensures Ends(p, AsPlanned, f, ok) && f.trace == old(f.trace)
    ensures ok ==> Found(p, PREFLIGHT, f.notes, f.watchFrom)
    ensures ok ==> f.faults == old(f.faults)
    ensures f.faults == old(f.faults) && Executable(p, f.nodes, f.holders, old(f.expected)) ==> ok
  {
    ok := Preflight(f, p);
    if ok {
      FoundNow(p, f.notes, f.watchFrom, FoundReplicating, p.original, AsPlanned, |f.trace|, f.Now());
    }
    PlannedHasOneWriter(f.nodes, p, ok);
  }

  lemma PlannedHasOneWriter(nodes: map<Id, Node>, p: Upgrade, planned: bool)
    requires planned ==> Planned(nodes, p.original, p.target)
    ensures planned ==> AtMostOneWriter(nodes)
  {
  }

  method PrecheckStage(f: Fleet, p: Upgrade) returns (ok: bool)
    requires Arrived(p, AsPlanned, f) && f.lockOwner.Some? && |f.trace| == f.watchFrom + 1
    modifies f
    ensures Ends(p, AsPlanned, f, ok) && f.trace == old(f.trace)
    ensures ok ==> Found(p, PRECHECK, f.notes, f.watchFrom)
    ensures ok ==> f.faults == old(f.faults)
    ensures f.faults == old(f.faults) ==> ok
  {
    ok := PrecheckAll(f, p.members);
    if ok {
      FoundNow(p, f.notes, f.watchFrom, UpgradePrecheck, NoId, AsPlanned, |f.trace|, f.Now());
      PrecheckedNow(p, f.notes, |f.trace|, f.Now());
    }
  }

  lemma PrecheckedNow(p: Upgrade, notes: set<Note>, at: nat, state: Snapshot)
    requires DistinctMembers(p.members) && AllFound(notes, UpgradePrecheck, p.members, NoId, at, state)
    ensures PrecheckedFirst(p, notes, at)
  {
    forall m | IsMember(p.members, m) ensures PrecheckedAt(notes, m, at) {
      var i :| 0 <= i < |p.members| && p.members[i].machine == m;
      assert Note(Passed(UpgradePrecheck, p.members[i].machine), at, state) in notes;
    }
  }

  method UpgradeReplicasStage(f: Fleet, p: Upgrade) returns (ok: bool)
    requires Arrived(p, AsPlanned, f) && f.lockOwner.Some?
    modifies f
    ensures Ends(p, ReplicasDone, f, ok)
    ensures ok ==> f.faults == old(f.faults)
    ensures f.faults == old(f.faults) ==> ok
  {
    ok := UpgradeReplicas(f, p);
  }

  method VerifyReplicasStage(f: Fleet, p: Upgrade) returns (ok: bool)
    requires Arrived(p, ReplicasDone, f) && f.lockOwner.Some?
    modifies f
    ensures Ends(p, ReplicasDone, f, ok) && (ok ==> Found(p, VERIFY_REPLICAS, f.notes, f.watchFrom))
    ensures ok ==> f.faults == old(f.faults)
    ensures f.faults == old(f.faults) ==> ok
  {
    ok := VerifyReplicas(f, p);
    if ok {
      FoundNow(p, f.notes, f.watchFrom, FoundReplicating, p.original, ReplicasDone, |f.trace|, f.Now());
    }
  }

  method SwitchAwayStage(f: Fleet, p: Upgrade, probes: seq<LiveElection.Probe>) returns (ok: bool)
    requires Arrived(p, ReplicasDone, f) && f.lockOwner.Some? && |probes| == |p.members|
    modifies f
    ensures Ends(p, Away, f, ok) && (ok ==> Found(p, SWITCH_AWAY, f.notes, f.watchFrom))
    ensures ok ==> f.faults == old(f.faults)
    ensures f.faults == old(f.faults) && Movable(p) && Answered(p.members, probes, p.original, p.temporary) ==> ok
  {
    ghost var from := |f.trace|;
    ok := SwitchAway(f, p, probes);
    if ok {
      SwitchingStaysSeen(f.notes, from, f.notes, f.watchFrom, p, p.original, p.temporary, true);
    }
  }

  method UpgradeOriginalStage(f: Fleet, p: Upgrade) returns (ok: bool)
    requires Arrived(p, Away, f) && f.lockOwner.Some?
    modifies f
    ensures Ends(p, Attached, f, ok) && (ok ==> Found(p, UPGRADE_ORIGINAL, f.notes, f.watchFrom))
    ensures ok ==> f.faults == old(f.faults)
    ensures f.faults == old(f.faults) ==> ok
  {
    ghost var from := |f.trace|;
    ok := UpgradeOriginal(f, p);
    if ok {
      ComparedSince(f.notes, from, f.watchFrom, p.original, p.temporary);
    }
  }

  method VerifyOriginalStage(f: Fleet, p: Upgrade) returns (ok: bool)
    requires Arrived(p, Attached, f) && f.lockOwner.Some?
    modifies f
    ensures Ends(p, Attached, f, ok) && (ok ==> Found(p, VERIFY_ORIGINAL, f.notes, f.watchFrom))
    ensures ok ==> f.faults == old(f.faults)
    ensures f.faults == old(f.faults) ==> ok
  {
    ok := VerifyReplica(f, p.original, p.temporary, p.target);
  }

  method SwitchBackStage(f: Fleet, p: Upgrade, probes: seq<LiveElection.Probe>) returns (ok: bool)
    requires Arrived(p, Attached, f) && f.lockOwner.Some? && |probes| == |p.members|
    modifies f
    ensures Ends(p, Back, f, ok) && (ok ==> Found(p, SWITCH_BACK, f.notes, f.watchFrom))
    ensures ok ==> f.faults == old(f.faults)
    ensures f.faults == old(f.faults) && Movable(p) && Answered(p.members, probes, p.temporary, p.original)
            ==> ok && p.original in f.nodes && (f.silent == old(f.silent) ==> f.nodes[p.original].source.None?)
  {
    ghost var from := |f.trace|;
    ok := SwitchBack(f, p, probes);
    if ok {
      SwitchingStaysSeen(f.notes, from, f.notes, f.watchFrom, p, p.temporary, p.original, false);
    }
  }

  method VerifyClusterStage(f: Fleet, p: Upgrade) returns (ok: bool)
    requires Arrived(p, Back, f) && f.lockOwner.Some?
    modifies f
    ensures Ends(p, Complete, f, ok) && (ok ==> Found(p, VERIFY_CLUSTER, f.notes, f.watchFrom))
    ensures ok ==> f.faults == old(f.faults)
    ensures f.faults == old(f.faults) && p.original in old(f.nodes) && old(f.nodes)[p.original].source.None? ==> ok
  {
    ok := VerifyCluster(f, p);
    if ok {
      FoundNow(p, f.notes, f.watchFrom, FoundReplicating, p.original, Complete, |f.trace|, f.Now());
    }
  }

  method ReleaseStage(f: Fleet, p: Upgrade, owner: LockId) returns (ok: bool)
    requires Arrived(p, Complete, f) && f.lockOwner == Some(owner)
    modifies f
    ensures f.Valid() && Kept(f) && f.lockOwner == (if ok then None else Some(owner))
    ensures ok ==> Arrived(p, Complete, f)
    ensures ok ==> f.faults == old(f.faults)
    ensures f.faults == old(f.faults) ==> ok
  {
    ok := f.ReleaseLock(owner);
  }

  /** What success leaves behind. */
  ghost predicate Upgraded(p: Upgrade, f: Fleet, from: nat)
    reads f
  {
    && Finished(f.nodes, p.original, p.target) && HeldAlone(p.configs, f.holders, p.original)
    && AllEvidence(p, STAGES, f.notes, from)
  }

  lemma MayStart(p: Upgrade, f: Fleet)
    requires f.Valid() && Fits(p, f) && f.watchWriters == AtMostOneWriter(f.nodes)
    ensures Arrived(p, Untouched, f)
  {
  }

  lemma AllArrived(p: Upgrade, f: Fleet)
    requires Arrived(p, Complete, f) && AllEvidence(p, STAGES, f.notes, f.watchFrom)
    ensures Upgraded(p, f, f.watchFrom)
  {
  }

  // --- the run ----------------------------------------------------------------------------------------------

  const PREFLIGHT := 0
  const PRECHECK := 1
  const UPGRADE_REPLICAS := 2
  const VERIFY_REPLICAS := 3
  const SWITCH_AWAY := 4
  const UPGRADE_ORIGINAL := 5
  const VERIFY_ORIGINAL := 6
  const SWITCH_BACK := 7
  const VERIFY_CLUSTER := 8

  /** Nothing in the answers to come, or on the addresses, stands in the way. */
  ghost predicate Answering(p: Upgrade, away: seq<LiveElection.Probe>, back: seq<LiveElection.Probe>) {
    && Movable(p) && Answered(p.members, away, p.original, p.temporary)
    && Answered(p.members, back, p.temporary, p.original)
  }

  /** Then nothing but a failing command or probe can stop a run that stands at stage `k`. */
  ghost predicate SmoothFrom(p: Upgrade, k: nat, nodes: map<Id, Node>, holders: map<Vip, set<Id>>,
                             expected: map<Vip, Id>) {
    && (k == PREFLIGHT ==> Executable(p, nodes, holders, expected))
    && (k == VERIFY_CLUSTER ==> p.original in nodes && nodes[p.original].source.None?)
  }

  class UpgradeRun {
    const fleet: Fleet
    const plan: Upgrade
    const owner: LockId
    const probesAway: seq<LiveElection.Probe>   // what the nodes will answer during the
    const probesBack: seq<LiveElection.Probe>   // two elections
    var status: RunState
    var stages: seq<StageStatus>
    var currentStage: nat

    constructor (fleet: Fleet, plan: Upgrade, owner: LockId, probesAway: seq<LiveElection.Probe>,
                 probesBack: seq<LiveElection.Probe>)
      requires |probesAway| == |probesBack| == |plan.members|
      ensures this.fleet == fleet && this.plan == plan && this.owner == owner
      ensures |this.probesAway| == |this.probesBack| == |plan.members|
      ensures status.PendingRun? && StagesDone(0)
    {
      this.fleet, this.plan, this.owner, this.probesAway, this.probesBack := fleet, plan, owner, probesAway, probesBack;
      status, currentStage := PendingRun, 0;
      stages := seq(STAGES, _ => PendingStage);
    }

    /** The first `k` stages succeeded and no other has begun. */
    ghost predicate StagesDone(k: nat)
      reads this
    {
      |stages| == STAGES && forall i :: 0 <= i < STAGES ==> stages[i] == if i < k then SuccessStage else PendingStage
    }

    /** The current stage failed: it is the only one that did, and none behind it has
        begun. */
    ghost predicate Stopped()
      reads this
    {
      && status.FailedRun? && |stages| == STAGES && currentStage < STAGES
      && forall i :: 0 <= i < STAGES ==>
                       stages[i] == if i < currentStage then SuccessStage
                                    else if i == currentStage then FailedStage
                                    else PendingStage
    }

    /** Stage `k` may begin, or all are done. */
    ghost predicate Ready(k: nat)
      reads fleet
    {
      && Arrived(plan, PhaseAt(k), fleet) && |probesAway| == |probesBack| == |plan.members|
      && fleet.lockOwner == (if k < STAGES then Some(owner) else None)
      && (k <= UPGRADE_REPLICAS ==> |fleet.trace| == fleet.watchFrom + 1)
    }

    ghost predicate Smooth(k: nat)
      reads fleet
    {
      SmoothFrom(plan, k, fleet.nodes, fleet.holders, fleet.expected)
    }

    ghost predicate Answers() {
      Answering(plan, probesAway, probesBack)
    }

    /** The stage table, up to the first switchover. */
    method PerformBefore(k: nat) returns (ok: bool)
      requires k < SWITCH_AWAY && Ready(k)
      modifies fleet
      ensures Kept(fleet) && fleet.Valid()
      ensures ok ==> Ready(k + 1) && Found(plan, k, fleet.notes, fleet.watchFrom)
      ensures k <= PRECHECK ==> fleet.trace == old(fleet.trace)
      ensures !ok ==> fleet.lockOwner == Some(owner)
      ensures ok ==> fleet.faults == old(fleet.faults)
      ensures fleet.NoFault() && Answers() && old(Smooth(k)) ==> ok && Smooth(k + 1)
    {
      if k == PREFLIGHT { ok := PreflightStage(fleet, plan); }
      else if k == PRECHECK { ok := PrecheckStage(fleet, plan); }
      else if k == UPGRADE_REPLICAS { ok := UpgradeReplicasStage(fleet, plan); }
      else { ok := VerifyReplicasStage(fleet, plan); }
    }

    /** Its two switchovers. */
    method PerformSwitch(k: nat) returns (ok: bool)
      requires (k == SWITCH_AWAY || k == SWITCH_BACK) && Ready(k)
      modifies fleet
      ensures Kept(fleet) && fleet.Valid()
      ensures ok ==> Ready(k + 1) && Found(plan, k, fleet.notes, fleet.watchFrom)
      ensures !ok ==> fleet.lockOwner == Some(owner)
      ensures ok ==> fleet.faults == old(fleet.faults)
      ensures fleet.NoFault() && Answers() && old(Smooth(k)) ==> ok && Smooth(k + 1)
    {
      if k == SWITCH_AWAY { ok := SwitchAwayStage(fleet, plan, probesAway); }
      else { ok := SwitchBackStage(fleet, plan, probesBack); }
    }

    /** What lies between them. */
    method PerformBetween(k: nat) returns (ok: bool)
      requires (k == UPGRADE_ORIGINAL || k == VERIFY_ORIGINAL) && Ready(k)
      modifies fleet
      ensures Kept(fleet) && fleet.Valid()
      ensures ok ==> Ready(k + 1) && Found(plan, k, fleet.notes, fleet.watchFrom)
      ensures !ok ==> fleet.lockOwner == Some(owner)
      ensures ok ==> fleet.faults == old(fleet.faults)
      ensures fleet.NoFault() && Answers() && old(Smooth(k)) ==> ok && Smooth(k + 1)
    {
      if k == UPGRADE_ORIGINAL { ok := UpgradeOriginalStage(fleet, plan); }
      else { ok := VerifyOriginalStage(fleet, plan); }
    }

    /** And what follows them. */
    method PerformAfter(k: nat) returns (ok: bool)
      requires SWITCH_BACK < k < STAGES && Ready(k)
      modifies fleet
      ensures Kept(fleet) && fleet.Valid()
      ensures ok ==> Ready(k + 1) && Found(plan, k, fleet.notes, fleet.watchFrom)
      ensures !ok ==> fleet.lockOwner == Some(owner)
      ensures ok ==> fleet.faults == old(fleet.faults)
      ensures fleet.NoFault() && Answers() && old(Smooth(k)) ==> ok && Smooth(k + 1)
    {
      if k == VERIFY_CLUSTER { ok := VerifyClusterStage(fleet, plan); }
      else { ok := ReleaseStage(fleet, plan, owner); }
    }

    method Perform(k: nat) returns (ok: bool)
      requires k < STAGES && Ready(k)
      modifies fleet
      ensures Kept(fleet) && fleet.Valid()
      ensures ok ==> Ready(k + 1) && Found(plan, k, fleet.notes, fleet.watchFrom)
      ensures k <= PRECHECK ==> fleet.trace == old(fleet.trace)
      ensures !ok ==> fleet.lockOwner == Some(owner)
      ensures ok ==> fleet.faults == old(fleet.faults)
      ensures fleet.NoFault() && Answers() && old(Smooth(k)) ==> ok && Smooth(k + 1)
    {
      if k < SWITCH_AWAY { ok := PerformBefore(k); }
      else if k == SWITCH_AWAY || k == SWITCH_BACK { ok := PerformSwitch(k); }
      else if k < SWITCH_BACK { ok := PerformBetween(k); }
      else { ok := PerformAfter(k); }
    }

    /** runStage. */
    method RunStage(k: nat) returns (ok: bool)
      requires k < STAGES && Ready(k) && StagesDone(k)
      modifies this, fleet
      ensures Kept(fleet) && fleet.Valid()
      ensures ok ==> Ready(k + 1) && Found(plan, k, fleet.notes, fleet.watchFrom)
      ensures k <= PRECHECK ==> fleet.trace == old(fleet.trace)
      ensures !ok ==> fleet.lockOwner == Some(owner)
      ensures ok ==> fleet.faults == old(fleet.faults)
      ensures fleet.NoFault() && Answers() && old(Smooth(k)) ==> ok && Smooth(k + 1)
      ensures if ok then StagesDone(k + 1) && status.RunningRun? else Stopped() && currentStage == k
    {
      Begin(k);
      ok := Perform(k);
      Finish(k, ok);
    }

    method Begin(k: nat)
      requires k < STAGES && StagesDone(k)
      modifies this
      ensures status.RunningRun? && currentStage == k && stages == old(stages)[k := RunningStage]
    {
      status, currentStage, stages := RunningRun, k, stages[k := RunningStage];
    }

    method Finish(k: nat, ok: bool)
      requires |stages| == STAGES && k < STAGES && currentStage == k && status.RunningRun?
      requires forall i :: 0 <= i < STAGES && i != k ==> stages[i] == if i < k then SuccessStage else PendingStage
      modifies this
      ensures if ok then StagesDone(k + 1) && status.RunningRun? else Stopped() && currentStage == k
    {
      stages := stages[k := if ok then SuccessStage else FailedStage];
      if !ok {
        status := FailedRun;
      }
    }

    /** failRun: the stage is marked failed without having begun. */
    method FailRun(k: nat)
      requires k < STAGES && StagesDone(k)
      modifies this
      ensures Stopped() && currentStage == k
    {
      status, currentStage, stages := FailedRun, k, stages[k := FailedStage];
    }

    /** The lock is asked for between the stages. */
    method FindLockHeld(k: nat) returns (ok: bool)
      requires k < STAGES && Ready(k)
      modifies fleet`faults, fleet`notes, fleet`last
      ensures Ready(k) && fleet.Grows() && (ok <==> fleet.faults == old(fleet.faults))
      ensures ok ==> NotedIn(plan, fleet.notes, fleet.watchFrom, LockHeld, PhaseAt(k))
    {
      ok := fleet.Confirm(LockHeld);
      assert ok ==> Note(LockHeld, |fleet.trace|, fleet.Now()) in fleet.notes;
    }

    /** One round of the loop: a lost lock stops the run before the stage begins. */
    method NextStage(k: nat) returns (ok: bool)
      requires k < STAGES && Ready(k) && StagesDone(k) && AllEvidence(plan, k, fleet.notes, fleet.watchFrom)
      modifies this, fleet
      ensures Kept(fleet) && fleet.Valid()
      ensures ok ==> Ready(k + 1) && fleet.watchWriters && AllEvidence(plan, k + 1, fleet.notes, fleet.watchFrom)
      ensures !ok ==> fleet.lockOwner == Some(owner) && Guarded(plan, fleet)
      ensures ok ==> fleet.faults == old(fleet.faults)
      ensures fleet.NoFault() && Answers() && old(Smooth(k)) ==> ok && Smooth(k + 1)
      ensures if ok then StagesDone(k + 1) else Stopped()
    {
      ok := FindLockHeld(k);
      ghost var notes := fleet.notes;
      if ok {
        ok := RunStage(k);
      } else {
        FailRun(k);
      }
      StageEnded(plan, k, old(fleet.notes), notes, fleet.notes, fleet.watchFrom);
    }

    /** The stages in order, while each succeeds and the lock is renewed. */
    method RunStages() returns (ok: bool)
      requires Ready(0) && StagesDone(0)
      modifies this, fleet
      ensures Kept(fleet) && fleet.Valid()
      ensures if ok then StagesDone(STAGES) && Ready(STAGES) else Stopped() && fleet.lockOwner == Some(owner)
      ensures ok ==> AllEvidence(plan, STAGES, fleet.notes, fleet.watchFrom)
      ensures Guarded(plan, fleet)
      ensures old(fleet.faults) <= fleet.faults
      ensures ok ==> fleet.faults == old(fleet.faults)
      ensures fleet.NoFault() && Answers() && old(Smooth(0)) ==> ok
    {
      ghost var smooth, silent := Smooth(0), fleet.silent;
      var k := 0;
      while k < STAGES
        invariant 0 <= k <= STAGES && Kept(fleet) && StagesDone(k)
        // Ready(k), piece by piece
        invariant |probesAway| == |probesBack| == |plan.members|
        invariant fleet.lockOwner == (if k < STAGES then Some(owner) else None)
        invariant k <= UPGRADE_REPLICAS ==> |fleet.trace| == fleet.watchFrom + 1
        invariant fleet.Valid() && Arrived(plan, PhaseAt(k), fleet)
        invariant Ready(k)
        invariant AllEvidence(plan, k, fleet.notes, fleet.watchFrom)
        invariant k > 0 ==> fleet.watchWriters
        invariant fleet.faults == old(fleet.faults)
        invariant fleet.silent == silent && Answers() && smooth ==> Smooth(k)
      {
        ok := NextStage(k);
        if !ok {
          return;
        }
        k := k + 1;
      }
      ok := true;
      assert Evidence(plan, PRECHECK, fleet.notes, fleet.watchFrom);
    }

    /** The stages under a watch: two writers are forbidden as soon as the preflight
        has found one, and link order is if it holds now. */
    method RunWatched() returns (ok: bool)
      requires fleet.Valid() && fleet.lockOwner == Some(owner) && Fits(plan, fleet) && StagesDone(0)
      requires |probesAway| == |probesBack| == |plan.members|
      modifies this, fleet
      ensures fleet.Valid() && old(|fleet.trace|) <= |fleet.trace| && fleet.watchFrom == old(|fleet.trace|) - 1
      ensures |fleet.trace| == old(|fleet.trace|) || fleet.watchWriters
      ensures |fleet.trace| == old(|fleet.trace|) || PrecheckedFirst(plan, fleet.notes, old(|fleet.trace|))
      ensures fleet.watchLinks == old(LinksOrdered(fleet.nodes))
      ensures ok ==> StagesDone(STAGES) && fleet.lockOwner.None? && Upgraded(plan, fleet, fleet.watchFrom)
      ensures !ok ==> Stopped() && fleet.lockOwner == Some(owner)
      ensures old(fleet.faults) <= fleet.faults
      ensures ok ==> fleet.faults == old(fleet.faults)
      ensures fleet.NoFault() && Answers() && old(Smooth(0)) ==> ok
    {
      ghost var writers, links := AtMostOneWriter(fleet.nodes), LinksOrdered(fleet.nodes);
      fleet.Watch(writers, links);
      MayStart(plan, fleet);
      ok := RunStages();
      if ok {
        AllArrived(plan, fleet);
      }
    }

    /** execute. Whatever fails and wherever the run ends: from its first command on
        no state has two writers, a replica is never older than its source if that
        held at the start, and success means the whole cluster at the target version
        behind the original primary, which holds every address alone, after two
        switchovers that each drained, caught up and verified. */
    method Execute()
      requires fleet.Valid() && Fits(plan, fleet) && StagesDone(0)
      requires |probesAway| == |probesBack| == |plan.members|
      modifies this, fleet
      ensures fleet.Valid() && old(|fleet.trace|) <= |fleet.trace|
      ensures |fleet.trace| == old(|fleet.trace|) || OneWriterFrom(fleet.trace, old(|fleet.trace|) - 1)
      ensures |fleet.trace| == old(|fleet.trace|) || PrecheckedFirst(plan, fleet.notes, old(|fleet.trace|))
      ensures old(LinksOrdered(fleet.nodes)) ==> OrderedFrom(fleet.trace, old(|fleet.trace|) - 1)
      ensures old(fleet.lockOwner).Some? ==>
                && Stopped() && currentStage == 0
                && fleet.trace == old(fleet.trace) && fleet.lockOwner == old(fleet.lockOwner)
      ensures if status.SucceededRun? then StagesDone(STAGES) && fleet.lockOwner.None? else Stopped()
      ensures old(fleet.lockOwner).None? ==> fleet.GivenBack()
      ensures status.SucceededRun? ==> Upgraded(plan, fleet, old(|fleet.trace|) - 1)
      ensures status.SucceededRun? ==> fleet.faults == old(fleet.faults)
      ensures fleet.NoFault() && old(fleet.lockOwner).None? ==>
                Answers() && old(Smooth(0)) ==> status.SucceededRun?
    {
      var acquired := fleet.AcquireLock(owner);
      if acquired {
        RunLocked();
      } else {
        FailRun(PREFLIGHT);
      }
    }

    /** The same once the lock is held; a run that fails offers it back. */
    method RunLocked()
      requires fleet.Valid() && fleet.lockOwner == Some(owner) && Fits(plan, fleet) && StagesDone(0)
      requires |probesAway| == |probesBack| == |plan.members|
      modifies this, fleet
      ensures fleet.Valid() && old(|fleet.trace|) <= |fleet.trace| && old(fleet.faults) <= fleet.faults
      ensures |fleet.trace| == old(|fleet.trace|) || OneWriterFrom(fleet.trace, old(|fleet.trace|) - 1)
      ensures |fleet.trace| == old(|fleet.trace|) || PrecheckedFirst(plan, fleet.notes, old(|fleet.trace|))
      ensures old(LinksOrdered(fleet.nodes)) ==> OrderedFrom(fleet.trace, old(|fleet.trace|) - 1)
      ensures if status.SucceededRun? then StagesDone(STAGES) && fleet.lockOwner.None? else Stopped()
      ensures fleet.GivenBack()
      ensures status.SucceededRun? ==> Upgraded(plan, fleet, old(|fleet.trace|) - 1)
      ensures status.SucceededRun? ==> fleet.faults == old(fleet.faults)
      ensures fleet.NoFault() && Answers() && old(Smooth(0)) ==> status.SucceededRun?
    {
      var ok := RunWatched();
      WatchedStates(fleet);
      if ok {
        status := SucceededRun;
      } else {
        ghost var notes := fleet.notes;
        var released := fleet.ReleaseLock(owner);
        PrechecksStay(plan, notes, fleet.notes, old(|fleet.trace|));
      }
    }
  }

  ghost predicate OneWriterFrom(trace: seq<Snapshot>, from: int) {
    forall i :: 0 <= i < |trace| && from <= i ==> AtMostOneWriter(trace[i].nodes)
  }

  ghost predicate OrderedFrom(trace: seq<Snapshot>, from: int) {
    forall i :: 0 <= i < |trace| && from <= i ==> LinksOrdered(trace[i].nodes)
  }

  lemma WatchedStates(f: Fleet)
    requires f.Valid()
    ensures f.watchWriters ==> OneWriterFrom(f.trace, f.watchFrom)
    ensures f.watchLinks ==> OrderedFrom(f.trace, f.watchFrom)
  {
    assert forall i :: f.watchFrom <= i < |f.trace| ==> Allowed(f.watchWriters, f.watchLinks, f.trace[i].nodes);
  }
}
