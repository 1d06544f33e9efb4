/** The online master_slave switchover of the architecture executor, on its normal,
    forced and repair paths. Every command may fail with or without effect, and the
    run then follows the path the executor takes. */
module Switchover {
  import opened Wrappers
  import opened ArchitectureRequest
  import opened ClusterFleet
  import opened VipControl
  import LiveElection

  datatype Step =
    | AcquireLock | Preflight | ElectCandidate | CheckVipConflict | FreezeOldMaster | KillSessions
    | ForceGate | FenceOldMaster | PromoteNewMaster | RepointReplicas | VerifyTopology | PtRepair
    | PtVerify | MoveVip | VerifySingleVip | ResumeBusiness | RenewLock | ReleaseLock

  datatype RunStatus = Succeeded | Failed(step: Step)

  /** Where configureArchitectureTopology points a replica: its requested source if
      that takes part, else the primary. */
  function SourceFor(nodes: seq<NodeRequest>, primary: Id, node: NodeRequest): Id {
    if node.sourceMachine != NoId && Includes(nodes, node.sourceMachine) then node.sourceMachine else primary
  }

  /** No node but the primary asks to be a master, which rules out the ring of masters
      that the source builds for several of them. */
  ghost predicate OnlyMaster(nodes: seq<NodeRequest>, primary: Id) {
    forall i :: 0 <= i < |nodes| && nodes[i].role.Master? ==> nodes[i].machine == primary
  }

  ghost predicate InFleet(nodes: seq<NodeRequest>, ids: set<Id>) {
    forall i :: 0 <= i < |nodes| ==> nodes[i].machine in ids
  }

  ghost predicate Named(nodes: seq<NodeRequest>) {
    forall i :: 0 <= i < |nodes| ==> nodes[i].machine != NoId
  }

  ghost predicate TopologyFor(nodes: seq<NodeRequest>, primary: Id, ids: set<Id>) {
    NodesAccepted(nodes) && OnlyMaster(nodes, primary) && InFleet(nodes, ids)
  }

  /** No replica would be pointed at a newer server than itself. */
  ghost predicate SourcesNotNewer(nodes: seq<NodeRequest>, primary: Id, fleet: map<Id, Node>) {
    forall i :: && 0 <= i < |nodes| && nodes[i].machine != primary
                && nodes[i].machine in fleet && SourceFor(nodes, primary, nodes[i]) in fleet
                ==> fleet[SourceFor(nodes, primary, nodes[i])].version <= fleet[nodes[i].machine].version
  }

  ghost predicate SameVersions(a: map<Id, Node>, b: map<Id, Node>) {
    a.Keys == b.Keys && forall n :: n in a ==> a[n].version == b[n].version
  }

  /** Nodes outside the request, and the primary, are left alone; nothing that was
      fenced is opened. */
  ghost predicate TopologyFrame(before: map<Id, Node>, after: map<Id, Node>, nodes: seq<NodeRequest>, primary: Id) {
    && SameVersions(before, after)
    && (forall n :: n in before && (n == primary || !Includes(nodes, n)) ==> after[n] == before[n])
    && (forall n :: n in before && before[n].Fenced() ==> after[n].Fenced())
  }

  ghost predicate Repointed(fleet: map<Id, Node>, all: seq<NodeRequest>, k: nat, primary: Id)
    requires k <= |all|
  {
    forall i :: 0 <= i < k && all[i].machine != primary
                ==> all[i].machine in fleet && fleet[all[i].machine].source == Some(SourceFor(all, primary, all[i]))
                    && fleet[all[i].machine].Fenced() && fleet[all[i].machine].offline
  }

  /** What the request asks of the sources, in its own words: a replica follows the node
      it names, if that takes part, and the primary otherwise. */
  ghost predicate SourcesAsAsked(fleet: map<Id, Node>, nodes: seq<NodeRequest>, primary: Id) {
    forall n :: n in nodes && n.machine != primary ==>
      && n.machine in fleet
      && (NamesPresent(nodes, n) ==> fleet[n.machine].source == Some(n.sourceMachine))
      && (!NamesPresent(nodes, n) ==> fleet[n.machine].source == Some(primary))
  }

  ghost predicate NamesPresent(nodes: seq<NodeRequest>, n: NodeRequest) {
    n.sourceMachine != "" && exists m :: m in nodes && m.machine == n.sourceMachine
  }

  lemma RepointedAsAsked(fleet: map<Id, Node>, nodes: seq<NodeRequest>, primary: Id)
    requires Repointed(fleet, nodes, |nodes|, primary)
    ensures SourcesAsAsked(fleet, nodes, primary)
  {
    forall n | n in nodes && n.machine != primary
      ensures n.machine in fleet
      ensures fleet[n.machine].source == Some(if NamesPresent(nodes, n) then n.sourceMachine else primary)
    {
      var i :| 0 <= i < |nodes| && nodes[i] == n;
      assert Includes(nodes, n.sourceMachine) ==> exists m :: m in nodes && m.machine == n.sourceMachine;
    }
  }

  /** configureArchitectureTopology for one master. */
  method ConfigureTopology(f: Fleet, nodes: seq<NodeRequest>, primary: Id) returns (ok: bool)
    requires f.Valid() && f.lockOwner.Some? && TopologyFor(nodes, primary, f.nodes.Keys)
    requires f.watchLinks ==> SourcesNotNewer(nodes, primary, f.nodes)
    modifies f
    ensures f.Valid() && f.SameRun() && f.SameVips()
    ensures TopologyFrame(old(f.nodes), f.nodes, nodes, primary)
    ensures ok ==> Includes(nodes, primary) && Repointed(f.nodes, nodes, |nodes|, primary)
    ensures ok ==> SourcesAsAsked(f.nodes, nodes, primary)
    ensures |f.trace| > old(|f.trace|) ==>
              f.sharesAccount || Note(AccountReady(primary), old(|f.trace|), old(f.Now())) in f.notes
    ensures ok ==> f.faults == old(f.faults)
    ensures f.faults == old(f.faults) && Includes(nodes, primary) ==> ok
  {
    if !Includes(nodes, primary) {
      return false;
    }
    ok := PrepareAccount(f, primary);
    if ok {
      ok := RepointAll(f, nodes, primary);
    }
    if ok {
      RepointedAsAsked(f.nodes, nodes, primary);
    }
  }

  /** The replication account on the primary: created, unless it is the management
      account, which is there already. */
  method PrepareAccount(f: Fleet, primary: Id) returns (ok: bool)
    requires f.Valid()
    modifies f`faults, f`notes, f`last
    ensures f.Valid() && f.Grows()
    ensures ok && !f.sharesAccount ==> Note(AccountReady(primary), |f.trace|, f.Now()) in f.notes
    ensures f.sharesAccount ==> f.notes == old(f.notes)
    ensures ok <==> f.faults == old(f.faults)
  {
    ok := true;
    if !f.sharesAccount {
      ok := f.Confirm(AccountReady(primary));
    }
  }

  method RepointAll(f: Fleet, nodes: seq<NodeRequest>, primary: Id) returns (ok: bool)
    requires f.Valid() && f.lockOwner.Some? && TopologyFor(nodes, primary, f.nodes.Keys) && Includes(nodes, primary)
    requires f.watchLinks ==> SourcesNotNewer(nodes, primary, f.nodes)
    modifies f
    ensures f.Valid() && f.SameRun() && f.SameVips()
    ensures TopologyFrame(old(f.nodes), f.nodes, nodes, primary)
    ensures ok ==> Repointed(f.nodes, nodes, |nodes|, primary)
    ensures ok ==> f.faults == old(f.faults)
    ensures f.faults == old(f.faults) ==> ok
  {
    ok := true;
    var i := 0;
    while i < |nodes| && ok
      invariant 0 <= i <= |nodes|
      invariant f.Valid() && f.SameRun() && f.SameVips()
      invariant TopologyFrame(old(f.nodes), f.nodes, nodes, primary)
      invariant ok ==> Repointed(f.nodes, nodes, i, primary)
      invariant ok ==> f.faults == old(f.faults)
      invariant f.faults == old(f.faults) ==> ok
    {
      if nodes[i].machine != primary {
        ok := RepointOne(f, nodes, primary, i);
      }
      i := i + 1;
    }
  }

  /** One replica of the loop; those already done stay done. */
  method RepointOne(f: Fleet, nodes: seq<NodeRequest>, primary: Id, i: nat) returns (ok: bool)
    requires f.Valid() && f.lockOwner.Some? && TopologyFor(nodes, primary, f.nodes.Keys) && Includes(nodes, primary)
    requires f.watchLinks ==> SourcesNotNewer(nodes, primary, f.nodes)
    requires i < |nodes| && nodes[i].machine != primary
    modifies f
    ensures f.Valid() && f.SameRun() && f.SameVips()
    ensures TopologyFrame(old(f.nodes), f.nodes, nodes, primary)
    ensures ok && Repointed(old(f.nodes), nodes, i, primary) ==> Repointed(f.nodes, nodes, i + 1, primary)
    ensures ok ==> f.faults == old(f.faults)
    ensures f.faults == old(f.faults) ==> ok
  {
    SourceInFleet(nodes, primary, i, f.nodes.Keys);
    ok := f.Repoint(nodes[i].machine, SourceFor(nodes, primary, nodes[i]));
    assert Includes(nodes, nodes[i].machine);
    assert forall j :: 0 <= j < i ==> nodes[j].machine != nodes[i].machine;
  }

  lemma SourceInFleet(nodes: seq<NodeRequest>, primary: Id, i: int, ids: set<Id>)
    requires 0 <= i < |nodes| && InFleet(nodes, ids) && Includes(nodes, primary)
    ensures SourceFor(nodes, primary, nodes[i]) in ids
  {
  }

  /** Each of the first `k` nodes but `except` passed the check in this state. */
  ghost predicate AllPassed(notes: set<Note>, check: Check, nodes: seq<NodeRequest>, k: nat, except: Id, at: nat,
                            state: Snapshot)
    requires k <= |nodes|
  {
    forall i {:trigger Note(Passed(check, nodes[i].machine), at, state)} :: 0 <= i < k && nodes[i].machine != except
      ==> Note(Passed(check, nodes[i].machine), at, state) in notes
  }

  /** No check of node `except` was added. */
  ghost predicate OnlyOthersAsked(before: set<Note>, after: set<Note>, except: Id) {
    forall n :: n in after && n !in before ==> n.fact.Passed? && n.fact.node != except
  }

  /** A step that asks every node in turn, or all but one; the first that does not pass
      ends it. */
  method CheckNodes(f: Fleet, check: Check, nodes: seq<NodeRequest>, except: Id) returns (ok: bool)
    requires f.Valid() && forall m :: InOrder(f.last, Passed(check, m))
    modifies f`faults, f`notes, f`last
    ensures f.Valid() && f.Grows()
    ensures ok ==> AllPassed(f.notes, check, nodes, |nodes|, except, |f.trace|, f.Now())
    ensures OnlyOthersAsked(old(f.notes), f.notes, except)
    ensures f.last == old(f.last) || PassedLast(f.last, check)
    ensures ok && nodes != [] && nodes[0].machine != except ==> PassedLast(f.last, check)
    ensures ok <==> f.faults == old(f.faults)
  {
    ok := true;
    var i := 0;
    while i < |nodes| && ok
      invariant 0 <= i <= |nodes| && f.Valid() && f.Grows()
      invariant ok ==> AllPassed(f.notes, check, nodes, i, except, |f.trace|, f.Now())
      invariant OnlyOthersAsked(old(f.notes), f.notes, except)
      invariant f.last == old(f.last) || PassedLast(f.last, check)
      invariant ok && i > 0 && nodes[0].machine != except ==> PassedLast(f.last, check)
      invariant ok <==> f.faults == old(f.faults)
    {
      if nodes[i].machine != except {
        ok := f.Confirm(Passed(check, nodes[i].machine));
      }
      i := i + 1;
    }
  }

  ghost predicate RolesVerified(fleet: map<Id, Node>, nodes: seq<NodeRequest>, k: nat, primary: Id)
    requires k <= |nodes|
  {
    forall i :: 0 <= i < k && nodes[i].machine in fleet
                ==> if nodes[i].machine == primary then !fleet[primary].readOnly && !fleet[primary].superReadOnly
                    else fleet[nodes[i].machine].Fenced()
  }

  /** verify_topology: role flags and replication health of every participant. */
  method VerifyRoles(f: Fleet, nodes: seq<NodeRequest>, primary: Id) returns (ok: bool)
    requires f.Valid() && InFleet(nodes, f.nodes.Keys)
    modifies f`faults, f`notes, f`last
    ensures f.Valid() && f.Grows()
    ensures ok ==> RolesVerified(f.nodes, nodes, |nodes|, primary)
    ensures ok ==> AllPassed(f.notes, RoleAndReplication, nodes, |nodes|, NoId, |f.trace|, f.Now())
    ensures ok ==> f.faults == old(f.faults)
    ensures f.faults == old(f.faults) && RolesVerified(f.nodes, nodes, |nodes|, primary) ==> ok
  {
    ok := true;
    var i := 0;
    while i < |nodes| && ok
      invariant 0 <= i <= |nodes| && f.Valid() && f.Grows()
      invariant ok ==> RolesVerified(f.nodes, nodes, i, primary)
      invariant ok ==> AllPassed(f.notes, RoleAndReplication, nodes, i, NoId, |f.trace|, f.Now())
      invariant ok ==> f.faults == old(f.faults)
      invariant f.faults == old(f.faults) && RolesVerified(f.nodes, nodes, |nodes|, primary) ==> ok
    {
      ok := VerifyRole(f, nodes[i].machine, primary);
      i := i + 1;
    }
  }

  method VerifyRole(f: Fleet, m: Id, primary: Id) returns (ok: bool)
    requires f.Valid() && m in f.nodes
    modifies f`faults, f`notes, f`last
    ensures f.Valid() && f.Grows()
    ensures ok ==> Note(Passed(RoleAndReplication, m), |f.trace|, f.Now()) in f.notes
    ensures ok ==> if m == primary then Open(f.nodes[m]) else f.nodes[m].Fenced()
    ensures ok ==> f.faults == old(f.faults)
    ensures f.faults == old(f.faults) ==> (ok <==> if m == primary then Open(f.nodes[m]) else f.nodes[m].Fenced())
  {
    var n;
    ok, n := f.Probe(m);
    ok := ok && (if m == primary then !n.readOnly && !n.superReadOnly else n.Fenced());
    if ok {
      ok := f.Confirm(Passed(RoleAndReplication, m));
    }
  }

  ghost predicate Resumed(before: map<Id, Node>, after: map<Id, Node>, nodes: seq<NodeRequest>) {
    && before.Keys == after.Keys
    && (forall n :: n in before && !Includes(nodes, n) ==> after[n] == before[n])
    && (forall n :: n in before ==> after[n] == before[n].(offline := after[n].offline))
  }

  ghost predicate Online(fleet: map<Id, Node>, nodes: seq<NodeRequest>, k: nat)
    requires k <= |nodes|
  {
    forall i :: 0 <= i < k && nodes[i].machine in fleet ==> !fleet[nodes[i].machine].offline
  }

  method ResumeOne(f: Fleet, nodes: seq<NodeRequest>, i: nat) returns (ok: bool)
    requires f.Valid() && f.lockOwner.Some? && i < |nodes| && nodes[i].machine in f.nodes
    modifies f
    ensures f.Valid() && f.SameRun() && f.SameVips() && Resumed(old(f.nodes), f.nodes, nodes)
    ensures ok && Online(old(f.nodes), nodes, i) ==> Online(f.nodes, nodes, i + 1)
    ensures ok ==> f.faults == old(f.faults)
    ensures f.faults == old(f.faults) ==> ok
  {
    ok := f.Resume(nodes[i].machine);
    assert Includes(nodes, nodes[i].machine);
  }

  method ResumeNodes(f: Fleet, nodes: seq<NodeRequest>) returns (ok: bool)
    requires f.Valid() && f.lockOwner.Some? && InFleet(nodes, f.nodes.Keys)
    modifies f
    ensures f.Valid() && f.SameRun() && f.SameVips() && Resumed(old(f.nodes), f.nodes, nodes)
    ensures ok ==> Online(f.nodes, nodes, |nodes|)
    ensures ok ==> f.faults == old(f.faults)
    ensures f.faults == old(f.faults) ==> ok
  {
    ok := true;
    var i := 0;
    while i < |nodes| && ok
      invariant 0 <= i <= |nodes|
      invariant f.Valid() && f.SameRun() && f.SameVips() && Resumed(old(f.nodes), f.nodes, nodes)
      invariant ok ==> Online(f.nodes, nodes, i)
      invariant ok ==> f.faults == old(f.faults)
      invariant f.faults == old(f.faults) ==> ok
    {
      ok := ResumeOne(f, nodes, i);
      i := i + 1;
    }
  }

  /** check_vip_conflict: no address on two machines, none held by anyone but the
      declared master. */
  method CheckConflicts(f: Fleet, configs: seq<VipConfig>, currentMaster: Id) returns (ok: bool)
    requires f.Valid() && ConfigsKnown(configs, f.holders.Keys)
    modifies f`faults, f`asked
    ensures f.Valid() && f.Grows()
    ensures ok && currentMaster != NoId ==> HeldAtMostBy(configs, f.holders, currentMaster)
    ensures ok ==> f.faults == old(f.faults)
    ensures f.faults == old(f.faults) && HeldAtMostBy(configs, f.holders, currentMaster) ==> ok
  {
    ok := true;
    var i := 0;
    while i < |configs| && ok
      invariant 0 <= i <= |configs| && f.Valid() && f.Grows()
      invariant ok && currentMaster != NoId ==> HeldAtMostBy(configs[..i], f.holders, currentMaster)
      invariant ok ==> f.faults == old(f.faults)
      invariant f.faults == old(f.faults) && HeldAtMostBy(configs, f.holders, currentMaster) ==> ok
    {
      var found;
      ok, found := f.ProbeHolders(configs[i].address);
      AtMostOne(found, currentMaster);
      if ok && |found| > 1 {
        ok := false;
      } else if ok && |found| == 1 && currentMaster != NoId && found != {currentMaster} {
        ok := false;
      }
      i := i + 1;
    }
    assert configs[..|configs|] == configs;
  }

  ghost predicate HeldAtMostBy(configs: seq<VipConfig>, holders: map<Vip, set<Id>>, m: Id) {
    forall i :: 0 <= i < |configs| ==> configs[i].address in holders && holders[configs[i].address] <= {m}
  }

  lemma AtMostOne(found: set<Id>, m: Id)
    ensures found <= {m} <==> |found| == 0 || (|found| == 1 && found == {m})
  {
    if found <= {m} && m in found {
      assert found == {m};
    }
  }

  /** verify_single_vip over every address. */
  method VerifyHolders(f: Fleet, configs: seq<VipConfig>, target: Id) returns (ok: bool)
    requires f.Valid() && ConfigsKnown(configs, f.holders.Keys)
    modifies f`faults, f`asked, f`notes, f`last, f`expected
    ensures f.Valid() && f.Grows()
    ensures ok ==> HeldAlone(configs, f.holders, target) && RecordedAs(configs, f.expected, target)
    ensures ok ==> AllHeld(f.notes, configs, |configs|, target, |f.trace|, f.Now())
    ensures ok ==> f.faults == old(f.faults)
    ensures f.faults == old(f.faults) && HeldAlone(configs, f.holders, target) ==> ok
  {
    ok := true;
    var i := 0;
    while i < |configs| && ok
      invariant 0 <= i <= |configs| && f.Valid() && f.Grows()
      invariant ok ==> HeldAlone(configs[..i], f.holders, target) && RecordedAs(configs[..i], f.expected, target)
      invariant ok ==> AllHeld(f.notes, configs, i, target, |f.trace|, f.Now())
      invariant ok ==> f.faults == old(f.faults)
      invariant f.faults == old(f.faults) && HeldAlone(configs, f.holders, target) ==> ok
    {
      OthersApart(configs, f.holders.Keys, i);
      ok := VerifyHolder(f, configs[i].address, target);
      i := i + 1;
    }
    assert ok ==> configs[..i] == configs;
  }

  /** Each of the first `k` addresses was found on the target alone, in this state. */
  ghost predicate AllHeld(notes: set<Note>, configs: seq<VipConfig>, k: nat, target: Id, at: nat, state: Snapshot)
    requires k <= |configs|
  {
    forall i {:trigger Note(HeldBy(configs[i].address, target), at, state)} ::
      0 <= i < k ==> Note(HeldBy(configs[i].address, target), at, state) in notes
  }

  /** And that while the new master was still closed to business. */
  ghost predicate AddressesFirst(notes: set<Note>, from: nat, configs: seq<VipConfig>, selected: Id) {
    forall i {:trigger AddressFirst(notes, from, configs[i].address, selected)} ::
      0 <= i < |configs| ==> AddressFirst(notes, from, configs[i].address, selected)
  }

  ghost predicate AddressFirst(notes: set<Note>, from: nat, v: Vip, selected: Id) {
    exists n :: n in notes && n.fact == HeldBy(v, selected) && n.at >= from && OpenOffline(n.state.nodes, selected)
  }

  lemma HeldFirst(before: set<Note>, notes: set<Note>, from: nat, configs: seq<VipConfig>, selected: Id, at: nat,
                  state: Snapshot)
    requires AllHeld(before, configs, |configs|, selected, at, state) && before <= notes
    requires from <= at && OpenOffline(state.nodes, selected)
    ensures AddressesFirst(notes, from, configs, selected)
  {
    forall i | 0 <= i < |configs| ensures AddressFirst(notes, from, configs[i].address, selected) {
      assert Note(HeldBy(configs[i].address, selected), at, state) in before;
    }
  }

  lemma AddressesStayFirst(before: set<Note>, later: nat, notes: set<Note>, from: nat, configs: seq<VipConfig>,
                           selected: Id)
    requires AddressesFirst(before, later, configs, selected) && before <= notes && from <= later
    ensures AddressesFirst(notes, from, configs, selected)
  {
    forall i | 0 <= i < |configs| ensures AddressFirst(notes, from, configs[i].address, selected) {
      assert AddressFirst(before, later, configs[i].address, selected);
    }
  }

  lemma FromEarlier(notes: set<Note>, later: nat, from: nat, configs: seq<VipConfig>, selected: Id)
    requires from <= later
    ensures AddressesFirst(notes, later, configs, selected) ==> AddressesFirst(notes, from, configs, selected)
  {
    if AddressesFirst(notes, later, configs, selected) {
      AddressesStayFirst(notes, later, notes, from, configs, selected);
    }
  }

  method VerifyHolder(f: Fleet, v: Vip, target: Id) returns (ok: bool)
    requires f.Valid() && v in f.holders
    modifies f`faults, f`asked, f`notes, f`last, f`expected
    ensures f.Valid() && f.Grows()
    ensures f.expected == if ok then old(f.expected)[v := target] else old(f.expected)
    ensures ok ==> Note(HeldBy(v, target), |f.trace|, f.Now()) in f.notes
    ensures ok <==> f.faults == old(f.faults) && f.holders[v] == {target}
  {
    var found;
    ok, found := f.ProbeHolders(v);
    ok := ok && found == {target};
    if ok {
      f.RecordExpected(v, target);
      f.Take(HeldBy(v, target));
    }
  }

  // --- the run -----------------------------------------------------------------------------

  /** What planning has established before a master_slave switchover executes: an
      accepted request naming the current master, nodes and addresses the fleet
      knows, and, if links are watched, sources no newer than their replicas. */
  ghost predicate Switchable(f: Fleet, req: Request, probes: seq<LiveElection.Probe>, configs: seq<VipConfig>)
    reads f
  {
    && Accepted(req) && req.architecture.MasterSlave? && !req.currentArchitecture.DualMaster? && !req.vipOnly
    && req.currentMaster != NoId && |probes| == |req.nodes|
    && InFleet(req.nodes, f.nodes.Keys) && (forall i :: 0 <= i < |req.nodes| ==> req.nodes[i].machine in f.machines)
    && ConfigsKnown(configs, f.holders.Keys)
    && (f.watchLinks ==>
          forall id :: TargetMaster(req, id) ==> SourcesNotNewer(Participating(req.nodes, req.detached), id, f.nodes))
  }

  /** The one node the request wants as master. */
  ghost predicate TargetMaster(req: Request, id: Id) {
    exists i :: 0 <= i < |req.nodes| && req.nodes[i].role.Master? && req.nodes[i].machine == id
  }

  ghost predicate Electing(req: Request, probes: seq<LiveElection.Probe>) {
    |probes| == |req.nodes| && exists w :: LiveElection.Elected(req, probes, w)
  }

  /** Nothing in the answers or on the addresses stands in the way. */
  ghost predicate Unobstructed(req: Request, probes: seq<LiveElection.Probe>, configs: seq<VipConfig>,
                               holders: map<Vip, set<Id>>) {
    Electing(req, probes) && (req.moveVip ==> HeldAtMostBy(configs, holders, req.currentMaster))
  }

  ghost predicate CanMove(req: Request, configs: seq<VipConfig>, planMode: RouteMode) {
    req.moveVip ==> AllMovable(configs, planMode)
  }

  /** What a run needs to succeed when no command or probe fails. */
  ghost predicate NothingInTheWay(req: Request, probes: seq<LiveElection.Probe>, configs: seq<VipConfig>,
                                  holders: map<Vip, set<Id>>, planMode: RouteMode) {
    && Unobstructed(req, probes, configs, holders) && CanMove(req, configs, planMode)
    && forall id :: TargetMaster(req, id) ==> id !in req.detached
  }

  /** What must have been established before the first command is sent: every node
      passed the preflight, the election has a winner, and no address that is to move
      is held by anyone but the declared master. */
  ghost predicate Cleared(req: Request, probes: seq<LiveElection.Probe>, configs: seq<VipConfig>, notes: set<Note>,
                          at: nat, start: Snapshot) {
    && AllPassed(notes, PreflightCheck, req.nodes, |req.nodes|, NoId, at, start)
    && Electing(req, probes)
    && (req.moveVip ==> HeldAtMostBy(configs, start.holders, req.currentMaster))
  }

  /** Everything up to the first change: privileges, preflight, election, conflict
      check. */
  method Prepare(f: Fleet, req: Request, probes: seq<LiveElection.Probe>, configs: seq<VipConfig>)
      returns (failed: Option<Step>, selected: Id)
    requires f.Valid() && Switchable(f, req, probes, configs)
    modifies f`faults, f`notes, f`last, f`asked
    ensures f.Valid() && f.Grows()
    ensures failed.None? ==> TargetMaster(req, selected) && selected in f.nodes && selected in f.machines
    ensures failed.None? && req.preferred != req.currentMaster ==> selected != req.currentMaster
    ensures failed.None? ==> Cleared(req, probes, configs, f.notes, |f.trace|, f.Now())
    ensures failed.None? ==> f.faults == old(f.faults)
    ensures f.faults == old(f.faults) && Unobstructed(req, probes, configs, f.holders) ==> failed.None?
    ensures failed != Some(ForceGate)
  {
    selected := NoId;
    var reachable := CheckNodes(f, PreflightCheck, req.nodes, NoId);
    if !reachable {
      return Some(Preflight), selected;
    }
    var elected := LiveElection.Elect(req, probes);
    if elected.Failure? {
      return Some(ElectCandidate), selected;
    }
    selected := elected.value.machine;
    var i := LiveElection.WinnerIsAskedFor(req, probes, elected.value);
    if req.moveVip {
      var clear := CheckConflicts(f, configs, req.currentMaster);
      if !clear {
        return Some(CheckVipConflict), selected;
      }
    }
    failed := None;
  }

  predicate BothFenced(nodes: map<Id, Node>, a: Id, b: Id) {
    a in nodes && nodes[a].Fenced() && b in nodes && nodes[b].Fenced()
  }

  /** `fact` was seen in this run, before `by`, while neither master was open for writes. */
  ghost predicate SeenBehindFence(notes: set<Note>, from: nat, until: nat, fact: Fact, current: Id, selected: Id) {
    exists n :: n in notes && n.fact == fact && from <= n.at < until && BothFenced(n.state.nodes, current, selected)
  }

  /** Before the new master opened, the old one was drained and the new one had replayed
      everything, or somebody confirmed to go on without; and after that the old one was
      found fenced once more. */
  ghost predicate HandedOver(notes: set<Note>, from: nat, current: Id, selected: Id, forced: bool) {
    exists n :: n in notes && n.fact == FenceConfirmed(current) && BothFenced(n.state.nodes, current, selected)
                && DrainedAndWaited(notes, from, n.at, current, selected, forced)
  }

  ghost predicate DrainedAndWaited(notes: set<Note>, from: nat, until: nat, current: Id, selected: Id, forced: bool) {
    exists n :: n in notes && n.fact == SessionsDrained(current) && from < n.at < until
                && BothFenced(n.state.nodes, current, selected)
                && SeenBehindFence(notes, n.at, until, if forced then ForceConfirmed else CaughtUp(selected),
                                   current, selected)
  }

  /** Every node's role and data were verified against the new master once it was open,
      and before it was handed the traffic. */
  ghost predicate AllSeen(notes: set<Note>, from: nat, nodes: seq<NodeRequest>, selected: Id,
                          holders: map<Vip, set<Id>>) {
    && SeenBeforeTraffic(notes, from, Checksummed(selected, false), selected, holders)
    && forall i {:trigger Verified(notes, from, nodes[i].machine, selected, holders)} ::
         0 <= i < |nodes| ==> Verified(notes, from, nodes[i].machine, selected, holders)
  }

  ghost predicate Verified(notes: set<Note>, from: nat, m: Id, selected: Id, holders: map<Vip, set<Id>>) {
    && SeenBeforeTraffic(notes, from, Passed(RoleAndReplication, m), selected, holders)
    && (m != selected ==> SeenBeforeTraffic(notes, from, Passed(DataCompared, m), selected, holders))
  }

  ghost predicate SeenBeforeTraffic(notes: set<Note>, from: nat, fact: Fact, selected: Id,
                                    holders: map<Vip, set<Id>>) {
    exists n :: n in notes && n.fact == fact && n.at >= from && n.state.holders == holders
                && OpenOffline(n.state.nodes, selected)
  }

  /** Open for writes, and closed to business. */
  ghost predicate OpenOffline(nodes: map<Id, Node>, id: Id) {
    id in nodes && Open(nodes[id]) && nodes[id].offline
  }

  lemma StaysVerified(before: set<Note>, later: nat, after: set<Note>, from: nat, m: Id, selected: Id,
                      holders: map<Vip, set<Id>>)
    requires Verified(before, later, m, selected, holders) && before <= after && from <= later
    ensures Verified(after, from, m, selected, holders)
  {
  }

  lemma AllSeenNow(notes: set<Note>, from: nat, nodes: seq<NodeRequest>, selected: Id, at: nat, state: Snapshot)
    requires AllPassed(notes, RoleAndReplication, nodes, |nodes|, NoId, at, state)
    requires DataAgrees(notes, nodes, selected, at, state)
    requires NodesAccepted(nodes) && from <= at && OpenOffline(state.nodes, selected)
    ensures AllSeen(notes, from, nodes, selected, state.holders)
  {
    forall i | 0 <= i < |nodes| ensures Verified(notes, from, nodes[i].machine, selected, state.holders) {
      assert NodeAccepted(nodes[i]);
      assert Note(Passed(RoleAndReplication, nodes[i].machine), at, state) in notes;
      assert nodes[i].machine != selected ==> Note(Passed(DataCompared, nodes[i].machine), at, state) in notes;
    }
  }

  lemma AllStaySeen(before: set<Note>, later: nat, after: set<Note>, from: nat, nodes: seq<NodeRequest>,
                    selected: Id, holders: map<Vip, set<Id>>)
    requires AllSeen(before, later, nodes, selected, holders) && before <= after && from <= later
    ensures AllSeen(after, from, nodes, selected, holders)
  {
    forall i | 0 <= i < |nodes| ensures Verified(after, from, nodes[i].machine, selected, holders) {
      StaysVerified(before, later, after, from, nodes[i].machine, selected, holders);
    }
  }

  /** Freeze the old master, drain it, wait for the candidate, and fence again; a
      candidate that does not catch up needs an explicit confirmation. */
  method FenceOld(f: Fleet, oldMaster: Id, candidate: Id) returns (failed: Option<Step>, forced: bool)
    requires f.Valid() && f.lockOwner.Some? && oldMaster in f.nodes && candidate in f.nodes && oldMaster != candidate
    modifies f
    ensures f.Valid() && f.SameRun() && f.OnlyNode(oldMaster)
    ensures f.nodes[oldMaster].source == old(f.nodes)[oldMaster].source
    ensures failed.None? ==> f.nodes[oldMaster].Fenced() && f.nodes[oldMaster].offline
    ensures failed.None? && old(f.nodes)[candidate].Fenced()
            ==> HandedOver(f.notes, old(|f.trace|), oldMaster, candidate, forced)
    ensures failed.None? && !forced ==> f.faults == old(f.faults)
    ensures f.faults == old(f.faults) ==> failed.None? && !forced
    ensures (forced ==> f.confirms) && (failed == Some(ForceGate) ==> !f.confirms)
  {
    forced := false;
    var ok := f.Freeze(oldMaster);
    if !ok {
      return Some(FreezeOldMaster), forced;
    }
    ghost var frozen := |f.trace|;
    failed, forced := DrainAndWait(f, oldMaster, candidate);
    if failed.Some? {
      return;
    }
    ghost var seen, later := f.notes, |f.trace|;
    ok := f.Fence(oldMaster);
    if !ok {
      return Some(FenceOldMaster), forced;
    }
    if old(f.nodes)[candidate].Fenced() {
      WaitsStay(seen, frozen, later + 1, f.notes, old(|f.trace|), |f.trace|, oldMaster, candidate, forced);
    }
  }

  lemma WaitsStay(before: set<Note>, later: nat, sooner: nat, after: set<Note>, from: nat, until: nat, current: Id,
                  selected: Id, forced: bool)
    requires DrainedAndWaited(before, later, sooner, current, selected, forced)
    requires before <= after && from <= later && sooner <= until
    ensures DrainedAndWaited(after, from, until, current, selected, forced)
  {
    var n :| n in before && n.fact == SessionsDrained(current) && later < n.at < sooner
             && BothFenced(n.state.nodes, current, selected)
             && SeenBehindFence(before, n.at, sooner, if forced then ForceConfirmed else CaughtUp(selected),
                                current, selected);
    assert n in after;
  }

  /** kill_business_sessions, wait_replication_zero and the force gate. */
  method DrainAndWait(f: Fleet, oldMaster: Id, candidate: Id) returns (failed: Option<Step>, forced: bool)
    requires f.Valid() && f.lockOwner.Some? && oldMaster in f.nodes && candidate in f.nodes
    requires f.nodes[oldMaster].Fenced()
    modifies f
    ensures f.Valid() && f.SameRun() && f.SameVips() && f.nodes == old(f.nodes)
    ensures failed.None? && f.nodes[candidate].Fenced()
            ==> DrainedAndWaited(f.notes, old(|f.trace|), |f.trace| + 1, oldMaster, candidate, forced)
    ensures failed.None? && !forced ==> f.faults == old(f.faults)
    ensures f.faults == old(f.faults) ==> failed.None? && !forced
    ensures (forced ==> f.confirms) && (failed == Some(ForceGate) ==> !f.confirms)
  {
    forced := false;
    var drained := f.KillSessions(oldMaster);
    if !drained {
      return Some(KillSessions), forced;
    }
    var caughtUp := f.Confirm(CaughtUp(candidate));
    if !caughtUp {
      forced := f.AwaitForce();
      if !forced {
        return Some(ForceGate), forced;
      }
    }
    failed := None;
    assert Note(SessionsDrained(oldMaster), |f.trace|, f.Now()) in f.notes;
    assert Note(if caughtUp then CaughtUp(candidate) else ForceConfirmed, |f.trace|, f.Now()) in f.notes;
    assert f.nodes[candidate].Fenced() ==>
             SeenBehindFence(f.notes, |f.trace|, |f.trace| + 1, if forced then ForceConfirmed else CaughtUp(candidate),
                             oldMaster, candidate);
  }

  ghost predicate Open(n: Node) {
    !n.readOnly && !n.superReadOnly
  }

  /** The topology stands as asked, and every participant was found in its role. */
  ghost predicate Rebuilt(f: Fleet, nodes: seq<NodeRequest>, selected: Id)
    reads f
  {
    && Includes(nodes, selected) && Repointed(f.nodes, nodes, |nodes|, selected)
    && SourcesAsAsked(f.nodes, nodes, selected) && RolesVerified(f.nodes, nodes, |nodes|, selected)
    && AllPassed(f.notes, RoleAndReplication, nodes, |nodes|, NoId, |f.trace|, f.Now())
  }

  /** The topology step, its verification, and the repair that only a forced run may
      fall back to. */
  method Rebuild(f: Fleet, nodes: seq<NodeRequest>, selected: Id, forced: bool) returns (failed: Option<Step>)
    requires f.Valid() && f.lockOwner.Some? && TopologyFor(nodes, selected, f.nodes.Keys)
    requires f.watchLinks ==> SourcesNotNewer(nodes, selected, f.nodes)
    modifies f
    ensures f.Valid() && f.SameRun() && f.SameVips()
    ensures TopologyFrame(old(f.nodes), f.nodes, nodes, selected)
    ensures failed.None? ==> Rebuilt(f, nodes, selected)
    ensures failed.None? && !forced ==> f.faults == old(f.faults)
    ensures f.faults == old(f.faults) && Includes(nodes, selected) && selected in f.nodes ==>
              Open(old(f.nodes)[selected]) ==> failed.None?
    ensures failed in {None, Some(VerifyTopology), Some(if forced then PtRepair else RepointReplicas)}
    ensures forced && failed.Some? ==>
              failed == Some(PtRepair) || Repaired(f.notes, nodes, selected, |f.trace|, f.Now())
  {
    failed := ConfigureAndVerify(f, nodes, selected);
    if failed.Some? && forced {
      VersionsDecideSources(nodes, selected, old(f.nodes), f.nodes);
      failed := RepairAndVerify(f, nodes, selected);
    }
  }

  /** repoint_replicas and verify_topology. */
  method ConfigureAndVerify(f: Fleet, nodes: seq<NodeRequest>, selected: Id) returns (failed: Option<Step>)
    requires f.Valid() && f.lockOwner.Some? && TopologyFor(nodes, selected, f.nodes.Keys)
    requires f.watchLinks ==> SourcesNotNewer(nodes, selected, f.nodes)
    modifies f
    ensures f.Valid() && f.SameRun() && f.SameVips()
    ensures TopologyFrame(old(f.nodes), f.nodes, nodes, selected)
    ensures failed.None? ==> Rebuilt(f, nodes, selected)
    ensures failed.None? ==> f.faults == old(f.faults)
    ensures f.faults == old(f.faults) && Includes(nodes, selected) && selected in f.nodes ==>
              Open(old(f.nodes)[selected]) ==> failed.None?
    ensures failed in {None, Some(VerifyTopology), Some(RepointReplicas)}
  {
    var repointed := ConfigureTopology(f, nodes, selected);
    if !repointed {
      return Some(RepointReplicas);
    }
    var verified := VerifyRoles(f, nodes, selected);
    failed := if verified then None else Some(VerifyTopology);
  }

  method RepairAndVerify(f: Fleet, nodes: seq<NodeRequest>, selected: Id) returns (failed: Option<Step>)
    requires f.Valid() && f.lockOwner.Some? && TopologyFor(nodes, selected, f.nodes.Keys)
    requires f.watchLinks ==> SourcesNotNewer(nodes, selected, f.nodes)
    modifies f
    ensures f.Valid() && f.SameRun() && f.SameVips()
    ensures TopologyFrame(old(f.nodes), f.nodes, nodes, selected)
    ensures failed.None? ==> Rebuilt(f, nodes, selected)
    ensures failed in {None, Some(VerifyTopology), Some(PtRepair)}
    ensures failed != Some(PtRepair) ==> Repaired(f.notes, nodes, selected, |f.trace|, f.Now())
    ensures f.faults == old(f.faults) && Includes(nodes, selected) && selected in f.nodes ==>
              Open(old(f.nodes)[selected]) ==> failed.None?
  {
    var repaired := Repair(f, nodes, selected);
    if !repaired {
      return Some(PtRepair);
    }
    ghost var seen := f.notes;
    var verified := VerifyRoles(f, nodes, selected);
    RepairStays(seen, f.notes, nodes, selected, |f.trace|, f.Now());
    failed := if verified then None else Some(VerifyTopology);
  }

  /** What the Toolkit must have done on the participants once the topology stood. */
  ghost predicate Repaired(notes: set<Note>, nodes: seq<NodeRequest>, primary: Id, at: nat, state: Snapshot) {
    && AllPassed(notes, ToolkitInstalled, nodes, |nodes|, NoId, at, state)
    && AllPassed(notes, ReplicaRestarted, nodes, |nodes|, primary, at, state)
    && Note(Checksummed(primary, false), at, state) in notes
    && AllPassed(notes, Synchronised, nodes, |nodes|, primary, at, state)
    && Note(Checksummed(primary, true), at, state) in notes
    && AllPassed(notes, Rechecked, nodes, |nodes|, primary, at, state)
  }

  lemma RepairStays(before: set<Note>, after: set<Note>, nodes: seq<NodeRequest>, primary: Id, at: nat, state: Snapshot)
    requires Repaired(before, nodes, primary, at, state) && before <= after
    ensures Repaired(after, nodes, primary, at, state)
  {
  }

  /** repairArchitectureReplication: the topology is configured once more, then the
      Toolkit runs on every participant. */
  method Repair(f: Fleet, nodes: seq<NodeRequest>, selected: Id) returns (ok: bool)
    requires f.Valid() && f.lockOwner.Some? && TopologyFor(nodes, selected, f.nodes.Keys)
    requires f.watchLinks ==> SourcesNotNewer(nodes, selected, f.nodes)
    modifies f
    ensures f.Valid() && f.SameRun() && f.SameVips()
    ensures TopologyFrame(old(f.nodes), f.nodes, nodes, selected)
    ensures ok ==> Includes(nodes, selected) && Repointed(f.nodes, nodes, |nodes|, selected)
    ensures ok ==> SourcesAsAsked(f.nodes, nodes, selected) && Repaired(f.notes, nodes, selected, |f.trace|, f.Now())
    ensures f.faults == old(f.faults) && Includes(nodes, selected) ==> ok
  {
    ok := ConfigureTopology(f, nodes, selected);
    if ok {
      ok := RunToolkit(f, nodes, selected);
    }
  }

  method RunToolkit(f: Fleet, nodes: seq<NodeRequest>, primary: Id) returns (ok: bool)
    requires f.Valid() && Named(nodes) && nodes != []
    modifies f`faults, f`notes, f`last
    ensures f.Valid() && f.Grows()
    ensures ok ==> Repaired(f.notes, nodes, primary, |f.trace|, f.Now())
    ensures ok ==> f.faults == old(f.faults)
    ensures f.faults == old(f.faults) ==> ok
  {
    ok := CheckNodes(f, ToolkitInstalled, nodes, NoId);
    if ok { ok := CheckNodes(f, ReplicaRestarted, nodes, primary); }
    if ok { ok := f.Confirm(Checksummed(primary, false)); }
    if ok { ok := CheckNodes(f, Synchronised, nodes, primary); }
    if ok { ok := f.Confirm(Checksummed(primary, true)); }
    if ok { ok := CheckNodes(f, Rechecked, nodes, primary); }
  }

  /** move_vip and verify_single_vip. */
  method MoveTraffic(f: Fleet, configs: seq<VipConfig>, planMode: RouteMode, selected: Id)
      returns (failed: Option<Step>)
    requires f.Valid() && f.lockOwner.Some? && ConfigsKnown(configs, f.holders.Keys) && selected in f.machines
    modifies f
    ensures f.Valid() && f.SameRun() && f.nodes == old(f.nodes)
    ensures failed.None? ==>
              configs != [] && HeldAlone(configs, f.holders, selected) && RecordedAs(configs, f.expected, selected)
    ensures failed.None? ==> AllHeld(f.notes, configs, |configs|, selected, |f.trace|, f.Now())
    ensures failed.None? ==> f.faults == old(f.faults)
    ensures f.faults == old(f.faults) && AllMovable(configs, planMode) ==> failed.None?
    ensures failed != Some(ForceGate)
  {
    var moved, done := MoveAll(f, configs, planMode, selected);
    if !moved.Moved? {
      return Some(MoveVip);
    }
    var single := VerifyHolders(f, configs, selected);
    failed := if single then None else Some(VerifySingleVip);
  }

  /** What comparing the data has established: the Toolkit is there, the primary was
      summed, and every other node agrees with it. */
  ghost predicate DataAgrees(notes: set<Note>, nodes: seq<NodeRequest>, primary: Id, at: nat, state: Snapshot) {
    && AllPassed(notes, ToolkitInstalled, nodes, |nodes|, NoId, at, state)
    && Note(Checksummed(primary, false), at, state) in notes
    && AllPassed(notes, DataCompared, nodes, |nodes|, primary, at, state)
  }

  /** verifyArchitectureDataWithPT. */
  method VerifyData(f: Fleet, nodes: seq<NodeRequest>, primary: Id) returns (ok: bool)
    requires f.Valid() && Named(nodes)
    modifies f`faults, f`notes, f`last
    ensures f.Valid() && f.Grows()
    ensures ok ==> Includes(nodes, primary) && DataAgrees(f.notes, nodes, primary, |f.trace|, f.Now())
    ensures ok ==> f.faults == old(f.faults)
    ensures f.faults == old(f.faults) && Includes(nodes, primary) ==> ok
  {
    ok := Includes(nodes, primary);
    if ok { ok := CheckNodes(f, ToolkitInstalled, nodes, NoId); }
    if ok { ok := f.Confirm(Checksummed(primary, false)); }
    if ok { ok := CheckNodes(f, DataCompared, nodes, primary); }
  }

  /** Consistency check, VIP move and resumption, once the new topology stands. */
  method Finish(f: Fleet, req: Request, nodes: seq<NodeRequest>, configs: seq<VipConfig>, planMode: RouteMode,
                selected: Id)
      returns (failed: Option<Step>)
    requires f.Valid() && f.lockOwner.Some? && InFleet(nodes, f.nodes.Keys) && Includes(nodes, selected)
    requires Named(nodes)
    requires ConfigsKnown(configs, f.holders.Keys) && selected in f.machines
    modifies f
    ensures f.Valid() && f.SameRun() && Resumed(old(f.nodes), f.nodes, nodes)
    ensures failed.None? ==> Online(f.nodes, nodes, |nodes|)
    ensures failed.None? && req.moveVip ==>
              configs != [] && HeldAlone(configs, f.holders, selected) && RecordedAs(configs, f.expected, selected)
    ensures failed.None? && req.moveVip && OpenOffline(old(f.nodes), selected)
            ==> AddressesFirst(f.notes, old(|f.trace|), configs, selected)
    ensures !req.moveVip ==> f.holders == old(f.holders)
    ensures |f.trace| > old(|f.trace|) || failed.None?
            ==> DataAgrees(f.notes, nodes, selected, old(|f.trace|), old(f.Now()))
    ensures failed.None? ==> f.faults == old(f.faults)
    ensures f.faults == old(f.faults) && CanMove(req, configs, planMode) ==> failed.None?
    ensures failed != Some(ForceGate)
  {
    var consistent := VerifyData(f, nodes, selected);
    if !consistent {
      return Some(PtVerify);
    }
    ghost var seen := f.notes;
    failed := HandTraffic(f, req, nodes, configs, planMode, selected);
    AgreementStays(seen, f.notes, nodes, selected, old(|f.trace|), old(f.Now()));
  }

  lemma AgreementStays(before: set<Note>, after: set<Note>, nodes: seq<NodeRequest>, primary: Id, at: nat,
                       state: Snapshot)
    requires DataAgrees(before, nodes, primary, at, state) && before <= after
    ensures DataAgrees(after, nodes, primary, at, state)
  {
  }

  method HandTraffic(f: Fleet, req: Request, nodes: seq<NodeRequest>, configs: seq<VipConfig>, planMode: RouteMode,
                     selected: Id)
      returns (failed: Option<Step>)
    requires f.Valid() && f.lockOwner.Some? && InFleet(nodes, f.nodes.Keys)
    requires ConfigsKnown(configs, f.holders.Keys) && selected in f.machines
    modifies f
    ensures f.Valid() && f.SameRun() && Resumed(old(f.nodes), f.nodes, nodes)
    ensures failed.None? ==> Online(f.nodes, nodes, |nodes|)
    ensures failed.None? && req.moveVip ==>
              configs != [] && HeldAlone(configs, f.holders, selected) && RecordedAs(configs, f.expected, selected)
    ensures failed.None? && req.moveVip && OpenOffline(old(f.nodes), selected)
            ==> AddressesFirst(f.notes, old(|f.trace|), configs, selected)
    ensures !req.moveVip ==> f.holders == old(f.holders)
    ensures failed.None? ==> f.faults == old(f.faults)
    ensures f.faults == old(f.faults) && CanMove(req, configs, planMode) ==> failed.None?
    ensures failed != Some(ForceGate)
  {
    if req.moveVip {
      failed := MoveTraffic(f, configs, planMode, selected);
      if failed.Some? {
        return;
      }
    }
    ghost var seen, at, state := f.notes, |f.trace|, f.Now();
    var resumed := ResumeNodes(f, nodes);
    failed := if resumed then None else Some(ResumeBusiness);
    if req.moveVip && OpenOffline(old(f.nodes), selected) {
      HeldFirst(seen, f.notes, old(|f.trace|), configs, selected, at, state);
    }
  }

  /** Every node that takes part follows the node it named, if that takes part as well,
      and the new master otherwise. */
  ghost predicate FollowsRequest(after: map<Id, Node>, req: Request, selected: Id) {
    forall n :: n in req.nodes && n.machine !in req.detached && n.machine != selected ==>
      && n.machine in after
      && (NamesParticipant(req, n) ==> after[n.machine].source == Some(n.sourceMachine))
      && (!NamesParticipant(req, n) ==> after[n.machine].source == Some(selected))
  }

  ghost predicate NamesParticipant(req: Request, n: NodeRequest) {
    n.sourceMachine != "" && exists m :: m in req.nodes && m.machine == n.sourceMachine && m.machine !in req.detached
  }

  /** What success leaves behind. */
  ghost predicate SwitchedTo(before: map<Id, Node>, after: map<Id, Node>, req: Request, selected: Id) {
    var nodes := Participating(req.nodes, req.detached);
    && selected in after && Open(after[selected]) && !after[selected].offline
    && Includes(nodes, selected) && ReplicasFollow(after, nodes, selected) && FollowsRequest(after, req, selected)
    && (forall n :: n in before && n in after && n != selected && !Includes(nodes, n)
          ==> after[n].source == before[n].source)
    && (req.currentMaster in after && req.currentMaster != selected ==> after[req.currentMaster].Fenced())
    && (selected in before ==> after[selected].source == before[selected].source || after[selected].source.None?)
  }

  /** executeArchitectureAdjustment on the master_slave path, under a lock that is
      already held. The watch on writers makes it a precondition of every command
      that no second node is open for writes, so the contract is that every state of
      every run, however it is cut, has at most one writer. */
  method Execute(f: Fleet, req: Request, probes: seq<LiveElection.Probe>, configs: seq<VipConfig>, planMode: RouteMode)
      returns (status: RunStatus, selected: Id, forced: bool)
    requires f.Valid() && f.lockOwner.Some? && Switchable(f, req, probes, configs)
    requires f.watchWriters && OthersFenced(f.nodes, req.currentMaster)
    modifies f
    ensures f.Valid() && f.SameRun() && SameVersions(old(f.nodes), f.nodes)
    ensures |f.trace| > old(|f.trace|) || status.Succeeded?
            ==> Cleared(req, probes, configs, f.notes, old(|f.trace|), old(f.Now()))
    ensures status.Succeeded? ==> TargetMaster(req, selected) && SwitchedTo(old(f.nodes), f.nodes, req, selected)
    ensures status.Succeeded? && req.preferred != req.currentMaster ==> selected != req.currentMaster
    ensures status.Succeeded? && req.moveVip ==>
              configs != [] && HeldAlone(configs, f.holders, selected) && RecordedAs(configs, f.expected, selected)
    ensures status.Succeeded? && req.moveVip ==> AddressesFirst(f.notes, old(|f.trace|), configs, selected)
    ensures status.Succeeded? ==> Witnessed(f.notes, old(|f.trace|), req, selected, forced, old(f.holders))
    ensures !req.moveVip ==> f.holders == old(f.holders)
    ensures status.Succeeded? && !forced ==> f.faults == old(f.faults)
    ensures f.faults == old(f.faults) && NothingInTheWay(req, probes, configs, old(f.holders), planMode)
            ==> status.Succeeded? && !forced && (f.silent == old(f.silent) ==> f.nodes[selected].source.None?)
    ensures (forced ==> f.confirms) && (status == Failed(ForceGate) ==> !f.confirms)
  {
    var failed;
    forced := false;
    failed, selected := Prepare(f, req, probes, configs);
    if failed.Some? {
      return Failed(failed.value), selected, forced;
    }
    MayProceed(req, selected, f.nodes.Keys);
    ghost var seen := f.notes;
    failed, forced := SwitchTo(f, req, configs, planMode, selected);
    StaysCleared(req, probes, configs, seen, f.notes, old(|f.trace|), old(f.Now()));
    status := if failed.Some? then Failed(failed.value) else Succeeded;
  }

  /** startArchitectureAdjustment for a run that takes its own lock: every state
      from the first command on has at most one writer, whatever fails and wherever
      the run ends; without the lock nothing is sent. */
  method Adjust(f: Fleet, owner: LockId, req: Request, probes: seq<LiveElection.Probe>, configs: seq<VipConfig>,
                planMode: RouteMode)
      returns (status: RunStatus, selected: Id, forced: bool)
    requires f.Valid() && !f.watchLinks && Switchable(f, req, probes, configs)
    requires OthersFenced(f.nodes, req.currentMaster)
    modifies f
    ensures f.Valid()
    ensures forall i :: old(|f.trace|) - 1 <= i < |f.trace| ==> AtMostOneWriter(f.trace[i].nodes)
    ensures old(f.lockOwner).Some? ==> status == Failed(AcquireLock) && f.trace == old(f.trace)
    ensures |f.trace| > old(|f.trace|) ==> Cleared(req, probes, configs, f.notes, old(|f.trace|), old(f.Now()))
    ensures old(f.lockOwner).None? ==> f.GivenBack()
    ensures status.Succeeded? ==> f.lockOwner.None? && SwitchedTo(old(f.nodes), f.nodes, req, selected)
    ensures status.Succeeded? && req.preferred != req.currentMaster ==> selected != req.currentMaster
    ensures status.Succeeded? ==> Witnessed(f.notes, old(|f.trace|), req, selected, forced, old(f.holders))
    ensures status.Succeeded? ==> Note(LockHeld, |f.trace|, f.Now()) in f.notes
    ensures status.Succeeded? && req.moveVip ==> HeldAlone(configs, f.holders, selected)
    ensures status.Succeeded? && req.moveVip ==> AddressesFirst(f.notes, old(|f.trace|), configs, selected)
    ensures status.Succeeded? && !forced ==> f.faults == old(f.faults)
    ensures f.faults == old(f.faults) && old(f.lockOwner).None? ==>
              NothingInTheWay(req, probes, configs, old(f.holders), planMode) ==> status.Succeeded?
    ensures (forced ==> f.confirms) && (status == Failed(ForceGate) ==> !f.confirms)
  {
    selected, forced := NoId, false;
    assert f.trace[|f.trace| - 1].nodes == f.nodes;
    var acquired := f.AcquireLock(owner);
    if !acquired {
      return Failed(AcquireLock), selected, forced;
    }
    status, selected, forced := RunWatched(f, req, probes, configs, planMode);
    ghost var seen := f.notes;
    if status.Succeeded? {
      status := HandBackLock(f, owner);
      StaysWitnessed(seen, f.notes, req, old(|f.trace|), selected, forced, old(f.holders));
      if req.moveVip {
        AddressesStayFirst(seen, old(|f.trace|), f.notes, old(|f.trace|), configs, selected);
      }
    } else {
      var released := f.ReleaseLock(owner);
    }
  }

  /** The end of a successful run: the renewals must have held, and the lock must go. */
  method HandBackLock(f: Fleet, owner: LockId) returns (status: RunStatus)
    requires f.Valid() && f.lockOwner == Some(owner)
    modifies f`lockOwner, f`faults, f`notes, f`last
    ensures f.Valid() && f.Grows()
    ensures f.GivenBack() && (status.Succeeded? ==> f.lockOwner.None? && Note(LockHeld, |f.trace|, f.Now()) in f.notes)
    ensures status.Succeeded? ==> f.faults == old(f.faults)
    ensures f.faults == old(f.faults) ==> status.Succeeded?
    ensures status == Failed(ReleaseLock) ==> Note(LockHeld, |f.trace|, f.Now()) in f.notes
    ensures status in {Succeeded, Failed(ReleaseLock)} || (status == Failed(RenewLock) && f.last == old(f.last))
  {
    var renewed := f.Confirm(LockHeld);
    if renewed {
      var released := f.ReleaseLock(owner);
      if released {
        return Succeeded;
      }
    }
    var again := f.ReleaseLock(owner);
    status := Failed(if renewed then ReleaseLock else RenewLock);
  }

  method RunWatched(f: Fleet, req: Request, probes: seq<LiveElection.Probe>, configs: seq<VipConfig>,
                    planMode: RouteMode)
      returns (status: RunStatus, selected: Id, forced: bool)
    requires f.Valid() && f.lockOwner.Some? && !f.watchLinks
    requires Switchable(f, req, probes, configs) && OthersFenced(f.nodes, req.currentMaster)
    modifies f
    ensures f.Valid() && f.lockOwner == old(f.lockOwner) && old(|f.trace|) <= |f.trace| && old(f.faults) <= f.faults
    ensures forall i :: old(|f.trace|) - 1 <= i < |f.trace| ==> AtMostOneWriter(f.trace[i].nodes)
    ensures |f.trace| > old(|f.trace|) ==> Cleared(req, probes, configs, f.notes, old(|f.trace|), old(f.Now()))
    ensures status.Succeeded? && req.preferred != req.currentMaster ==> selected != req.currentMaster
    ensures status.Succeeded? ==>
              SwitchedTo(old(f.nodes), f.nodes, req, selected)
              && Witnessed(f.notes, old(|f.trace|), req, selected, forced, old(f.holders))
    ensures status.Succeeded? && req.moveVip ==> HeldAlone(configs, f.holders, selected)
    ensures status.Succeeded? && req.moveVip ==> AddressesFirst(f.notes, old(|f.trace|), configs, selected)
    ensures status.Succeeded? && !forced ==> f.faults == old(f.faults)
    ensures f.faults == old(f.faults) && NothingInTheWay(req, probes, configs, old(f.holders), planMode)
            ==> status.Succeeded?
    ensures (forced ==> f.confirms) && (status == Failed(ForceGate) ==> !f.confirms)
  {
    assert OthersFenced(f.nodes, req.currentMaster) ==> AtMostOneWriter(f.nodes);
    f.Watch(true, false);
    assert f.Now() == old(f.Now());
    status, selected, forced := Execute(f, req, probes, configs, planMode);
    WritersWatched(f);
  }

  lemma WritersWatched(f: Fleet)
    requires f.Valid() && f.watchWriters
    ensures forall i :: f.watchFrom <= i < |f.trace| ==> AtMostOneWriter(f.trace[i].nodes)
  {
    assert forall i :: f.watchFrom <= i < |f.trace| ==> Allowed(f.watchWriters, f.watchLinks, f.trace[i].nodes);
  }

  lemma StaysCleared(req: Request, probes: seq<LiveElection.Probe>, configs: seq<VipConfig>, before: set<Note>,
                     after: set<Note>, at: nat, start: Snapshot)
    requires Cleared(req, probes, configs, before, at, start) && before <= after
    ensures Cleared(req, probes, configs, after, at, start)
  {
  }

  lemma StaysWitnessed(before: set<Note>, after: set<Note>, req: Request, from: nat, selected: Id, forced: bool,
                       holders: map<Vip, set<Id>>)
    requires Witnessed(before, from, req, selected, forced, holders) && before <= after
    ensures Witnessed(after, from, req, selected, forced, holders)
  {
    Witnesses(before, after, from, from, req, selected, forced, holders);
  }

  /** From the elected candidate to the end of the run. */
  method SwitchTo(f: Fleet, req: Request, configs: seq<VipConfig>, planMode: RouteMode, selected: Id)
      returns (failed: Option<Step>, forced: bool)
    requires f.Valid() && f.lockOwner.Some? && f.watchWriters
    requires req.currentMaster in f.nodes && OthersFenced(f.nodes, req.currentMaster)
    requires selected in f.nodes && selected in f.machines && ConfigsKnown(configs, f.holders.Keys)
    requires var nodes := Participating(req.nodes, req.detached);
             TopologyFor(nodes, selected, f.nodes.Keys) && (f.watchLinks ==> SourcesNotNewer(nodes, selected, f.nodes))
    modifies f
    ensures f.Valid() && f.SameRun() && SameVersions(old(f.nodes), f.nodes)
    ensures failed.None? ==> SwitchedTo(old(f.nodes), f.nodes, req, selected)
    ensures failed.None? && req.moveVip ==>
              configs != [] && HeldAlone(configs, f.holders, selected) && RecordedAs(configs, f.expected, selected)
    ensures failed.None? && req.moveVip ==> AddressesFirst(f.notes, old(|f.trace|), configs, selected)
    ensures failed.None? ==> Witnessed(f.notes, old(|f.trace|), req, selected, forced, old(f.holders))
    ensures !req.moveVip ==> f.holders == old(f.holders)
    ensures failed.None? && !forced ==> f.faults == old(f.faults)
    ensures f.faults == old(f.faults) && CanMove(req, configs, planMode) ==>
              Includes(Participating(req.nodes, req.detached), selected) ==> failed.None? && !forced
    ensures failed.None? && !forced && f.silent == old(f.silent) ==> f.nodes[selected].source.None?
    ensures (forced ==> f.confirms) && (failed == Some(ForceGate) ==> !f.confirms)
  {
    failed, forced := TakeOver(f, req.currentMaster, selected);
    if failed.Some? {
      return;
    }
    ghost var middle, later, seen := f.nodes, |f.trace|, f.notes;
    VersionsDecideSources(Participating(req.nodes, req.detached), selected, old(f.nodes), f.nodes);
    failed := ReshapeParticipants(f, req, configs, planMode, selected, forced);
    if failed.None? {
      Witnesses(seen, f.notes, old(|f.trace|), later, req, selected, forced, old(f.holders));
      FromEarlier(f.notes, later, old(|f.trace|), configs, selected);
      TookOverAndReshaped(old(f.nodes), middle, f.nodes, req, selected);
    }
  }

  /** Everything after the promotion concerns the participating nodes only. */
  method ReshapeParticipants(f: Fleet, req: Request, configs: seq<VipConfig>, planMode: RouteMode, selected: Id,
                             forced: bool)
      returns (failed: Option<Step>)
    requires f.Valid() && f.lockOwner.Some? && ConfigsKnown(configs, f.holders.Keys)
    requires selected in f.machines && selected in f.nodes
    requires OpenOffline(f.nodes, selected)
    requires var nodes := Participating(req.nodes, req.detached);
             TopologyFor(nodes, selected, f.nodes.Keys) && (f.watchLinks ==> SourcesNotNewer(nodes, selected, f.nodes))
    modifies f
    ensures f.Valid() && f.SameRun() && SameVersions(old(f.nodes), f.nodes)
    ensures failed.None? ==> var nodes := Participating(req.nodes, req.detached);
              && Reshaped(old(f.nodes), f.nodes, nodes, selected)
              && AllSeen(f.notes, old(|f.trace|), nodes, selected, old(f.holders))
    ensures failed.None? && req.moveVip ==>
              configs != [] && HeldAlone(configs, f.holders, selected) && RecordedAs(configs, f.expected, selected)
    ensures failed.None? && req.moveVip ==> AddressesFirst(f.notes, old(|f.trace|), configs, selected)
    ensures !req.moveVip ==> f.holders == old(f.holders)
    ensures failed.None? && !forced ==> f.faults == old(f.faults)
    ensures f.faults == old(f.faults) && CanMove(req, configs, planMode) ==>
              Includes(Participating(req.nodes, req.detached), selected) ==> failed.None?
    ensures failed != Some(ForceGate)
  {
    var topology := ParticipationRequest(req);
    failed := Reshape(f, req, topology.nodes, configs, planMode, selected, forced);
  }

  /** What a successful run has seen on its way. */
  ghost predicate Witnessed(notes: set<Note>, from: nat, req: Request, selected: Id, forced: bool,
                            holders: map<Vip, set<Id>>) {
    && (req.currentMaster != selected ==> HandedOver(notes, from, req.currentMaster, selected, forced))
    && AllSeen(notes, from, Participating(req.nodes, req.detached), selected, holders)
  }

  /** Notes are never lost. */
  lemma HandedOverStays(before: set<Note>, later: nat, after: set<Note>, from: nat, current: Id, selected: Id,
                        forced: bool)
    requires HandedOver(before, later, current, selected, forced) && before <= after && from <= later
    ensures HandedOver(after, from, current, selected, forced)
  {
    var n :| n in before && n.fact == FenceConfirmed(current) && BothFenced(n.state.nodes, current, selected)
             && DrainedAndWaited(before, later, n.at, current, selected, forced);
    WaitsStay(before, later, n.at, after, from, n.at, current, selected, forced);
    assert n in after;
  }

  lemma Witnesses(seen: set<Note>, notes: set<Note>, from: nat, later: nat, req: Request, selected: Id, forced: bool,
                  holders: map<Vip, set<Id>>)
    requires seen <= notes && from <= later
    requires req.currentMaster != selected ==> HandedOver(seen, from, req.currentMaster, selected, forced)
    requires var nodes := Participating(req.nodes, req.detached);
             AllSeen(notes, later, nodes, selected, holders) || AllSeen(seen, later, nodes, selected, holders)
    ensures Witnessed(notes, from, req, selected, forced, holders)
  {
    var nodes := Participating(req.nodes, req.detached);
    if AllSeen(notes, later, nodes, selected, holders) {
      AllStaySeen(notes, later, notes, from, nodes, selected, holders);
    } else {
      AllStaySeen(seen, later, notes, from, nodes, selected, holders);
    }
    if req.currentMaster != selected {
      HandedOverStays(seen, from, notes, from, req.currentMaster, selected, forced);
    }
  }

  ghost predicate TookOver(before: map<Id, Node>, after: map<Id, Node>, current: Id, selected: Id) {
    && before.Keys == after.Keys && selected in after && current in after
    && (forall n :: n in after && n != current && n != selected ==> after[n] == before[n])
    && (current != selected ==> after[current].source == before[current].source)
    && OthersFenced(after, selected) && OpenOffline(after, selected)
    && (after[selected].source == before[selected].source || after[selected].source.None?)
  }

  ghost predicate Reshaped(before: map<Id, Node>, after: map<Id, Node>, nodes: seq<NodeRequest>, selected: Id) {
    && before.Keys == after.Keys && selected in after
    && (forall n :: n in after && !Includes(nodes, n) ==> after[n] == before[n])
    && (forall n :: n in after && before[n].Fenced() ==> after[n].Fenced())
    && after[selected] == before[selected].(offline := after[selected].offline) && !after[selected].offline
    && Includes(nodes, selected) && ReplicasFollow(after, nodes, selected) && SourcesAsAsked(after, nodes, selected)
  }

  lemma RebuiltAndFinished(before: map<Id, Node>, middle: map<Id, Node>, after: map<Id, Node>, nodes: seq<NodeRequest>,
                           selected: Id)
    requires TopologyFrame(before, middle, nodes, selected)
    requires Includes(nodes, selected) && Repointed(middle, nodes, |nodes|, selected)
    requires SourcesAsAsked(middle, nodes, selected)
    requires Resumed(middle, after, nodes) && Online(after, nodes, |nodes|) && selected in before
    ensures Reshaped(before, after, nodes, selected)
  {
    var i :| 0 <= i < |nodes| && nodes[i].machine == selected;
  }

  lemma TookOverAndReshaped(before: map<Id, Node>, middle: map<Id, Node>, after: map<Id, Node>, req: Request,
                            selected: Id)
    requires TookOver(before, middle, req.currentMaster, selected)
    requires Reshaped(middle, after, Participating(req.nodes, req.detached), selected)
    ensures SwitchedTo(before, after, req, selected) && after[selected].source == middle[selected].source
  {
    RequestedSources(after, req, selected);
  }

  lemma RequestedSources(after: map<Id, Node>, req: Request, selected: Id)
    requires SourcesAsAsked(after, Participating(req.nodes, req.detached), selected)
    ensures FollowsRequest(after, req, selected)
  {
    var nodes := Participating(req.nodes, req.detached);
    forall n | n in req.nodes && n.machine !in req.detached && n.machine != selected
      ensures n in nodes && (NamesParticipant(req, n) <==> NamesPresent(nodes, n))
    {
      if NamesParticipant(req, n) {
        var m :| m in req.nodes && m.machine == n.sourceMachine && m.machine !in req.detached;
        assert m in nodes;
      }
    }
  }

  /** Fence the old master, unless it is the one elected, then promote. */
  method TakeOver(f: Fleet, current: Id, selected: Id) returns (failed: Option<Step>, forced: bool)
    requires f.Valid() && f.lockOwner.Some? && current in f.nodes && selected in f.nodes
    requires OthersFenced(f.nodes, current)
    modifies f
    ensures f.Valid() && f.SameRun() && f.SameVips() && SameVersions(old(f.nodes), f.nodes)
    ensures failed.None? ==> TookOver(old(f.nodes), f.nodes, current, selected)
    ensures failed.None? && current != selected ==> HandedOver(f.notes, old(|f.trace|), current, selected, forced)
    ensures failed.None? && !forced ==> f.faults == old(f.faults)
    ensures f.faults == old(f.faults) ==> failed.None? && !forced
    ensures failed.None? && !forced && f.silent == old(f.silent) ==> f.nodes[selected].source.None?
    ensures (forced ==> f.confirms) && (failed == Some(ForceGate) ==> !f.confirms)
  {
    failed, forced := StepDown(f, current, selected);
    if failed.Some? {
      return;
    }
    var promoted := f.Promote(selected);
    failed := if promoted then None else Some(PromoteNewMaster);
  }

  method StepDown(f: Fleet, current: Id, selected: Id) returns (failed: Option<Step>, forced: bool)
    requires f.Valid() && f.lockOwner.Some? && current in f.nodes && selected in f.nodes
    requires OthersFenced(f.nodes, current)
    modifies f
    ensures f.Valid() && f.SameRun() && f.OnlyNode(current) && (current == selected ==> f.nodes == old(f.nodes))
    ensures f.nodes[current].source == old(f.nodes)[current].source
    ensures failed.None? ==> OthersFenced(f.nodes, selected)
    ensures failed.None? && current != selected ==> HandedOver(f.notes, old(|f.trace|), current, selected, forced)
    ensures failed.None? && !forced ==> f.faults == old(f.faults)
    ensures f.faults == old(f.faults) ==> failed.None? && !forced
    ensures (forced ==> f.confirms) && (failed == Some(ForceGate) ==> !f.confirms)
  {
    failed, forced := None, false;
    if current != selected {
      failed, forced := FenceOld(f, current, selected);
    }
  }

  /** Rebuild the topology around the promoted node and hand the traffic over. */
  method Reshape(f: Fleet, req: Request, nodes: seq<NodeRequest>, configs: seq<VipConfig>, planMode: RouteMode,
                 selected: Id, forced: bool)
      returns (failed: Option<Step>)
    requires f.Valid() && f.lockOwner.Some? && TopologyFor(nodes, selected, f.nodes.Keys)
    requires f.watchLinks ==> SourcesNotNewer(nodes, selected, f.nodes)
    requires ConfigsKnown(configs, f.holders.Keys) && selected in f.machines && selected in f.nodes
    modifies f
    ensures f.Valid() && f.SameRun() && SameVersions(old(f.nodes), f.nodes)
    ensures failed.None? ==> Reshaped(old(f.nodes), f.nodes, nodes, selected)
    ensures failed.None? && OpenOffline(old(f.nodes), selected)
            ==> AllSeen(f.notes, old(|f.trace|), nodes, selected, old(f.holders))
    ensures failed.None? && req.moveVip ==>
              configs != [] && HeldAlone(configs, f.holders, selected) && RecordedAs(configs, f.expected, selected)
    ensures failed.None? && req.moveVip && OpenOffline(old(f.nodes), selected)
            ==> AddressesFirst(f.notes, old(|f.trace|), configs, selected)
    ensures !req.moveVip ==> f.holders == old(f.holders)
    ensures failed.None? && !forced ==> f.faults == old(f.faults)
    ensures f.faults == old(f.faults) && CanMove(req, configs, planMode) && Includes(nodes, selected) ==>
              Open(old(f.nodes)[selected]) ==> failed.None?
    ensures failed != Some(ForceGate)
  {
    failed := Rebuild(f, nodes, selected, forced);
    if failed.None? {
      ghost var later, rebuilt, seen := |f.trace|, f.Now(), f.notes;
      failed := Finish(f, req, nodes, configs, planMode, selected);
      if failed.None? {
        RebuiltAndFinished(old(f.nodes), rebuilt.nodes, f.nodes, nodes, selected);
        PassesStay(seen, f.notes, RoleAndReplication, nodes, later, rebuilt);
        if OpenOffline(old(f.nodes), selected) {
          if req.moveVip {
            AddressesStayFirst(f.notes, later, f.notes, old(|f.trace|), configs, selected);
          }
          AllSeenNow(f.notes, old(|f.trace|), nodes, selected, later, rebuilt);
        }
      }
    }
  }

  lemma PassesStay(before: set<Note>, after: set<Note>, check: Check, nodes: seq<NodeRequest>, at: nat, state: Snapshot)
    requires AllPassed(before, check, nodes, |nodes|, NoId, at, state) && before <= after
    ensures AllPassed(after, check, nodes, |nodes|, NoId, at, state)
  {
  }

  /** Every participating replica follows its source, fenced and back online. */
  ghost predicate ReplicasFollow(fleet: map<Id, Node>, nodes: seq<NodeRequest>, primary: Id) {
    forall i :: 0 <= i < |nodes| && nodes[i].machine != primary ==>
                  && nodes[i].machine in fleet
                  && fleet[nodes[i].machine].source == Some(SourceFor(nodes, primary, nodes[i]))
                  && fleet[nodes[i].machine].Fenced() && !fleet[nodes[i].machine].offline
  }

  lemma MayProceed(req: Request, selected: Id, ids: set<Id>)
    requires Accepted(req) && req.architecture.MasterSlave? && TargetMaster(req, selected)
    requires req.currentMaster != NoId && InFleet(req.nodes, ids)
    ensures req.currentMaster in ids && TopologyFor(Participating(req.nodes, req.detached), selected, ids)
    ensures selected !in req.detached ==> Includes(Participating(req.nodes, req.detached), selected)
  {
    CurrentInFleet(req, ids);
    ParticipantsAccepted(req.nodes, req.detached);
    ParticipantsInFleet(req, ids);
    TargetParticipates(req, selected);
    OnlyTargetIsMaster(req, selected);
  }

  lemma OnlyTargetIsMaster(req: Request, id: Id)
    requires Accepted(req) && req.architecture.MasterSlave? && TargetMaster(req, id)
    ensures OnlyMaster(Participating(req.nodes, req.detached), id)
  {
    var nodes := Participating(req.nodes, req.detached);
    var i :| 0 <= i < |req.nodes| && req.nodes[i].role.Master? && req.nodes[i].machine == id;
    forall k | 0 <= k < |nodes| && nodes[k].role.Master? ensures nodes[k].machine == id {
      assert nodes[k] in req.nodes;
      var j :| 0 <= j < |req.nodes| && req.nodes[j] == nodes[k];
      OneMaster(req.nodes, i, j);
    }
  }

  lemma TargetParticipates(req: Request, id: Id)
    requires TargetMaster(req, id)
    ensures id !in req.detached ==> Includes(Participating(req.nodes, req.detached), id)
  {
  }

  lemma CurrentInFleet(req: Request, ids: set<Id>)
    requires Accepted(req) && req.currentMaster != NoId && InFleet(req.nodes, ids)
    ensures req.currentMaster in ids
  {
  }

  lemma ParticipantsInFleet(req: Request, ids: set<Id>)
    requires InFleet(req.nodes, ids)
    ensures InFleet(Participating(req.nodes, req.detached), ids)
  {
  }

  lemma VersionsDecideSources(nodes: seq<NodeRequest>, primary: Id, a: map<Id, Node>, b: map<Id, Node>)
    requires SameVersions(a, b)
    ensures SourcesNotNewer(nodes, primary, a) <==> SourcesNotNewer(nodes, primary, b)
  {
  }
}
