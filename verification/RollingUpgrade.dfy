/** What the stages of a rolling upgrade do to the cluster: the plan, the upgrade of a
    node, the two nested switchovers and the verifications. */
module RollingUpgrade {
  import opened Wrappers
  import opened ArchitectureRequest
  import opened ClusterFleet
  import opened VipControl
  import Switchover
  import LiveElection
  import GtidSet
  import opened StableSort

  /** A cluster machine, in machine-name order. */
  datatype Member = Member(machine: Id, delaySeconds: nat)

  // --- the request of a nested switchover ------------------------------------------------

  function NodeFor(m: Member, newPrimary: Id): NodeRequest {
    if m.machine == newPrimary then NodeRequest(m.machine, Master, NoId, m.delaySeconds, 1000)
    else NodeRequest(m.machine, Replica, newPrimary, m.delaySeconds, 0)
  }

  function NodesFor(members: seq<Member>, newPrimary: Id): (r: seq<NodeRequest>)
    ensures |r| == |members|
    ensures forall i :: 0 <= i < |r| ==> r[i] == NodeFor(members[i], newPrimary)
  {
    seq(|members|, i requires 0 <= i < |members| => NodeFor(members[i], newPrimary))
  }

  function SwitchRequest(members: seq<Member>, current: Id, newPrimary: Id, detachCurrent: bool): Request {
    Request(MasterSlave, MasterSlave, current, newPrimary, true, false, false,
            if detachCurrent then [current] else [], NodesFor(members, newPrimary))
  }

  predicate IsMember(members: seq<Member>, id: Id) {
    exists i :: 0 <= i < |members| && members[i].machine == id
  }

  ghost predicate DistinctMembers(members: seq<Member>) {
    && (forall i :: 0 <= i < |members| ==> members[i].machine != NoId)
    && (forall i, j :: 0 <= i < j < |members| ==> Differ(members, i, j))
  }

  predicate Differ(members: seq<Member>, i: int, j: int)
    requires 0 <= i < j < |members|
  {
    members[i].machine != members[j].machine
  }

  lemma MembersDiffer(members: seq<Member>)
    requires DistinctMembers(members)
    ensures forall i, j :: 0 <= i < j < |members| ==> members[i].machine != members[j].machine
  {
    forall i, j | 0 <= i < j < |members| ensures members[i].machine != members[j].machine {
      assert Differ(members, i, j);
    }
  }

  lemma {:induction false} RolesOf(members: seq<Member>, newPrimary: Id)
    requires DistinctMembers(members)
    ensures CountRole(NodesFor(members, newPrimary), Independent) == 0
    ensures CountRole(NodesFor(members, newPrimary), Master) == if IsMember(members, newPrimary) then 1 else 0
  {
    if members == [] {
    } else {
      var front := members[..|members| - 1];
      IsMemberSnoc(members, newPrimary);
      RolesOf(front, newPrimary);
      assert NodesFor(members, newPrimary)[..|members| - 1] == NodesFor(front, newPrimary);
    }
  }

  lemma IsMemberSnoc(members: seq<Member>, id: Id)
    requires DistinctMembers(members) && members != []
    ensures DistinctMembers(members[..|members| - 1])
    ensures IsMember(members, id) <==> IsMember(members[..|members| - 1], id) || members[|members| - 1].machine == id
    ensures !(IsMember(members[..|members| - 1], id) && members[|members| - 1].machine == id)
  {
    var front := members[..|members| - 1];
    MembersDiffer(members);
    forall i, j | 0 <= i < j < |front| ensures Differ(front, i, j) {
      assert Differ(members, i, j);
    }
  }

  /** Validation accepts the switchovers of an upgrade exactly when the new primary is
      not a delayed node. */
  lemma SwitchRequestAcceptedIff(members: seq<Member>, current: Id, newPrimary: Id, detachCurrent: bool)
    requires DistinctMembers(members) && IsMember(members, current)
    requires IsMember(members, newPrimary) && current != newPrimary
    ensures Accepted(SwitchRequest(members, current, newPrimary, detachCurrent))
            <==> forall i :: 0 <= i < |members| && members[i].machine == newPrimary ==> members[i].delaySeconds == 0
  {
    var req := SwitchRequest(members, current, newPrimary, detachCurrent);
    RolesOf(members, newPrimary);
    MembersDiffer(members);
    var c :| 0 <= c < |members| && members[c].machine == current;
    assert req.nodes[c].machine == current;
    assert Includes(req.nodes, current);
    forall i | 0 <= i < |members|
      ensures NodeAccepted(req.nodes[i]) <==> (members[i].machine == newPrimary ==> members[i].delaySeconds == 0)
    {
      NodeAcceptedIff(members[i], newPrimary);
    }
  }

  lemma NodeAcceptedIff(m: Member, newPrimary: Id)
    requires m.machine != NoId && newPrimary != NoId
    ensures NodeAccepted(NodeFor(m, newPrimary)) <==> (m.machine == newPrimary ==> m.delaySeconds == 0)
  {
  }

  // --- what is known between stages ---------------------------------------------------------

  /** `id` replicates from `source`, fenced, at version `v` or as it was. */
  ghost predicate ReplicaOf(nodes: map<Id, Node>, id: Id, source: Id) {
    id in nodes && nodes[id].Fenced() && nodes[id].source == Some(source)
  }

  ghost predicate OpenPrimary(nodes: map<Id, Node>, id: Id) {
    id in nodes && !nodes[id].readOnly && !nodes[id].superReadOnly
  }

  /** The plan's own findings: one open primary below the target version, all others
      its fenced replicas below the target, every address held by it alone. */
  ghost predicate Planned(nodes: map<Id, Node>, original: Id, target: nat) {
    && OpenPrimary(nodes, original) && nodes[original].source.None? && nodes[original].version < target
    && forall n :: n in nodes && n != original ==> ReplicaOf(nodes, n, original) && nodes[n].version <= target
  }

  ghost predicate ReplicasUpgraded(nodes: map<Id, Node>, original: Id, target: nat) {
    && Planned(nodes, original, target)
    && forall n :: n in nodes && n != original ==> nodes[n].version == target
  }

  ghost predicate SwitchedAway(nodes: map<Id, Node>, original: Id, temporary: Id, target: nat) {
    && original in nodes && nodes[original].Fenced() && nodes[original].source.None?
    && nodes[original].version < target
    && OpenPrimary(nodes, temporary) && temporary != original
    && (nodes[temporary].source.None? || nodes[temporary].source == Some(original))
    && forall n :: n in nodes && n != original
         ==> nodes[n].version == target && (n != temporary ==> ReplicaOf(nodes, n, temporary))
  }

  ghost predicate Reattached(nodes: map<Id, Node>, original: Id, temporary: Id, target: nat) {
    && original in nodes && OpenPrimary(nodes, temporary) && temporary != original
    && forall n :: n in nodes ==> nodes[n].version == target && (n != temporary ==> ReplicaOf(nodes, n, temporary))
  }

  ghost predicate SwitchedBack(nodes: map<Id, Node>, original: Id, target: nat) {
    && OpenPrimary(nodes, original)
    && forall n :: n in nodes ==> nodes[n].version == target && (n != original ==> ReplicaOf(nodes, n, original))
  }

  ghost predicate Finished(nodes: map<Id, Node>, original: Id, target: nat) {
    SwitchedBack(nodes, original, target) && nodes[original].source.None?
  }

  /** Why an upgrade in place is permitted: nothing newer feeds the node and nothing
      older feeds from it. */
  lemma InstallIsPermitted(nodes: map<Id, Node>, m: Id, v: nat)
    requires m in nodes
    requires forall n :: n in nodes && nodes[n].source == Some(m) ==> v <= nodes[n].version
    requires nodes[m].source.Some? && nodes[m].source.value in nodes && nodes[m].source.value != m
             ==> nodes[nodes[m].source.value].version <= v
    requires nodes[m].source != Some(m)
    ensures LinksOrdered(nodes) ==> LinksOrdered(nodes[m := Apply(nodes[m], Install(v))])
    ensures AtMostOneWriter(nodes) ==> AtMostOneWriter(nodes[m := Apply(nodes[m], Install(v))])
  {
    var after := nodes[m := Apply(nodes[m], Install(v))];
    if AtMostOneWriter(nodes) {
      forall a, b ensures EitherFenced(after, a, b) {
        assert EitherFenced(nodes, a, b);
      }
    }
    if LinksOrdered(nodes) {
      forall n ensures LinkOrdered(after, n) {
        assert LinkOrdered(nodes, n);
      }
    }
  }

  /** upgradeOneNode. It may only be handed a fenced node that holds no address. */
  method UpgradeNode(f: Fleet, m: Id, target: nat) returns (ok: bool)
    requires f.Valid() && f.lockOwner.Some? && m in f.nodes
    requires f.nodes[m].Fenced() && (forall v :: v in f.holders ==> m !in f.holders[v])
    requires forall n :: n in f.nodes && f.nodes[n].source == Some(m) ==> target <= f.nodes[n].version
    requires f.nodes[m].source.Some? && f.nodes[m].source.value in f.nodes
             ==> f.nodes[f.nodes[m].source.value].version <= target
    requires f.nodes[m].source != Some(m)
    modifies f
    ensures f.Valid() && f.SameRun() && f.SameVips()
    ensures f.nodes == old(f.nodes) || f.nodes == old(f.nodes)[m := old(f.nodes)[m].(version := target)]
    ensures ok ==> f.nodes == old(f.nodes)[m := old(f.nodes)[m].(version := target)]
    ensures ok ==> f.faults == old(f.faults)
    ensures f.faults == old(f.faults) ==> ok
  {
    f.NowPermitted();
    InstallIsPermitted(f.nodes, m, target);
    ok := f.Do(m, Install(target));
  }

  /** verifyReplicaNode with the target version required. */
  method VerifyReplica(f: Fleet, m: Id, primary: Id, target: nat) returns (ok: bool)
    requires f.Valid() && m in f.nodes
    modifies f`faults, f`notes, f`last
    ensures f.Valid() && f.Grows()
    ensures ok ==> ReplicaOf(f.nodes, m, primary) && f.nodes[m].version == target
    ensures ok ==> Note(Passed(FoundReplicating, m), |f.trace|, f.Now()) in f.notes
    ensures ok ==> f.faults == old(f.faults)
    ensures f.faults == old(f.faults) && ReplicaOf(f.nodes, m, primary) && f.nodes[m].version == target ==> ok
  {
    var n;
    ok, n := f.Probe(m);
    ok := ok && n.source == Some(primary) && n.readOnly && n.superReadOnly && n.version == target;
    if ok {
      ok := f.Confirm(Passed(FoundReplicating, m));   // one channel, both threads on
    }
  }

  // --- the plan ---------------------------------------------------------------------------------

  /** What a run is started with: the inventory in machine-name order, the enabled
      addresses, and the roles the operator's plan chose. */
  datatype Upgrade = Upgrade(
    members: seq<Member>, configs: seq<VipConfig>, planMode: RouteMode,
    original: Id, temporary: Id, target: nat)

  /** The inventory is the fleet, and the enabled addresses are all it carries. */
  ghost predicate FitsInventory(p: Upgrade, machines: seq<Id>, ids: set<Id>, addresses: set<Vip>) {
    && DistinctMembers(p.members)
    && (forall n :: n in ids <==> IsMember(p.members, n))
    && (forall i :: 0 <= i < |p.members| ==> p.members[i].machine in machines)
    && ConfigsKnown(p.configs, addresses)
    && (forall v :: v in addresses ==> Enabled(p.configs, v))
  }

  ghost predicate Fits(p: Upgrade, f: Fleet)
    reads f
  {
    FitsInventory(p, f.machines, f.nodes.Keys, f.holders.Keys)
  }

  predicate Enabled(configs: seq<VipConfig>, v: Vip) {
    exists i :: 0 <= i < |configs| && configs[i].address == v
  }

  ghost predicate RolesChosen(p: Upgrade) {
    IsMember(p.members, p.original) && IsMember(p.members, p.temporary) && p.original != p.temporary
  }

  /** The first member in name order that is neither the primary nor delayed. */
  ghost predicate IsTemporary(members: seq<Member>, original: Id, t: int) {
    && 0 <= t < |members| && members[t].machine != original && members[t].delaySeconds == 0
    && forall j :: 0 <= j < t ==> members[j].machine == original || members[j].delaySeconds > 0
  }

  datatype NodeRole = PrimaryNode | ReplicaNode | InvalidNode

  function RoleOf(n: Node): NodeRole {
    if n.source.None? && !n.readOnly && !n.superReadOnly then PrimaryNode
    else if n.source.Some? && n.Fenced() then ReplicaNode
    else InvalidNode
  }

  /** One primary at `primary`, everyone else a fenced replica, all below the target. */
  ghost predicate RolesClear(nodes: map<Id, Node>, members: seq<Member>, primary: int, target: nat) {
    && 0 <= primary < |members|
    && (forall i :: 0 <= i < |members| ==> members[i].machine in nodes && nodes[members[i].machine].version < target)
    && (forall i :: 0 <= i < |members| && members[i].machine in nodes ==>
          Plays(nodes[members[i].machine], i == primary))
  }

  /** A primary has no source and is open; a replica has one and is fenced. */
  ghost predicate Plays(n: Node, asPrimary: bool) {
    if asPrimary then n.source == None && !n.readOnly && !n.superReadOnly
    else n.source != None && n.readOnly && n.superReadOnly
  }

  /** Probes every member; any blocking reason is reported as failure. */
  method FindPrimary(f: Fleet, members: seq<Member>, target: nat) returns (ok: bool, primary: int)
    requires f.Valid() && forall i :: 0 <= i < |members| ==> members[i].machine in f.nodes
    modifies f`faults
    ensures f.Valid() && old(f.faults) <= f.faults
    ensures ok ==> RolesClear(f.nodes, members, primary, target)
    ensures ok ==> f.faults == old(f.faults)
    ensures f.faults == old(f.faults) ==> forall i :: RolesClear(f.nodes, members, i, target) ==> ok && i == primary
  {
    ok, primary := true, -1;
    var i := 0;
    while i < |members|
      invariant 0 <= i <= |members| && f.Valid() && -1 <= primary < i && old(f.faults) <= f.faults
      invariant ok ==> forall j :: 0 <= j < i ==> f.nodes[members[j].machine].version < target
      invariant ok ==>
                  forall j :: 0 <= j < i ==> Plays(f.nodes[members[j].machine], j == primary)
      invariant ok ==> f.faults == old(f.faults)
      invariant f.faults == old(f.faults) ==>
                  forall j :: RolesClear(f.nodes, members, j, target) ==> ok && primary == if j < i then j else -1
    {
      var probed, node := f.Probe(members[i].machine);
      if probed {
        ok := ok && node.version < target && !RoleOf(node).InvalidNode?;
        if RoleOf(node).PrimaryNode? {
          ok := ok && primary < 0;
          primary := i;
        }
      } else {
        ok := false;
      }
      i := i + 1;
    }
    ok := ok && primary >= 0;
  }

  ghost predicate AllFollow(nodes: map<Id, Node>, members: seq<Member>, primary: Id) {
    forall i :: 0 <= i < |members| && members[i].machine != primary && members[i].machine in nodes
      ==> nodes[members[i].machine].source == Some(primary)
  }

  /** Each member but `except` passed the check in this state. */
  ghost predicate AllFound(notes: set<Note>, check: Check, members: seq<Member>, except: Id, at: nat, state: Snapshot) {
    forall i {:trigger Note(Passed(check, members[i].machine), at, state)} ::
      0 <= i < |members| && members[i].machine != except
      ==> Note(Passed(check, members[i].machine), at, state) in notes
  }

  /** Every other member must replicate from the primary, with healthy threads. */
  method CheckSources(f: Fleet, members: seq<Member>, primary: Id) returns (ok: bool)
    requires f.Valid() && forall i :: 0 <= i < |members| ==> members[i].machine in f.nodes
    modifies f`faults, f`notes, f`last
    ensures f.Valid() && f.Grows()
    ensures ok ==> AllFollow(f.nodes, members, primary)
    ensures ok ==> AllFound(f.notes, FoundReplicating, members, primary, |f.trace|, f.Now())
    ensures ok ==> f.faults == old(f.faults)
    ensures f.faults == old(f.faults) && AllFollow(f.nodes, members, primary) ==> ok
  {
    ok := true;
    var i := 0;
    while i < |members|
      invariant 0 <= i <= |members| && f.Valid() && f.Grows()
      invariant ok ==> AllFollow(f.nodes, members[..i], primary)
      invariant ok ==> AllFound(f.notes, FoundReplicating, members[..i], primary, |f.trace|, f.Now())
      invariant ok ==> f.faults == old(f.faults)
      invariant f.faults == old(f.faults) && AllFollow(f.nodes, members, primary) ==> ok
    {
      if members[i].machine != primary {
        var healthy := CheckSource(f, members[i].machine, primary);
        ok := ok && healthy;
      }
      assert members[..i + 1] == members[..i] + [members[i]];
      i := i + 1;
    }
    assert members[..i] == members;
  }

  method CheckSource(f: Fleet, m: Id, primary: Id) returns (ok: bool)
    requires f.Valid() && m in f.nodes
    modifies f`faults, f`notes, f`last
    ensures f.Valid() && f.Grows()
    ensures ok ==> f.nodes[m].source == Some(primary)
    ensures ok ==> Note(Passed(FoundReplicating, m), |f.trace|, f.Now()) in f.notes
    ensures ok ==> f.faults == old(f.faults)
    ensures f.faults == old(f.faults) && f.nodes[m].source == Some(primary) ==> ok
  {
    var node;
    ok, node := f.Probe(m);
    ok := ok && node.source == Some(primary);
    if ok {
      ok := f.Confirm(Passed(FoundReplicating, m));
    }
  }

  method ChooseTemporary(members: seq<Member>, original: Id) returns (t: int)
    ensures t >= 0 ==> IsTemporary(members, original, t)
    ensures t < 0 ==> forall i :: !IsTemporary(members, original, i)
  {
    for i := 0 to |members|
      invariant forall j :: 0 <= j < i ==> members[j].machine == original || members[j].delaySeconds > 0
    {
      if members[i].machine != original && members[i].delaySeconds == 0 {
        return i;
      }
    }
    t := -1;
  }

  /** What the address scan takes as bound: held by the primary alone, and recorded
      under no other name. */
  ghost predicate ScansAsBound(configs: seq<VipConfig>, holders: map<Vip, set<Id>>, expected: map<Vip, Id>,
                               primary: Id) {
    && HeldAlone(configs, holders, primary)
    && forall i :: 0 <= i < |configs| ==>
                     configs[i].address in expected && expected[configs[i].address] in {NoId, primary}
  }

  /** The enabled addresses must each be bound on the given primary, and on it alone. */
  method VerifyBound(f: Fleet, configs: seq<VipConfig>, primary: Id) returns (ok: bool)
    requires f.Valid() && ConfigsKnown(configs, f.holders.Keys)
    modifies f`faults, f`asked, f`expected
    ensures f.Valid() && f.Grows()
    ensures ok ==> configs != [] && HeldAlone(configs, f.holders, primary) && RecordedAs(configs, f.expected, primary)
    ensures ok ==> f.faults == old(f.faults)
    ensures f.faults == old(f.faults) && configs != [] && ScansAsBound(configs, f.holders, old(f.expected), primary)
            ==> ok
  {
    ok := |configs| > 0;
    ghost var recorded := f.expected;
    var i := 0;
    while i < |configs| && ok
      invariant 0 <= i <= |configs| && f.Valid() && (ok ==> |configs| > 0) && f.Grows()
      invariant ok ==> HeldAlone(configs[..i], f.holders, primary) && RecordedAs(configs[..i], f.expected, primary)
      invariant forall j :: i <= j < |configs| ==> f.expected[configs[j].address] == recorded[configs[j].address]
      invariant ok ==> f.faults == old(f.faults)
      invariant f.faults == old(f.faults) && configs != [] && ScansAsBound(configs, f.holders, recorded, primary) ==> ok
    {
      OthersApart(configs, f.holders.Keys, i);
      ok := ScanOne(f, configs[i].address, primary);
      i := i + 1;
    }
    assert ok ==> configs[..i] == configs;
  }

  method ScanOne(f: Fleet, v: Vip, primary: Id) returns (ok: bool)
    requires f.Valid() && v in f.holders
    modifies f`faults, f`asked, f`expected
    ensures f.Valid() && f.Grows()
    ensures f.expected.Keys == old(f.expected).Keys
    ensures forall w :: w in f.expected && w != v ==> f.expected[w] == old(f.expected)[w]
    ensures ok ==> f.holders[v] == {primary} && f.expected[v] == primary
    ensures ok ==> f.faults == old(f.faults)
    ensures f.faults == old(f.faults) && f.holders[v] == {primary} && old(f.expected)[v] in {NoId, primary} ==> ok
  {
    var scanned, status, found := Scan(f, v);
    ok := scanned && status.Bound? && found == {primary};
    if ok {
      assert f.expected[v] in found;
    }
  }

  /** What the preflight asks of the fleet for it to confirm the plan. */
  ghost predicate Executable(p: Upgrade, nodes: map<Id, Node>, holders: map<Vip, set<Id>>, expected: map<Vip, Id>) {
    && (exists i :: RolesClear(nodes, p.members, i, p.target) && p.members[i].machine == p.original)
    && AllFollow(nodes, p.members, p.original)
    && (exists t :: IsTemporary(p.members, p.original, t) && p.members[t].machine == p.temporary)
    && p.configs != [] && ScansAsBound(p.configs, holders, expected, p.original)
  }

  /** buildPlan on the live fleet: one open primary below the target version, all
      others its fenced replicas below the target, a temporary primary, and every
      enabled address on the primary alone. */
  method BuildPlan(f: Fleet, p: Upgrade) returns (ok: bool, original: Id, temporary: Id)
    requires f.Valid() && Fits(p, f)
    modifies f`faults, f`asked, f`notes, f`last, f`expected
    ensures f.Valid() && f.Grows()
    ensures ok ==>
              Planned(f.nodes, original, p.target) && HeldAlone(p.configs, f.holders, original)
              && RecordedAs(p.configs, f.expected, original)
    ensures ok ==> exists t :: IsTemporary(p.members, original, t) && p.members[t].machine == temporary
    ensures ok ==> IsMember(p.members, original) && IsMember(p.members, temporary) && p.configs != []
    ensures ok ==> AllFound(f.notes, FoundReplicating, p.members, original, |f.trace|, f.Now())
    ensures ok ==> f.faults == old(f.faults)
    ensures f.faults == old(f.faults) && Executable(p, f.nodes, f.holders, old(f.expected))
            ==> ok && original == p.original && temporary == p.temporary
  {
    original, temporary := NoId, NoId;
    var primary;
    ok, primary := FindRoles(f, p);
    if !ok {
      return;
    }
    original := p.members[primary].machine;
    var t := ChooseTemporary(p.members, original);
    if t < 0 {
      return false, original, temporary;
    }
    temporary := p.members[t].machine;
    ok := VerifyBound(f, p.configs, original);
  }

  /** The roles of the nodes, as they report them. */
  method FindRoles(f: Fleet, p: Upgrade) returns (ok: bool, primary: int)
    requires f.Valid() && Fits(p, f)
    modifies f`faults, f`notes, f`last
    ensures f.Valid() && f.Grows()
    ensures ok ==> RolesClear(f.nodes, p.members, primary, p.target)
    ensures ok ==> Planned(f.nodes, p.members[primary].machine, p.target)
    ensures ok ==> AllFound(f.notes, FoundReplicating, p.members, p.members[primary].machine, |f.trace|, f.Now())
    ensures ok ==> f.faults == old(f.faults)
    ensures f.faults == old(f.faults) ==>
              forall i :: RolesClear(f.nodes, p.members, i, p.target)
                          && AllFollow(f.nodes, p.members, p.members[i].machine)
                          ==> ok && i == primary
  {
    assert forall i :: 0 <= i < |p.members| ==> IsMember(p.members, p.members[i].machine);
    ok, primary := FindPrimary(f, p.members, p.target);
    if !ok {
      return;
    }
    ok := CheckSources(f, p.members, p.members[primary].machine);
    if ok {
      PlanFound(p, f, primary);
    }
  }

  lemma PlanFound(p: Upgrade, f: Fleet, primary: int)
    requires Fits(p, f) && RolesClear(f.nodes, p.members, primary, p.target)
    requires AllFollow(f.nodes, p.members, p.members[primary].machine)
    ensures Planned(f.nodes, p.members[primary].machine, p.target)
  {
  }

  // --- stages one to four ---------------------------------------------------------------------------

  /** How far the cluster has come. */
  datatype Phase = Untouched | AsPlanned | ReplicasDone | Away | Attached | Back | Complete

  function Holder(p: Upgrade, phase: Phase): Id {
    if phase.Away? || phase.Attached? then p.temporary else p.original
  }

  ghost predicate Reached(p: Upgrade, phase: Phase, nodes: map<Id, Node>,
                          holders: map<Vip, set<Id>>, expected: map<Vip, Id>) {
    phase.Untouched? ||
    (&& RolesChosen(p) && p.configs != [] && NodesReached(p, phase, nodes)
     && HeldAlone(p.configs, holders, Holder(p, phase)) && RecordedAs(p.configs, expected, Holder(p, phase)))
  }

  /** What the nodes look like in each phase. */
  ghost predicate NodesReached(p: Upgrade, phase: Phase, nodes: map<Id, Node>) {
    match phase
    case Untouched => true
    case AsPlanned => Planned(nodes, p.original, p.target)
    case ReplicasDone => ReplicasUpgraded(nodes, p.original, p.target)
    case Away => SwitchedAway(nodes, p.original, p.temporary, p.target)
    case Attached => Reattached(nodes, p.original, p.temporary, p.target)
    case Back => SwitchedBack(nodes, p.original, p.target)
    case Complete => Finished(nodes, p.original, p.target)
  }

  /** executeClusterPreflight: the plan is rebuilt and must name the same roles. */
  method Preflight(f: Fleet, p: Upgrade) returns (ok: bool)
    requires f.Valid() && Fits(p, f)
    modifies f`faults, f`asked, f`notes, f`last, f`expected
    ensures f.Valid() && f.Grows() && (ok ==> Reached(p, AsPlanned, f.nodes, f.holders, f.expected))
    ensures ok ==> AllFound(f.notes, FoundReplicating, p.members, p.original, |f.trace|, f.Now())
    ensures ok ==> f.faults == old(f.faults)
    ensures f.faults == old(f.faults) && Executable(p, f.nodes, f.holders, old(f.expected)) ==> ok
  {
    var original, temporary;
    ok, original, temporary := BuildPlan(f, p);
    ok := ok && original == p.original && temporary == p.temporary;
  }

  /** executeAllPrechecks: the upgrade check of every member, in turn. */
  method PrecheckAll(f: Fleet, members: seq<Member>) returns (ok: bool)
    requires f.Valid()
    modifies f`faults, f`notes, f`last
    ensures f.Valid() && f.Grows()
    ensures ok ==> AllFound(f.notes, UpgradePrecheck, members, NoId, |f.trace|, f.Now())
    ensures ok ==> f.faults == old(f.faults)
    ensures f.faults == old(f.faults) ==> ok
  {
    ok := true;
    var i := 0;
    while i < |members| && ok
      invariant 0 <= i <= |members| && f.Valid() && f.Grows()
      invariant ok ==> AllFound(f.notes, UpgradePrecheck, members[..i], NoId, |f.trace|, f.Now())
      invariant ok ==> f.faults == old(f.faults)
      invariant f.faults == old(f.faults) ==> ok
    {
      ok := f.Confirm(Passed(UpgradePrecheck, members[i].machine));
      assert members[..i + 1] == members[..i] + [members[i]];
      i := i + 1;
    }
    assert ok ==> members[..i] == members;
  }

  predicate LexLess(a: Id, b: Id) {
    b != "" && (a == "" || a[0] < b[0] || (a[0] == b[0] && LexLess(a[1..], b[1..])))
  }

  lemma {:induction false} LexOrder(a: Id, b: Id, c: Id)
    ensures LexLess(a, b) ==> !LexLess(b, a)
    ensures LexLess(a, c) ==> LexLess(a, b) || LexLess(b, c)
  {
    if a == "" || b == "" {
    } else {
      LexOrder(a[1..], b[1..], if c == "" then c else c[1..]);
    }
  }

  /** What the order of strings is: they differ first where the smaller has the smaller
      character, or has ended. */
  lemma {:induction false} LexLessIs(a: Id, b: Id)
    ensures LexLess(a, b) <==> exists k :: LexSplit(a, b, k)
  {
    if a == "" || b == "" {
      assert a == "" && b != "" ==> LexSplit(a, b, 0);
    } else if a[0] != b[0] {
      assert a[0] < b[0] ==> LexSplit(a, b, 0);
      assert forall k :: LexSplit(a, b, k) && k > 0 ==> a[..k][0] == b[..k][0];
    } else {
      LexLessIs(a[1..], b[1..]);
      if LexLess(a, b) {
        var k :| LexSplit(a[1..], b[1..], k);
        assert a[..k + 1] == [a[0]] + a[1..][..k] && b[..k + 1] == [b[0]] + b[1..][..k];
        assert LexSplit(a, b, k + 1);
      }
      forall k | LexSplit(a, b, k) ensures LexLess(a, b) {
        assert k > 0;
        assert a[1..][..k - 1] == a[..k][1..] && b[1..][..k - 1] == b[..k][1..];
        assert LexSplit(a[1..], b[1..], k - 1);
      }
    }
  }

  ghost predicate LexSplit(a: Id, b: Id, k: int) {
    && 0 <= k <= |a| && k < |b| && a[..k] == b[..k]
    && (k == |a| || a[k] < b[k])
  }

  predicate UpgradesBefore(temporary: Id, a: Id, b: Id) {
    a != temporary && (b == temporary || LexLess(a, b))
  }

  lemma UpgradesBeforeIsOrder(temporary: Id)
    ensures StrictWeakOrder((a: Id, b: Id) => UpgradesBefore(temporary, a, b))
  {
    forall a: Id, b: Id, c: Id
      ensures UpgradesBefore(temporary, a, b) ==> !UpgradesBefore(temporary, b, a)
      ensures UpgradesBefore(temporary, a, c) ==> UpgradesBefore(temporary, a, b) || UpgradesBefore(temporary, b, c)
    {
      LexOrder(a, b, c);
    }
  }

  ghost predicate NoRepetition(s: seq<Id>) {
    forall i, j :: 0 <= i < j < |s| ==> s[i] != s[j]
  }

  lemma PermutedWithoutRepetition(s: seq<Id>, t: seq<Id>)
    requires NoRepetition(s) && multiset(s) == multiset(t)
    ensures NoRepetition(t)
  {
    forall i, j | 0 <= i < j < |t| ensures t[i] != t[j] {
      AtMostOnce(s, t[i]);
      CountedTwice(t, i, j);
    }
  }

  lemma {:induction false} AtMostOnce(s: seq<Id>, x: Id)
    requires NoRepetition(s)
    ensures multiset(s)[x] <= 1
  {
    if s == [] {
    } else {
      assert s == s[..|s| - 1] + [s[|s| - 1]];
      AtMostOnce(s[..|s| - 1], x);
      if x in multiset(s[..|s| - 1]) {
        assert x in s[..|s| - 1];
      }
    }
  }

  lemma CountedTwice(t: seq<Id>, i: int, j: int)
    requires 0 <= i < j < |t|
    ensures t[i] == t[j] ==> multiset(t)[t[i]] >= 2
  {
    assert t == t[..j] + t[j..];
    assert t[..j][i] == t[i] && t[j..][0] == t[j];
  }

  method CollectReplicas(members: seq<Member>, original: Id) returns (replicas: seq<Id>)
    ensures forall id :: id in replicas <==> IsMember(members, id) && id != original
    ensures DistinctMembers(members) ==> NoRepetition(replicas)
  {
    replicas := [];
    for i := 0 to |members|
      invariant forall id :: id in replicas <==> id != original && exists j :: 0 <= j < i && members[j].machine == id
      invariant DistinctMembers(members) ==> NoRepetition(replicas)
    {
      if DistinctMembers(members) {
        MembersDiffer(members);
        assert members[i].machine !in replicas;
      }
      if members[i].machine != original {
        replicas := replicas + [members[i].machine];
      }
    }
  }

  /** clusterUpgradeReplicaOrder: all replicas, by id, the temporary primary behind
      every other one. */
  method ReplicaOrder(members: seq<Member>, original: Id, temporary: Id) returns (order: seq<Id>)
    ensures forall id :: id in order <==> IsMember(members, id) && id != original
    ensures DistinctMembers(members) ==> NoRepetition(order)
    ensures forall i, j :: 0 <= i < j < |order| && order[i] == temporary ==> order[j] == temporary
    ensures forall i, j :: 0 <= i < j < |order| && order[j] != temporary ==> !LexLess(order[j], order[i])
  {
    var replicas := CollectReplicas(members, original);
    var before := (a: Id, b: Id) => UpgradesBefore(temporary, a, b);
    order := Sort(before, replicas);
    SortPermutes(before, replicas);
    UpgradesBeforeIsOrder(temporary);
    SortSorts(before, replicas);
    if NoRepetition(replicas) {
      PermutedWithoutRepetition(replicas, order);
    }
    assert forall id :: id in order <==> id in multiset(order);
    assert forall id :: id in replicas <==> id in multiset(replicas);
    forall i, j | 0 <= i < j < |order|
      ensures order[i] == temporary ==> order[j] == temporary
      ensures order[j] != temporary ==> !LexLess(order[j], order[i])
    {
      assert !before(order[j], order[i]);
    }
  }

  /** One replica: upgraded, and verified before anybody goes on. */
  method UpgradeOneReplica(f: Fleet, p: Upgrade, m: Id) returns (ok: bool)
    requires f.Valid() && f.lockOwner.Some? && Fits(p, f) && Planned(f.nodes, p.original, p.target)
    requires HeldAlone(p.configs, f.holders, p.original) && m in f.nodes && m != p.original
    modifies f
    ensures f.Valid() && f.SameRun() && f.SameVips()
    ensures Planned(f.nodes, p.original, p.target)
    ensures forall n :: n in f.nodes && n != m ==> f.nodes[n] == old(f.nodes)[n]
    ensures ok ==> f.nodes[m].version == p.target && Note(Passed(FoundReplicating, m), |f.trace|, f.Now()) in f.notes
    ensures ok ==> f.faults == old(f.faults)
    ensures f.faults == old(f.faults) ==> ok
  {
    HoldsNothing(p, f, p.original, m);
    ok := UpgradeNode(f, m, p.target);
    if ok {
      ok := VerifyReplica(f, m, p.original, p.target);
    }
  }

  method UpgradeInOrder(f: Fleet, p: Upgrade, order: seq<Id>) returns (ok: bool)
    requires f.Valid() && f.lockOwner.Some? && Fits(p, f)
    requires Planned(f.nodes, p.original, p.target) && HeldAlone(p.configs, f.holders, p.original)
    requires (forall j :: 0 <= j < |order| ==> order[j] in f.nodes && order[j] != p.original) && NoRepetition(order)
    modifies f
    ensures f.Valid() && f.SameRun() && f.SameVips() && Planned(f.nodes, p.original, p.target)
    ensures ok ==> forall j :: 0 <= j < |order| ==> f.nodes[order[j]].version == p.target
    ensures InTurn(order, old(f.nodes), f.nodes, f.notes, old(|f.trace|))
    ensures ok ==> f.faults == old(f.faults)
    ensures f.faults == old(f.faults) ==> ok
  {
    var i := 0;
    ok := true;
    while i < |order| && ok
      invariant 0 <= i <= |order|
      invariant f.Valid() && f.SameRun() && f.SameVips() && Planned(f.nodes, p.original, p.target)
      invariant ok ==> forall j :: 0 <= j < i ==> f.nodes[order[j]].version == p.target
      invariant UpgradedTo(order, i, ok, old(f.nodes), f.nodes, f.notes, old(|f.trace|))
      invariant ok ==> f.faults == old(f.faults)
      invariant f.faults == old(f.faults) ==> ok
    {
      ok := UpgradeNext(f, p, order, i, old(f.nodes), old(|f.trace|));
      i := i + 1;
    }
  }

  /** The first `i` were taken in turn, and the others not yet. */
  ghost predicate UpgradedTo(order: seq<Id>, i: nat, ok: bool, start: map<Id, Node>, nodes: map<Id, Node>,
                             notes: set<Note>, from: nat)
    requires i <= |order|
  {
    && (ok ==> AllSince(notes, from, order[..i])) && InTurn(order, start, nodes, notes, from)
    && (forall j :: i <= j < |order| && order[j] in nodes && order[j] in start ==> nodes[order[j]] == start[order[j]])
  }

  method UpgradeNext(f: Fleet, p: Upgrade, order: seq<Id>, i: nat, ghost start: map<Id, Node>, ghost from: nat)
      returns (ok: bool)
    requires f.Valid() && f.lockOwner.Some? && Fits(p, f)
    requires i < |order| && from <= |f.trace| && start.Keys == f.nodes.Keys
    requires Planned(f.nodes, p.original, p.target) && HeldAlone(p.configs, f.holders, p.original)
    requires (forall j :: 0 <= j < |order| ==> order[j] in f.nodes && order[j] != p.original) && NoRepetition(order)
    requires UpgradedTo(order, i, true, start, f.nodes, f.notes, from)
    modifies f
    ensures f.Valid() && f.SameRun() && f.SameVips() && Planned(f.nodes, p.original, p.target)
    ensures forall j :: 0 <= j < i ==> f.nodes[order[j]] == old(f.nodes)[order[j]]
    ensures ok ==> f.nodes[order[i]].version == p.target
    ensures UpgradedTo(order, i + 1, ok, start, f.nodes, f.notes, from)
    ensures ok ==> f.faults == old(f.faults)
    ensures f.faults == old(f.faults) ==> ok
  {
    ok := UpgradeOneReplica(f, p, order[i]);
    NextInTurn(order, i, start, old(f.nodes), old(f.notes), f.nodes, f.notes, from, ok);
  }

  ghost predicate AllSince(notes: set<Note>, from: nat, ids: seq<Id>) {
    forall j :: 0 <= j < |ids| ==> PassedSince(notes, from, FoundReplicating, ids[j])
  }

  /** Whatever has changed, all that come before it were verified first. */
  ghost predicate InTurn(order: seq<Id>, before: map<Id, Node>, after: map<Id, Node>, notes: set<Note>, from: nat) {
    forall j :: 0 <= j < |order| && order[j] in before && order[j] in after && after[order[j]] != before[order[j]]
      ==> AllSince(notes, from, order[..j])
  }

  lemma NextInTurn(order: seq<Id>, i: nat, start: map<Id, Node>, before: map<Id, Node>, seen: set<Note>,
                   after: map<Id, Node>, notes: set<Note>, from: nat, ok: bool)
    requires i < |order| && NoRepetition(order) && InTurn(order, start, before, seen, from) && seen <= notes
    requires AllSince(seen, from, order[..i])
    requires forall j :: 0 <= j < |order| ==> order[j] in start && order[j] in before && order[j] in after
    requires forall j :: i <= j < |order| ==> before[order[j]] == start[order[j]]
    requires forall j :: 0 <= j < |order| && j != i ==> after[order[j]] == before[order[j]]
    requires ok ==> PassedSince(notes, from, FoundReplicating, order[i])
    ensures InTurn(order, start, after, notes, from)
    ensures ok ==> AllSince(notes, from, order[..i + 1])
    ensures forall j :: i < j < |order| ==> after[order[j]] == start[order[j]]
  {
    SinceStays(seen, notes, from, order[..i]);
    forall j | 0 <= j < |order| && after[order[j]] != start[order[j]] ensures AllSince(notes, from, order[..j]) {
      if j < i {
        SinceStays(seen, notes, from, order[..j]);
      }
    }
    assert order[..i + 1] == order[..i] + [order[i]];
  }

  lemma SinceStays(before: set<Note>, after: set<Note>, from: nat, ids: seq<Id>)
    requires AllSince(before, from, ids) && before <= after
    ensures AllSince(after, from, ids)
  {
    forall j | 0 <= j < |ids| ensures PassedSince(after, from, FoundReplicating, ids[j]) {
      assert PassedSince(before, from, FoundReplicating, ids[j]);
    }
  }


  /** executeReplicaUpgrades: one replica at a time, each verified before the next. */
  method UpgradeReplicas(f: Fleet, p: Upgrade) returns (ok: bool)
    requires f.Valid() && f.lockOwner.Some? && Fits(p, f) && Reached(p, AsPlanned, f.nodes, f.holders, f.expected)
    modifies f
    ensures f.Valid() && f.SameRun()
    ensures ok ==> Reached(p, ReplicasDone, f.nodes, f.holders, f.expected)
    ensures OneAtATime(p, old(f.nodes), f.nodes, f.notes, old(|f.trace|))
    ensures ok ==> f.faults == old(f.faults)
    ensures f.faults == old(f.faults) ==> ok
  {
    var order := ReplicaOrder(p.members, p.original, p.temporary);
    ok := UpgradeInOrder(f, p, order);
    TurnsAreOrdered(p, order, old(f.nodes), f.nodes, f.notes, old(|f.trace|));
    if ok {
      AllUpgraded(f.nodes, p, order);
    }
  }

  /** No replica is touched before every replica that goes first was upgraded and found
      replicating. */
  ghost predicate OneAtATime(p: Upgrade, before: map<Id, Node>, after: map<Id, Node>, notes: set<Note>, from: nat) {
    forall a, b :: MustWait(p, a, b) && b in before && b in after && after[b] != before[b]
      ==> PassedSince(notes, from, FoundReplicating, a)
  }

  ghost predicate MustWait(p: Upgrade, a: Id, b: Id) {
    && IsMember(p.members, a) && a != p.original && IsMember(p.members, b) && b != p.original
    && UpgradesBefore(p.temporary, a, b)
  }

  lemma TurnsAreOrdered(p: Upgrade, order: seq<Id>, before: map<Id, Node>, after: map<Id, Node>, notes: set<Note>,
                        from: nat)
    requires InTurn(order, before, after, notes, from)
    requires forall id :: id in order <==> IsMember(p.members, id) && id != p.original
    requires forall i, j :: 0 <= i < j < |order| && order[i] == p.temporary ==> order[j] == p.temporary
    requires forall i, j :: 0 <= i < j < |order| && order[j] != p.temporary ==> !LexLess(order[j], order[i])
    ensures OneAtATime(p, before, after, notes, from)
  {
    forall a, b | MustWait(p, a, b) && b in before && b in after && after[b] != before[b]
      ensures PassedSince(notes, from, FoundReplicating, a)
    {
      var i :| 0 <= i < |order| && order[i] == a;
      var j :| 0 <= j < |order| && order[j] == b;
      LexIrreflexive(a);
      assert i < j;
      assert order[..j][i] == a;
    }
  }

  lemma {:induction false} LexIrreflexive(a: Id)
    ensures !LexLess(a, a)
  {
    if a == "" {
    } else {
      LexIrreflexive(a[1..]);
    }
  }

  lemma AllUpgraded(nodes: map<Id, Node>, p: Upgrade, order: seq<Id>)
    requires Planned(nodes, p.original, p.target) && forall n :: n in nodes && n != p.original ==> n in order
    requires forall j :: 0 <= j < |order| && order[j] in nodes ==> nodes[order[j]].version == p.target
    ensures ReplicasUpgraded(nodes, p.original, p.target)
  {
  }

  /** A node other than the one holding every enabled address holds none at all. */
  lemma HoldsNothing(p: Upgrade, f: Fleet, primary: Id, m: Id)
    requires Fits(p, f) && HeldAlone(p.configs, f.holders, primary) && m != primary
    ensures forall v :: v in f.holders ==> m !in f.holders[v]
  {
  }

  ghost predicate AllUpgradedReplicas(nodes: map<Id, Node>, primary: Id, target: nat) {
    forall n :: n in nodes && n != primary ==> ReplicaOf(nodes, n, primary) && nodes[n].version == target
  }

  /** verifyUpgradedReplicas, and the replica half of finalClusterVerify. */
  method VerifyReplicas(f: Fleet, p: Upgrade) returns (ok: bool)
    requires f.Valid() && Fits(p, f)
    modifies f`faults, f`notes, f`last
    ensures f.Valid() && f.Grows()
    ensures ok ==> AllUpgradedReplicas(f.nodes, p.original, p.target)
    ensures ok ==> AllFound(f.notes, FoundReplicating, p.members, p.original, |f.trace|, f.Now())
    ensures ok ==> f.faults == old(f.faults)
    ensures f.faults == old(f.faults) && AllUpgradedReplicas(f.nodes, p.original, p.target) ==> ok
  {
    ok := true;
    assert forall i :: 0 <= i < |p.members| ==> IsMember(p.members, p.members[i].machine);
    var i := 0;
    while i < |p.members| && ok
      invariant 0 <= i <= |p.members| && f.Valid() && f.Grows()
      invariant ok ==> AllFound(f.notes, FoundReplicating, p.members[..i], p.original, |f.trace|, f.Now())
      invariant ok ==>
                  forall j :: 0 <= j < i && p.members[j].machine != p.original ==>
                                ReplicaOf(f.nodes, p.members[j].machine, p.original)
                                && f.nodes[p.members[j].machine].version == p.target
      invariant ok ==> f.faults == old(f.faults)
      invariant f.faults == old(f.faults) && AllUpgradedReplicas(f.nodes, p.original, p.target) ==> ok
    {
      if p.members[i].machine != p.original {
        ok := VerifyReplica(f, p.members[i].machine, p.original, p.target);
      }
      assert p.members[..i + 1] == p.members[..i] + [p.members[i]];
      i := i + 1;
    }
    assert ok ==> p.members[..i] == p.members;
  }

  // --- the nested switchovers --------------------------------------------------------------------------

  ghost predicate SwitchesBetween(p: Upgrade, current: Id, newPrimary: Id) {
    IsMember(p.members, current) && IsMember(p.members, newPrimary) && current != newPrimary
  }

  lemma SwitchRequestAsks(p: Upgrade, f: Fleet, current: Id, newPrimary: Id, detachCurrent: bool)
    requires Fits(p, f) && SwitchesBetween(p, current, newPrimary)
    ensures var req := SwitchRequest(p.members, current, newPrimary, detachCurrent);
            && Switchover.InFleet(req.nodes, f.nodes.Keys)
            && (forall i :: 0 <= i < |req.nodes| ==> req.nodes[i].machine in f.machines)
            && (forall id :: Switchover.TargetMaster(req, id) ==> id == newPrimary)
            && current != NoId
  {
  }

  /** Whatever the request, no replica in it asks for a source but the new primary. */
  lemma AllFollowNewPrimary(members: seq<Member>, newPrimary: Id, detached: seq<Id>, i: int)
    requires var nodes := Participating(NodesFor(members, newPrimary), detached);
             0 <= i < |nodes| && nodes[i].machine != newPrimary
    ensures var nodes := Participating(NodesFor(members, newPrimary), detached);
            Switchover.SourceFor(nodes, newPrimary, nodes[i]) == newPrimary
  {
    var nodes := Participating(NodesFor(members, newPrimary), detached);
    assert nodes[i] in NodesFor(members, newPrimary);
  }

  lemma Participates(members: seq<Member>, newPrimary: Id, detached: seq<Id>, id: Id) returns (i: int)
    requires IsMember(members, id) && id !in detached
    ensures var nodes := Participating(NodesFor(members, newPrimary), detached);
            0 <= i < |nodes| && nodes[i].machine == id
  {
    var all, nodes := NodesFor(members, newPrimary), Participating(NodesFor(members, newPrimary), detached);
    var j :| 0 <= j < |members| && members[j].machine == id;
    assert all[j] in nodes;
    i :| 0 <= i < |nodes| && nodes[i] == all[j];
  }

  /** Versions a nested switchover may rely on: the new primary is no newer than any
      node that will follow it. */
  ghost predicate NewestFollow(nodes: map<Id, Node>, newPrimary: Id, detached: seq<Id>) {
    newPrimary in nodes && forall n :: n in nodes && n !in detached ==> nodes[newPrimary].version <= nodes[n].version
  }

  ghost predicate Movable(p: Upgrade) {
    AllMovable(p.configs, p.planMode)
  }

  /** The answers with which a nested switchover elects its new primary: all are
      acceptable, and it is undelayed and contains every other node but the current one. */
  ghost predicate Answered(members: seq<Member>, probes: seq<LiveElection.Probe>, current: Id, newPrimary: Id) {
    && |probes| == |members| && LiveElection.ProbesAccepted(probes)
    && forall t :: 0 <= t < |members| && members[t].machine == newPrimary ==>
         && members[t].delaySeconds == 0 && probes[t].gtidOn
         && forall i :: 0 <= i < |members| && i != t && members[i].machine != current
                        ==> GtidSet.Included(probes[i].executed, probes[t].executed)
  }

  /** And those are exactly the answers with which it does. */
  lemma ElectsIffAnswered(members: seq<Member>, probes: seq<LiveElection.Probe>, current: Id, newPrimary: Id,
                          detachCurrent: bool)
    requires DistinctMembers(members) && |probes| == |members| && current != newPrimary
    requires IsMember(members, current) && IsMember(members, newPrimary)
    ensures var req := SwitchRequest(members, current, newPrimary, detachCurrent);
            Answered(members, probes, current, newPrimary) <==> Accepted(req) && Switchover.Electing(req, probes)
  {
    var req := SwitchRequest(members, current, newPrimary, detachCurrent);
    SwitchRequestAcceptedIff(members, current, newPrimary, detachCurrent);
    MembersDiffer(members);
    var t :| 0 <= t < |members| && members[t].machine == newPrimary;
    forall i | 0 <= i < |members| && LiveElection.Eligible(req, req.nodes[i], probes[i]) ensures i == t {
      assert req.nodes[i] == NodeFor(members[i], newPrimary);
    }
    LiveElection.LoneCandidateWinsIff(req, probes, t);
    assert current != NoId by {
      var c :| 0 <= c < |members| && members[c].machine == current;
    }
    if LiveElection.ProbesAccepted(probes) && LiveElection.Eligible(req, req.nodes[t], probes[t]) {
      ChecksAllOthers(members, probes, current, newPrimary, detachCurrent, t);
    }
  }

  lemma ChecksAllOthers(members: seq<Member>, probes: seq<LiveElection.Probe>, current: Id, newPrimary: Id,
                        detachCurrent: bool, t: int)
    requires DistinctMembers(members) && |probes| == |members| && current != newPrimary && current != NoId
    requires 0 <= t < |members| && members[t].machine == newPrimary && LiveElection.ProbesAccepted(probes)
    ensures var req := SwitchRequest(members, current, newPrimary, detachCurrent);
            LiveElection.ReplicasContained(req, probes, LiveElection.CandidateOf(req, req.nodes[t], probes[t]))
            <==> forall i :: 0 <= i < |members| && i != t && members[i].machine != current
                             ==> GtidSet.Included(probes[i].executed, probes[t].executed)
  {
    var req := SwitchRequest(members, current, newPrimary, detachCurrent);
    MembersDiffer(members);
    forall i | 0 <= i < |members|
      ensures LiveElection.ChecksReplica(req, newPrimary, req.nodes[i]) <==> i != t && members[i].machine != current
    {
      assert req.nodes[i] == NodeFor(members[i], newPrimary);
    }
  }

  ghost predicate NothingInTheWay(p: Upgrade, probes: seq<LiveElection.Probe>, holders: map<Vip, set<Id>>, current: Id,
                                  newPrimary: Id) {
    HeldAlone(p.configs, holders, current) && Movable(p) && Answered(p.members, probes, current, newPrimary)
  }

  lemma SwitchoverIsFree(p: Upgrade, f: Fleet, probes: seq<LiveElection.Probe>, current: Id, newPrimary: Id,
                         detachCurrent: bool)
    requires Fits(p, f) && SwitchesBetween(p, current, newPrimary)
    requires NothingInTheWay(p, probes, f.holders, current, newPrimary)
    ensures var req := SwitchRequest(p.members, current, newPrimary, detachCurrent);
            Accepted(req) && Free(p, probes, f.holders, current, newPrimary, detachCurrent)
  {
    SwitchRequestAsks(p, f, current, newPrimary, detachCurrent);
    ElectsIffAnswered(p.members, probes, current, newPrimary, detachCurrent);
  }

  /** What a nested switchover leaves behind: the new primary open, all others that took
      part behind it, and a detached old primary fenced with the source it had. */
  ghost predicate Switched(before: map<Id, Node>, after: map<Id, Node>, current: Id, newPrimary: Id,
                           detachCurrent: bool) {
    && before.Keys == after.Keys && (forall n :: n in after ==> after[n].version == before[n].version)
    && OpenPrimary(after, newPrimary)
    && (after[newPrimary].source == before[newPrimary].source || after[newPrimary].source.None?)
    && (forall n :: n in after && n != newPrimary && !(detachCurrent && n == current)
          ==> ReplicaOf(after, n, newPrimary))
    && (current in after ==>
          after[current].Fenced() && (detachCurrent ==> after[current].source == before[current].source))
  }

  /** What a nested switchover has seen: the old primary drained, the new one caught up
      behind the fence, no force, and then, before it got the traffic, role and data of
      everybody who takes part verified. */
  ghost predicate SeenSwitching(notes: set<Note>, from: nat, p: Upgrade, current: Id, newPrimary: Id,
                                detachCurrent: bool) {
    && Switchover.HandedOver(notes, from, current, newPrimary, false)
    && SeenInTime(notes, from, Checksummed(newPrimary, false), p, current, newPrimary)
    && forall id {:trigger VerifiedInTime(notes, from, id, p, current, newPrimary)} ::
         IsMember(p.members, id) && !(detachCurrent && id == current)
         ==> VerifiedInTime(notes, from, id, p, current, newPrimary)
  }

  ghost predicate VerifiedInTime(notes: set<Note>, from: nat, id: Id, p: Upgrade, current: Id, newPrimary: Id) {
    && SeenInTime(notes, from, Passed(RoleAndReplication, id), p, current, newPrimary)
    && (id != newPrimary ==> SeenInTime(notes, from, Passed(DataCompared, id), p, current, newPrimary))
  }

  /** Seen while the new primary was open but closed to business, and no address had
      left the old one. */
  ghost predicate SeenInTime(notes: set<Note>, from: nat, fact: Fact, p: Upgrade, current: Id, newPrimary: Id) {
    exists n :: n in notes && n.fact == fact && n.at >= from && Switchover.OpenOffline(n.state.nodes, newPrimary)
                && Switchover.HeldAtMostBy(p.configs, n.state.holders, current)
  }

  lemma InTime(notes: set<Note>, from: nat, fact: Fact, p: Upgrade, current: Id, newPrimary: Id,
               holders: map<Vip, set<Id>>)
    requires Switchover.SeenBeforeTraffic(notes, from, fact, newPrimary, holders)
    requires Switchover.HeldAtMostBy(p.configs, holders, current)
    ensures SeenInTime(notes, from, fact, p, current, newPrimary)
  {
  }

  lemma WitnessedSwitching(p: Upgrade, f: Fleet, from: nat, current: Id, newPrimary: Id, detachCurrent: bool,
                           holders: map<Vip, set<Id>>)
    requires Fits(p, f) && current != newPrimary && Switchover.HeldAtMostBy(p.configs, holders, current)
    requires Switchover.Witnessed(f.notes, from, SwitchRequest(p.members, current, newPrimary, detachCurrent),
                                  newPrimary, false, holders)
    ensures SeenSwitching(f.notes, from, p, current, newPrimary, detachCurrent)
  {
    var req := SwitchRequest(p.members, current, newPrimary, detachCurrent);
    InTime(f.notes, from, Checksummed(newPrimary, false), p, current, newPrimary, holders);
    forall id | IsMember(p.members, id) && !(detachCurrent && id == current)
      ensures VerifiedInTime(f.notes, from, id, p, current, newPrimary)
    {
      var i := Participates(p.members, newPrimary, req.detached, id);
      assert Switchover.Verified(f.notes, from, id, newPrimary, holders);
      InTime(f.notes, from, Passed(RoleAndReplication, id), p, current, newPrimary, holders);
      if id != newPrimary {
        InTime(f.notes, from, Passed(DataCompared, id), p, current, newPrimary, holders);
      }
    }
  }

  /** executeSwitchover: a full master_slave run under the lock already held. The
      planner may refuse, and a run that waits for a forced switch counts as failed. */
  method NestedSwitchover(f: Fleet, p: Upgrade, probes: seq<LiveElection.Probe>, current: Id, newPrimary: Id,
                          detachCurrent: bool)
      returns (ok: bool)
    requires f.Valid() && f.lockOwner.Some? && f.watchWriters && Fits(p, f) && |probes| == |p.members|
    requires SwitchesBetween(p, current, newPrimary) && OthersFenced(f.nodes, current)
    requires NewestFollow(f.nodes, newPrimary, if detachCurrent then [current] else [])
    modifies f
    ensures f.Valid() && f.SameRun()
    ensures ok ==> Switched(old(f.nodes), f.nodes, current, newPrimary, detachCurrent)
    ensures ok ==> HeldAlone(p.configs, f.holders, newPrimary) && RecordedAs(p.configs, f.expected, newPrimary)
    ensures ok ==> SeenSwitching(f.notes, old(|f.trace|), p, current, newPrimary, detachCurrent)
    ensures ok ==> f.faults == old(f.faults)
    ensures f.faults == old(f.faults) && NothingInTheWay(p, probes, old(f.holders), current, newPrimary)
            ==> ok && (f.silent == old(f.silent) ==> f.nodes[newPrimary].source.None?)
  {
    ok := PlanSwitch(f, p, probes, current, newPrimary, detachCurrent);
    if ok {
      ok := RunSwitch(f, p, probes, current, newPrimary, detachCurrent);
    }
  }

  method PlanSwitch(f: Fleet, p: Upgrade, ghost probes: seq<LiveElection.Probe>, current: Id, newPrimary: Id,
                    detachCurrent: bool)
      returns (ok: bool)
    requires f.Valid() && Fits(p, f) && SwitchesBetween(p, current, newPrimary)
    modifies f`faults, f`notes, f`last
    ensures f.Valid() && f.Grows()
    ensures ok ==> Accepted(SwitchRequest(p.members, current, newPrimary, detachCurrent))
    ensures ok ==> Note(SwitchoverPlanned(newPrimary), |f.trace|, f.Now()) in f.notes
    ensures ok ==> f.faults == old(f.faults)
    ensures f.faults == old(f.faults) && NothingInTheWay(p, probes, f.holders, current, newPrimary)
            ==> ok && Free(p, probes, f.holders, current, newPrimary, detachCurrent)
  {
    ghost var nothing := NothingInTheWay(p, probes, f.holders, current, newPrimary);
    if nothing {
      SwitchoverIsFree(p, f, probes, current, newPrimary, detachCurrent);
    }
    var rejection := Validate(SwitchRequest(p.members, current, newPrimary, detachCurrent));
    ok := f.Confirm(SwitchoverPlanned(newPrimary));
    ok := ok && rejection.None?;
  }

  /** The run itself, for a request that planning accepted. */
  method RunSwitch(f: Fleet, p: Upgrade, probes: seq<LiveElection.Probe>, current: Id, newPrimary: Id,
                   detachCurrent: bool)
      returns (ok: bool)
    requires f.Valid() && f.lockOwner.Some? && f.watchWriters && Fits(p, f) && |probes| == |p.members|
    requires SwitchesBetween(p, current, newPrimary) && OthersFenced(f.nodes, current)
    requires NewestFollow(f.nodes, newPrimary, if detachCurrent then [current] else [])
    requires Accepted(SwitchRequest(p.members, current, newPrimary, detachCurrent))
    modifies f
    ensures f.Valid() && f.SameRun()
    ensures ok ==> Switched(old(f.nodes), f.nodes, current, newPrimary, detachCurrent)
    ensures ok ==> HeldAlone(p.configs, f.holders, newPrimary) && RecordedAs(p.configs, f.expected, newPrimary)
    ensures ok ==> SeenSwitching(f.notes, old(|f.trace|), p, current, newPrimary, detachCurrent)
    ensures ok ==> f.faults == old(f.faults)
    ensures f.faults == old(f.faults) && Free(p, probes, old(f.holders), current, newPrimary, detachCurrent)
            ==> ok && (f.silent == old(f.silent) ==> f.nodes[newPrimary].source.None?)
  {
    MaySwitch(p, f, probes, current, newPrimary, detachCurrent);
    ok := RunRequest(f, p, SwitchRequest(p.members, current, newPrimary, detachCurrent), probes, newPrimary);
    if ok {
      NestedIsSwitched(p, f, old(f.nodes), current, newPrimary, detachCurrent);
      WitnessedSwitching(p, f, old(|f.trace|), current, newPrimary, detachCurrent, old(f.holders));
    }
  }

  /** No request of the upgrade meets an obstacle but failing commands. */
  ghost predicate Free(p: Upgrade, probes: seq<LiveElection.Probe>, holders: map<Vip, set<Id>>, current: Id,
                       newPrimary: Id, detachCurrent: bool) {
    Switchover.NothingInTheWay(SwitchRequest(p.members, current, newPrimary, detachCurrent), probes, p.configs,
                               holders, p.planMode)
  }

  lemma MaySwitch(p: Upgrade, f: Fleet, probes: seq<LiveElection.Probe>, current: Id, newPrimary: Id,
                  detachCurrent: bool)
    requires Fits(p, f) && |probes| == |p.members| && SwitchesBetween(p, current, newPrimary)
    requires NewestFollow(f.nodes, newPrimary, if detachCurrent then [current] else [])
    requires Accepted(SwitchRequest(p.members, current, newPrimary, detachCurrent))
    ensures Switchover.Switchable(f, SwitchRequest(p.members, current, newPrimary, detachCurrent), probes, p.configs)
    ensures OnlyTarget(SwitchRequest(p.members, current, newPrimary, detachCurrent), newPrimary)
  {
    var req := SwitchRequest(p.members, current, newPrimary, detachCurrent);
    SwitchRequestAsks(p, f, current, newPrimary, detachCurrent);
    SourcesAreOld(p, f, req, newPrimary);
  }

  ghost predicate OnlyTarget(req: Request, newPrimary: Id) {
    forall id :: Switchover.TargetMaster(req, id) ==> id == newPrimary
  }

  lemma NestedIsSwitched(p: Upgrade, f: Fleet, before: map<Id, Node>, current: Id, newPrimary: Id, detachCurrent: bool)
    requires Fits(p, f) && SwitchesBetween(p, current, newPrimary) && Switchover.SameVersions(before, f.nodes)
    requires Switchover.SwitchedTo(before, f.nodes, SwitchRequest(p.members, current, newPrimary, detachCurrent),
                                   newPrimary)
    ensures Switched(before, f.nodes, current, newPrimary, detachCurrent)
  {
    if detachCurrent {
      DetachedKeepsSource(p, before, f.nodes, current, newPrimary);
    }
    forall n | n in f.nodes && n != newPrimary && !(detachCurrent && n == current)
      ensures ReplicaOf(f.nodes, n, newPrimary)
    {
      FollowsNewPrimary(p, before, f.nodes, current, newPrimary, detachCurrent, n);
    }
  }

  method RunRequest(f: Fleet, p: Upgrade, req: Request, probes: seq<LiveElection.Probe>, newPrimary: Id)
      returns (ok: bool)
    requires f.Valid() && f.lockOwner.Some? && f.watchWriters && Switchover.Switchable(f, req, probes, p.configs)
    requires OthersFenced(f.nodes, req.currentMaster) && req.moveVip && OnlyTarget(req, newPrimary)
    modifies f
    ensures f.Valid() && f.SameRun() && Switchover.SameVersions(old(f.nodes), f.nodes)
    ensures ok ==> Switchover.SwitchedTo(old(f.nodes), f.nodes, req, newPrimary)
    ensures ok ==> HeldAlone(p.configs, f.holders, newPrimary) && RecordedAs(p.configs, f.expected, newPrimary)
    ensures ok ==> Switchover.Witnessed(f.notes, old(|f.trace|), req, newPrimary, false, old(f.holders))
    ensures ok ==> Switchover.HeldAtMostBy(p.configs, old(f.holders), req.currentMaster)
    ensures ok ==> f.faults == old(f.faults)
    ensures f.faults == old(f.faults) && Switchover.NothingInTheWay(req, probes, p.configs, old(f.holders), p.planMode)
            ==> ok && (f.silent == old(f.silent) ==> f.nodes[newPrimary].source.None?)
  {
    var status, selected, forced := Switchover.Execute(f, req, probes, p.configs, p.planMode);
    ok := status.Succeeded? && !forced;
  }

  lemma SourcesAreOld(p: Upgrade, f: Fleet, req: Request, newPrimary: Id)
    requires req.nodes == NodesFor(p.members, newPrimary) && NewestFollow(f.nodes, newPrimary, req.detached)
    ensures Switchover.SourcesNotNewer(Participating(req.nodes, req.detached), newPrimary, f.nodes)
  {
  }

  /** What SwitchedTo says of one member that took part. */
  lemma FollowsNewPrimary(p: Upgrade, before: map<Id, Node>, after: map<Id, Node>, current: Id, newPrimary: Id,
                          detachCurrent: bool, id: Id)
    requires Switchover.SwitchedTo(before, after, SwitchRequest(p.members, current, newPrimary, detachCurrent),
                                   newPrimary)
    requires IsMember(p.members, id) && id != newPrimary && !(detachCurrent && id == current)
    ensures ReplicaOf(after, id, newPrimary)
  {
    var req := SwitchRequest(p.members, current, newPrimary, detachCurrent);
    var i := Participates(p.members, newPrimary, req.detached, id);
    AllFollowNewPrimary(p.members, newPrimary, req.detached, i);
  }

  lemma DetachedKeepsSource(p: Upgrade, before: map<Id, Node>, after: map<Id, Node>, current: Id, newPrimary: Id)
    requires Switchover.SwitchedTo(before, after, SwitchRequest(p.members, current, newPrimary, true), newPrimary)
    requires current in before && current in after && current != newPrimary
    ensures after[current].source == before[current].source && after[current].Fenced()
  {
    var req := SwitchRequest(p.members, current, newPrimary, true);
    var nodes := Participating(req.nodes, req.detached);
    forall i | 0 <= i < |nodes| ensures nodes[i].machine != current {
      assert nodes[i] in nodes;
    }
  }

  method SwitchAway(f: Fleet, p: Upgrade, probes: seq<LiveElection.Probe>) returns (ok: bool)
    requires f.Valid() && f.lockOwner.Some? && f.watchWriters && Fits(p, f) && |probes| == |p.members|
    requires Reached(p, ReplicasDone, f.nodes, f.holders, f.expected)
    modifies f
    ensures f.Valid() && f.SameRun()
    ensures ok ==> Reached(p, Away, f.nodes, f.holders, f.expected)
    ensures ok ==> SeenSwitching(f.notes, old(|f.trace|), p, p.original, p.temporary, true)
    ensures ok ==> f.faults == old(f.faults)
    ensures f.faults == old(f.faults) && Movable(p) && Answered(p.members, probes, p.original, p.temporary) ==> ok
  {
    MayGoAway(p, f.nodes);
    ok := NestedSwitchover(f, p, probes, p.original, p.temporary, true);
    if ok {
      GoneAway(p, old(f.Now()), f.Now(), f.expected);
    }
  }

  lemma GoneAway(p: Upgrade, before: Snapshot, after: Snapshot, expected: map<Vip, Id>)
    requires ReplicasUpgraded(before.nodes, p.original, p.target) && RolesChosen(p) && p.configs != []
    requires p.original in before.nodes && p.temporary in before.nodes
    requires Switched(before.nodes, after.nodes, p.original, p.temporary, true)
    requires HeldAlone(p.configs, after.holders, p.temporary) && RecordedAs(p.configs, expected, p.temporary)
    ensures Reached(p, Away, after.nodes, after.holders, expected)
  {
  }

  lemma MayGoAway(p: Upgrade, nodes: map<Id, Node>)
    requires ReplicasUpgraded(nodes, p.original, p.target) && p.temporary in nodes && p.original != p.temporary
    ensures OthersFenced(nodes, p.original) && NewestFollow(nodes, p.temporary, [p.original])
  {
  }

  lemma MayGoBack(p: Upgrade, nodes: map<Id, Node>)
    requires Reattached(nodes, p.original, p.temporary, p.target)
    ensures OthersFenced(nodes, p.temporary) && NewestFollow(nodes, p.original, [])
  {
  }

  method SwitchBack(f: Fleet, p: Upgrade, probes: seq<LiveElection.Probe>) returns (ok: bool)
    requires f.Valid() && f.lockOwner.Some? && f.watchWriters && Fits(p, f) && |probes| == |p.members|
    requires Reached(p, Attached, f.nodes, f.holders, f.expected)
    modifies f
    ensures f.Valid() && f.SameRun()
    ensures ok ==> Reached(p, Back, f.nodes, f.holders, f.expected)
    ensures ok ==> SeenSwitching(f.notes, old(|f.trace|), p, p.temporary, p.original, false)
    ensures ok ==> f.faults == old(f.faults)
    ensures f.faults == old(f.faults) && Movable(p) && Answered(p.members, probes, p.temporary, p.original)
            ==> ok && (f.silent == old(f.silent) ==> f.nodes[p.original].source.None?)
  {
    MayGoBack(p, f.nodes);
    ok := NestedSwitchover(f, p, probes, p.temporary, p.original, false);
    if ok {
      GoneBack(p, old(f.Now()), f.Now(), f.expected);
    }
  }

  lemma GoneBack(p: Upgrade, before: Snapshot, after: Snapshot, expected: map<Vip, Id>)
    requires Reattached(before.nodes, p.original, p.temporary, p.target) && RolesChosen(p) && p.configs != []
    requires Switched(before.nodes, after.nodes, p.temporary, p.original, false)
    requires HeldAlone(p.configs, after.holders, p.original) && RecordedAs(p.configs, expected, p.original)
    ensures Reached(p, Back, after.nodes, after.holders, expected)
  {
  }

  // --- the original primary ------------------------------------------------------------------------------

  /** verifyDetachedOriginalPrimary. */
  method VerifyDetached(f: Fleet, m: Id) returns (ok: bool)
    requires f.Valid() && m in f.nodes
    modifies f`faults, f`notes, f`last
    ensures f.Valid() && f.Grows()
    ensures ok ==> f.nodes[m].Fenced() && f.nodes[m].source.None?
    ensures ok ==> Note(Passed(FoundDetached, m), |f.trace|, f.Now()) in f.notes
    ensures ok ==> f.faults == old(f.faults)
    ensures f.faults == old(f.faults) && f.nodes[m].Fenced() && f.nodes[m].source.None? ==> ok
  {
    var n;
    ok, n := f.Probe(m);
    ok := ok && n.readOnly && n.superReadOnly && n.source.None?;
    if ok {
      f.Take(Passed(FoundDetached, m));
    }
  }

  /** The two-node request attachOriginalPrimaryAsReplica configures. */
  function AttachNodes(temporary: Id, original: Id): seq<NodeRequest> {
    [NodeRequest(temporary, Master, NoId, 0, 1000), NodeRequest(original, Replica, temporary, 0, 0)]
  }

  method AttachOriginal(f: Fleet, p: Upgrade) returns (ok: bool)
    requires f.Valid() && f.lockOwner.Some? && Fits(p, f) && RolesChosen(p)
    requires f.nodes[p.temporary].version <= f.nodes[p.original].version && f.nodes[p.original].Fenced()
    modifies f
    ensures f.Valid() && f.SameRun() && f.SameVips() && Switchover.SameVersions(old(f.nodes), f.nodes)
    ensures forall n :: n in f.nodes && n != p.original ==> f.nodes[n] == old(f.nodes)[n]
    ensures ok ==> ReplicaOf(f.nodes, p.original, p.temporary) && !f.nodes[p.original].offline
    ensures ok ==> ComparedOffline(f.notes, old(|f.trace|), p.original, p.temporary)
    ensures ok ==> f.faults == old(f.faults)
    ensures f.faults == old(f.faults) ==> ok
  {
    ok := ConfigureOriginal(f, p.original, p.temporary);
    if ok {
      ok := CompareOriginal(f, p.original, p.temporary);
    }
    if ok {
      ok := f.Resume(p.original);
    }
  }

  /** The data check on the two. */
  method CompareOriginal(f: Fleet, original: Id, temporary: Id) returns (ok: bool)
    requires f.Valid() && original != temporary && original != NoId && temporary != NoId
    modifies f`faults, f`notes, f`last
    ensures f.Valid() && f.Grows()
    ensures ok ==> Note(Passed(DataCompared, original), |f.trace|, f.Now()) in f.notes
    ensures ok ==> f.faults == old(f.faults)
    ensures f.faults == old(f.faults) ==> ok
  {
    var nodes := AttachNodes(temporary, original);
    assert nodes[0].machine == temporary && nodes[1].machine == original;
    ok := Switchover.VerifyData(f, nodes, temporary);
  }

  /** The data of the re-attached node was compared while it was closed to business. */
  ghost predicate ComparedOffline(notes: set<Note>, from: nat, original: Id, temporary: Id) {
    exists n :: n in notes && n.fact == Passed(DataCompared, original) && n.at >= from
                && ReplicaOf(n.state.nodes, original, temporary) && n.state.nodes[original].offline
  }

  method ConfigureOriginal(f: Fleet, original: Id, temporary: Id) returns (ok: bool)
    requires f.Valid() && f.lockOwner.Some? && original in f.nodes && temporary in f.nodes
    requires original != temporary && original != NoId && temporary != NoId
    requires f.nodes[temporary].version <= f.nodes[original].version && f.nodes[original].Fenced()
    modifies f
    ensures f.Valid() && f.SameRun() && f.SameVips() && Switchover.SameVersions(old(f.nodes), f.nodes)
    ensures forall n :: n in f.nodes && n != original ==> f.nodes[n] == old(f.nodes)[n]
    ensures ok ==> ReplicaOf(f.nodes, original, temporary) && f.nodes[original].offline
    ensures ok ==> f.faults == old(f.faults)
    ensures f.faults == old(f.faults) ==> ok
  {
    var nodes := AttachNodes(temporary, original);
    assert nodes[0].machine == temporary && nodes[1].machine == original;
    assert Includes(nodes, temporary);
    ok := Switchover.ConfigureTopology(f, nodes, temporary);
    assert nodes[1] in nodes && nodes[1].sourceMachine == temporary;
    assert nodes[0] in nodes ==> Switchover.NamesPresent(nodes, nodes[1]);
  }

  /** The upgrade of the original primary while it stands apart: it is handed over only
      if it is found detached and fenced, and it holds no address. The new primary may
      still follow it if its own detach was lost. */
  method UpgradeDetached(f: Fleet, p: Upgrade) returns (ok: bool)
    requires f.Valid() && f.lockOwner.Some? && Fits(p, f) && RolesChosen(p)
    requires SwitchedAway(f.nodes, p.original, p.temporary, p.target) && HeldAlone(p.configs, f.holders, p.temporary)
    modifies f
    ensures f.Valid() && f.SameRun() && f.SameVips()
    ensures ok ==> f.nodes == old(f.nodes)[p.original := old(f.nodes)[p.original].(version := p.target)]
    ensures |f.trace| > old(|f.trace|) || ok
            ==> Note(Passed(FoundDetached, p.original), old(|f.trace|), old(f.Now())) in f.notes
    ensures ok ==> f.faults == old(f.faults)
    ensures f.faults == old(f.faults) ==> ok
  {
    ok := VerifyDetached(f, p.original);
    if ok {
      HoldsNothing(p, f, p.temporary, p.original);
      ok := UpgradeNode(f, p.original, p.target);
    }
  }

  lemma AttachedAgain(p: Upgrade, before: map<Id, Node>, after: Snapshot, expected: map<Vip, Id>)
    requires SwitchedAway(before, p.original, p.temporary, p.target) && before.Keys == after.nodes.Keys
    requires ReplicaOf(after.nodes, p.original, p.temporary) && after.nodes[p.original].version == p.target
    requires forall n :: n in before && n != p.original ==> after.nodes[n] == before[n]
    requires RolesChosen(p) && p.configs != [] && HeldAlone(p.configs, after.holders, p.temporary)
    requires RecordedAs(p.configs, expected, p.temporary)
    ensures Reached(p, Attached, after.nodes, after.holders, expected)
  {
  }

  /** upgradeOriginalPrimary. */
  method UpgradeOriginal(f: Fleet, p: Upgrade) returns (ok: bool)
    requires f.Valid() && f.lockOwner.Some? && Fits(p, f) && Reached(p, Away, f.nodes, f.holders, f.expected)
    modifies f
    ensures f.Valid() && f.SameRun()
    ensures ok ==> Reached(p, Attached, f.nodes, f.holders, f.expected)
    ensures |f.trace| > old(|f.trace|) || ok
            ==> Note(Passed(FoundDetached, p.original), old(|f.trace|), old(f.Now())) in f.notes
    ensures ok ==> ComparedOffline(f.notes, old(|f.trace|), p.original, p.temporary)
    ensures ok ==> f.faults == old(f.faults)
    ensures f.faults == old(f.faults) ==> ok
  {
    ok := UpgradeDetached(f, p);
    if !ok {
      return;
    }
    ghost var later := |f.trace|;
    ok := Reattach(f, p, old(f.nodes));
    if ok {
      ComparedSince(f.notes, later, old(|f.trace|), p.original, p.temporary);
    }
  }

  method Reattach(f: Fleet, p: Upgrade, ghost before: map<Id, Node>) returns (ok: bool)
    requires f.Valid() && f.lockOwner.Some? && Fits(p, f) && RolesChosen(p) && p.configs != []
    requires SwitchedAway(before, p.original, p.temporary, p.target) && p.original in before
    requires f.nodes == before[p.original := before[p.original].(version := p.target)]
    requires HeldAlone(p.configs, f.holders, p.temporary) && RecordedAs(p.configs, f.expected, p.temporary)
    modifies f
    ensures f.Valid() && f.SameRun()
    ensures ok ==> Reached(p, Attached, f.nodes, f.holders, f.expected)
    ensures ok ==> ComparedOffline(f.notes, old(|f.trace|), p.original, p.temporary)
    ensures ok ==> f.faults == old(f.faults)
    ensures f.faults == old(f.faults) ==> ok
  {
    ok := AttachOriginal(f, p);
    if ok {
      AttachedAgain(p, before, f.Now(), f.expected);
    }
  }

  lemma ComparedSince(notes: set<Note>, later: nat, from: nat, original: Id, temporary: Id)
    requires ComparedOffline(notes, later, original, temporary) && from <= later
    ensures ComparedOffline(notes, from, original, temporary)
  {
  }

  ghost predicate Verifiable(p: Upgrade, f: Fleet)
    reads f
  {
    Reached(p, Back, f.nodes, f.holders, f.expected) && p.original in f.nodes && f.nodes[p.original].source.None?
  }

  /** finalClusterVerify. */
  method VerifyCluster(f: Fleet, p: Upgrade) returns (ok: bool)
    requires f.Valid() && Fits(p, f) && RolesChosen(p)
    modifies f`faults, f`asked, f`notes, f`last, f`expected
    ensures f.Valid() && f.Grows()
    ensures ok ==> Reached(p, Complete, f.nodes, f.holders, f.expected)
    ensures ok ==> AllFound(f.notes, FoundReplicating, p.members, p.original, |f.trace|, f.Now())
    ensures ok ==> f.faults == old(f.faults)
    ensures f.faults == old(f.faults) && old(Verifiable(p, f)) ==> ok
  {
    ok := VerifyPrimary(f, p);
    if ok {
      ok := VerifyReplicas(f, p);
    }
    if ok {
      assert Finished(f.nodes, p.original, p.target);
      ok := VerifyBound(f, p.configs, p.original);
    }
  }

  /** verifyPrimaryNode with the target version required. */
  method VerifyPrimary(f: Fleet, p: Upgrade) returns (ok: bool)
    requires f.Valid() && p.original in f.nodes
    modifies f`faults
    ensures f.Valid() && f.Grows()
    ensures ok ==> f.nodes[p.original].source.None? && OpenPrimary(f.nodes, p.original)
                   && f.nodes[p.original].version == p.target
    ensures ok ==> f.faults == old(f.faults)
    ensures f.faults == old(f.faults) && f.nodes[p.original].source.None? && SwitchedBack(f.nodes, p.original, p.target)
            ==> ok
  {
    var primary;
    ok, primary := f.Probe(p.original);
    ok := ok && primary.source.None? && !primary.readOnly && !primary.superReadOnly && primary.version == p.target;
  }
}
