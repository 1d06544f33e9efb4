/** The request an architecture adjustment is planned and executed from, and its
    validation. The empty id stands for an absent one, as in the JSON form. */
module ArchitectureRequest {
  import opened Wrappers

  type Id = string

  const NoId: Id := ""

  datatype Role = Master | Replica | Independent | UnknownRole

  datatype Architecture = Standalone | MasterSlave | DualMaster | MultiMaster | Unsupported

  datatype NodeRequest = NodeRequest(
    machine: Id, role: Role, sourceMachine: Id, delaySeconds: int, priority: int)

  datatype Request = Request(
    architecture: Architecture,
    currentArchitecture: Architecture,
    currentMaster: Id,
    preferred: Id,
    moveVip: bool,
    initializeVip: bool,
    vipOnly: bool,
    detached: seq<Id>,
    nodes: seq<NodeRequest>)

  datatype Rejection =
    | UnsupportedArchitecture
    | MissingMachine
    | DuplicateMachine
    | NegativeDelay
    | BadRole
    | DelayedMaster
    | ReplicatingIndependent
    | CurrentMasterNotIncluded
    | InitializeWithoutMove
    | InitializeWithCurrentMaster
    | VipOnlyWithoutMove
    | VipOnlyStandalone
    | VipOnlyWithoutTarget
    | VipOnlyTargetNotMaster
    | VipAlreadyThere
    | StandaloneNeedsIndependents
    | StandaloneOwnsVip
    | IndependentInReplication
    | MasterCount

  // --- what a valid request is --------------------------------------------------

  function CountRole(nodes: seq<NodeRequest>, role: Role): (n: nat)
    ensures n <= |nodes|
  {
    if nodes == [] then 0
    else CountRole(nodes[..|nodes| - 1], role) + (if nodes[|nodes| - 1].role == role then 1 else 0)
  }

  ghost predicate NodeAccepted(n: NodeRequest) {
    && n.machine != NoId && n.delaySeconds >= 0 && !n.role.UnknownRole?
    && (n.role.Master? ==> n.delaySeconds == 0)
    && (n.role.Independent? ==> n.sourceMachine == NoId && n.delaySeconds == 0)
  }

  ghost predicate NodesAccepted(nodes: seq<NodeRequest>) {
    && (forall i :: 0 <= i < |nodes| ==> NodeAccepted(nodes[i]))
    && (forall i, j :: 0 <= i < j < |nodes| ==> nodes[i].machine != nodes[j].machine)
  }

  predicate Includes(nodes: seq<NodeRequest>, id: Id) {
    exists i :: 0 <= i < |nodes| && nodes[i].machine == id
  }

  ghost predicate IncludesMaster(nodes: seq<NodeRequest>, id: Id) {
    exists i :: 0 <= i < |nodes| && nodes[i].machine == id && nodes[i].role.Master?
  }

  ghost predicate VipAccepted(req: Request) {
    && (req.initializeVip ==> req.moveVip && req.currentMaster == NoId)
    && (req.vipOnly ==>
          req.moveVip && !req.architecture.Standalone? && req.preferred != NoId
          && IncludesMaster(req.nodes, req.preferred))
    && (req.moveVip && req.currentMaster != NoId ==> req.preferred != req.currentMaster)
  }

  ghost predicate RolesFit(req: Request) {
    var masters, independents := CountRole(req.nodes, Master), CountRole(req.nodes, Independent);
    match req.architecture
    case Standalone => independents == |req.nodes| && masters == 0 && !req.moveVip
    case MasterSlave => independents == 0 && masters == 1
    case DualMaster => independents == 0 && masters == 2
    case MultiMaster => independents == 0 && masters >= 3
    case Unsupported => false
  }

  ghost predicate Accepted(req: Request) {
    && !req.architecture.Unsupported?
    && NodesAccepted(req.nodes)
    && (req.currentMaster != NoId ==> Includes(req.nodes, req.currentMaster))
    && VipAccepted(req)
    && RolesFit(req)
  }

  // --- validateArchitectureRequest -----------------------------------------------

  lemma IncludesSnoc(nodes: seq<NodeRequest>, node: NodeRequest)
    ensures forall id :: Includes(nodes + [node], id) <==> Includes(nodes, id) || id == node.machine
  {
    var longer := nodes + [node];
    forall id ensures Includes(longer, id) <==> Includes(nodes, id) || id == node.machine {
      if Includes(nodes, id) {
        var j :| 0 <= j < |nodes| && nodes[j].machine == id;
        assert longer[j].machine == id;
      }
      assert longer[|nodes|].machine == node.machine;
    }
  }

  lemma AcceptedSnoc(nodes: seq<NodeRequest>, node: NodeRequest)
    ensures NodesAccepted(nodes + [node]) <==>
              NodesAccepted(nodes) && NodeAccepted(node) && !Includes(nodes, node.machine)
  {
    var longer := nodes + [node];
    assert longer[|nodes|] == node;
    assert forall i :: 0 <= i < |nodes| ==> longer[i] == nodes[i];
  }

  lemma AcceptedPrefix(nodes: seq<NodeRequest>, k: nat)
    requires k <= |nodes| && NodesAccepted(nodes)
    ensures NodesAccepted(nodes[..k])
  {
  }

  /** The checks on one node, in the order they are made. */
  function NodeRejection(node: NodeRequest): (r: Option<Rejection>)
    ensures node.machine != NoId ==> (r.None? <==> NodeAccepted(node))
  {
    if node.delaySeconds < 0 then Some(NegativeDelay)
    else if node.role.UnknownRole? then Some(BadRole)
    else if node.role.Master? && node.delaySeconds > 0 then Some(DelayedMaster)
    else if node.role.Independent? && (node.sourceMachine != NoId || node.delaySeconds != 0) then
      Some(ReplicatingIndependent)
    else None
  }

  method ValidateNodes(nodes: seq<NodeRequest>)
      returns (r: Option<Rejection>, masters: nat, independents: nat, seen: set<Id>)
    ensures r.None? <==> NodesAccepted(nodes)
    ensures r.None? ==> masters == CountRole(nodes, Master) && independents == CountRole(nodes, Independent)
    ensures r.None? ==> forall id :: id in seen <==> Includes(nodes, id)
  {
    r, masters, independents, seen := None, 0, 0, {};
    var i := 0;
    while i < |nodes| && r.None?
      invariant 0 <= i <= |nodes|
      invariant r.None? ==> NodesAccepted(nodes[..i])
      invariant r.None? ==>
                  masters == CountRole(nodes[..i], Master) && independents == CountRole(nodes[..i], Independent)
      invariant r.None? ==> forall id :: id in seen <==> Includes(nodes[..i], id)
      invariant r.Some? ==> !NodesAccepted(nodes[..i])
    {
      var node := nodes[i];
      IncludesSnoc(nodes[..i], node);
      AcceptedSnoc(nodes[..i], node);
      assert nodes[..i + 1] == nodes[..i] + [node];
      if node.machine == NoId {
        r := Some(MissingMachine);
      } else if node.machine in seen {
        r := Some(DuplicateMachine);
      } else {
        seen := seen + {node.machine};
        r := NodeRejection(node);
        if node.role.Master? {
          masters := masters + 1;
        } else if node.role.Independent? {
          independents := independents + 1;
        }
      }
      i := i + 1;
    }
    if r.Some? && NodesAccepted(nodes) {
      AcceptedPrefix(nodes, i);
    }
    assert r.None? ==> nodes[..i] == nodes;
  }

  method TargetIsMaster(nodes: seq<NodeRequest>, id: Id) returns (found: bool)
    ensures found <==> IncludesMaster(nodes, id)
  {
    for i := 0 to |nodes|
      invariant forall j :: 0 <= j < i ==> !(nodes[j].machine == id && nodes[j].role.Master?)
    {
      if nodes[i].machine == id && nodes[i].role.Master? {
        return true;
      }
    }
    return false;
  }

  method ValidateVip(req: Request) returns (r: Option<Rejection>)
    ensures r.None? <==> VipAccepted(req)
  {
    if req.initializeVip && !req.moveVip { return Some(InitializeWithoutMove); }
    if req.initializeVip && req.currentMaster != NoId { return Some(InitializeWithCurrentMaster); }
    if req.vipOnly && !req.moveVip { return Some(VipOnlyWithoutMove); }
    if req.vipOnly && req.architecture.Standalone? { return Some(VipOnlyStandalone); }
    if req.vipOnly {
      if req.preferred == NoId { return Some(VipOnlyWithoutTarget); }
      var targetIsMaster := TargetIsMaster(req.nodes, req.preferred);
      if !targetIsMaster { return Some(VipOnlyTargetNotMaster); }
    }
    if req.moveVip && req.currentMaster != NoId && !req.initializeVip && req.preferred == req.currentMaster {
      return Some(VipAlreadyThere);
    }
    return None;
  }

  method Validate(req: Request) returns (r: Option<Rejection>)
    ensures r.None? <==> Accepted(req)
  {
    if req.architecture.Unsupported? { return Some(UnsupportedArchitecture); }
    var masters, independents, seen;
    r, masters, independents, seen := ValidateNodes(req.nodes);
    if r.Some? { return; }
    if req.currentMaster != NoId && req.currentMaster !in seen { return Some(CurrentMasterNotIncluded); }
    r := ValidateVip(req);
    if r.Some? { return; }
    if req.architecture.Standalone? {
      if independents != |req.nodes| || masters != 0 { return Some(StandaloneNeedsIndependents); }
      if req.moveVip { return Some(StandaloneOwnsVip); }
      return None;
    }
    if independents != 0 { return Some(IndependentInReplication); }
    if req.architecture.MasterSlave? && masters != 1 { return Some(MasterCount); }
    if req.architecture.DualMaster? && masters != 2 { return Some(MasterCount); }
    if req.architecture.MultiMaster? && masters < 3 { return Some(MasterCount); }
    return None;
  }

  // --- consequences the executor relies on ----------------------------------------

  lemma {:induction false} CountZero(nodes: seq<NodeRequest>, role: Role)
    ensures CountRole(nodes, role) == 0 <==> forall i :: 0 <= i < |nodes| ==> nodes[i].role != role
  {
    if nodes == [] {
    } else {
      var front := nodes[..|nodes| - 1];
      CountZero(front, role);
      assert forall i :: 0 <= i < |front| ==> front[i] == nodes[i];
    }
  }

  /** A master_slave request has one master, so any two nodes asking for that
      role are the same node. */
  lemma {:induction false} OneMaster(nodes: seq<NodeRequest>, i: int, j: int)
    requires CountRole(nodes, Master) == 1
    requires 0 <= i < |nodes| && nodes[i].role.Master?
    requires 0 <= j < |nodes| && nodes[j].role.Master?
    ensures i == j
  {
    var front := nodes[..|nodes| - 1];
    CountZero(front, Master);
    assert forall k :: 0 <= k < |front| ==> front[k] == nodes[k];
    if i < |front| && j < |front| {
      OneMaster(front, i, j);
    }
  }

  /** architectureParticipationRequest: the nodes that take part in the topology
      after promotion, in request order. */
  function Participating(nodes: seq<NodeRequest>, detached: seq<Id>): (r: seq<NodeRequest>)
    ensures forall n :: n in r <==> n in nodes && n.machine !in detached
  {
    if nodes == [] then []
    else
      var front, last := Participating(nodes[..|nodes| - 1], detached), nodes[|nodes| - 1];
      assert nodes == nodes[..|nodes| - 1] + [last];
      if last.machine in detached then front else front + [last]
  }

  lemma {:induction false} ParticipantsAccepted(nodes: seq<NodeRequest>, detached: seq<Id>)
    requires NodesAccepted(nodes)
    ensures NodesAccepted(Participating(nodes, detached))
  {
    if nodes == [] {
    } else {
      var front, last := nodes[..|nodes| - 1], nodes[|nodes| - 1];
      assert nodes == front + [last];
      AcceptedSnoc(front, last);
      ParticipantsAccepted(front, detached);
      var kept := Participating(front, detached);
      forall i | 0 <= i < |kept| ensures kept[i].machine != last.machine {
        assert kept[i] in front;
      }
      AcceptedSnoc(kept, last);
    }
  }

  method ParticipationRequest(req: Request) returns (filtered: Request)
    ensures filtered == req.(nodes := Participating(req.nodes, req.detached))
  {
    var nodes := [];
    for i := 0 to |req.nodes|
      invariant nodes == Participating(req.nodes[..i], req.detached)
    {
      assert req.nodes[..i + 1][..i] == req.nodes[..i];
      if req.nodes[i].machine !in req.detached {
        nodes := nodes + [req.nodes[i]];
      }
    }
    assert req.nodes[..|req.nodes|] == req.nodes;
    filtered := req.(nodes := nodes);
  }
}
