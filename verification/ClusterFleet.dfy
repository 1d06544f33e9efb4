/** The environment of a topology change: the MySQL nodes of one cluster, the VIP
    holders, the failover lock, and the Agent commands that act on them. A command
    that reports failure may or may not have taken effect. Every state the fleet
    passes through is kept in `trace`, and what is watched holds of all of them. */
module ClusterFleet {
  import opened Wrappers
  import opened ArchitectureRequest

  type Vip = string

  type LockId = string

  datatype Node = Node(version: nat, readOnly: bool, superReadOnly: bool, offline: bool, source: Option<Id>) {
    /** No session, privileged or not, can write. */
    predicate Fenced() { readOnly && superReadOnly }
  }

  datatype Snapshot = Snapshot(nodes: map<Id, Node>, holders: map<Vip, set<Id>>)

  datatype Effect =
    | SetOffline(on: bool)
    | SetReadOnly(on: bool)
    | SetSuperReadOnly(on: bool)
    | DetachSource
    | Follow(source: Id)
    | Install(version: nat)

  function Apply(n: Node, e: Effect): Node {
    match e
    case SetOffline(on) => n.(offline := on)
    case SetReadOnly(on) => n.(readOnly := on)
    case SetSuperReadOnly(on) => n.(superReadOnly := on)
    case DetachSource => n.(source := None)
    case Follow(source) => n.(source := Some(source))
    case Install(version) => n.(version := version)
  }

  /** What a run has waited for or checked, and the state it saw then. */
  datatype Fact =
    | LockHeld
    | LockNotReleased
    | SessionsDrained(node: Id)
    | CaughtUp(node: Id)
    | ForceConfirmed
    | FenceConfirmed(node: Id)
    | AccountReady(node: Id)
    | Checksummed(node: Id, again: bool)
    | HeldBy(address: Vip, node: Id)
    | SwitchoverPlanned(node: Id)
    | Passed(check: Check, node: Id)

  /** What is asked of the nodes one by one. */
  datatype Check =
    | PreflightCheck | RoleAndReplication | DataCompared
    | ToolkitInstalled | ReplicaRestarted | Synchronised | Rechecked
    | UpgradePrecheck | FoundDetached | FoundReplicating

  /** The order of the Toolkit's work: it sums the source after it was installed, and after
      replication was restarted where it repairs; it synchronises on that sum, sums again,
      and looks for differences on the sum taken last. */
  predicate InOrder(last: Fact, next: Fact) {
    match next
    case Checksummed(_, true) => OnFirstSum(last, Synchronised)
    case Checksummed(_, false) => PassedLast(last, ToolkitInstalled) || PassedLast(last, ReplicaRestarted)
    case Passed(check, _) =>
      (match check
       case ReplicaRestarted => PassedLast(last, ToolkitInstalled) || PassedLast(last, ReplicaRestarted)
       case Synchronised => OnFirstSum(last, Synchronised)
       case DataCompared => OnFirstSum(last, DataCompared)
       case Rechecked => (last.Checksummed? && last.again) || PassedLast(last, Rechecked)
       case _ => true)
    case _ => true
  }

  predicate PassedLast(last: Fact, check: Check) {
    last.Passed? && last.check == check
  }

  predicate OnFirstSum(last: Fact, check: Check) {
    (last.Checksummed? && !last.again) || PassedLast(last, check)
  }

  datatype Note = Note(fact: Fact, at: nat, state: Snapshot)

  /** Since index `from` a node has passed a check. */
  ghost predicate PassedSince(notes: set<Note>, from: nat, check: Check, m: Id) {
    exists n :: n in notes && n.fact == Passed(check, m) && n.at >= from
  }

  ghost predicate OthersFenced(nodes: map<Id, Node>, id: Id) {
    forall n :: n in nodes && n != id ==> nodes[n].Fenced()
  }

  ghost predicate AtMostOneWriter(nodes: map<Id, Node>) {
    forall a, b :: EitherFenced(nodes, a, b)
  }

  predicate EitherFenced(nodes: map<Id, Node>, a: Id, b: Id) {
    a in nodes && b in nodes && a != b ==> nodes[a].Fenced() || nodes[b].Fenced()
  }

  /** Replication runs from an older or equal version to a newer or equal one. */
  ghost predicate LinksOrdered(nodes: map<Id, Node>) {
    forall n :: LinkOrdered(nodes, n)
  }

  predicate LinkOrdered(nodes: map<Id, Node>, n: Id) {
    n in nodes && nodes[n].source.Some? && nodes[n].source.value in nodes
    ==> nodes[nodes[n].source.value].version <= nodes[n].version
  }

  ghost predicate Allowed(writers: bool, links: bool, nodes: map<Id, Node>) {
    (writers ==> AtMostOneWriter(nodes)) && (links ==> LinksOrdered(nodes))
  }

  ghost predicate AllAllowed(writers: bool, links: bool, trace: seq<Snapshot>, from: nat) {
    forall i {:trigger Allowed(writers, links, trace[i].nodes)} ::
      from <= i < |trace| ==> Allowed(writers, links, trace[i].nodes)
  }

  lemma AllowedSnoc(writers: bool, links: bool, trace: seq<Snapshot>, from: nat, s: Snapshot)
    requires AllAllowed(writers, links, trace, from) && Allowed(writers, links, s.nodes)
    ensures AllAllowed(writers, links, trace + [s], from)
  {
    var longer := trace + [s];
    forall i | from <= i < |longer| ensures Allowed(writers, links, longer[i].nodes) {
      assert i < |trace| ==> Allowed(writers, links, trace[i].nodes);
    }
  }

  ghost predicate HoldersChain(trace: seq<Snapshot>) {
    forall i :: StepAt(trace, i)
  }

  ghost predicate StepAt(trace: seq<Snapshot>, i: int) {
    0 < i < |trace| ==> HoldersStep(trace[i - 1].holders, trace[i].holders)
  }

  lemma ChainSnoc(trace: seq<Snapshot>, s: Snapshot)
    requires HoldersChain(trace) && trace != [] && HoldersStep(trace[|trace| - 1].holders, s.holders)
    ensures HoldersChain(trace + [s])
  {
    forall i ensures StepAt(trace + [s], i) {
      assert StepAt(trace, i);
    }
  }

  /** One step of the VIP holders: they only shrink, or a single machine takes an
      address nobody holds. */
  ghost predicate HoldersStep(s: map<Vip, set<Id>>, t: map<Vip, set<Id>>) {
    && s.Keys == t.Keys
    && forall v :: v in s ==> AddressStep(s[v], t[v])
  }

  ghost predicate AddressStep(s: set<Id>, t: set<Id>) {
    t <= s || (s == {} && exists m :: t == {m})
  }

  predicate Harmless(e: Effect) {
    e.SetOffline? || e == SetReadOnly(true) || e == SetSuperReadOnly(true) || e.DetachSource?
  }

  lemma HarmlessIsPermitted(nodes: map<Id, Node>, m: Id, e: Effect)
    requires m in nodes && Harmless(e)
    ensures AtMostOneWriter(nodes) ==> AtMostOneWriter(nodes[m := Apply(nodes[m], e)])
    ensures LinksOrdered(nodes) ==> LinksOrdered(nodes[m := Apply(nodes[m], e)])
  {
    var after := nodes[m := Apply(nodes[m], e)];
    if AtMostOneWriter(nodes) {
      forall a, b ensures EitherFenced(after, a, b) {
        assert EitherFenced(nodes, a, b);
      }
    }
    if LinksOrdered(nodes) {
      forall n ensures LinkOrdered(after, n) {
        assert LinkOrdered(nodes, n);
      }
    }
  }

  lemma OpeningIsPermitted(nodes: map<Id, Node>, m: Id, e: Effect)
    requires m in nodes && OthersFenced(nodes, m) && (e.SetReadOnly? || e.SetSuperReadOnly?)
    ensures AtMostOneWriter(nodes[m := Apply(nodes[m], e)])
    ensures LinksOrdered(nodes) ==> LinksOrdered(nodes[m := Apply(nodes[m], e)])
  {
    var after := nodes[m := Apply(nodes[m], e)];
    if LinksOrdered(nodes) {
      forall n ensures LinkOrdered(after, n) {
        assert LinkOrdered(nodes, n);
      }
    }
  }

  lemma FollowIsPermitted(nodes: map<Id, Node>, m: Id, source: Id)
    requires m in nodes && source in nodes
    ensures AtMostOneWriter(nodes) ==> AtMostOneWriter(nodes[m := Apply(nodes[m], Follow(source))])
    ensures LinksOrdered(nodes) && nodes[source].version <= nodes[m].version
            ==> LinksOrdered(nodes[m := Apply(nodes[m], Follow(source))])
  {
    var after := nodes[m := Apply(nodes[m], Follow(source))];
    if AtMostOneWriter(nodes) {
      forall a, b ensures EitherFenced(after, a, b) {
        assert EitherFenced(nodes, a, b);
      }
    }
    if LinksOrdered(nodes) && nodes[source].version <= nodes[m].version {
      forall n ensures LinkOrdered(after, n) {
        assert LinkOrdered(nodes, n);
      }
    }
  }

  class Fleet {
    const machines: seq<Id>                // every machine of the cluster, sorted
    const confirms: bool                   // whether a run that waits for a forced switch gets its confirmation
    const sharesAccount: bool              // whether replication uses the management account
    var nodes: map<Id, Node>
    var holders: map<Vip, set<Id>>      // per VIP address
    var expected: map<Vip, Id>          // recorded holder per VIP address, NoId when none
    var lockOwner: Option<LockId>
    ghost var trace: seq<Snapshot>
    ghost var faults: nat                  // commands and probes that reported failure
    ghost var silent: nat                  // detaches that were lost without a report
    ghost var asked: nat                   // probes for the holders of an address that were answered
    ghost var notes: set<Note>
    ghost var last: Fact                   // confirmed last
    ghost var watchFrom: nat
    ghost var watchWriters: bool
    ghost var watchLinks: bool

    ghost predicate Permitted(nodes: map<Id, Node>)
      reads this
    {
      Allowed(watchWriters, watchLinks, nodes)
    }

    ghost function Now(): Snapshot
      reads this
    {
      Snapshot(nodes, holders)
    }

    ghost predicate Valid()
      reads this
    {
      && watchFrom < |trace| && trace[|trace| - 1] == Now()
      && AllAllowed(watchWriters, watchLinks, trace, watchFrom)
      && HoldersChain(trace)
      && holders.Keys == expected.Keys
      && HoldersKnown(holders)
    }

    ghost predicate HoldersKnown(holders: map<Vip, set<Id>>) {
      forall v :: v in holders ==> forall m :: m in holders[v] ==> m in machines
    }

    /** What no command changes. */
    twostate predicate SameRun()
      reads this
    {
      && lockOwner == old(lockOwner) && nodes.Keys == old(nodes).Keys && holders.Keys == old(holders).Keys
      && watchFrom == old(watchFrom) && watchWriters == old(watchWriters) && watchLinks == old(watchLinks)
      && old(trace) <= trace
      && Grows()
    }

    /** What only grows. */
    twostate predicate Grows()
      reads this
    {
      old(faults) <= faults && old(silent) <= silent && old(asked) <= asked && old(notes) <= notes
    }

    /** Nothing was reported as failed, and no detach was lost. */
    twostate predicate NoFault()
      reads this
    {
      faults == old(faults) && silent == old(silent)
    }

    twostate predicate SameVips()
      reads this
    {
      holders == old(holders) && expected == old(expected)
    }

    /** Node `m` is the only one that may have changed, and it kept its version. */
    twostate predicate OnlyNode(m: Id)
      reads this
    {
      && SameVips()
      && (forall n :: n in old(nodes) && n in nodes && n != m ==> nodes[n] == old(nodes)[n])
      && (m in old(nodes) && m in nodes ==> nodes[m].version == old(nodes)[m].version)
    }

    constructor (machines: seq<Id>, nodes: map<Id, Node>, holders: map<Vip, set<Id>>, expected: map<Vip, Id>)
      requires holders.Keys == expected.Keys
      requires forall v :: v in holders ==> forall m :: m in holders[v] ==> m in machines
      ensures Valid() && lockOwner.None? && this.machines == machines
      ensures this.nodes == nodes && this.holders == holders && this.expected == expected
      ensures trace == [Snapshot(nodes, holders)] && notes == {} && faults == silent == asked == 0
      ensures !watchWriters && !watchLinks
    {
      this.machines, this.nodes, this.holders, this.expected := machines, nodes, holders, expected;
      confirms, sharesAccount := *, *;
      lockOwner := None;
      trace, faults, watchFrom, watchWriters, watchLinks := [Snapshot(nodes, holders)], 0, 0, false, false;
      notes, last, asked, silent := {}, LockHeld, 0, 0;
    }

    /** From here on the stated properties must hold of every state. */
    ghost method Watch(writers: bool, links: bool)
      requires Valid()
      requires writers ==> AtMostOneWriter(nodes)
      requires links ==> LinksOrdered(nodes)
      modifies `watchFrom, `watchWriters, `watchLinks
      ensures Valid() && watchFrom == |trace| - 1 && watchWriters == writers && watchLinks == links
    {
      watchFrom, watchWriters, watchLinks := |trace| - 1, writers, links;
    }

    /** Of the present state, too. */
    lemma NowPermitted()
      requires Valid()
      ensures Permitted(nodes)
    {
      assert Allowed(watchWriters, watchLinks, trace[|trace| - 1].nodes);
    }

    /** Appends the state just reached to the trace. */
    ghost method Record()
      requires watchFrom < |trace| && AllAllowed(watchWriters, watchLinks, trace, watchFrom)
      requires HoldersChain(trace) && HoldersStep(trace[|trace| - 1].holders, holders)
      requires holders.Keys == expected.Keys && HoldersKnown(holders) && Permitted(nodes)
      modifies `trace
      ensures Valid() && trace == old(trace) + [Now()]
    {
      ChainSnoc(trace, Now());
      AllowedSnoc(watchWriters, watchLinks, trace, watchFrom, Now());
      trace := trace + [Now()];
    }

    // --- the failover lock -----------------------------------------------------------

    method AcquireLock(owner: LockId) returns (ok: bool)
      requires Valid()
      modifies `lockOwner, `faults
      ensures Valid() && old(faults) <= faults
      ensures ok <==> old(lockOwner).None? && faults == old(faults)
      ensures lockOwner == if ok then Some(owner) else old(lockOwner)
    {
      ok := false;
      if lockOwner.None? {
        ok := Observe();
      }
      if ok {
        lockOwner := Some(owner);
      }
    }

    /** Deletes the row only if `owner` still holds it. */
    method ReleaseLock(owner: LockId) returns (ok: bool)
      requires Valid()
      modifies `lockOwner, `faults, `notes
      ensures Valid() && old(faults) <= faults
      ensures ok <==> faults == old(faults)
      ensures ok ==> lockOwner == (if old(lockOwner) == Some(owner) then None else old(lockOwner))
      ensures !ok ==> lockOwner == old(lockOwner)
      ensures notes == old(notes) + if ok then {} else {Note(LockNotReleased, |trace|, Now())}
    {
      ok := Observe();
      if ok && lockOwner == Some(owner) {
        lockOwner := None;
      }
      if !ok {
        Take(LockNotReleased);
      }
    }

    /** The lock of a run that is over: gone, or its release was tried and failed. */
    ghost predicate GivenBack()
      reads this
    {
      lockOwner.None? || Note(LockNotReleased, |trace|, Now()) in notes
    }

    // --- one statement on one node ------------------------------------------------------

    /** The only way a node changes. Only the lock holder sends commands, and no
        command is sent whose effect is not permitted. */
    method Do(m: Id, e: Effect) returns (ok: bool)
      requires Valid() && lockOwner.Some? && m in nodes
      requires Permitted(nodes[m := Apply(nodes[m], e)])
      modifies this
      ensures Valid() && SameRun() && SameVips()
      ensures nodes == old(nodes) || nodes == old(nodes)[m := Apply(old(nodes)[m], e)]
      ensures ok ==> nodes == old(nodes)[m := Apply(old(nodes)[m], e)] && faults == old(faults)
      ensures !ok ==> faults == old(faults) + 1
      ensures |trace| == old(|trace|) + 1 && silent == old(silent)
    {
      ok := *;
      var applied: bool := *;
      if ok || applied {
        nodes := nodes[m := Apply(nodes[m], e)];
      }
      if !ok {
        faults := faults + 1;
      }
      Record();
    }

    /** A statement that opens no node for writes and adds no link is always permitted. */
    method DoHarmless(m: Id, e: Effect) returns (ok: bool)
      requires Valid() && lockOwner.Some? && m in nodes && Harmless(e)
      modifies this
      ensures Valid() && SameRun() && SameVips()
      ensures nodes == old(nodes) || nodes == old(nodes)[m := Apply(old(nodes)[m], e)]
      ensures ok ==> nodes == old(nodes)[m := Apply(old(nodes)[m], e)] && faults == old(faults)
      ensures !ok ==> faults == old(faults) + 1
      ensures |trace| == old(|trace|) + 1 && silent == old(silent)
    {
      NowPermitted();
      HarmlessIsPermitted(nodes, m, e);
      ok := Do(m, e);
    }

    /** Replication is set up behind offline_mode. */
    method PointAt(m: Id, source: Id) returns (ok: bool)
      requires Valid() && lockOwner.Some? && m in nodes && source in nodes && nodes[m].offline
      requires watchLinks ==> nodes[source].version <= nodes[m].version
      modifies this
      ensures Valid() && SameRun() && SameVips()
      ensures nodes == old(nodes) || nodes == old(nodes)[m := old(nodes)[m].(source := Some(source))]
      ensures ok ==> nodes == old(nodes)[m := old(nodes)[m].(source := Some(source))] && faults == old(faults)
      ensures !ok ==> faults == old(faults) + 1
    {
      NowPermitted();
      FollowIsPermitted(nodes, m, source);
      ok := Do(m, Follow(source));
    }

    // --- commands the executor sends --------------------------------------------------------

    /** SET GLOBAL offline_mode, read_only, super_read_only ON. */
    method Freeze(m: Id) returns (ok: bool)
      requires Valid() && lockOwner.Some? && m in nodes
      modifies this
      ensures Valid() && SameRun() && OnlyNode(m)
      ensures nodes[m].source == old(nodes)[m].source
      ensures old(nodes)[m].Fenced() ==> nodes[m].Fenced()
      ensures ok ==> nodes[m].Fenced() && nodes[m].offline
      ensures (ok <==> faults == old(faults)) && silent == old(silent)
      ensures |trace| > old(|trace|)
    {
      ok := DoHarmless(m, SetOffline(true));
      if ok { ok := DoHarmless(m, SetReadOnly(true)); }
      if ok { ok := DoHarmless(m, SetSuperReadOnly(true)); }
    }

    /** The same once more, with a check of the result. */
    method Fence(m: Id) returns (ok: bool)
      requires Valid() && lockOwner.Some? && m in nodes
      modifies this
      ensures Valid() && SameRun() && OnlyNode(m)
      ensures nodes[m].source == old(nodes)[m].source
      ensures ok ==> nodes[m].Fenced() && nodes[m].offline && |trace| > old(|trace|)
      ensures ok ==> Note(FenceConfirmed(m), |trace|, Now()) in notes
      ensures (ok <==> faults == old(faults)) && silent == old(silent)
    {
      ok := Freeze(m);
      if ok {
        Take(FenceConfirmed(m));
      }
    }

    /** STOP REPLICA and RESET REPLICA ALL, each `|| true`: a failure is silent. */
    method TryDetach(m: Id)
      requires Valid() && lockOwner.Some? && m in nodes
      modifies this
      ensures Valid() && SameRun() && SameVips()
      ensures nodes == old(nodes) || nodes == old(nodes)[m := old(nodes)[m].(source := None)]
      ensures faults == old(faults) && (silent == old(silent) ==> nodes[m].source.None?)
    {
      NowPermitted();
      HarmlessIsPermitted(nodes, m, DetachSource);
      var applied: bool := *;
      if applied {
        nodes := nodes[m := Apply(nodes[m], DetachSource)];
      } else {
        silent := silent + 1;
      }
      Record();
    }

    /** promote_new_master: detach, then open for writes behind offline_mode. */
    method Promote(m: Id) returns (ok: bool)
      requires Valid() && lockOwner.Some? && m in nodes && OthersFenced(nodes, m)
      modifies this
      ensures Valid() && SameRun() && OnlyNode(m)
      ensures nodes[m].source == old(nodes)[m].source || nodes[m].source.None?
      ensures ok ==> !nodes[m].readOnly && !nodes[m].superReadOnly && nodes[m].offline
      ensures ok <==> faults == old(faults)
      ensures silent == old(silent) ==> nodes[m].source.None?
    {
      TryDetach(m);
      ok := DoHarmless(m, SetOffline(true));
      if ok { ok := SetRole(m, true); }
    }

    /** A flag is cleared while all other nodes are fenced and this one is closed to
        business. */
    method OpenUp(m: Id, e: Effect) returns (ok: bool)
      requires Valid() && lockOwner.Some? && m in nodes && OthersFenced(nodes, m) && nodes[m].offline
      requires e == SetReadOnly(false) || e == SetSuperReadOnly(false)
      modifies this
      ensures Valid() && SameRun() && SameVips()
      ensures nodes == old(nodes) || nodes == old(nodes)[m := Apply(old(nodes)[m], e)]
      ensures ok ==> nodes == old(nodes)[m := Apply(old(nodes)[m], e)] && faults == old(faults)
      ensures !ok ==> faults == old(faults) + 1
      ensures |trace| == old(|trace|) + 1 && silent == old(silent)
    {
      NowPermitted();
      OpeningIsPermitted(nodes, m, e);
      ok := Do(m, e);
    }

    /** The role flags: both off for a master, both on for a replica. */
    method SetRole(m: Id, writable: bool) returns (ok: bool)
      requires Valid() && lockOwner.Some? && m in nodes
      requires writable ==> OthersFenced(nodes, m) && nodes[m].offline
      modifies this
      ensures Valid() && SameRun() && OnlyNode(m)
      ensures nodes[m].source == old(nodes)[m].source && nodes[m].offline == old(nodes)[m].offline
      ensures !writable && old(nodes)[m].Fenced() ==> nodes[m].Fenced()
      ensures ok ==> nodes[m].readOnly == nodes[m].superReadOnly == !writable
      ensures (ok <==> faults == old(faults)) && silent == old(silent)
    {
      if writable {
        ok := OpenUp(m, SetSuperReadOnly(false));
        if ok { ok := OpenUp(m, SetReadOnly(false)); }
      } else {
        ok := DoHarmless(m, SetReadOnly(true));
        if ok { ok := DoHarmless(m, SetSuperReadOnly(true)); }
      }
    }

    /** One replica of configureArchitectureTopology: detach, point at the source,
        persist the role. */
    method Repoint(m: Id, source: Id) returns (ok: bool)
      requires Valid() && lockOwner.Some? && m in nodes && source in nodes
      requires watchLinks ==> nodes[source].version <= nodes[m].version
      modifies this
      ensures Valid() && SameRun() && OnlyNode(m)
      ensures nodes[m].source in {old(nodes)[m].source, None, Some(source)}
      ensures old(nodes)[m].Fenced() ==> nodes[m].Fenced()
      ensures ok ==> nodes[m].source == Some(source) && nodes[m].offline && nodes[m].Fenced()
      ensures ok <==> faults == old(faults)
    {
      ok := ChangeSource(m, source);
      if ok { ok := SetRole(m, false); }
    }

    /** Detach, then CHANGE REPLICATION SOURCE and START REPLICA behind offline_mode. */
    method ChangeSource(m: Id, source: Id) returns (ok: bool)
      requires Valid() && lockOwner.Some? && m in nodes && source in nodes
      requires watchLinks ==> nodes[source].version <= nodes[m].version
      modifies this
      ensures Valid() && SameRun() && OnlyNode(m)
      ensures nodes[m].source in {old(nodes)[m].source, None, Some(source)}
      ensures nodes[m].readOnly == old(nodes)[m].readOnly && nodes[m].superReadOnly == old(nodes)[m].superReadOnly
      ensures ok ==> nodes[m].source == Some(source) && nodes[m].offline
      ensures ok <==> faults == old(faults)
    {
      TryDetach(m);
      ok := DoHarmless(m, SetOffline(true));
      if ok { ok := PointAt(m, source); }
    }

    /** resume_business_connections on one node. */
    method Resume(m: Id) returns (ok: bool)
      requires Valid() && lockOwner.Some? && m in nodes
      modifies this
      ensures Valid() && SameRun() && OnlyNode(m)
      ensures nodes[m] == old(nodes)[m].(offline := nodes[m].offline)
      ensures ok ==> !nodes[m].offline
      ensures (ok <==> faults == old(faults)) && silent == old(silent)
    {
      ok := DoHarmless(m, SetOffline(false));
    }

    /** What a node reports of itself; without an answer nothing is known. */
    method Probe(m: Id) returns (ok: bool, answer: Node)
      requires Valid() && m in nodes
      modifies `faults
      ensures Valid() && old(faults) <= faults
      ensures ok ==> answer == nodes[m]
      ensures ok <==> faults == old(faults)
    {
      answer := *;
      ok := Observe();
      if ok {
        answer := nodes[m];
      }
    }

    /** A command or probe that reads or repairs data but changes no modelled state. */
    method Observe() returns (ok: bool)
      requires Valid()
      modifies `faults
      ensures Valid()
      ensures ok ==> faults == old(faults)
      ensures !ok ==> faults == old(faults) + 1
    {
      ok := *;
      if !ok {
        faults := faults + 1;
      }
    }

    /** A command that waits for a fact, or checks it. */
    method Confirm(fact: Fact) returns (ok: bool)
      requires Valid() && InOrder(last, fact)
      modifies `faults, `notes, `last
      ensures Valid() && old(faults) <= faults
      ensures ok <==> faults == old(faults)
      ensures notes == old(notes) + if ok then {Note(fact, |trace|, Now())} else {}
      ensures last == if ok then fact else old(last)
    {
      ok := Observe();
      if ok {
        notes, last := notes + {Note(fact, |trace|, Now())}, fact;
      }
    }

    /** Ends the business sessions of a node: a command that leaves the modelled state as
        it is, and reports when nothing is left to end. */
    method KillSessions(m: Id) returns (ok: bool)
      requires Valid() && lockOwner.Some?
      modifies this
      ensures Valid() && SameRun() && SameVips() && nodes == old(nodes)
      ensures ok ==> Note(SessionsDrained(m), |trace|, Now()) in notes
      ensures (ok <==> faults == old(faults)) && silent == old(silent)
      ensures |trace| == old(|trace|) + 1 && silent == old(silent)
    {
      NowPermitted();
      Record();
      ok := Confirm(SessionsDrained(m));
    }

    /** A fact the command just sent has reported along with its success. */
    ghost method Take(fact: Fact)
      requires Valid()
      modifies `notes
      ensures Valid() && notes == old(notes) + {Note(fact, |trace|, Now())}
    {
      notes := notes + {Note(fact, |trace|, Now())};
    }

    /** The operator may confirm a forced switch, or not. */
    method AwaitForce() returns (forced: bool)
      requires Valid()
      modifies `notes
      ensures forced == confirms
      ensures Valid() && notes == old(notes) + if forced then {Note(ForceConfirmed, |trace|, Now())} else {}
    {
      forced := confirms;
      if forced {
        notes := notes + {Note(ForceConfirmed, |trace|, Now())};
      }
    }

    // --- VIP addresses -----------------------------------------------------------------------

    /** Remove or withdraw an address on one machine; success proves it absent. */
    method Withdraw(m: Id, v: Vip) returns (ok: bool)
      requires Valid() && lockOwner.Some? && v in holders
      modifies this
      ensures Valid() && SameRun() && nodes == old(nodes) && expected == old(expected)
      ensures holders == old(holders) || holders == old(holders)[v := old(holders)[v] - {m}]
      ensures ok ==> holders == old(holders)[v := old(holders)[v] - {m}]
      ensures (ok <==> faults == old(faults)) && silent == old(silent) && asked == old(asked)
    {
      ok := *;
      var applied: bool := *;
      if ok || applied {
        holders := holders[v := holders[v] - {m}];
      }
      if !ok {
        faults := faults + 1;
      }
      Record();
    }

    /** Bind or announce an address; it may only be sent while nobody holds it. */
    method Bind(m: Id, v: Vip) returns (ok: bool)
      requires Valid() && lockOwner.Some? && v in holders && m in machines
      requires holders[v] == {}
      modifies this
      ensures Valid() && SameRun() && nodes == old(nodes) && expected == old(expected)
      ensures holders == old(holders) || holders == old(holders)[v := {m}]
      ensures ok ==> holders == old(holders)[v := {m}]
      ensures (ok <==> faults == old(faults)) && silent == old(silent) && asked == old(asked)
    {
      ok := *;
      var applied: bool := *;
      if ok || applied {
        holders := holders[v := {m}];
        assert AddressStep({}, {m});
      }
      if !ok {
        faults := faults + 1;
      }
      Record();
    }

    /** Asks every machine in turn; an unanswered question fails the whole probe. */
    method ProbeHolders(v: Vip) returns (ok: bool, found: set<Id>)
      requires Valid() && v in holders
      modifies `faults, `asked
      ensures Valid() && old(faults) <= faults
      ensures ok ==> found == holders[v]
      ensures ok <==> faults == old(faults)
      ensures asked == old(asked) + if ok then 1 else 0
    {
      ok, found := true, {};
      var i := 0;
      while i < |machines| && ok
        invariant 0 <= i <= |machines| && Valid() && old(faults) <= faults
        invariant ok <==> faults == old(faults)
        invariant found == (set m | m in machines[..i] && m in holders[v]) && asked == old(asked)
      {
        assert machines[..i + 1] == machines[..i] + [machines[i]];
        ok := Observe();
        if machines[i] in holders[v] {
          found := found + {machines[i]};
        }
        i := i + 1;
      }
      assert ok ==> machines[..i] == machines;
      asked := asked + if ok then 1 else 0;
    }

    /** UpsertVIPBindingState, reduced to the recorded holder. */
    method RecordExpected(v: Vip, m: Id)
      requires Valid() && v in expected
      modifies `expected
      ensures Valid() && expected == old(expected)[v := m]
    {
      expected := expected[v := m];
    }
  }

  // --- what the holder steps add up to -----------------------------------------------------------

  /** Along any run an address that starts with at most one holder always has at
      most one; in general the count never exceeds what it was or one. */
  lemma {:induction false} NeverMoreHolders(trace: seq<Snapshot>, v: Vip, i: nat, j: nat)
    requires HoldersChain(trace) && i <= j < |trace| && v in trace[i].holders
    ensures v in trace[j].holders
    ensures |trace[j].holders[v]| <= if |trace[i].holders[v]| <= 1 then 1 else |trace[i].holders[v]|
  {
    if i < j {
      NeverMoreHolders(trace, v, i, j - 1);
      var s, t := trace[j - 1].holders, trace[j].holders;
      assert StepAt(trace, j) && AddressStep(s[v], t[v]);
      if t[v] <= s[v] {
        SubsetSize(t[v], s[v]);
      }
    }
  }

  lemma {:induction false} SubsetSize(a: set<Id>, b: set<Id>)
    requires a <= b
    ensures |a| <= |b|
  {
    if a == {} {
    } else {
      var x :| x in a;
      SubsetSize(a - {x}, b - {x});
    }
  }
}
