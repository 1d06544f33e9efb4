/** VIP movement: the executor's ordered remove-barrier-bind-verify over several
    addresses, and the VIP service's bind and delete under its own lock. */
module VipControl {
  import opened Wrappers
  import opened ArchitectureRequest
  import opened ClusterFleet

  datatype RouteMode = L2Arp | Bgp | UnsetMode | OtherMode

  datatype VipConfig = VipConfig(address: Vip, mode: RouteMode)

  datatype VipOutcome =
    | Moved
    | NoConfig
    | UnsupportedMode
    | NotAbsent
    | BarrierFailed
    | BindFailed
    | ProofFailed(withdrawn: bool)

  function EffectiveMode(vip: VipConfig, planMode: RouteMode): RouteMode {
    if vip.mode.UnsetMode? then planMode else vip.mode
  }

  predicate Supported(vip: VipConfig, planMode: RouteMode) {
    EffectiveMode(vip, planMode) in {L2Arp, Bgp}
  }

  /** Every address has a mode the program can move, and there is one to move. */
  ghost predicate AllMovable(configs: seq<VipConfig>, planMode: RouteMode) {
    configs != [] && forall i :: 0 <= i < |configs| ==> Supported(configs[i], planMode)
  }

  ghost predicate ConfigsKnown(configs: seq<VipConfig>, addresses: set<Vip>) {
    && (forall i :: 0 <= i < |configs| ==> configs[i].address in addresses)
    && (forall i, j :: 0 <= i < j < |configs| ==> Apart(configs, i, j))
  }

  predicate Apart(configs: seq<VipConfig>, i: int, j: int)
    requires 0 <= i < j < |configs|
  {
    configs[i].address != configs[j].address
  }

  lemma OthersApart(configs: seq<VipConfig>, addresses: set<Vip>, k: nat)
    requires ConfigsKnown(configs, addresses) && k < |configs|
    ensures forall i :: 0 <= i < |configs| && i != k ==> configs[i].address != configs[k].address
  {
    forall i | 0 <= i < |configs| && i != k ensures configs[i].address != configs[k].address {
      assert if i < k then Apart(configs, i, k) else Apart(configs, k, i);
    }
  }

  /** Every address but `v` is held as before. */
  ghost predicate OnlyVip(before: map<Vip, set<Id>>, after: map<Vip, set<Id>>, v: Vip) {
    before.Keys == after.Keys && forall w :: w in before && w != v ==> after[w] == before[w]
  }

  method WithdrawEverywhere(f: Fleet, v: Vip) returns (ok: bool)
    requires f.Valid() && f.lockOwner.Some? && v in f.holders
    modifies f
    ensures f.Valid() && f.SameRun() && f.nodes == old(f.nodes) && f.expected == old(f.expected)
    ensures OnlyVip(old(f.holders), f.holders, v) && f.holders[v] <= old(f.holders)[v]
    ensures ok ==> f.holders[v] == {}
    ensures ok <==> f.faults == old(f.faults)
  {
    ok := true;
    var i := 0;
    while i < |f.machines| && ok
      invariant 0 <= i <= |f.machines|
      invariant f.Valid() && f.SameRun() && f.nodes == old(f.nodes) && f.expected == old(f.expected)
      invariant OnlyVip(old(f.holders), f.holders, v) && f.holders[v] <= old(f.holders)[v]
      invariant ok ==> forall m :: m in f.machines[..i] ==> m !in f.holders[v]
      invariant ok <==> f.faults == old(f.faults)
    {
      ok := f.Withdraw(f.machines[i], v);
      i := i + 1;
    }
    if ok {
      assert f.machines[..i] == f.machines;
      assert forall m :: m in f.holders[v] ==> m in f.machines;
    }
  }

  /** Up to two rounds; the first that does not show the target alone ends it. */
  method ProveSingleHolder(f: Fleet, v: Vip, target: Id) returns (proved: bool)
    requires f.Valid() && v in f.holders
    modifies f`faults, f`asked
    ensures f.Valid() && old(f.faults) <= f.faults && old(f.asked) <= f.asked
    ensures proved ==> f.holders[v] == {target} && f.asked == old(f.asked) + 2
    ensures proved ==> f.faults == old(f.faults)
    ensures f.faults == old(f.faults) ==> (proved <==> f.holders[v] == {target})
  {
    proved := true;
    var round := 1;
    while round <= 2 && proved
      invariant f.Valid() && old(f.faults) <= f.faults
      invariant 1 <= round <= 3 && old(f.asked) <= f.asked
      invariant proved ==> f.asked == old(f.asked) + round - 1
      invariant proved && round > 1 ==> f.holders[v] == {target}
      invariant !proved && f.faults == old(f.faults) ==> f.holders[v] != {target}
      invariant proved ==> f.faults == old(f.faults)
    {
      var ok, found := f.ProbeHolders(v);
      proved := ok && found == {target};
      round := round + 1;
    }
  }

  /** Withdraw on every machine, then the zero-holder barrier. */
  method ClearVip(f: Fleet, v: Vip) returns (failure: Option<VipOutcome>)
    requires f.Valid() && f.lockOwner.Some? && v in f.holders
    modifies f
    ensures f.Valid() && f.SameRun() && f.nodes == old(f.nodes) && f.expected == old(f.expected)
    ensures OnlyVip(old(f.holders), f.holders, v) && f.holders[v] <= old(f.holders)[v]
    ensures failure.None? ==> f.holders[v] == {} && f.asked > old(f.asked)
    ensures failure.Some? ==> failure.value in {NotAbsent, BarrierFailed}
    ensures failure.None? ==> f.faults == old(f.faults)
    ensures f.faults == old(f.faults) ==> failure.None?
  {
    var absent := WithdrawEverywhere(f, v);
    if !absent {
      return Some(NotAbsent);
    }
    var answered, found := f.ProbeHolders(v);
    if !answered || found != {} {
      return Some(BarrierFailed);
    }
    return None;
  }

  /** Bind on the target, prove it the only holder twice, or take it back. */
  method BindProved(f: Fleet, v: Vip, target: Id) returns (r: VipOutcome)
    requires f.Valid() && f.lockOwner.Some? && v in f.holders && target in f.machines && f.holders[v] == {}
    modifies f
    ensures f.Valid() && f.SameRun() && f.nodes == old(f.nodes)
    ensures OnlyVip(old(f.holders), f.holders, v) && f.holders[v] <= {target}
    ensures r in {Moved, BindFailed, ProofFailed(true), ProofFailed(false)}
    ensures r.Moved? ==> f.holders[v] == {target} && f.expected == old(f.expected)[v := target]
    ensures r.Moved? ==> f.asked >= old(f.asked) + 2
    ensures r == ProofFailed(true) ==> f.holders[v] == {}
    ensures r.Moved? ==> f.faults == old(f.faults)
    ensures f.faults == old(f.faults) ==> r.Moved?
  {
    var bound := f.Bind(target, v);
    if !bound {
      return BindFailed;
    }
    r := ProveOrWithdraw(f, v, target);
  }

  method ProveOrWithdraw(f: Fleet, v: Vip, target: Id) returns (r: VipOutcome)
    requires f.Valid() && f.lockOwner.Some? && v in f.holders && f.holders[v] == {target}
    modifies f
    ensures f.Valid() && f.SameRun() && f.nodes == old(f.nodes)
    ensures OnlyVip(old(f.holders), f.holders, v) && f.holders[v] <= {target}
    ensures r in {Moved, ProofFailed(true), ProofFailed(false)}
    ensures f.expected == old(f.expected)[v := target]
    ensures r.Moved? ==> f.holders[v] == {target} && f.asked >= old(f.asked) + 2
    ensures r == ProofFailed(true) ==> f.holders[v] == {}
    ensures r.Moved? ==> f.faults == old(f.faults)
    ensures f.faults == old(f.faults) ==> r.Moved?
  {
    var proved := ProveSingleHolder(f, v, target);
    r := Moved;
    if !proved {
      var withdrawn := f.Withdraw(target, v);
      r := ProofFailed(withdrawn);
    }
    f.RecordExpected(v, target);
  }

  /** One round of the loop in moveArchitectureVIP. */
  method MoveOne(f: Fleet, vip: VipConfig, planMode: RouteMode, target: Id) returns (r: VipOutcome)
    requires f.Valid() && f.lockOwner.Some? && vip.address in f.holders && target in f.machines
    modifies f
    ensures f.Valid() && f.SameRun() && f.nodes == old(f.nodes)
    ensures OnlyVip(old(f.holders), f.holders, vip.address)
    ensures r.Moved? ==> f.holders[vip.address] == {target} && f.expected == old(f.expected)[vip.address := target]
    ensures r.Moved? ==> f.asked >= old(f.asked) + 3
    ensures r.UnsupportedMode? <==>
              !(vip.mode in {L2Arp, Bgp} || (vip.mode.UnsetMode? && planMode in {L2Arp, Bgp}))
    ensures r == ProofFailed(true) ==> f.holders[vip.address] == {}
    ensures f.holders[vip.address] <= old(f.holders)[vip.address] || f.holders[vip.address] == {target}
    ensures r.Moved? ==> f.faults == old(f.faults)
    ensures f.faults == old(f.faults) && Supported(vip, planMode) ==> r.Moved?
  {
    if !Supported(vip, planMode) {
      return UnsupportedMode;
    }
    var failure := ClearVip(f, vip.address);
    if failure.Some? {
      return failure.value;
    }
    r := BindProved(f, vip.address, target);
  }

  /** Every listed address is recorded as held by `target`. */
  ghost predicate RecordedAs(configs: seq<VipConfig>, expected: map<Vip, Id>, target: Id) {
    forall i :: 0 <= i < |configs| ==> configs[i].address in expected && expected[configs[i].address] == target
  }

  ghost predicate HeldAlone(configs: seq<VipConfig>, holders: map<Vip, set<Id>>, target: Id) {
    forall i :: 0 <= i < |configs| ==> configs[i].address in holders && holders[configs[i].address] == {target}
  }

  /** moveArchitectureVIP: addresses are moved in turn; the one that fails ends the
      step and leaves those already moved where they are. */
  method MoveAll(f: Fleet, configs: seq<VipConfig>, planMode: RouteMode, target: Id) returns (r: VipOutcome, done: nat)
    requires f.Valid() && f.lockOwner.Some? && ConfigsKnown(configs, f.holders.Keys) && target in f.machines
    modifies f
    ensures f.Valid() && f.SameRun() && f.nodes == old(f.nodes)
    ensures done <= |configs| && HeldAlone(configs[..done], f.holders, target)
    ensures r.Moved? ==> configs != [] && done == |configs| && HeldAlone(configs, f.holders, target)
    ensures r.Moved? ==> f.faults == old(f.faults)
    ensures f.faults == old(f.faults) && AllMovable(configs, planMode) ==> r.Moved?
    ensures SameFrom(configs, done + 1, old(f.holders), f.holders)
  {
    done := 0;
    if |configs| == 0 {
      return NoConfig, 0;
    }
    r := Moved;
    while done < |configs|
      invariant 0 <= done <= |configs| && r.Moved? && f.faults == old(f.faults)
      invariant f.Valid() && f.SameRun() && f.nodes == old(f.nodes)
      invariant HeldAlone(configs[..done], f.holders, target)
      invariant SameFrom(configs, done, old(f.holders), f.holders)
    {
      r := MoveNext(f, configs, done, planMode, target);
      if !r.Moved? {
        return;
      }
      done := done + 1;
    }
    assert configs[..done] == configs;
  }

  /** The addresses from the `k`-th on are held as before. */
  ghost predicate SameFrom(configs: seq<VipConfig>, k: nat, before: map<Vip, set<Id>>, after: map<Vip, set<Id>>) {
    forall i :: k <= i < |configs| && configs[i].address in before && configs[i].address in after
                ==> after[configs[i].address] == before[configs[i].address]
  }

  method MoveNext(f: Fleet, configs: seq<VipConfig>, k: nat, planMode: RouteMode, target: Id) returns (r: VipOutcome)
    requires f.Valid() && f.lockOwner.Some? && ConfigsKnown(configs, f.holders.Keys) && target in f.machines
    requires k < |configs| && HeldAlone(configs[..k], f.holders, target)
    modifies f
    ensures f.Valid() && f.SameRun() && f.nodes == old(f.nodes)
    ensures HeldAlone(configs[..k], f.holders, target) && SameFrom(configs, k + 1, old(f.holders), f.holders)
    ensures r.Moved? ==> HeldAlone(configs[..k + 1], f.holders, target)
    ensures r.Moved? ==> f.faults == old(f.faults)
    ensures f.faults == old(f.faults) && Supported(configs[k], planMode) ==> r.Moved?
  {
    OthersApart(configs, f.holders.Keys, k);
    r := MoveOne(f, configs[k], planMode, target);
    assert forall i :: 0 <= i < k ==> configs[..k][i] == configs[i];
    assert configs[..k + 1] == configs[..k] + [configs[k]];
  }

  // --- the VIP service --------------------------------------------------------------------

  datatype Status = Unbound | Bound | Mismatch | Conflict

  /** What one scan reports of an address: the recorded holder turns a sole holder
      that is not it into a mismatch. */
  function ScanStatus(found: set<Id>, expected: Id): Status {
    if |found| == 0 then Unbound
    else if |found| == 1 then (if expected != NoId && found != {expected} then Mismatch else Bound)
    else Conflict
  }

  /** Scan, for the address the operation is about; it stores what it saw. */
  method Scan(f: Fleet, v: Vip) returns (ok: bool, status: Status, found: set<Id>)
    requires f.Valid() && v in f.holders
    modifies f`faults, f`asked, f`expected
    ensures f.Valid() && old(f.faults) <= f.faults
    ensures ok ==> found == f.holders[v] && status == ScanStatus(found, old(f.expected)[v])
    ensures ok ==> f.expected == old(f.expected)[v := f.expected[v]]
    ensures ok ==>
              if old(f.expected)[v] == NoId && |found| == 1 then found == {f.expected[v]}
              else f.expected[v] == old(f.expected)[v]
    ensures !ok ==> f.expected == old(f.expected)
    ensures ok <==> f.faults == old(f.faults)
    ensures f.asked == old(f.asked) + if ok then 1 else 0
  {
    status := Unbound;
    ok, found := f.ProbeHolders(v);
    if ok {
      status := ScanStatus(found, f.expected[v]);
      if |found| == 1 && f.expected[v] == NoId {
        var m :| m in found;
        SingletonIs(found, m);
        f.RecordExpected(v, m);
      }
    }
  }

  lemma SingletonIs(s: set<Id>, m: Id)
    requires |s| == 1 && m in s
    ensures s == {m}
  {
    assert |s - {m}| == 0;
    assert s == (s - {m}) + {m};
  }

  /** One verifying round of bindLocked: on any doubt the fresh binding is taken back. */
  method VerifyRound(f: Fleet, v: Vip, target: Id) returns (ok: bool)
    requires f.Valid() && f.lockOwner.Some? && v in f.holders && f.holders[v] == {target}
    modifies f
    ensures f.Valid() && f.SameRun() && f.nodes == old(f.nodes) && OnlyVip(old(f.holders), f.holders, v)
    ensures ok ==>
              f.holders == old(f.holders) && f.faults == old(f.faults) && f.expected == old(f.expected)[v := target]
    ensures ok ==> old(f.expected)[v] in {NoId, target}
    ensures ok || f.faults == old(f.faults) ==> f.asked > old(f.asked)
    ensures ok ==> f.faults == old(f.faults)
    ensures f.faults == old(f.faults) ==> (ok <==> old(f.expected)[v] in {NoId, target}) && (!ok ==> f.holders[v] == {})
    ensures f.expected == old(f.expected)[v := if f.asked == old(f.asked) || old(f.expected)[v] == NoId then target
                                               else old(f.expected)[v]]
  {
    assert old(f.expected)[v := old(f.expected)[v]] == old(f.expected);
    var scanned, status, found := Scan(f, v);
    ok := scanned && status.Bound? && found == {target};
    assert scanned ==> found == {target} && (old(f.expected)[v] == NoId ==> f.expected[v] in found);
    if !ok {
      var withdrawn := f.Withdraw(target, v);
      if !scanned {
        f.RecordExpected(v, target);
      }
    }
  }

  /** The two verifying rounds and the final record. */
  method VerifyBinding(f: Fleet, v: Vip, target: Id) returns (ok: bool)
    requires f.Valid() && f.lockOwner.Some? && v in f.holders && f.holders[v] == {target}
    modifies f
    ensures f.Valid() && f.SameRun() && f.nodes == old(f.nodes) && OnlyVip(old(f.holders), f.holders, v)
    ensures ok ==> f.holders[v] == {target} && f.expected[v] == target && old(f.expected)[v] in {NoId, target}
    ensures ok ==> f.asked >= old(f.asked) + 2
    ensures ok ==> f.faults == old(f.faults)
    ensures f.faults == old(f.faults) ==> (ok <==> old(f.expected)[v] in {NoId, target}) && (!ok ==> f.holders[v] == {})
    ensures f.asked == old(f.asked) ==> f.expected == old(f.expected)[v := target]
    ensures !ok && f.faults == old(f.faults) ==> f.expected == old(f.expected)
  {
    assert old(f.expected)[v := old(f.expected)[v]] == old(f.expected);
    ok := VerifyRound(f, v, target);
    if ok {
      ok := VerifyRound(f, v, target);
    }
    if ok {
      f.RecordExpected(v, target);
    }
  }

  /** bindLocked. It can only succeed where the record names the target or nobody:
      with any other recorded holder the verifying scan reports a mismatch and the
      fresh binding is rolled back. */
  method BindLocked(f: Fleet, v: Vip, target: Id) returns (ok: bool)
    requires f.Valid() && f.lockOwner.Some? && v in f.holders
    modifies f
    ensures f.Valid() && f.SameRun() && f.nodes == old(f.nodes) && OnlyVip(old(f.holders), f.holders, v)
    ensures ok ==> f.holders[v] == {target} && f.expected[v] == target && old(f.expected)[v] in {NoId, target}
    ensures ok ==> f.asked >= old(f.asked) + 3
    ensures ok ==> f.faults == old(f.faults)
    ensures f.faults == old(f.faults) ==> (ok <==> target in f.machines && old(f.expected)[v] in {NoId, target})
    ensures f.faults == old(f.faults) && !ok && target in f.machines ==> f.holders[v] == {}
    ensures f.faults == old(f.faults) && !ok ==> f.expected == old(f.expected)
  {
    if target !in f.machines {
      return false;
    }
    ok := ClearForBind(f, v);
    if ok {
      ok := BindAndVerify(f, v, target);
    }
  }

  method BindAndVerify(f: Fleet, v: Vip, target: Id) returns (ok: bool)
    requires f.Valid() && f.lockOwner.Some? && v in f.holders && f.holders[v] == {} && target in f.machines
    modifies f
    ensures f.Valid() && f.SameRun() && f.nodes == old(f.nodes) && OnlyVip(old(f.holders), f.holders, v)
    ensures ok ==> f.holders[v] == {target} && f.expected[v] == target && old(f.expected)[v] in {NoId, target}
    ensures ok ==> f.asked >= old(f.asked) + 2
    ensures ok ==> f.faults == old(f.faults)
    ensures f.faults == old(f.faults) ==> (ok <==> old(f.expected)[v] in {NoId, target}) && (!ok ==> f.holders[v] == {})
    ensures f.asked == old(f.asked) ==> f.expected == old(f.expected)[v := target]
    ensures !ok && f.faults == old(f.faults) ==> f.expected == old(f.expected)
  {
    ok := f.Bind(target, v);
    if !ok {
      f.RecordExpected(v, target);
    } else {
      ok := VerifyBinding(f, v, target);
    }
  }

  /** Such an input: the record names "a", the address is to go to "b", and nothing
      fails; it ends on nobody. */
  method RebindIsRolledBack() returns (f: Fleet, ok: bool)
    ensures f.machines == ["a", "b"] && "vip" in f.holders && "vip" in f.expected
    ensures f.faults == 0 ==> !ok && f.holders["vip"] == {} && f.expected["vip"] == "a"
  {
    f := new Fleet(["a", "b"], map[], map["vip" := {"a"}], map["vip" := "a"]);
    ok := f.AcquireLock("vip-bind");
    if ok {
      ok := BindLocked(f, "vip", "b");
    }
  }

  method ClearForBind(f: Fleet, v: Vip) returns (ok: bool)
    requires f.Valid() && f.lockOwner.Some? && v in f.holders
    modifies f
    ensures f.Valid() && f.SameRun() && f.nodes == old(f.nodes) && OnlyVip(old(f.holders), f.holders, v)
    ensures f.holders[v] <= old(f.holders)[v] && f.expected == old(f.expected)[v := f.expected[v]]
    ensures ok ==> f.holders[v] == {} && f.expected == old(f.expected) && f.asked > old(f.asked)
    ensures ok <==> f.faults == old(f.faults)
  {
    ok := WithdrawEverywhere(f, v);
    if ok {
      var status, found;
      ok, status, found := Scan(f, v);
      ok := ok && status.Unbound?;
    }
  }

  method RemoveLocked(f: Fleet, v: Vip) returns (ok: bool)
    requires f.Valid() && f.lockOwner.Some? && v in f.holders
    modifies f
    ensures f.Valid() && f.SameRun() && f.nodes == old(f.nodes)
    ensures OnlyVip(old(f.holders), f.holders, v) && f.holders[v] <= old(f.holders)[v]
    ensures ok ==> f.holders[v] == {} && f.asked > old(f.asked)
    ensures ok <==> f.faults == old(f.faults)
  {
    ok := ClearForBind(f, v);
  }

  datatype VipOperation = BindTo(target: Id) | Delete

  /** withVIPOperationLock: nothing is sent unless the lock was free, and the lock
      is offered back afterwards whatever happened. A failed renewal turns the
      result into an error. */
  method UnderVipLock(f: Fleet, owner: LockId, v: Vip, operation: VipOperation) returns (ok: bool)
    requires f.Valid() && v in f.holders
    modifies f
    ensures f.Valid() && f.nodes == old(f.nodes) && OnlyVip(old(f.holders), f.holders, v)
    ensures old(f.lockOwner).Some? ==>
              !ok && f.holders == old(f.holders) && f.lockOwner == old(f.lockOwner) && f.trace == old(f.trace)
    ensures f.lockOwner in {None, Some(owner)} || f.lockOwner == old(f.lockOwner)
    ensures old(f.lockOwner).None? ==> f.GivenBack()
    ensures ok && operation.BindTo? ==> f.holders[v] == {operation.target}
    ensures ok && operation.Delete? ==> f.holders[v] == {}
    ensures ok ==> f.faults == old(f.faults) || Note(LockNotReleased, |f.trace|, f.Now()) in f.notes
    ensures ok ==> Note(LockHeld, |f.trace|, f.Now()) in f.notes
    ensures old(f.lockOwner).None? && f.faults == old(f.faults) ==> f.lockOwner.None?
    ensures old(f.lockOwner).None? && f.faults == old(f.faults) ==>
              (ok <==> || operation.Delete?
                       || (operation.target in f.machines && old(f.expected)[v] in {NoId, operation.target}))
  {
    var acquired := f.AcquireLock(owner);
    if !acquired {
      return false;
    }
    match operation {
      case BindTo(target) => ok := BindLocked(f, v, target);
      case Delete => ok := RemoveLocked(f, v);
    }
    var released := f.ReleaseLock(owner);
    var renewed := f.Confirm(LockHeld);
    ok := ok && renewed;
  }
}
