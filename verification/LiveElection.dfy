/** Live election of the architecture executor: candidates are collected from the
    probes, filtered in place down to those whose GTID set contains every other
    one, stably sorted, and checked against the target replicas. */
module LiveElection {
  import opened Wrappers
  import opened ArchitectureRequest
  import opened GtidSet
  import opened GtidOperations
  import opened StableSort

  const PREFERRED_BONUS := 1_000_000

  /** What one node answered. An unreadable server id counts as zero. */
  datatype Probe =
    | ProbeFailed
    | Malformed
    | Probed(serverId: int, gtidOn: bool, executed: seq<Entry>)

  datatype Candidate = Candidate(machine: Id, priority: int, transactions: U64, executed: seq<Entry>)

  datatype ElectionError =
    | ProbeError
    | MalformedState
    | InvalidServerId
    | DuplicateServerId
    | NoCandidate
    | DivergentHistories
    | DivergentReplica

  // --- specification ---------------------------------------------------------------

  ghost predicate ProbesAccepted(probes: seq<Probe>) {
    && (forall i :: 0 <= i < |probes| ==> probes[i].Probed? && probes[i].serverId > 0)
    && (forall i, j :: 0 <= i < j < |probes| ==> probes[i].serverId != probes[j].serverId)
  }

  predicate Eligible(req: Request, node: NodeRequest, probe: Probe) {
    && node.role.Master? && node.delaySeconds <= 0
    && !(node.machine == req.currentMaster && req.preferred != req.currentMaster)
    && probe.Probed? && probe.gtidOn
  }

  ghost function CandidateOf(req: Request, node: NodeRequest, probe: Probe): Candidate
    requires probe.Probed?
  {
    Candidate(node.machine,
              node.priority + (if node.machine == req.preferred then PREFERRED_BONUS else 0),
              TotalLength(probe.executed) % (MAX_U64 + 1), probe.executed)
  }

  /** The candidates among the first `k` nodes, in request order. */
  ghost function Candidates(req: Request, probes: seq<Probe>, k: nat): (r: seq<Candidate>)
    requires k <= |req.nodes| == |probes|
    ensures |r| <= k
  {
    if k == 0 then []
    else
      var front := Candidates(req, probes, k - 1);
      if Eligible(req, req.nodes[k - 1], probes[k - 1])
      then front + [CandidateOf(req, req.nodes[k - 1], probes[k - 1])] else front
  }

  ghost predicate ContainsAll(all: seq<Candidate>, c: Candidate) {
    forall i :: 0 <= i < |all| ==> Included(all[i].executed, c.executed)
  }

  /** Those of the first `k` that contain every one of `all`. */
  ghost function Supersets(all: seq<Candidate>, k: nat): (r: seq<Candidate>)
    requires k <= |all|
    ensures |r| <= k
  {
    if k == 0 then []
    else Supersets(all, k - 1) + (if ContainsAll(all, all[k - 1]) then [all[k - 1]] else [])
  }

  /** The filter keeps only candidates that contain all of them ... */
  lemma {:induction false} SurvivorOrigin(all: seq<Candidate>, k: nat, j: nat) returns (i: nat)
    requires k <= |all| && j < |Supersets(all, k)|
    ensures i < k && Supersets(all, k)[j] == all[i] && ContainsAll(all, all[i])
  {
    if j < |Supersets(all, k - 1)| {
      i := SurvivorOrigin(all, k - 1, j);
    } else {
      i := k - 1;
    }
  }

  /** ... and every one of those. */
  lemma {:induction false} SurvivorPresent(all: seq<Candidate>, k: nat, i: nat) returns (j: nat)
    requires i < k <= |all| && ContainsAll(all, all[i])
    ensures j < |Supersets(all, k)| && Supersets(all, k)[j] == all[i]
  {
    if i == k - 1 {
      j := |Supersets(all, k - 1)|;
    } else {
      j := SurvivorPresent(all, k - 1, i);
    }
  }

  predicate Beats(x: Candidate, y: Candidate) {
    if x.transactions != y.transactions then x.transactions > y.transactions else x.priority > y.priority
  }

  predicate ChecksReplica(req: Request, selected: Id, node: NodeRequest) {
    node.machine != req.currentMaster && node.machine != selected && node.role.Replica?
  }

  predicate StartsIndependent(req: Request) {
    req.currentMaster == NoId && !req.initializeVip
  }

  /** Outside the independent start every target replica but the old master is
      contained in the winner. */
  ghost predicate ReplicasContained(req: Request, probes: seq<Probe>, w: Candidate)
    requires |req.nodes| == |probes|
  {
    StartsIndependent(req) ||
    forall i :: 0 <= i < |probes| && ChecksReplica(req, w.machine, req.nodes[i]) && probes[i].Probed?
                ==> Included(probes[i].executed, w.executed)
  }

  ghost function Survivors(req: Request, probes: seq<Probe>): seq<Candidate>
    requires |req.nodes| == |probes|
  {
    var all := Candidates(req, probes, |probes|);
    Supersets(all, |all|)
  }

  ghost predicate Elected(req: Request, probes: seq<Probe>, w: Candidate)
    requires |req.nodes| == |probes|
  {
    && ProbesAccepted(probes)
    && (exists k :: IsFirstBest(Beats, Survivors(req, probes), k) && Survivors(req, probes)[k] == w)
    && ReplicasContained(req, probes, w)
  }

  // --- the in-place filter -----------------------------------------------------------

  /** One round of the filter's inner loop, over the array as it is now. */
  method ContainsEvery(buffer: array<Candidate>, n: nat, c: Candidate) returns (containsAll: bool)
    requires n <= buffer.Length
    ensures containsAll <==> ContainsAll(buffer[..n], c)
  {
    for j := 0 to n
      invariant ContainsAll(buffer[..j], c)
    {
      var included := Subset(buffer[j].executed, c.executed);
      if !included {
        assert buffer[..n][j] == buffer[j];
        return false;
      }
    }
    return true;
  }

  /** The array between two rounds: survivors in front, the unread originals
      behind, and nothing but original candidates anywhere. */
  ghost predicate FilterState(all: seq<Candidate>, current: seq<Candidate>, kept: nat, i: nat) {
    && kept <= i <= |current| == |all|
    && current[..kept] == Supersets(all, i)
    && current[i..] == all[i..]
    && (kept == 0 ==> current == all)
    && (forall j :: 0 <= j < |current| ==> current[j] in all)
  }

  /** Why reading overwritten entries does no harm: once something survived, it
      stands in the array and already contains every original candidate. */
  lemma OverwrittenIsDominated(all: seq<Candidate>, current: seq<Candidate>, kept: nat, i: nat, c: Candidate)
    requires FilterState(all, current, kept, i)
    ensures ContainsAll(current, c) <==> ContainsAll(all, c)
  {
    if ContainsAll(current, c) && 0 < kept {
      assert current[0] == current[..kept][0];
      var first := SurvivorOrigin(all, i, 0);
      forall m | 0 <= m < |all| ensures Included(all[m].executed, c.executed) {
        assert Included(all[m].executed, current[0].executed);
        assert Included(current[0].executed, c.executed);
      }
    }
    if ContainsAll(all, c) {
      forall m | 0 <= m < |current| ensures Included(current[m].executed, c.executed) {
        var j :| 0 <= j < |all| && all[j] == current[m];
      }
    }
  }

  lemma FilterStep(all: seq<Candidate>, current: seq<Candidate>, kept: nat, i: nat)
    requires FilterState(all, current, kept, i) && i < |all|
    ensures current[i] == all[i]
    ensures ContainsAll(all, all[i]) ==> FilterState(all, current[kept := all[i]], kept + 1, i + 1)
    ensures !ContainsAll(all, all[i]) ==> FilterState(all, current, kept, i + 1)
  {
  }

  lemma FilterRound(all: seq<Candidate>, current: seq<Candidate>, kept: nat, i: nat, keep: bool)
    requires FilterState(all, current, kept, i) && i < |all|
    requires keep <==> ContainsAll(current, current[i])
    ensures FilterState(all, if keep then current[kept := current[i]] else current,
                        if keep then kept + 1 else kept, i + 1)
  {
    OverwrittenIsDominated(all, current, kept, i, current[i]);
    FilterStep(all, current, kept, i);
  }

  method Store(buffer: array<Candidate>, n: nat, at: nat, c: Candidate)
    requires at < n <= buffer.Length
    modifies buffer
    ensures buffer[..n] == old(buffer[..n])[at := c]
  {
    buffer[at] := c;
  }

  /** One candidate: it is read from, and if it survives written to, the same array. */
  method FilterOne(buffer: array<Candidate>, n: nat, kept: nat, i: nat, ghost all: seq<Candidate>) returns (more: nat)
    requires kept <= i < n == |all| <= buffer.Length && FilterState(all, buffer[..n], kept, i)
    modifies buffer
    ensures more <= i + 1 && FilterState(all, buffer[..n], more, i + 1)
  {
    ghost var current := buffer[..n];
    var candidate := buffer[i];
    var containsAll := ContainsEvery(buffer, n, candidate);
    FilterRound(all, current, kept, i, containsAll);
    if containsAll {
      Store(buffer, n, kept, candidate);
      assert buffer[..n] == current[kept := current[i]];
      more := kept + 1;
    } else {
      more := kept;
    }
  }

  /** `supersetCandidates := candidates[:0]`: survivors are appended over the array
      the two loops are still reading. */
  method FilterSupersets(buffer: array<Candidate>, n: nat) returns (kept: nat)
    requires n <= buffer.Length
    modifies buffer
    ensures kept <= n
    ensures buffer[..kept] == Supersets(old(buffer[..n]), n)
  {
    ghost var all := buffer[..n];
    kept := 0;
    var i := 0;
    while i < n
      invariant kept <= i <= n && FilterState(all, buffer[..n], kept, i)
    {
      kept := FilterOne(buffer, n, kept, i, all);
      i := i + 1;
    }
    assert buffer[..kept] == buffer[..n][..kept];
  }

  // --- electLiveArchitectureCandidate -----------------------------------------------

  ghost function IdsOf(probes: seq<Probe>): set<int> {
    if probes == [] then {}
    else IdsOf(probes[..|probes| - 1]) + (if probes[|probes| - 1].Probed? then {probes[|probes| - 1].serverId} else {})
  }

  lemma {:induction false} IdsAre(probes: seq<Probe>, id: int)
    ensures id in IdsOf(probes) <==> exists j :: 0 <= j < |probes| && probes[j].Probed? && probes[j].serverId == id
  {
    if probes == [] {
    } else {
      var front := probes[..|probes| - 1];
      IdsAre(front, id);
      assert forall j :: 0 <= j < |front| ==> front[j] == probes[j];
    }
  }

  lemma ProbesSnoc(probes: seq<Probe>, probe: Probe)
    ensures IdsOf(probes + [probe]) == IdsOf(probes) + (if probe.Probed? then {probe.serverId} else {})
    ensures ProbesAccepted(probes + [probe])
            <==> ProbesAccepted(probes) && probe.Probed? && probe.serverId > 0 && probe.serverId !in IdsOf(probes)
  {
    var longer := probes + [probe];
    assert longer[..|longer| - 1] == probes;
    assert longer[|probes|] == probe;
    assert forall j :: 0 <= j < |probes| ==> longer[j] == probes[j];
    if probe.Probed? {
      IdsAre(probes, probe.serverId);
    }
  }

  /** The checks on one answer, in the order they are made. */
  function AnswerError(probe: Probe, serverIds: set<int>): Option<ElectionError> {
    if probe.ProbeFailed? then Some(ProbeError)
    else if probe.Malformed? then Some(MalformedState)
    else if probe.serverId <= 0 then Some(InvalidServerId)
    else if probe.serverId in serverIds then Some(DuplicateServerId)
    else None
  }

  method Append(buffer: array<Candidate>, n: nat, c: Candidate)
    requires n < buffer.Length
    modifies buffer
    ensures buffer[..n + 1] == old(buffer[..n]) + [c]
  {
    buffer[n] := c;
  }

  method CollectOne(req: Request, probes: seq<Probe>, i: nat, buffer: array<Candidate>, n: nat) returns (more: nat)
    requires i < |req.nodes| == |probes| <= buffer.Length && n <= i && probes[i].Probed?
    requires buffer[..n] == Candidates(req, probes, i)
    modifies buffer
    ensures more <= i + 1 && buffer[..more] == Candidates(req, probes, i + 1)
  {
    var node, probe := req.nodes[i], probes[i];
    more := n;
    if Eligible(req, node, probe) {
      var priority := node.priority;
      if node.machine == req.preferred {
        priority := priority + PREFERRED_BONUS;
      }
      var transactions := TransactionCount(probe.executed);
      Append(buffer, n, Candidate(node.machine, priority, transactions, probe.executed));
      more := n + 1;
    }
  }

  /** The answers before the `i`-th are acceptable, and `e` is what is wrong with it. */
  ghost predicate FirstBadAnswer(probes: seq<Probe>, i: int, e: ElectionError) {
    0 <= i < |probes| && ProbesAccepted(probes[..i]) && AnswerError(probes[i], IdsOf(probes[..i])) == Some(e)
  }

  /** Why an election fails. */
  ghost predicate FailsWith(req: Request, probes: seq<Probe>, e: ElectionError)
    requires |req.nodes| == |probes|
  {
    match e
    case NoCandidate => ProbesAccepted(probes) && forall i :: 0 <= i < |probes| ==> !MayWin(req, i, probes[i])
    case DivergentHistories =>
      ProbesAccepted(probes) && Candidates(req, probes, |probes|) != [] && Survivors(req, probes) == []
    case DivergentReplica =>
      ProbesAccepted(probes) && exists k :: IsFirstBest(Beats, Survivors(req, probes), k)
                                            && !ReplicasContained(req, probes, Survivors(req, probes)[k])
    case _ => exists i :: FirstBadAnswer(probes, i, e)
  }

  /** The errors by their answers: the first answer that is not acceptable failed, could
      not be read, carries no valid server id, or one that an earlier node has. */
  lemma BadAnswerIs(probes: seq<Probe>, i: int, e: ElectionError)
    requires FirstBadAnswer(probes, i, e)
    ensures e.ProbeError? <==> probes[i].ProbeFailed?
    ensures e.MalformedState? <==> probes[i].Malformed?
    ensures e.InvalidServerId? <==> probes[i].Probed? && probes[i].serverId <= 0
    ensures e.DuplicateServerId? <==>
              && probes[i].Probed? && probes[i].serverId > 0
              && exists j :: 0 <= j < i && probes[j].Probed? && probes[j].serverId == probes[i].serverId
  {
    if probes[i].Probed? {
      IdsAre(probes[..i], probes[i].serverId);
      assert forall j :: 0 <= j < i ==> probes[..i][j] == probes[j];
    }
  }

  /** Who may win, in the request's own words: a node asked to be master without delay
      whose answer has GTID mode on, and not the current master unless that is the
      preferred one. */
  ghost predicate MayWin(req: Request, i: int, probe: Probe)
    requires 0 <= i < |req.nodes|
  {
    && req.nodes[i].role == Master && req.nodes[i].delaySeconds <= 0
    && probe.Probed? && probe.gtidOn
    && (req.nodes[i].machine == req.currentMaster ==> req.preferred == req.currentMaster)
  }

  lemma NobodyMayWin(req: Request, probes: seq<Probe>)
    requires |req.nodes| == |probes|
    ensures Candidates(req, probes, |probes|) == [] <==> forall i :: 0 <= i < |probes| ==> !MayWin(req, i, probes[i])
  {
    if Candidates(req, probes, |probes|) != [] {
      var i := CandidateOrigin(req, probes, |probes|, 0);
      assert MayWin(req, i, probes[i]);
    }
    forall i | 0 <= i < |probes| && MayWin(req, i, probes[i]) ensures Candidates(req, probes, |probes|) != [] {
      var j := CandidatePresent(req, probes, |probes|, i);
    }
  }

  /** The probing loop: the first bad answer stops the election. */
  method Collect(req: Request, probes: seq<Probe>, buffer: array<Candidate>)
      returns (r: Option<ElectionError>, n: nat)
    requires |req.nodes| == |probes| <= buffer.Length
    modifies buffer
    ensures r.None? <==> ProbesAccepted(probes)
    ensures r.Some? ==> exists i :: FirstBadAnswer(probes, i, r.value)
    ensures r.None? ==> n <= buffer.Length && buffer[..n] == Candidates(req, probes, |probes|)
  {
    r, n := None, 0;
    var serverIds: set<int> := {};
    for i := 0 to |probes|
      invariant r.None? && n <= i && ProbesAccepted(probes[..i])
      invariant serverIds == IdsOf(probes[..i])
      invariant buffer[..n] == Candidates(req, probes, i)
    {
      var probe := probes[i];
      ProbesSnoc(probes[..i], probe);
      assert probes[..i + 1] == probes[..i] + [probe];
      r := AnswerError(probe, serverIds);
      if r.Some? {
        assert FirstBadAnswer(probes, i, r.value);
        RejectedPrefix(probes, i + 1);
        return;
      }
      serverIds := serverIds + {probe.serverId};
      n := CollectOne(req, probes, i, buffer, n);
    }
    assert probes[..|probes|] == probes;
  }

  lemma RejectedPrefix(probes: seq<Probe>, k: nat)
    requires k <= |probes| && !ProbesAccepted(probes[..k])
    ensures !ProbesAccepted(probes)
  {
  }

  method ReplicasFollow(req: Request, probes: seq<Probe>, selected: Candidate) returns (ok: bool)
    requires |req.nodes| == |probes| && ProbesAccepted(probes)
    ensures ok <==> ReplicasContained(req, probes, selected)
  {
    for i := 0 to |probes|
      invariant StartsIndependent(req) || forall j :: 0 <= j < i && ChecksReplica(req, selected.machine, req.nodes[j])
                                                     ==> Included(probes[j].executed, selected.executed)
    {
      if ChecksReplica(req, selected.machine, req.nodes[i]) {
        var included := Subset(probes[i].executed, selected.executed);
        if !StartsIndependent(req) && !included {
          return false;
        }
      }
    }
    return true;
  }

  lemma BeatsIsOrder()
    ensures StrictWeakOrder(Beats)
  {
  }

  method Elect(req: Request, probes: seq<Probe>) returns (r: Result<Candidate, ElectionError>)
    requires |req.nodes| == |probes|
    ensures r.Success? ==> Elected(req, probes, r.value)
    ensures r.Failure? ==> FailsWith(req, probes, r.error) && forall w :: !Elected(req, probes, w)
  {
    var buffer := new Candidate[|probes|](_ => Candidate(NoId, 0, 0, []));
    var failed, n := Collect(req, probes, buffer);
    if failed.Some? {
      return Failure(failed.value);
    }
    ghost var all := Candidates(req, probes, |probes|);
    NobodyMayWin(req, probes);
    if n == 0 {
      return Failure(NoCandidate);
    }
    var kept := FilterSupersets(buffer, n);
    var survivors := buffer[..kept];
    assert survivors == Survivors(req, probes);
    if kept == 0 {
      return Failure(DivergentHistories);
    }
    BeatsIsOrder();
    ghost var k := HeadIsFirstBest(Beats, survivors);
    var selected := Sort(Beats, survivors)[0];
    OnlyOneCanWin(req, probes, k);
    var ok := ReplicasFollow(req, probes, selected);
    if !ok {
      return Failure(DivergentReplica);
    }
    return Success(selected);
  }

  lemma OnlyOneCanWin(req: Request, probes: seq<Probe>, k: int)
    requires |req.nodes| == |probes| && IsFirstBest(Beats, Survivors(req, probes), k)
    ensures forall w :: Elected(req, probes, w) ==> w == Survivors(req, probes)[k]
  {
  }

  // --- what winning means ---------------------------------------------------------------

  lemma {:induction false} CandidateOrigin(req: Request, probes: seq<Probe>, k: nat, j: nat) returns (i: nat)
    requires k <= |req.nodes| == |probes| && j < |Candidates(req, probes, k)|
    ensures i < k && Eligible(req, req.nodes[i], probes[i])
    ensures Candidates(req, probes, k)[j] == CandidateOf(req, req.nodes[i], probes[i])
  {
    if j < |Candidates(req, probes, k - 1)| {
      i := CandidateOrigin(req, probes, k - 1, j);
    } else {
      i := k - 1;
    }
  }

  lemma {:induction false} CandidatePresent(req: Request, probes: seq<Probe>, k: nat, i: nat) returns (j: nat)
    requires i < k <= |req.nodes| == |probes| && Eligible(req, req.nodes[i], probes[i])
    ensures j < |Candidates(req, probes, k)|
    ensures Candidates(req, probes, k)[j] == CandidateOf(req, req.nodes[i], probes[i])
  {
    if i == k - 1 {
      j := |Candidates(req, probes, k - 1)|;
    } else {
      j := CandidatePresent(req, probes, k - 1, i);
    }
  }

  /** Where the `j`-th survivor comes from. */
  lemma SurvivorNode(req: Request, probes: seq<Probe>, j: nat) returns (i: nat)
    requires |req.nodes| == |probes| && j < |Survivors(req, probes)|
    ensures i < |probes| && Eligible(req, req.nodes[i], probes[i])
    ensures Survivors(req, probes)[j] == CandidateOf(req, req.nodes[i], probes[i])
  {
    var all := Candidates(req, probes, |probes|);
    var m := SurvivorOrigin(all, |all|, j);
    i := CandidateOrigin(req, probes, |probes|, m);
  }

  /** The winner is an eligible node and holds every transaction that any eligible
      node holds. */
  lemma WinnerContainsEveryCandidate(req: Request, probes: seq<Probe>, w: Candidate) returns (i: nat)
    requires |req.nodes| == |probes| && Elected(req, probes, w)
    ensures i < |probes| && Eligible(req, req.nodes[i], probes[i]) && w == CandidateOf(req, req.nodes[i], probes[i])
    ensures forall m :: 0 <= m < |probes| && Eligible(req, req.nodes[m], probes[m])
              ==> Included(probes[m].executed, w.executed)
  {
    var all := Candidates(req, probes, |probes|);
    var k :| IsFirstBest(Beats, Survivors(req, probes), k) && Survivors(req, probes)[k] == w;
    i := SurvivorNode(req, probes, k);
    var o := SurvivorOrigin(all, |all|, k);
    forall m | 0 <= m < |probes| && Eligible(req, req.nodes[m], probes[m])
      ensures Included(probes[m].executed, w.executed)
    {
      var j := CandidatePresent(req, probes, |probes|, m);
      assert Included(all[j].executed, w.executed);
    }
  }

  /** In the request's own words: the winner is one who may win, it contains the answers
      of all who may, and, unless the cluster starts from independent nodes, of every
      replica of the target but the old master; and among those who contain all that may
      win, none has more transactions. */
  lemma WinnerIsAskedFor(req: Request, probes: seq<Probe>, w: Candidate) returns (i: nat)
    requires |req.nodes| == |probes| && Elected(req, probes, w)
    ensures i < |probes| && req.nodes[i].machine == w.machine && MayWin(req, i, probes[i])
    ensures probes[i].executed == w.executed && w.transactions == TotalLength(w.executed) % 0x1_0000_0000_0000_0000
    ensures w.priority == req.nodes[i].priority + if w.machine == req.preferred then 1_000_000 else 0
    ensures req.preferred != req.currentMaster ==> w.machine != req.currentMaster
    ensures forall m :: 0 <= m < |probes| && MayWin(req, m, probes[m]) ==> Included(probes[m].executed, w.executed)
    ensures !(req.currentMaster == "" && !req.initializeVip) ==>
              forall m :: && 0 <= m < |probes| && probes[m].Probed? && req.nodes[m].role == Replica
                          && req.nodes[m].machine != req.currentMaster && req.nodes[m].machine != w.machine
                          ==> Included(probes[m].executed, w.executed)
    ensures forall m :: 0 <= m < |probes| && MayWin(req, m, probes[m]) && ContainsAllThatMay(req, probes, m)
              ==> TotalLength(probes[m].executed) % 0x1_0000_0000_0000_0000 <= w.transactions
  {
    i := WinnerContainsEveryCandidate(req, probes, w);
    forall m | 0 <= m < |probes| && MayWin(req, m, probes[m]) && ContainsAllThatMay(req, probes, m)
      ensures TotalLength(probes[m].executed) % 0x1_0000_0000_0000_0000 <= w.transactions
    {
      var j := AsSurvivor(req, probes, m);
    }
  }

  ghost predicate ContainsAllThatMay(req: Request, probes: seq<Probe>, m: int)
    requires |req.nodes| == |probes| && 0 <= m < |probes| && probes[m].Probed?
  {
    forall k :: 0 <= k < |probes| && MayWin(req, k, probes[k]) ==> Included(probes[k].executed, probes[m].executed)
  }

  lemma AsSurvivor(req: Request, probes: seq<Probe>, m: nat) returns (j: nat)
    requires |req.nodes| == |probes| && m < |probes| && MayWin(req, m, probes[m]) && ContainsAllThatMay(req, probes, m)
    ensures j < |Survivors(req, probes)| && Survivors(req, probes)[j] == CandidateOf(req, req.nodes[m], probes[m])
  {
    var all := Candidates(req, probes, |probes|);
    var k := CandidatePresent(req, probes, |probes|, m);
    forall x | 0 <= x < |all| ensures Included(all[x].executed, all[k].executed) {
      var o := CandidateOrigin(req, probes, |probes|, x);
      assert MayWin(req, o, probes[o]);
    }
    j := SurvivorPresent(all, |all|, k);
  }

  lemma {:induction false} LoneCandidate(req: Request, probes: seq<Probe>, t: nat, k: nat)
    requires k <= |req.nodes| == |probes| && t < |probes| && Eligible(req, req.nodes[t], probes[t])
    requires forall i :: 0 <= i < |probes| && Eligible(req, req.nodes[i], probes[i]) ==> i == t
    ensures Candidates(req, probes, k) == if k > t then [CandidateOf(req, req.nodes[t], probes[t])] else []
  {
    if k == 0 {
    } else {
      LoneCandidate(req, probes, t, k - 1);
    }
  }

  /** Where only one node can be a candidate, it is elected exactly when all answers are
      acceptable, it is eligible, and it contains the replicas that are checked. */
  lemma LoneCandidateWinsIff(req: Request, probes: seq<Probe>, t: nat)
    requires |req.nodes| == |probes| && t < |probes|
    requires forall i :: 0 <= i < |probes| && Eligible(req, req.nodes[i], probes[i]) ==> i == t
    ensures (exists w :: Elected(req, probes, w))
            <==> ProbesAccepted(probes) && Eligible(req, req.nodes[t], probes[t])
                 && ReplicasContained(req, probes, CandidateOf(req, req.nodes[t], probes[t]))
  {
    forall w | Elected(req, probes, w)
      ensures Eligible(req, req.nodes[t], probes[t]) && w == CandidateOf(req, req.nodes[t], probes[t])
    {
      var i := WinnerContainsEveryCandidate(req, probes, w);
    }
    if Eligible(req, req.nodes[t], probes[t]) {
      var c := CandidateOf(req, req.nodes[t], probes[t]);
      LoneCandidate(req, probes, t, |probes|);
      assert ContainsAll([c], c);
      assert Supersets([c], 1) == Supersets([c], 0) + [c] == [c];
      assert Survivors(req, probes) == [c];
      assert IsFirstBest(Beats, [c], 0);
      assert Elected(req, probes, c) <==> ProbesAccepted(probes) && ReplicasContained(req, probes, c);
    }
  }

  /** Survivors contain one another, so they tie on the transaction count. */
  lemma SurvivorsTie(all: seq<Candidate>, x: nat, y: nat)
    requires x < |Supersets(all, |all|)| && y < |Supersets(all, |all|)|
    requires forall i :: 0 <= i < |all| ==> Disjoint(all[i].executed)
    ensures TotalLength(Supersets(all, |all|)[x].executed) == TotalLength(Supersets(all, |all|)[y].executed)
  {
    var i := SurvivorOrigin(all, |all|, x);
    var j := SurvivorOrigin(all, |all|, y);
    assert Included(all[i].executed, all[j].executed) && Included(all[j].executed, all[i].executed);
    EqualSetsCountAlike(all[i].executed, all[j].executed);
  }

  /** What the MySQL servers report: no set lists a transaction twice. */
  ghost predicate ReportsAreDisjoint(probes: seq<Probe>) {
    forall i :: 0 <= i < |probes| && probes[i].Probed? ==> Disjoint(probes[i].executed)
  }

  predicate HigherPriority(x: Candidate, y: Candidate) {
    x.priority > y.priority
  }

  lemma TransactionsTie(req: Request, probes: seq<Probe>, x: nat, y: nat)
    requires |req.nodes| == |probes| && ReportsAreDisjoint(probes)
    requires x < |Survivors(req, probes)| && y < |Survivors(req, probes)|
    ensures Survivors(req, probes)[x].transactions == Survivors(req, probes)[y].transactions
  {
    var all := Candidates(req, probes, |probes|);
    forall i | 0 <= i < |all| ensures Disjoint(all[i].executed) {
      var m := CandidateOrigin(req, probes, |probes|, i);
    }
    SurvivorsTie(all, x, y);
    var i := SurvivorNode(req, probes, x);
    var j := SurvivorNode(req, probes, y);
  }

  /** What else it takes, from the request alone: outside the independent start every node
      asked for as replica, but the old master, must be contained. */
  lemma RefusedForReplica(req: Request, probes: seq<Probe>, k: int)
    requires |req.nodes| == |probes| && ProbesAccepted(probes) && IsFirstBest(Beats, Survivors(req, probes), k)
    ensures var w := Survivors(req, probes)[k];
            Elected(req, probes, w) <==>
              || (req.currentMaster == "" && !req.initializeVip)
              || forall m :: && 0 <= m < |probes| && req.nodes[m].role == Replica
                             && req.nodes[m].machine != req.currentMaster && req.nodes[m].machine != w.machine
                             ==> Included(probes[m].executed, w.executed)
  {
  }

  /** With such reports the count decides nothing: the winner is the earliest
      survivor of highest priority. */
  lemma WinnerIsEarliestOfHighestPriority(req: Request, probes: seq<Probe>, k: int)
    requires |req.nodes| == |probes| && ReportsAreDisjoint(probes)
    ensures IsFirstBest(Beats, Survivors(req, probes), k) <==> IsFirstBest(HigherPriority, Survivors(req, probes), k)
  {
    var s := Survivors(req, probes);
    if 0 <= k < |s| {
      forall j | 0 <= j < |s|
        ensures Beats(s[j], s[k]) <==> HigherPriority(s[j], s[k])
        ensures Beats(s[k], s[j]) <==> HigherPriority(s[k], s[j])
      {
        TransactionsTie(req, probes, j, k);
      }
    }
  }

  /** Exactly when the preferred master wins once it survives: no survivor before
      it reaches its boosted priority, and none behind exceeds that. */
  lemma PreferredWinsIff(req: Request, probes: seq<Probe>, w: Candidate, p: int)
    requires |req.nodes| == |probes| && Elected(req, probes, w)
    requires NodesAccepted(req.nodes) && ReportsAreDisjoint(probes)
    requires 0 <= p < |Survivors(req, probes)| && Survivors(req, probes)[p].machine == req.preferred
    ensures w.machine == req.preferred <==> IsFirstBest(HigherPriority, Survivors(req, probes), p)
  {
    var s := Survivors(req, probes);
    var k :| IsFirstBest(Beats, s, k) && s[k] == w;
    WinnerIsEarliestOfHighestPriority(req, probes, p);
    SurvivorsHaveDistinctMachines(req, probes);
    if p != k {
      FirstBestIsUnique(Beats, s, k, p);
      assert s[p].machine != s[k].machine;
    }
  }

  /** Priorities within one million of each other cannot outweigh the bonus. */
  lemma PreferredWinsWithinBonus(req: Request, probes: seq<Probe>, w: Candidate, p: int)
    requires |req.nodes| == |probes| && Elected(req, probes, w)
    requires NodesAccepted(req.nodes) && ReportsAreDisjoint(probes)
    requires 0 <= p < |Survivors(req, probes)| && Survivors(req, probes)[p].machine == req.preferred
    requires forall i, j :: 0 <= i < |req.nodes| && 0 <= j < |req.nodes|
               ==> req.nodes[i].priority - req.nodes[j].priority < 1_000_000
    ensures w.machine == req.preferred
  {
    var s := Survivors(req, probes);
    SurvivorsHaveDistinctMachines(req, probes);
    var i := SurvivorNode(req, probes, p);
    forall j | 0 <= j < |s| && j != p ensures HigherPriority(s[p], s[j]) {
      var m := SurvivorNode(req, probes, j);
      assert s[j].machine != s[p].machine;
    }
    PreferredWinsIff(req, probes, w, p);
  }

  ghost predicate DistinctMachines(s: seq<Candidate>) {
    forall i, j :: 0 <= i < |s| && 0 <= j < |s| && i != j ==> s[i].machine != s[j].machine
  }

  lemma {:induction false} CandidatesHaveDistinctMachines(req: Request, probes: seq<Probe>, k: nat)
    requires k <= |req.nodes| == |probes| && NodesAccepted(req.nodes)
    ensures DistinctMachines(Candidates(req, probes, k))
  {
    if k == 0 {
    } else {
      CandidatesHaveDistinctMachines(req, probes, k - 1);
      var front := Candidates(req, probes, k - 1);
      forall j | 0 <= j < |front| ensures front[j].machine != req.nodes[k - 1].machine {
        var i := CandidateOrigin(req, probes, k - 1, j);
      }
    }
  }

  lemma {:induction false} SupersetsKeepDistinct(all: seq<Candidate>, k: nat)
    requires k <= |all| && DistinctMachines(all)
    ensures DistinctMachines(Supersets(all, k))
  {
    if k == 0 {
    } else {
      SupersetsKeepDistinct(all, k - 1);
      var front := Supersets(all, k - 1);
      forall j | 0 <= j < |front| ensures front[j].machine != all[k - 1].machine {
        var i := SurvivorOrigin(all, k - 1, j);
      }
    }
  }

  lemma SurvivorsHaveDistinctMachines(req: Request, probes: seq<Probe>)
    requires |req.nodes| == |probes| && NodesAccepted(req.nodes)
    ensures DistinctMachines(Survivors(req, probes))
  {
    var all := Candidates(req, probes, |probes|);
    CandidatesHaveDistinctMachines(req, probes, |probes|);
    SupersetsKeepDistinct(all, |all|);
  }
}
