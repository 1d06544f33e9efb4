/** Candidate ranking of the planner: scores are synthesised from the request and the
    registry, then ranked by a stable sort on six keys. */
module CandidateRanking {
  import opened Wrappers
  import opened ArchitectureRequest
  import opened StableSort

  const PREFERENCE := 1_000_000

  datatype Instance = Instance(serverId: int, stopped: bool)

  /** What the registry knows of a requested node. */
  datatype Lookup = Lookup(machineKnown: bool, instance: Option<Instance>)

  datatype Score = Score(
    machine: Id, eligible: bool,
    data: int, received: int, executed: int, health: int, risk: int,
    delaySeconds: int, needReplay: bool, priority: int, final: int)

  // --- CandidateSelector.Select ------------------------------------------------------------------

  function WithFinal(s: Score): Score {
    s.(final :=
      if !s.eligible then -1_000_000
      else s.data * 100000 + s.received * 1000 + s.executed + s.priority + s.health - s.risk
           - (s.delaySeconds * 100 + if s.needReplay then 50 else 0))
  }

  function AllFinal(scores: seq<Score>): (r: seq<Score>)
    ensures |r| == |scores| && forall i :: 0 <= i < |scores| ==> r[i] == WithFinal(scores[i])
  {
    seq(|scores|, i requires 0 <= i < |scores| => WithFinal(scores[i]))
  }

  /** The six keys. */
  predicate Precedes(a: Score, b: Score) {
    if a.eligible != b.eligible then a.eligible
    else if a.data != b.data then a.data > b.data
    else if a.received != b.received then a.received > b.received
    else if a.executed != b.executed then a.executed > b.executed
    else if a.delaySeconds != b.delaySeconds then a.delaySeconds < b.delaySeconds
    else a.final > b.final
  }

  /** What the keys are, the larger the better, in the order they count. */
  function KeysOf(s: Score): seq<int> {
    [if s.eligible then 1 else 0, s.data, s.received, s.executed, -s.delaySeconds, s.final]
  }

  /** `a` precedes `b` exactly if it is the better one in the first key they differ in. */
  lemma KeysDecide(a: Score, b: Score)
    ensures Precedes(a, b) <==> exists k :: BetterAt(KeysOf(a), KeysOf(b), k)
  {
    var x, y := KeysOf(a), KeysOf(b);
    if Precedes(a, b) {
      var k := if x[0] != y[0] then 0 else if x[1] != y[1] then 1 else if x[2] != y[2] then 2
               else if x[3] != y[3] then 3 else if x[4] != y[4] then 4 else 5;
      assert BetterAt(x, y, k);
    }
    forall k | BetterAt(x, y, k) ensures Precedes(a, b) {
      assert k > 0 ==> x[0] == y[0];
      assert k > 1 ==> x[1] == y[1];
      assert k > 2 ==> x[2] == y[2];
      assert k > 3 ==> x[3] == y[3];
      assert k > 4 ==> x[4] == y[4];
    }
  }

  ghost predicate BetterAt(x: seq<int>, y: seq<int>, k: int) {
    0 <= k < |x| == |y| && x[k] > y[k] && forall j :: 0 <= j < k ==> x[j] == y[j]
  }

  /** What one more of each figure is worth in the final score of an eligible candidate. */
  lemma FinalMoves(s: Score)
    requires s.eligible
    ensures var f := WithFinal(s).final;
            && WithFinal(s.(data := s.data + 1)).final == f + 100_000
            && WithFinal(s.(received := s.received + 1)).final == f + 1_000
            && WithFinal(s.(executed := s.executed + 1)).final == f + 1
            && WithFinal(s.(priority := s.priority + 1)).final == f + 1
            && WithFinal(s.(health := s.health + 1)).final == f + 1
            && WithFinal(s.(risk := s.risk + 1)).final == f - 1
            && WithFinal(s.(delaySeconds := s.delaySeconds + 1)).final == f - 100
            && (!s.needReplay ==> WithFinal(s.(needReplay := true)).final == f - 50)
            && WithFinal(s.(eligible := false)).final == -1_000_000
            && WithFinal(s) == s.(final := f)
  {
  }

  lemma PrecedesIsOrder()
    ensures StrictWeakOrder(Precedes)
  {
  }

  ghost predicate AnyEligible(scores: seq<Score>) {
    exists i :: 0 <= i < |scores| && scores[i].eligible
  }

  /** The ranking is a sorted permutation of the scored candidates, with every
      ineligible one behind every eligible one; selection fails exactly when none is
      eligible, and otherwise takes the head. */
  method Select(scores: seq<Score>) returns (selected: Option<Score>, ranked: seq<Score>)
    ensures multiset(ranked) == multiset(AllFinal(scores)) && SortedBy(Precedes, ranked)
    ensures forall i, j :: 0 <= i < j < |ranked| && ranked[j].eligible ==> ranked[i].eligible
    ensures selected.None? <==> !AnyEligible(scores)
    ensures selected.Some? ==>
              exists k ::
                && IsFirstBest(Precedes, AllFinal(scores), k)
                && selected.value == WithFinal(scores[k]) && scores[k].eligible
  {
    var buffer := new Score[|scores|](i requires 0 <= i < |scores| => scores[i]);
    for i := 0 to buffer.Length
      invariant forall j :: 0 <= j < i ==> buffer[j] == WithFinal(scores[j])
      invariant forall j :: i <= j < |scores| ==> buffer[j] == scores[j]
    {
      buffer[i] := WithFinal(buffer[i]);
    }
    assert buffer[..] == AllFinal(scores);
    ranked := Sort(Precedes, buffer[..]);
    PrecedesIsOrder();
    SortSorts(Precedes, buffer[..]);
    SortPermutes(Precedes, buffer[..]);
    forall i, j | 0 <= i < j < |ranked| && ranked[j].eligible ensures ranked[i].eligible {
      assert !Precedes(ranked[j], ranked[i]);
    }
    if |ranked| == 0 {
      return None, ranked;
    }
    ghost var k := HeadIsFirstBest(Precedes, AllFinal(scores));
    BestIsEligible(scores, k);
    selected := if ranked[0].eligible then Some(ranked[0]) else None;
  }

  lemma BestIsEligible(scores: seq<Score>, k: int)
    requires IsFirstBest(Precedes, AllFinal(scores), k)
    ensures scores[k].eligible <==> AnyEligible(scores)
  {
  }

  // --- architectureCandidateScores ------------------------------------------------------------------

  predicate HasServerId(lookup: Lookup, id: int) {
    lookup.instance.Some? && lookup.instance.value.serverId == id
  }

  ghost predicate SharesServerId(lookups: seq<Lookup>, i: int)
    requires 0 <= i < |lookups|
  {
    && lookups[i].instance.Some?
    && exists j :: 0 <= j < |lookups| && j != i && HasServerId(lookups[j], lookups[i].instance.value.serverId)
  }

  /** A registered, running node with a server id of its own, asked to be a master
      without delay, and not the current master unless that one is preferred. */
  ghost predicate Electable(req: Request, lookups: seq<Lookup>, i: int)
    requires |lookups| == |req.nodes| && 0 <= i < |lookups|
  {
    var node, lookup := req.nodes[i], lookups[i];
    && lookup.machineKnown && lookup.instance.Some? && !lookup.instance.value.stopped
    && !SharesServerId(lookups, i)
    && node.delaySeconds <= 0
    && (!req.architecture.Standalone? ==> node.role.Master?)
    && (!req.architecture.Standalone? && req.currentMaster != NoId && node.machine == req.currentMaster
        ==> req.preferred == req.currentMaster)
  }

  function Adjusted(req: Request, node: NodeRequest): int {
    if req.preferred == NoId then node.priority
    else if node.machine == req.preferred then node.priority + PREFERENCE else node.priority - PREFERENCE
  }

  ghost predicate IsScoreOf(req: Request, lookups: seq<Lookup>, i: int, s: Score)
    requires |lookups| == |req.nodes| && 0 <= i < |lookups|
  {
    && s.machine == req.nodes[i].machine && (s.eligible <==> Electable(req, lookups, i))
    && s.data == 100 && s.received == 100 && s.executed == 100 && s.risk == 0 && !s.needReplay
    && s.health == (if lookups[i].instance.Some? && lookups[i].instance.value.stopped then 0 else 100)
    && s.delaySeconds == req.nodes[i].delaySeconds && s.priority == Adjusted(req, req.nodes[i])
  }

  function CountServerId(lookups: seq<Lookup>, id: int): nat {
    if lookups == [] then 0
    else CountServerId(lookups[..|lookups| - 1], id) + if HasServerId(lookups[|lookups| - 1], id) then 1 else 0
  }

  lemma {:induction false} CountIsZero(lookups: seq<Lookup>, id: int)
    ensures CountServerId(lookups, id) == 0 <==> forall i :: 0 <= i < |lookups| ==> !HasServerId(lookups[i], id)
  {
    if lookups == [] {
    } else {
      CountIsZero(lookups[..|lookups| - 1], id);
      assert forall i :: 0 <= i < |lookups| - 1 ==> lookups[..|lookups| - 1][i] == lookups[i];
    }
  }

  lemma {:induction false} CountIsMany(lookups: seq<Lookup>, id: int, i: int)
    requires 0 <= i < |lookups| && HasServerId(lookups[i], id)
    ensures CountServerId(lookups, id) > 1 <==> exists j :: 0 <= j < |lookups| && j != i && HasServerId(lookups[j], id)
  {
    var front := lookups[..|lookups| - 1];
    assert forall j :: 0 <= j < |front| ==> front[j] == lookups[j];
    CountIsZero(front, id);
    if i < |front| {
      CountIsMany(front, id, i);
    }
  }

  method CountServerIds(lookups: seq<Lookup>) returns (counts: map<int, nat>)
    ensures forall id :: (if id in counts then counts[id] else 0) == CountServerId(lookups, id)
  {
    counts := map[];
    for i := 0 to |lookups|
      invariant forall id :: (if id in counts then counts[id] else 0) == CountServerId(lookups[..i], id)
    {
      assert lookups[..i + 1][..i] == lookups[..i];
      if lookups[i].instance.Some? {
        var id := lookups[i].instance.value.serverId;
        counts := counts[id := (if id in counts then counts[id] else 0) + 1];
      }
    }
    assert lookups[..|lookups|] == lookups;
  }

  method ScoreNode(req: Request, lookups: seq<Lookup>, counts: map<int, nat>, i: nat) returns (s: Score)
    requires i < |lookups| == |req.nodes|
    requires forall id :: (if id in counts then counts[id] else 0) == CountServerId(lookups, id)
    ensures IsScoreOf(req, lookups, i, s)
  {
    var node, lookup := req.nodes[i], lookups[i];
    s := Score(node.machine, true, 100, 100, 100, 100, 0, node.delaySeconds, false, node.priority, 0);
    if !lookup.machineKnown || lookup.instance.None? {
      s := s.(eligible := false);
    }
    if lookup.instance.Some? && lookup.instance.value.stopped {
      s := s.(eligible := false, health := 0);
    }
    if lookup.instance.Some? {
      var id := lookup.instance.value.serverId;
      CountIsMany(lookups, id, i);
      if id in counts && counts[id] > 1 {
        s := s.(eligible := false);
      }
    }
    if node.delaySeconds > 0 {
      s := s.(eligible := false);
    }
    if !req.architecture.Standalone? && !node.role.Master? {
      s := s.(eligible := false);
    }
    if !req.architecture.Standalone? && req.currentMaster != NoId
       && node.machine == req.currentMaster && req.preferred != req.currentMaster {
      s := s.(eligible := false);
    }
    if req.preferred != NoId {
      s := s.(priority := if node.machine == req.preferred then s.priority + PREFERENCE else s.priority - PREFERENCE);
    }
  }

  ghost predicate AreScoresOf(req: Request, lookups: seq<Lookup>, scores: seq<Score>) {
    |scores| == |lookups| == |req.nodes| && forall i :: 0 <= i < |scores| ==> IsScoreOf(req, lookups, i, scores[i])
  }

  /** architectureCandidateScores. */
  method CandidateScores(req: Request, lookups: seq<Lookup>) returns (scores: seq<Score>)
    requires |lookups| == |req.nodes|
    ensures AreScoresOf(req, lookups, scores)
  {
    var counts := CountServerIds(lookups);
    scores := [];
    for i := 0 to |req.nodes|
      invariant |scores| == i && forall j :: 0 <= j < i ==> IsScoreOf(req, lookups, j, scores[j])
    {
      var s := ScoreNode(req, lookups, counts, i);
      scores := scores + [s];
    }
  }

  // --- what the ranking of synthesised scores comes down to ------------------------------------------

  /** `k` is electable, nobody electable has a higher adjusted priority, and nobody
      before it has the same. */
  ghost predicate Chosen(req: Request, lookups: seq<Lookup>, k: int) {
    && |lookups| == |req.nodes| && 0 <= k < |req.nodes| && Electable(req, lookups, k)
    && (forall j :: 0 <= j < |req.nodes| && Electable(req, lookups, j)
          ==> Adjusted(req, req.nodes[j]) <= Adjusted(req, req.nodes[k]))
    && (forall j :: 0 <= j < k && Electable(req, lookups, j)
          ==> Adjusted(req, req.nodes[j]) < Adjusted(req, req.nodes[k]))
  }

  /** On scores of the planner's making the six keys reduce to eligibility and the
      adjusted priority. */
  lemma KeysReduce(req: Request, lookups: seq<Lookup>, scores: seq<Score>, i: int, j: int)
    requires AreScoresOf(req, lookups, scores) && NodesAccepted(req.nodes) && 0 <= i < |scores| && 0 <= j < |scores|
    requires Electable(req, lookups, i)
    ensures Precedes(WithFinal(scores[i]), WithFinal(scores[j]))
            <==> !Electable(req, lookups, j) || Adjusted(req, req.nodes[i]) > Adjusted(req, req.nodes[j])
  {
  }

  /** The final score of an electable node, in figures. */
  lemma FinalOfElectable(req: Request, lookups: seq<Lookup>, i: int, s: Score)
    requires |lookups| == |req.nodes| && 0 <= i < |lookups| && IsScoreOf(req, lookups, i, s)
    requires NodesAccepted(req.nodes) && Electable(req, lookups, i)
    ensures WithFinal(s).final ==
            10_100_200 + req.nodes[i].priority
            + if req.preferred == "" then 0 else if req.nodes[i].machine == req.preferred then 1_000_000 else -1_000_000
  {
  }

  lemma FirstBestIsChosen(req: Request, lookups: seq<Lookup>, scores: seq<Score>, k: int)
    requires AreScoresOf(req, lookups, scores) && NodesAccepted(req.nodes)
    requires IsFirstBest(Precedes, AllFinal(scores), k) && scores[k].eligible
    ensures Chosen(req, lookups, k)
  {
    var final := AllFinal(scores);
    forall j | 0 <= j < |scores| && Electable(req, lookups, j)
      ensures Adjusted(req, req.nodes[j]) <= Adjusted(req, req.nodes[k])
      ensures j < k ==> Adjusted(req, req.nodes[j]) < Adjusted(req, req.nodes[k])
    {
      assert !Precedes(final[j], final[k]);
      KeysReduce(req, lookups, scores, j, k);
      KeysReduce(req, lookups, scores, k, j);
    }
  }

  /** Planning: an accepted request for a replicated architecture fails to select
      exactly when no node is electable, and otherwise selects the chosen one. */
  method PlanCandidate(req: Request, lookups: seq<Lookup>) returns (selected: Option<Score>, ranked: seq<Score>)
    requires |lookups| == |req.nodes| && Accepted(req)
    ensures selected.None? <==> forall i :: 0 <= i < |req.nodes| ==> !Electable(req, lookups, i)
    ensures selected.Some? ==> exists k :: Chosen(req, lookups, k) && selected.value.machine == req.nodes[k].machine
    ensures |ranked| == |req.nodes| && forall i, j :: 0 <= i < j < |ranked| && ranked[j].eligible ==> ranked[i].eligible
  {
    var scores := CandidateScores(req, lookups);
    selected, ranked := Select(scores);
    assert |multiset(ranked)| == |ranked|;
    forall i | 0 <= i < |scores| ensures scores[i].eligible <==> Electable(req, lookups, i) {
      assert IsScoreOf(req, lookups, i, scores[i]);
    }
    if selected.Some? {
      ghost var k :| && IsFirstBest(Precedes, AllFinal(scores), k)
                     && selected.value == WithFinal(scores[k]) && scores[k].eligible;
      FirstBestIsChosen(req, lookups, scores, k);
    }
  }

  lemma ChosenIsUnique(req: Request, lookups: seq<Lookup>, a: int, b: int)
    requires Chosen(req, lookups, a) && a != b
    ensures !Chosen(req, lookups, b)
  {
  }

  /** The preferred master is chosen exactly when it is electable and no electable
      rival outbids the preference: a gap of 2,000,000 does so from an earlier
      position, a larger one from anywhere. */
  lemma PreferredIsChosenIff(req: Request, lookups: seq<Lookup>, p: int)
    requires |lookups| == |req.nodes| && NodesAccepted(req.nodes)
    requires 0 <= p < |req.nodes| && req.nodes[p].machine == req.preferred
    ensures Chosen(req, lookups, p) <==>
            Electable(req, lookups, p)
            && forall j :: 0 <= j < |req.nodes| && j != p && Electable(req, lookups, j)
                 ==> req.nodes[j].priority - req.nodes[p].priority < 2_000_000 + (if j > p then 1 else 0)
  {
  }

  /** Where the preferred master is not electable, or none is named, the choice is
      the earliest electable node of highest requested priority. */
  lemma OtherwiseEarliestOfHighest(req: Request, lookups: seq<Lookup>, k: int)
    requires |lookups| == |req.nodes| && 0 <= k < |req.nodes|
    requires forall p :: 0 <= p < |req.nodes| && req.nodes[p].machine == req.preferred && req.preferred != NoId
               ==> !Electable(req, lookups, p)
    ensures Chosen(req, lookups, k) <==>
            Electable(req, lookups, k)
            && forall j :: 0 <= j < |req.nodes| && Electable(req, lookups, j)
                 ==> req.nodes[j].priority < req.nodes[k].priority + (if j >= k then 1 else 0)
  {
  }
}
