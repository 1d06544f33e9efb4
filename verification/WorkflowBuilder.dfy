/** Building AI workflows from the plans of one answer: plans are grouped in place,
    get their operation ids and dependencies rewritten, and each group becomes a
    workflow whose first operation is the root of an acyclic graph. */
module WorkflowBuilder {
  import opened Workflow
  import opened WorkflowGraph

  datatype Plan = Plan(
    id: string,
    workflowId: string,
    operationId: string,
    dependsOn: seq<string>,
    risk: string,
    status: string)

  datatype WorkflowRun = WorkflowRun(id: string, status: string, risk: string, operations: seq<Operation>)

  // --- text helpers -----------------------------------------------------------------------

  predicate IsSpace(c: char) {
    var u := c as int;
    9 <= u <= 13 || u in {32, 0x85, 0xA0, 0x1680, 0x2028, 0x2029, 0x202F, 0x205F, 0x3000} || 0x2000 <= u <= 0x200A
  }

  const WHITE_SPACE :=
    "\t\n\U{000B}\U{000C}\r \U{0085}\U{00A0}\U{1680}\U{2000}\U{2001}\U{2002}\U{2003}\U{2004}\U{2005}" +
    "\U{2006}\U{2007}\U{2008}\U{2009}\U{200A}\U{2028}\U{2029}\U{202F}\U{205F}\U{3000}"

  /** The characters Unicode calls white space. */
  lemma SpacesAre(c: char)
    ensures IsSpace(c) <==> c in WHITE_SPACE
  {
    var w := WHITE_SPACE;
    assert |w| == 25 && w[0] == '\t' && w[1] == '\n' && w[2] as int == 11 && w[3] as int == 12 && w[4] == '\r';
    assert w[5] == ' ' && w[6] as int == 0x85 && w[7] as int == 0xA0 && w[8] as int == 0x1680;
    assert forall i :: 9 <= i <= 19 ==> w[i] as int == 0x2000 + i - 9;
    assert w[20] as int == 0x2028 && w[21] as int == 0x2029 && w[22] as int == 0x202F;
    assert w[23] as int == 0x205F && w[24] as int == 0x3000;
    if IsSpace(c) {
      var u := c as int;
      var i := if u <= 13 then u - 9 else if u == 32 then 5 else if u == 0x85 then 6 else if u == 0xA0 then 7
               else if u == 0x1680 then 8 else if u <= 0x200A then 9 + u - 0x2000 else if u <= 0x2029 then u - 0x2014
               else if u == 0x202F then 22 else if u == 0x205F then 23 else 24;
      assert w[i] == c;
    }
  }

  function TrimSpace(s: string): (r: string) {
    if s == "" then ""
    else if IsSpace(s[0]) then TrimSpace(s[1..])
    else if IsSpace(s[|s| - 1]) then TrimSpace(s[..|s| - 1])
    else s
  }

  /** What trimming leaves: the part between the first and the last character that is no
      white space. */
  lemma {:induction false} TrimIs(s: string) returns (i: nat, j: nat)
    ensures i <= j <= |s| && TrimSpace(s) == s[i..j]
    ensures forall k :: 0 <= k < i || j <= k < |s| ==> IsSpace(s[k])
    ensures i < j ==> !IsSpace(s[i]) && !IsSpace(s[j - 1])
  {
    if s == "" {
      i, j := 0, 0;
    } else if IsSpace(s[0]) {
      var t := s[1..];
      var a, b := TrimIs(t);
      i, j := a + 1, b + 1;
      assert t[a..b] == s[i..j];
      forall k | 0 <= k < i || j <= k < |s| ensures IsSpace(s[k]) {
        assert k > 0 ==> s[k] == t[k - 1];
      }
    } else if IsSpace(s[|s| - 1]) {
      var t := s[..|s| - 1];
      i, j := TrimIs(t);
      assert t[i..j] == s[i..j];
      forall k | 0 <= k < i || j <= k < |s| ensures IsSpace(s[k]) {
        assert k < |t| ==> s[k] == t[k];
      }
    } else {
      i, j := 0, |s|;
    }
  }

  /** The number a text of digits reads as. */
  function Reading(s: string): nat
    requires forall i :: 0 <= i < |s| ==> '0' <= s[i] <= '9'
  {
    if s == "" then 0 else 10 * Reading(s[..|s| - 1]) + (s[|s| - 1] - '0') as int
  }

  function Decimal(n: nat): (s: string)
    ensures s != "" && forall i :: 0 <= i < |s| ==> '0' <= s[i] <= '9'
    ensures Reading(s) == n && (n != 0 ==> s[0] != '0')
  {
    if n < 10 then
      assert ["0123456789"[n]][..0] == "";
      ["0123456789"[n]]
    else
      var s := Decimal(n / 10) + ["0123456789"[n % 10]];
      assert s[..|s| - 1] == Decimal(n / 10);
      s
  }

  const UPPER := "ABCDEFGHIJKLMNOPQRSTUVWXYZ"
  const LOWER := "abcdefghijklmnopqrstuvwxyz"

  function ToLower(s: string): (r: string)
    ensures |r| == |s|
  {
    seq(|s|, i requires 0 <= i < |s| =>
      if 'A' <= s[i] <= 'Z' then s[i] - 'A' + 'a' else if s[i] == '\U{0130}' then 'i' else s[i])
  }

  /** Letter by letter; beside A to Z only the dotted capital I becomes a letter that
      occurs in a risk level. */
  lemma LowerIs(s: string, i: nat)
    requires i < |s|
    ensures forall k :: 0 <= k < 26 && s[i] == UPPER[k] ==> ToLower(s)[i] == LOWER[k]
    ensures s[i] == '\U{0130}' ==> ToLower(s)[i] == 'i'
    ensures s[i] !in UPPER && s[i] != '\U{0130}' ==> ToLower(s)[i] == s[i]
  {
    AlphabetsAre();
  }

  lemma AlphabetsAre()
    ensures |UPPER| == |LOWER| == 26
    ensures forall k :: 0 <= k < 26 ==> UPPER[k] == 'A' + k as char && LOWER[k] == 'a' + k as char
    ensures forall c: char :: c in UPPER <==> 'A' <= c <= 'Z'
  {
    assert forall k :: 0 <= k < 26 ==> UPPER[k] == 'A' + k as char;
    forall c: char ensures c in UPPER <==> 'A' <= c <= 'Z' {
      if 'A' <= c <= 'Z' {
        assert UPPER[(c - 'A') as int] == c;
      }
    }
  }

  function RiskRank(risk: string): (r: nat)
    ensures 1 <= r <= 4
  {
    var lower := ToLower(TrimSpace(risk));
    if lower == "critical" then 4 else if lower == "high" then 3 else if lower == "medium" then 2 else 1
  }

  // --- what happens to one group, as functions of its plans ---------------------------------

  /** An operation keeps its own id unless that is empty or taken. */
  function NewId(used: seq<string>, plan: Plan): (id: string)
    ensures id != ""
  {
    var own := TrimSpace(plan.operationId);
    if own == "" || own in used then "operation-" + Decimal(|used| + 1) else own
  }

  /** In words: the trimmed id if there is one and no operation has it yet, and a
      numbered name otherwise. */
  lemma NewIdIs(used: seq<string>, plan: Plan)
    ensures var own, id := TrimSpace(plan.operationId), NewId(used, plan);
            && (own != "" && own !in used ==> id == own)
            && (own == "" || own in used ==>
                  exists digits: string ::
                    && id == "operation-" + digits && (forall i :: 0 <= i < |digits| ==> '0' <= digits[i] <= '9')
                    && Reading(digits) == |used| + 1)
  {
    var digits := Decimal(|used| + 1);
    var own := TrimSpace(plan.operationId);
    assert own == "" || own in used ==> NewId(used, plan) == "operation-" + digits;
  }

  function NewIds(q: seq<Plan>): (ids: seq<string>)
    ensures |ids| == |q| && forall i :: 0 <= i < |ids| ==> ids[i] != ""
  {
    if q == [] then [] else NewIds(q[..|q| - 1]) + [NewId(NewIds(q[..|q| - 1]), q[|q| - 1])]
  }

  /** From the ids the plans came with to the ids they got; the last plan wins. */
  function Aliases(q: seq<Plan>): map<string, string> {
    if q == [] then map[]
    else
      var front, own := Aliases(q[..|q| - 1]), TrimSpace(q[|q| - 1].operationId);
      if own == "" then front else front[own := NewIds(q)[|q| - 1]]
  }

  /** Dependencies on plans outside the group, and on the plan itself, are dropped. */
  function Mapped(deps: seq<string>, aliases: map<string, string>, self: string): (r: seq<string>)
    ensures forall d :: d in r
              <==> d != self && d != "" && exists i :: 0 <= i < |deps| && deps[i] in aliases && aliases[deps[i]] == d
  {
    if deps == [] then []
    else
      var front, last := Mapped(deps[..|deps| - 1], aliases, self), deps[|deps| - 1];
      assert deps == deps[..|deps| - 1] + [last];
      if last in aliases && aliases[last] != "" && aliases[last] != self then front + [aliases[last]] else front
  }

  function NewDependencies(q: seq<Plan>, p: nat): seq<string>
    requires p < |q|
  {
    var mapped := Mapped(q[p].dependsOn, Aliases(q), NewIds(q)[p]);
    if p > 0 && mapped == [] then [NewIds(q)[p - 1]] else mapped
  }

  function OperationOf(q: seq<Plan>, p: nat): Operation
    requires p < |q|
  {
    Operation(NewIds(q)[p], q[p].id, q[p].risk, NewDependencies(q, p),
              if q[p].status == "blocked" then OpBlocked else Pending, "")
  }

  function OperationsOf(q: seq<Plan>): (ops: seq<Operation>)
    ensures |ops| == |q| && forall p :: 0 <= p < |q| ==> ops[p] == OperationOf(q, p)
  {
    seq(|q|, p requires 0 <= p < |q| => OperationOf(q, p))
  }

  // --- what that gives ------------------------------------------------------------------------

  lemma {:induction false} AliasesAreNewIds(q: seq<Plan>)
    ensures forall own :: own in Aliases(q) ==> Aliases(q)[own] in NewIds(q)
  {
    if q == [] {
    } else {
      AliasesAreNewIds(q[..|q| - 1]);
      assert NewIds(q)[|q| - 1] in NewIds(q);
      assert forall id :: id in NewIds(q[..|q| - 1]) ==> id in NewIds(q);
    }
  }

  lemma HasNewId(q: seq<Plan>, id: string)
    ensures HasId(OperationsOf(q), id) <==> id in NewIds(q)
  {
    var ops, ids := OperationsOf(q), NewIds(q);
    if id in ids {
      var i :| 0 <= i < |ids| && ids[i] == id;
      assert ops[i].id == id;
    }
  }

  /** No rewritten dependency is unknown, and with distinct ids none is on itself: a
      workflow is rejected exactly for a clash of ids or a cycle. */
  lemma RejectedForClashOrCycle(q: seq<Plan>)
    ensures ValidDag(OperationsOf(q)) <==> UniqueIds(OperationsOf(q)) && Acyclic(GraphOf(OperationsOf(q)))
  {
    if UniqueIds(OperationsOf(q)) {
      DependenciesInGroup(q);
    }
  }

  lemma DependenciesInGroup(q: seq<Plan>)
    requires UniqueIds(OperationsOf(q))
    ensures DependenciesKnown(OperationsOf(q))
  {
    var ops := OperationsOf(q);
    forall p | 0 <= p < |ops| ensures NamesKnown(ops, ops[p]) {
      assert ops[p] == OperationOf(q, p);
      forall d | d in ops[p].dependsOn ensures HasId(ops, d) && d != ops[p].id {
        DependencyInGroup(q, p, d);
      }
    }
  }

  lemma DependencyInGroup(q: seq<Plan>, p: nat, d: string)
    requires p < |q| && UniqueIds(OperationsOf(q)) && d in NewDependencies(q, p)
    ensures HasId(OperationsOf(q), d) && d != NewIds(q)[p]
  {
    var ops := OperationsOf(q);
    if d in Mapped(q[p].dependsOn, Aliases(q), NewIds(q)[p]) {
      AliasesAreNewIds(q);
      HasNewId(q, d);
    } else {
      assert ops[p - 1].id == d && ops[p].id == NewIds(q)[p];
    }
  }

  /** `id` reaches `root` along dependencies. */
  ghost predicate Reaches(g: Graph, id: string, root: string) {
    exists w :: Walk(g, w) && w[0] == id && w[|w| - 1] == root
  }

  lemma ReachesFurther(g: Graph, id: string, next: string, root: string)
    requires DependsOn(g, id, next) && Reaches(g, next, root)
    ensures Reaches(g, id, root)
  {
    var w :| Walk(g, w) && w[0] == next && w[|w| - 1] == root;
    var longer := [id] + w;
    assert forall i, j :: 0 < i < |longer| && 0 <= j < |longer| && j == i + 1
             ==> longer[i] == w[i - 1] && longer[j] == w[j - 1];
    assert Walk(g, longer) && longer[|longer| - 1] == root;
  }

  ghost predicate RootedAtFirst(ops: seq<Operation>) {
    && ops != [] && ops[0].dependsOn == []
    && (forall p :: 0 < p < |ops| ==> ops[p].dependsOn != [])
    && (forall p :: 0 <= p < |ops| ==> Reaches(GraphOf(ops), ops[p].id, ops[0].id))
  }

  lemma DependencyEdge(ops: seq<Operation>, p: int, d: string)
    requires ValidDag(ops) && 0 <= p < |ops| && d in ops[p].dependsOn
    ensures DependsOn(GraphOf(ops), ops[p].id, d)
  {
    GraphOfIs(ops);
  }

  /** In a workflow that is not rejected, the first operation is the only one without
      dependencies and every other one depends on it, directly or not. */
  lemma AcceptedIsRooted(q: seq<Plan>)
    requires q != [] && ValidDag(OperationsOf(q))
    ensures RootedAtFirst(OperationsOf(q))
  {
    var ops := OperationsOf(q);
    var g := GraphOf(ops);
    GraphOfIs(ops);
    assert ops[0].id in g;
    forall p | 0 < p < |ops| ensures ops[p].dependsOn != [] {
    }
    var x := MinimalMember(g, g.Keys);
    OnlyFirstIsFree(ops, x);
    forall p | 0 <= p < |ops| ensures Reaches(g, ops[p].id, ops[0].id) {
      AllReachFirst(ops, p);
    }
  }

  lemma OnlyFirstIsFree(ops: seq<Operation>, x: string)
    requires ValidDag(ops) && x in GraphOf(ops) && !DependsInto(GraphOf(ops), x, GraphOf(ops).Keys)
    requires forall p :: 0 < p < |ops| ==> ops[p].dependsOn != []
    ensures ops != [] && ops[0].id == x && ops[0].dependsOn == []
  {
    GraphOfIs(ops);
    var p :| 0 <= p < |ops| && ops[p].id == x;
    if ops[p].dependsOn != [] {
      DependencyEdge(ops, p, ops[p].dependsOn[0]);
    }
  }

  ghost function Lost(ops: seq<Operation>): set<string>
    requires ops != []
  {
    set id | id in GraphOf(ops) && !Reaches(GraphOf(ops), id, ops[0].id)
  }

  lemma AllReachFirst(ops: seq<Operation>, p: int)
    requires ValidDag(ops) && 0 <= p < |ops| && forall r :: 0 < r < |ops| ==> ops[r].dependsOn != []
    ensures Reaches(GraphOf(ops), ops[p].id, ops[0].id)
  {
    var lost := Lost(ops);
    if lost != {} {
      var x := MinimalMember(GraphOf(ops), lost);
      NotLost(ops, x);
    }
    GraphAt(ops, p);
    assert ops[p].id !in Lost(ops);
  }

  lemma NotLost(ops: seq<Operation>, x: string)
    requires ValidDag(ops) && ops != [] && forall r :: 0 < r < |ops| ==> ops[r].dependsOn != []
    requires x in GraphOf(ops) && !DependsInto(GraphOf(ops), x, Lost(ops))
    ensures x !in Lost(ops)
  {
    var g := GraphOf(ops);
    var r := Position(ops, x);
    if r == 0 {
      assert Walk(g, [x]);
    } else {
      var d := ops[r].dependsOn[0];
      DependencyEdge(ops, r, d);
      assert d !in Lost(ops);
      ReachesFurther(g, x, d, ops[0].id);
    }
  }

  lemma Position(ops: seq<Operation>, x: string) returns (r: int)
    requires x in GraphOf(ops)
    ensures 0 <= r < |ops| && ops[r].id == x
  {
    GraphOfIs(ops);
    r :| 0 <= r < |ops| && ops[r].id == x;
  }

  /** If no plan names a later one, distinct ids are all it takes: the rewriting
      itself never introduces a cycle. */
  lemma ForwardOnlyIsAccepted(q: seq<Plan>)
    requires UniqueIds(OperationsOf(q)) && NamesEarlierOnly(q)
    ensures ValidDag(OperationsOf(q))
  {
    var g, ids := GraphOf(OperationsOf(q)), NewIds(q);
    forall k, d | 0 <= k < |ids| && ids[k] in g && d in g[ids[k]] ensures d in ids[..k] {
      GraphAt(OperationsOf(q), k);
      EarlierInOrder(q, k, d);
    }
    forall id | id in g ensures id in ids {
      var r := Position(OperationsOf(q), id);
    }
    TopologicalIsAcyclic(g, ids);
    RejectedForClashOrCycle(q);
  }

  ghost predicate NamesEarlierOnly(q: seq<Plan>) {
    forall p, d :: 0 <= p < |q| && d in Mapped(q[p].dependsOn, Aliases(q), NewIds(q)[p]) ==> d in NewIds(q)[..p]
  }

  lemma EarlierInOrder(q: seq<Plan>, k: int, d: string)
    requires NamesEarlierOnly(q) && 0 <= k < |q| && d in NewDependencies(q, k)
    ensures d in NewIds(q)[..k]
  {
  }

  // --- grouping ---------------------------------------------------------------------------------

  datatype Group = Group(key: string, indexes: seq<nat>)

  function Key(plan: Plan, i: nat): string {
    if TrimSpace(plan.workflowId) == "" then "__single_" + Decimal(i) else TrimSpace(plan.workflowId)
  }

  ghost predicate Increasing(indexes: seq<nat>, n: nat) {
    && (forall p :: 0 <= p < |indexes| ==> indexes[p] < n)
    && (forall p, r :: 0 <= p < r < |indexes| ==> indexes[p] < indexes[r])
  }

  ghost predicate Grouped(s: seq<Plan>, n: nat, g: Group)
    requires n <= |s|
  {
    && g.indexes != [] && Increasing(g.indexes, n)
    && forall p :: 0 <= p < |g.indexes| ==> Key(s[g.indexes[p]], g.indexes[p]) == g.key
  }

  ghost predicate DistinctKeys(groups: seq<Group>) {
    forall a, b :: 0 <= a < b < |groups| ==> groups[a].key != groups[b].key
  }

  /** The first `n` plans are split by key, in order, and every one has its place. */
  ghost predicate Partition(s: seq<Plan>, n: nat, groups: seq<Group>)
    requires n <= |s|
  {
    && (forall a :: 0 <= a < |groups| ==> Grouped(s, n, groups[a]))
    && DistinctKeys(groups)
    && (forall i :: 0 <= i < n ==> Placed(groups, i))
  }

  ghost predicate Placed(groups: seq<Group>, i: nat) {
    exists a :: 0 <= a < |groups| && i in groups[a].indexes
  }

  /** When two plans belong together: they name the same workflow; or a plan that names
      none is the very plan that the other one means by its generated key. */
  ghost predicate Together(s: seq<Plan>, i: nat, j: nat)
    requires i < |s| && j < |s|
  {
    var a, b := TrimSpace(s[i].workflowId), TrimSpace(s[j].workflowId);
    if a != "" && b != "" then a == b
    else if a == "" && b == "" then i == j
    else if a == "" then b == "__single_" + Decimal(i) else a == "__single_" + Decimal(j)
  }

  lemma KeysAgree(s: seq<Plan>, i: nat, j: nat)
    requires i < |s| && j < |s|
    ensures Key(s[i], i) == Key(s[j], j) <==> Together(s, i, j)
  {
    var x, y := "__single_" + Decimal(i), "__single_" + Decimal(j);
    if x == y {
      assert x[9..] == Decimal(i) && y[9..] == Decimal(j);
      assert Reading(Decimal(i)) == i && Reading(Decimal(j)) == j;
    }
  }

  /** So a group is what belongs together, and nothing else. */
  lemma GroupedTogether(s: seq<Plan>, groups: seq<Group>, i: nat, j: nat)
    requires Partition(s, |s|, groups) && i < |s| && j < |s|
    ensures (exists a :: 0 <= a < |groups| && i in groups[a].indexes && j in groups[a].indexes) <==> Together(s, i, j)
  {
    KeysAgree(s, i, j);
    assert Placed(groups, i) && Placed(groups, j);
    var a :| 0 <= a < |groups| && i in groups[a].indexes;
    var b :| 0 <= b < |groups| && j in groups[b].indexes;
    assert Key(s[i], i) == groups[a].key && Key(s[j], j) == groups[b].key;
    forall c | 0 <= c < |groups| && i in groups[c].indexes && j in groups[c].indexes
      ensures Key(s[i], i) == groups[c].key == Key(s[j], j)
    {
    }
  }

  /** None lost, none duplicated: every plan is in one group, at one position. */
  lemma InExactlyOneGroup(s: seq<Plan>, groups: seq<Group>, a: int, p: int, b: int, r: int)
    requires Partition(s, |s|, groups)
    requires 0 <= a < |groups| && 0 <= p < |groups[a].indexes| && 0 <= b < |groups| && 0 <= r < |groups[b].indexes|
    ensures groups[a].indexes[p] == groups[b].indexes[r] ==> a == b && p == r
  {
  }

  ghost predicate PositionsKnown(groups: seq<Group>, groupIndex: map<string, nat>) {
    && (forall key :: key in groupIndex ==> groupIndex[key] < |groups| && groups[groupIndex[key]].key == key)
    && (forall a :: 0 <= a < |groups| ==> groups[a].key in groupIndex && groupIndex[groups[a].key] == a)
  }

  lemma PositionsStep(groups: seq<Group>, groupIndex: map<string, nat>, key: string, indexes: seq<nat>)
    requires PositionsKnown(groups, groupIndex)
    ensures key !in groupIndex ==> PositionsKnown(groups + [Group(key, indexes)], groupIndex[key := |groups|])
    ensures key in groupIndex ==> PositionsKnown(groups[groupIndex[key] := Group(key, indexes)], groupIndex)
  {
  }

  method GroupPlans(plans: array<Plan>) returns (groups: seq<Group>)
    ensures Partition(plans[..], plans.Length, groups) && |groups| <= plans.Length
  {
    groups := [];
    var groupIndex: map<string, nat> := map[];
    ghost var s := plans[..];
    var i := 0;
    while i < plans.Length
      invariant 0 <= i <= plans.Length && plans[..] == s && Partition(s, i, groups) && |groups| <= i
      invariant PositionsKnown(groups, groupIndex)
    {
      var key := Key(plans[i], i);
      if key !in groupIndex {
        StartGroup(s, i, groups, key);
        PositionsStep(groups, groupIndex, key, [i]);
        groupIndex := groupIndex[key := |groups|];
        groups := groups + [Group(key, [i])];
      } else {
        var position := groupIndex[key];
        JoinGroup(s, i, groups, position);
        PositionsStep(groups, groupIndex, key, groups[position].indexes + [i]);
        groups := groups[position := Group(key, groups[position].indexes + [i])];
      }
      i := i + 1;
      assert |groups| <= i && PositionsKnown(groups, groupIndex);
    }
  }

  lemma GroupedLonger(s: seq<Plan>, i: nat, g: Group)
    requires i < |s| && Grouped(s, i, g)
    ensures Grouped(s, i + 1, g)
    ensures Key(s[i], i) == g.key ==> Grouped(s, i + 1, Group(g.key, g.indexes + [i]))
  {
  }

  lemma StartGroup(s: seq<Plan>, i: nat, groups: seq<Group>, key: string)
    requires i < |s| && Partition(s, i, groups) && key == Key(s[i], i)
    requires forall a :: 0 <= a < |groups| ==> groups[a].key != key
    ensures Partition(s, i + 1, groups + [Group(key, [i])])
  {
    var longer := groups + [Group(key, [i])];
    forall a | 0 <= a < |longer| ensures Grouped(s, i + 1, longer[a]) {
      if a < |groups| {
        GroupedLonger(s, i, groups[a]);
      }
    }
    forall j: nat | j < i + 1 ensures Placed(longer, j) {
      if j < i {
        assert Placed(groups, j);
        var a :| 0 <= a < |groups| && j in groups[a].indexes;
        assert j in longer[a].indexes;
      } else {
        assert j in longer[|groups|].indexes;
      }
    }
  }

  lemma JoinGroup(s: seq<Plan>, i: nat, groups: seq<Group>, position: nat)
    requires i < |s| && Partition(s, i, groups) && position < |groups| && groups[position].key == Key(s[i], i)
    ensures Partition(s, i + 1, groups[position := Group(groups[position].key, groups[position].indexes + [i])])
  {
    var joined := groups[position := Group(groups[position].key, groups[position].indexes + [i])];
    forall a | 0 <= a < |joined| ensures Grouped(s, i + 1, joined[a]) {
      GroupedLonger(s, i, groups[a]);
    }
    forall j: nat | j < i + 1 ensures Placed(joined, j) {
      if j < i {
        assert Placed(groups, j);
        var a :| 0 <= a < |groups| && j in groups[a].indexes;
        assert j in joined[a].indexes;
      } else {
        assert j in joined[position].indexes;
      }
    }
  }

  // --- one group, in place ------------------------------------------------------------------------

  function Pick(s: seq<Plan>, indexes: seq<nat>): (q: seq<Plan>)
    requires forall p :: 0 <= p < |indexes| ==> indexes[p] < |s|
    ensures |q| == |indexes| && forall p :: 0 <= p < |q| ==> q[p] == s[indexes[p]]
  {
    seq(|indexes|, p requires 0 <= p < |indexes| => s[indexes[p]])
  }

  /** The plans after a pass has reached position `k` of a group: those before it
      read as `done` says, the rest of the slice is as it was. */
  ghost predicate PassAt(s: seq<Plan>, before: seq<Plan>, indexes: seq<nat>, done: seq<Plan>, k: nat) {
    && |s| == |before| && Increasing(indexes, |s|) && k <= |indexes| == |done|
    && (forall p :: 0 <= p < |indexes| ==> s[indexes[p]] == if p < k then done[p] else before[indexes[p]])
    && (forall j :: 0 <= j < |s| && j !in indexes ==> s[j] == before[j])
  }

  ghost predicate Pass(s: seq<Plan>, before: seq<Plan>, indexes: seq<nat>, done: seq<Plan>) {
    PassAt(s, before, indexes, done, |indexes|)
  }

  lemma PassStep(s: seq<Plan>, before: seq<Plan>, indexes: seq<nat>, done: seq<Plan>, k: nat)
    requires PassAt(s, before, indexes, done, k) && k < |indexes|
    ensures PassAt(s[indexes[k] := done[k]], before, indexes, done, k + 1)
  {
  }

  lemma PassTwice(s: seq<Plan>, middle: seq<Plan>, before: seq<Plan>, indexes: seq<nat>, first: seq<Plan>,
                  second: seq<Plan>)
    requires Pass(middle, before, indexes, first) && Pass(s, middle, indexes, second)
    ensures Pass(s, before, indexes, second)
  {
  }

  function Named(q: seq<Plan>, workflowId: string): (r: seq<Plan>)
    ensures |r| == |q|
  {
    seq(|q|, p requires 0 <= p < |q| => q[p].(operationId := NewIds(q)[p], workflowId := workflowId))
  }

  function Rewritten(q: seq<Plan>, workflowId: string): (r: seq<Plan>)
    ensures |r| == |q|
  {
    seq(|q|, p requires 0 <= p < |q| => Named(q, workflowId)[p].(dependsOn := NewDependencies(q, p)))
  }

  /** What the plans of a group are left as: the root carries the workflow, the rest
      is staged. */
  function Left(q: seq<Plan>, w: WorkflowRun): (r: seq<Plan>)
    ensures |r| == |q|
  {
    seq(|q|, p requires 0 <= p < |q| =>
      var plan := Rewritten(q, w.id)[p];
      if p == 0 then plan.(status := w.status, risk := w.risk)
      else if plan.status != "blocked" then plan.(status := "staged") else plan)
  }

  /** The first pass over a group: operation ids and the aliases for them. */
  method AssignIds(plans: array<Plan>, indexes: seq<nat>, workflowId: string, ghost q: seq<Plan>)
      returns (aliases: map<string, string>)
    requires Increasing(indexes, plans.Length) && q == Pick(plans[..], indexes)
    modifies plans
    ensures Pass(plans[..], old(plans[..]), indexes, Named(q, workflowId))
    ensures aliases == Aliases(q)
  {
    ghost var before := plans[..];
    aliases := map[];
    var used: seq<string> := [];
    var p := 0;
    while p < |indexes|
      invariant 0 <= p <= |indexes| && PassAt(plans[..], before, indexes, Named(q, workflowId), p)
      invariant used == NewIds(q[..p]) && aliases == Aliases(q[..p])
    {
      PassStep(plans[..], before, indexes, Named(q, workflowId), p);
      PrefixStep(q, p);
      var plan := plans[indexes[p]];
      var original, id := TrimSpace(plan.operationId), NewId(used, plan);
      used := used + [id];
      if original != "" {
        aliases := aliases[original := id];
      }
      plans[indexes[p]] := plan.(operationId := id, workflowId := workflowId);
      p := p + 1;
    }
    assert q[..p] == q;
  }

  lemma PrefixStep(q: seq<Plan>, p: nat)
    requires p < |q|
    ensures NewIds(q[..p + 1]) == NewIds(q[..p]) + [NewId(NewIds(q[..p]), q[p])]
    ensures NewIds(q)[p] == NewId(NewIds(q[..p]), q[p])
    ensures Aliases(q[..p + 1]) == if TrimSpace(q[p].operationId) == "" then Aliases(q[..p])
                                   else Aliases(q[..p])[TrimSpace(q[p].operationId) := NewIds(q)[p]]
  {
    assert q[..p + 1][..p] == q[..p];
    NewIdsOfPrefix(q, p + 1);
  }

  lemma {:induction false} NewIdsOfPrefix(q: seq<Plan>, k: nat)
    requires k <= |q|
    ensures NewIds(q[..k]) == NewIds(q)[..k]
  {
    if k < |q| {
      assert q[..|q| - 1][..k] == q[..k];
      NewIdsOfPrefix(q[..|q| - 1], k);
    } else {
      assert q[..k] == q;
    }
  }

  method MapDependencies(deps: seq<string>, aliases: map<string, string>, self: string) returns (r: seq<string>)
    ensures r == Mapped(deps, aliases, self)
  {
    r := [];
    for i := 0 to |deps|
      invariant r == Mapped(deps[..i], aliases, self)
    {
      assert deps[..i + 1][..i] == deps[..i];
      if deps[i] in aliases && aliases[deps[i]] != "" && aliases[deps[i]] != self {
        r := r + [aliases[deps[i]]];
      }
    }
    assert deps[..|deps|] == deps;
  }

  /** What the risk of a workflow is: that of the first of its most risky members, and
      "low" if none is above that. */
  ghost predicate HighestRisk(risk: string, q: seq<Plan>, k: nat)
    requires k <= |q|
  {
    && (forall p :: 0 <= p < k ==> RiskRank(q[p].risk) <= RiskRank(risk))
    && if RiskRank(risk) == 1 then risk == "low" else exists p :: 0 <= p < k && FirstRisk(q, p, risk)
  }

  ghost predicate FirstRisk(q: seq<Plan>, p: nat, risk: string)
    requires p < |q|
  {
    q[p].risk == risk && forall r :: 0 <= r < p ==> RiskRank(q[r].risk) < RiskRank(risk)
  }

  /** A risk text names a level if it is that word but for case and surrounding blanks. */
  predicate IsRisk(text: string, level: string) { ToLower(TrimSpace(text)) == level }

  ghost predicate AnyRisk(q: seq<Plan>, level: string) {
    exists p :: 0 <= p < |q| && IsRisk(q[p].risk, level)
  }

  /** The risk of a built workflow and whether it waits for approval, by the words. */
  lemma RiskOfWorkflow(w: WorkflowRun, q: seq<Plan>, id: string)
    requires IsWorkflowOf(w, q, id)
    ensures IsRisk(w.risk, "critical") <==> AnyRisk(q, "critical")
    ensures IsRisk(w.risk, "high") <==> AnyRisk(q, "high") && !AnyRisk(q, "critical")
    ensures IsRisk(w.risk, "medium") <==> AnyRisk(q, "medium") && !AnyRisk(q, "high") && !AnyRisk(q, "critical")
    ensures w.status != "blocked" ==>
              (w.status == "approval_required" <==>
                 AnyRisk(q, "medium") || AnyRisk(q, "high") || AnyRisk(q, "critical"))
    ensures w.status in {"blocked", "approval_required", "proposed"}
  {
    LowIsLow();
    forall text ensures Ranks(text, RiskRank(text)) {
      RankOfWord(text);
    }
    assert RiskRank(w.risk) > 1 ==> exists p :: 0 <= p < |q| && FirstRisk(q, p, w.risk);
    assert forall p :: 0 <= p < |q| && IsRisk(q[p].risk, "critical") ==> AnyRisk(q, "critical");
    assert forall p :: 0 <= p < |q| && IsRisk(q[p].risk, "high") ==> AnyRisk(q, "high");
    assert forall p :: 0 <= p < |q| && IsRisk(q[p].risk, "medium") ==> AnyRisk(q, "medium");
  }

  predicate Ranks(text: string, rank: nat) {
    && (IsRisk(text, "critical") <==> rank == 4) && (IsRisk(text, "high") <==> rank == 3)
    && (IsRisk(text, "medium") <==> rank == 2) && 1 <= rank <= 4
  }

  lemma RankOfWord(text: string)
    ensures Ranks(text, RiskRank(text))
  {
    var lower := ToLower(TrimSpace(text));
    assert lower == "critical" ==> lower != "high" && lower != "medium";
    assert lower == "high" ==> lower != "medium";
  }

  lemma LowIsLow()
    ensures ToLower(TrimSpace("low")) == "low"
  {
    SpacesAre('l');
    SpacesAre('w');
    AlphabetsAre();
    assert TrimSpace("low") == "low";
  }

  function Higher(risk: string, other: string): string {
    if RiskRank(other) > RiskRank(risk) then other else risk
  }

  lemma RiskStep(q: seq<Plan>, p: nat, risk: string)
    requires p < |q| && HighestRisk(risk, q, p)
    ensures HighestRisk(Higher(risk, q[p].risk), q, p + 1)
  {
    if RiskRank(q[p].risk) > RiskRank(risk) {
      assert FirstRisk(q, p, q[p].risk);
    } else if RiskRank(risk) > 1 {
      var r :| 0 <= r < p && FirstRisk(q, r, risk);
    }
  }

  ghost predicate AnyBlocked(q: seq<Plan>) {
    exists p :: 0 <= p < |q| && q[p].status == "blocked"
  }

  lemma BlockedStep(q: seq<Plan>, p: nat)
    requires p < |q|
    ensures AnyBlocked(q[..p + 1]) <==> AnyBlocked(q[..p]) || q[p].status == "blocked"
  {
  }

  /** What the second pass has gathered from the first `p` plans. */
  ghost predicate Assessed(q: seq<Plan>, p: nat, ops: seq<Operation>, risk: string, anyBlocked: bool) {
    && p <= |q| && |ops| == p && (forall r :: 0 <= r < p ==> ops[r] == OperationOf(q, r))
    && HighestRisk(risk, q, p) && (anyBlocked <==> AnyBlocked(q[..p]))
  }

  lemma AssessedStep(q: seq<Plan>, p: nat, ops: seq<Operation>, risk: string, anyBlocked: bool)
    requires p < |q| && Assessed(q, p, ops, risk, anyBlocked)
    ensures var op := OperationOf(q, p);
            Assessed(q, p + 1, ops + [op], Higher(risk, op.risk), anyBlocked || op.status.OpBlocked?)
  {
    BlockedStep(q, p);
    RiskStep(q, p, risk);
    assert OperationOf(q, p).risk == q[p].risk;
    assert OperationOf(q, p).status.OpBlocked? <==> q[p].status == "blocked";
  }

  lemma AllAssessed(q: seq<Plan>, ops: seq<Operation>, risk: string, anyBlocked: bool)
    requires Assessed(q, |q|, ops, risk, anyBlocked)
    ensures ops == OperationsOf(q) && HighestRisk(risk, q, |q|) && (anyBlocked <==> AnyBlocked(q))
  {
  }

  method RewriteOne(plans: array<Plan>, indexes: seq<nat>, aliases: map<string, string>, p: nat, workflowId: string,
                    ghost q: seq<Plan>, ghost before: seq<Plan>) returns (op: Operation)
    requires p < |indexes| == |q| && aliases == Aliases(q)
    requires PassAt(plans[..], before, indexes, Rewritten(q, workflowId), p)
    requires Pick(before, indexes) == Named(q, workflowId)
    modifies plans
    ensures PassAt(plans[..], before, indexes, Rewritten(q, workflowId), p + 1)
    ensures op == OperationOf(q, p)
  {
    PassStep(plans[..], before, indexes, Rewritten(q, workflowId), p);
    var plan := plans[indexes[p]];
    assert plan == Pick(before, indexes)[p] == Named(q, workflowId)[p];
    var dependencies := MapDependencies(plan.dependsOn, aliases, plan.operationId);
    if p > 0 && |dependencies| == 0 {
      assert plans[..][indexes[p - 1]] == Rewritten(q, workflowId)[p - 1];
      dependencies := [plans[indexes[p - 1]].operationId];
    }
    plans[indexes[p]] := plan.(dependsOn := dependencies);
    op := Operation(plan.operationId, plan.id, plan.risk, dependencies,
                    if plan.status == "blocked" then OpBlocked else Pending, "");
  }

  /** The second pass: dependencies, risk, and the operations themselves. */
  method RewriteGroup(plans: array<Plan>, indexes: seq<nat>, aliases: map<string, string>, workflowId: string,
                      ghost q: seq<Plan>)
      returns (ops: seq<Operation>, risk: string, anyBlocked: bool)
    requires Increasing(indexes, plans.Length) && |q| == |indexes| && aliases == Aliases(q)
    requires Pick(plans[..], indexes) == Named(q, workflowId)
    modifies plans
    ensures Pass(plans[..], old(plans[..]), indexes, Rewritten(q, workflowId))
    ensures ops == OperationsOf(q) && HighestRisk(risk, q, |q|)
    ensures anyBlocked <==> AnyBlocked(q)
  {
    ghost var before := plans[..];
    ops, risk, anyBlocked := [], "low", false;
    var p := 0;
    while p < |indexes|
      invariant 0 <= p <= |indexes| && PassAt(plans[..], before, indexes, Rewritten(q, workflowId), p)
      invariant Assessed(q, p, ops, risk, anyBlocked)
    {
      var op := RewriteOne(plans, indexes, aliases, p, workflowId, q, before);
      AssessedStep(q, p, ops, risk, anyBlocked);
      risk := Higher(risk, op.risk);
      if op.status.OpBlocked? {
        anyBlocked := true;
      }
      ops := ops + [op];
      p := p + 1;
    }
    AllAssessed(q, ops, risk, anyBlocked);
  }

  /** What a group turns into. */
  ghost predicate IsWorkflowOf(w: WorkflowRun, q: seq<Plan>, id: string) {
    && w.id == id && HighestRisk(w.risk, q, |q|)
    && (w.status == "blocked" <==> AnyBlocked(q) || !ValidDag(OperationsOf(q)))
    && (w.status != "blocked" ==> w.status == if RiskRank(w.risk) >= 2 then "approval_required" else "proposed")
    && |w.operations| == |q|
    && (forall p :: 0 <= p < |q| ==>
                      w.operations[p] == if ValidDag(OperationsOf(q)) then OperationOf(q, p)
                                         else OperationOf(q, p).(status := OpBlocked))
    && (w.status != "blocked" ==> RootedAtFirst(w.operations) && ValidDag(w.operations))
  }

  method BuildWorkflow(plans: array<Plan>, indexes: seq<nat>, workflowId: string, ghost q: seq<Plan>)
      returns (w: WorkflowRun)
    requires Increasing(indexes, plans.Length) && indexes != [] && q == Pick(plans[..], indexes)
    modifies plans
    ensures Pass(plans[..], old(plans[..]), indexes, Left(q, w)) && IsWorkflowOf(w, q, workflowId)
  {
    ghost var before := plans[..];
    var aliases := AssignIds(plans, indexes, workflowId, q);
    assert Pick(plans[..], indexes) == Named(q, workflowId);
    ghost var named := plans[..];
    var ops, risk, anyBlocked := RewriteGroup(plans, indexes, aliases, workflowId, q);
    PassTwice(plans[..], named, before, indexes, Named(q, workflowId), Rewritten(q, workflowId));
    w := Assess(ops, risk, anyBlocked, workflowId, q);
    ghost var rewritten := plans[..];
    assert Pick(plans[..], indexes) == Rewritten(q, workflowId);
    StageGroup(plans, indexes, w, q);
    PassTwice(plans[..], rewritten, before, indexes, Rewritten(q, workflowId), Left(q, w));
  }

  method Assess(ops: seq<Operation>, risk: string, anyBlocked: bool, workflowId: string, ghost q: seq<Plan>)
      returns (w: WorkflowRun)
    requires q != [] && ops == OperationsOf(q) && HighestRisk(risk, q, |q|) && (anyBlocked <==> AnyBlocked(q))
    ensures IsWorkflowOf(w, q, workflowId)
  {
    var status := if anyBlocked then "blocked" else if RiskRank(risk) >= 2 then "approval_required" else "proposed";
    var valid := Validate(ops);
    var operations := ops;
    if valid {
      AcceptedIsRooted(q);
    } else {
      status := "blocked";
      operations := BlockAll(ops);
    }
    w := WorkflowRun(workflowId, status, risk, operations);
  }

  method BlockAll(ops: seq<Operation>) returns (r: seq<Operation>)
    ensures |r| == |ops| && forall i :: 0 <= i < |ops| ==> r[i] == ops[i].(status := OpBlocked)
  {
    r := ops;
    for i := 0 to |ops|
      invariant |r| == |ops|
      invariant forall j :: 0 <= j < |ops| ==> r[j] == if j < i then ops[j].(status := OpBlocked) else ops[j]
    {
      r := r[i := r[i].(status := OpBlocked)];
    }
  }

  method StageGroup(plans: array<Plan>, indexes: seq<nat>, w: WorkflowRun, ghost q: seq<Plan>)
    requires Increasing(indexes, plans.Length) && indexes != [] && |q| == |indexes|
    requires Pick(plans[..], indexes) == Rewritten(q, w.id)
    modifies plans
    ensures Pass(plans[..], old(plans[..]), indexes, Left(q, w))
  {
    ghost var before := plans[..];
    assert forall p :: 0 <= p < |indexes| ==> before[indexes[p]] == Pick(before, indexes)[p];
    PassStep(plans[..], before, indexes, Left(q, w), 0);
    plans[indexes[0]] := plans[indexes[0]].(status := w.status, risk := w.risk);
    var p := 1;
    while p < |indexes|
      invariant 1 <= p <= |indexes| && PassAt(plans[..], before, indexes, Left(q, w), p)
    {
      PassStep(plans[..], before, indexes, Left(q, w), p);
      if plans[indexes[p]].status != "blocked" {
        plans[indexes[p]] := plans[indexes[p]].(status := "staged");
      } else {
        assert plans[..][indexes[p] := Left(q, w)[p]] == plans[..];
      }
      p := p + 1;
    }
  }

  // --- all of them -----------------------------------------------------------------------------------

  ghost predicate Built(before: seq<Plan>, after: seq<Plan>, g: Group, w: WorkflowRun, id: string) {
    && |before| == |after| && Increasing(g.indexes, |before|)
    && IsWorkflowOf(w, Pick(before, g.indexes), id)
    && Pick(after, g.indexes) == Left(Pick(before, g.indexes), w)
  }

  /** buildAIWorkflows: one workflow per group, each built from the plans as they came
      and leaving all other groups alone. `freshIds` supplies the workflow ids. */
  method BuildWorkflows(plans: array<Plan>, freshIds: seq<string>)
      returns (workflows: seq<WorkflowRun>, groups: seq<Group>)
    requires |freshIds| >= plans.Length
    modifies plans
    ensures Partition(old(plans[..]), plans.Length, groups) && |workflows| == |groups| <= plans.Length
    ensures forall a :: 0 <= a < |groups| ==> Built(old(plans[..]), plans[..], groups[a], workflows[a], freshIds[a])
  {
    ghost var before := plans[..];
    groups := GroupPlans(plans);
    workflows := [];
    var a := 0;
    while a < |groups|
      invariant 0 <= a <= |groups| && |workflows| == a
      invariant forall b :: 0 <= b < a ==> Built(before, plans[..], groups[b], workflows[b], freshIds[b])
      invariant forall b :: a <= b < |groups| ==> SameGroup(before, plans[..], groups[b])
    {
      ghost var q, was := Pick(before, groups[a].indexes), plans[..];
      var w := BuildWorkflow(plans, groups[a].indexes, freshIds[a], q);
      assert Built(before, plans[..], groups[a], w, freshIds[a]);
      OtherGroups(before, groups, a, was, plans[..], Left(q, w));
      workflows := workflows + [w];
      a := a + 1;
    }
  }

  ghost predicate SameGroup(before: seq<Plan>, after: seq<Plan>, g: Group) {
    && |before| == |after| && Increasing(g.indexes, |before|)
    && Pick(after, g.indexes) == Pick(before, g.indexes)
  }

  lemma OtherGroups(s: seq<Plan>, groups: seq<Group>, a: int, before: seq<Plan>, after: seq<Plan>, done: seq<Plan>)
    requires Partition(s, |s|, groups) && 0 <= a < |groups| && |before| == |s|
    requires Pass(after, before, groups[a].indexes, done)
    ensures forall b, w, id :: 0 <= b < |groups| && b != a && Built(s, before, groups[b], w, id)
              ==> Built(s, after, groups[b], w, id)
    ensures forall b :: 0 <= b < |groups| && b != a && SameGroup(s, before, groups[b])
              ==> SameGroup(s, after, groups[b])
  {
  }
}
