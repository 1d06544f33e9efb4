/** The executor's three operations on GTID lists, proved against what the lists
    denote: `parseGTIDSet`, `gtidSetSubset` and `gtidTransactionCount`. */
module GtidOperations {
  import opened GtidSet
  import opened StableSort

  // --- parseGTIDSet ------------------------------------------------------------

  /** The well-formed spans of one UUID, in list order; an upper bound below the
      lower one is skipped. */
  function SpansOf(g: seq<Entry>, uuid: string): (r: seq<Interval>) {
    if g == [] then []
    else
      var front, last := SpansOf(g[..|g| - 1], uuid), g[|g| - 1];
      if last.uuid == uuid && last.span.start <= last.span.end then front + [last.span] else front
  }

  lemma {:induction false} SpansDenote(g: seq<Entry>, uuid: string)
    ensures AllWellFormed(SpansOf(g, uuid))
    ensures forall n: nat :: Covers(SpansOf(g, uuid), n) <==> Denotes(g, uuid, n)
  {
    if g != [] {
      var front, last := g[..|g| - 1], g[|g| - 1];
      SpansDenote(front, uuid);
      var s, t := SpansOf(front, uuid), SpansOf(g, uuid);
      forall n: nat ensures Covers(t, n) <==> Denotes(g, uuid, n) {
        if Covers(t, n) {
          var i :| 0 <= i < |t| && t[i].Has(n);
          if i < |s| {
            assert s[i].Has(n);
            assert Covers(s, n) && Denotes(front, uuid, n);
            var j :| 0 <= j < |front| && front[j].uuid == uuid && front[j].span.Has(n);
            assert g[j].span.Has(n);
          } else {
            assert g[|g| - 1].span.Has(n);
          }
        }
        if Denotes(g, uuid, n) {
          var j :| 0 <= j < |g| && g[j].uuid == uuid && g[j].span.Has(n);
          if j < |front| {
            assert front[j].span.Has(n);
            assert Denotes(front, uuid, n) && Covers(s, n);
            var i :| 0 <= i < |s| && s[i].Has(n);
            assert t[i].Has(n);
          } else {
            assert t[|t| - 1].Has(n);
          }
        }
      }
    }
  }

  /** `sort.Slice` by start: some sorted permutation, ties in any order. */
  method SortByStart(s: seq<Interval>) returns (t: seq<Interval>)
    ensures SortedByStart(t) && multiset(t) == multiset(s)
  {
    var byStart := (x: Interval, y: Interval) => x.start < y.start;
    SortSorts(byStart, s);
    SortPermutes(byStart, s);
    t := Sort(byStart, s);
  }

  /** What coalescing leaves of a list, whatever order ties were sorted into. */
  ghost predicate IsCoalescingOf(m: seq<Interval>, s: seq<Interval>) {
    && Coalesced(m)
    && (s != [] ==> m != [])
    && (forall n: nat :: Covers(m, n) <==> Covers(s, n))
    && ((forall i :: 0 <= i < |s| ==> s[i].end < MAX_U64) ==> Separated(m))
  }

  lemma SameElementsSameCover(s: seq<Interval>, t: seq<Interval>)
    requires multiset(s) == multiset(t)
    ensures AllWellFormed(s) ==> AllWellFormed(t)
    ensures forall n: nat :: Covers(s, n) <==> Covers(t, n)
    ensures (forall i :: 0 <= i < |s| ==> s[i].end < MAX_U64) ==> forall i :: 0 <= i < |t| ==> t[i].end < MAX_U64
  {
    assert forall x :: x in s <==> x in multiset(s);
    assert forall x :: x in t <==> x in multiset(t);
    assert forall i :: 0 <= i < |t| ==> t[i] in s;
    assert forall i :: 0 <= i < |s| ==> s[i] in t;
  }

  method Coalesce(s: seq<Interval>) returns (merged: seq<Interval>)
    requires AllWellFormed(s)
    ensures IsCoalescingOf(merged, s)
  {
    var intervals := SortByStart(s);
    SameElementsSameCover(s, intervals);
    merged := [];
    for i := 0 to |intervals|
      invariant merged == Merge(intervals[..i])
    {
      var interval := intervals[i];
      assert intervals[..i + 1][..i] == intervals[..i];
      if |merged| == 0 || interval.start > Successor(merged[|merged| - 1].end) {
        merged := merged + [interval];
      } else if interval.end > merged[|merged| - 1].end {
        merged := merged[|merged| - 1 := merged[|merged| - 1].(end := interval.end)];
      }
    }
    assert intervals[..|intervals|] == intervals;
    MergeSound(intervals);
    if forall i :: 0 <= i < |intervals| ==> intervals[i].end < MAX_U64 {
      BelowMax(intervals);
    }
    assert s != [] ==> intervals != [] by {
      if s != [] { assert s[0] in multiset(s); }
    }
  }

  /** What a parsed set is: one coalesced list for every UUID that has a
      well-formed span, and nothing else. */
  ghost predicate ParseOf(r: map<string, seq<Interval>>, g: seq<Entry>) {
    && (forall uuid :: uuid in r <==> SpansOf(g, uuid) != [])
    && (forall uuid :: uuid in r ==> r[uuid] != [] && IsCoalescingOf(r[uuid], SpansOf(g, uuid)))
  }

  method Parse(g: seq<Entry>) returns (r: map<string, seq<Interval>>)
    ensures ParseOf(r, g)
  {
    r := map[];
    for k := 0 to |g|
      invariant forall uuid :: uuid in r <==> SpansOf(g[..k], uuid) != []
      invariant forall uuid :: uuid in r ==> r[uuid] == SpansOf(g[..k], uuid)
    {
      assert g[..k + 1][..k] == g[..k];
      var e := g[k];
      if e.span.start <= e.span.end {
        r := r[e.uuid := (if e.uuid in r then r[e.uuid] else []) + [e.span]];
      }
    }
    assert g[..|g|] == g;
    var todo := r.Keys;
    while todo != {}
      invariant todo <= r.Keys
      invariant forall uuid :: uuid in r <==> SpansOf(g, uuid) != []
      invariant forall uuid :: uuid in todo ==> r[uuid] == SpansOf(g, uuid)
      invariant forall uuid :: uuid in r && uuid !in todo ==> r[uuid] != [] && IsCoalescingOf(r[uuid], SpansOf(g, uuid))
    {
      var uuid :| uuid in todo;
      SpansDenote(g, uuid);
      var merged := Coalesce(r[uuid]);
      r := r[uuid := merged];
      todo := todo - {uuid};
    }
  }

  lemma ParseDenotes(r: map<string, seq<Interval>>, g: seq<Entry>)
    requires ParseOf(r, g)
    ensures forall uuid, n: nat :: Denotes(g, uuid, n) <==> uuid in r && Covers(r[uuid], n)
  {
    forall uuid, n: nat ensures Denotes(g, uuid, n) <==> uuid in r && Covers(r[uuid], n) {
      SpansDenote(g, uuid);
    }
  }

  /** Parsing is canonical below the largest word: two texts of one set parse to
      the same map, however each was ordered, split or repeated. */
  lemma ParseIsCanonical(r1: map<string, seq<Interval>>, g1: seq<Entry>, r2: map<string, seq<Interval>>, g2: seq<Entry>)
    requires ParseOf(r1, g1) && ParseOf(r2, g2)
    requires forall i :: 0 <= i < |g1| ==> g1[i].span.end < MAX_U64
    requires forall i :: 0 <= i < |g2| ==> g2[i].span.end < MAX_U64
    requires Included(g1, g2) && Included(g2, g1)
    ensures r1 == r2
  {
    ParseDenotes(r1, g1);
    ParseDenotes(r2, g2);
    forall uuid ensures (uuid in r1 <==> uuid in r2) && (uuid in r1 ==> r1[uuid] == r2[uuid]) {
      SpansBelowMax(g1, uuid);
      SpansBelowMax(g2, uuid);
      if uuid in r1 {
        assert r1[uuid][0].Has(r1[uuid][0].start);
        assert Covers(r1[uuid], r1[uuid][0].start) && Denotes(g1, uuid, r1[uuid][0].start);
      }
      if uuid in r2 {
        assert r2[uuid][0].Has(r2[uuid][0].start);
        assert Covers(r2[uuid], r2[uuid][0].start) && Denotes(g2, uuid, r2[uuid][0].start);
      }
      if uuid in r1 && uuid in r2 {
        forall n: nat ensures Covers(r1[uuid], n) <==> Covers(r2[uuid], n) {
          assert Denotes(g1, uuid, n) <==> Denotes(g2, uuid, n);
        }
        SeparatedIsCanonical(r1[uuid], r2[uuid]);
      }
    }
  }

  lemma {:induction false} SpansBelowMax(g: seq<Entry>, uuid: string)
    requires forall i :: 0 <= i < |g| ==> g[i].span.end < MAX_U64
    ensures forall i :: 0 <= i < |SpansOf(g, uuid)| ==> SpansOf(g, uuid)[i].end < MAX_U64
  {
    if g == [] {
    } else {
      SpansBelowMax(g[..|g| - 1], uuid);
    }
  }

  // --- gtidSetSubset -----------------------------------------------------------

  ghost predicate Inside(x: Interval, s: seq<Interval>) {
    exists k :: 0 <= k < |s| && s[k].start <= x.start && x.end <= s[k].end
  }

  ghost predicate AllInside(small: map<string, seq<Interval>>, large: map<string, seq<Interval>>, uuid: string) {
    && uuid in small && uuid in large
    && forall i :: 0 <= i < |small[uuid]| ==> Inside(small[uuid][i], large[uuid])
  }

  lemma InsideAllIsIncluded(a: seq<Entry>, b: seq<Entry>, small: map<string, seq<Interval>>,
                            large: map<string, seq<Interval>>)
    requires ParseOf(small, a) && ParseOf(large, b)
    requires ParsedInside(small, large)
    ensures Included(a, b)
  {
    ParseDenotes(small, a);
    ParseDenotes(large, b);
    forall uuid, n | Denotes(a, uuid, n) ensures Denotes(b, uuid, n) {
      var i :| 0 <= i < |small[uuid]| && small[uuid][i].Has(n);
      var k :| && 0 <= k < |large[uuid]|
               && large[uuid][k].start <= small[uuid][i].start && small[uuid][i].end <= large[uuid][k].end;
      assert large[uuid][k].Has(n);
    }
  }

  lemma IncludedIsInside(a: seq<Entry>, b: seq<Entry>, small: map<string, seq<Interval>>,
                         large: map<string, seq<Interval>>, uuid: string, i: nat)
    requires ParseOf(small, a) && ParseOf(large, b) && Included(a, b)
    requires uuid in small && i < |small[uuid]|
    ensures uuid in large && Inside(small[uuid][i], large[uuid])
  {
    ParseDenotes(small, a);
    ParseDenotes(large, b);
    var x := small[uuid][i];
    forall n: nat | x.Has(n) ensures uuid in large && Covers(large[uuid], n) {
      assert Covers(small[uuid], n) && Denotes(a, uuid, n) && Denotes(b, uuid, n);
    }
    assert x.Has(x.start);
    RunInsideOne(large[uuid], x);
  }

  lemma IncludedIsAllInside(a: seq<Entry>, b: seq<Entry>, small: map<string, seq<Interval>>,
                            large: map<string, seq<Interval>>, uuid: string)
    requires ParseOf(small, a) && ParseOf(large, b) && Included(a, b) && uuid in small
    ensures AllInside(small, large, uuid)
  {
    IncludedIsInside(a, b, small, large, uuid, 0);
    forall i | 0 <= i < |small[uuid]| ensures Inside(small[uuid][i], large[uuid]) {
      IncludedIsInside(a, b, small, large, uuid, i);
    }
  }

  ghost predicate ParsedInside(small: map<string, seq<Interval>>, large: map<string, seq<Interval>>) {
    forall uuid :: uuid in small ==> AllInside(small, large, uuid)
  }

  lemma InsideAllIffIncluded(a: seq<Entry>, b: seq<Entry>, small: map<string, seq<Interval>>,
                             large: map<string, seq<Interval>>)
    requires ParseOf(small, a) && ParseOf(large, b)
    ensures Included(a, b) <==> ParsedInside(small, large)
  {
    if Included(a, b) {
      forall uuid | uuid in small ensures AllInside(small, large, uuid) {
        IncludedIsAllInside(a, b, small, large, uuid);
      }
    }
    if ParsedInside(small, large) {
      InsideAllIsIncluded(a, b, small, large);
    }
  }

  /** The innermost loop: is one candidate interval wide enough? */
  method FindContaining(interval: Interval, candidates: seq<Interval>) returns (contained: bool)
    ensures contained <==> Inside(interval, candidates)
  {
    for k := 0 to |candidates|
      invariant !Inside(interval, candidates[..k])
    {
      if candidates[k].start <= interval.start && candidates[k].end >= interval.end {
        return true;
      }
    }
    assert candidates[..|candidates|] == candidates;
    return false;
  }

  /** The loop over one UUID's intervals. */
  method AllContained(intervals: seq<Interval>, candidates: seq<Interval>) returns (yes: bool)
    ensures yes <==> forall i :: 0 <= i < |intervals| ==> Inside(intervals[i], candidates)
  {
    for i := 0 to |intervals|
      invariant forall j :: 0 <= j < i ==> Inside(intervals[j], candidates)
    {
      var contained := FindContaining(intervals[i], candidates);
      if !contained {
        return false;
      }
    }
    return true;
  }

  /** The outer loop, over the UUIDs of the smaller set in any order; a UUID the
      larger set lacks has no candidates. */
  method ParsedSubset(small: map<string, seq<Interval>>, large: map<string, seq<Interval>>) returns (yes: bool)
    requires forall uuid :: uuid in small ==> small[uuid] != []
    ensures yes <==> ParsedInside(small, large)
  {
    var todo := small.Keys;
    while todo != {}
      invariant todo <= small.Keys
      invariant forall uuid :: uuid in small && uuid !in todo ==> AllInside(small, large, uuid)
    {
      var uuid :| uuid in todo;
      var contained := AllContained(small[uuid], if uuid in large then large[uuid] else []);
      assert AllInside(small, large, uuid) <==> contained by {
        assert small[uuid][0] == small[uuid][0];
      }
      if !contained {
        return false;
      }
      todo := todo - {uuid};
    }
    return true;
  }

  method Subset(a: seq<Entry>, b: seq<Entry>) returns (yes: bool)
    ensures yes <==> Included(a, b)
  {
    if |a| == 0 {
      return true;
    }
    var small := Parse(a);
    var large := Parse(b);
    yes := ParsedSubset(small, large);
    InsideAllIffIncluded(a, b, small, large);
  }

  // --- gtidTransactionCount ------------------------------------------------------

  function Length(e: Entry): nat {
    if e.span.start <= e.span.end then e.span.end - e.span.start + 1 else 0
  }

  function TotalLength(g: seq<Entry>): nat {
    if g == [] then 0 else TotalLength(g[..|g| - 1]) + Length(g[|g| - 1])
  }

  /** Addition of unsigned 64-bit words. */
  function Add64(a: U64, b: nat): U64 {
    (a + b) % (MAX_U64 + 1)
  }

  lemma Add64Total(total: nat, b: nat)
    ensures Add64(total % (MAX_U64 + 1), b) == (total + b) % (MAX_U64 + 1)
  {
  }

  /** The sum is an unsigned 64-bit word: it wraps. */
  method TransactionCount(g: seq<Entry>) returns (total: U64)
    ensures total == TotalLength(g) % (MAX_U64 + 1)
  {
    total := 0;
    for i := 0 to |g|
      invariant total == TotalLength(g[..i]) % (MAX_U64 + 1)
    {
      assert g[..i + 1][..i] == g[..i];
      var e := g[i];
      if e.span.end >= e.span.start {
        Add64Total(TotalLength(g[..i]), e.span.end - e.span.start + 1);
        total := Add64(total, e.span.end - e.span.start + 1);
      }
    }
    assert g[..|g|] == g;
  }

  ghost function SpanSet(e: Entry): set<(string, nat)> {
    set n: nat | e.span.start <= n <= e.span.end :: (e.uuid, n)
  }

  /** The finite set of transactions a list denotes. */
  ghost function Transactions(g: seq<Entry>): set<(string, nat)> {
    if g == [] then {} else Transactions(g[..|g| - 1]) + SpanSet(g[|g| - 1])
  }

  ghost predicate Disjoint(g: seq<Entry>) {
    forall i, j, n: nat :: 0 <= i < j < |g| && g[i].uuid == g[j].uuid && g[i].span.Has(n) ==> !g[j].span.Has(n)
  }

  lemma {:induction false} SpanSetSize(e: Entry)
    ensures |SpanSet(e)| == Length(e)
    decreases Length(e)
  {
    if e.span.start < e.span.end {
      var shorter := e.(span := e.span.(end := e.span.end - 1));
      SpanSetSize(shorter);
      assert SpanSet(e) == SpanSet(shorter) + {(e.uuid, e.span.end)};
    } else if e.span.start == e.span.end {
      assert SpanSet(e) == {(e.uuid, e.span.start)};
    } else {
      assert SpanSet(e) == {};
    }
  }

  lemma {:induction false} TransactionsDenote(g: seq<Entry>)
    ensures forall uuid, n: nat :: (uuid, n) in Transactions(g) <==> Denotes(g, uuid, n)
  {
    if g == [] {
    } else {
      var front, last := g[..|g| - 1], g[|g| - 1];
      TransactionsDenote(front);
      forall uuid, n: nat ensures (uuid, n) in Transactions(g) <==> Denotes(g, uuid, n) {
        if Denotes(front, uuid, n) {
          var i :| 0 <= i < |front| && front[i].uuid == uuid && front[i].span.Has(n);
          assert g[i].span.Has(n);
        }
        if (uuid, n) in SpanSet(last) {
          assert g[|g| - 1].span.Has(n);
        }
      }
    }
  }

  lemma SharedIsRepeated(g: seq<Entry>, x: (string, nat))
    requires g != [] && x in Transactions(g[..|g| - 1]) && x in SpanSet(g[|g| - 1])
    ensures !Disjoint(g)
  {
    var front := g[..|g| - 1];
    TransactionsDenote(front);
    assert Denotes(front, x.0, x.1);
    var i :| 0 <= i < |front| && front[i].uuid == x.0 && front[i].span.Has(x.1);
    assert g[i].span.Has(x.1) && g[|g| - 1].span.Has(x.1);
  }

  lemma RepeatedInFront(g: seq<Entry>)
    requires g != [] && !Disjoint(g[..|g| - 1])
    ensures !Disjoint(g)
  {
  }

  lemma RepeatedIsShared(g: seq<Entry>)
    requires g != [] && !Disjoint(g)
    ensures !Disjoint(g[..|g| - 1]) || Transactions(g[..|g| - 1]) * SpanSet(g[|g| - 1]) != {}
  {
    var front, last := g[..|g| - 1], g[|g| - 1];
    var i, j, n: nat :| 0 <= i < j < |g| && g[i].uuid == g[j].uuid && g[i].span.Has(n) && g[j].span.Has(n);
    assert front[i].span.Has(n);
    if j == |g| - 1 {
      TransactionsDenote(front);
      assert Denotes(front, last.uuid, n);
      assert (last.uuid, n) in Transactions(front) * SpanSet(last);
    } else {
      assert front[j].span.Has(n);
    }
  }

  lemma DisjointBack(g: seq<Entry>)
    requires g != []
    ensures Disjoint(g) <==> Disjoint(g[..|g| - 1]) && Transactions(g[..|g| - 1]) * SpanSet(g[|g| - 1]) == {}
  {
    var shared := Transactions(g[..|g| - 1]) * SpanSet(g[|g| - 1]);
    if shared != {} {
      var x :| x in shared;
      SharedIsRepeated(g, x);
    }
    if !Disjoint(g[..|g| - 1]) {
      RepeatedInFront(g);
    }
    if !Disjoint(g) {
      RepeatedIsShared(g);
    }
  }

  /** The total is never below the number of transactions, and meets it exactly
      when no transaction is listed twice. */
  lemma {:induction false} TotalLengthIsSize(g: seq<Entry>)
    ensures TotalLength(g) >= |Transactions(g)|
    ensures TotalLength(g) == |Transactions(g)| <==> Disjoint(g)
  {
    if g == [] {
    } else {
      var front, last := g[..|g| - 1], g[|g| - 1];
      TotalLengthIsSize(front);
      SpanSetSize(last);
      TransactionsDenote(front);
      var A, B := Transactions(front), SpanSet(last);
      assert |A + B| == |A| + |B| - |A * B|;
      DisjointBack(g);
      if A * B != {} {
        var x :| x in A * B;
        assert |A * B| > 0;
      }
    }
  }

  /** Lists of one set that repeat nothing count alike. */
  lemma EqualSetsCountAlike(a: seq<Entry>, b: seq<Entry>)
    requires Included(a, b) && Included(b, a) && Disjoint(a) && Disjoint(b)
    ensures TotalLength(a) == TotalLength(b)
  {
    TransactionsDenote(a);
    TransactionsDenote(b);
    forall x ensures x in Transactions(a) <==> x in Transactions(b) {
      assert x == (x.0, x.1);
      assert Denotes(a, x.0, x.1) <==> Denotes(b, x.0, x.1);
    }
    assert Transactions(a) == Transactions(b);
    TotalLengthIsSize(a);
    TotalLengthIsSize(b);
  }
}
