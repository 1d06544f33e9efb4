/** GTID set algebra of the architecture executor: interval lists are grouped by
    server UUID, sorted, coalesced, compared and counted with 64-bit bounds.
    The set format is described in section 19.1.3.1 of the MySQL 8.4 Reference
    Manual. */
module GtidSet {

  const MAX_U64 := 0xFFFF_FFFF_FFFF_FFFF

  type U64 = n: nat | n <= MAX_U64

  datatype Interval = Interval(start: U64, end: U64) {
    ghost predicate WellFormed() { start <= end }
    ghost predicate Has(n: nat) { start <= n <= end }
  }

  /** One `uuid:start-end` item of the text form, UUID already lower-cased. */
  datatype Entry = Entry(uuid: string, span: Interval)

  // --- what a list denotes ---------------------------------------------------

  ghost predicate Covers(s: seq<Interval>, n: nat) {
    exists i :: 0 <= i < |s| && s[i].Has(n)
  }

  ghost predicate AllWellFormed(s: seq<Interval>) {
    forall i :: 0 <= i < |s| ==> s[i].WellFormed()
  }

  ghost predicate Denotes(g: seq<Entry>, uuid: string, n: nat) {
    exists i :: 0 <= i < |g| && g[i].uuid == uuid && g[i].span.Has(n)
  }

  /** Every transaction of `a` is one of `b`. */
  ghost predicate Included(a: seq<Entry>, b: seq<Entry>) {
    forall uuid, n :: Denotes(a, uuid, n) ==> Denotes(b, uuid, n)
  }

  // --- coalescing --------------------------------------------------------------

  /** `end + 1` on an unsigned 64-bit word. */
  function Successor(n: U64): U64 {
    if n == MAX_U64 then 0 else n + 1
  }

  function Absorb(merged: seq<Interval>, x: Interval): (r: seq<Interval>)
    ensures |merged| <= |r| <= |merged| + 1
  {
    if merged == [] || x.start > Successor(merged[|merged| - 1].end) then merged + [x]
    else
      var last := merged[|merged| - 1];
      if x.end > last.end then merged[|merged| - 1 := last.(end := x.end)] else merged
  }

  function Merge(s: seq<Interval>): seq<Interval> {
    if s == [] then [] else Absorb(Merge(s[..|s| - 1]), s[|s| - 1])
  }

  ghost predicate SortedByStart(s: seq<Interval>) {
    forall i, j :: 0 <= i < j < |s| ==> s[i].start <= s[j].start
  }

  /** `y` lies behind a gap after `x`, or `x` already reaches the largest word. */
  ghost predicate Apart(x: Interval, y: Interval) {
    x.start <= y.start && (x.end == MAX_U64 || x.end + 1 < y.start)
  }

  ghost predicate Coalesced(s: seq<Interval>) {
    && AllWellFormed(s)
    && forall i, j :: 0 <= i < j < |s| ==> Apart(s[i], s[j])
  }

  /** The documented form: increasing, with a gap of at least one between
      neighbours. */
  ghost predicate Separated(s: seq<Interval>) {
    && AllWellFormed(s)
    && forall i, j :: 0 <= i < j < |s| ==> s[i].end + 1 < s[j].start
  }

  lemma AbsorbKeeps(m: seq<Interval>, x: Interval)
    requires Coalesced(m) && x.WellFormed()
    requires m != [] ==> m[|m| - 1].start <= x.start
    ensures Coalesced(Absorb(m, x))
    ensures forall n: nat :: Covers(Absorb(m, x), n) <==> Covers(m, n) || x.Has(n)
  {
    var r := Absorb(m, x);
    if m != [] {
      var last := m[|m| - 1];
      assert forall i :: 0 <= i < |m| - 1 ==> Apart(m[i], last);
    }
    forall n: nat ensures Covers(r, n) <==> Covers(m, n) || x.Has(n) {
      if Covers(m, n) {
        var i :| 0 <= i < |m| && m[i].Has(n);
        assert r[i].Has(n);
      }
      if x.Has(n) {
        assert r[|r| - 1].Has(n);
      }
    }
  }

  lemma {:induction false} MergeSound(s: seq<Interval>)
    requires SortedByStart(s) && AllWellFormed(s)
    ensures Coalesced(Merge(s))
    ensures forall n: nat :: Covers(Merge(s), n) <==> Covers(s, n)
    ensures s != [] ==> Merge(s) != [] && Merge(s)[|Merge(s)| - 1].start <= s[|s| - 1].start
  {
    if s == [] {
    } else {
      var front, x := s[..|s| - 1], s[|s| - 1];
      MergeSound(front);
      AbsorbKeeps(Merge(front), x);
      CoversSnoc(s);
    }
  }

  lemma CoversSnoc(s: seq<Interval>)
    requires s != []
    ensures forall n: nat :: Covers(s, n) <==> Covers(s[..|s| - 1], n) || s[|s| - 1].Has(n)
  {
    forall n: nat ensures Covers(s, n) <==> Covers(s[..|s| - 1], n) || s[|s| - 1].Has(n) {
      if Covers(s[..|s| - 1], n) {
        var i :| 0 <= i < |s| - 1 && s[..|s| - 1][i].Has(n);
        assert s[i].Has(n);
      }
    }
  }

  /** Why one containing interval is enough: a coalesced list that covers a whole
      run covers it inside a single member. */
  lemma RunInsideOne(s: seq<Interval>, run: Interval)
    requires Coalesced(s) && run.WellFormed()
    requires forall n: nat :: run.Has(n) ==> Covers(s, n)
    ensures exists i :: 0 <= i < |s| && s[i].start <= run.start && run.end <= s[i].end
  {
    assert run.Has(run.start);
    var i :| 0 <= i < |s| && s[i].Has(run.start);
    if s[i].end < run.end {
      assert run.Has(s[i].end + 1);
      var k :| 0 <= k < |s| && s[k].Has(s[i].end + 1);
      assert !Apart(s[i], s[k]);
      assert Apart(s[k], s[i]);
    }
  }

  // --- canonical form, and where the wrapping successor breaks it ----------------

  lemma {:induction false} BelowMax(s: seq<Interval>)
    requires SortedByStart(s) && AllWellFormed(s)
    requires forall i :: 0 <= i < |s| ==> s[i].end < MAX_U64
    ensures Separated(Merge(s))
    ensures forall i :: 0 <= i < |Merge(s)| ==> Merge(s)[i].end < MAX_U64
  {
    if s == [] {
    } else {
      BelowMax(s[..|s| - 1]);
    }
    MergeSound(s);
    var m := Merge(s);
    forall i, j | 0 <= i < j < |m| && m[i].end < MAX_U64 ensures m[i].end + 1 < m[j].start {
      assert Apart(m[i], m[j]);
    }
  }

  /** Separated lists are canonical: equal denotation forces equal lists. */
  lemma {:induction false} SeparatedIsCanonical(s: seq<Interval>, t: seq<Interval>)
    requires Separated(s) && Separated(t)
    requires forall n: nat :: Covers(s, n) <==> Covers(t, n)
    ensures s == t
  {
    if s == [] || t == [] {
      if s != [] { assert s[0].Has(s[0].start); assert Covers(s, s[0].start); }
      if t != [] { assert t[0].Has(t[0].start); assert Covers(t, t[0].start); }
    } else {
      FirstSpansAgree(s, t);
      forall n: nat ensures Covers(s[1..], n) <==> Covers(t[1..], n) {
        DropFirst(s, n);
        DropFirst(t, n);
      }
      SeparatedIsCanonical(s[1..], t[1..]);
      assert s == [s[0]] + s[1..] && t == [t[0]] + t[1..];
    }
  }

  lemma DropFirst(s: seq<Interval>, n: nat)
    requires Separated(s) && s != []
    ensures Covers(s[1..], n) <==> Covers(s, n) && !s[0].Has(n)
  {
  }

  lemma EarlierFirstDiffers(s: seq<Interval>, t: seq<Interval>)
    requires Separated(s) && Separated(t) && s != [] && t != [] && s[0].start < t[0].start
    ensures !forall n: nat :: Covers(s, n) <==> Covers(t, n)
  {
    assert s[0].Has(s[0].start) && Covers(s, s[0].start) && !Covers(t, s[0].start);
  }

  lemma LongerFirstDiffers(s: seq<Interval>, t: seq<Interval>)
    requires Separated(s) && Separated(t) && s != [] && t != []
    requires s[0].start == t[0].start && t[0].end < s[0].end
    ensures !forall n: nat :: Covers(s, n) <==> Covers(t, n)
  {
    var gap := t[0].end + 1;
    assert s[0].Has(gap) && Covers(s, gap) && !Covers(t, gap);
  }

  lemma FirstSpansAgree(s: seq<Interval>, t: seq<Interval>)
    requires Separated(s) && Separated(t) && s != [] && t != []
    requires forall n: nat :: Covers(s, n) <==> Covers(t, n)
    ensures s[0] == t[0]
  {
    if s[0].start < t[0].start {
      EarlierFirstDiffers(s, t);
    } else if t[0].start < s[0].start {
      EarlierFirstDiffers(t, s);
    } else if t[0].end < s[0].end {
      LongerFirstDiffers(s, t);
    } else if s[0].end < t[0].end {
      LongerFirstDiffers(t, s);
    }
  }

  /** Exactly when the coalesced list is in the documented form: nothing sorted
      behind an interval that reaches the largest word starts above zero. */
  ghost predicate NothingBehindMax(s: seq<Interval>) {
    forall i, j :: 0 <= i < j < |s| && s[i].end == MAX_U64 ==> s[j].start == 0
  }

  ghost predicate EndsAtMax(m: seq<Interval>) {
    m != [] && m[|m| - 1].end == MAX_U64
  }

  ghost predicate SomeAtMax(s: seq<Interval>) {
    exists i :: 0 <= i < |s| && s[i].end == MAX_U64
  }

  lemma AbsorbSeparatedIff(m: seq<Interval>, x: Interval)
    requires Coalesced(m) && x.WellFormed()
    requires m != [] ==> m[|m| - 1].start <= x.start
    ensures Separated(Absorb(m, x)) <==> Separated(m) && (EndsAtMax(m) ==> x.start == 0)
  {
    var r := Absorb(m, x);
    AbsorbKeeps(m, x);
    if !Separated(m) {
      var i, j :| 0 <= i < j < |m| && !(m[i].end + 1 < m[j].start);
      assert r[i].end == m[i].end && r[j].start == m[j].start;
    } else if EndsAtMax(m) && x.start != 0 {
      assert r[|m| - 1] == m[|m| - 1] && r[|m|] == x;
    } else {
      forall i, j | 0 <= i < j < |r| ensures r[i].end + 1 < r[j].start {
        assert j < |m| ==> m[i].end + 1 < m[j].start;
        assert Apart(r[i], r[j]);
      }
    }
  }

  lemma NothingBehindMaxBack(s: seq<Interval>)
    requires s != []
    ensures NothingBehindMax(s) <==>
              NothingBehindMax(s[..|s| - 1]) && (SomeAtMax(s[..|s| - 1]) ==> s[|s| - 1].start == 0)
  {
  }

  lemma {:induction false} MergeSeparatedIff(s: seq<Interval>)
    requires SortedByStart(s) && AllWellFormed(s)
    ensures Separated(Merge(s)) <==> NothingBehindMax(s)
  {
    if s == [] {
    } else {
      var front := s[..|s| - 1];
      MergeSound(front);
      MergeSeparatedIff(front);
      if NothingBehindMax(front) {
        ReachesMax(front);
      }
      AbsorbSeparatedIff(Merge(front), s[|s| - 1]);
      NothingBehindMaxBack(s);
    }
  }

  lemma {:induction false} ReachesMax(s: seq<Interval>)
    requires SortedByStart(s) && AllWellFormed(s) && NothingBehindMax(s)
    ensures SomeAtMax(s) <==> EndsAtMax(Merge(s))
  {
    if s == [] {
    } else {
      var front, x := s[..|s| - 1], s[|s| - 1];
      assert forall i :: 0 <= i < |front| ==> front[i] == s[i];
      ReachesMax(front);
      MergeSound(front);
      assert SomeAtMax(s) <==> SomeAtMax(front) || x.end == MAX_U64;
    }
  }

  /** The concrete case: `1-MAX` followed by `5-10` stays two intervals although
      `1-MAX` alone denotes the same set. */
  lemma WrappedSuccessorKeepsCoveredInterval()
    ensures var s := [Interval(1, MAX_U64), Interval(5, 10)];
            && Merge(s) == s && Merge([s[0]]) == [s[0]]
            && (forall n: nat :: Covers(s, n) <==> Covers([s[0]], n))
  {
    var s := [Interval(1, MAX_U64), Interval(5, 10)];
    assert s[..1] == [s[0]] && [s[0]][..0] == [];
    assert Merge([s[0]]) == Absorb(Merge([]), s[0]);
    assert Merge(s) == Absorb(Merge([s[0]]), s[1]);
    forall n: nat ensures Covers(s, n) <==> Covers([s[0]], n) {
      if Covers(s, n) {
        assert [s[0]][0].Has(n);
      }
      if Covers([s[0]], n) {
        assert s[0].Has(n);
      }
    }
  }
}
