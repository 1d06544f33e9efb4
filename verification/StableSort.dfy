/** The stable sort that live election and candidate ranking both rest on
    (`sort.SliceStable`), as a function, and what the two callers need of it. */
module StableSort {

  ghost predicate StrictWeakOrder<T(!new)>(less: (T, T) -> bool) {
    && (forall a, b :: less(a, b) ==> !less(b, a))
    && (forall a, b, c :: less(a, c) ==> less(a, b) || less(b, c))
  }

  ghost predicate SortedBy<T>(less: (T, T) -> bool, s: seq<T>) {
    forall i, j :: 0 <= i < j < |s| ==> !less(s[j], s[i])
  }

  /** `x` goes behind every element that does not have to follow it. */
  function Insert<T>(less: (T, T) -> bool, s: seq<T>, x: T): (r: seq<T>)
    ensures |r| == |s| + 1
  {
    if s == [] || !less(x, s[|s| - 1]) then s + [x]
    else Insert(less, s[..|s| - 1], x) + [s[|s| - 1]]
  }

  function Sort<T>(less: (T, T) -> bool, s: seq<T>): (r: seq<T>)
    ensures |r| == |s|
  {
    if s == [] then [] else Insert(less, Sort(less, s[..|s| - 1]), s[|s| - 1])
  }

  lemma {:induction false} InsertPermutes<T>(less: (T, T) -> bool, s: seq<T>, x: T)
    ensures multiset(Insert(less, s, x)) == multiset(s) + multiset{x}
  {
    if s != [] && less(x, s[|s| - 1]) {
      InsertPermutes(less, s[..|s| - 1], x);
      assert s == s[..|s| - 1] + [s[|s| - 1]];
    }
  }

  lemma {:induction false} SortPermutes<T>(less: (T, T) -> bool, s: seq<T>)
    ensures multiset(Sort(less, s)) == multiset(s)
  {
    if s == [] {
    } else {
      SortPermutes(less, s[..|s| - 1]);
      InsertPermutes(less, Sort(less, s[..|s| - 1]), s[|s| - 1]);
      assert s == s[..|s| - 1] + [s[|s| - 1]];
    }
  }

  lemma {:induction false} InsertSorts<T(!new)>(less: (T, T) -> bool, s: seq<T>, x: T)
    requires StrictWeakOrder(less) && SortedBy(less, s)
    ensures SortedBy(less, Insert(less, s, x))
  {
    if s != [] && less(x, s[|s| - 1]) {
      var front := s[..|s| - 1];
      InsertSorts(less, front, x);
      InsertPermutes(less, front, x);
      var r := Insert(less, front, x);
      forall i | 0 <= i < |r| ensures !less(s[|s| - 1], r[i]) {
        assert r[i] in multiset(r);
        assert r[i] == x || r[i] in front;
      }
    }
  }

  lemma {:induction false} SortSorts<T(!new)>(less: (T, T) -> bool, s: seq<T>)
    requires StrictWeakOrder(less)
    ensures SortedBy(less, Sort(less, s))
  {
    if s == [] {
    } else {
      SortSorts(less, s[..|s| - 1]);
      InsertSorts(less, Sort(less, s[..|s| - 1]), s[|s| - 1]);
    }
  }

  /** `k` is the first position holding an element that nothing precedes. */
  ghost predicate IsFirstBest<T>(less: (T, T) -> bool, s: seq<T>, k: int) {
    && 0 <= k < |s|
    && (forall j :: 0 <= j < |s| ==> !less(s[j], s[k]))
    && (forall j :: 0 <= j < k ==> less(s[k], s[j]))
  }

  lemma {:induction false} InsertHead<T(!new)>(less: (T, T) -> bool, s: seq<T>, x: T)
    requires StrictWeakOrder(less) && SortedBy(less, s) && s != []
    ensures Insert(less, s, x)[0] == if less(x, s[0]) then x else s[0]
  {
    if less(x, s[|s| - 1]) {
      if |s| > 1 {
        InsertHead(less, s[..|s| - 1], x);
      }
    } else {
      assert !less(s[|s| - 1], s[0]) || |s| == 1;
    }
  }

  /** Stability as the callers see it: the head of the sorted slice is the
      earliest of the best elements of the unsorted one. */
  lemma {:induction false} HeadIsFirstBest<T(!new)>(less: (T, T) -> bool, s: seq<T>) returns (k: int)
    requires StrictWeakOrder(less) && s != []
    ensures IsFirstBest(less, s, k) && Sort(less, s)[0] == s[k]
  {
    var front, x := s[..|s| - 1], s[|s| - 1];
    if front == [] {
      k := 0;
    } else {
      k := HeadIsFirstBest(less, front);
      SortSorts(less, front);
      InsertHead(less, Sort(less, front), x);
      k := OneMoreElement(less, s, k);
    }
  }

  lemma OneMoreElement<T(!new)>(less: (T, T) -> bool, s: seq<T>, j: int) returns (k: int)
    requires StrictWeakOrder(less) && s != [] && IsFirstBest(less, s[..|s| - 1], j)
    ensures IsFirstBest(less, s, k) && s[k] == if less(s[|s| - 1], s[j]) then s[|s| - 1] else s[j]
  {
    var front := s[..|s| - 1];
    assert forall i :: 0 <= i < |front| ==> s[i] == front[i];
    k := if less(s[|s| - 1], s[j]) then |s| - 1 else j;
  }

  lemma FirstBestIsUnique<T>(less: (T, T) -> bool, s: seq<T>, j: int, k: int)
    requires IsFirstBest(less, s, j) && j != k
    ensures !IsFirstBest(less, s, k)
  {
    if 0 <= k < j {
      assert less(s[j], s[k]);
    } else if j < k < |s| {
      assert !less(s[k], s[j]);
    }
  }
}
