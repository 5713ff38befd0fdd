/** What a database query does to a table: select the matching rows, order them. */
module Sequences {
  function Filter<T(!new)>(p: T -> bool, s: seq<T>): (r: seq<T>)
    ensures forall x :: x in r <==> x in s && p(x)
    ensures |r| <= |s|
  {
    if s == [] then []
    else
      var rest := Filter(p, s[..|s| - 1]);
      if p(s[|s| - 1]) then rest + [s[|s| - 1]] else rest
  }

  lemma FilterAppend<T(!new)>(p: T -> bool, s: seq<T>, x: T)
    ensures Filter(p, s + [x]) == if p(x) then Filter(p, s) + [x] else Filter(p, s)
  {
    assert (s + [x])[..|s|] == s;
  }

  /** What is selected from a prefix is a prefix of what is selected from the whole. */
  lemma {:induction false} FilterPrefix<T(!new)>(p: T -> bool, s: seq<T>, n: nat)
    requires n <= |s|
    ensures Filter(p, s[..n]) <= Filter(p, s)
    ensures n < |s| && p(s[n]) ==> |Filter(p, s[..n])| < |Filter(p, s)| && Filter(p, s)[|Filter(p, s[..n])|] == s[n]
    decreases |s|
  {
    if n == |s| {
      assert s[..n] == s;
    } else {
      var front := s[..|s| - 1];
      if n < |s| - 1 {
        FilterPrefix(p, front, n);
        assert front[..n] == s[..n];
      }
    }
  }

  predicate NoDup<T(==)>(s: seq<T>) {
    forall i, j :: 0 <= i < j < |s| ==> s[i] != s[j]
  }

  function Elems<T>(s: seq<T>): set<T> {
    set x | x in s
  }

  lemma {:induction false} ElemsSize<T>(s: seq<T>)
    ensures |Elems(s)| <= |s|
    ensures |Elems(s)| == |s| <==> NoDup(s)
  {
    if s != [] {
      var front, last := s[..|s| - 1], s[|s| - 1];
      ElemsSize(front);
      assert Elems(s) == Elems(front) + {last};
      if NoDup(s) {
        assert last !in front;
      } else if NoDup(front) {
        assert last in front;
      }
    }
  }

  lemma FilterNoDup<T(!new)>(p: T -> bool, s: seq<T>)
    requires NoDup(s)
    ensures NoDup(Filter(p, s))
  {
    if s != [] {
      FilterNoDup(p, s[..|s| - 1]);
    }
  }

  function InsertBy<T>(leq: (T, T) -> bool, s: seq<T>, x: T): seq<T> {
    if s == [] || leq(s[|s| - 1], x) then s + [x]
    else InsertBy(leq, s[..|s| - 1], x) + [s[|s| - 1]]
  }

  /** Stable ascending order. */
  function SortBy<T>(leq: (T, T) -> bool, s: seq<T>): seq<T> {
    if s == [] then [] else InsertBy(leq, SortBy(leq, s[..|s| - 1]), s[|s| - 1])
  }

  ghost predicate Sorted<T>(leq: (T, T) -> bool, s: seq<T>) {
    forall i, j :: 0 <= i < j < |s| ==> leq(s[i], s[j])
  }

  ghost predicate TotalPreorder<T(!new)>(leq: (T, T) -> bool) {
    && (forall x, y :: leq(x, y) || leq(y, x))
    && (forall x, y, z :: leq(x, y) && leq(y, z) ==> leq(x, z))
  }

  lemma {:induction false} InsertPermutes<T(!new)>(leq: (T, T) -> bool, s: seq<T>, x: T)
    ensures |InsertBy(leq, s, x)| == |s| + 1
    ensures forall y :: y in InsertBy(leq, s, x) <==> y == x || y in s
    ensures multiset(InsertBy(leq, s, x)) == multiset(s) + multiset{x}
  {
    if s != [] && !leq(s[|s| - 1], x) {
      InsertPermutes(leq, s[..|s| - 1], x);
      assert s == s[..|s| - 1] + [s[|s| - 1]];
    }
  }

  lemma {:induction false} SortPermutes<T(!new)>(leq: (T, T) -> bool, s: seq<T>)
    ensures |SortBy(leq, s)| == |s|
    ensures forall x :: x in SortBy(leq, s) <==> x in s
    ensures multiset(SortBy(leq, s)) == multiset(s)
  {
    if s != [] {
      SortPermutes(leq, s[..|s| - 1]);
      InsertPermutes(leq, SortBy(leq, s[..|s| - 1]), s[|s| - 1]);
      assert s == s[..|s| - 1] + [s[|s| - 1]];
    }
  }

  lemma SortNoDup<T(!new)>(leq: (T, T) -> bool, s: seq<T>)
    requires NoDup(s)
    ensures NoDup(SortBy(leq, s))
  {
    SortPermutes(leq, s);
    ElemsSize(s);
    ElemsSize(SortBy(leq, s));
    assert Elems(s) == Elems(SortBy(leq, s));
  }

  lemma {:induction false} InsertSorts<T(!new)>(leq: (T, T) -> bool, s: seq<T>, x: T)
    requires TotalPreorder(leq) && Sorted(leq, s)
    ensures Sorted(leq, InsertBy(leq, s, x))
  {
    var t := InsertBy(leq, s, x);
    if s == [] {
    } else if leq(s[|s| - 1], x) {
      forall i | 0 <= i < |s| ensures leq(t[i], x) {
        assert i < |s| - 1 ==> leq(s[i], s[|s| - 1]);
      }
    } else {
      var front, last := s[..|s| - 1], s[|s| - 1];
      InsertSorts(leq, front, x);
      InsertPermutes(leq, front, x);
      var r := InsertBy(leq, front, x);
      forall i | 0 <= i < |r| ensures leq(r[i], last) {
        assert r[i] in r;
        if r[i] != x {
          var j :| 0 <= j < |front| && front[j] == r[i];
          assert leq(s[j], s[|s| - 1]);
        }
      }
    }
  }

  lemma {:induction false} SortSorts<T(!new)>(leq: (T, T) -> bool, s: seq<T>)
    requires TotalPreorder(leq)
    ensures Sorted(leq, SortBy(leq, s))
  {
    if s != [] {
      SortSorts(leq, s[..|s| - 1]);
      InsertSorts(leq, SortBy(leq, s[..|s| - 1]), s[|s| - 1]);
    }
  }

  lemma InsertBeforeLast<T(!new)>(leq: (T, T) -> bool, p: T -> bool, front: seq<T>, last: T, x: T)
    requires !leq(last, x) && (p(x) ==> !p(last))
    requires Filter(p, InsertBy(leq, front, x)) == Filter(p, front) + if p(x) then [x] else []
    ensures Filter(p, InsertBy(leq, front + [last], x)) == Filter(p, front + [last]) + if p(x) then [x] else []
  {
    assert (front + [last])[..|front|] == front;
    FilterAppend(p, InsertBy(leq, front, x), last);
    FilterAppend(p, front, last);
  }

  lemma {:induction false} InsertIsStable<T(!new)>(leq: (T, T) -> bool, p: T -> bool, s: seq<T>, x: T)
    requires p(x) ==> forall i :: 0 <= i < |s| && p(s[i]) ==> leq(s[i], x)
    ensures Filter(p, InsertBy(leq, s, x)) == Filter(p, s) + if p(x) then [x] else []
  {
    if s == [] || leq(s[|s| - 1], x) {
      FilterAppend(p, s, x);
    } else {
      var front, last := s[..|s| - 1], s[|s| - 1];
      InsertIsStable(leq, p, front, x);
      InsertBeforeLast(leq, p, front, last, x);
      assert s == front + [last];
    }
  }

  /** Sorting does not disturb a selection that already stands in order. */
  lemma {:induction false} SortIsStable<T(!new)>(leq: (T, T) -> bool, p: T -> bool, s: seq<T>)
    requires forall i, j :: 0 <= i < j < |s| && p(s[i]) && p(s[j]) ==> leq(s[i], s[j])
    ensures Filter(p, SortBy(leq, s)) == Filter(p, s)
  {
    if s != [] {
      var front, last := s[..|s| - 1], s[|s| - 1];
      var sorted := SortBy(leq, front);
      SortIsStable(leq, p, front);
      SortPermutes(leq, front);
      forall i | 0 <= i < |sorted| && p(sorted[i]) && p(last) ensures leq(sorted[i], last) {
        assert sorted[i] in front;
        var j :| 0 <= j < |front| && front[j] == sorted[i];
        assert s[j] == sorted[i];
      }
      InsertIsStable(leq, p, sorted, last);
    }
  }

  lemma AppendInOrder<T>(leq: (T, T) -> bool, front: seq<T>, last: T)
    requires front == [] || leq(front[|front| - 1], last)
    ensures InsertBy(leq, front, last) == front + [last]
  {
  }

  lemma {:induction false} SortOfSorted<T>(leq: (T, T) -> bool, s: seq<T>)
    requires Sorted(leq, s)
    ensures SortBy(leq, s) == s
  {
    if s != [] {
      var front, last := s[..|s| - 1], s[|s| - 1];
      SortOfSorted(leq, front);
      assert front != [] ==> leq(s[|s| - 2], s[|s| - 1]);
      AppendInOrder(leq, front, last);
      assert s == front + [last];
    }
  }

  /** Replay: the state after a history. */
  function FoldAll<S, E>(fold: (S, E) -> S, init: S, es: seq<E>): S {
    if es == [] then init else fold(FoldAll(fold, init, es[..|es| - 1]), es[|es| - 1])
  }

  lemma FoldAppend<S, E>(fold: (S, E) -> S, init: S, es: seq<E>, e: E)
    ensures FoldAll(fold, init, es + [e]) == fold(FoldAll(fold, init, es), e)
  {
    assert (es + [e])[..|es|] == es;
  }
}
