/**
 * `Array.prototype.filter` and the facts about it that the screens rely on:
 * the result keeps the order of its input, keeps exactly the elements that
 * pass, and `filter(...).length` counts them.
 */
module Lists {

  function Filter<T(==)>(p: T -> bool, s: seq<T>): (r: seq<T>)
    ensures |r| <= |s|
    ensures forall i :: 0 <= i < |r| ==> r[i] in s && p(r[i])
    ensures forall i :: 0 <= i < |s| && p(s[i]) ==> s[i] in r
  {
    if s == [] then [] else (if p(s[0]) then [s[0]] else []) + Filter(p, s[1..])
  }

  /** `a` is `b` with some elements left out, the rest in their original order. */
  predicate IsSubsequence<T(==)>(a: seq<T>, b: seq<T>)
    decreases |b|
  {
    if a == [] then true
    else if b == [] then false
    else (a[0] == b[0] && IsSubsequence(a[1..], b[1..])) || IsSubsequence(a, b[1..])
  }

  lemma {:induction false} FilterIsSubsequence<T>(p: T -> bool, s: seq<T>)
    ensures IsSubsequence(Filter(p, s), s)
  {
    if s != [] {
      FilterIsSubsequence(p, s[1..]);
      var r := Filter(p, s);
      if p(s[0]) {
        assert r == [s[0]] + Filter(p, s[1..]);
        assert r[0] == s[0] && r[1..] == Filter(p, s[1..]);
      } else {
        assert r == Filter(p, s[1..]);
      }
    }
  }

  /** Two filters in a row are one filter by the conjunction. */
  lemma {:induction false} FilterFusion<T>(p: T -> bool, q: T -> bool, pq: T -> bool, s: seq<T>)
    requires forall x :: pq(x) == (p(x) && q(x))
    ensures Filter(q, Filter(p, s)) == Filter(pq, s)
  {
    if s != [] {
      FilterFusion(p, q, pq, s[1..]);
      var ps := Filter(p, s);
      if p(s[0]) {
        assert ps == [s[0]] + Filter(p, s[1..]);
        assert ps[1..] == Filter(p, s[1..]);
        assert Filter(q, ps) == (if q(s[0]) then [s[0]] else []) + Filter(q, Filter(p, s[1..]));
      } else {
        assert ps == Filter(p, s[1..]);
      }
    }
  }

  /** A filter whose predicate holds everywhere keeps the list as it is. */
  lemma {:induction false} FilterAll<T>(p: T -> bool, s: seq<T>)
    requires forall x :: x in s ==> p(x)
    ensures Filter(p, s) == s
  {
    if s != [] {
      FilterAll(p, s[1..]);
    }
  }

  /** An element is in the filtered list exactly when it is in the list and passes. */
  lemma FilterMembership<T>(p: T -> bool, s: seq<T>)
    ensures forall x :: x in Filter(p, s) <==> x in s && p(x)
  {
    forall x | x in Filter(p, s) ensures x in s && p(x) {
      var i :| 0 <= i < |Filter(p, s)| && Filter(p, s)[i] == x;
    }
  }

  /** A filter whose predicate fails everywhere keeps nothing. */
  lemma FilterNone<T>(p: T -> bool, s: seq<T>)
    requires forall x :: x in s ==> !p(x)
    ensures Filter(p, s) == []
  {
  }

  /** Filters with predicates that agree on the list give the same result. */
  lemma {:induction false} FilterCongruent<T>(p: T -> bool, q: T -> bool, s: seq<T>)
    requires forall x :: x in s ==> p(x) == q(x)
    ensures Filter(p, s) == Filter(q, s)
  {
    if s != [] {
      FilterCongruent(p, q, s[1..]);
    }
  }

  /** A filter applied only when `c` holds is one filter by `!c || q`. */
  lemma FilterWhen<T>(c: bool, q: T -> bool, cq: T -> bool, s: seq<T>)
    requires forall x :: cq(x) == (!c || q(x))
    ensures (if c then Filter(q, s) else s) == Filter(cq, s)
  {
    if c {
      FilterCongruent(q, cq, s);
    } else {
      FilterAll(cq, s);
    }
  }

  /** One more optional stage after a filter by `prev` is one filter by `next`. */
  lemma FilterStage<T>(c: bool, q: T -> bool, prev: T -> bool, next: T -> bool, s: seq<T>)
    requires forall x :: next(x) == (prev(x) && (!c || q(x)))
    ensures (if c then Filter(q, Filter(prev, s)) else Filter(prev, s)) == Filter(next, s)
  {
    var cq := (x: T) => !c || q(x);
    FilterWhen(c, q, cq, Filter(prev, s));
    FilterFusion(prev, cq, next, s);
  }

  lemma {:induction false} FilterAppend<T>(p: T -> bool, s: seq<T>, t: seq<T>)
    ensures Filter(p, s + t) == Filter(p, s) + Filter(p, t)
  {
    if s != [] {
      assert (s + t)[1..] == s[1..] + t;
      FilterAppend(p, s[1..], t);
    } else {
      assert s + t == t;
    }
  }

  /**
   * Splitting the elements that pass `p` by `q`: the two parts count
   * together exactly what `p` alone counts.
   */
  lemma {:induction false} FilterSplitCount<T>(p: T -> bool, q: T -> bool, pq: T -> bool, pnq: T -> bool, s: seq<T>)
    requires forall x :: pq(x) == (p(x) && q(x))
    requires forall x :: pnq(x) == (p(x) && !q(x))
    ensures |Filter(pq, s)| + |Filter(pnq, s)| == |Filter(p, s)|
  {
    if s != [] {
      FilterSplitCount(p, q, pq, pnq, s[1..]);
    }
  }

  /** Every element is kept by exactly one of `p` and its negation. */
  lemma {:induction false} FilterPartition<T>(p: T -> bool, np: T -> bool, s: seq<T>)
    requires forall x :: np(x) == !p(x)
    ensures |Filter(p, s)| + |Filter(np, s)| == |s|
  {
    if s != [] {
      FilterPartition(p, np, s[1..]);
    }
  }

  /** The number of elements of `s` equal to `x`. */
  function Occurrences<T(==)>(s: seq<T>, x: T): (n: nat)
    ensures n <= |s|
    ensures n == 0 <==> x !in s
  {
    if s == [] then 0 else (if s[0] == x then 1 else 0) + Occurrences(s[1..], x)
  }

  /** `filter` keeps every copy of a kept element and no copy of a dropped one. */
  lemma {:induction false} FilterOccurrences<T>(p: T -> bool, s: seq<T>, x: T)
    ensures Occurrences(Filter(p, s), x) == if p(x) then Occurrences(s, x) else 0
  {
    if s != [] {
      FilterOccurrences(p, s[1..], x);
      var head := if p(s[0]) then [s[0]] else [];
      OccurrencesAppend(head, Filter(p, s[1..]), x);
    }
  }

  lemma {:induction false} OccurrencesAppend<T>(a: seq<T>, b: seq<T>, x: T)
    ensures Occurrences(a + b, x) == Occurrences(a, x) + Occurrences(b, x)
  {
    if a == [] {
      assert a + b == b;
    } else {
      assert (a + b)[1..] == a[1..] + b;
      OccurrencesAppend(a[1..], b, x);
    }
  }

  predicate NoDuplicates<T(==)>(s: seq<T>) {
    forall i, j :: 0 <= i < j < |s| ==> s[i] != s[j]
  }

  /** Filtering a list without duplicates leaves it without duplicates. */
  lemma {:induction false} FilterNoDuplicates<T>(p: T -> bool, s: seq<T>)
    requires NoDuplicates(s)
    ensures NoDuplicates(Filter(p, s))
  {
    if s != [] {
      assert NoDuplicates(s[1..]) by {
        forall i, j | 0 <= i < j < |s[1..]|
          ensures s[1..][i] != s[1..][j]
        {
          assert s[1..][i] == s[i + 1] && s[1..][j] == s[j + 1];
        }
      }
      FilterNoDuplicates(p, s[1..]);
      var t := Filter(p, s[1..]);
      assert s[0] !in s[1..];
      assert forall i :: 0 <= i < |t| ==> t[i] in s[1..] && t[i] != s[0];
      assert Filter(p, s) == (if p(s[0]) then [s[0]] else []) + t;
    }
  }
}
