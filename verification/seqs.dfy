/** Order-preserving filters and counts over sequences.
    Every list page and report of the portal is `array.filter(pred)` or
    `array.filter(pred).length`; this module gives that operation one
    definition and the laws the pages rely on. */
module Seqs {

  /** `a` is obtained from `b` by deleting elements; what is left keeps its order. */
  predicate IsSubsequence<T(==)>(a: seq<T>, b: seq<T>)
    decreases |b|
  {
    if |a| == 0 then true
    else if |b| == 0 then false
    else if a[0] == b[0] then IsSubsequence(a[1..], b[1..])
    else IsSubsequence(a, b[1..])
  }

  /** `Array.prototype.filter`: the elements of `s` satisfying `p`, in order. */
  function Filter<T>(p: T -> bool, s: seq<T>): (r: seq<T>)
    ensures |r| <= |s|
    ensures forall i :: 0 <= i < |r| ==> p(r[i])
    ensures forall i :: 0 <= i < |r| ==> r[i] in s
    ensures forall i :: 0 <= i < |s| && p(s[i]) ==> s[i] in r
    decreases |s|
  {
    if |s| == 0 then []
    else (if p(s[0]) then [s[0]] else []) + Filter(p, s[1..])
  }

  /** `array.filter(p).length`. */
  function Count<T>(p: T -> bool, s: seq<T>): nat
  {
    |Filter(p, s)|
  }

  /** The filter result is an order-preserving subsequence of its input. */
  lemma {:induction false} FilterIsSubsequence<T>(p: T -> bool, s: seq<T>)
    ensures IsSubsequence(Filter(p, s), s)
    decreases |s|
  {
    if |s| > 0 {
      FilterIsSubsequence(p, s[1..]);
      var r := Filter(p, s[1..]);
      if p(s[0]) {
        assert Filter(p, s) == [s[0]] + r;
        assert ([s[0]] + r)[1..] == r;
      } else {
        assert Filter(p, s) == r;
        if |r| > 0 {
          assert p(r[0]);
          assert r[0] != s[0];
        }
      }
    }
  }

  /** Filtering distributes over concatenation. */
  lemma {:induction false} FilterAppend<T>(p: T -> bool, a: seq<T>, b: seq<T>)
    ensures Filter(p, a + b) == Filter(p, a) + Filter(p, b)
    decreases |a|
  {
    if |a| > 0 {
      assert (a + b)[0] == a[0];
      assert (a + b)[1..] == a[1..] + b;
      FilterAppend(p, a[1..], b);
    } else {
      assert a + b == b;
    }
  }

  /** A filter that every element passes keeps the whole sequence. */
  lemma {:induction false} FilterKeepsAll<T>(p: T -> bool, s: seq<T>)
    requires forall i :: 0 <= i < |s| ==> p(s[i])
    ensures Filter(p, s) == s
    decreases |s|
  {
    if |s| > 0 {
      FilterKeepsAll(p, s[1..]);
      assert [s[0]] + s[1..] == s;
    }
  }

  /** A filter that no element passes keeps nothing. */
  lemma {:induction false} FilterDropsAll<T>(p: T -> bool, s: seq<T>)
    requires forall i :: 0 <= i < |s| ==> !p(s[i])
    ensures Filter(p, s) == []
    decreases |s|
  {
    if |s| > 0 {
      FilterDropsAll(p, s[1..]);
    }
  }

  /** Filtering twice with the same predicate changes nothing. */
  lemma FilterIdempotent<T>(p: T -> bool, s: seq<T>)
    ensures Filter(p, Filter(p, s)) == Filter(p, s)
  {
    FilterKeepsAll(p, Filter(p, s));
  }

  /** A weaker predicate keeps at least as much: if `p` implies `q`, the `p`-filter
      is contained in the `q`-filter, element by element and in number. */
  lemma {:induction false} FilterMonotone<T>(p: T -> bool, q: T -> bool, s: seq<T>)
    requires forall x :: p(x) ==> q(x)
    ensures Count(p, s) <= Count(q, s)
    ensures IsSubsequence(Filter(p, s), Filter(q, s))
    decreases |s|
  {
    if |s| > 0 {
      FilterMonotone(p, q, s[1..]);
      var rp := Filter(p, s[1..]);
      var rq := Filter(q, s[1..]);
      if p(s[0]) {
        assert Filter(p, s) == [s[0]] + rp;
        assert Filter(q, s) == [s[0]] + rq;
        assert ([s[0]] + rp)[1..] == rp;
        assert ([s[0]] + rq)[1..] == rq;
      } else if q(s[0]) {
        assert Filter(p, s) == rp;
        assert Filter(q, s) == [s[0]] + rq;
        assert ([s[0]] + rq)[1..] == rq;
        var b := [s[0]] + rq;
        if |rp| > 0 {
          assert p(rp[0]);
          assert rp[0] != b[0];
          assert IsSubsequence(rp, b[1..]);
        }
        assert IsSubsequence(rp, b);
      } else {
        assert Filter(p, s) == rp;
        assert Filter(q, s) == rq;
      }
    }
  }

  /** Two predicates that no element satisfies together split the count of
      their disjunction `r`. */
  lemma {:induction false} CountDisjointUnion<T>(p: T -> bool, q: T -> bool, r: T -> bool, s: seq<T>)
    requires forall x :: r(x) <==> p(x) || q(x)
    requires forall x :: !(p(x) && q(x))
    ensures Count(r, s) == Count(p, s) + Count(q, s)
    decreases |s|
  {
    if |s| > 0 {
      CountDisjointUnion(p, q, r, s[1..]);
    }
  }

  /** A predicate and its negation `np` partition the sequence. */
  lemma {:induction false} CountComplement<T>(p: T -> bool, np: T -> bool, s: seq<T>)
    requires forall x :: np(x) <==> !p(x)
    ensures Count(p, s) + Count(np, s) == |s|
    decreases |s|
  {
    if |s| > 0 {
      CountComplement(p, np, s[1..]);
    }
  }

  /** Counting over a sequence with a first element `x`: `x` adds one when it passes. */
  lemma CountCons<T>(p: T -> bool, x: T, s: seq<T>)
    ensures Count(p, [x] + s) == (if p(x) then 1 else 0) + Count(p, s)
  {
    assert ([x] + s)[1..] == s;
  }

  /** How many times `x` occurs in `s`. */
  function Occurrences<T(==)>(s: seq<T>, x: T): (n: nat)
    ensures n <= |s|
    ensures x !in s ==> n == 0
  {
    if |s| == 0 then 0 else (if s[0] == x then 1 else 0) + Occurrences(s[1..], x)
  }

  /** In a sequence without repeats, a member occurs exactly once. */
  lemma {:induction false} OccurrencesOfDistinct<T>(s: seq<T>, x: T)
    requires forall i, j :: 0 <= i < j < |s| ==> s[i] != s[j]
    requires x in s
    ensures Occurrences(s, x) == 1
  {
    if s[0] == x {
      assert x !in s[1..] by {
        forall k | 0 <= k < |s[1..]| ensures s[1..][k] != x {
          assert s[1..][k] == s[k + 1];
        }
      }
    } else {
      OccurrencesOfDistinct(s[1..], x);
    }
  }

  /** Occurrences add up over concatenation. */
  lemma {:induction false} OccurrencesAppend<T>(a: seq<T>, b: seq<T>, x: T)
    ensures Occurrences(a + b, x) == Occurrences(a, x) + Occurrences(b, x)
    decreases |a|
  {
    if |a| > 0 {
      assert (a + b)[0] == a[0];
      assert (a + b)[1..] == a[1..] + b;
      OccurrencesAppend(a[1..], b, x);
    } else {
      assert a + b == b;
    }
  }

  /** The filter keeps every copy of an element that passes and no copy of
      one that fails: it preserves multiplicities, not just membership. */
  lemma {:induction false} FilterOccurrences<T>(p: T -> bool, s: seq<T>, x: T)
    ensures Occurrences(Filter(p, s), x) == if p(x) then Occurrences(s, x) else 0
    decreases |s|
  {
    if |s| > 0 {
      FilterOccurrences(p, s[1..], x);
      var head := if p(s[0]) then [s[0]] else [];
      assert Filter(p, s) == head + Filter(p, s[1..]);
      OccurrencesAppend(head, Filter(p, s[1..]), x);
      if p(s[0]) {
        assert head[1..] == [];
      }
    }
  }

  /** `FilterOccurrences` for every element at once. */
  lemma FilterOccurrencesAll<T>(p: T -> bool, s: seq<T>)
    ensures forall x :: Occurrences(Filter(p, s), x) == if p(x) then Occurrences(s, x) else 0
  {
    forall x ensures Occurrences(Filter(p, s), x) == if p(x) then Occurrences(s, x) else 0 {
      FilterOccurrences(p, s, x);
    }
  }

  /** Filtering a filter is filtering by both predicates at once (`pq`). */
  lemma {:induction false} FilterFilter<T>(p: T -> bool, q: T -> bool, pq: T -> bool, s: seq<T>)
    requires forall x :: pq(x) <==> p(x) && q(x)
    ensures Filter(q, Filter(p, s)) == Filter(pq, s)
    decreases |s|
  {
    if |s| > 0 {
      FilterFilter(p, q, pq, s[1..]);
      var rest := Filter(p, s[1..]);
      if p(s[0]) {
        assert Filter(p, s) == [s[0]] + rest;
        assert ([s[0]] + rest)[1..] == rest;
        assert Filter(q, [s[0]] + rest) == (if q(s[0]) then [s[0]] else []) + Filter(q, rest);
      } else {
        assert Filter(p, s) == rest;
      }
      assert Filter(pq, s) == (if pq(s[0]) then [s[0]] else []) + Filter(pq, s[1..]);
    }
  }

  /** The first `n` elements, as `slice(0, n)` takes them. */
  function Take<T>(s: seq<T>, n: nat): (r: seq<T>)
    ensures |r| == if n < |s| then n else |s|
    ensures forall i :: 0 <= i < |r| ==> r[i] == s[i]
  {
    if n < |s| then s[..n] else s
  }
}
