/** Option, and the sequence operations every page is built from: JavaScript's
    `filter`, `reduce` into a sum, and `map` that replaces matching records. */
module Seqs {

  datatype Option<+T> = None | Some(value: T)

  /** `s.filter(p)`: the elements satisfying `p`, in their original order. */
  function Filter<T>(p: T -> bool, s: seq<T>): (r: seq<T>)
    ensures |r| <= |s|
  {
    if |s| == 0 then [] else (if p(s[0]) then [s[0]] else []) + Filter(p, s[1..])
  }

  /** What `filter` keeps: exactly the elements of `s` that satisfy `p`. */
  lemma {:induction false} FilterMembers<T>(p: T -> bool, s: seq<T>)
    ensures forall i :: 0 <= i < |Filter(p, s)| ==> Filter(p, s)[i] in s && p(Filter(p, s)[i])
    ensures forall i :: 0 <= i < |s| && p(s[i]) ==> s[i] in Filter(p, s)
  {
    if |s| > 0 {
      FilterMembers(p, s[1..]);
      var r := Filter(p, s[1..]);
      assert Filter(p, s) == (if p(s[0]) then [s[0]] else []) + r;
      forall i | 0 < i < |s| && p(s[i]) ensures s[i] in Filter(p, s) {
        assert s[i] == s[1..][i - 1];
      }
    }
  }

  /** `s.reduce((sum, x) => sum + f(x), 0)`. */
  function Sum<T>(f: T -> real, s: seq<T>): real
  {
    if |s| == 0 then 0.0 else f(s[0]) + Sum(f, s[1..])
  }

  /** `s.map(x => hit(x) ? g(x) : x)`: the records `hit` selects are replaced, the rest are kept. */
  function Replace<T>(hit: T -> bool, g: T -> T, s: seq<T>): (r: seq<T>)
    ensures |r| == |s|
    ensures forall i :: 0 <= i < |s| && hit(s[i]) ==> r[i] == g(s[i])
    ensures forall i :: 0 <= i < |s| && !hit(s[i]) ==> r[i] == s[i]
  {
    if |s| == 0 then [] else [if hit(s[0]) then g(s[0]) else s[0]] + Replace(hit, g, s[1..])
  }

  /** `a` is `b` with some elements dropped: order is kept. */
  predicate IsSubsequence<T(==)>(a: seq<T>, b: seq<T>)
  {
    if |a| == 0 then true
    else if |b| == 0 then false
    else (a[0] == b[0] && IsSubsequence(a[1..], b[1..])) || IsSubsequence(a, b[1..])
  }

  function Count<T>(p: T -> bool, s: seq<T>): (n: nat)
    ensures n <= |s|
  {
    if |s| == 0 then 0 else (if p(s[0]) then 1 else 0) + Count(p, s[1..])
  }

  lemma {:induction false} FilterLength<T>(p: T -> bool, s: seq<T>)
    ensures |Filter(p, s)| == Count(p, s)
  {
    if |s| > 0 { FilterLength(p, s[1..]); }
  }

  lemma FilterSingleton<T>(p: T -> bool, x: T)
    ensures Filter(p, [x]) == if p(x) then [x] else []
  {
    assert [x][1..] == [];
  }

  /** Two parts of which one is empty can be put in either order. */
  lemma SwapEmpty<T>(a: seq<T>, b: seq<T>, c: seq<T>)
    requires a == [] || b == []
    ensures a + (b + c) == b + (a + c)
  {
  }

  lemma {:induction false} FilterAppend<T>(p: T -> bool, a: seq<T>, b: seq<T>)
    ensures Filter(p, a + b) == Filter(p, a) + Filter(p, b)
  {
    if |a| == 0 {
      assert a + b == b;
    } else {
      var head := if p(a[0]) then [a[0]] else [];
      assert (a + b)[0] == a[0];
      assert (a + b)[1..] == a[1..] + b;
      assert Filter(p, a + b) == head + Filter(p, a[1..] + b);
      FilterAppend(p, a[1..], b);
      assert Filter(p, a) == head + Filter(p, a[1..]);
    }
  }

  lemma {:induction false} SumAppend<T>(f: T -> real, a: seq<T>, b: seq<T>)
    ensures Sum(f, a + b) == Sum(f, a) + Sum(f, b)
  {
    if |a| == 0 {
      assert a + b == b;
    } else {
      assert (a + b)[1..] == a[1..] + b;
      SumAppend(f, a[1..], b);
    }
  }

  /** A filter that keeps everything is the identity. */
  lemma {:induction false} FilterAll<T>(p: T -> bool, s: seq<T>)
    requires forall i :: 0 <= i < |s| ==> p(s[i])
    ensures Filter(p, s) == s
  {
    if |s| > 0 { FilterAll(p, s[1..]); }
  }

  /** A filter that keeps nothing gives the empty sequence. */
  lemma {:induction false} FilterNone<T>(p: T -> bool, s: seq<T>)
    requires forall i :: 0 <= i < |s| ==> !p(s[i])
    ensures Filter(p, s) == []
  {
    if |s| > 0 { FilterNone(p, s[1..]); }
  }

  /** Filtering twice by the same predicate is filtering once. */
  lemma FilterIdempotent<T>(p: T -> bool, s: seq<T>)
    ensures Filter(p, Filter(p, s)) == Filter(p, s)
  {
    FilterMembers(p, s);
    FilterAll(p, Filter(p, s));
  }

  /** Filters with commuting conjuncts: filtering by `p` then `q` is filtering by both. */
  lemma {:induction false} FilterFilter<T>(p: T -> bool, q: T -> bool, pq: T -> bool, s: seq<T>)
    requires forall x :: pq(x) == (p(x) && q(x))
    ensures Filter(q, Filter(p, s)) == Filter(pq, s)
  {
    if |s| > 0 {
      FilterFilter(p, q, pq, s[1..]);
      FilterAppend(q, if p(s[0]) then [s[0]] else [], Filter(p, s[1..]));
    }
  }

  /** When exactly the element at `i` fails `p`, filtering removes just that element. */
  lemma {:induction false} FilterRemovesOne<T>(p: T -> bool, s: seq<T>, i: nat)
    requires i < |s| && !p(s[i])
    requires forall j :: 0 <= j < |s| && j != i ==> p(s[j])
    ensures Filter(p, s) == s[..i] + s[i + 1..]
  {
    if i == 0 {
      FilterAll(p, s[1..]);
    } else {
      FilterRemovesOne(p, s[1..], i - 1);
      assert s[1..][..i - 1] == s[1..i];
      assert s[1..][i..] == s[i + 1..];
      assert [s[0]] + s[1..i] == s[..i];
    }
  }

  lemma {:induction false} SubsequenceRefl<T>(s: seq<T>)
    ensures IsSubsequence(s, s)
  {
    if |s| > 0 { SubsequenceRefl(s[1..]); }
  }

  /** A filter's result is a subsequence of its input: relative order is kept. */
  lemma {:induction false} FilterSubsequence<T>(p: T -> bool, s: seq<T>)
    ensures IsSubsequence(Filter(p, s), s)
  {
    if |s| > 0 {
      FilterSubsequence(p, s[1..]);
      var r := Filter(p, s);
      if p(s[0]) {
        assert r == [s[0]] + Filter(p, s[1..]);
        assert r[1..] == Filter(p, s[1..]);
        assert r[0] == s[0];
      } else {
        assert r == Filter(p, s[1..]);
      }
    }
  }

  /** A subsequence has no more occurrences of any value than the original. */
  lemma {:induction false} SubsequenceMultiset<T>(a: seq<T>, b: seq<T>)
    requires IsSubsequence(a, b)
    ensures multiset(a) <= multiset(b)
  {
    if |a| > 0 {
      assert b == [b[0]] + b[1..];
      if a[0] == b[0] && IsSubsequence(a[1..], b[1..]) {
        SubsequenceMultiset(a[1..], b[1..]);
        assert a == [a[0]] + a[1..];
      } else {
        SubsequenceMultiset(a, b[1..]);
      }
    }
  }

  /** The filtered sum of a non-empty sequence: the first element's share plus the rest. */
  lemma FilterSumUnfold<T>(f: T -> real, p: T -> bool, s: seq<T>)
    requires |s| > 0
    ensures Sum(f, Filter(p, s)) == (if p(s[0]) then f(s[0]) else 0.0) + Sum(f, Filter(p, s[1..]))
  {
    var rest := Filter(p, s[1..]);
    if p(s[0]) {
      assert Filter(p, s) == [s[0]] + rest;
      assert ([s[0]] + rest)[1..] == rest;
    } else {
      assert Filter(p, s) == rest;
    }
  }

  /** A sum of non-negative terms is non-negative. */
  lemma {:induction false} SumNonNegative<T>(f: T -> real, s: seq<T>)
    requires forall i :: 0 <= i < |s| ==> f(s[i]) >= 0.0
    ensures Sum(f, s) >= 0.0
  {
    if |s| > 0 { SumNonNegative(f, s[1..]); }
  }

  /** The terms of a filtered sum are a part of the terms of the full sum. */
  lemma {:induction false} SumFilterLe<T>(f: T -> real, p: T -> bool, s: seq<T>)
    requires forall i :: 0 <= i < |s| ==> f(s[i]) >= 0.0
    ensures Sum(f, Filter(p, s)) <= Sum(f, s)
  {
    if |s| > 0 {
      SumFilterLe(f, p, s[1..]);
      SumAppend(f, if p(s[0]) then [s[0]] else [], Filter(p, s[1..]));
    }
  }

  /** The two halves of a partition add up to the whole. */
  lemma {:induction false} SumSplit<T>(f: T -> real, p: T -> bool, q: T -> bool, s: seq<T>)
    requires forall x :: q(x) == !p(x)
    ensures Sum(f, Filter(p, s)) + Sum(f, Filter(q, s)) == Sum(f, s)
  {
    if |s| > 0 {
      SumSplit(f, p, q, s[1..]);
      SumAppend(f, if p(s[0]) then [s[0]] else [], Filter(p, s[1..]));
      SumAppend(f, if q(s[0]) then [s[0]] else [], Filter(q, s[1..]));
    }
  }

  /** `s.map(f)`. */
  function Map<A, B>(f: A -> B, s: seq<A>): (r: seq<B>)
    ensures |r| == |s|
    ensures forall i :: 0 <= i < |s| ==> r[i] == f(s[i])
  {
    if |s| == 0 then [] else [f(s[0])] + Map(f, s[1..])
  }

  /** Mapping and then filtering on the mapped value is filtering first and mapping after. */
  lemma {:induction false} FilterMap<A, B>(f: A -> B, q: B -> bool, qf: A -> bool, s: seq<A>)
    requires forall x :: qf(x) == q(f(x))
    ensures Filter(q, Map(f, s)) == Map(f, Filter(qf, s))
  {
    if |s| > 0 {
      FilterMap(f, q, qf, s[1..]);
      assert Map(f, s)[1..] == Map(f, s[1..]);
      var rest := Filter(qf, s[1..]);
      if qf(s[0]) {
        assert Filter(qf, s) == [s[0]] + rest;
        assert Map(f, [s[0]] + rest) == [f(s[0])] + Map(f, rest) by {
          assert ([s[0]] + rest)[1..] == rest;
        }
      }
    }
  }

  /** Counting by a disjoint union is adding the two counts. */
  lemma {:induction false} CountUnion<T>(p: T -> bool, q: T -> bool, pq: T -> bool, s: seq<T>)
    requires forall x :: pq(x) == (p(x) || q(x))
    requires forall x :: !(p(x) && q(x))
    ensures Count(pq, s) == Count(p, s) + Count(q, s)
  {
    if |s| > 0 { CountUnion(p, q, pq, s[1..]); }
  }

  /** A predicate every element satisfies counts every element. */
  lemma {:induction false} CountAll<T>(p: T -> bool, s: seq<T>)
    requires forall i :: 0 <= i < |s| ==> p(s[i])
    ensures Count(p, s) == |s|
  {
    if |s| > 0 { CountAll(p, s[1..]); }
  }

  /** No two elements of `s` share a key. */
  predicate DistinctBy<T, K(==)>(key: T -> K, s: seq<T>)
  {
    forall i, j :: 0 <= i < j < |s| ==> key(s[i]) != key(s[j])
  }

  /** Filtering keeps keys distinct. */
  lemma {:induction false} FilterDistinctBy<T, K>(key: T -> K, p: T -> bool, s: seq<T>)
    requires DistinctBy(key, s)
    ensures DistinctBy(key, Filter(p, s))
  {
    if |s| > 0 {
      var rest := s[1..];
      assert DistinctBy(key, rest) by {
        forall i, j | 0 <= i < j < |rest| ensures key(rest[i]) != key(rest[j]) {
          assert rest[i] == s[i + 1] && rest[j] == s[j + 1];
        }
      }
      FilterDistinctBy(key, p, rest);
      FilterMembers(p, rest);
      var kept := Filter(p, rest);
      if p(s[0]) {
        var r := Filter(p, s);
        assert r == [s[0]] + kept;
        forall i, j | 0 <= i < j < |r| ensures key(r[i]) != key(r[j]) {
          if i == 0 {
            assert r[j] == kept[j - 1] && kept[j - 1] in rest;
            var m :| 0 <= m < |rest| && rest[m] == r[j];
            assert s[m + 1] == r[j];
          } else {
            assert r[i] == kept[i - 1] && r[j] == kept[j - 1];
          }
        }
      } else {
        assert Filter(p, s) == kept;
      }
    }
  }
}
