/** Order-preserving filtering of sequences, the shape of every `Array.prototype.filter`
    call in the filter-chips engine, and the subsequence relation it produces. */
module Seqs {

  /** `s` can be obtained from `t` by deleting elements: an order-preserving subsequence. */
  ghost predicate IsSubsequence<T(!new)>(s: seq<T>, t: seq<T>)
    decreases |t|
  {
    if t == [] then s == []
    else (s != [] && s[0] == t[0] && IsSubsequence(s[1..], t[1..])) || IsSubsequence(s, t[1..])
  }

  /** The elements of `s` that satisfy `p`, in their original order. */
  function Filter<T(!new)>(s: seq<T>, p: T -> bool): (r: seq<T>)
    ensures |r| <= |s|
    ensures IsSubsequence(r, s)
    decreases |s|
  {
    if s == [] then []
    else
      var rest := Filter(s[1..], p);
      if p(s[0]) then
        assert ([s[0]] + rest)[1..] == rest;
        [s[0]] + rest
      else
        rest
  }

  /** Every copy of a passing element is kept and no copy of a failing one. */
  lemma {:induction false} FilterCount<T(!new)>(s: seq<T>, p: T -> bool)
    ensures forall x :: multiset(Filter(s, p))[x] == if p(x) then multiset(s)[x] else 0
    decreases |s|
  {
    if s != [] {
      FilterCount(s[1..], p);
      assert s == [s[0]] + s[1..];
    }
  }

  /** An element is kept exactly when it occurs in `s` and passes `p`. */
  lemma FilterMembers<T(!new)>(s: seq<T>, p: T -> bool)
    ensures forall x :: x in Filter(s, p) <==> x in s && p(x)
  {
    FilterCount(s, p);
    forall x ensures x in Filter(s, p) <==> x in s && p(x) {
      assert x in Filter(s, p) <==> multiset(Filter(s, p))[x] > 0;
      assert x in s <==> multiset(s)[x] > 0;
    }
  }

  lemma {:induction false} EmptyIsSubsequence<T(!new)>(t: seq<T>)
    ensures IsSubsequence([], t)
    decreases |t|
  {
    if t != [] {
      EmptyIsSubsequence(t[1..]);
    }
  }

  /** Every list is a subsequence of itself. */
  lemma {:induction false} SelfIsSubsequence<T(!new)>(s: seq<T>)
    ensures IsSubsequence(s, s)
    decreases |s|
  {
    if s != [] {
      SelfIsSubsequence(s[1..]);
    }
  }

  /** Cutting a subsequence short keeps it a subsequence. */
  lemma {:induction false} PrefixOfSubsequence<T(!new)>(s: seq<T>, t: seq<T>, n: nat)
    requires IsSubsequence(s, t)
    requires n <= |s|
    ensures IsSubsequence(s[..n], t)
    decreases |t|
  {
    if t == [] {
    } else if n == 0 {
      EmptyIsSubsequence(t);
    } else if s != [] && s[0] == t[0] && IsSubsequence(s[1..], t[1..]) {
      PrefixOfSubsequence(s[1..], t[1..], n - 1);
      assert s[..n][1..] == s[1..][..n - 1];
    } else {
      PrefixOfSubsequence(s, t[1..], n);
    }
  }

  /** Filtering distributes over concatenation. */
  lemma {:induction false} FilterAppend<T(!new)>(s: seq<T>, t: seq<T>, p: T -> bool)
    ensures Filter(s + t, p) == Filter(s, p) + Filter(t, p)
    decreases |s|
  {
    if s != [] {
      assert (s + t)[0] == s[0] && (s + t)[1..] == s[1..] + t;
      FilterAppend(s[1..], t, p);
      if p(s[0]) {
        assert Filter(s + t, p) == [s[0]] + Filter(s[1..] + t, p);
        assert Filter(s, p) == [s[0]] + Filter(s[1..], p);
        assert [s[0]] + (Filter(s[1..], p) + Filter(t, p)) == ([s[0]] + Filter(s[1..], p)) + Filter(t, p);
      } else {
        assert Filter(s + t, p) == Filter(s[1..] + t, p);
        assert Filter(s, p) == Filter(s[1..], p);
      }
    } else {
      assert s + t == t;
    }
  }

  /** A filter that every element passes changes nothing. */
  lemma {:induction false} FilterKeepsAll<T(!new)>(s: seq<T>, p: T -> bool)
    requires forall x :: x in s ==> p(x)
    ensures Filter(s, p) == s
    decreases |s|
  {
    if s != [] {
      FilterKeepsAll(s[1..], p);
    }
  }

  /** Filters that agree on the elements of `s` select the same elements. */
  lemma {:induction false} FilterExt<T(!new)>(s: seq<T>, p: T -> bool, q: T -> bool)
    requires forall x :: x in s ==> p(x) == q(x)
    ensures Filter(s, p) == Filter(s, q)
    decreases |s|
  {
    if s != [] {
      FilterExt(s[1..], p, q);
    }
  }

  /** Filtering by `p` and then by `q` is filtering once by their conjunction `pq`. */
  lemma {:induction false} FilterCompose<T(!new)>(s: seq<T>, p: T -> bool, q: T -> bool, pq: T -> bool)
    requires forall x :: pq(x) == (p(x) && q(x))
    ensures Filter(Filter(s, p), q) == Filter(s, pq)
    decreases |s|
  {
    if s != [] {
      FilterCompose(s[1..], p, q, pq);
      var rest := Filter(s[1..], p);
      if p(s[0]) {
        assert Filter(s, p) == [s[0]] + rest;
        assert ([s[0]] + rest)[1..] == rest;
        if q(s[0]) {
          assert Filter([s[0]] + rest, q) == [s[0]] + Filter(rest, q);
        } else {
          assert Filter([s[0]] + rest, q) == Filter(rest, q);
        }
      } else {
        assert Filter(s, p) == rest;
      }
    }
  }
}
