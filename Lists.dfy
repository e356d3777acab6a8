/**
 * The JavaScript array methods the pages rely on, stated on sequences:
 * `filter` (Filter) and `find` (FindFirst), with the facts the pages need
 * about them: order is kept, and exactly the elements satisfying the
 * predicate survive, each as often as it occurred.
 */
module Lists {
  import opened Wrappers

  /** `s.filter(p)`: the elements of s that satisfy p, in their original order. */
  function Filter<T>(p: T -> bool, s: seq<T>): (r: seq<T>)
    ensures |r| <= |s|
    ensures forall x :: x in r ==> x in s && p(x)
  {
    if s == [] then []
    else if p(s[0]) then [s[0]] + Filter(p, s[1..])
    else Filter(p, s[1..])
  }

  /** r is obtained from s by deleting some elements and keeping the order of the rest. */
  predicate IsSubsequence<T(==)>(r: seq<T>, s: seq<T>)
    decreases |s|
  {
    if s == [] then r == []
    else (r != [] && r[0] == s[0] && IsSubsequence(r[1..], s[1..])) || IsSubsequence(r, s[1..])
  }

  lemma {:induction false} FilterIsSubsequence<T>(p: T -> bool, s: seq<T>)
    ensures IsSubsequence(Filter(p, s), s)
  {
    if s != [] {
      FilterIsSubsequence(p, s[1..]);
    }
  }

  /** Every element satisfying p survives, as often as it occurs in s; no other element does. */
  lemma {:induction false} FilterCounts<T>(p: T -> bool, s: seq<T>)
    ensures forall x :: multiset(Filter(p, s))[x] == if p(x) then multiset(s)[x] else 0
  {
    if s != [] {
      FilterCounts(p, s[1..]);
      assert s == [s[0]] + s[1..];
    }
  }

  lemma FilterMembership<T>(p: T -> bool, s: seq<T>, x: T)
    ensures x in Filter(p, s) <==> x in s && p(x)
  {
    FilterCounts(p, s);
    assert x in Filter(p, s) <==> multiset(Filter(p, s))[x] > 0;
  }

  lemma FilterSubMultiset<T>(p: T -> bool, s: seq<T>)
    ensures multiset(Filter(p, s)) <= multiset(s)
  {
    FilterCounts(p, s);
  }

  /** Predicates that agree on the elements of s filter s alike. */
  lemma {:induction false} FilterCongruent<T>(p: T -> bool, q: T -> bool, s: seq<T>)
    requires forall x :: x in s ==> p(x) == q(x)
    ensures Filter(p, s) == Filter(q, s)
  {
    if s != [] {
      FilterCongruent(p, q, s[1..]);
    }
  }

  /** A list in which every element satisfies p is its own filter. */
  lemma {:induction false} FilterKeepsAll<T>(p: T -> bool, s: seq<T>)
    requires forall x :: x in s ==> p(x)
    ensures Filter(p, s) == s
  {
    if s != [] {
      FilterKeepsAll(p, s[1..]);
    }
  }

  /** A list none of whose elements satisfies p filters to the empty list. */
  lemma {:induction false} FilterDropsAll<T>(p: T -> bool, s: seq<T>)
    ensures (forall x :: x in s ==> !p(x)) ==> Filter(p, s) == []
  {
    if s != [] {
      FilterDropsAll(p, s[1..]);
    }
  }

  lemma {:induction false} FilterDistributes<T>(p: T -> bool, s: seq<T>, t: seq<T>)
    ensures Filter(p, s + t) == Filter(p, s) + Filter(p, t)
  {
    if s != [] {
      assert (s + t)[0] == s[0] && (s + t)[1..] == s[1..] + t;
      FilterDistributes(p, s[1..], t);
      if p(s[0]) {
        assert Filter(p, s + t) == [s[0]] + (Filter(p, s[1..]) + Filter(p, t));
      }
    } else {
      assert s + t == t;
    }
  }

  /** Filtering twice by the same predicate is filtering once. */
  lemma FilterIdempotent<T>(p: T -> bool, s: seq<T>)
    ensures Filter(p, Filter(p, s)) == Filter(p, s)
  {
    FilterKeepsAll(p, Filter(p, s));
  }

  /** `s.find(p)`: the first element of s satisfying p, or undefined when there is none. */
  function FindFirst<T>(p: T -> bool, s: seq<T>): (r: Option<T>)
    ensures r.None? <==> forall k :: 0 <= k < |s| ==> !p(s[k])
    ensures r.Some? ==> exists i :: 0 <= i < |s| && s[i] == r.value && p(s[i]) &&
                                    forall k :: 0 <= k < i ==> !p(s[k])
  {
    if s == [] then None
    else if p(s[0]) then Some(s[0])
    else
      var r := FindFirst(p, s[1..]);
      assert r.Some? ==> exists i :: 1 <= i < |s| && s[i] == r.value && p(s[i]) &&
                                     forall k :: 0 <= k < i ==> !p(s[k]) by {
        if r.Some? {
          var i :| 0 <= i < |s[1..]| && s[1..][i] == r.value && p(s[1..][i]) &&
                   forall k :: 0 <= k < i ==> !p(s[1..][k]);
          assert forall k :: 1 <= k < i + 1 ==> !p(s[k]) by {
            forall k | 1 <= k < i + 1 ensures !p(s[k]) { assert s[k] == s[1..][k - 1]; }
          }
        }
      }
      r
  }
}
