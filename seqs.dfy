/** The array operations the components build their queries and edits from:
    `filter`, a `map` that rewrites the selected elements, `slice(0, n)` and
    an in-place `sort` with a comparator. */
module Seqs {

  /** `s.filter(p)`: the elements of `s` that satisfy `p`, in their original
      order (see FilterAppend for the order). */
  function Filter<T(!new)>(s: seq<T>, p: T -> bool): (r: seq<T>)
    ensures |r| <= |s|
    ensures forall x :: x in r <==> x in s && p(x)
  {
    if s == [] then []
    else (if p(s[0]) then [s[0]] else []) + Filter(s[1..], p)
  }

  /** Each value occurs in the filtered sequence as often as in the input if
      it passes the filter, and not at all otherwise. */
  lemma {:induction false} FilterMultiset<T(!new)>(s: seq<T>, p: T -> bool)
    ensures forall x :: multiset(Filter(s, p))[x] == if p(x) then multiset(s)[x] else 0
  {
    if s != [] {
      FilterMultiset(s[1..], p);
      assert s == [s[0]] + s[1..];
    }
  }

  /** Filtering distributes over concatenation, so it keeps the relative
      order of the elements it keeps. */
  lemma {:induction false} FilterAppend<T(!new)>(a: seq<T>, b: seq<T>, p: T -> bool)
    ensures Filter(a + b, p) == Filter(a, p) + Filter(b, p)
  {
    if a == [] {
      assert a + b == b;
    } else {
      assert (a + b)[0] == a[0];
      assert (a + b)[1..] == a[1..] + b;
      FilterAppend(a[1..], b, p);
    }
  }

  /** A filter that every element passes is the identity. */
  lemma {:induction false} FilterKeepsAll<T(!new)>(s: seq<T>, p: T -> bool)
    requires forall x :: x in s ==> p(x)
    ensures Filter(s, p) == s
  {
    if s != [] {
      FilterKeepsAll(s[1..], p);
    }
  }

  /** Two filters in a row are one filter by the conjunction. */
  lemma {:induction false} FilterFilter<T(!new)>(s: seq<T>, p: T -> bool, q: T -> bool, pq: T -> bool)
    requires forall x :: pq(x) == (p(x) && q(x))
    ensures Filter(Filter(s, p), q) == Filter(s, pq)
  {
    if s != [] {
      var head := if p(s[0]) then [s[0]] else [];
      FilterAppend(head, Filter(s[1..], p), q);
      FilterFilter(s[1..], p, q, pq);
    }
  }

  /** Filters by predicates that agree on every element are equal. */
  lemma {:induction false} FilterCongruent<T(!new)>(s: seq<T>, p: T -> bool, q: T -> bool)
    requires forall x :: x in s ==> p(x) == q(x)
    ensures Filter(s, p) == Filter(s, q)
  {
    if s != [] {
      FilterCongruent(s[1..], p, q);
    }
  }

  /** How many elements pass a filter depends only on the multiset of the
      input, so a permutation (a sort) does not change a filtered count. */
  lemma FilterLengthPermutation<T(!new)>(s: seq<T>, t: seq<T>, p: T -> bool)
    requires multiset(s) == multiset(t)
    ensures |Filter(s, p)| == |Filter(t, p)|
  {
    FilterMultiset(s, p);
    FilterMultiset(t, p);
    assert multiset(Filter(s, p)) == multiset(Filter(t, p));
    assert |multiset(Filter(s, p))| == |Filter(s, p)|;
    assert |multiset(Filter(t, p))| == |Filter(t, p)|;
  }

  /** A predicate and its negation split a sequence: together they keep
      every element once. */
  lemma {:induction false} FilterSplit<T(!new)>(s: seq<T>, p: T -> bool, notp: T -> bool)
    requires forall x :: notp(x) == !p(x)
    ensures |Filter(s, p)| + |Filter(s, notp)| == |s|
  {
    if s != [] {
      FilterSplit(s[1..], p, notp);
    }
  }

  /** A filter by a stronger predicate keeps no more elements, and strictly
      fewer when some element passes only the weaker one. */
  lemma {:induction false} FilterLengthMonotone<T(!new)>(s: seq<T>, p: T -> bool, q: T -> bool)
    requires forall x :: q(x) ==> p(x)
    ensures |Filter(s, q)| <= |Filter(s, p)|
    ensures (exists x :: x in s && p(x) && !q(x)) ==> |Filter(s, q)| < |Filter(s, p)|
  {
    if s != [] {
      FilterLengthMonotone(s[1..], p, q);
      if exists x :: x in s && p(x) && !q(x) {
        var x :| x in s && p(x) && !q(x);
        if x != s[0] {
          assert x in s[1..];
        }
      }
    }
  }

  /** `s.map(x => sel(x) ? f(x) : x)`: every selected element rewritten by
      `f`, every other element kept, positions unchanged. */
  function Update<T(!new)>(s: seq<T>, sel: T -> bool, f: T -> T): (r: seq<T>)
    ensures |r| == |s|
    ensures forall i :: 0 <= i < |s| ==> r[i] == if sel(s[i]) then f(s[i]) else s[i]
  {
    if s == [] then []
    else [if sel(s[0]) then f(s[0]) else s[0]] + Update(s[1..], sel, f)
  }

  /** Rewriting distributes over concatenation. */
  lemma UpdateAppend<T(!new)>(a: seq<T>, b: seq<T>, sel: T -> bool, f: T -> T)
    ensures Update(a + b, sel, f) == Update(a, sel, f) + Update(b, sel, f)
  {
  }

  /** Rewriting nothing changes nothing. */
  lemma UpdateNoneSelected<T(!new)>(s: seq<T>, sel: T -> bool, f: T -> T)
    requires forall x :: x in s ==> !sel(x)
    ensures Update(s, sel, f) == s
  {
  }

  /** A second rewrite of the same elements replaces the first, when the
      first keeps them selected and the second ignores what the first wrote. */
  lemma UpdateOverride<T(!new)>(s: seq<T>, sel: T -> bool, f: T -> T, g: T -> T)
    requires forall x :: sel(x) ==> sel(f(x)) && g(f(x)) == g(x)
    ensures Update(Update(s, sel, f), sel, g) == Update(s, sel, g)
  {
  }

  /** A rewrite that never changes whether an element passes `q` commutes with
      filtering by `q`. */
  lemma {:induction false} FilterUpdateCommute<T(!new)>(s: seq<T>, sel: T -> bool, f: T -> T, q: T -> bool)
    requires forall x :: sel(x) ==> q(f(x)) == q(x)
    ensures Filter(Update(s, sel, f), q) == Update(Filter(s, q), sel, f)
  {
    if s != [] {
      var u := Update(s, sel, f);
      var head := [if sel(s[0]) then f(s[0]) else s[0]];
      assert u == head + Update(s[1..], sel, f);
      FilterAppend(head, Update(s[1..], sel, f), q);
      FilterUpdateCommute(s[1..], sel, f, q);
      var kept := if q(s[0]) then [s[0]] else [];
      UpdateAppend(kept, Filter(s[1..], q), sel, f);
    }
  }

  /** A rewrite that moves every selected element out of `q` leaves, under
      `q`, exactly the unselected elements that passed `q` before. */
  lemma {:induction false} FilterUpdateDrops<T(!new)>(s: seq<T>, sel: T -> bool, f: T -> T, q: T -> bool, kept: T -> bool)
    requires forall x :: sel(x) ==> !q(f(x))
    requires forall x :: kept(x) == (q(x) && !sel(x))
    ensures Filter(Update(s, sel, f), q) == Filter(s, kept)
  {
    if s != [] {
      var u := Update(s, sel, f);
      assert u == [u[0]] + Update(s[1..], sel, f);
      assert u[1..] == Update(s[1..], sel, f);
      FilterUpdateDrops(s[1..], sel, f, q, kept);
    }
  }

  /** `s.slice(0, n)`: the first `n` elements, or all of them when there are
      fewer. */
  function Take<T(!new)>(s: seq<T>, n: nat): (r: seq<T>)
    ensures |r| == if n < |s| then n else |s|
    ensures r <= s
  {
    if n < |s| then s[..n] else s
  }

  /** `before` is a total preorder: every pair is comparable and the relation
      is transitive. A comparator `cmp` gives one as `cmp(a, b) <= 0`. */
  ghost predicate TotalPreorder<T(!new)>(before: (T, T) -> bool)
  {
    && (forall x, y :: before(x, y) || before(y, x))
    && (forall x, y, z :: before(x, y) && before(y, z) ==> before(x, z))
  }

  /** Every element may stand before every later one. */
  ghost predicate SortedBy<T(!new)>(s: seq<T>, before: (T, T) -> bool)
  {
    forall i, j :: 0 <= i < j < |s| ==> before(s[i], s[j])
  }

  /** `a.sort(cmp)` in place: afterwards `a` is ordered by `before` and holds
      the same elements as before. */
  method SortBy<T(!new)>(a: array<T>, before: (T, T) -> bool)
    requires TotalPreorder(before)
    modifies a
    ensures SortedBy(a[..], before)
    ensures multiset(a[..]) == multiset(old(a[..]))
  {
    var i := 0;
    while i < a.Length
      invariant 0 <= i <= a.Length
      invariant forall p, q :: 0 <= p < q < i ==> before(a[p], a[q])
      invariant multiset(a[..]) == multiset(old(a[..]))
    {
      InsertLast(a, i, before);
      i := i + 1;
    }
  }

  /** Moves `a[i]` left into the ordered prefix `a[..i]`, so that `a[..i+1]`
      is ordered. */
  method InsertLast<T(!new)>(a: array<T>, i: nat, before: (T, T) -> bool)
    requires TotalPreorder(before)
    requires i < a.Length
    requires forall p, q :: 0 <= p < q < i ==> before(a[p], a[q])
    modifies a
    ensures forall p, q :: 0 <= p < q <= i ==> before(a[p], a[q])
    ensures multiset(a[..]) == multiset(old(a[..]))
  {
    var j := i;
    while j > 0 && !before(a[j - 1], a[j])
      invariant 0 <= j <= i
      invariant forall p, q :: 0 <= p < q <= i && p != j && q != j ==> before(a[p], a[q])
      invariant forall q :: j < q <= i ==> before(a[j], a[q])
      invariant multiset(a[..]) == multiset(old(a[..]))
    {
      a[j - 1], a[j] := a[j], a[j - 1];
      j := j - 1;
    }
    if j > 0 {
      forall p | 0 <= p < j
        ensures before(a[p], a[j])
      {
        if p < j - 1 {
          assert before(a[p], a[j - 1]);
        }
      }
    }
  }
}
