/** The array idioms the components use for immutable list updates:
    `filter`, `includes` followed by a filter or an append (membership
    toggling), and counting with `filter(...).length`. */
module Seqs {

  /** `Array.prototype.filter`: the elements satisfying `p`, in order. */
  function Filter<T>(s: seq<T>, p: T -> bool): (r: seq<T>)
    ensures |r| <= |s|
    ensures forall k :: 0 <= k < |r| ==> r[k] in s && p(r[k])
    ensures forall k :: 0 <= k < |s| && p(s[k]) ==> s[k] in r
  {
    if s == [] then []
    else if p(s[0]) then [s[0]] + Filter(s[1..], p)
    else Filter(s[1..], p)
  }

  /** `sub` is `s` with some elements left out and the rest kept in order. */
  predicate IsSubsequence<T(==)>(sub: seq<T>, s: seq<T>)
  {
    if sub == [] then true
    else if s == [] then false
    else (sub[0] == s[0] && IsSubsequence(sub[1..], s[1..])) || IsSubsequence(sub, s[1..])
  }

  /** Filtering keeps the surviving elements in their original order. */
  lemma {:induction false} FilterIsSubsequence<T>(s: seq<T>, p: T -> bool)
    ensures IsSubsequence(Filter(s, p), s)
  {
    if s != [] {
      FilterIsSubsequence(s[1..], p);
    }
  }

  /** Filtering with a predicate every element satisfies changes nothing. */
  lemma {:induction false} FilterAll<T>(s: seq<T>, p: T -> bool)
    requires forall k :: 0 <= k < |s| ==> p(s[k])
    ensures Filter(s, p) == s
  {
    if s != [] {
      FilterAll(s[1..], p);
    }
  }

  /** `filter` distributes over concatenation. */
  lemma {:induction false} FilterAppend<T>(s: seq<T>, t: seq<T>, p: T -> bool)
    ensures Filter(s + t, p) == Filter(s, p) + Filter(t, p)
  {
    if s == [] {
      assert s + t == t;
    } else {
      assert (s + t)[1..] == s[1..] + t;
      FilterAppend(s[1..], t, p);
    }
  }

  /** The number of elements satisfying `p`: `s.filter(p).length`. */
  function Count<T>(s: seq<T>, p: T -> bool): (n: nat)
    ensures n <= |s|
    ensures n == 0 <==> forall k :: 0 <= k < |s| ==> !p(s[k])
    ensures n == |s| <==> forall k :: 0 <= k < |s| ==> p(s[k])
  {
    if s == [] then 0
    else (if p(s[0]) then 1 else 0) + Count(s[1..], p)
  }

  /** Counting distributes over concatenation. */
  lemma {:induction false} CountAppend<T>(s: seq<T>, t: seq<T>, p: T -> bool)
    ensures Count(s + t, p) == Count(s, p) + Count(t, p)
  {
    if s == [] {
      assert s + t == t;
    } else {
      assert (s + t)[1..] == s[1..] + t;
      CountAppend(s[1..], t, p);
    }
  }

  /** When exactly the first `m` elements satisfy `p`, the count is `m`,
      or the length when `m` runs past it. */
  lemma {:induction false} CountPrefix<T>(s: seq<T>, p: T -> bool, m: nat)
    requires forall i :: 0 <= i < |s| ==> (p(s[i]) <==> i < m)
    ensures Count(s, p) == if m < |s| then m else |s|
  {
    if s != [] {
      CountPrefix(s[1..], p, if m == 0 then 0 else m - 1);
    }
  }

  /** The count agrees with the length of the filtered list. */
  lemma {:induction false} CountIsFilterLength<T>(s: seq<T>, p: T -> bool)
    ensures Count(s, p) == |Filter(s, p)|
  {
    if s != [] {
      CountIsFilterLength(s[1..], p);
    }
  }

  /** Filtering keeps every copy of an element that passes and no copy of
      one that fails. */
  lemma {:induction false} FilterMultiplicity<T>(s: seq<T>, p: T -> bool, x: T)
    ensures multiset(Filter(s, p))[x] == if p(x) then multiset(s)[x] else 0
  {
    if s != [] {
      FilterMultiplicity(s[1..], p, x);
      assert s == [s[0]] + s[1..];
    }
  }

  /** The test `y => y !== x`. */
  function Other<T(==)>(x: T): T -> bool
  {
    y => y != x
  }

  /** The membership toggle of the interest pickers: a present element is
      removed together with all its copies, an absent one is appended. */
  function Toggle<T(==)>(xs: seq<T>, x: T): (r: seq<T>)
    ensures x in r <==> x !in xs
    ensures forall k :: 0 <= k < |xs| && xs[k] != x ==> xs[k] in r
    ensures forall k :: 0 <= k < |r| && r[k] != x ==> r[k] in xs
    ensures x !in xs ==> r == xs + [x]
    ensures x in xs ==> r == Filter(xs, Other(x))
    ensures x in xs ==> IsSubsequence(r, xs) && |r| < |xs|
    ensures x in xs ==> forall k :: 0 <= k < |xs| ==>
      multiset(r)[xs[k]] == if xs[k] == x then 0 else multiset(xs)[xs[k]]
  {
    if x in xs then
      var r := Filter(xs, Other(x));
      FilterIsSubsequence(xs, Other(x));
      FilterShorter(xs, Other(x), x);
      forall k | 0 <= k < |xs| ensures multiset(r)[xs[k]] == if xs[k] == x then 0 else multiset(xs)[xs[k]] {
        FilterMultiplicity(xs, Other(x), xs[k]);
      }
      r
    else xs + [x]
  }

  /** A filter that rejects an element of `s` strictly shortens it. */
  lemma {:induction false} FilterShorter<T>(s: seq<T>, p: T -> bool, x: T)
    requires x in s && !p(x)
    ensures |Filter(s, p)| < |s|
  {
    if s[0] != x {
      FilterShorter(s[1..], p, x);
    }
  }

  /** Toggling twice restores membership of every element. */
  lemma ToggleTwice<T>(xs: seq<T>, x: T)
    ensures forall y :: y in Toggle(Toggle(xs, x), x) <==> y in xs
  {
  }

  /** `xs.map(y => key(y) === key(x) ? x : y)`: the update-by-identifier of
      the list handlers. Positions and keys are kept, every element with
      `x`'s key becomes `x`, the others stay. */
  function ReplaceByKey<T, K(==)>(xs: seq<T>, x: T, key: T -> K): (r: seq<T>)
    ensures |r| == |xs|
    ensures forall k :: 0 <= k < |xs| ==> key(r[k]) == key(xs[k])
    ensures forall k :: 0 <= k < |xs| && key(xs[k]) != key(x) ==> r[k] == xs[k]
    ensures forall k :: 0 <= k < |xs| && key(xs[k]) == key(x) ==> r[k] == x
  {
    seq(|xs|, k requires 0 <= k < |xs| => if key(xs[k]) == key(x) then x else xs[k])
  }

  /** Replacing by a key no element has changes nothing, and replacing
      twice with the same element is replacing once. */
  lemma ReplaceByKeyProperties<T, K>(xs: seq<T>, x: T, key: T -> K)
    ensures (forall k :: 0 <= k < |xs| ==> key(xs[k]) != key(x)) ==> ReplaceByKey(xs, x, key) == xs
    ensures ReplaceByKey(ReplaceByKey(xs, x, key), x, key) == ReplaceByKey(xs, x, key)
  {
  }
}
