/** Sequence operations the caches and pages are built from: the array
    methods `filter`, `find` and the `map` that swaps matching records. */
module Seqs {
  import opened Wrappers

  /** `r` is `xs` with some elements deleted, the rest kept in order. */
  predicate IsSubseq<T(==)>(r: seq<T>, xs: seq<T>)
    decreases |xs|
  {
    if r == [] then true
    else if xs == [] then false
    else if r[0] == xs[0] then IsSubseq(r[1..], xs[1..])
    else IsSubseq(r, xs[1..])
  }

  /** `xs.filter(p)`. */
  function Filter<T(==)>(xs: seq<T>, p: T -> bool): (r: seq<T>)
    ensures |r| <= |xs|
    ensures forall i :: 0 <= i < |r| ==> p(r[i]) && r[i] in xs
    ensures forall i :: 0 <= i < |xs| && p(xs[i]) ==> xs[i] in r
  {
    if xs == [] then []
    else if p(xs[0]) then [xs[0]] + Filter(xs[1..], p)
    else Filter(xs[1..], p)
  }

  /** The filtered sequence keeps the order of the original. */
  lemma {:induction false} FilterIsSubseq<T>(xs: seq<T>, p: T -> bool)
    ensures IsSubseq(Filter(xs, p), xs)
  {
    if xs != [] {
      FilterIsSubseq(xs[1..], p);
      // when xs[0] fails p, the filtered list cannot start with a copy of it,
      // because every element of that list passes p
    }
  }

  /** Every sequence is a subsequence of itself. */
  lemma {:induction false} SubseqRefl<T>(xs: seq<T>)
    ensures IsSubseq(xs, xs)
  {
    if xs != [] {
      SubseqRefl(xs[1..]);
    }
  }

  /** A prefix of a subsequence is still a subsequence. */
  lemma {:induction false} PrefixSubseq<T>(r: seq<T>, xs: seq<T>, k: nat)
    requires IsSubseq(r, xs) && k <= |r|
    ensures IsSubseq(r[..k], xs)
    decreases |xs|
  {
    if k > 0 {
      assert r[..k][0] == r[0];
      if r[0] == xs[0] {
        assert r[..k][1..] == r[1..][..k - 1];
        PrefixSubseq(r[1..], xs[1..], k - 1);
      } else {
        PrefixSubseq(r, xs[1..], k);
      }
    }
  }

  /** Filtering a concatenation filters each part. */
  lemma {:induction false} FilterAppend<T>(a: seq<T>, b: seq<T>, p: T -> bool)
    ensures Filter(a + b, p) == Filter(a, p) + Filter(b, p)
  {
    if a != [] {
      assert (a + b)[1..] == a[1..] + b;
      FilterAppend(a[1..], b, p);
    } else {
      assert a + b == b;
    }
  }

  /** Filtering keeps everything when every element passes. */
  lemma {:induction false} FilterAll<T>(xs: seq<T>, p: T -> bool)
    requires forall i :: 0 <= i < |xs| ==> p(xs[i])
    ensures Filter(xs, p) == xs
  {
    if xs != [] {
      FilterAll(xs[1..], p);
    }
  }

  /** A predicate and its complement split a sequence without loss:
      together they hold every element the right number of times. */
  lemma {:induction false} FilterPartition<T>(xs: seq<T>, p: T -> bool, q: T -> bool)
    requires forall i :: 0 <= i < |xs| ==> (q(xs[i]) <==> !p(xs[i]))
    ensures multiset(Filter(xs, p)) + multiset(Filter(xs, q)) == multiset(xs)
    ensures |Filter(xs, p)| + |Filter(xs, q)| == |xs|
  {
    if xs != [] {
      FilterPartition(xs[1..], p, q);
      assert xs == [xs[0]] + xs[1..];
    }
  }

  /** Filtering keeps every passing value exactly as often as the input has
      it, and no failing value at all. */
  lemma {:induction false} FilterMultiset<T>(xs: seq<T>, p: T -> bool)
    ensures forall c :: multiset(Filter(xs, p))[c] == if p(c) then multiset(xs)[c] else 0
  {
    if xs != [] {
      FilterMultiset(xs[1..], p);
      assert xs == [xs[0]] + xs[1..];
    }
  }

  /** `xs.map(x => key(x) === k ? v : x)`. */
  function ReplaceKey<T>(xs: seq<T>, key: T -> string, k: string, v: T): (r: seq<T>)
    ensures |r| == |xs|
    ensures forall i :: 0 <= i < |xs| ==> r[i] == (if key(xs[i]) == k then v else xs[i])
  {
    if xs == [] then []
    else [if key(xs[0]) == k then v else xs[0]] + ReplaceKey(xs[1..], key, k, v)
  }

  /** `xs.filter(x => key(x) !== k)`. */
  function RemoveKey<T(==)>(xs: seq<T>, key: T -> string, k: string): (r: seq<T>)
    ensures forall i :: 0 <= i < |r| ==> key(r[i]) != k && r[i] in xs
    ensures forall i :: 0 <= i < |xs| && key(xs[i]) != k ==> xs[i] in r
    ensures IsSubseq(r, xs)
  {
    FilterIsSubseq(xs, x => key(x) != k);
    Filter(xs, x => key(x) != k)
  }

  /** How many elements of `xs` have key `k`. */
  function CountKey<T>(xs: seq<T>, key: T -> string, k: string): nat {
    if xs == [] then 0
    else (if key(xs[0]) == k then 1 else 0) + CountKey(xs[1..], key, k)
  }

  /** Removing a key drops exactly the elements that carry it. */
  lemma {:induction false} RemoveKeyLength<T>(xs: seq<T>, key: T -> string, k: string)
    ensures |RemoveKey(xs, key, k)| == |xs| - CountKey(xs, key, k)
  {
    if xs != [] {
      RemoveKeyLength(xs[1..], key, k);
    }
  }

  /** Removing the key of an element just appended under a key nobody else
      has gives back the list as it was before the append. */
  lemma {:induction false} RemoveAppendedKey<T>(xs: seq<T>, v: T, key: T -> string)
    requires forall i :: 0 <= i < |xs| ==> key(xs[i]) != key(v)
    ensures RemoveKey(xs + [v], key, key(v)) == xs
  {
    if xs == [] {
      assert [] + [v] == [v];
    } else {
      assert (xs + [v])[1..] == xs[1..] + [v];
      RemoveAppendedKey(xs[1..], v, key);
      assert xs == [xs[0]] + xs[1..];
    }
  }

  /** `xs.find(p)`: the first element satisfying `p`, if any. */
  function FindFirst<T(==)>(xs: seq<T>, p: T -> bool): (r: Option<T>)
    ensures r.None? <==> forall i :: 0 <= i < |xs| ==> !p(xs[i])
    ensures r.Some? ==> exists i :: 0 <= i < |xs| && xs[i] == r.value && p(r.value)
                                    && forall j :: 0 <= j < i ==> !p(xs[j])
  {
    if xs == [] then None
    else if p(xs[0]) then Some(xs[0])
    else
      var r := FindFirst(xs[1..], p);
      assert r.Some? ==> exists i :: 0 <= i < |xs[1..]| && xs[1..][i] == r.value && p(r.value)
                                    && forall j :: 0 <= j < i ==> !p(xs[1..][j]);
      if r.Some? then
        var i :| 0 <= i < |xs[1..]| && xs[1..][i] == r.value && p(r.value)
                 && forall j :: 0 <= j < i ==> !p(xs[1..][j]);
        assert xs[i + 1] == r.value && forall j :: 0 <= j < i + 1 ==> !p(xs[j]);
        r
      else r
  }
}
