/**
 * The two array updaters the ticket stores are built from: `Array.prototype.filter`
 * and a `map` that rewrites only the elements a predicate selects.
 */
module Seqs {

  /** `s.filter(p)` */
  function Filter<T(!new)>(s: seq<T>, p: T -> bool): (r: seq<T>)
    ensures |r| <= |s|
    ensures forall x :: x in r <==> x in s && p(x)
    ensures multiset(r) <= multiset(s)
  {
    if s == [] then []
    else
      assert s == [s[0]] + s[1..];
      (if p(s[0]) then [s[0]] else []) + Filter(s[1..], p)
  }

  /** Filtering distributes over concatenation, so the kept elements stay in their order. */
  lemma {:induction false} FilterConcat<T(!new)>(a: seq<T>, b: seq<T>, p: T -> bool)
    ensures Filter(a + b, p) == Filter(a, p) + Filter(b, p)
  {
    if a == [] {
      assert a + b == b;
    } else {
      assert (a + b)[1..] == a[1..] + b;
      FilterConcat(a[1..], b, p);
    }
  }

  /** Filtering keeps everything when every element passes. */
  lemma {:induction false} FilterKeepsAll<T(!new)>(s: seq<T>, p: T -> bool)
    requires forall x :: x in s ==> p(x)
    ensures Filter(s, p) == s
  {
    if s != [] {
      FilterKeepsAll(s[1..], p);
    }
  }

  /** Filtering drops everything when no element passes. */
  lemma FilterDropsAll<T(!new)>(s: seq<T>, p: T -> bool)
    requires forall x :: x in s ==> !p(x)
    ensures Filter(s, p) == []
  {
    var r := Filter(s, p);
    assert forall k :: 0 <= k < |r| ==> r[k] in r;
  }

  /** Filtering by three predicates of which each element meets exactly one splits the sequence. */
  lemma {:induction false} FilterPartition3<T(!new)>(s: seq<T>, p: T -> bool, q: T -> bool, r: T -> bool)
    requires forall x :: x in s ==> (p(x) && !q(x) && !r(x)) || (!p(x) && q(x) && !r(x)) || (!p(x) && !q(x) && r(x))
    ensures multiset(Filter(s, p)) + multiset(Filter(s, q)) + multiset(Filter(s, r)) == multiset(s)
    ensures |Filter(s, p)| + |Filter(s, q)| + |Filter(s, r)| == |s|
  {
    if s != [] {
      var x, t := s[0], s[1..];
      assert s == [x] + t;
      assert x in s;
      FilterPartition3(t, p, q, r);
      FilterCons(x, t, p);
      FilterCons(x, t, q);
      FilterCons(x, t, r);
      PartitionStep(x, t, Filter(t, p), Filter(t, q), Filter(t, r), p(x), q(x), r(x));
    }
  }

  /** Putting `x` in front of one of three parts of `t` gives three parts of `[x] + t`. */
  lemma PartitionStep<T>(x: T, t: seq<T>, a: seq<T>, b: seq<T>, c: seq<T>, inA: bool, inB: bool, inC: bool)
    requires (inA && !inB && !inC) || (!inA && inB && !inC) || (!inA && !inB && inC)
    requires multiset(a) + multiset(b) + multiset(c) == multiset(t)
    requires |a| + |b| + |c| == |t|
    ensures var a', b', c' := (if inA then [x] else []) + a, (if inB then [x] else []) + b, (if inC then [x] else []) + c;
      && multiset(a') + multiset(b') + multiset(c') == multiset([x] + t)
      && |a'| + |b'| + |c'| == |[x] + t|
  {
  }

  /** Filtering a sequence with a first element: that element, if it passes, then the rest filtered. */
  lemma FilterCons<T(!new)>(x: T, t: seq<T>, p: T -> bool)
    ensures Filter([x] + t, p) == (if p(x) then [x] else []) + Filter(t, p)
  {
    assert ([x] + t)[1..] == t;
  }

  /** `s.map(x => sel(x) ? f(x) : x)` */
  function MapWhere<T>(s: seq<T>, sel: T -> bool, f: T -> T): (r: seq<T>)
    ensures |r| == |s|
    ensures forall i :: 0 <= i < |s| ==> r[i] == (if sel(s[i]) then f(s[i]) else s[i])
  {
    if s == [] then [] else [if sel(s[0]) then f(s[0]) else s[0]] + MapWhere(s[1..], sel, f)
  }
}
