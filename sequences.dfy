/** `Array.prototype.filter` and the subsequence relation it establishes. */
module Sequences {

  /** `a` is obtained from `b` by deleting elements, keeping the order of the rest. */
  predicate IsSubseq<T(==)>(a: seq<T>, b: seq<T>)
    decreases |b|
  {
    if a == [] then true
    else if b == [] then false
    else if a[0] == b[0] then IsSubseq(a[1..], b[1..])
    else IsSubseq(a, b[1..])
  }

  /** Every sequence is a subsequence of itself. */
  lemma {:induction false} SubseqRefl<T>(s: seq<T>)
    ensures IsSubseq(s, s)
    decreases |s|
  {
    if s != [] { SubseqRefl(s[1..]); }
  }

  /** Dropping the first element of `a` keeps it a subsequence of `b`. */
  lemma {:induction false} SubseqTail<T>(a: seq<T>, b: seq<T>)
    requires a != [] && IsSubseq(a, b)
    ensures IsSubseq(a[1..], b)
    decreases |b|, 0
  {
    if a[0] == b[0] {
      SubseqWeaken(a[1..], b[1..], b[0]);
    } else {
      SubseqTail(a, b[1..]);
      SubseqWeaken(a[1..], b[1..], b[0]);
    }
  }

  /** A subsequence of `b` is a subsequence of `[x] + b`. */
  lemma {:induction false} SubseqWeaken<T>(a: seq<T>, b: seq<T>, x: T)
    requires IsSubseq(a, b)
    ensures IsSubseq(a, [x] + b)
    decreases |b|, 1
  {
    assert ([x] + b)[1..] == b;
    if a != [] && a[0] == x {
      SubseqTail(a, b);
    }
  }

  /** A subsequence of a subsequence is a subsequence. */
  lemma {:induction false} SubseqTrans<T>(a: seq<T>, b: seq<T>, c: seq<T>)
    requires IsSubseq(a, b) && IsSubseq(b, c)
    ensures IsSubseq(a, c)
    decreases |c|
  {
    if a == [] {
    } else if b[0] == c[0] {
      if a[0] == b[0] {
        SubseqTrans(a[1..], b[1..], c[1..]);
      } else {
        SubseqTrans(a, b[1..], c[1..]);
        SubseqWeaken(a, c[1..], c[0]);
        assert [c[0]] + c[1..] == c;
      }
    } else {
      SubseqTrans(a, b, c[1..]);
      SubseqWeaken(a, c[1..], c[0]);
      assert [c[0]] + c[1..] == c;
    }
  }

  /** `s.filter(p)`: the elements of `s` satisfying `p`, in their original
      order, each kept as many times as it occurs in `s`. */
  function Filter<T(==,!new)>(s: seq<T>, p: T -> bool): (r: seq<T>)
    ensures |r| <= |s|
    ensures IsSubseq(r, s)
    ensures forall i :: 0 <= i < |r| ==> p(r[i]) && r[i] in s
    ensures forall i :: 0 <= i < |s| && p(s[i]) ==> s[i] in r
    ensures forall x :: multiset(r)[x] == if p(x) then multiset(s)[x] else 0
    decreases |s|
  {
    if s == [] then []
    else
      var rest := Filter(s[1..], p);
      assert s == [s[0]] + s[1..];
      SubseqWeaken(rest, s[1..], s[0]);
      var kept := if p(s[0]) then [s[0]] + rest else rest;
      FilterCountStep(s, p, rest, kept);
      CountedMembers(s, p, kept);
      kept
  }

  /** Membership follows from the counts: an element occurs in `r` exactly
      when it satisfies `p` and occurs in `s`. */
  lemma CountedMembers<T(!new)>(s: seq<T>, p: T -> bool, r: seq<T>)
    requires forall x :: multiset(r)[x] == if p(x) then multiset(s)[x] else 0
    ensures forall i :: 0 <= i < |r| ==> p(r[i]) && r[i] in s
    ensures forall i :: 0 <= i < |s| && p(s[i]) ==> s[i] in r
  {
    forall i | 0 <= i < |r|
      ensures p(r[i]) && r[i] in s
    {
      assert multiset(r)[r[i]] > 0;
    }
    forall i | 0 <= i < |s| && p(s[i])
      ensures s[i] in r
    {
      assert multiset(s)[s[i]] > 0;
    }
  }

  /** One step of `Filter`'s multiplicity clause: keeping or dropping the
      head adds its one occurrence, or none, to the count of the rest. */
  lemma FilterCountStep<T(!new)>(s: seq<T>, p: T -> bool, rest: seq<T>, r: seq<T>)
    requires s != []
    requires forall x :: multiset(rest)[x] == if p(x) then multiset(s[1..])[x] else 0
    requires r == if p(s[0]) then [s[0]] + rest else rest
    ensures forall x :: multiset(r)[x] == if p(x) then multiset(s)[x] else 0
  {
    assert s == [s[0]] + s[1..];
    assert multiset(s) == multiset{s[0]} + multiset(s[1..]);
    if p(s[0]) {
      assert multiset(r) == multiset{s[0]} + multiset(rest);
    }
  }

  /** Splitting by a predicate and by its negation partitions the sequence:
      the two filtered lengths add up to the whole length. */
  lemma {:induction false} FilterPartition<T(!new)>(s: seq<T>, p: T -> bool, q: T -> bool)
    requires forall x :: q(x) == !p(x)
    ensures |Filter(s, p)| + |Filter(s, q)| == |s|
    decreases |s|
  {
    if s != [] { FilterPartition(s[1..], p, q); }
  }
}
