/** `Array.prototype.filter` over immutable sequences, with the laws the card store relies on. */
module Seqs {

  /** The elements of `s` that `keep` accepts, in their original order. */
  function Filter<T(!new)>(s: seq<T>, keep: T -> bool): (r: seq<T>)
    ensures |r| <= |s|
    ensures forall x :: x in r <==> x in s && keep(x)
  {
    if s == [] then []
    else (if keep(s[0]) then [s[0]] else []) + Filter(s[1..], keep)
  }

  /** Filtering keeps every accepted element with its multiplicity and drops every other one. */
  lemma {:induction false} FilterCounts<T(!new)>(s: seq<T>, keep: T -> bool, x: T)
    ensures multiset(Filter(s, keep))[x] == if keep(x) then multiset(s)[x] else 0
  {
    if s != [] {
      assert s == [s[0]] + s[1..];
      FilterCounts(s[1..], keep, x);
    }
  }

  /** Filtering distributes over concatenation: what survives keeps its relative order. */
  lemma {:induction false} FilterConcat<T(!new)>(a: seq<T>, b: seq<T>, keep: T -> bool)
    ensures Filter(a + b, keep) == Filter(a, keep) + Filter(b, keep)
  {
    if a == [] {
      assert a + b == b;
    } else {
      assert (a + b)[0] == a[0];
      assert (a + b)[1..] == a[1..] + b;
      FilterConcat(a[1..], b, keep);
    }
  }

  /** Filtering a sequence extended by one element extends the result by that element when it is kept. */
  lemma FilterSnoc<T(!new)>(s: seq<T>, x: T, keep: T -> bool)
    ensures Filter(s + [x], keep) == Filter(s, keep) + if keep(x) then [x] else []
  {
    FilterConcat(s, [x], keep);
    assert Filter([x], keep) == (if keep(x) then [x] else []) + Filter([], keep);
  }

  /** Filtering a sequence whose every element is kept returns it unchanged. */
  lemma {:induction false} FilterAllKept<T(!new)>(s: seq<T>, keep: T -> bool)
    requires forall x :: x in s ==> keep(x)
    ensures Filter(s, keep) == s
  {
    if s != [] {
      assert forall x :: x in s[1..] ==> x in s;
      FilterAllKept(s[1..], keep);
    }
  }

  /** A sequence with no element is empty. */
  lemma NoMemberEmpty<T(!new)>(s: seq<T>)
    requires forall x :: x !in s
    ensures s == []
  {
    if s != [] {
      HeadIsMember(s);
    }
  }

  lemma HeadIsMember<T>(s: seq<T>)
    requires s != []
    ensures s[0] in s
  {
  }

  /** Filtering a sequence none of whose elements is kept leaves nothing. */
  lemma FilterNoneKept<T(!new)>(s: seq<T>, keep: T -> bool)
    requires forall x :: x in s ==> !keep(x)
    ensures Filter(s, keep) == []
  {
    if Filter(s, keep) != [] {
      assert Filter(s, keep)[0] in Filter(s, keep);
    }
  }

  /** Filtering twice with the same predicate equals filtering once. */
  lemma FilterIdempotent<T(!new)>(s: seq<T>, keep: T -> bool)
    ensures Filter(Filter(s, keep), keep) == Filter(s, keep)
  {
    FilterAllKept(Filter(s, keep), keep);
  }

  /** Two filters can be applied in either order. */
  lemma {:induction false} FilterCommutes<T(!new)>(s: seq<T>, p: T -> bool, q: T -> bool)
    ensures Filter(Filter(s, p), q) == Filter(Filter(s, q), p)
  {
    if s != [] {
      var x, tail := s[0], s[1..];
      FilterCommutes(tail, p, q);
      FilterConsBoth(x, tail, p, q);
      FilterConsBoth(x, tail, q, p);
    }
  }

  /** Filtering a non-empty sequence by `p` and then `q` handles its head once, by both. */
  lemma FilterConsBoth<T(!new)>(x: T, tail: seq<T>, p: T -> bool, q: T -> bool)
    ensures Filter(Filter([x] + tail, p), q) == (if p(x) && q(x) then [x] else []) + Filter(Filter(tail, p), q)
  {
    FilterCons(x, tail, p);
    if p(x) {
      FilterCons(x, Filter(tail, p), q);
    } else {
      assert Filter([x] + tail, p) == Filter(tail, p);
      assert Filter(Filter(tail, p), q) == [] + Filter(Filter(tail, p), q);
    }
  }

  lemma FilterCons<T(!new)>(x: T, tail: seq<T>, keep: T -> bool)
    ensures Filter([x] + tail, keep) == (if keep(x) then [x] else []) + Filter(tail, keep)
  {
    assert ([x] + tail)[1..] == tail;
  }
}
