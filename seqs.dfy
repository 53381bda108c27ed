/** Order-preserving filters over sequences, the `Array.prototype.filter`
    calls that the cart, the product filters and the brand search use. */
module Seqs {

  /** `s.filter(p)`: the elements of `s` that satisfy `p`, in order. */
  function Filter<T>(s: seq<T>, p: T -> bool): (r: seq<T>)
    ensures |r| <= |s|
    ensures forall i :: 0 <= i < |r| ==> p(r[i])
    ensures forall i :: 0 <= i < |r| ==> r[i] in s
    ensures forall i :: 0 <= i < |s| && p(s[i]) ==> s[i] in r
  {
    if s == [] then []
    else if p(s[0]) then [s[0]] + Filter(s[1..], p)
    else Filter(s[1..], p)
  }

  /** `r` is obtained from `s` by deleting elements, keeping the order. */
  predicate IsSubsequence<T(==)>(r: seq<T>, s: seq<T>)
  {
    if r == [] then true
    else if s == [] then false
    else if r[0] == s[0] then IsSubsequence(r[1..], s[1..])
    else IsSubsequence(r, s[1..])
  }

  /** Every element satisfies `p`. */
  ghost predicate All<T>(s: seq<T>, p: T -> bool)
  {
    forall i :: 0 <= i < |s| ==> p(s[i])
  }

  /** No value occurs twice. */
  ghost predicate NoDuplicates<T>(s: seq<T>)
  {
    forall i, j :: 0 <= i < j < |s| ==> s[i] != s[j]
  }

  /** `s.filter(x => x !== v)`: every occurrence of `v` removed. */
  function RemoveAll<T(==)>(s: seq<T>, v: T): (r: seq<T>)
  {
    Filter(s, x => x != v)
  }

  lemma {:induction false} FilterIsSubsequence<T>(s: seq<T>, p: T -> bool)
    ensures IsSubsequence(Filter(s, p), s)
  {
    if s != [] {
      FilterIsSubsequence(s[1..], p);
      if !p(s[0]) {
        SubsequenceOfTail(Filter(s[1..], p), s);
      }
    }
  }

  lemma {:induction false} SubsequenceOfTail<T>(r: seq<T>, s: seq<T>)
    requires s != [] && IsSubsequence(r, s[1..])
    ensures IsSubsequence(r, s)
  {
    if r != [] && r[0] == s[0] {
      SubsequenceDropHead(r, s[1..]);
    }
  }

  lemma {:induction false} SubsequenceDropHead<T>(r: seq<T>, s: seq<T>)
    requires r != [] && IsSubsequence(r, s)
    ensures IsSubsequence(r[1..], s)
  {
    if s != [] {
      if r[0] == s[0] {
        if r[1..] != [] {
          SubsequenceOfTail(r[1..], s);
        }
      } else {
        SubsequenceDropHead(r, s[1..]);
        SubsequenceOfTail(r[1..], s);
      }
    }
  }

  /** Filtering with a predicate that every element meets changes nothing. */
  lemma {:induction false} FilterKeepsAll<T>(s: seq<T>, p: T -> bool)
    requires All(s, p)
    ensures Filter(s, p) == s
  {
    if s != [] {
      FilterKeepsAll(s[1..], p);
    }
  }

  /** Removing a value that occurs shortens the sequence. */
  lemma {:induction false} RemoveAllShortens<T>(s: seq<T>, v: T)
    requires v in s
    ensures |RemoveAll(s, v)| < |s|
  {
    if s[0] != v {
      RemoveAllShortens(s[1..], v);
    } else {
      assert |RemoveAll(s[1..], v)| <= |s[1..]|;
    }
  }

  /** Splitting by a predicate and its complement loses and duplicates nothing. */
  lemma {:induction false} FilterPartition<T>(s: seq<T>, p: T -> bool, q: T -> bool)
    requires forall i :: 0 <= i < |s| ==> q(s[i]) == !p(s[i])
    ensures |Filter(s, p)| + |Filter(s, q)| == |s|
  {
    if s != [] {
      FilterPartition(s[1..], p, q);
    }
  }

  /** Filtering distributes over concatenation. */
  lemma {:induction false} FilterAppend<T>(a: seq<T>, b: seq<T>, p: T -> bool)
    ensures Filter(a + b, p) == Filter(a, p) + Filter(b, p)
  {
    if a == [] {
      assert a + b == b;
    } else {
      assert (a + b)[1..] == a[1..] + b;
      FilterAppend(a[1..], b, p);
    }
  }

  /** Two filters in a row are one filter by the conjunction: the shape of
      a handler that reassigns `filtered = filtered.filter(...)` twice. */
  lemma {:induction false} FilterThen<T>(s: seq<T>, p: T -> bool, q: T -> bool, pq: T -> bool)
    requires forall i :: 0 <= i < |s| ==> pq(s[i]) == (p(s[i]) && q(s[i]))
    ensures Filter(Filter(s, p), q) == Filter(s, pq)
  {
    if s != [] {
      FilterThen(s[1..], p, q, pq);
    }
  }

  /** Filtering only when a condition holds is filtering by the implication. */
  lemma FilterIf<T>(s: seq<T>, b: bool, p: T -> bool, q: T -> bool)
    requires forall i :: 0 <= i < |s| ==> q(s[i]) == (b ==> p(s[i]))
    ensures (if b then Filter(s, p) else s) == Filter(s, q)
  {
    if b {
      FilterCongruent(s, p, q);
    } else {
      FilterKeepsAll(s, q);
    }
  }

  /** Filters with pointwise equal predicates agree. */
  lemma {:induction false} FilterCongruent<T>(s: seq<T>, p: T -> bool, q: T -> bool)
    requires forall i :: 0 <= i < |s| ==> p(s[i]) == q(s[i])
    ensures Filter(s, p) == Filter(s, q)
  {
    if s != [] {
      FilterCongruent(s[1..], p, q);
    }
  }

  lemma {:induction false} FilterKeepsNoDuplicates<T>(s: seq<T>, p: T -> bool)
    requires NoDuplicates(s)
    ensures NoDuplicates(Filter(s, p))
  {
    if s != [] {
      FilterKeepsNoDuplicates(s[1..], p);
      if p(s[0]) {
        var r := Filter(s, p);
        assert r == [s[0]] + Filter(s[1..], p);
        assert s[0] !in Filter(s[1..], p);
      }
    }
  }

  /** Removing every occurrence of `v` leaves no `v`, keeps every other
      value and does not introduce duplicates. */
  lemma RemoveAllFacts<T>(s: seq<T>, v: T)
    ensures v !in RemoveAll(s, v)
    ensures forall x :: x != v ==> (x in RemoveAll(s, v) <==> x in s)
    ensures forall i :: 0 <= i < |s| && s[i] != v ==> s[i] in RemoveAll(s, v)
    ensures forall i :: 0 <= i < |RemoveAll(s, v)| ==> RemoveAll(s, v)[i] in s
    ensures IsSubsequence(RemoveAll(s, v), s)
    ensures NoDuplicates(s) ==> NoDuplicates(RemoveAll(s, v))
  {
    FilterIsSubsequence(s, x => x != v);
    if NoDuplicates(s) {
      FilterKeepsNoDuplicates(s, x => x != v);
    }
  }

  /** Appending `v` to a list with every `v` removed keeps it free of
      duplicates. */
  lemma RemoveThenAppendNoDuplicates<T>(s: seq<T>, v: T)
    requires NoDuplicates(s)
    ensures NoDuplicates(RemoveAll(s, v) + [v])
  {
    RemoveAllFacts(s, v);
    var r := RemoveAll(s, v);
    forall i, j | 0 <= i < j < |r + [v]|
      ensures (r + [v])[i] != (r + [v])[j]
    {
      if j == |r| {
        assert (r + [v])[i] == r[i];
        assert r[i] in r;
      } else {
        assert (r + [v])[i] == r[i] && (r + [v])[j] == r[j];
      }
    }
  }

  /** A value not in the list is removed again by `RemoveAll`: checking a
      box and unchecking it restores the list. */
  lemma AppendThenRemove<T>(s: seq<T>, v: T)
    requires v !in s
    ensures RemoveAll(s + [v], v) == s
  {
    FilterAppend(s, [v], x => x != v);
    FilterKeepsAll(s, x => x != v);
  }
}
