/** Order-preserving filtering of sequences, the model of a Python list comprehension with an `if`. */
module Seqs {

  /** The elements of `s` that satisfy `p`, in the order they have in `s`. */
  function Filter<T>(s: seq<T>, p: T -> bool): (r: seq<T>)
    ensures |r| <= |s|
    ensures forall i :: 0 <= i < |r| ==> p(r[i])
    ensures forall x :: x in r ==> x in s
  {
    if s == [] then []
    else if p(s[0]) then [s[0]] + Filter(s[1..], p)
    else Filter(s[1..], p)
  }

  /** An element is kept exactly when it occurs in `s` and satisfies `p`. */
  lemma {:induction false} FilterMembership<T>(s: seq<T>, p: T -> bool, x: T)
    ensures x in Filter(s, p) <==> x in s && p(x)
  {
    if s != [] {
      FilterMembership(s[1..], p, x);
      assert s == [s[0]] + s[1..];
    }
  }

  /** `FilterMembership` for every element at once. */
  lemma FilterMembershipAll<T>(s: seq<T>, p: T -> bool)
    ensures forall x :: x in Filter(s, p) <==> x in s && p(x)
  {
    forall x ensures x in Filter(s, p) <==> x in s && p(x) {
      FilterMembership(s, p, x);
    }
  }

  /** Filtering distributes over concatenation: the kept elements of `s` come before those of `t`. */
  lemma {:induction false} FilterAppend<T>(s: seq<T>, t: seq<T>, p: T -> bool)
    ensures Filter(s + t, p) == Filter(s, p) + Filter(t, p)
  {
    if s == [] {
      assert s + t == t;
    } else {
      assert (s + t)[1..] == s[1..] + t;
      FilterAppend(s[1..], t, p);
    }
  }

  /** Two filters in a row keep what one filter by the conjunction keeps, in the same order. */
  lemma {:induction false} FilterTwice<T>(s: seq<T>, p: T -> bool, q: T -> bool, both: T -> bool)
    requires forall x :: both(x) == (p(x) && q(x))
    ensures Filter(Filter(s, p), q) == Filter(s, both)
  {
    if s != [] {
      FilterTwice(s[1..], p, q, both);
    }
  }
}
