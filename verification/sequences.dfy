/**
 Generic sequence notions behind the picker's derived views: duplicate
 freedom, first occurrences, subsequences, and the insertion-ordered set
 that JavaScript's `Set` builds from an iterable.
 */
module Sequences {

  /** No element occurs twice. */
  predicate NoDup<T(==)>(s: seq<T>) {
    forall i, j :: 0 <= i < j < |s| ==> s[i] != s[j]
  }

  /** The position of the first occurrence of `x` in `s`. */
  function FirstIndex<T(==)>(s: seq<T>, x: T): (k: nat)
    requires x in s
    ensures k < |s| && s[k] == x
    ensures x !in s[..k]
  {
    if s[0] == x then 0
    else
      assert s == [s[0]] + s[1..];
      var k := 1 + FirstIndex(s[1..], x);
      assert s[..k] == [s[0]] + s[1..][..k - 1];
      k
  }

  /** The first occurrence of an element is the only position satisfying FirstIndex's contract. */
  lemma FirstIndexUnique<T>(s: seq<T>, x: T, k: nat)
    requires k < |s| && s[k] == x && x !in s[..k]
    ensures FirstIndex(s, x) == k
  {
  }

  /** Every element of `r` occurs in `xs`, and `r` lists them in the order in which `xs` first mentions them. */
  predicate InFirstOccurrenceOrder<T(==)>(r: seq<T>, xs: seq<T>) {
    && (forall i :: 0 <= i < |r| ==> r[i] in xs)
    && (forall i, j :: 0 <= i < j < |r| && r[i] in xs && r[j] in xs ==>
          FirstIndex(xs, r[i]) < FirstIndex(xs, r[j]))
  }

  /** `a` is obtained from `b` by deleting elements, keeping the order of the rest. */
  predicate IsSubsequence<T(==)>(a: seq<T>, b: seq<T>)
    decreases |b|
  {
    if a == [] then true
    else if b == [] then false
    else if a[0] == b[0] then IsSubsequence(a[1..], b[1..])
    else IsSubsequence(a, b[1..])
  }

  /** A subsequence uses no element more often than the sequence it is taken from. */
  lemma {:induction false} SubsequenceMultiset<T>(a: seq<T>, b: seq<T>)
    requires IsSubsequence(a, b)
    ensures multiset(a) <= multiset(b)
    decreases |b|
  {
    if a != [] {
      assert b == [b[0]] + b[1..];
      if a[0] == b[0] {
        SubsequenceMultiset(a[1..], b[1..]);
        assert a == [a[0]] + a[1..];
      } else {
        SubsequenceMultiset(a, b[1..]);
      }
    }
  }

  /**
   Reference definition of de-duplication: keep position `i` of `xs`
   exactly when `xs[i]` does not occur in `xs[..i]`.
   */
  function FirstOccurrences<T(==)>(xs: seq<T>): seq<T>
    decreases |xs|
  {
    if xs == [] then []
    else
      var init := xs[..|xs| - 1];
      var last := xs[|xs| - 1];
      FirstOccurrences(init) + (if last in init then [] else [last])
  }

  /** Adding to an insertion-ordered set: a new element goes to the end, a present one changes nothing. */
  function Insert<T(==,!new)>(acc: seq<T>, x: T): (r: seq<T>)
    ensures x in r
    ensures forall y :: y in r <==> y in acc || y == x
    ensures NoDup(acc) ==> NoDup(r)
    ensures |acc| <= |r| <= |acc| + 1 && r[..|acc|] == acc
  {
    if x in acc then acc else acc + [x]
  }

  /**
   Inserting every element of `xs`, front to back, into the
   insertion-ordered set `acc`; `new Set(xs)` is `InsertAll([], xs)`.
   */
  function InsertAll<T(==,!new)>(acc: seq<T>, xs: seq<T>): (r: seq<T>)
    ensures forall y :: y in r <==> y in acc || y in xs
    ensures NoDup(acc) ==> NoDup(r)
    ensures |acc| <= |r| <= |acc| + |xs|
    ensures r[..|acc|] == acc
    decreases |xs|
  {
    if xs == [] then acc
    else
      var r := InsertAll(Insert(acc, xs[0]), xs[1..]);
      assert xs == [xs[0]] + xs[1..];
      r
  }

  /** Inserting one more element after a run of insertions. */
  lemma {:induction false} InsertAllSnoc<T(!new)>(acc: seq<T>, xs: seq<T>, x: T)
    ensures InsertAll(acc, xs + [x]) == Insert(InsertAll(acc, xs), x)
    decreases |xs|
  {
    if xs == [] {
      assert xs + [x] == [x];
      assert [x][1..] == [];
    } else {
      assert (xs + [x])[0] == xs[0];
      assert (xs + [x])[1..] == xs[1..] + [x];
      InsertAllSnoc(Insert(acc, xs[0]), xs[1..], x);
    }
  }

  /** Building a set from `xs` keeps exactly the first occurrences, in order. */
  lemma {:induction false} InsertAllIsFirstOccurrences<T(!new)>(xs: seq<T>)
    ensures InsertAll([], xs) == FirstOccurrences(xs)
    decreases |xs|
  {
    if xs != [] {
      var init := xs[..|xs| - 1];
      var last := xs[|xs| - 1];
      assert xs == init + [last];
      InsertAllSnoc([], init, last);
      InsertAllIsFirstOccurrences(init);
    }
  }

  /** The reference de-duplication lists its elements in first-occurrence order. */
  lemma {:induction false} FirstOccurrencesOrdered<T>(xs: seq<T>)
    ensures InFirstOccurrenceOrder(FirstOccurrences(xs), xs)
    decreases |xs|
  {
    if xs != [] {
      var init := xs[..|xs| - 1];
      var last := xs[|xs| - 1];
      assert xs == init + [last];
      var p := FirstOccurrences(init);
      FirstOccurrencesOrdered(init);
      var r := FirstOccurrences(xs);
      assert r == p + (if last in init then [] else [last]);
      forall y | y in init
        ensures FirstIndex(xs, y) == FirstIndex(init, y)
      {
        var k := FirstIndex(init, y);
        assert xs[..k] == init[..k];
        FirstIndexUnique(xs, y, k);
      }
      if last !in init {
        assert xs[..|init|] == init;
        FirstIndexUnique(xs, last, |init|);
      }
      forall i | 0 <= i < |r|
        ensures r[i] in xs
      {
        if i < |p| { assert r[i] == p[i]; }
      }
      forall i, j | 0 <= i < j < |r| && r[i] in xs && r[j] in xs
        ensures FirstIndex(xs, r[i]) < FirstIndex(xs, r[j])
      {
        assert r[i] == p[i];
        if j < |p| {
          assert r[j] == p[j];
        } else {
          assert r[j] == last && last !in init;
        }
      }
    }
  }

  /** Sequences with the same elements are empty together. */
  lemma SameElementsBothEmpty<T>(a: seq<T>, b: seq<T>)
    requires forall y :: y in a <==> y in b
    ensures a == [] <==> b == []
  {
    if a != [] { assert a[0] in b; }
    if b != [] { assert b[0] in a; }
  }

  /**
   A first-occurrence ordering of the distinct elements of `xs` is unique:
   two duplicate-free sequences with the same elements, both in
   first-occurrence order with respect to `xs`, are equal.
   */
  lemma {:induction false} FirstOccurrenceOrderUnique<T>(a: seq<T>, b: seq<T>, xs: seq<T>)
    requires NoDup(a) && NoDup(b)
    requires forall y :: y in a <==> y in b
    requires InFirstOccurrenceOrder(a, xs) && InFirstOccurrenceOrder(b, xs)
    ensures a == b
    decreases |a|
  {
    if a == [] {
      SameElementsBothEmpty(a, b);
    } else {
      assert a[0] in b;
      assert b != [];
      // Both heads are the element of the common set that `xs` mentions first.
      assert b[0] in a;
      assert a[0] == b[0];
      forall y
        ensures y in a[1..] <==> y in b[1..]
      {
        if y in a[1..] {
          var k :| 1 <= k < |a| && a[k] == y;
          assert y != a[0];
          assert y in b;
        }
        if y in b[1..] {
          var k :| 1 <= k < |b| && b[k] == y;
          assert y != b[0];
          assert y in a;
        }
      }
      FirstOccurrenceOrderUnique(a[1..], b[1..], xs);
      assert a == [a[0]] + a[1..];
      assert b == [b[0]] + b[1..];
    }
  }
}
