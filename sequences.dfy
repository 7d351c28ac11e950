/**
 Row selection on a table held as a sequence: pandas' boolean-mask indexing
 and `dropna` both keep the rows a predicate accepts, in their order.
 */
module Sequences {

  /** `a` is obtained from `b` by deleting elements. */
  ghost predicate IsSubsequence<T>(a: seq<T>, b: seq<T>)
    decreases |b|
  {
    a == [] || (b != [] && ((a[0] == b[0] && IsSubsequence(a[1..], b[1..])) || IsSubsequence(a, b[1..])))
  }

  /** Every pair in `s` is in relation `before`, taken in the order of `s`. */
  ghost predicate Ordered<T>(s: seq<T>, before: (T, T) -> bool)
  {
    forall i, j :: 0 <= i < j < |s| ==> before(s[i], s[j])
  }

  lemma HeadIsMember<T>(s: seq<T>)
    ensures s != [] ==> s[0] in s
  {
  }

  lemma {:induction false} SubsequenceReflexive<T>(s: seq<T>)
    ensures IsSubsequence(s, s)
    decreases |s|
  {
    if s != [] {
      SubsequenceReflexive(s[1..]);
    }
  }

  /** The rows of `s` that `p` accepts. */
  function Filter<T(!new)>(s: seq<T>, p: T -> bool): (r: seq<T>)
    ensures |r| <= |s|
    ensures forall x :: x in r <==> x in s && p(x)
    ensures forall x :: multiset(r)[x] == if p(x) then multiset(s)[x] else 0
    ensures IsSubsequence(r, s)
    ensures (forall x :: x in s ==> p(x)) ==> r == s
  {
    if s == [] then []
    else
      var rest := Filter(s[1..], p);
      assert s == [s[0]] + s[1..];
      if p(s[0]) then
        assert ([s[0]] + rest)[1..] == rest;
        [s[0]] + rest
      else
        rest
  }

  lemma {:induction false} SubsequenceMembers<T>(a: seq<T>, b: seq<T>)
    requires IsSubsequence(a, b)
    ensures forall x :: x in a ==> x in b
    decreases |b|
  {
    if a != [] {
      assert b == [b[0]] + b[1..];
      if a[0] == b[0] && IsSubsequence(a[1..], b[1..]) {
        SubsequenceMembers(a[1..], b[1..]);
        assert a == [a[0]] + a[1..];
      } else {
        SubsequenceMembers(a, b[1..]);
      }
    }
  }

  /** Deleting rows never breaks an ordering the table already had. */
  lemma {:induction false} SubsequenceKeepsOrder<T>(a: seq<T>, b: seq<T>, before: (T, T) -> bool)
    requires IsSubsequence(a, b) && Ordered(b, before)
    ensures Ordered(a, before)
    decreases |b|
  {
    if a != [] {
      var b' := b[1..];
      assert Ordered(b', before) by {
        forall i, j | 0 <= i < j < |b'| ensures before(b'[i], b'[j]) {
          assert b'[i] == b[i + 1] && b'[j] == b[j + 1];
        }
      }
      if a[0] == b[0] && IsSubsequence(a[1..], b') {
        var a' := a[1..];
        SubsequenceKeepsOrder(a', b', before);
        SubsequenceMembers(a', b');
        forall i, j | 0 <= i < j < |a| ensures before(a[i], a[j]) {
          assert a[j] == a'[j - 1] && a[j] in b';
          var k :| 0 <= k < |b'| && b'[k] == a[j];
          assert b[k + 1] == a[j];
          if i > 0 {
            assert a[i] == a'[i - 1];
          }
        }
      } else {
        SubsequenceKeepsOrder(a, b', before);
      }
    }
  }

}
