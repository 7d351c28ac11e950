/**
 Ordering of worker names and SKUs as Python's `sorted` and pandas' sorted
 group keys see it: strings compared lexicographically by code point, a
 proper prefix before any of its extensions.
 */
module Ordering {

  import opened Sequences

  /** `a < b` on Python `str`: a strict order, never relating a string to itself. */
  predicate Less(a: string, b: string)
    ensures Less(a, b) ==> a != b
  {
    if a == [] then b != []
    else b != [] && (a[0] < b[0] || (a[0] == b[0] && Less(a[1..], b[1..])))
  }

  lemma LessIrreflexive(a: string)
    ensures !Less(a, a)
  {
  }

  /** The textbook reading of that order: `a` is a proper prefix of `b`, or at the first
      position where they differ `a` has the smaller code point. */
  ghost predicate LexWitness(a: string, b: string, k: nat)
  {
    k <= |a| && k <= |b| && a[..k] == b[..k]
    && ((k == |a| && k < |b|) || (k < |a| && k < |b| && a[k] < b[k]))
  }

  lemma {:induction false} LessIsLexicographic(a: string, b: string)
    ensures Less(a, b) <==> exists k :: LexWitness(a, b, k)
  {
    if a != [] && b != [] {
      var a', b' := a[1..], b[1..];
      LessIsLexicographic(a', b');
      if Less(a, b) && a[0] == b[0] {
        var k: nat :| LexWitness(a', b', k);
        assert a[..k + 1] == [a[0]] + a'[..k] && b[..k + 1] == [b[0]] + b'[..k];
        assert LexWitness(a, b, k + 1);
      } else if Less(a, b) {
        assert LexWitness(a, b, 0);
      }
      if k: nat :| LexWitness(a, b, k) {
        if k > 0 {
          assert a[0] == a[..k][0] == b[..k][0] == b[0];
          assert a'[..k - 1] == a[..k][1..] && b'[..k - 1] == b[..k][1..];
          assert LexWitness(a', b', k - 1);
        }
      }
    } else if a == [] && b != [] {
      assert LexWitness(a, b, 0);
    }
  }

  lemma {:induction false} LessTransitive(a: string, b: string, c: string)
    requires Less(a, b) && Less(b, c)
    ensures Less(a, c)
  {
    if a != [] && a[0] == b[0] && b[0] == c[0] {
      LessTransitive(a[1..], b[1..], c[1..]);
    }
  }

  lemma {:induction false} LessTotal(a: string, b: string)
    requires a != b
    ensures Less(a, b) || Less(b, a)
  {
    if a != [] && b != [] && a[0] == b[0] {
      assert a == [a[0]] + a[1..] && b == [b[0]] + b[1..];
      LessTotal(a[1..], b[1..]);
    }
  }

  lemma LessAsymmetric(a: string, b: string)
    requires Less(a, b)
    ensures !Less(b, a)
  {
  }

  /** Strictly ascending: sorted, and therefore free of duplicates. */
  ghost predicate Ascending(s: seq<string>)
  {
    forall i, j :: 0 <= i < j < |s| ==> Less(s[i], s[j])
  }

  lemma AscendingHasNoDuplicates(s: seq<string>)
    requires Ascending(s)
    ensures forall i, j :: 0 <= i < j < |s| ==> s[i] != s[j]
  {
    forall i, j | 0 <= i < j < |s| ensures s[i] != s[j] {
      LessIrreflexive(s[i]);
    }
  }

  lemma PrependAscending(y: string, t: seq<string>)
    requires Ascending(t)
    requires forall z :: z in t ==> Less(y, z)
    ensures Ascending([y] + t)
  {
  }

  lemma BelowHead(x: string, s: seq<string>)
    requires Ascending(s) && s != [] && Less(x, s[0])
    ensures forall z :: z in s ==> Less(x, z)
  {
    forall z | z in s ensures Less(x, z) {
      var j :| 0 <= j < |s| && s[j] == z;
      if j > 0 {
        LessTransitive(x, s[0], z);
      }
    }
  }

  /** Inserts `x` into a strictly ascending sequence unless it is already there. */
  function Insert(x: string, s: seq<string>): (r: seq<string>)
    requires Ascending(s)
    ensures Ascending(r)
    ensures forall y :: y in r <==> y == x || y in s
  {
    if s == [] then [x]
    else if x == s[0] then s
    else if Less(x, s[0]) then
      BelowHead(x, s);
      PrependAscending(x, s);
      [x] + s
    else
      LessTotal(x, s[0]);
      assert Ascending(s[1..]) by {
        forall i, j | 0 <= i < j < |s[1..]| ensures Less(s[1..][i], s[1..][j]) {
          assert s[1..][i] == s[i + 1] && s[1..][j] == s[j + 1];
        }
      }
      var t := Insert(x, s[1..]);
      assert forall z :: z in s[1..] ==> Less(s[0], z) by {
        forall z | z in s[1..] ensures Less(s[0], z) {
          var j :| 0 <= j < |s[1..]| && s[1..][j] == z;
          assert s[j + 1] == z;
        }
      }
      PrependAscending(s[0], t);
      [s[0]] + t
  }

  /** `sorted(set(xs))`: the distinct elements of `xs` in ascending order. */
  function SortUnique(xs: seq<string>): (r: seq<string>)
    ensures Ascending(r)
    ensures forall y :: y in r <==> y in xs
  {
    if xs == [] then [] else Insert(xs[0], SortUnique(xs[1..]))
  }

  /** A finite set has exactly one strictly ascending listing. */
  lemma {:induction false} AscendingUnique(a: seq<string>, b: seq<string>)
    requires Ascending(a) && Ascending(b)
    requires forall y :: y in a <==> y in b
    ensures a == b
  {
    if a == [] || b == [] {
      // the other one is empty too: it shares the first one's members
      HeadIsMember(a);
      HeadIsMember(b);
    } else {
      assert a[0] in b && b != [] && b[0] in a;
      if a[0] != b[0] {
        var i :| 0 <= i < |a| && a[i] == b[0];
        var j :| 0 <= j < |b| && b[j] == a[0];
        assert i > 0 && j > 0;
        assert Less(a[0], b[0]) && Less(b[0], a[0]);
        LessAsymmetric(a[0], b[0]);
        assert false;
      }
      var a', b' := a[1..], b[1..];
      AscendingHasNoDuplicates(a);
      AscendingHasNoDuplicates(b);
      forall y ensures y in a' <==> y in b' {
        assert a == [a[0]] + a' && b == [b[0]] + b';
        if y in a' {
          var i :| 0 <= i < |a'| && a'[i] == y;
          assert a[i + 1] == y && y != a[0];
          assert y in b && y != b[0];
        }
        if y in b' {
          var j :| 0 <= j < |b'| && b'[j] == y;
          assert b[j + 1] == y && y != b[0];
          assert y in a && y != a[0];
        }
      }
      assert Ascending(a') by {
        forall i, j | 0 <= i < j < |a'| ensures Less(a'[i], a'[j]) {
          assert a'[i] == a[i + 1] && a'[j] == a[j + 1];
        }
      }
      assert Ascending(b') by {
        forall i, j | 0 <= i < j < |b'| ensures Less(b'[i], b'[j]) {
          assert b'[i] == b[i + 1] && b'[j] == b[j + 1];
        }
      }
      AscendingUnique(a', b');
      assert a == [a[0]] + a' && b == [b[0]] + b';
    }
  }

  /** An ascending listing of at most one distinct value has at most one entry. */
  lemma AscendingSingleValue(s: seq<string>, w: string)
    requires Ascending(s)
    requires forall y :: y in s ==> y == w
    ensures s == [] || s == [w]
  {
    if |s| >= 2 {
      assert s[0] in s && s[1] in s;
      LessIrreflexive(w);
      assert false;
    }
    if |s| == 1 {
      assert s[0] in s;
    }
  }

}
