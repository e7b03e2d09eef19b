/**
 * Python's ordering of `str` values: lexicographic by code point, a proper
 * prefix sorting first. Used to sort backup file names.
 */
module Lex {
  import opened Seqs

  /** `a` sorts strictly before `b`. */
  predicate Less(a: string, b: string) {
    if |a| == 0 then |b| > 0
    else if |b| == 0 then false
    else if a[0] != b[0] then a[0] < b[0]
    else Less(a[1..], b[1..])
  }

  predicate LessEq(a: string, b: string) {
    a == b || Less(a, b)
  }

  lemma {:induction false} LessIrreflexive(a: string)
    ensures !Less(a, a)
  {
    if |a| > 0 {
      LessIrreflexive(a[1..]);
    }
  }

  lemma {:induction false} LessTransitive(a: string, b: string, c: string)
    requires Less(a, b) && Less(b, c)
    ensures Less(a, c)
  {
    if |a| > 0 && |b| > 0 && |c| > 0 && a[0] == b[0] && b[0] == c[0] {
      LessTransitive(a[1..], b[1..], c[1..]);
    }
  }

  /** Any two distinct strings are ordered one way or the other. */
  lemma {:induction false} LessTotal(a: string, b: string)
    ensures a == b || Less(a, b) || Less(b, a)
  {
    if |a| > 0 && |b| > 0 && a[0] == b[0] {
      LessTotal(a[1..], b[1..]);
      if a[1..] == b[1..] {
        assert a == [a[0]] + a[1..] && b == [b[0]] + b[1..];
      }
    }
  }

  lemma LessAsymmetric(a: string, b: string)
    requires Less(a, b)
    ensures !Less(b, a)
  {
    if Less(b, a) {
      LessTransitive(a, b, a);
      LessIrreflexive(a);
    }
  }

  /** Strictly ascending, hence also free of duplicates. */
  predicate Sorted(s: seq<string>) {
    forall i, j :: 0 <= i < j < |s| ==> Less(s[i], s[j])
  }

  lemma SortedNoDup(s: seq<string>)
    requires Sorted(s)
    ensures NoDup(s)
  {
    forall i, j | 0 <= i < j < |s|
      ensures s[i] != s[j]
    {
      LessIrreflexive(s[i]);
    }
  }

  /** The smallest name of a set. */
  predicate IsMin(m: string, names: set<string>) {
    m in names && forall n :: n in names && n != m ==> Less(m, n)
  }

  /** Every non-empty finite set of names has a smallest element. */
  lemma {:induction false} MinExists(names: set<string>)
    requires names != {}
    ensures exists m :: IsMin(m, names)
    decreases |names|
  {
    var x :| x in names;
    if names != {x} {
      var rest := names - {x};
      MinExists(rest);
      var m :| IsMin(m, rest);
      LessTotal(x, m);
      if Less(x, m) {
        forall n | n in names && n != x
          ensures Less(x, n)
        {
          if n != m {
            LessTransitive(x, m, n);
          }
        }
        assert IsMin(x, names);
      } else {
        assert IsMin(m, names);
      }
    } else {
      assert IsMin(x, names);
    }
  }

  /**
   * Two ascending listings of the same names are the same listing: sorting
   * is determined by the set of names alone.
   */
  lemma {:induction false} SortedUnique(s: seq<string>, t: seq<string>)
    requires Sorted(s) && Sorted(t)
    requires Elems(s) == Elems(t)
    ensures s == t
    decreases |s|
  {
    EmptyElems(s);
    EmptyElems(t);
    if s != [] {
      assert s[0] in Elems(t) && t[0] in Elems(s);
      if s[0] != t[0] {
        LessAsymmetric(s[0], t[0]);
      }
      assert s[0] == t[0];
      assert Sorted(s[1..]) && Sorted(t[1..]);
      SortedNoDup(s);
      SortedNoDup(t);
      assert s == [s[0]] + s[1..] && t == [t[0]] + t[1..];
      forall x
        ensures x in Elems(s[1..]) <==> x in Elems(t[1..])
      {
        if x in s[1..] {
          assert s[0] !in s[1..];
          assert x in Elems(t);
        }
        if x in t[1..] {
          assert t[0] !in t[1..];
          assert x in Elems(s);
        }
      }
      SortedUnique(s[1..], t[1..]);
    }
  }

  /** Python's `sorted(names)`: the names in ascending order (selection sort). */
  method SortNames(names: set<string>) returns (s: seq<string>)
    ensures Sorted(s)
    ensures Elems(s) == names
  {
    s := [];
    var rest := names;
    while rest != {}
      invariant Sorted(s)
      invariant Elems(s) + rest == names
      invariant Elems(s) !! rest
      invariant forall i, n :: 0 <= i < |s| && n in rest ==> Less(s[i], n)
      decreases |rest|
    {
      MinExists(rest);
      var m :| IsMin(m, rest);
      s := s + [m];
      rest := rest - {m};
    }
  }
}
