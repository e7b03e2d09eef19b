/** Facts about sequences used by the change lists, the backup listing and the ordered camera map. */
module Seqs {

  /** No element occurs twice. */
  predicate NoDup<T(==)>(s: seq<T>) {
    forall i, j :: 0 <= i < j < |s| ==> s[i] != s[j]
  }

  /** The set of elements of `s`. */
  function Elems<T>(s: seq<T>): set<T> {
    set x | x in s
  }

  /** Appending a fresh element keeps a sequence duplicate-free. */
  lemma NoDupAppend<T>(s: seq<T>, x: T)
    requires NoDup(s) && x !in s
    ensures NoDup(s + [x])
  {
  }

  /** In a duplicate-free sequence every value occurs exactly once or not at all. */
  lemma {:induction false} CountOfNoDup<T>(s: seq<T>, x: T)
    requires NoDup(s)
    ensures multiset(s)[x] == if x in s then 1 else 0
  {
    if s != [] {
      var init := s[..|s| - 1];
      assert s == init + [s[|s| - 1]];
      assert NoDup(init);
      CountOfNoDup(init, x);
      assert s[|s| - 1] !in init;
    }
  }

  /** A duplicate-free sequence has as many elements as its element set. */
  lemma {:induction false} CardOfNoDup<T>(s: seq<T>)
    requires NoDup(s)
    ensures |Elems(s)| == |s|
  {
    if s != [] {
      var init := s[..|s| - 1];
      var last := s[|s| - 1];
      assert s == init + [last];
      assert NoDup(init);
      CardOfNoDup(init);
      assert last !in init;
      assert Elems(s) == Elems(init) + {last};
    }
  }

  /** A sequence whose element set is empty is itself empty. */
  lemma EmptyElems<T>(s: seq<T>)
    ensures Elems(s) == {} <==> s == []
  {
    if s != [] {
      assert s[0] in Elems(s);
    }
  }

  /**
   * The keys of `s` in the order of their first occurrence, which is the key
   * order Python gives a dict built by assigning the keys of `s` one by one.
   */
  function Dedup<T(==)>(s: seq<T>): (r: seq<T>)
    ensures NoDup(r)
    ensures Elems(r) == Elems(s)
  {
    if s == [] then []
    else
      var d := Dedup(s[..|s| - 1]);
      var last := s[|s| - 1];
      assert s == s[..|s| - 1] + [last];
      assert Elems(s) == Elems(s[..|s| - 1]) + {last};
      if last in d then d else d + [last]
  }

  /** Elements of `s`, in order, that satisfy `keep`. */
  function Filter<T(!new)>(s: seq<T>, keep: T -> bool): (r: seq<T>)
    ensures forall x :: x in r <==> x in s && keep(x)
  {
    if s == [] then []
    else (if keep(s[0]) then [s[0]] else []) + Filter(s[1..], keep)
  }

  /** Filtering a duplicate-free sequence leaves it duplicate-free. */
  lemma {:induction false} FilterNoDup<T(!new)>(s: seq<T>, keep: T -> bool)
    requires NoDup(s)
    ensures NoDup(Filter(s, keep))
  {
    if s != [] {
      assert NoDup(s[1..]);
      FilterNoDup(s[1..], keep);
      assert s[0] !in s[1..];
    }
  }

  /**
   * Appending a duplicate-free tail disjoint from `a` does not disturb
   * first-occurrence order: the tail lands after `Dedup(a)` unchanged.
   */
  lemma {:induction false} DedupAppendFresh<T>(a: seq<T>, b: seq<T>)
    requires NoDup(b)
    requires forall x :: x in b ==> x !in a
    ensures Dedup(a + b) == Dedup(a) + b
  {
    if b == [] {
      assert a + b == a;
    } else {
      var init := b[..|b| - 1];
      var last := b[|b| - 1];
      assert b == init + [last];
      assert NoDup(init);
      DedupAppendFresh(a, init);
      assert a + b == (a + init) + [last];
      assert (a + b)[..|a + b| - 1] == a + init;
      assert last !in a && last !in init;
      assert last !in Elems(Dedup(a));
      assert last !in Dedup(a) + init;
    }
  }

  /** Deduplicating a duplicate-free sequence changes nothing. */
  lemma DedupOfNoDup<T>(s: seq<T>)
    requires NoDup(s)
    ensures Dedup(s) == s
  {
    DedupAppendFresh([], s);
    assert [] + s == s;
  }
}
