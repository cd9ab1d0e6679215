/** The ordering both sides of CineVault ask a library for: the
    comparator sort of `Array.prototype.sort` in the browser and the
    `sort({ dataCriacao: -1 })` cursor stage of the comments query. It is
    modelled as an insertion sort driven by `le(a, b)`, "a may come before
    b", which keeps equal elements in their input order as the stable
    JavaScript sort does. */
module Sorting {

  ghost predicate Total<T(!new)>(le: (T, T) -> bool) {
    forall a, b :: le(a, b) || le(b, a)
  }

  ghost predicate Transitive<T(!new)>(le: (T, T) -> bool) {
    forall a, b, c :: le(a, b) && le(b, c) ==> le(a, c)
  }

  ghost predicate SortedBy<T>(s: seq<T>, le: (T, T) -> bool) {
    forall i, j :: 0 <= i < j < |s| ==> le(s[i], s[j])
  }

  /** Places `x` into `t` after the last element that may precede it. */
  function Insert<T>(t: seq<T>, x: T, le: (T, T) -> bool): seq<T>
    decreases |t|
  {
    if t == [] || le(t[|t| - 1], x) then t + [x]
    else Insert(t[..|t| - 1], x, le) + [t[|t| - 1]]
  }

  function Sort<T>(s: seq<T>, le: (T, T) -> bool): seq<T>
    decreases |s|
  {
    if s == [] then [] else Insert(Sort(s[..|s| - 1], le), s[|s| - 1], le)
  }

  lemma {:induction false} InsertPermutation<T>(t: seq<T>, x: T, le: (T, T) -> bool)
    ensures multiset(Insert(t, x, le)) == multiset(t) + multiset{x}
    decreases |t|
  {
    if t == [] || le(t[|t| - 1], x) {
    } else {
      var init, last := t[..|t| - 1], t[|t| - 1];
      InsertPermutation(init, x, le);
      assert t == init + [last];
    }
  }

  /** The sorted list holds the same elements, with the same multiplicities. */
  lemma {:induction false} SortPermutation<T>(s: seq<T>, le: (T, T) -> bool)
    ensures multiset(Sort(s, le)) == multiset(s)
    decreases |s|
  {
    if s != [] {
      var init, last := s[..|s| - 1], s[|s| - 1];
      SortPermutation(init, le);
      InsertPermutation(Sort(init, le), last, le);
      assert s == init + [last];
    }
  }

  lemma {:induction false} InsertSorted<T(!new)>(t: seq<T>, x: T, le: (T, T) -> bool)
    requires Total(le) && Transitive(le) && SortedBy(t, le)
    ensures SortedBy(Insert(t, x, le), le)
    decreases |t|
  {
    if t == [] || le(t[|t| - 1], x) {
      var r := t + [x];
      forall i, j | 0 <= i < j < |r| ensures le(r[i], r[j]) {
        if j == |t| && i < |t| - 1 {
          assert le(t[i], t[|t| - 1]);
        }
      }
    } else {
      var init, last := t[..|t| - 1], t[|t| - 1];
      assert le(x, last);
      InsertSorted(init, x, le);
      InsertPermutation(init, x, le);
      var r' := Insert(init, x, le);
      forall k | 0 <= k < |r'| ensures le(r'[k], last) {
        assert r'[k] in multiset(r');
        if r'[k] != x {
          assert r'[k] in multiset(init);
          var i :| 0 <= i < |init| && init[i] == r'[k];
          assert le(t[i], t[|t| - 1]);
        }
      }
    }
  }

  /** With a total, transitive `le` the result is in order. */
  lemma {:induction false} SortSorted<T(!new)>(s: seq<T>, le: (T, T) -> bool)
    requires Total(le) && Transitive(le)
    ensures SortedBy(Sort(s, le), le)
    decreases |s|
  {
    if s != [] {
      SortSorted(s[..|s| - 1], le);
      InsertSorted(Sort(s[..|s| - 1], le), s[|s| - 1], le);
    }
  }

  /** A comparator that lets every element come before every other (the
      JavaScript comparator that returns 0) leaves the order unchanged. */
  lemma {:induction false} SortKeepsOrderWhenAllTie<T(!new)>(s: seq<T>, le: (T, T) -> bool)
    requires forall a, b :: le(a, b)
    ensures Sort(s, le) == s
    decreases |s|
  {
    if s != [] {
      SortKeepsOrderWhenAllTie(s[..|s| - 1], le);
      assert s == s[..|s| - 1] + [s[|s| - 1]];
    }
  }
}
