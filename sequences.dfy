/** Order facts about sequences: subsequences and duplicate-free lists. */
module Sequences {

  /** No element occurs twice in `s`. */
  predicate NoDuplicates<T(==)>(s: seq<T>) {
    forall i, j :: 0 <= i < j < |s| ==> s[i] != s[j]
  }

  /** `xs` is obtained from `ys` by deleting elements, keeping the order of the rest. */
  predicate IsSubsequence<T(==)>(xs: seq<T>, ys: seq<T>)
    decreases |ys|
  {
    if xs == [] then true
    else if ys == [] then false
    else if xs[|xs| - 1] == ys[|ys| - 1] then IsSubsequence(xs[..|xs| - 1], ys[..|ys| - 1])
    else IsSubsequence(xs, ys[..|ys| - 1])
  }

  /** A subsequence holds only elements of the sequence it was taken from. */
  lemma {:induction false} SubsequenceElements<T>(xs: seq<T>, ys: seq<T>)
    requires IsSubsequence(xs, ys)
    ensures forall x :: x in xs ==> x in ys
    decreases |ys|
  {
    if xs != [] {
      var ys' := ys[..|ys| - 1];
      if xs[|xs| - 1] == ys[|ys| - 1] {
        SubsequenceElements(xs[..|xs| - 1], ys');
        forall x | x in xs ensures x in ys {
          var i :| 0 <= i < |xs| && xs[i] == x;
          if i == |xs| - 1 {
            assert ys[|ys| - 1] == x;
          } else {
            assert xs[..|xs| - 1][i] == x;
            assert x in ys';
            var k :| 0 <= k < |ys'| && ys'[k] == x;
            assert ys[k] == x;
          }
        }
      } else {
        SubsequenceElements(xs, ys');
      }
    }
  }

  /** A subsequence of a duplicate-free sequence is itself duplicate-free. */
  lemma {:induction false} SubsequenceNoDuplicates<T>(xs: seq<T>, ys: seq<T>)
    requires IsSubsequence(xs, ys) && NoDuplicates(ys)
    ensures NoDuplicates(xs)
    decreases |ys|
  {
    if xs != [] {
      var xs', ys' := xs[..|xs| - 1], ys[..|ys| - 1];
      assert NoDuplicates(ys') by {
        forall i, j | 0 <= i < j < |ys'| ensures ys'[i] != ys'[j] {
          assert ys'[i] == ys[i] && ys'[j] == ys[j];
        }
      }
      if xs[|xs| - 1] == ys[|ys| - 1] {
        SubsequenceNoDuplicates(xs', ys');
        SubsequenceElements(xs', ys');
        forall i, j | 0 <= i < j < |xs| ensures xs[i] != xs[j] {
          if j < |xs| - 1 {
            assert xs'[i] == xs[i] && xs'[j] == xs[j];
          } else {
            assert xs[i] == xs'[i] && xs'[i] in ys';
            var k :| 0 <= k < |ys'| && ys'[k] == xs[i];
            assert ys[k] == xs[i];
          }
        }
      } else {
        SubsequenceNoDuplicates(xs, ys');
      }
    }
  }

  /** Dropping the last element of a subsequence leaves a subsequence. */
  lemma {:induction false} SubsequenceDropLast<T>(xs: seq<T>, ys: seq<T>)
    requires xs != [] && IsSubsequence(xs, ys)
    ensures IsSubsequence(xs[..|xs| - 1], ys)
    decreases |ys|, 0
  {
    var ys' := ys[..|ys| - 1];
    assert ys == ys' + [ys[|ys| - 1]];
    if xs[|xs| - 1] == ys[|ys| - 1] {
      SubsequenceExtend(xs[..|xs| - 1], ys', ys[|ys| - 1]);
    } else {
      SubsequenceDropLast(xs, ys');
      SubsequenceExtend(xs[..|xs| - 1], ys', ys[|ys| - 1]);
    }
  }

  /** A subsequence of `ys` is a subsequence of `ys` with one more element at the end. */
  lemma {:induction false} SubsequenceExtend<T>(xs: seq<T>, ys: seq<T>, y: T)
    requires IsSubsequence(xs, ys)
    ensures IsSubsequence(xs, ys + [y])
    decreases |ys|, 1
  {
    assert (ys + [y])[..|ys|] == ys;
    if xs != [] && xs[|xs| - 1] == y {
      SubsequenceDropLast(xs, ys);
    }
  }

  /** The elements of `s` that satisfy `keep`, in their original order. */
  function Filter<T>(s: seq<T>, keep: T -> bool): seq<T> {
    if s == [] then []
    else Filter(s[..|s| - 1], keep) + (if keep(s[|s| - 1]) then [s[|s| - 1]] else [])
  }

  /** An element is kept exactly when it is in `s` and satisfies `keep`. */
  lemma {:induction false} FilterMembership<T>(s: seq<T>, keep: T -> bool, x: T)
    ensures x in Filter(s, keep) <==> x in s && keep(x)
  {
    if s != [] {
      FilterMembership(s[..|s| - 1], keep, x);
      assert s == s[..|s| - 1] + [s[|s| - 1]];
    }
  }

  /** Filtering keeps the order of what it keeps. */
  lemma {:induction false} FilterIsSubsequence<T>(s: seq<T>, keep: T -> bool)
    ensures IsSubsequence(Filter(s, keep), s)
  {
    if s != [] {
      var init, last := s[..|s| - 1], s[|s| - 1];
      FilterIsSubsequence(init, keep);
      var rest := Filter(init, keep);
      var r := Filter(s, keep);
      assert s == init + [last];
      if keep(last) {
        assert r == rest + [last];
        assert r[..|r| - 1] == rest && r[|r| - 1] == last;
      } else {
        assert r == rest;
        SubsequenceExtend(rest, init, last);
      }
    }
  }

  /** Filtering a duplicate-free sequence yields each kept element once, in order. */
  lemma FilterExact<T>(s: seq<T>, keep: T -> bool)
    requires NoDuplicates(s)
    ensures IsSubsequence(Filter(s, keep), s)
    ensures NoDuplicates(Filter(s, keep))
    ensures forall x :: x in Filter(s, keep) <==> x in s && keep(x)
  {
    FilterIsSubsequence(s, keep);
    SubsequenceNoDuplicates(Filter(s, keep), s);
    forall x ensures x in Filter(s, keep) <==> x in s && keep(x) {
      FilterMembership(s, keep, x);
    }
  }

  /** Appending four sequences in turn is appending their concatenation. */
  lemma AppendAssociative4<T>(s: seq<T>, a: seq<T>, b: seq<T>, c: seq<T>, d: seq<T>)
    ensures s + a + b + c + d == s + (a + b + c + d)
  {
  }
}
