/** Sequence helpers shared by the list-processing rules: order-preserving filters
    and first-occurrence de-duplication. */
module Seqs {

  /** `[x for x in s if keep(x)]` / `s.filter(keep)`: the elements that pass, in order. */
  function Filter<T>(s: seq<T>, keep: T -> bool): (r: seq<T>)
    ensures |r| <= |s|
    ensures forall i :: 0 <= i < |r| ==> keep(r[i]) && r[i] in s
    ensures forall i :: 0 <= i < |s| && keep(s[i]) ==> s[i] in r
  {
    if s == [] then [] else Filter(s[..|s| - 1], keep) + (if keep(s[|s| - 1]) then [s[|s| - 1]] else [])
  }

  /** Filtering one more element appends it iff it passes. */
  lemma FilterSnoc<T>(s: seq<T>, x: T, keep: T -> bool)
    ensures Filter(s + [x], keep) == Filter(s, keep) + (if keep(x) then [x] else [])
  {
    assert (s + [x])[..|s|] == s;
  }

  /** The filter of a prefix one element longer, by position. */
  lemma FilterAt<T>(s: seq<T>, i: int, keep: T -> bool)
    requires 0 <= i < |s|
    ensures Filter(s[..i + 1], keep) == Filter(s[..i], keep) + (if keep(s[i]) then [s[i]] else [])
  {
    assert s[..i + 1] == s[..i] + [s[i]];
    FilterSnoc(s[..i], s[i], keep);
  }

  lemma {:induction false} FilterConcat<T>(a: seq<T>, b: seq<T>, keep: T -> bool)
    ensures Filter(a + b, keep) == Filter(a, keep) + Filter(b, keep)
  {
    if b != [] {
      var b' := b[..|b| - 1];
      assert a + b == (a + b') + [b[|b| - 1]];
      FilterConcat(a, b', keep);
      FilterSnoc(a + b', b[|b| - 1], keep);
      FilterSnoc(b', b[|b| - 1], keep);
      assert b == b' + [b[|b| - 1]];
    } else {
      assert a + b == a;
    }
  }

  /** The elements that pass and the elements that fail together are the input:
      every element goes to exactly one side. */
  lemma {:induction false} FilterPartition<T>(s: seq<T>, keep: T -> bool, drop: T -> bool)
    requires forall x :: drop(x) == !keep(x)
    ensures multiset(Filter(s, keep)) + multiset(Filter(s, drop)) == multiset(s)
    ensures |Filter(s, keep)| + |Filter(s, drop)| == |s|
  {
    if s != [] {
      var init, x := s[..|s| - 1], s[|s| - 1];
      FilterPartition(init, keep, drop);
      assert s == init + [x];
      PartitionStep(init, x, keep, drop);
    }
    assert |multiset(Filter(s, keep)) + multiset(Filter(s, drop))| == |multiset(s)|;
  }

  lemma PartitionStep<T>(init: seq<T>, x: T, keep: T -> bool, drop: T -> bool)
    requires forall y :: drop(y) == !keep(y)
    requires multiset(Filter(init, keep)) + multiset(Filter(init, drop)) == multiset(init)
    ensures multiset(Filter(init + [x], keep)) + multiset(Filter(init + [x], drop)) == multiset(init + [x])
  {
    FilterSnoc(init, x, keep);
    FilterSnoc(init, x, drop);
  }

  /** Two filters in a row keep what passes both. */
  lemma {:induction false} FilterFilter<T>(s: seq<T>, first: T -> bool, second: T -> bool, both: T -> bool)
    requires forall x :: both(x) == (first(x) && second(x))
    ensures Filter(Filter(s, first), second) == Filter(s, both)
  {
    if s != [] {
      var init, x := s[..|s| - 1], s[|s| - 1];
      FilterFilter(init, first, second, both);
      assert s == init + [x];
      FilterSnoc(init, x, first);
      FilterSnoc(init, x, both);
      assert both(x) == (first(x) && second(x));
      if first(x) {
        FilterSnoc(Filter(init, first), x, second);
        assert Filter(s, first) == Filter(init, first) + [x];
      } else {
        assert Filter(s, first) == Filter(init, first);
      }
    }
  }

  /** Filters whose tests agree on the elements give the same result. */
  lemma {:induction false} FilterCongruent<T>(s: seq<T>, p: T -> bool, q: T -> bool)
    requires forall i :: 0 <= i < |s| ==> p(s[i]) == q(s[i])
    ensures Filter(s, p) == Filter(s, q)
  {
    if s != [] {
      assert forall i :: 0 <= i < |s| - 1 ==> s[..|s| - 1][i] == s[i];
      FilterCongruent(s[..|s| - 1], p, q);
    }
  }

  /** Filters with the same test give the same result. */
  lemma {:induction false} FilterSameTest<T>(s: seq<T>, p: T -> bool, q: T -> bool)
    requires forall x :: p(x) == q(x)
    ensures Filter(s, p) == Filter(s, q)
  {
    if s != [] { FilterSameTest(s[..|s| - 1], p, q); }
  }

  /** A filter that keeps everything is the identity. */
  lemma {:induction false} FilterAll<T>(s: seq<T>, keep: T -> bool)
    requires forall x :: x in s ==> keep(x)
    ensures Filter(s, keep) == s
  {
    if s != [] {
      FilterAll(s[..|s| - 1], keep);
      assert s == s[..|s| - 1] + [s[|s| - 1]];
    }
  }

  /** `s` is `t` with some elements left out, order kept. */
  predicate SubsequenceOf<T(==)>(s: seq<T>, t: seq<T>) {
    s == [] || (t != [] && (if s[0] == t[0] then SubsequenceOf(s[1..], t[1..]) else SubsequenceOf(s, t[1..])))
  }

  lemma {:induction false} SubsequenceSnoc<T>(s: seq<T>, t: seq<T>, x: T, take: bool)
    requires SubsequenceOf(s, t)
    ensures SubsequenceOf(s + (if take then [x] else []), t + [x])
  {
    if s == [] {
      if take {
        assert SubsequenceOf([x][1..], (t + [x])[1..]);
        if t != [] {
          SubsequenceSnoc([], t[1..], x, take);
          assert (t + [x])[1..] == t[1..] + [x];
        }
      } else {
      }
    } else {
      assert t != [];
      assert (t + [x])[1..] == t[1..] + [x];
      var s' := s + (if take then [x] else []);
      assert s'[0] == s[0];
      if s[0] == t[0] {
        SubsequenceSnoc(s[1..], t[1..], x, take);
        assert s'[1..] == s[1..] + (if take then [x] else []);
      } else {
        SubsequenceSnoc(s, t[1..], x, take);
      }
    }
  }

  /** A filter result is an order-preserving subsequence of its input. */
  lemma {:induction false} FilterIsSubsequence<T>(s: seq<T>, keep: T -> bool)
    ensures SubsequenceOf(Filter(s, keep), s)
  {
    if s != [] {
      FilterIsSubsequence(s[..|s| - 1], keep);
      SubsequenceSnoc(Filter(s[..|s| - 1], keep), s[..|s| - 1], s[|s| - 1], keep(s[|s| - 1]));
      assert s == s[..|s| - 1] + [s[|s| - 1]];
    }
  }

  /** A filter of an ordered sequence is ordered. */
  lemma {:induction false} FilterSorted<T>(s: seq<T>, keep: T -> bool, lt: (T, T) -> bool)
    requires forall i, j :: 0 <= i < j < |s| ==> lt(s[i], s[j])
    ensures forall i, j :: 0 <= i < j < |Filter(s, keep)| ==> lt(Filter(s, keep)[i], Filter(s, keep)[j])
  {
    if s != [] {
      var init, x := s[..|s| - 1], s[|s| - 1];
      assert forall i, j :: 0 <= i < j < |init| ==> lt(init[i], init[j]) by {
        forall i, j | 0 <= i < j < |init| ensures lt(init[i], init[j]) { assert init[i] == s[i] && init[j] == s[j]; }
      }
      FilterSorted(init, keep, lt);
      assert s == init + [x];
      FilterSnoc(init, x, keep);
      if keep(x) {
        assert forall j :: 0 <= j < |init| ==> lt(init[j], x) by {
          forall j | 0 <= j < |init| ensures lt(init[j], x) { assert init[j] == s[j] && x == s[|s| - 1]; }
        }
        SortedSnoc(Filter(init, keep), init, x, lt);
      }
    }
  }

  /** An ordered selection from `init` stays ordered when an element above all of `init`
      is appended. */
  lemma SortedSnoc<T>(fi: seq<T>, init: seq<T>, x: T, lt: (T, T) -> bool)
    requires forall k :: 0 <= k < |fi| ==> fi[k] in init
    requires forall j :: 0 <= j < |init| ==> lt(init[j], x)
    requires forall i, j :: 0 <= i < j < |fi| ==> lt(fi[i], fi[j])
    ensures forall i, j :: 0 <= i < j < |fi + [x]| ==> lt((fi + [x])[i], (fi + [x])[j])
  {
    var r := fi + [x];
    forall i, j | 0 <= i < j < |r| ensures lt(r[i], r[j]) {
      if j == |fi| {
        assert r[i] == fi[i] && r[j] == x;
        var k :| 0 <= k < |init| && init[k] == fi[i];
      } else {
        assert r[i] == fi[i] && r[j] == fi[j];
      }
    }
  }

  predicate Distinct<T(==)>(s: seq<T>) {
    forall i, j :: 0 <= i < j < |s| ==> s[i] != s[j]
  }

  /** A filter of a duplicate-free sequence is duplicate-free. */
  lemma FilterDistinct<T>(s: seq<T>, keep: T -> bool)
    requires Distinct(s)
    ensures Distinct(Filter(s, keep))
  {
    var differ := (a: T, b: T) => a != b;
    assert forall i, j :: 0 <= i < j < |s| ==> differ(s[i], s[j]);
    FilterSorted(s, keep, differ);
    var r := Filter(s, keep);
    assert forall i, j :: 0 <= i < j < |r| ==> differ(r[i], r[j]);
  }

  /** `Array.from(new Set(s))`: each value once, at its first occurrence. */
  function Dedup<T(==)>(s: seq<T>): (r: seq<T>)
    ensures Distinct(r)
    ensures forall i :: 0 <= i < |r| ==> r[i] in s
    ensures forall i :: 0 <= i < |s| ==> s[i] in r
  {
    if s == [] then []
    else
      var init := Dedup(s[..|s| - 1]);
      if s[|s| - 1] in init then init else init + [s[|s| - 1]]
  }

  /** De-duplication keeps the first occurrences in their original order. */
  lemma {:induction false} DedupIsSubsequence<T>(s: seq<T>)
    ensures SubsequenceOf(Dedup(s), s)
  {
    if s != [] {
      var init, x := s[..|s| - 1], s[|s| - 1];
      DedupIsSubsequence(init);
      SubsequenceSnoc(Dedup(init), init, x, x !in Dedup(init));
      assert s == init + [x];
      assert Dedup(s) == Dedup(init) + (if x !in Dedup(init) then [x] else []);
    }
  }
}
