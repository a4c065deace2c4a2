/** Sequence helpers shared by the components: duplicate-freedom, first-occurrence
    de-duplication (JavaScript's `Array.from(new Set(xs))`), removal by index
    (`xs.filter((_, i) => i !== index)`), and subsequences. */
module Seqs {

  predicate NoDup<T(==)>(s: seq<T>)
  {
    forall i, j | 0 <= i < j < |s| :: s[i] != s[j]
  }

  /** The elements of `s` in order of first occurrence, each once. */
  function Distinct<T(==)>(s: seq<T>): (r: seq<T>)
    ensures NoDup(r)
    ensures forall x | x in r :: x in s
    ensures forall x | x in s :: x in r
    decreases |s|
  {
    if s == [] then []
    else
      var init, last := s[..|s| - 1], s[|s| - 1];
      assert s == init + [last];
      if last in init then Distinct(init) else Distinct(init) + [last]
  }

  /** Adding one element at the end: it joins the de-duplicated list only when new. */
  lemma DistinctSnoc<T>(s: seq<T>, x: T)
    ensures Distinct(s + [x]) == if x in s then Distinct(s) else Distinct(s) + [x]
  {
    assert (s + [x])[..|s + [x]| - 1] == s;
  }

  /** The elements of `s` that are not in `excluded`, in order. */
  function NotIn<T(==)>(s: seq<T>, excluded: seq<T>): (r: seq<T>)
    decreases |s|
  {
    if s == [] then []
    else if s[|s| - 1] in excluded then NotIn(s[..|s| - 1], excluded)
    else NotIn(s[..|s| - 1], excluded) + [s[|s| - 1]]
  }

  lemma {:induction false} DistinctOfNoDup<T>(s: seq<T>)
    requires NoDup(s)
    ensures Distinct(s) == s
    decreases |s|
  {
    if s != [] {
      var init := s[..|s| - 1];
      assert NoDup(init);
      DistinctOfNoDup(init);
      assert s[|s| - 1] !in init;
      assert s == init + [s[|s| - 1]];
    }
  }

  /** De-duplicating a duplicate-free `prev` followed by `more` keeps `prev` as it
      is and then adds the new elements of `more` in first-occurrence order. */
  lemma {:induction false} DistinctAppend<T>(prev: seq<T>, more: seq<T>)
    requires NoDup(prev)
    ensures Distinct(prev + more) == prev + Distinct(NotIn(more, prev))
    decreases |more|
  {
    if more == [] {
      assert prev + more == prev;
      DistinctOfNoDup(prev);
    } else {
      var init, last := more[..|more| - 1], more[|more| - 1];
      var added := NotIn(init, prev);
      DistinctAppend(prev, init);
      assert more == init + [last];
      AppendAssoc(prev, init, [last]);
      DistinctSnoc(prev + init, last);
      if last in prev {
        assert NotIn(more, prev) == added;
      } else {
        assert NotIn(more, prev) == added + [last];
        NotInMember(init, prev, last);
        DistinctSnoc(added, last);
        AppendAssoc(prev, Distinct(added), [last]);
      }
    }
  }

  lemma {:induction false} NotInMember<T>(s: seq<T>, excluded: seq<T>, x: T)
    requires x !in excluded
    ensures x in NotIn(s, excluded) <==> x in s
    decreases |s|
  {
    if s != [] {
      var init := s[..|s| - 1];
      NotInMember(init, excluded, x);
      assert s == init + [s[|s| - 1]];
    }
  }

  /** Removing position `i`: the source's `filter((_, j) => j !== i)`, walked by index.
      Every other element keeps its order; an index outside the sequence removes nothing. */
  function Without<T>(s: seq<T>, i: int): (r: seq<T>)
    ensures r == if 0 <= i < |s| then s[..i] + s[i + 1..] else s
    decreases |s|
  {
    if s == [] then []
    else (if i == 0 then [] else [s[0]]) + Without(s[1..], i - 1)
  }

  /** JavaScript's `s.slice(0, -1)`: all but the last element; `[]` stays `[]`. */
  function DropLast<T>(s: seq<T>): seq<T>
  {
    if s == [] then [] else s[..|s| - 1]
  }

  /** Concatenation is associative. */
  lemma AppendAssoc<T>(a: seq<T>, b: seq<T>, c: seq<T>)
    ensures a + (b + c) == (a + b) + c
  {
  }

  /** The empty sequence is a left unit of concatenation. */
  lemma EmptyAppend<T>(s: seq<T>)
    ensures [] + s == s
  {
  }

  /** A non-empty sequence is its head before its tail, also inside a concatenation. */
  lemma HeadTail<T>(xs: seq<T>, ys: seq<T>)
    requires xs != []
    ensures xs == [xs[0]] + xs[1..]
    ensures xs + ys == [xs[0]] + (xs[1..] + ys)
  {
  }

  /** `a` is `b` with some elements left out, the rest in the same order. */
  predicate IsSubsequence<T(==)>(a: seq<T>, b: seq<T>)
    decreases |b|
  {
    a == [] || (b != [] && ((a[0] == b[0] && IsSubsequence(a[1..], b[1..])) || IsSubsequence(a, b[1..])))
  }
}
