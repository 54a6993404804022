/** `Array.prototype.filter` over sequences, and a `map` whose `null` results
    are filtered out, with the facts about them that the import and export
    pipelines rely on. */
module Sequences {
  import opened Wrappers

  /** `s.filter(p)`: the elements of `s` satisfying `p`, in their order. */
  function Filter<T>(p: T -> bool, s: seq<T>): (r: seq<T>)
    ensures |r| <= |s|
    ensures forall x | x in r :: x in s && p(x)
    ensures forall x | x in s && p(x) :: x in r
  {
    if s == [] then []
    else (if p(s[0]) then [s[0]] else []) + Filter(p, s[1..])
  }

  /** `r` can be obtained from `s` by deleting elements: the order of what is
      kept is the order in `s`. */
  predicate IsSubsequence<T(==)>(r: seq<T>, s: seq<T>)
    decreases |s|
  {
    if r == [] then true
    else if s == [] then false
    else (r[0] == s[0] && IsSubsequence(r[1..], s[1..])) || IsSubsequence(r, s[1..])
  }

  lemma {:induction false} FilterIsSubsequence<T>(p: T -> bool, s: seq<T>)
    ensures IsSubsequence(Filter(p, s), s)
  {
    if s != [] {
      FilterIsSubsequence(p, s[1..]);
      var rest := Filter(p, s[1..]);
      if p(s[0]) {
        assert Filter(p, s) == [s[0]] + rest;
        assert ([s[0]] + rest)[1..] == rest;
      } else {
        assert Filter(p, s) == rest;
      }
    }
  }

  /** Filtering keeps everything when every element qualifies. */
  lemma {:induction false} FilterKeepsAll<T>(p: T -> bool, s: seq<T>)
    requires forall x :: x in s ==> p(x)
    ensures Filter(p, s) == s
  {
    if s != [] {
      FilterKeepsAll(p, s[1..]);
      assert [s[0]] + s[1..] == s;
    }
  }

  /** Filtering keeps nothing exactly when no element qualifies. */
  lemma FilterEmptyIff<T>(p: T -> bool, s: seq<T>)
    ensures Filter(p, s) == [] <==> forall x | x in s :: !p(x)
  {
    if forall x | x in s :: !p(x) {
      FilterKeepsNone(p, s);
    }
  }

  /** Filtering keeps nothing when no element qualifies. */
  lemma {:induction false} FilterKeepsNone<T>(p: T -> bool, s: seq<T>)
    requires forall x | x in s :: !p(x)
    ensures Filter(p, s) == []
  {
    if s != [] {
      assert s[0] in s;
      FilterKeepsNone(p, s[1..]);
    }
  }

  /** Two complementary filters split a sequence: their lengths add up to its length. */
  lemma {:induction false} FilterComplementLengths<T>(p: T -> bool, q: T -> bool, s: seq<T>)
    requires forall x :: x in s ==> (p(x) <==> !q(x))
    ensures |Filter(p, s)| + |Filter(q, s)| == |s|
  {
    if s != [] {
      assert s[0] in s;
      forall x | x in s[1..] ensures p(x) <==> !q(x) {
        assert x in s;
      }
      FilterComplementLengths(p, q, s[1..]);
    }
  }

  /** `s.map(f).filter(x => x !== null)`, with `null` as `None`: the results
      of `f` that are not `null`, in the order of `s`. */
  function MapNonNull<T, U>(f: T -> Option<U>, s: seq<T>): (r: seq<U>)
    ensures |r| <= |s|
  {
    if s == [] then []
    else (match f(s[0]) case Some(u) => [u] case None => []) + MapNonNull(f, s[1..])
  }

  /** Mapping and dropping `null`s distributes over concatenation. */
  lemma {:induction false} MapNonNullAppend<T, U>(f: T -> Option<U>, a: seq<T>, b: seq<T>)
    ensures MapNonNull(f, a + b) == MapNonNull(f, a) + MapNonNull(f, b)
  {
    if a == [] {
      assert a + b == b;
    } else {
      assert (a + b)[0] == a[0] && (a + b)[1..] == a[1..] + b;
      MapNonNullAppend(f, a[1..], b);
    }
  }

  /** A single item is dropped exactly when `f` maps it to `null`. */
  lemma MapNonNullSingleton<T, U>(f: T -> Option<U>, x: T)
    ensures MapNonNull(f, [x]) == (match f(x) case Some(u) => [u] case None => [])
  {
    assert [x][1..] == [];
  }
}
