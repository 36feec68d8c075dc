/** Ordering of query results and client-side lists: a stable insertion sort
    parameterised by a comparator, and the code-point order on strings that
    stands for `ORDER BY` on text columns and for JavaScript's `<` on strings. */
module Sorting {

  /** `le` relates every pair in at least one direction. */
  ghost predicate Total<T(!new)>(le: (T, T) -> bool)
  {
    forall a, b :: le(a, b) || le(b, a)
  }

  ghost predicate Transitive<T(!new)>(le: (T, T) -> bool)
  {
    forall a, b, c :: le(a, b) && le(b, c) ==> le(a, c)
  }

  /** Neighbouring elements are in order. */
  ghost predicate Sorted<T>(s: seq<T>, le: (T, T) -> bool)
  {
    forall i :: 0 <= i < |s| - 1 ==> le(s[i], s[i + 1])
  }

  /** Inserts `x` before the first element it is `le` to. */
  function Insert<T(!new)>(x: T, s: seq<T>, le: (T, T) -> bool): (r: seq<T>)
    ensures multiset(r) == multiset(s) + multiset{x}
    ensures |r| == |s| + 1
    ensures r[0] == x || (|s| > 0 && r[0] == s[0])
    ensures Total(le) && Sorted(s, le) ==> Sorted(r, le)
  {
    if s == [] || le(x, s[0]) then [x] + s
    else
      assert s == [s[0]] + s[1..];
      [s[0]] + Insert(x, s[1..], le)
  }

  /** Insertion sort: the result is ordered and a permutation of the input. */
  function SortBy<T(!new)>(s: seq<T>, le: (T, T) -> bool): (r: seq<T>)
    requires Total(le)
    ensures Sorted(r, le)
    ensures multiset(r) == multiset(s)
    ensures |r| == |s|
  {
    if s == [] then []
    else
      assert s == [s[0]] + s[1..];
      Insert(s[0], SortBy(s[1..], le), le)
  }

  /** With a transitive comparator, neighbour order gives order of every pair. */
  lemma {:induction false} SortedPairwise<T(!new)>(s: seq<T>, le: (T, T) -> bool, i: int, j: int)
    requires Transitive(le) && Sorted(s, le)
    requires 0 <= i < j < |s|
    ensures le(s[i], s[j])
    decreases j - i
  {
    if j > i + 1 {
      SortedPairwise(s, le, i + 1, j);
    }
  }

  /** Code-point lexicographic order on strings. */
  predicate StrLe(a: string, b: string)
  {
    if a == [] then true
    else if b == [] then false
    else if a[0] != b[0] then a[0] < b[0]
    else StrLe(a[1..], b[1..])
  }

  lemma {:induction false} StrLeTotal(a: string, b: string)
    ensures StrLe(a, b) || StrLe(b, a)
  {
    if a != [] && b != [] && a[0] == b[0] {
      StrLeTotal(a[1..], b[1..]);
    }
  }

  lemma {:induction false} StrLeTransitive(a: string, b: string, c: string)
    requires StrLe(a, b) && StrLe(b, c)
    ensures StrLe(a, c)
  {
    if a != [] && b != [] && c != [] && a[0] == b[0] && b[0] == c[0] {
      StrLeTransitive(a[1..], b[1..], c[1..]);
    }
  }

  lemma {:induction false} StrLeAntisymmetric(a: string, b: string)
    requires StrLe(a, b) && StrLe(b, a)
    ensures a == b
  {
    if a != [] && b != [] {
      StrLeAntisymmetric(a[1..], b[1..]);
      assert a == [a[0]] + a[1..] && b == [b[0]] + b[1..];
    }
  }

  /** Strict string order, the `<` of the comparators. */
  predicate StrLt(a: string, b: string)
  {
    StrLe(a, b) && a != b
  }

  /** Order by a text key, then by an integer key: `ORDER BY name, id`. */
  predicate TextThenInt(a1: string, a2: int, b1: string, b2: int)
  {
    StrLt(a1, b1) || (a1 == b1 && a2 <= b2)
  }

  lemma TextThenIntTotal(a1: string, a2: int, b1: string, b2: int)
    ensures TextThenInt(a1, a2, b1, b2) || TextThenInt(b1, b2, a1, a2)
  {
    StrLeTotal(a1, b1);
  }

  lemma TextThenIntTransitive(a1: string, a2: int, b1: string, b2: int, c1: string, c2: int)
    requires TextThenInt(a1, a2, b1, b2) && TextThenInt(b1, b2, c1, c2)
    ensures TextThenInt(a1, a2, c1, c2)
  {
    if StrLt(a1, b1) && StrLt(b1, c1) {
      StrLeTransitive(a1, b1, c1);
      if a1 == c1 {
        StrLeAntisymmetric(a1, b1);
      }
    }
  }

  /** Order by two text keys: `ORDER BY nombre, apellido`. */
  predicate TextThenText(a1: string, a2: string, b1: string, b2: string)
  {
    StrLt(a1, b1) || (a1 == b1 && StrLe(a2, b2))
  }

  lemma TextThenTextTotal(a1: string, a2: string, b1: string, b2: string)
    ensures TextThenText(a1, a2, b1, b2) || TextThenText(b1, b2, a1, a2)
  {
    StrLeTotal(a1, b1);
    StrLeTotal(a2, b2);
  }

  /** The first element of a sorted copy is `le`-below every element of the
      original: what `orderBy(...)->first()` returns. */
  lemma SortByHeadLeast<T(!new)>(s: seq<T>, le: (T, T) -> bool)
    requires Total(le) && Transitive(le) && |s| > 0
    ensures |SortBy(s, le)| == |s|
    ensures SortBy(s, le)[0] in multiset(s)
    ensures forall i :: 0 <= i < |s| ==> le(SortBy(s, le)[0], s[i])
  {
    var r := SortBy(s, le);
    assert r[0] in multiset(r);
    forall i | 0 <= i < |s|
      ensures le(r[0], s[i])
    {
      assert s[i] in multiset(r);
      var j :| 0 <= j < |r| && r[j] == s[i];
      if j > 0 {
        SortedPairwise(r, le, 0, j);
      }
    }
  }
}
