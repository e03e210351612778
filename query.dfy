/** The pieces of the database queries the handlers issue: `where` filters and
    the `orderBy` clauses (a sort by an arbitrary comparison, descending
    timestamps, ascending names in code-point order). */
module Query {
  import opened Common

  /** `findMany({ where })`: the rows satisfying `p`, in table order. */
  function Filter<T(!new)>(s: seq<T>, p: T -> bool): (r: seq<T>)
    ensures forall x :: x in r <==> x in s && p(x)
    ensures forall i :: 0 <= i < |r| ==> p(r[i])
    ensures |r| <= |s|
  {
    if s == [] then []
    else if p(s[0]) then [s[0]] + Filter(s[1..], p)
    else Filter(s[1..], p)
  }

  /** The filter keeps every selected row as often as the table holds it. */
  lemma {:induction false} FilterSelects<T(!new)>(s: seq<T>, p: T -> bool)
    ensures Selects(Filter(s, p), s, p)
  {
    if s != [] {
      assert s == [s[0]] + s[1..];
      FilterSelects(s[1..], p);
    }
  }

  /** `r` holds exactly the rows of `s` that satisfy `p`, each as often as in `s`. */
  ghost predicate Selects<T(!new)>(r: seq<T>, s: seq<T>, p: T -> bool) {
    forall x :: multiset(r)[x] == if p(x) then multiset(s)[x] else 0
  }

  lemma SelectsSamePredicate<T(!new)>(r: seq<T>, s: seq<T>, p: T -> bool, q: T -> bool)
    requires Selects(r, s, p)
    requires forall x :: p(x) == q(x)
    ensures Selects(r, s, q)
  {
  }

  lemma SelectsMembership<T(!new)>(r: seq<T>, s: seq<T>, p: T -> bool)
    requires Selects(r, s, p)
    ensures forall x :: x in r <==> x in s && p(x)
  {
    forall x ensures x in r <==> x in s && p(x) {
      assert x in r <==> multiset(r)[x] > 0;
      assert x in s <==> multiset(s)[x] > 0;
    }
  }

  lemma SelectsPermutation<T(!new)>(r: seq<T>, r': seq<T>, s: seq<T>, p: T -> bool)
    requires Selects(r, s, p)
    requires multiset(r') == multiset(r)
    ensures Selects(r', s, p)
  {
  }

  /** The position of the first row satisfying `p`. */
  function IndexWhere<T>(s: seq<T>, p: T -> bool): (r: Option<nat>)
    ensures r.Some? ==> r.value < |s| && p(s[r.value])
    ensures r.Some? ==> forall i :: 0 <= i < r.value ==> !p(s[i])
    ensures r.None? ==> forall i :: 0 <= i < |s| ==> !p(s[i])
  {
    if s == [] then None
    else if p(s[0]) then Some(0)
    else match IndexWhere(s[1..], p)
      case None => None
      case Some(k) => Some(k + 1)
  }

  /** `findFirst({ where })` and `findUnique({ where })`: the first row satisfying `p`. */
  function First<T(!new)>(s: seq<T>, p: T -> bool): (r: Option<T>)
    ensures r.Some? ==> r.value in s && p(r.value)
    ensures r.None? <==> forall x :: x in s ==> !p(x)
  {
    if s == [] then None
    else if p(s[0]) then Some(s[0])
    else First(s[1..], p)
  }

  /** Appending a row leaves the first match where it was, if there was one. */
  lemma {:induction false} FirstAppend<T(!new)>(s: seq<T>, x: T, p: T -> bool)
    ensures First(s, p).Some? ==> First(s + [x], p) == First(s, p)
    ensures First(s, p).None? ==> First(s + [x], p) == (if p(x) then Some(x) else None)
  {
    if s != [] {
      assert (s + [x])[1..] == s[1..] + [x];
      FirstAppend(s[1..], x, p);
    }
  }

  /** Filtering distributes over appending one row. */
  lemma {:induction false} FilterAppend<T(!new)>(s: seq<T>, x: T, p: T -> bool)
    ensures Filter(s + [x], p) == Filter(s, p) + (if p(x) then [x] else [])
  {
    if s != [] {
      var t := s + [x];
      assert t[0] == s[0] && t[1..] == s[1..] + [x];
      FilterAppend(s[1..], x, p);
      assert Filter(t, p) == (if p(s[0]) then [s[0]] else []) + Filter(t[1..], p);
      assert Filter(s, p) == (if p(s[0]) then [s[0]] else []) + Filter(s[1..], p);
    }
  }

  /** Filtering by a predicate every element meets changes nothing. */
  lemma {:induction false} FilterKeepsAll<T(!new)>(s: seq<T>, p: T -> bool)
    requires forall i :: 0 <= i < |s| ==> p(s[i])
    ensures Filter(s, p) == s
  {
    if s != [] {
      FilterKeepsAll(s[1..], p);
    }
  }

  ghost predicate Total<T(!new)>(le: (T, T) -> bool) {
    forall a, b :: le(a, b) || le(b, a)
  }

  ghost predicate Transitive<T(!new)>(le: (T, T) -> bool) {
    forall a, b, c :: le(a, b) && le(b, c) ==> le(a, c)
  }

  /** Every element is ordered before its successor. */
  predicate AdjacentSorted<T>(s: seq<T>, le: (T, T) -> bool) {
    forall i :: 0 < i < |s| ==> le(s[i - 1], s[i])
  }

  /** Every element is ordered before every later element. */
  predicate Sorted<T>(s: seq<T>, le: (T, T) -> bool) {
    forall i, j :: 0 <= i < j < |s| ==> le(s[i], s[j])
  }

  function Insert<T(!new)>(x: T, s: seq<T>, le: (T, T) -> bool): (r: seq<T>)
    ensures multiset(r) == multiset(s) + multiset{x}
    ensures |r| == |s| + 1
    ensures r[0] == x || (|s| > 0 && r[0] == s[0])
    ensures Total(le) && AdjacentSorted(s, le) ==> AdjacentSorted(r, le)
  {
    if s == [] then [x]
    else if le(x, s[0]) then [x] + s
    else
      assert s == [s[0]] + s[1..];
      [s[0]] + Insert(x, s[1..], le)
  }

  /** Insertion sort: a permutation of `s`, ordered by `le` whenever `le` is total. */
  function Sort<T(!new)>(s: seq<T>, le: (T, T) -> bool): (r: seq<T>)
    ensures multiset(r) == multiset(s)
    ensures |r| == |s|
    ensures Total(le) ==> AdjacentSorted(r, le)
  {
    if s == [] then []
    else
      assert s == [s[0]] + s[1..];
      Insert(s[0], Sort(s[1..], le), le)
  }

  lemma {:induction false} AdjacentSortedIsSorted<T(!new)>(s: seq<T>, le: (T, T) -> bool)
    requires Transitive(le)
    requires AdjacentSorted(s, le)
    ensures Sorted(s, le)
  {
    if |s| > 1 {
      AdjacentSortedIsSorted(s[1..], le);
      forall j | 1 < j < |s| ensures le(s[0], s[j]) {
        assert le(s[0], s[1]) && le(s[1], s[j]);
      }
    }
  }

  /** `orderBy: { <time>: 'desc' }` */
  function NewestFirst<T(!new)>(s: seq<T>, time: T -> int): (r: seq<T>)
    ensures multiset(r) == multiset(s)
    ensures |r| == |s|
    ensures forall i, j :: 0 <= i < j < |r| ==> time(r[i]) >= time(r[j])
  {
    var le := (a: T, b: T) => time(a) >= time(b);
    var r := Sort(s, le);
    AdjacentSortedIsSorted(r, le);
    r
  }

  /** Lexicographic order on strings by character code. */
  predicate LexLe(a: string, b: string) {
    a == [] || (b != [] && (a[0] < b[0] || (a[0] == b[0] && LexLe(a[1..], b[1..]))))
  }

  lemma {:induction false} LexLeTotal(a: string, b: string)
    ensures LexLe(a, b) || LexLe(b, a)
  {
    if a != [] && b != [] && a[0] == b[0] {
      LexLeTotal(a[1..], b[1..]);
    }
  }

  lemma {:induction false} LexLeTransitive(a: string, b: string, c: string)
    requires LexLe(a, b) && LexLe(b, c)
    ensures LexLe(a, c)
  {
    if a != [] && b != [] && c != [] && a[0] == b[0] && b[0] == c[0] {
      LexLeTransitive(a[1..], b[1..], c[1..]);
    }
  }

  lemma {:induction false} LexLeAntisymmetric(a: string, b: string)
    requires LexLe(a, b) && LexLe(b, a)
    ensures a == b
  {
    if a != [] && b != [] {
      LexLeAntisymmetric(a[1..], b[1..]);
    }
  }

  /** `orderBy: { <name>: 'asc' }` */
  function ByNameAscending<T(!new)>(s: seq<T>, name: T -> string): (r: seq<T>)
    ensures multiset(r) == multiset(s)
    ensures |r| == |s|
    ensures forall i, j :: 0 <= i < j < |r| ==> LexLe(name(r[i]), name(r[j]))
  {
    var le := (a: T, b: T) => LexLe(name(a), name(b));
    forall a: T, b: T ensures le(a, b) || le(b, a) {
      LexLeTotal(name(a), name(b));
    }
    forall a: T, b: T, c: T | le(a, b) && le(b, c) ensures le(a, c) {
      LexLeTransitive(name(a), name(b), name(c));
    }
    var r := Sort(s, le);
    AdjacentSortedIsSorted(r, le);
    r
  }
}
