/**
 * Generic vocabulary shared by every module: optional values, counting and
 * summing over sequences, and the stable sort that both Python's `sorted`
 * and JavaScript's `Array.prototype.sort` perform.
 */
module Common {

  datatype Option<T> = None | Some(value: T)

  /** The first element of `s` that satisfies `p` (Python `next(..., None)`, JS `find`). */
  function Find<T>(s: seq<T>, p: T -> bool): (r: Option<T>)
    ensures r.None? <==> forall i :: 0 <= i < |s| ==> !p(s[i])
    ensures r.Some? ==> r.value in s && p(r.value)
    ensures r.Some? ==> exists i :: 0 <= i < |s| && s[i] == r.value && forall j :: 0 <= j < i ==> !p(s[j])
  {
    if s == [] then None else if p(s[0]) then Some(s[0]) else Find(s[1..], p)
  }

  /** The elements of `s` that satisfy `p`, in order (JS `filter`, a Python comprehension). */
  function Filter<T>(s: seq<T>, p: T -> bool): (r: seq<T>)
    ensures |r| <= |s|
    ensures forall i :: 0 <= i < |r| ==> r[i] in s && p(r[i])
    ensures forall i :: 0 <= i < |s| && p(s[i]) ==> s[i] in r
  {
    if s == [] then [] else (if p(s[0]) then [s[0]] else []) + Filter(s[1..], p)
  }

  /** How many elements of `s` satisfy `p`. */
  function Count<T>(s: seq<T>, p: T -> bool): (n: nat)
    ensures n <= |s|
  {
    if s == [] then 0 else (if p(s[0]) then 1 else 0) + Count(s[1..], p)
  }

  /** Nothing is counted exactly when no element satisfies `p`. */
  lemma {:induction false} CountCero<T>(s: seq<T>, p: T -> bool)
    ensures Count(s, p) == 0 <==> forall i :: 0 <= i < |s| ==> !p(s[i])
  {
    if s != [] {
      CountCero(s[1..], p);
      assert forall i :: 1 <= i < |s| ==> s[i] == s[1..][i - 1];
    }
  }

  lemma {:induction false} FilterCount<T>(s: seq<T>, p: T -> bool)
    ensures |Filter(s, p)| == Count(s, p)
  {
    if s != [] { FilterCount(s[1..], p); }
  }

  lemma {:induction false} CountAppend<T>(s: seq<T>, t: seq<T>, p: T -> bool)
    ensures Count(s + t, p) == Count(s, p) + Count(t, p)
  {
    if s == [] {
      assert s + t == t;
    } else {
      assert (s + t)[1..] == s[1..] + t;
      CountAppend(s[1..], t, p);
    }
  }

  lemma {:induction false} FilterAppend<T>(s: seq<T>, t: seq<T>, p: T -> bool)
    ensures Filter(s + t, p) == Filter(s, p) + Filter(t, p)
  {
    if s == [] {
      assert s + t == t;
    } else {
      assert (s + t)[1..] == s[1..] + t;
      FilterAppend(s[1..], t, p);
    }
  }

  /** Filtering keeps every copy of an element that passes and drops every copy of one that does not. */
  lemma {:induction false} FilterMultiset<T>(s: seq<T>, p: T -> bool, x: T)
    ensures multiset(Filter(s, p))[x] == if p(x) then multiset(s)[x] else 0
  {
    if s != [] {
      FilterMultiset(s[1..], p, x);
      assert s == [s[0]] + s[1..];
      assert Filter(s, p) == (if p(s[0]) then [s[0]] else []) + Filter(s[1..], p);
    }
  }

  /** A non-empty sequence is its front and its last element. */
  lemma Ultimo<T>(s: seq<T>)
    requires s != []
    ensures s == s[..|s| - 1] + [s[|s| - 1]]
  {
  }

  /** `g` applied to the consecutive pairs `s[0..2]`, `s[2..4]`, ... and concatenated; an odd last element is dropped. */
  function PorPares<T, U>(s: seq<T>, g: seq<T> -> seq<U>): seq<U>
    decreases |s|
  {
    if |s| < 2 then [] else g(s[..2]) + PorPares(s[2..], g)
  }

  /** The results of the pairs before `j` are `acc`; those from `j` on are still to come. */
  ghost predicate PorParesHasta<T, U>(s: seq<T>, g: seq<T> -> seq<U>, j: int, acc: seq<U>)
  {
    0 <= j <= |s| && acc + PorPares(s[j..], g) == PorPares(s, g)
  }

  lemma PorParesAvanza<T, U>(s: seq<T>, g: seq<T> -> seq<U>, j: int, acc: seq<U>)
    requires PorParesHasta(s, g, j, acc) && j < |s| - 1
    ensures PorParesHasta(s, g, j + 2, acc + g(s[j..j + 2]))
  {
    var resto := s[j..];
    assert resto[..2] == s[j..j + 2];
    assert resto[2..] == s[j + 2..];
    assert acc + (g(s[j..j + 2]) + PorPares(s[j + 2..], g)) == (acc + g(s[j..j + 2])) + PorPares(s[j + 2..], g);
  }

  lemma PorParesFin<T, U>(s: seq<T>, g: seq<T> -> seq<U>, j: int, acc: seq<U>)
    requires PorParesHasta(s, g, j, acc) && j >= |s| - 1
    ensures acc == PorPares(s, g)
  {
    assert PorPares(s[j..], g) == [];
    assert acc + [] == acc;
  }

  /** The filter of a prefix one element longer. */
  lemma FilterSnoc<T>(s: seq<T>, i: int, p: T -> bool)
    requires 0 <= i < |s|
    ensures Filter(s[..i + 1], p) == Filter(s[..i], p) + (if p(s[i]) then [s[i]] else [])
  {
    assert s[..i + 1] == s[..i] + [s[i]];
    FilterAppend(s[..i], [s[i]], p);
    assert [s[i]][1..] == [];
  }

  /** The count over a prefix one element longer. */
  /** The first `i` elements satisfy `p`. */
  predicate TodosHasta<T>(s: seq<T>, p: T -> bool, i: int)
    requires 0 <= i <= |s|
  {
    forall k :: 0 <= k < i ==> p(s[k])
  }

  lemma TodosHastaPaso<T>(s: seq<T>, p: T -> bool, i: int)
    requires 0 <= i < |s| && TodosHasta(s, p, i) && p(s[i])
    ensures TodosHasta(s, p, i + 1)
  {
  }

  lemma CountSnoc<T>(s: seq<T>, i: int, p: T -> bool)
    requires 0 <= i < |s|
    ensures Count(s[..i + 1], p) == Count(s[..i], p) + (if p(s[i]) then 1 else 0)
  {
    assert s[..i + 1] == s[..i] + [s[i]];
    CountAppend(s[..i], [s[i]], p);
  }

  /** A prefix counts no more than the whole sequence. */
  lemma CountPrefix<T>(s: seq<T>, k: int, p: T -> bool)
    requires 0 <= k <= |s|
    ensures Count(s[..k], p) <= Count(s, p)
  {
    assert s[..k] + s[k..] == s;
    CountMonotone(s[..k], s[k..], p);
  }

  /** Counting under a predicate that splits into two disjoint ones. */
  lemma {:induction false} CountDisjoint<T>(s: seq<T>, r: T -> bool, p: T -> bool, q: T -> bool)
    requires forall x :: r(x) == (p(x) || q(x))
    requires forall x :: !(p(x) && q(x))
    ensures Count(s, r) == Count(s, p) + Count(s, q)
  {
    if s != [] {
      CountDisjoint(s[1..], r, p, q);
    }
  }

  /** A filter by a weaker test first does not change a filter by a stronger one. */
  lemma {:induction false} FilterNarrow<T>(s: seq<T>, q: T -> bool, p: T -> bool)
    requires forall x :: p(x) ==> q(x)
    ensures Filter(Filter(s, q), p) == Filter(s, p)
  {
    if s != [] {
      FilterNarrow(s[1..], q, p);
      var cabeza := if q(s[0]) then [s[0]] else [];
      FilterAppend(cabeza, Filter(s[1..], q), p);
    }
  }

  /** Appending elements never lowers a count: the reason count thresholds are monotone. */
  lemma CountMonotone<T>(s: seq<T>, t: seq<T>, p: T -> bool)
    ensures Count(s, p) <= Count(s + t, p)
  {
    CountAppend(s, t, p);
  }

  /** A test every element passes counts them all. */
  lemma {:induction false} CountTodos<T>(s: seq<T>, p: T -> bool)
    requires forall i :: 0 <= i < |s| ==> p(s[i])
    ensures Count(s, p) == |s|
  {
    if s != [] {
      assert forall i :: 1 <= i < |s| ==> s[1..][i - 1] == s[i];
      CountTodos(s[1..], p);
    }
  }

  /** Two filters in a row are one filter by both tests. */
  lemma {:induction false} FilterFilter<T>(s: seq<T>, q: T -> bool, p: T -> bool, qp: T -> bool)
    requires forall x :: qp(x) == (q(x) && p(x))
    ensures Filter(Filter(s, q), p) == Filter(s, qp)
  {
    if s != [] {
      FilterFilter(s[1..], q, p, qp);
      var cabeza := if q(s[0]) then [s[0]] else [];
      FilterAppend(cabeza, Filter(s[1..], q), p);
    }
  }

  /** A weaker test counts at least as many elements. */
  lemma {:induction false} CountWeaken<T>(s: seq<T>, p: T -> bool, q: T -> bool)
    requires forall x :: p(x) ==> q(x)
    ensures Count(s, p) <= Count(s, q)
  {
    if s != [] {
      CountWeaken(s[1..], p, q);
    }
  }

  /** Filtering first never raises a count. */
  lemma {:induction false} CountFilter<T>(s: seq<T>, q: T -> bool, p: T -> bool)
    ensures Count(Filter(s, q), p) <= Count(s, p)
  {
    if s != [] {
      CountFilter(s[1..], q, p);
      var cabeza := if q(s[0]) then [s[0]] else [];
      CountAppend(cabeza, Filter(s[1..], q), p);
      assert Count(cabeza, p) == (if q(s[0]) && p(s[0]) then 1 else 0);
    }
  }

  /** A count depends only on the multiset of elements: sorting keeps every count. */
  lemma {:induction false} CountMultiset<T>(a: seq<T>, b: seq<T>, p: T -> bool)
    requires multiset(a) == multiset(b)
    ensures Count(a, p) == Count(b, p)
    decreases |a|
  {
    if a == [] {
      assert |multiset(b)| == 0;
    } else {
      var j := Ubicar(a, b);
      MultisetCabeza(a);
      MultisetQuitar(b, j);
      CountMultiset(a[1..], b[..j] + b[j + 1..], p);
      CountQuitar(b, j, p);
    }
  }

  /** A sum depends only on the multiset of terms: sorting keeps every sum. */
  lemma {:induction false} SumRealMultiset<T>(a: seq<T>, b: seq<T>, f: T -> real)
    requires multiset(a) == multiset(b)
    ensures SumReal(a, f) == SumReal(b, f)
    decreases |a|
  {
    if a == [] {
      assert |multiset(b)| == 0;
    } else {
      var j := Ubicar(a, b);
      MultisetCabeza(a);
      MultisetQuitar(b, j);
      SumRealMultiset(a[1..], b[..j] + b[j + 1..], f);
      SumRealQuitar(b, j, f);
    }
  }

  /** Where the first element of `a` sits in a permutation `b` of it. */
  lemma Ubicar<T>(a: seq<T>, b: seq<T>) returns (j: int)
    requires a != [] && multiset(a) == multiset(b)
    ensures 0 <= j < |b| && b[j] == a[0]
  {
    assert a[0] in multiset(b);
    j :| 0 <= j < |b| && b[j] == a[0];
  }

  lemma MultisetCabeza<T>(a: seq<T>)
    requires a != []
    ensures multiset(a[1..]) == multiset(a) - multiset{a[0]}
  {
    assert a == [a[0]] + a[1..];
  }

  lemma MultisetQuitar<T>(b: seq<T>, j: int)
    requires 0 <= j < |b|
    ensures multiset(b[..j] + b[j + 1..]) == multiset(b) - multiset{b[j]}
  {
    assert b == b[..j] + [b[j]] + b[j + 1..];
  }

  lemma CountQuitar<T>(b: seq<T>, j: int, p: T -> bool)
    requires 0 <= j < |b|
    ensures Count(b, p) == Count(b[..j] + b[j + 1..], p) + (if p(b[j]) then 1 else 0)
  {
    var l, t, r := b[..j], b[j..], b[j + 1..];
    assert l + t == b;
    assert t[1..] == r;
    CountAppend(l, t, p);
    CountAppend(l, r, p);
  }

  lemma SumRealQuitar<T>(b: seq<T>, j: int, f: T -> real)
    requires 0 <= j < |b|
    ensures SumReal(b, f) == SumReal(b[..j] + b[j + 1..], f) + f(b[j])
  {
    assert b == b[..j] + [b[j]] + b[j + 1..];
    SumRealAppend(b[..j] + [b[j]], b[j + 1..], f);
    SumRealSnoc(b[..j], b[j], f);
    SumRealAppend(b[..j], b[j + 1..], f);
  }

  /** `{f(x) for x in s if p(x)}`: the set of images of the selected elements. */
  function Imagen<T, U>(s: seq<T>, p: T -> bool, f: T -> U): set<U>
  {
    set i | 0 <= i < |s| && p(s[i]) :: f(s[i])
  }

  /** A set built from the selected elements has at most as many members as there are selected elements. */
  lemma {:induction false} ImagenAcotada<T, U>(s: seq<T>, p: T -> bool, f: T -> U)
    ensures |Imagen(s, p, f)| <= Count(s, p)
  {
    if s != [] {
      ImagenAcotada(s[1..], p, f);
      var resto := Imagen(s[1..], p, f);
      var cabeza: set<U> := if p(s[0]) then {f(s[0])} else {};
      assert Imagen(s, p, f) <= resto + cabeza by {
        forall x | x in Imagen(s, p, f)
          ensures x in resto + cabeza
        {
          var i :| 0 <= i < |s| && p(s[i]) && f(s[i]) == x;
          if i > 0 {
            assert s[1..][i - 1] == s[i];
          }
        }
      }
      assert resto + cabeza == (resto + cabeza - Imagen(s, p, f)) + Imagen(s, p, f);
    }
  }

  /** Sum of `f` over `s` (Python `sum(...)`, JS `reduce((a, x) => a + f(x), 0)`). */
  function SumReal<T>(s: seq<T>, f: T -> real): real
  {
    if s == [] then 0.0 else f(s[0]) + SumReal(s[1..], f)
  }

  function SumInt<T>(s: seq<T>, f: T -> int): int
  {
    if s == [] then 0 else f(s[0]) + SumInt(s[1..], f)
  }

  lemma {:induction false} SumRealAppend<T>(s: seq<T>, t: seq<T>, f: T -> real)
    ensures SumReal(s + t, f) == SumReal(s, f) + SumReal(t, f)
  {
    if s == [] {
      assert s + t == t;
    } else {
      assert (s + t)[1..] == s[1..] + t;
      SumRealAppend(s[1..], t, f);
    }
  }

  lemma {:induction false} SumIntAppend<T>(s: seq<T>, t: seq<T>, f: T -> int)
    ensures SumInt(s + t, f) == SumInt(s, f) + SumInt(t, f)
  {
    if s == [] {
      assert s + t == t;
    } else {
      assert (s + t)[1..] == s[1..] + t;
      SumIntAppend(s[1..], t, f);
    }
  }

  /** The sum after appending one element. */
  lemma SumRealSnoc<T>(s: seq<T>, x: T, f: T -> real)
    ensures SumReal(s + [x], f) == SumReal(s, f) + f(x)
  {
    SumRealAppend(s, [x], f);
    assert SumReal([x], f) == f(x) + SumReal([x][1..], f);
  }

  /** The sum over a prefix one element longer. */
  lemma SumIntSnoc<T>(s: seq<T>, k: int, f: T -> int)
    requires 0 < k <= |s|
    ensures SumInt(s[..k], f) == SumInt(s[..k - 1], f) + f(s[k - 1])
  {
    assert s[..k] == s[..k - 1] + [s[k - 1]];
    SumIntAppend(s[..k - 1], [s[k - 1]], f);
    assert SumInt([s[k - 1]], f) == f(s[k - 1]) + SumInt([s[k - 1]][1..], f);
  }

  /** Each term at least `lo` makes the sum at least `lo` times the length. */
  lemma {:induction false} SumRealLowerBound<T>(s: seq<T>, f: T -> real, lo: real)
    requires forall i :: 0 <= i < |s| ==> f(s[i]) >= lo
    ensures SumReal(s, f) >= lo * |s| as real
  {
    if s != [] {
      SumRealLowerBound(s[1..], f, lo);
    }
  }

  lemma {:induction false} SumRealUpperBound<T>(s: seq<T>, f: T -> real, hi: real)
    requires forall i :: 0 <= i < |s| ==> f(s[i]) <= hi
    ensures SumReal(s, f) <= hi * |s| as real
  {
    if s != [] {
      SumRealUpperBound(s[1..], f, hi);
    }
  }

  /** A quotient by a positive count lies between the bounds its dividend was scaled by. */
  lemma DivBounds(sum: real, n: real, lo: real, hi: real)
    requires n > 0.0
    requires lo * n <= sum <= hi * n
    ensures lo <= sum / n <= hi
  {
    assert sum / n * n == sum;
  }

  /** The number `|s|` of elements as a real, for averages. */
  function Len<T>(s: seq<T>): real { |s| as real }

  /** The mean of `f` over `s`, or `None` on an empty sequence (the source's `if not xs` guards). */
  function Mean<T>(s: seq<T>, f: T -> real): (r: Option<real>)
    ensures r.None? <==> s == []
  {
    if s == [] then None else Some(SumReal(s, f) / Len(s))
  }

  /** `Mean(s) >= k` iff the sum reaches `k` times the count: thresholds on averages in exact form. */
  lemma MeanAtLeast<T>(s: seq<T>, f: T -> real, k: real)
    requires s != []
    ensures Mean(s, f).value >= k <==> SumReal(s, f) >= k * Len(s)
  {
    var n := Len(s);
    var sum := SumReal(s, f);
    assert n > 0.0;
    assert sum / n * n == sum;
    if sum / n >= k {
      assert sum == sum / n * n >= k * n;
    }
  }

  /** A mean lies between the smallest and the largest term. */
  lemma MeanBounds<T>(s: seq<T>, f: T -> real, lo: real, hi: real)
    requires s != []
    requires forall i :: 0 <= i < |s| ==> lo <= f(s[i]) <= hi
    ensures lo <= Mean(s, f).value <= hi
  {
    SumRealLowerBound(s, f, lo);
    SumRealUpperBound(s, f, hi);
    DivBounds(SumReal(s, f), Len(s), lo, hi);
  }

  // ----- Stable insertion sort -----

  /** `le` is a total preorder: the comparisons of Python `sorted(key=..)` and of a JS comparator. */
  ghost predicate TotalPreorder<T(!new)>(le: (T, T) -> bool)
  {
    (forall a, b :: le(a, b) || le(b, a)) &&
    (forall a, b, c :: le(a, b) && le(b, c) ==> le(a, c))
  }

  /** Adjacent elements are in `le` order. */
  ghost predicate SortedBy<T>(s: seq<T>, le: (T, T) -> bool)
  {
    forall i :: 0 < i < |s| ==> le(s[i - 1], s[i])
  }

  /** Put `x` in front of the first element that it does not follow. */
  function Insert<T>(x: T, s: seq<T>, le: (T, T) -> bool): (r: seq<T>)
    ensures |r| == |s| + 1
    ensures multiset(r) == multiset(s) + multiset{x}
    ensures r[0] == x || (s != [] && r[0] == s[0])
  {
    if s == [] then [x]
    else if le(x, s[0]) then [x] + s
    else
      assert s == [s[0]] + s[1..];
      [s[0]] + Insert(x, s[1..], le)
  }

  /**
   * Stable sort: an element is placed before every later element it does not
   * follow, so elements with equal keys keep their input order, as Timsort
   * and the ECMAScript 2019 `sort` both guarantee.
   */
  function SortBy<T>(s: seq<T>, le: (T, T) -> bool): (r: seq<T>)
    ensures |r| == |s|
    ensures multiset(r) == multiset(s)
  {
    if s == [] then []
    else
      assert s == [s[0]] + s[1..];
      Insert(s[0], SortBy(s[1..], le), le)
  }

  lemma {:induction false} InsertSorted<T(!new)>(x: T, s: seq<T>, le: (T, T) -> bool)
    requires TotalPreorder(le)
    requires SortedBy(s, le)
    ensures SortedBy(Insert(x, s, le), le)
  {
    if s != [] && !le(x, s[0]) {
      InsertSorted(x, s[1..], le);
      var t := Insert(x, s[1..], le);
      assert le(s[0], x);
      assert t[0] == x || t[0] == s[1];
    }
  }

  /** The sort's output is ordered and is a permutation of its input. */
  lemma {:induction false} SortBySorted<T(!new)>(s: seq<T>, le: (T, T) -> bool)
    requires TotalPreorder(le)
    ensures SortedBy(SortBy(s, le), le)
    ensures multiset(SortBy(s, le)) == multiset(s)
  {
    if s != [] {
      SortBySorted(s[1..], le);
      InsertSorted(s[0], SortBy(s[1..], le), le);
    }
  }

  /** Input already in order is returned unchanged, so date-sorted data can be taken as given. */
  lemma {:induction false} SortByIdentity<T>(s: seq<T>, le: (T, T) -> bool)
    requires SortedBy(s, le)
    ensures SortBy(s, le) == s
  {
    if s != [] {
      SortByIdentity(s[1..], le);
      if |s| > 1 {
        assert le(s[0], s[1]);
      }
    }
  }

  /** In a sorted sequence every element is related to every later one, not only to its successor. */
  lemma {:induction false} OrdenadoPares<T(!new)>(s: seq<T>, le: (T, T) -> bool, i: int, j: int)
    requires TotalPreorder(le) && SortedBy(s, le)
    requires 0 <= i <= j < |s|
    ensures le(s[i], s[j])
    decreases j - i
  {
    if i < j {
      OrdenadoPares(s, le, i, j - 1);
      assert le(s[j - 1], s[j]);
    } else {
      var a := s[i];
      assert le(a, a) || le(a, a);
    }
  }

  /** Filtering a sorted sequence leaves it sorted. */
  lemma {:induction false} FilterOrdenado<T(!new)>(s: seq<T>, le: (T, T) -> bool, p: T -> bool)
    requires TotalPreorder(le) && SortedBy(s, le)
    ensures SortedBy(Filter(s, p), le)
  {
    if s != [] {
      var t := s[1..];
      assert SortedBy(t, le) by {
        forall i | 0 < i < |t| ensures le(t[i - 1], t[i]) {
          assert t[i - 1] == s[i] && t[i] == s[i + 1];
        }
      }
      FilterOrdenado(t, le, p);
      var r := Filter(t, p);
      if p(s[0]) && r != [] {
        assert r[0] in t;
        var k :| 0 <= k < |t| && t[k] == r[0];
        OrdenadoPares(s, le, 0, k + 1);
        var f := [s[0]] + r;
        assert Filter(s, p) == f;
        forall i | 0 < i < |f| ensures le(f[i - 1], f[i]) {
          if i > 1 {
            assert f[i - 1] == r[i - 2] && f[i] == r[i - 1];
          }
        }
      }
    }
  }

  /** The largest and the smallest value of `f` over a non-empty sequence. */
  function MaxReal<T>(s: seq<T>, f: T -> real): (m: real)
    requires s != []
    ensures forall i :: 0 <= i < |s| ==> f(s[i]) <= m
    ensures exists i :: 0 <= i < |s| && f(s[i]) == m
  {
    if |s| == 1 then f(s[0])
    else
      var rest := MaxReal(s[1..], f);
      assert forall i :: 1 <= i < |s| ==> f(s[i]) == f(s[1..][i - 1]);
      if f(s[0]) >= rest then f(s[0]) else rest
  }

  function MinReal<T>(s: seq<T>, f: T -> real): (m: real)
    requires s != []
    ensures forall i :: 0 <= i < |s| ==> m <= f(s[i])
    ensures exists i :: 0 <= i < |s| && f(s[i]) == m
  {
    if |s| == 1 then f(s[0])
    else
      var rest := MinReal(s[1..], f);
      assert forall i :: 1 <= i < |s| ==> f(s[i]) == f(s[1..][i - 1]);
      if f(s[0]) <= rest then f(s[0]) else rest
  }

  /** Math.round for a non-negative argument: the nearest integer, halves rounded up. */
  function RoundHalfUp(x: real): (r: int)
    requires x >= 0.0
    ensures r >= 0
    ensures r as real - 0.5 <= x < r as real + 0.5
  {
    (x + 0.5).Floor
  }

  /** JS `Math.round` on any real: `floor(x + 0.5)`. */
  function MathRound(x: real): (r: int)
    ensures r as real - 0.5 <= x < r as real + 0.5
  {
    (x + 0.5).Floor
  }

  /** Python `int(x)` / JS `Math.trunc`: truncation toward zero. */
  function Trunc(x: real): (r: int)
    ensures x >= 0.0 ==> r as real <= x < r as real + 1.0
    ensures x < 0.0 ==> r as real - 1.0 < x <= r as real
  {
    if x >= 0.0 then x.Floor else -((-x).Floor)
  }

  /** The remainder of JavaScript's `%`: truncated division, so it takes the sign of `a`. */
  function JsRem(a: int, b: int): (r: int)
    requires b > 0
    ensures a >= 0 ==> r == a % b
    ensures -b < r < b
    ensures a < 0 ==> r <= 0 && -r == (-a) % b
  {
    if a >= 0 then a % b else -((-a) % b)
  }

  /** Adjacent repetitions collapsed to one element: for a sorted sequence, its distinct values. */
  function Dedup<T(==)>(s: seq<T>): (r: seq<T>)
    ensures |r| <= |s|
    ensures forall i :: 0 <= i < |r| ==> r[i] in s
    ensures forall i :: 0 <= i < |s| ==> s[i] in r
    ensures forall i :: 0 < i < |r| ==> r[i - 1] != r[i]
    ensures s != [] ==> r != [] && r[0] == s[0]
  {
    if |s| <= 1 then s
    else if s[0] == s[1] then Dedup(s[1..])
    else [s[0]] + Dedup(s[1..])
  }

  /** A sorted sequence without adjacent repetitions under an antisymmetric order is strictly increasing. */
  lemma {:induction false} DedupSorted<T>(s: seq<T>, le: (T, T) -> bool)
    requires SortedBy(s, le)
    ensures SortedBy(Dedup(s), le)
  {
    if |s| > 1 {
      DedupSorted(s[1..], le);
      if s[0] != s[1] {
        assert Dedup(s[1..])[0] == s[1];
      }
    }
  }

  /** No element occurs twice. */
  predicate SinRepetir<T(==)>(s: seq<T>)
  {
    forall i, j :: 0 <= i < j < |s| ==> s[i] != s[j]
  }

  /** `[...new Set(s)]`: the elements of `s` in order of first appearance, each once. */
  function Distintos<T(==)>(s: seq<T>): (r: seq<T>)
    ensures forall i :: 0 <= i < |r| ==> r[i] in s
    ensures forall i :: 0 <= i < |s| ==> s[i] in r
  {
    if s == [] then []
    else
      var ini := s[..|s| - 1];
      var p := Distintos(ini);
      assert forall i :: 0 <= i < |s| - 1 ==> s[i] == ini[i];
      if s[|s| - 1] in p then p else p + [s[|s| - 1]]
  }

  lemma {:induction false} DistintosSinRepetir<T>(s: seq<T>)
    ensures SinRepetir(Distintos(s))
  {
    if s != [] {
      DistintosSinRepetir(s[..|s| - 1]);
    }
  }

  /** An element of a sequence without repetitions occurs at most once. */
  lemma {:induction false} SinRepetirUno<T>(s: seq<T>, x: T)
    requires SinRepetir(s)
    ensures multiset(s)[x] <= 1
  {
    if s != [] {
      assert s == [s[0]] + s[1..];
      assert SinRepetir(s[1..]) by {
        forall i, j | 0 <= i < j < |s[1..]| ensures s[1..][i] != s[1..][j] {
          assert s[1..][i] == s[i + 1] && s[1..][j] == s[j + 1];
        }
      }
      SinRepetirUno(s[1..], x);
      if s[0] == x {
        assert x !in s[1..];
      }
    }
  }

  /** A permutation of a sequence without repetitions has none either. */
  lemma SinRepetirPermutacion<T>(a: seq<T>, b: seq<T>)
    requires multiset(a) == multiset(b) && SinRepetir(a)
    ensures SinRepetir(b)
  {
    forall i, j | 0 <= i < j < |b|
      ensures b[i] != b[j]
    {
      if b[i] == b[j] {
        var x := b[j];
        assert b == b[..j] + [x] + b[j + 1..];
        assert b[..j][i] == x;
        assert multiset(b[..j])[x] >= 1;
        assert multiset(b)[x] >= 2;
        SinRepetirUno(a, x);
        assert false;
      }
    }
  }

  /** The elements of `s` from last to first. */
  function Reverse<T>(s: seq<T>): (r: seq<T>)
    ensures |r| == |s| && forall i :: 0 <= i < |s| ==> r[i] == s[|s| - 1 - i]
  {
    seq(|s|, i requires 0 <= i < |s| => s[|s| - 1 - i])
  }

  /** Reversing a sorted copy keeps exactly the elements. */
  lemma MiembroReverseSort<T>(s: seq<T>, le: (T, T) -> bool, x: T)
    ensures x in Reverse(SortBy(s, le)) <==> x in s
  {
    var t := SortBy(s, le);
    MiembroReverse(t, x);
    assert x in t <==> x in multiset(t);
    assert x in s <==> x in multiset(s);
  }

  /** Reversing keeps exactly the elements. */
  lemma MiembroReverse<T>(t: seq<T>, x: T)
    ensures x in Reverse(t) <==> x in t
  {
    var o := Reverse(t);
    if x in t {
      var k :| 0 <= k < |t| && t[k] == x;
      assert o[|t| - 1 - k] == x;
    }
    if x in o {
      var k :| 0 <= k < |o| && o[k] == x;
      assert t[|t| - 1 - k] == x;
    }
  }

  lemma MiembroDistintos<T>(s: seq<T>, x: T)
    ensures x in Distintos(s) <==> x in s
  {
    if x in Distintos(s) {
      var k :| 0 <= k < |Distintos(s)| && Distintos(s)[k] == x;
    }
    if x in s {
      var k :| 0 <= k < |s| && s[k] == x;
    }
  }

  /** A sorted sequence read backwards is in descending order. */
  lemma ReverseDesciende<T>(s: seq<T>, le: (T, T) -> bool)
    requires SortedBy(s, le)
    ensures forall i :: 0 < i < |Reverse(s)| ==> le(Reverse(s)[i], Reverse(s)[i - 1])
  {
    var o := Reverse(s);
    forall i | 0 < i < |o|
      ensures le(o[i], o[i - 1])
    {
      assert o[i] == s[|s| - 1 - i] && o[i - 1] == s[|s| - i];
    }
  }

  lemma ReverseSinRepetir<T>(s: seq<T>)
    requires SinRepetir(s)
    ensures SinRepetir(Reverse(s))
  {
    var o := Reverse(s);
    forall i, j | 0 <= i < j < |o|
      ensures o[i] != o[j]
    {
      assert o[i] == s[|s| - 1 - i] && o[j] == s[|s| - 1 - j];
    }
  }
}
