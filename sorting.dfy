/**
 * `Array.prototype.sort` with a comparator: the stable ascending order the
 * handlers and the hospital finder ask for. A comparator is modelled as the
 * "may come first" relation `le`; the sort needs it to be a total preorder.
 */
module Sorting {

  /** `le` is total and transitive: it orders every pair consistently. */
  ghost predicate TotalPreorder<T(!new)>(le: (T, T) -> bool) {
    && (forall x, y :: le(x, y) || le(y, x))
    && (forall x, y, z :: le(x, y) && le(y, z) ==> le(x, z))
  }

  /** Every element may come before every later one. */
  ghost predicate SortedBy<T>(s: seq<T>, le: (T, T) -> bool) {
    forall i, j :: 0 <= i < j < |s| ==> le(s[i], s[j])
  }

  /** Inserts `x` before the first element it may precede. */
  function Insert<T>(x: T, s: seq<T>, le: (T, T) -> bool): (r: seq<T>)
    ensures multiset(r) == multiset(s) + multiset{x}
    ensures |r| == |s| + 1
  {
    if s == [] then [x]
    else if le(x, s[0]) then [x] + s
    else
      assert s == [s[0]] + s[1..];
      [s[0]] + Insert(x, s[1..], le)
  }

  /** Stable insertion sort: the value the sorted array holds afterwards. */
  function InsertionSort<T>(s: seq<T>, le: (T, T) -> bool): (r: seq<T>)
    ensures multiset(r) == multiset(s)
    ensures |r| == |s|
  {
    if s == [] then []
    else
      assert s == [s[0]] + s[1..];
      Insert(s[0], InsertionSort(s[1..], le), le)
  }

  lemma {:induction false} InsertSorted<T(!new)>(x: T, s: seq<T>, le: (T, T) -> bool)
    requires TotalPreorder(le)
    requires SortedBy(s, le)
    ensures SortedBy(Insert(x, s, le), le)
    decreases |s|
  {
    if s != [] && !le(x, s[0]) {
      InsertSorted(x, s[1..], le);
      var r := Insert(x, s[1..], le);
      assert le(s[0], x);
      forall y | y in multiset(r) ensures le(s[0], y) {
        assert y in multiset(s[1..]) + multiset{x};
        if y in multiset(s[1..]) {
          var k :| 0 <= k < |s[1..]| && s[1..][k] == y;
          assert s[k + 1] == y;
        }
      }
      forall j | 0 <= j < |r| ensures le(s[0], r[j]) {
        assert r[j] in multiset(r);
      }
    }
  }

  /** The sort returns the input's elements, each as often, in the order `le` asks for. */
  lemma {:induction false} InsertionSortSorted<T(!new)>(s: seq<T>, le: (T, T) -> bool)
    requires TotalPreorder(le)
    ensures SortedBy(InsertionSort(s, le), le)
    ensures multiset(InsertionSort(s, le)) == multiset(s)
    decreases |s|
  {
    if s != [] {
      InsertionSortSorted(s[1..], le);
      InsertSorted(s[0], InsertionSort(s[1..], le), le);
    }
  }

  /** All pairs among the first `n` elements are in order, except those involving position `j`. */
  ghost predicate SortedExcept<T>(s: seq<T>, n: int, j: int, le: (T, T) -> bool)
    requires 0 <= n <= |s|
  {
    forall p, q :: 0 <= p < q < n && p != j && q != j ==> le(s[p], s[q])
  }

  /** The element at `j` may precede every element after it, up to `n`. */
  ghost predicate FirstOfRest<T>(s: seq<T>, n: int, j: int, le: (T, T) -> bool)
    requires 0 <= j < n <= |s|
  {
    forall q :: j < q < n ==> le(s[j], s[q])
  }

  /** Starting to insert element `i` into the sorted prefix before it. */
  lemma StartInsert<T>(s: seq<T>, i: int, le: (T, T) -> bool)
    requires 0 <= i < |s|
    requires SortedBy(s[..i], le)
    ensures SortedExcept(s, i + 1, i, le) && FirstOfRest(s, i + 1, i, le)
  {
    forall p, q | 0 <= p < q < i + 1 && p != i && q != i ensures le(s[p], s[q]) {
      assert s[p] == s[..i][p] && s[q] == s[..i][q];
    }
  }

  /** Swapping the inserted element one place left keeps both loop facts. */
  lemma SwapLeft<T(!new)>(s: seq<T>, t: seq<T>, n: int, j: int, le: (T, T) -> bool)
    requires TotalPreorder(le)
    requires 0 < j < n <= |s| == |t|
    requires SortedExcept(s, n, j, le) && FirstOfRest(s, n, j, le)
    requires !le(s[j - 1], s[j])
    requires t == s[j - 1 := s[j]][j := s[j - 1]]
    ensures SortedExcept(t, n, j - 1, le) && FirstOfRest(t, n, j - 1, le)
  {
    assert le(s[j], s[j - 1]);
    forall q | j - 1 < q < n ensures le(t[j - 1], t[q]) {
      if q > j {
        assert le(s[j - 1], s[q]);
      }
    }
  }

  /** When the inserted element has found its place, the first `n` elements are sorted. */
  lemma FinishInsert<T(!new)>(s: seq<T>, n: int, j: int, le: (T, T) -> bool)
    requires TotalPreorder(le)
    requires 0 <= j < n <= |s|
    requires SortedExcept(s, n, j, le) && FirstOfRest(s, n, j, le)
    requires j == 0 || le(s[j - 1], s[j])
    ensures SortedBy(s[..n], le)
  {
    forall p, q | 0 <= p < q < n ensures le(s[p], s[q]) {
      if q == j && p < j - 1 {
        assert le(s[p], s[j - 1]);
      }
    }
  }

  /**
   * The in-place form: the array ends sorted by `le` and holds the same
   * elements as before.
   */
  method SortInPlace<T(!new)>(a: array<T>, le: (T, T) -> bool)
    requires TotalPreorder(le)
    modifies a
    ensures SortedBy(a[..], le)
    ensures multiset(a[..]) == multiset(old(a[..]))
  {
    var i := 0;
    while i < a.Length
      invariant 0 <= i <= a.Length
      invariant SortedBy(a[..i], le)
      invariant multiset(a[..]) == multiset(old(a[..]))
    {
      StartInsert(a[..], i, le);
      var j := i;
      while j > 0 && !le(a[j - 1], a[j])
        invariant 0 <= j <= i
        invariant multiset(a[..]) == multiset(old(a[..]))
        invariant SortedExcept(a[..], i + 1, j, le) && FirstOfRest(a[..], i + 1, j, le)
      {
        ghost var before := a[..];
        a[j - 1], a[j] := a[j], a[j - 1];
        SwapLeft(before, a[..], i + 1, j, le);
        j := j - 1;
      }
      FinishInsert(a[..], i + 1, j, le);
      i := i + 1;
    }
    assert a[..a.Length] == a[..];
  }
}
