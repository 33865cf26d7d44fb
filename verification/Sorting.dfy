/** Sorting by a strict order, and why a strictly sorted list is determined by what it contains. */
module Sorting {

  ghost predicate StrictOrder<T(!new)>(less: (T, T) -> bool) {
    && (forall a :: !less(a, a))
    && (forall a, b, c :: less(a, b) && less(b, c) ==> less(a, c))
  }

  // Any two different elements are ordered, and none occurs twice.
  ghost predicate Separates<T>(less: (T, T) -> bool, s: seq<T>) {
    forall i, j :: 0 <= i < j < |s| ==> less(s[i], s[j]) || less(s[j], s[i])
  }

  ghost predicate Sorted<T>(less: (T, T) -> bool, s: seq<T>) {
    forall i, j :: 0 <= i < j < |s| ==> less(s[i], s[j])
  }

  function Insert<T>(less: (T, T) -> bool, x: T, s: seq<T>): seq<T> {
    if s == [] || less(x, s[0]) then [x] + s else [s[0]] + Insert(less, x, s[1..])
  }

  function Sort<T>(less: (T, T) -> bool, s: seq<T>): seq<T> {
    if s == [] then [] else Insert(less, s[0], Sort(less, s[1..]))
  }

  lemma {:induction false} InsertSorts<T(!new)>(less: (T, T) -> bool, x: T, s: seq<T>)
    requires StrictOrder(less) && Sorted(less, s) && (forall y :: y in s ==> less(x, y) || less(y, x))
    ensures Sorted(less, Insert(less, x, s))
    ensures forall y :: y in Insert(less, x, s) <==> y == x || y in s
    ensures |Insert(less, x, s)| == |s| + 1
  {
    if s == [] || less(x, s[0]) {
      assert forall y :: y in [x] + s <==> y == x || y in s;
    } else {
      var rest := s[1..];
      assert s == [s[0]] + rest;
      InsertSorts(less, x, rest);
      var inserted := Insert(less, x, rest);
      forall j | 0 <= j < |inserted| ensures less(s[0], inserted[j]) {
        assert inserted[j] in inserted;
        if inserted[j] != x {
          var k :| 0 <= k < |rest| && rest[k] == inserted[j];
          assert s[k + 1] == rest[k];
        }
      }
    }
  }

  lemma {:induction false} SortSorts<T(!new)>(less: (T, T) -> bool, s: seq<T>)
    requires StrictOrder(less) && Separates(less, s)
    ensures Sorted(less, Sort(less, s))
    ensures forall y :: y in Sort(less, s) <==> y in s
    ensures |Sort(less, s)| == |s|
  {
    if s != [] {
      var rest := s[1..];
      assert s == [s[0]] + rest;
      SortSorts(less, rest);
      forall y | y in Sort(less, rest) ensures less(s[0], y) || less(y, s[0]) {
        var k :| 0 <= k < |rest| && rest[k] == y;
        assert s[k + 1] == y;
      }
      InsertSorts(less, s[0], Sort(less, rest));
    }
  }

  // Two strictly sorted lists with the same elements are the same list.
  lemma {:induction false} SortedIsUnique<T(!new)>(less: (T, T) -> bool, a: seq<T>, b: seq<T>)
    requires StrictOrder(less) && Sorted(less, a) && Sorted(less, b)
    requires forall y :: y in a <==> y in b
    ensures a == b
  {
    assert a != [] ==> a[0] in a;
    assert b != [] ==> b[0] in b;
    if a != [] {
      SameLeast(less, a, b);
      assert forall y :: y in a[1..] <==> y in a && y != a[0] by { TailHasTheRest(less, a); }
      assert forall y :: y in b[1..] <==> y in b && y != b[0] by { TailHasTheRest(less, b); }
      SortedIsUnique(less, a[1..], b[1..]);
      assert a == [a[0]] + a[1..] && b == [b[0]] + b[1..];
    }
  }

  lemma FirstIsLeast<T(!new)>(less: (T, T) -> bool, s: seq<T>, x: T)
    requires Sorted(less, s) && x in s
    ensures x == s[0] || less(s[0], x)
  {
    var i :| 0 <= i < |s| && s[i] == x;
  }

  lemma SameLeast<T(!new)>(less: (T, T) -> bool, a: seq<T>, b: seq<T>)
    requires StrictOrder(less) && Sorted(less, a) && Sorted(less, b) && a != [] && b != []
    requires forall y :: y in a <==> y in b
    ensures a[0] == b[0]
  {
    assert a[0] in a && b[0] in b;
    FirstIsLeast(less, a, b[0]);
    FirstIsLeast(less, b, a[0]);
  }

  lemma TailHasTheRest<T(!new)>(less: (T, T) -> bool, s: seq<T>)
    requires StrictOrder(less) && Sorted(less, s) && s != []
    ensures forall y :: y in s[1..] <==> y in s && y != s[0]
  {
    assert s == [s[0]] + s[1..];
    forall k | 0 <= k < |s[1..]| ensures s[1..][k] != s[0] {
      assert less(s[0], s[k + 1]);
    }
  }
}
