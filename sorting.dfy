/**
 * Python's `sorted(xs, key=...)` and `list.sort(key=..., reverse=...)`: a stable sort.
 * It is modelled as an insertion sort over a comparison `le` ("is not after"); for a
 * key-based sort `le` compares keys, and `reverse=True` compares negated keys (Python's
 * reverse sort keeps equal elements in their original order, exactly like a stable sort
 * on the negated key).
 */
module Sorting {

  /** `le` is total and transitive: what Python's `<` on keys gives a sort. */
  ghost predicate TotalPreorder<T(!new)>(le: (T, T) -> bool) {
    && (forall x, y :: le(x, y) || le(y, x))
    && (forall x, y, z :: le(x, y) && le(y, z) ==> le(x, z))
  }

  predicate SortedBy<T>(s: seq<T>, le: (T, T) -> bool) {
    forall i, j :: 0 <= i < j < |s| ==> le(s[i], s[j])
  }

  /** Inserts `x` after every element that is not after it (keeps the sort stable). */
  function Insert<T>(x: T, s: seq<T>, le: (T, T) -> bool): (r: seq<T>)
    ensures |r| == |s| + 1
    ensures multiset(r) == multiset(s) + multiset{x}
  {
    if s == [] then [x]
    else if le(s[0], x) then
      assert s == [s[0]] + s[1..];
      [s[0]] + Insert(x, s[1..], le)
    else [x] + s
  }

  /** The stable sort: sorts the prefix, then inserts the last element. */
  function SortBy<T>(s: seq<T>, le: (T, T) -> bool): (r: seq<T>)
    ensures |r| == |s|
    ensures multiset(r) == multiset(s)
  {
    if s == [] then []
    else
      assert s == s[..|s| - 1] + [s[|s| - 1]];
      Insert(s[|s| - 1], SortBy(s[..|s| - 1], le), le)
  }

  lemma {:induction false} InsertSorted<T(!new)>(x: T, s: seq<T>, le: (T, T) -> bool)
    requires TotalPreorder(le)
    requires SortedBy(s, le)
    ensures SortedBy(Insert(x, s, le), le)
  {
    if s != [] {
      var a, t := s[0], s[1..];
      assert SortedBy(t, le);
      if le(a, x) {
        InsertSorted(x, t, le);
        var r' := Insert(x, t, le);
        forall e | e in r' ensures le(a, e) {
          assert e in multiset(r');
          assert e == x || e in multiset(t);
          if e != x {
            var k :| 0 <= k < |t| && t[k] == e;
            assert s[k + 1] == e;
          }
        }
        var r := [a] + r';
        forall i, j | 0 <= i < j < |r| ensures le(r[i], r[j]) {
          if i > 0 {
            assert r[i] == r'[i - 1] && r[j] == r'[j - 1];
          } else {
            assert r[j] == r'[j - 1] && r'[j - 1] in r';
          }
        }
      } else {
        assert le(x, a);
        var r := [x] + s;
        forall i, j | 0 <= i < j < |r| ensures le(r[i], r[j]) {
          if i > 0 {
            assert r[i] == s[i - 1] && r[j] == s[j - 1];
          } else if j > 1 {
            assert r[j] == s[j - 1] && le(a, s[j - 1]);
          }
        }
      }
    }
  }

  /** The result of SortBy is ordered by `le`; with the multiset ensures of SortBy,
      it is a sorted permutation of its input. */
  lemma {:induction false} SortBySorted<T(!new)>(s: seq<T>, le: (T, T) -> bool)
    requires TotalPreorder(le)
    ensures SortedBy(SortBy(s, le), le)
  {
    if s != [] {
      SortBySorted(s[..|s| - 1], le);
      InsertSorted(s[|s| - 1], SortBy(s[..|s| - 1], le), le);
    }
  }

  /** Comparison of reals in ascending order. */
  function RealLe(a: real, b: real): bool { a <= b }

  lemma RealLeTotalPreorder()
    ensures TotalPreorder(RealLe)
  {
  }
}
