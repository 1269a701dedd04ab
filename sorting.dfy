/**
 * Sorting by a caller-given order, as done by `ORDER BY` in the database
 * and by `Array.prototype.sort` on a copy of a list in the browser.
 */
module Sorting {

  /** `le` relates every pair of values one way or the other. */
  ghost predicate Total<T(!new)>(le: (T, T) -> bool)
  {
    forall a, b :: le(a, b) || le(b, a)
  }

  predicate SortedBy<T>(s: seq<T>, le: (T, T) -> bool)
  {
    forall i :: 0 < i < |s| ==> le(s[i - 1], s[i])
  }

  /** `le` chains: `a` before `b` before `c` puts `a` before `c`. */
  ghost predicate Transitive<T(!new)>(le: (T, T) -> bool)
  {
    forall a, b, c :: le(a, b) && le(b, c) ==> le(a, c)
  }

  /** Under a transitive order, a sequence sorted pair by adjacent pair is in order between any two positions. */
  lemma {:induction false} SortedAllPairs<T(!new)>(s: seq<T>, le: (T, T) -> bool, i: int, j: int)
    requires Transitive(le) && SortedBy(s, le)
    requires 0 <= i < j < |s|
    ensures le(s[i], s[j])
    decreases j - i
  {
    if i + 1 < j {
      SortedAllPairs(s, le, i, j - 1);
      assert le(s[j - 1], s[j]);
    }
  }

  /** Puts `x` into the sorted `s`, ahead of the elements it is not after. */
  function InsertBy<T(!new)>(x: T, s: seq<T>, le: (T, T) -> bool): (r: seq<T>)
    requires Total(le) && SortedBy(s, le)
    ensures SortedBy(r, le)
    ensures multiset(r) == multiset(s) + multiset{x}
    ensures r[0] == x || (s != [] && r[0] == s[0])
  {
    if s == [] || le(x, s[0]) then [x] + s
    else
      var rest := InsertBy(x, s[1..], le);
      assert le(s[0], x);
      assert s == [s[0]] + s[1..];
      [s[0]] + rest
  }

  /** A sorted copy of `s`; `s` itself is a value and stays as it was. */
  function SortBy<T(!new)>(s: seq<T>, le: (T, T) -> bool): (r: seq<T>)
    requires Total(le)
    ensures SortedBy(r, le)
    ensures multiset(r) == multiset(s)
  {
    if s == [] then []
    else
      assert s == [s[0]] + s[1..];
      InsertBy(s[0], SortBy(s[1..], le), le)
  }

  /** No value occurs twice in `s`. */
  predicate NoDup<T(==)>(s: seq<T>)
  {
    forall i, j :: 0 <= i < j < |s| ==> s[i] != s[j]
  }

  lemma {:induction false} NoDupCounts<T>(s: seq<T>)
    ensures NoDup(s) <==> forall x :: multiset(s)[x] <= 1
  {
    if s != [] {
      var h, t := s[0], s[1..];
      assert s == [h] + t;
      NoDupCounts(t);
      if NoDup(s) {
        assert NoDup(t) by {
          forall i, j | 0 <= i < j < |t| ensures t[i] != t[j] {
            assert t[i] == s[i + 1] && t[j] == s[j + 1];
          }
        }
        assert h !in t by {
          forall j | 0 <= j < |t| ensures t[j] != h {
            assert t[j] == s[j + 1];
          }
        }
      } else {
        var i, j :| 0 <= i < j < |s| && s[i] == s[j];
        if i == 0 {
          assert s[j] in t;
          assert multiset(s)[h] >= 2;
        } else {
          assert t[i - 1] == t[j - 1];
          assert !NoDup(t);
          var x :| multiset(t)[x] > 1;
          assert multiset(s)[x] > 1;
        }
      }
    }
  }

  /** Reordering a list without duplicates gives a list without duplicates. */
  lemma PermutationNoDup<T>(a: seq<T>, b: seq<T>)
    requires multiset(a) == multiset(b) && NoDup(a)
    ensures NoDup(b)
  {
    NoDupCounts(a);
    NoDupCounts(b);
  }

  /** A reordering has the same elements. */
  lemma PermutationMembers<T>(a: seq<T>, b: seq<T>)
    requires multiset(a) == multiset(b)
    ensures forall x :: x in a <==> x in b
  {
    forall x ensures x in a <==> x in b {
      assert x in a <==> x in multiset(a);
      assert x in b <==> x in multiset(b);
    }
  }
}
