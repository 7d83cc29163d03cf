/**
  Sorting by a real-valued key, standing for Swift's `sorted(by:)` with a
  strict comparison of one field. Swift does not promise which of two
  elements with equal keys comes first; this insertion sort keeps their
  input order.
 */
module Sorting {

  ghost predicate SortedBy<T>(s: seq<T>, key: T -> real) {
    forall i, j :: 0 <= i < j < |s| ==> key(s[i]) <= key(s[j])
  }

  function Insert<T(==)>(x: T, s: seq<T>, key: T -> real): (r: seq<T>)
    ensures multiset(r) == multiset(s) + multiset{x}
    ensures |r| == |s| + 1
    ensures SortedBy(s, key) ==> SortedBy(r, key)
  {
    if s == [] then [x]
    else if key(x) <= key(s[0]) then [x] + s
    else
      var rest := Insert(x, s[1..], key);
      InsertBehindHead(x, s, rest, key);
      [s[0]] + rest
  }

  /** Putting the head back in front of the insertion into the tail keeps contents and order. */
  lemma InsertBehindHead<T>(x: T, s: seq<T>, rest: seq<T>, key: T -> real)
    requires |s| > 0 && key(s[0]) < key(x)
    requires multiset(rest) == multiset(s[1..]) + multiset{x}
    requires SortedBy(s[1..], key) ==> SortedBy(rest, key)
    ensures multiset([s[0]] + rest) == multiset(s) + multiset{x}
    ensures SortedBy(s, key) ==> SortedBy([s[0]] + rest, key)
  {
    assert s == [s[0]] + s[1..];
    if SortedBy(s, key) {
      forall y | y in rest ensures key(s[0]) <= key(y) {
        assert y in multiset(rest);
        if y != x {
          assert y in multiset(s[1..]);
          var j :| 0 <= j < |s[1..]| && s[1..][j] == y;
          assert s[j + 1] == y;
        }
      }
    }
  }

  /** The elements of `s`, rearranged so that keys never decrease. */
  function SortBy<T(==)>(s: seq<T>, key: T -> real): (r: seq<T>)
    ensures multiset(r) == multiset(s)
    ensures |r| == |s|
    ensures SortedBy(r, key)
  {
    if s == [] then []
    else
      assert s == [s[0]] + s[1..];
      Insert(s[0], SortBy(s[1..], key), key)
  }

  /** Two lists with the same multiset of elements have the same members. */
  lemma SameElements<T>(a: seq<T>, b: seq<T>)
    requires multiset(a) == multiset(b)
    ensures forall e :: e in a <==> e in b
  {
    forall e ensures e in a <==> e in b {
      assert e in a <==> e in multiset(a);
      assert e in b <==> e in multiset(b);
    }
  }
}
