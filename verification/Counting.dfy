/** Comparing the length of a sequence with the size of a set. */
module Counting {

  /** The pigeonhole principle: distinct elements of a set are no more than it has. */
  lemma {:induction false} DistinctSize<T>(s: seq<T>, xs: set<T>)
    requires forall i, j :: 0 <= i < j < |s| ==> s[i] != s[j]
    requires forall i :: 0 <= i < |s| ==> s[i] in xs
    ensures |s| <= |xs|
  {
    if s != [] {
      var rest := s[1..];
      forall i | 0 <= i < |rest| ensures rest[i] in xs - {s[0]} {
        assert rest[i] == s[i + 1];
      }
      DistinctSize(rest, xs - {s[0]});
    }
  }

  /** A set whose elements all occur in a sequence is no larger than it is long. */
  lemma {:induction false} CoverSize<T>(s: seq<T>, xs: set<T>)
    requires forall x :: x in xs ==> x in s
    ensures |xs| <= |s|
  {
    if s == [] {
      assert xs == {};
    } else {
      CoverSize(s[1..], xs - {s[0]});
    }
  }

  lemma {:induction false} SubsetSize<T>(a: set<T>, b: set<T>)
    requires a <= b
    ensures |a| <= |b|
  {
    if a != {} {
      var x :| x in a;
      SubsetSize(a - {x}, b - {x});
    }
  }
}
