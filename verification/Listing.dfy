/** Listing the elements of a set in some order. */
module Listing {

  /** Each element of the set once, and nothing else. */
  ghost predicate Lists<T(!new)>(items: seq<T>, s: set<T>) {
    && (forall x :: x in items <==> x in s)
    && (forall i, j | 0 <= i < j < |items| :: items[i] != items[j])
  }

  method ListSet<T(!new, ==)>(s: set<T>) returns (items: seq<T>)
    ensures Lists(items, s)
  {
    items := [];
    var left := s;
    while left != {}
      invariant left <= s && Lists(items, s - left)
      decreases left
    {
      var x :| x in left;
      items := items + [x];
      left := left - {x};
    }
  }

  lemma {:induction false} AnyListing<T(!new)>(s: set<T>) returns (items: seq<T>)
    ensures Lists(items, s)
    decreases |s|
  {
    if s == {} {
      items := [];
    } else {
      var x :| x in s;
      var rest := AnyListing(s - {x});
      items := rest + [x];
    }
  }
}
