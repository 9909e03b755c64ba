/** The selection logic of filterQuotes: the pseudo-category "all" shows the
    whole store, any other selection the quotes of that category. */
module Filtering {
  import opened Quotes
  import opened CategoryIndex

  /** `a` is `b` with some elements left out, the rest kept in order. */
  ghost predicate IsSubsequence(a: seq<Quote>, b: seq<Quote>)
    decreases |b|
  {
    if a == [] then true
    else if b == [] then false
    else (a[0] == b[0] && IsSubsequence(a[1..], b[1..])) || IsSubsequence(a, b[1..])
  }

  /** The `.filter` call: the quotes of category `c`, in store order. */
  function OfCategory(qs: seq<Quote>, c: string): (r: seq<Quote>)
    ensures |r| <= |qs|
    ensures forall q :: q in r <==> q in qs && q.category == c
    ensures forall q :: multiset(r)[q] == if q.category == c then multiset(qs)[q] else 0
    decreases |qs|
  {
    if qs == [] then []
    else
      assert qs == [qs[0]] + qs[1..];
      (if qs[0].category == c then [qs[0]] else []) + OfCategory(qs[1..], c)
  }

  lemma {:induction false} OfCategoryKeepsOrder(qs: seq<Quote>, c: string)
    ensures IsSubsequence(OfCategory(qs, c), qs)
    decreases |qs|
  {
    if qs != [] {
      OfCategoryKeepsOrder(qs[1..], c);
      var rest := OfCategory(qs[1..], c);
      if qs[0].category == c {
        assert OfCategory(qs, c) == [qs[0]] + rest;
        assert ([qs[0]] + rest)[1..] == rest;
      } else {
        assert OfCategory(qs, c) == rest;
        if rest != [] {
          assert IsSubsequence(rest, qs[1..]);
        }
      }
    }
  }

  /** Filtering a store whose quotes all have category `c` by `c` keeps it whole. */
  lemma {:induction false} OfCategoryUniform(qs: seq<Quote>, c: string)
    requires forall k :: 0 <= k < |qs| ==> qs[k].category == c
    ensures OfCategory(qs, c) == qs
    decreases |qs|
  {
    if qs != [] {
      OfCategoryUniform(qs[1..], c);
    }
  }

  /** The ternary of filterQuotes. */
  function Filter(qs: seq<Quote>, selection: string): seq<Quote>
  {
    if selection == All then qs else OfCategory(qs, selection)
  }

  /** "all" yields the store unchanged; any other selection yields, in store
      order, every occurrence of every quote of that category and nothing else. */
  lemma FilterSelects(qs: seq<Quote>, selection: string)
    ensures selection == All ==> Filter(qs, selection) == qs
    ensures selection != All ==>
      && IsSubsequence(Filter(qs, selection), qs)
      && (forall q :: q in Filter(qs, selection) ==> q.category == selection)
      && (forall q :: q in qs && q.category == selection ==>
            multiset(Filter(qs, selection))[q] == multiset(qs)[q])
  {
    if selection != All {
      OfCategoryKeepsOrder(qs, selection);
    }
  }
}
