/** The category index behind the category drop-down: the distinct categories
    of the store in the order they are first met, and the resolution of the
    saved selection against them. */
module CategoryIndex {
  import opened Quotes

  /** The categories of `qs`, each once, in first-seen order: the list the
      forEach loop of populateCategories builds, taken one quote at a time
      from the front. */
  function Categories(qs: seq<Quote>): seq<string>
    decreases |qs|
  {
    if qs == [] then []
    else
      var prev := Categories(qs[..|qs| - 1]);
      var c := qs[|qs| - 1].category;
      if c in prev then prev else prev + [c]
  }

  /** `c` is the category of some quote of `qs`. */
  ghost predicate Occurs(qs: seq<Quote>, c: string)
  {
    exists k :: 0 <= k < |qs| && qs[k].category == c
  }

  /** The four properties the drop-down relies on: no category twice, only
      categories of quotes, every quote's category, and first-seen order. */
  ghost predicate IsCategoryIndex(qs: seq<Quote>, cats: seq<string>)
  {
    && (forall i, j :: 0 <= i < j < |cats| ==> cats[i] != cats[j])
    && (forall c :: c in cats ==> Occurs(qs, c))
    && (forall k :: 0 <= k < |qs| ==> qs[k].category in cats)
    && (forall i, j, k :: 0 <= i < j < |cats| && 0 <= k < |qs| && qs[k].category == cats[j] ==>
          exists m :: 0 <= m < k && qs[m].category == cats[i])
  }

  lemma {:induction false} CategoriesDistinct(qs: seq<Quote>)
    ensures forall i, j :: 0 <= i < j < |Categories(qs)| ==> Categories(qs)[i] != Categories(qs)[j]
    decreases |qs|
  {
    if qs != [] {
      CategoriesDistinct(qs[..|qs| - 1]);
    }
  }

  lemma {:induction false} CategoriesSound(qs: seq<Quote>)
    ensures forall c :: c in Categories(qs) ==> Occurs(qs, c)
    decreases |qs|
  {
    if qs != [] {
      var init := qs[..|qs| - 1];
      CategoriesSound(init);
      forall c | c in Categories(qs) ensures Occurs(qs, c) {
        if c in Categories(init) {
          var k :| 0 <= k < |init| && init[k].category == c;
          assert qs[k] == init[k];
        } else {
          assert qs[|qs| - 1].category == c;
        }
      }
    }
  }

  lemma {:induction false} CategoriesComplete(qs: seq<Quote>)
    ensures forall k :: 0 <= k < |qs| ==> qs[k].category in Categories(qs)
    decreases |qs|
  {
    if qs != [] {
      var init := qs[..|qs| - 1];
      CategoriesComplete(init);
      forall k | 0 <= k < |qs| ensures qs[k].category in Categories(qs) {
        if k < |init| {
          assert qs[k] == init[k];
        }
      }
    }
  }

  /** One instance of first-seen order: if the j-th listed category is the
      category of quote k, an earlier listed category occurs before k. */
  lemma {:induction false} FirstSeenAt(qs: seq<Quote>, i: int, j: int, k: int)
    requires 0 <= i < j < |Categories(qs)| && 0 <= k < |qs| && qs[k].category == Categories(qs)[j]
    ensures exists m :: 0 <= m < k && qs[m].category == Categories(qs)[i]
    decreases |qs|
  {
    var init := qs[..|qs| - 1];
    var prev, cats := Categories(init), Categories(qs);
    assert cats[i] == prev[i];
    CategoriesSound(init);
    if k < |qs| - 1 {
      CategoriesComplete(init);
      assert qs[k] == init[k];
      assert j < |prev|;
      FirstSeenAt(init, i, j, k);
      var m :| 0 <= m < k && init[m].category == prev[i];
      assert qs[m] == init[m];
    } else {
      assert Occurs(init, prev[i]);
      var m :| 0 <= m < |init| && init[m].category == prev[i];
      assert qs[m] == init[m];
    }
  }

  lemma CategoriesFirstSeen(qs: seq<Quote>)
    ensures forall i, j, k ::
      0 <= i < j < |Categories(qs)| && 0 <= k < |qs| && qs[k].category == Categories(qs)[j] ==>
      exists m :: 0 <= m < k && qs[m].category == Categories(qs)[i]
  {
    var cats := Categories(qs);
    forall i, j, k | 0 <= i < j < |cats| && 0 <= k < |qs| && qs[k].category == cats[j]
      ensures exists m :: 0 <= m < k && qs[m].category == cats[i]
    {
      FirstSeenAt(qs, i, j, k);
    }
  }

  lemma CategoriesIsIndex(qs: seq<Quote>)
    ensures IsCategoryIndex(qs, Categories(qs))
  {
    CategoriesDistinct(qs);
    CategoriesSound(qs);
    CategoriesComplete(qs);
    CategoriesFirstSeen(qs);
  }

  /** The loop of populateCategories: walk the store and push each category
      not yet listed. */
  method DeriveCategories(qs: seq<Quote>) returns (cats: seq<string>)
    ensures cats == Categories(qs)
    ensures IsCategoryIndex(qs, cats)
  {
    cats := [];
    for i := 0 to |qs|
      invariant cats == Categories(qs[..i])
    {
      assert qs[..i + 1][..i] == qs[..i];
      if qs[i].category !in cats {
        cats := cats + [qs[i].category];
      }
    }
    assert qs[..|qs|] == qs;
    CategoriesIsIndex(qs);
  }

  /** The value the drop-down offers for "every category". */
  const All := "all"

  /** The condition under which populateCategories keeps the saved category:
      it is present and non-empty (JavaScript truthiness), and it is "all" or
      one of the listed categories. */
  predicate Keeps(saved: Option<string>, cats: seq<string>)
  {
    saved.Some? && saved.value != "" && (saved.value == All || saved.value in cats)
  }

  /** The selection populateCategories settles on. */
  function ResolveSelection(saved: Option<string>, cats: seq<string>): (r: string)
    ensures r == All || r in cats
    ensures r != All ==> saved == Some(r)
    ensures saved.Some? && saved.value != "" && saved.value in cats ==> r == saved.value
    ensures saved.None? || saved == Some("") ==> r == All
  {
    if Keeps(saved, cats) then saved.value else All
  }

  /** A saved category that no quote of the store carries resolves to "all". */
  lemma StaleSelectionFallsBack(qs: seq<Quote>, c: string)
    requires c != All
    requires forall k :: 0 <= k < |qs| ==> qs[k].category != c
    ensures ResolveSelection(Some(c), Categories(qs)) == All
  {
    CategoriesSound(qs);
  }

  /** Quotes added in the categories B, A, B, C are indexed as B, A, C. */
  lemma FirstSeenExample(t1: string, t2: string, t3: string, t4: string)
    ensures Categories([Quote(t1, "B"), Quote(t2, "A"), Quote(t3, "B"), Quote(t4, "C")]) == ["B", "A", "C"]
  {
    var q1, q2, q3, q4 := Quote(t1, "B"), Quote(t2, "A"), Quote(t3, "B"), Quote(t4, "C");
    assert [q1, q2, q3, q4][..3] == [q1, q2, q3];
    assert [q1, q2, q3][..2] == [q1, q2];
    assert [q1, q2][..1] == [q1];
    assert [q1][..0] == [];
    assert Categories([q1]) == ["B"];
    assert "A" != "B";
    assert Categories([q1, q2]) == ["B", "A"];
    assert Categories([q1, q2, q3]) == ["B", "A"];
    assert "C" != "A" && "C" != "B";
  }
}
