/** The reconciliation step of syncQuotes, as a function of the local store
    and the remote response: take the first five remote titles, make each a
    quote of category "Server", and replace the local store wholesale when it
    differs. */
module Reconciler {
  import opened Quotes
  import opened CategoryIndex

  /** How many remote records one sync consumes. */
  const BatchSize := 5

  /** The category every remote record is given. */
  const ServerCategory := "Server"

  /** The advisory notifyUser shows after a replacement. */
  const ReplacedNotice := "\U{26A0} Server quotes have replaced your local quotes due to updates."

  function Min(a: int, b: int): int
  {
    if a <= b then a else b
  }

  /** The `.map` call: each remote title becomes a server quote, in order. */
  function ToQuotes(titles: seq<string>): (r: seq<Quote>)
    ensures |r| == |titles|
    ensures forall i :: 0 <= i < |titles| ==> r[i] == Quote(titles[i], ServerCategory)
    decreases |titles|
  {
    if titles == [] then [] else [Quote(titles[0], ServerCategory)] + ToQuotes(titles[1..])
  }

  /** The batch one sync compares against: `slice(0, 5)` then `.map`. */
  function Batch(titles: seq<string>): (b: seq<Quote>)
    ensures |b| == Min(BatchSize, |titles|)
    ensures forall i :: 0 <= i < |b| ==> b[i] == Quote(titles[i], ServerCategory)
  {
    ToQuotes(if |titles| <= BatchSize then titles else titles[..BatchSize])
  }

  /** Whether a sync over `remote` replaces `local`: the fetch succeeded and
      the batch differs from the store (the string comparison of the two
      serializations, read as equality of the record sequences). */
  predicate Replaces(local: seq<Quote>, remote: Option<seq<string>>)
  {
    remote.Some? && Batch(remote.value) != local
  }

  /** The store after one sync. */
  function Reconcile(local: seq<Quote>, remote: Option<seq<string>>): (r: seq<Quote>)
    ensures remote.None? ==> r == local
    ensures remote.Some? ==> r == Batch(remote.value)
  {
    if Replaces(local, remote) then Batch(remote.value) else local
  }

  /** A second sync over unchanged remote data replaces nothing and leaves the
      store as the first one left it. */
  lemma SyncIdempotent(local: seq<Quote>, remote: Option<seq<string>>)
    ensures !Replaces(Reconcile(local, remote), remote)
    ensures Reconcile(Reconcile(local, remote), remote) == Reconcile(local, remote)
  {
  }

  /** Replace, not merge: a local quote not in the batch is gone. */
  lemma ReplaceNotMerge(local: seq<Quote>, titles: seq<string>, q: Quote)
    requires q in local && q.category != ServerCategory
    ensures Replaces(local, Some(titles))
    ensures q !in Reconcile(local, Some(titles))
  {
    var b := Batch(titles);
    assert q !in b;
  }

  /** A store whose quotes all have category "Server" lists that one category. */
  lemma {:induction false} SingleCategory(qs: seq<Quote>)
    requires forall k :: 0 <= k < |qs| ==> qs[k].category == ServerCategory
    ensures Categories(qs) == if qs == [] then [] else [ServerCategory]
    decreases |qs|
  {
    if qs != [] {
      var init := qs[..|qs| - 1];
      SingleCategory(init);
    }
  }

  /** After a sync that succeeded, the only category left is "Server". */
  lemma BatchCategories(titles: seq<string>)
    ensures Categories(Batch(titles)) == if titles == [] then [] else [ServerCategory]
  {
    SingleCategory(Batch(titles));
  }

  /** A saved selection other than "all" and "Server" does not survive a sync
      that succeeded: it resolves to "all". */
  lemma SyncDropsStaleSelection(local: seq<Quote>, titles: seq<string>, saved: string)
    requires saved != All && saved != ServerCategory
    ensures ResolveSelection(Some(saved), Categories(Reconcile(local, Some(titles)))) == All
  {
    BatchCategories(titles);
  }
}
