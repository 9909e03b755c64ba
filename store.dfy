/** The widget's state and the user and timer actions that change it. The
    state is the in-memory store (quoteObj), its durable copy (localStorage
    "quoteItem"), the durable category selection (localStorage
    "lastSelectedCategory") and the session's last viewed quote
    (sessionStorage "lastViewedQuote"). What the page shows is returned as
    display lines. */
module Store {
  import opened Quotes
  import opened CategoryIndex
  import opened Filtering
  import opened Reconciler

  /** The text shown when a random quote is asked of an empty store. */
  const NoQuotesMessage := "There are no quotes to display"

  /** How an import ends, with the alert each ending shows. */
  datatype ImportOutcome = Imported | InvalidFormat | ParseFailed
  {
    function Alert(): string
    {
      match this
      case Imported => "Quotes imported successfully!"
      case InvalidFormat => "Invalid JSON format."
      case ParseFailed => "Failed to import quotes."
    }
  }

  /** What populateCategories followed by filterQuotes puts on the page for a
      store and a saved selection. */
  function View(qs: seq<Quote>, saved: Option<string>): seq<string>
  {
    Render(Filter(qs, ResolveSelection(saved, Categories(qs))))
  }

  /** After a sync that replaced the store, the page shows the whole batch,
      whatever category had been saved. */
  lemma ViewAfterSync(local: seq<Quote>, titles: seq<string>, saved: Option<string>)
    ensures View(Reconcile(local, Some(titles)), saved) == Render(Batch(titles))
  {
    var b := Batch(titles);
    assert Reconcile(local, Some(titles)) == b;
    BatchCategories(titles);
    var selection := ResolveSelection(saved, Categories(b));
    assert selection == All || selection == ServerCategory;
    if selection != All {
      OfCategoryUniform(b, ServerCategory);
    }
    assert Filter(b, selection) == b;
  }

  class QuoteStore {
    var quotes: seq<Quote>
    var persisted: Blob
    var savedCategory: Option<string>
    var lastViewed: Option<string>

    /** A reload of the page would read back exactly the in-memory store. */
    ghost predicate Valid()
      reads this`quotes, this`persisted
    {
      LoadQuotes(persisted) == Some(quotes)
    }

    /** The state right after the script's startup, for storage that parses. */
    constructor (stored: Blob, category: Option<string>, viewed: Option<string>)
      requires LoadQuotes(stored).Some?
      ensures Valid()
      ensures quotes == LoadQuotes(stored).value && persisted == stored
      ensures savedCategory == category && lastViewed == viewed
    {
      quotes := LoadQuotes(stored).value;
      persisted := stored;
      savedCategory := category;
      lastViewed := viewed;
    }

    /** saveQuotes: write the serialized store under "quoteItem". */
    method SaveQuotes()
      modifies this`persisted
      ensures persisted == Persist(quotes)
      ensures Valid()
    {
      persisted := Persist(quotes);
    }

    /** The category list and the selection populateCategories settles on. */
    method PopulateCategories() returns (cats: seq<string>, selection: string)
      ensures cats == Categories(quotes) && IsCategoryIndex(quotes, cats)
      ensures selection == All || selection in cats
      ensures selection == ResolveSelection(savedCategory, cats)
    {
      cats := DeriveCategories(quotes);
      selection := ResolveSelection(savedCategory, cats);
    }

    /** populateCategories then filterQuotes, as every change of the store does. */
    method Refresh() returns (display: seq<string>)
      ensures display == View(quotes, savedCategory)
    {
      var cats, selection := PopulateCategories();
      display := Render(Filter(quotes, selection));
    }

    /** createAddQuoteForm: show the quote at the drawn index `i` and record it
        as last viewed, or report an empty store and change nothing. */
    method ShowRandomQuote(i: nat) returns (shown: string)
      requires quotes == [] || i < |quotes|
      modifies this`lastViewed
      ensures quotes == [] ==> shown == NoQuotesMessage && lastViewed == old(lastViewed)
      ensures quotes != [] ==> shown == Line(quotes[i]) && lastViewed == Some(Line(quotes[i]))
    {
      if |quotes| == 0 {
        shown := NoQuotesMessage;
        return;
      }
      var q := quotes[i];
      shown := Line(q);
      lastViewed := Some(Line(q));
    }

    /** selectedCategory: save the chosen category, unvalidated, and show the
        quotes it selects. */
    method SelectCategory(choice: string) returns (display: seq<string>)
      modifies this`savedCategory
      ensures savedCategory == Some(choice)
      ensures display == Render(Filter(quotes, choice))
    {
      savedCategory := Some(choice);
      display := Render(Filter(quotes, choice));
    }

    /** addQuote: append when both fields are non-empty, then save and
        redisplay; otherwise do nothing. */
    method AddQuote(text: string, category: string) returns (display: Option<seq<string>>)
      requires Valid()
      modifies this`quotes, this`persisted
      ensures Valid()
      ensures text != "" && category != "" ==>
        && quotes == old(quotes) + [Quote(text, category)]
        && |quotes| == |old(quotes)| + 1
        && persisted == Persist(quotes)
        && display == Some(View(quotes, savedCategory))
      ensures text == "" || category == "" ==>
        quotes == old(quotes) && persisted == old(persisted) && display == None
    {
      if text != "" && category != "" {
        quotes := quotes + [Quote(text, category)];
        SaveQuotes();
        var lines := Refresh();
        display := Some(lines);
      } else {
        display := None;
      }
    }

    /** The onload handler of importFromJsonFile, given what JSON.parse made
        of the file (None: it threw). An array is appended in full and saved;
        anything else changes nothing. */
    method ImportFromJson(payload: Option<JsonValue>) returns (outcome: ImportOutcome, display: Option<seq<string>>)
      requires Valid()
      modifies this`quotes, this`persisted
      ensures Valid()
      ensures payload.Some? && payload.value.JArray? ==>
        && outcome == Imported
        && quotes == old(quotes) + payload.value.items
        && persisted == Persist(quotes)
        && display == Some(View(quotes, savedCategory))
      ensures payload == Some(JNonArray) ==>
        outcome == InvalidFormat && quotes == old(quotes) && persisted == old(persisted) && display == None
      ensures payload.None? ==>
        outcome == ParseFailed && quotes == old(quotes) && persisted == old(persisted) && display == None
    {
      match payload
      case None =>
        outcome, display := ParseFailed, None;
      case Some(JNonArray) =>
        outcome, display := InvalidFormat, None;
      case Some(JArray(items)) =>
        quotes := quotes + items;
        SaveQuotes();
        var lines := Refresh();
        outcome, display := Imported, Some(lines);
    }

    /** One tick of syncQuotes over the remote response (None: the fetch or
        its decoding threw). On a difference the store and its durable copy
        both become the batch and a notice is raised; otherwise nothing
        changes. */
    method Sync(remote: Option<seq<string>>) returns (notice: Option<string>, display: Option<seq<string>>)
      requires Valid()
      modifies this`quotes, this`persisted
      ensures Valid()
      ensures quotes == Reconcile(old(quotes), remote)
      ensures Replaces(old(quotes), remote) ==>
        && quotes == Batch(remote.value)
        && persisted == Persist(quotes)
        && notice == Some(ReplacedNotice)
        && display == Some(View(quotes, savedCategory))
      ensures !Replaces(old(quotes), remote) ==>
        quotes == old(quotes) && persisted == old(persisted) && notice == None && display == None
    {
      match remote
      case None =>
        notice, display := None, None;
      case Some(titles) =>
        var trimmed := Batch(titles);
        if trimmed != quotes {
          persisted := Persist(trimmed);
          quotes := trimmed;
          var lines := Refresh();
          notice, display := Some(ReplacedNotice), Some(lines);
        } else {
          notice, display := None, None;
        }
    }
  }

  /** The script's startup: the store loaded from storage, or null when the
      stored text does not parse and the exception stops the script. */
  method Open(stored: Blob, category: Option<string>, viewed: Option<string>) returns (store: QuoteStore?)
    ensures store == null <==> stored.Unparsable?
    ensures store != null ==>
      && fresh(store)
      && store.Valid()
      && store.quotes == LoadQuotes(stored).value
      && store.persisted == stored
      && store.savedCategory == category
      && store.lastViewed == viewed
  {
    if stored.Unparsable? {
      store := null;
    } else {
      store := new QuoteStore(stored, category, viewed);
    }
  }

  /** Two ticks over the same remote response: the second one changes nothing
      and raises no notice. */
  method SyncTwice(store: QuoteStore, remote: Option<seq<string>>) returns (first: Option<string>, second: Option<string>)
    requires store.Valid()
    modifies store`quotes, store`persisted
    ensures store.Valid()
    ensures store.quotes == Reconcile(old(store.quotes), remote)
    ensures Replaces(old(store.quotes), remote) ==>
      store.persisted == Persist(store.quotes) && first == Some(ReplacedNotice)
    ensures !Replaces(old(store.quotes), remote) ==>
      store.persisted == old(store.persisted) && first == None
    ensures second == None
  {
    var shown;
    first, shown := store.Sync(remote);
    ghost var afterFirst, savedFirst := store.quotes, store.persisted;
    SyncIdempotent(old(store.quotes), remote);
    second, shown := store.Sync(remote);
    assert store.quotes == afterFirst && store.persisted == savedFirst;
  }
}
