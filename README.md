# Quote widget: a Dafny model of its store, category index and server sync

The widget shows random quotes, filters them by category, remembers the
chosen category and the last quote viewed, imports quotes from JSON, and
every few seconds replaces its quotes with the first five records of a
remote collection whenever the two differ. This project models the logic
under the page in `dom-manipulation/script.js`:

- `quotes.dfy` (module `Quotes`): the quote record `{text, category}`, what
  `JSON.parse` yields as far as the widget looks at it (an array of quote
  records, or any other value), what durable storage holds under
  `quoteItem`, and the startup load of the store.
- `categories.dfy` (module `CategoryIndex`): the distinct categories of the
  store in first-seen order, as a specification function and as the loop
  `populateCategories` runs, and the resolution of the saved selection
  against them.
- `filter.dfy` (module `Filtering`): the selection of `filterQuotes`.
- `sync.dfy` (module `Reconciler`): the batch of five server quotes, the
  compare-then-replace step, and what it does to categories and selection.
- `store.dfy` (module `Store`): the class `QuoteStore` with the four pieces
  of state the script keeps (`quoteObj`, localStorage `quoteItem`,
  localStorage `lastSelectedCategory`, sessionStorage `lastViewedQuote`)
  and one method per user or timer action. Its invariant `Valid()` says
  that reloading the page would read back exactly the in-memory store;
  every action keeps it.

What the page shows is returned by each method as data: a display line
`text + " - " + category` per quote shown, the "no quotes" message, the
import alert, and the sync notice. Where the script does not redraw, the
method returns `None`.

Inputs the script gets from the outside are parameters: the stored blob and
the two saved strings at startup, the random index drawn by
`Math.random` (constrained to the store's range), what `JSON.parse` made of
an imported file (`None` when it threw), and the titles of the remote
response (`None` when the fetch or its decoding threw).

In these places the model follows the code as written:

- Stored text that `JSON.parse` rejects is not caught at startup
  (`dom-manipulation/script.js:7`): the script stops. `Store.Open` returns
  `null` for it rather than an empty store.
- There is no busy flag around the sync; one call of `Sync` is one atomic
  step.
- `addQuote` does not reject empty fields with an error; it does nothing.
- The "Last viewed" banner written on page load
  (`dom-manipulation/script.js:17`) is cleared by the `filterQuotes` call four
  lines later (`dom-manipulation/script.js:155`), so the session value is
  written by `ShowRandomQuote` but never shown; the page-load handler is
  DOM wiring and is not modelled.

## Model

| member | source | states |
|---|---|---|
| `Quotes.LoadQuotes` | dom-manipulation/script.js:7-8 | a missing key or a value that is not an array loads as the empty store; an array loads as itself; unparsable text yields no store (the uncaught exception) |
| `Quotes.LoadPersisted` | dom-manipulation/script.js:54-56 | what saveQuotes writes loads back as exactly the store it wrote |
| `CategoryIndex.CategoriesDistinct` | dom-manipulation/script.js:130-136 | no category is listed twice |
| `CategoryIndex.CategoriesSound` | dom-manipulation/script.js:130-136 | every listed category is the category of some quote |
| `CategoryIndex.CategoriesComplete` | dom-manipulation/script.js:130-136 | every quote's category is listed |
| `CategoryIndex.FirstSeenAt` | dom-manipulation/script.js:130-136 | if the j-th listed category is that of quote k, every earlier listed category occurs at some quote before k |
| `CategoryIndex.CategoriesFirstSeen` | dom-manipulation/script.js:130-136 | categories are listed in the order of their first occurrence in the store |
| `CategoryIndex.CategoriesIsIndex` | dom-manipulation/script.js:130-136 | the derived list has all four properties: distinct, sound, complete, first-seen order |
| `CategoryIndex.DeriveCategories` | dom-manipulation/script.js:130-136 | the forEach loop that pushes unseen categories computes exactly the specified category list, with all four properties |
| `CategoryIndex.ResolveSelection` | dom-manipulation/script.js:145-149 | the result is "all" or a listed category; it is the saved value or "all"; a saved non-empty listed category is kept; an absent or empty saved value gives "all" |
| `CategoryIndex.StaleSelectionFallsBack` | dom-manipulation/script.js:145-149 | a saved category that no quote carries (other than "all") resolves to "all" |
| `CategoryIndex.FirstSeenExample` | dom-manipulation/script.js:132-136 | quotes in categories B, A, B, C are indexed as B, A, C |
| `Filtering.OfCategory` | dom-manipulation/script.js:159 | the result holds exactly the quotes of the category, each as often as in the store |
| `Filtering.OfCategoryKeepsOrder` | dom-manipulation/script.js:159 | the filtered quotes are a subsequence of the store (store order kept) |
| `Filtering.OfCategoryUniform` | dom-manipulation/script.js:159 | filtering a single-category store by that category keeps it whole |
| `Filtering.FilterSelects` | dom-manipulation/script.js:157-159 | "all" returns the store unchanged; any other selection returns, in order, all occurrences of the quotes of that category and nothing else |
| `Reconciler.ToQuotes` | dom-manipulation/script.js:190-193 | each remote title becomes, at the same position, a quote of category "Server" |
| `Reconciler.Batch` | dom-manipulation/script.js:190-193 | the batch has min(5, n) quotes, the i-th being the i-th title with category "Server" |
| `Reconciler.Reconcile` | dom-manipulation/script.js:195-206 | a failed fetch leaves the store; a successful one always leaves exactly the batch (replaced on difference, already equal otherwise) |
| `Reconciler.SyncIdempotent` | dom-manipulation/script.js:195-206 | a second sync over unchanged remote data replaces nothing and leaves the store as it is |
| `Reconciler.ReplaceNotMerge` | dom-manipulation/script.js:198-200 | a local quote of a category other than "Server" forces a replacement and is gone afterwards |
| `Reconciler.SingleCategory` | dom-manipulation/script.js:130-136 | a store whose quotes are all "Server" quotes lists that one category (none when empty) |
| `Reconciler.BatchCategories` | dom-manipulation/script.js:190-193 | the batch's category list is ["Server"], or empty for an empty response |
| `Reconciler.SyncDropsStaleSelection` | dom-manipulation/script.js:198-201 | after a successful sync, a saved category other than "all" and "Server" resolves to "all" |
| `Store.ViewAfterSync` | dom-manipulation/script.js:198-202 | after a sync that replaces the store the page shows every batch quote, whatever category was saved (the view of the store a successful sync leaves is the whole batch) |
| `Store.QuoteStore.constructor` | dom-manipulation/script.js:7-8 | the startup state holds the loaded store, the untouched stored blob and the two saved strings, and keeps the invariant |
| `Store.Open` | dom-manipulation/script.js:7-8 | startup yields no store exactly when the stored text does not parse; otherwise the loaded store with the invariant |
| `Store.QuoteStore.SaveQuotes` | dom-manipulation/script.js:54-56 | the durable copy becomes the serialized store, so the invariant holds |
| `Store.QuoteStore.PopulateCategories` | dom-manipulation/script.js:127-150 | returns the category index of the store and a selection that is "all" or a listed category, resolved from the saved one |
| `Store.QuoteStore.Refresh` | dom-manipulation/script.js:78-79 | the lines shown after a change are those of the quotes the resolved selection picks |
| `Store.QuoteStore.ShowRandomQuote` | dom-manipulation/script.js:25-42 | an empty store yields "There are no quotes to display" and leaves the session value; otherwise the drawn quote's line is shown and becomes the last viewed value; nothing else changes |
| `Store.QuoteStore.SelectCategory` | dom-manipulation/script.js:59-63 | the chosen category is saved unvalidated and the quotes it selects are shown; nothing else changes |
| `Store.QuoteStore.AddQuote` | dom-manipulation/script.js:66-84 | with both fields non-empty the quote is appended (length grows by one), saved and the page redrawn; otherwise nothing changes; the invariant is kept |
| `Store.QuoteStore.ImportFromJson` | dom-manipulation/script.js:89-104 | an array is appended in order and saved; a non-array or a parse failure changes neither the store nor its durable copy, with the matching alert |
| `Store.QuoteStore.Sync` | dom-manipulation/script.js:185-210 | the store becomes the reconciled store; on a difference store and durable copy both become the batch and one notice is raised; otherwise nothing changes and no notice |
| `Store.SyncTwice` | dom-manipulation/script.js:185-210 | two ticks over the same response: the first notifies exactly when it replaces; the second raises no notice and leaves the store and its durable copy as the first left them; only those two fields may change |

## Left out

- DOM work: element lookup, `innerHTML`, building the drop-down's options,
  the styling of the notice (dom-manipulation/script.js:2-4, 129, 138-143,
  161-165, 172-182). Display is returned as lines instead.
- The page-load handler (dom-manipulation/script.js:11-22): it only copies
  saved values into DOM elements and then runs the modelled
  `populateCategories` and `filterQuotes`.
- `clearRandomQuote` and the timers: the two-second clear, the four-second
  dismissal of the notice and the five-second sync interval
  (dom-manipulation/script.js:44-52, 181, 213) are scheduling, not logic.
- `fetch`, `await` and overlapping sync ticks (dom-manipulation/script.js:187-188):
  one sync is one atomic step over a given response; concurrency is not modelled.
- `FileReader` and the export download (dom-manipulation/script.js:88, 105,
  108-122) are browser I/O; an export/import round trip would depend on
  `JSON.stringify`/`JSON.parse`, which the model abstracts.
- JSON details: imported records are taken to be `{text, category}` records
  (extra fields, missing fields and non-record array elements are not
  modelled), remote titles are strings (an absent title is not modelled),
  and the string comparison of two serializations is read as equality of the
  record sequences, which ignores key order.
- `Math.random` and `Math.floor` (dom-manipulation/script.js:31): floating
  point; replaced by an index parameter in range.
- `alert`, `console.log` and `console.error`: the import alerts are returned
  as an outcome with its message; the console lines are dropped.
- The two input fields being cleared after an add (dom-manipulation/script.js:81-82)
  is DOM state.
