/** The values every part of the quote widget shares: the quote record, what
    JSON.parse yields as far as the widget tells it apart, what durable storage
    holds under the key "quoteItem", and the startup load of the store. */
module Quotes {

  datatype Option<+T> = None | Some(value: T)

  /** A quote as the widget keeps it. There is no identity field: two quotes
      are the same when both fields are. */
  datatype Quote = Quote(text: string, category: string)

  /** How a quote is written out, both as a display line and as the value
      kept in session storage under "lastViewedQuote". */
  function Line(q: Quote): string
  {
    q.text + " - " + q.category
  }

  /** One display line per quote, in store order. */
  function Render(qs: seq<Quote>): seq<string>
  {
    seq(|qs|, i requires 0 <= i < |qs| => Line(qs[i]))
  }

  /** The result of JSON.parse, reduced to the one distinction the widget
      makes: an array (of quote records) or any other value. */
  datatype JsonValue = JArray(items: seq<Quote>) | JNonArray

  /** What localStorage holds under "quoteItem": nothing, text that JSON.parse
      rejects, or text that parses to a value. */
  datatype Blob = Missing | Unparsable | Json(value: JsonValue)

  /** What saveQuotes writes: the serialized store. */
  function Persist(qs: seq<Quote>): Blob
  {
    Json(JArray(qs))
  }

  /** The startup expression for the store. A missing key reads as null,
      JSON.parse(null) is null and `|| []` turns that into the empty array; any
      other non-array value is replaced by the empty array as well. Text that
      JSON.parse rejects is not caught: the result None stands for that
      exception. */
  function LoadQuotes(b: Blob): (r: Option<seq<Quote>>)
    ensures r.None? <==> b.Unparsable?
    ensures b.Json? && b.value.JArray? ==> r == Some(b.value.items)
    ensures b.Missing? || (b.Json? && b.value.JNonArray?) ==> r == Some([])
  {
    match b
    case Missing => Some([])
    case Unparsable => None
    case Json(JArray(items)) => Some(items)
    case Json(JNonArray) => Some([])
  }

  /** Whatever saveQuotes writes loads back as exactly the store it wrote. */
  lemma LoadPersisted(qs: seq<Quote>)
    ensures LoadQuotes(Persist(qs)) == Some(qs)
  {
  }
}
