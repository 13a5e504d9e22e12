/** The shared retrieval step of a round (`get_context`): embed the query,
    run the hybrid search with it, and join what was found. The embedding
    and search services are foreign calls, so they are parameters here; each
    either returns a value or raises. */
module Context {
  import opened Text

  /** The outcome of a call that may raise. */
  datatype Attempt<T> = Done(value: T) | Raised

  /** An embedding vector; its floats are passed through untouched. */
  type Vector = seq<real>

  /** A search hit; `properties` is the hit's `str(item.properties)`. */
  datatype Item = Item(properties: string)

  type Embedder = string -> Attempt<Vector>
  type Searcher = (string, Vector) -> Attempt<seq<Item>>

  /** The separator placed between retrieved items. */
  const ItemSeparator: string := "\n\n"

  /** The `properties` strings of the hits, in search order. */
  function PropertiesOf(items: seq<Item>): (r: seq<string>)
    ensures |r| == |items| && forall k :: 0 <= k < |items| ==> r[k] == items[k].properties
  {
    if items == [] then [] else [items[0].properties] + PropertiesOf(items[1..])
  }

  /** `get_context`: never raises; any failure of the embedding or of the
      search gives the empty context, and otherwise the context is the hits'
      properties joined in order with a blank line between them. */
  function GetContext(query: string, embed: Embedder, search: Searcher): (ctx: string)
    ensures embed(query).Raised? ==> ctx == ""
    ensures embed(query).Done? && search(query, embed(query).value).Raised? ==> ctx == ""
    ensures embed(query).Done? && search(query, embed(query).value).Done? ==>
              ctx == Join(PropertiesOf(search(query, embed(query).value).value), ItemSeparator)
  {
    match embed(query)
    case Raised => ""
    case Done(v) =>
      match search(query, v)
      case Raised => ""
      case Done(items) => Join(PropertiesOf(items), ItemSeparator)
  }

  /** When the search succeeds, the context holds every hit's text plus one
      blank line between neighbouring hits, and is empty when no hit came
      back. */
  lemma GetContextLength(query: string, embed: Embedder, search: Searcher)
    requires embed(query).Done? && search(query, embed(query).value).Done?
    ensures var items := search(query, embed(query).value).value;
            var ctx := GetContext(query, embed, search);
            (items == [] ==> ctx == "") &&
            (items != [] ==> |ctx| == TotalLength(PropertiesOf(items)) + 2 * (|items| - 1))
  {
    var items := search(query, embed(query).value).value;
    if items != [] {
      JoinLength(PropertiesOf(items), ItemSeparator);
    }
  }

  /** As written, `get_context` awaits the result of `hybrid_search`, which
      is a plain function returning a list; awaiting a list raises
      `TypeError`, and the `except` turns that into the empty context. */
  function AwaitList<T>(list: seq<T>): Attempt<seq<T>>
  {
    Raised
  }

  /** `get_context` exactly as written, with the plain search function it
      calls: whatever the services return, the context is empty. */
  function GetContextAsWritten(query: string, embed: Embedder, plainSearch: (string, Vector) -> seq<Item>): (ctx: string)
    ensures ctx == ""
  {
    match embed(query)
    case Raised => ""
    case Done(v) =>
      match AwaitList(plainSearch(query, v))
      case Raised => ""
      case Done(items) => Join(PropertiesOf(items), ItemSeparator)
  }

  /** A search that finds one document still gives the empty context as
      written, where the evidently intended behaviour hands the document's
      text to every model. */
  lemma AsWrittenDropsHits(query: string)
    ensures var embed: Embedder := _ => Done([]);
            var hit := [Item("Term dates")];
            && GetContextAsWritten(query, embed, (_, _) => hit) == ""
            && GetContext(query, embed, (_, _) => Done(hit)) == "Term dates"
  {
    var hit := [Item("Term dates")];
    assert PropertiesOf(hit) == ["Term dates"];
  }

  /** The retrieval as written is the corrected one in front of a search
      that always raises. */
  lemma AsWrittenIsFailingSearch(query: string, embed: Embedder, plainSearch: (string, Vector) -> seq<Item>)
    ensures GetContextAsWritten(query, embed, plainSearch) == GetContext(query, embed, (_, _) => Raised)
  {
  }
}
