/** The two pieces of logic in the web front end: `chat_wrapper`, which
    starts a round only for a query that is not blank, and the text that the
    "Speak Response" button reads out of a chat history. */
module App {
  import opened Chat
  import opened Text
  import opened Context
  import opened Source
  import Round

  /** `not query or query.strip() == ""`, for a query that may be `None`: a
      query is blank exactly when it is missing or made only of whitespace
      (the empty query included). */
  function IsBlankQuery(query: Option<string>): (b: bool)
    ensures b <==> query.None? || AllSpace(query.value)
  {
    if query.None? then true
    else
      StripEmptyIff(query.value);
      query.value == "" || Strip(query.value) == ""
  }

  /** `chat_wrapper`: a blank query yields the histories once as they are;
      any other query yields the round's snapshots, each with the round's
      shape, at most one per value plus one per failing source. The round's
      arrival order is a parameter. */
  function ChatWrapper(query: Option<string>, hists: seq<History>, backends: seq<Backend>,
                       embed: Embedder, search: Searcher, order: seq<nat>): (r: seq<seq<History>>)
    requires |backends| == |hists|
    ensures IsBlankQuery(query) ==> r == [hists]
    ensures !IsBlankQuery(query) ==>
              var scripts := Round.Opened(query.value, GetContext(query.value, embed, search), hists, backends);
              && (forall j :: 0 <= j < |r| ==> Round.Shaped(query.value, hists, r[j]))
              && |r| <= Successes(scripts) + Failures(scripts)
  {
    if IsBlankQuery(query) then [hists]
    else Round.RoundOf(query.value, GetContext(query.value, embed, search), hists, backends, order).output
  }

  /** For a blank query exactly one snapshot comes out, the unchanged
      histories, and it does not depend on the backends, the retrieval
      services or any arrival order: no context is fetched, no source is
      opened and no turn is appended. */
  lemma {:induction false} ChatWrapperBlank(query: Option<string>, hists: seq<History>,
                                            backends: seq<Backend>, embed: Embedder, search: Searcher, order: seq<nat>,
                                            backends': seq<Backend>, embed': Embedder, search': Searcher, order': seq<nat>)
    requires |backends| == |hists| && |backends'| == |hists|
    requires query.None? || AllSpace(query.value)
    ensures ChatWrapper(query, hists, backends, embed, search, order) == [hists]
    ensures ChatWrapper(query, hists, backends, embed, search, order)
            == ChatWrapper(query, hists, backends', embed', search', order')
  {
  }

  /** For a query that is not blank, the wrapper yields the snapshots of the
      round that `rag_stream` runs, unchanged and in order: as many as the
      sources produce values plus one per failing source, each one with the
      round's shape (prior turns, the query, one assistant turn). */
  lemma ChatWrapperForwards(query: Option<string>, hists: seq<History>, backends: seq<Backend>,
                            embed: Embedder, search: Searcher, order: seq<nat>)
    requires |backends| == |hists|
    requires query.Some? && !AllSpace(query.value)
    requires Round.ValidOrder(Round.Opened(query.value, GetContext(query.value, embed, search), hists, backends),
                              Zeros(|hists|), order)
    ensures var q := query.value;
            var ctx := GetContext(q, embed, search);
            var scripts := Round.Opened(q, ctx, hists, backends);
            var r := ChatWrapper(query, hists, backends, embed, search, order);
            && r == Round.RoundOf(q, ctx, hists, backends, order).output
            && |r| == Successes(scripts) + Failures(scripts)
            && forall j :: 0 <= j < |r| ==> Round.Shaped(q, hists, r[j])
  {
    var q := query.value;
    var ctx := GetContext(q, embed, search);
    Round.RoundComplete(q, hists, Round.Opened(q, ctx, hists, backends), order);
  }

  /** One block of a structured message content. */
  datatype Block = Block(kind: string, text: string)

  /** A message content as the browser sees it: a string, a list of
      blocks, or anything else. */
  datatype Content = Str(s: string) | Blocks(blocks: seq<Block>) | Other

  /** A chat message as the browser sees it. */
  datatype Message = Message(role: string, content: Content)

  /** `.filter(block => block.type === 'text').map(block => block.text)`. */
  function TextsOf(blocks: seq<Block>): (r: seq<string>)
    ensures |r| <= |blocks|
    ensures |blocks| == 1 ==> r == (if blocks[0].kind == "text" then [blocks[0].text] else [])
  {
    if blocks == [] then []
    else (if blocks[0].kind == "text" then [blocks[0].text] else []) + TextsOf(blocks[1..])
  }

  /** Filtering and mapping distributes over concatenation, so the texts
      keep the order of their blocks. */
  lemma {:induction false} TextsOfAppend(xs: seq<Block>, ys: seq<Block>)
    ensures TextsOf(xs + ys) == TextsOf(xs) + TextsOf(ys)
  {
    if xs == [] {
      assert xs + ys == ys;
    } else {
      var zs := xs + ys;
      assert zs[0] == xs[0];
      assert zs[1..] == xs[1..] + ys;
      TextsOfAppend(xs[1..], ys);
      var head := if xs[0].kind == "text" then [xs[0].text] else [];
      assert TextsOf(zs) == head + TextsOf(zs[1..]);
      assert TextsOf(xs) == head + TextsOf(xs[1..]);
    }
  }

  /** No text comes out exactly when no block is of type `text`. */
  lemma {:induction false} TextsOfEmptyIff(blocks: seq<Block>)
    ensures TextsOf(blocks) == [] <==> forall k :: 0 <= k < |blocks| ==> blocks[k].kind != "text"
  {
    if blocks != [] {
      TextsOfEmptyIff(blocks[1..]);
      assert forall k :: 1 <= k < |blocks| ==> blocks[k] == blocks[1..][k - 1];
    }
  }

  /** The text `speak_js` reads aloud, or None when it returns without
      speaking: there must be a history whose last message is the
      assistant's; string content is taken as it is, block content is the
      texts of its `text` blocks joined by one space, other content gives
      no text, and an empty text is not spoken. */
  function SpeechText(history: Option<seq<Message>>): (r: Option<string>)
    ensures r.Some? ==> r.value != ""
    ensures r.Some? ==> history.Some? && history.value != []
                        && history.value[|history.value| - 1].role == "assistant"
    ensures history.Some? && history.value != [] && history.value[|history.value| - 1].role == "assistant" ==>
              match history.value[|history.value| - 1].content
              case Str(s) => r == (if s == "" then None else Some(s))
              case Blocks(bs) => r.Some? ==> r.value == Join(TextsOf(bs), " ")
              case Other => r.None?
  {
    if history.None? || |history.value| == 0 then None
    else
      var last := history.value[|history.value| - 1];
      if last.role != "assistant" then None
      else
        var text := match last.content
                    case Str(s) => s
                    case Blocks(bs) => Join(TextsOf(bs), " ")
                    case Other => "";
        if text == "" then None else Some(text)
  }

  /** For block content, nothing is spoken exactly when there is no `text`
      block or a single one whose text is empty. */
  lemma SpeechTextOfBlocks(history: seq<Message>)
    requires history != [] && history[|history| - 1].role == "assistant"
    requires history[|history| - 1].content.Blocks?
    ensures var texts := TextsOf(history[|history| - 1].content.blocks);
            SpeechText(Some(history)).None? <==> (texts == [] || (|texts| == 1 && texts[0] == ""))
  {
    JoinEmptyIff(TextsOf(history[|history| - 1].content.blocks), " ");
  }

  /** A history turn as the browser receives it. */
  function AsMessage(t: Turn): Message
  {
    Message(if t.role == User then "user" else "assistant", Str(t.content))
  }

  function AsMessages(h: History): seq<Message>
  {
    seq(|h|, k requires 0 <= k < |h| => AsMessage(h[k]))
  }

  /** After a round, pressing "Speak Response" on a column reads out that
      source's final answer (its last cumulative value, or the error text),
      and nothing when the source produced no text. */
  lemma SpeechAfterRound(query: string, prior: seq<History>, scripts: seq<Script>, order: seq<nat>, i: nat)
    requires |prior| == |scripts| && i < |scripts|
    requires Round.ValidOrder(scripts, Zeros(|scripts|), order)
    ensures var h := Round.Run(scripts, Round.Start(query, prior), order).hists[i];
            SpeechText(Some(AsMessages(h)))
            == if FinalText(scripts[i]) == "" then None else Some(FinalText(scripts[i]))
  {
    Round.RoundComplete(query, prior, scripts, order);
  }
}
