# Multi-model streaming round of the Sunmarke assistant, in Dafny

This project models the round bookkeeping of the assistant's streaming
aggregator, `rag_stream`. One user query goes to several language models at
once. Each model has its own chat history. The round does four things:

- It fetches one shared context for all models.
- It appends the user's turn and an empty assistant placeholder to every
  history.
- It opens one stream per model on that model's history before the round.
- It merges the streams' events as they arrive. A value replaces the
  model's placeholder and is yielded. A normal end just drops the stream. A
  failure writes the text `Model error occurred.`, is yielded, and drops the
  stream.

The front end adds `chat_wrapper`, which skips the round for a blank query,
and the text that the "Speak Response" button reads out.

The three hard-coded histories `a`, `b`, `c` become N indexed histories.
Which pending stream completes next, which asyncio decides, becomes an
arrival order: a sequence of source indices. Each stream is modelled by a
finite script: its cumulative values, then `Exhausted` or `Raises`.

Modules:

- `Chat`: turns, histories, the error text, the last-turn update.
- `Text`: `sep.join`, Python's `str.strip` and its whitespace set.
- `Context`: `get_context`, with the embedding and search services as
  parameters.
- `Source`: scripts, events, what a placeholder shows after k events, and
  sums over sources.
- `Round`: the round as values. `Arrive` handles one event and `Run` handles
  an arrival order. The lemmas are about shape, framing, counts,
  termination and final contents.
- `Pipeline`: `rag_stream`, with the caller's histories in an array that is
  edited in place. It calls the corrected retrieval `Context.GetContext`
  (see "## Findings"). A class `Aggregator` holds the pending set,
  the per-source counts and the yielded snapshots. The step method and the
  `while` loop are proved equal to `Round`.
- `App`: `chat_wrapper` and the speech-text extraction, as functions.

Three facts about the code that the model keeps:

- The failure text is `Model error occurred.` (rag_pipeline.py:102).
- Every value and every failure is yielded. So when A yields "Hi" and "Hi
  there", B fails and C yields "OK", the round yields four snapshots
  (`Round.ThreeSourceScenario`).
- With zero sources the round yields nothing. The code always opens three.

## Model

| member | source | states |
|---|---|---|
| Chat.SetContent | rag_pipeline.py:83 | writing a placeholder changes only the content of the last turn; its role and all earlier turns stay |
| Chat.PriorOf | rag_pipeline.py:61-63 | `hist[:-2]` is the history without its last two turns |
| Chat.PriorOfPrepared | rag_pipeline.py:50-63 | slicing the two appended turns off a prepared history gives back the history as it was before the round |
| Text.Join | rag_pipeline.py:28 | `sep.join`: nothing joined is empty, one piece comes back unchanged, and otherwise the result opens with the first piece and closes with the last |
| Text.JoinLength | rag_pipeline.py:28 | a join holds every piece plus one separator per gap |
| Text.JoinAppend | rag_pipeline.py:28 | joining two runs of pieces is joining each and gluing them with one separator |
| Text.JoinEmptyIff | app.py:37-43 | with a non-empty separator, a join is empty exactly when there is nothing to join or one empty piece |
| Text.StripStart | app.py:63 | leading whitespace is removed: the result is a suffix, everything dropped is whitespace, and it does not start with whitespace |
| Text.StripEnd | app.py:63 | trailing whitespace is removed: the result is a prefix, everything dropped is whitespace, and it does not end with whitespace |
| Text.Strip | app.py:63 | `strip()` cuts out a piece of the string between a run of leading and a run of trailing whitespace, and that piece neither starts nor ends with whitespace |
| Text.StripEmptyIff | app.py:63 | `s.strip() == ""` exactly when every character of `s` is whitespace |
| Context.PropertiesOf | rag_pipeline.py:28 | the hits' property strings, one per hit, in search order |
| Context.GetContext | rag_pipeline.py:17-32 | the corrected retrieval: if embedding or search raises, the context is empty and nothing propagates; otherwise it is the hits' properties joined in order with a blank line |
| Context.GetContextLength | rag_pipeline.py:28 | with a successful search the context is empty for no hits, and otherwise holds every hit's text plus two characters per gap |
| Context.GetContextAsWritten | rag_pipeline.py:19-32 | as written, the awaited plain search result always takes the `except` path, so the context is always empty |
| Context.AsWrittenDropsHits | rag_pipeline.py:25 | one search hit gives an empty context as written but that hit's text once corrected |
| Context.AsWrittenIsFailingSearch | rag_pipeline.py:19-32 | the retrieval as written equals the corrected one run with a search that always raises |
| Source.NextEvent | rag_pipeline.py:79-99 | a completed task is a value while the script has values left, then `StopAsyncIteration` or a failure as the script ends |
| Source.FinalText | rag_pipeline.py:79-105 | a finished source shows the error text if it failed, otherwise its last value, or the empty placeholder if it had none |
| Source.ShownNext | rag_pipeline.py:82-105 | each event moves the placeholder to the value, keeps it on normal end, or sets the error text on failure |
| Source.OwedNext | rag_pipeline.py:93-106 | each event uses up one event, and one owed snapshot unless it was the normal end |
| Source.OwedAtStart | rag_pipeline.py:73-106 | before the loop, the snapshots owed are all values of all sources plus one per failing source |
| Round.Arrive | rag_pipeline.py:76-106 | one event of a pending source: a value sets only that source's last content, yields once and keeps it pending; a normal end changes no history, yields nothing and drops it; a failure sets the error text, yields once and drops it; other histories, counts and earlier turns are unchanged |
| Round.Run | rag_pipeline.py:73-106 | handling events in order only appends to the output and never moves a source's count back |
| Round.Indices | rag_pipeline.py:67-71 | the initial task set holds exactly one entry per source |
| Round.StartInv | rag_pipeline.py:50-71 | the state right after the sources are opened satisfies the round invariant |
| Round.ArriveInv | rag_pipeline.py:76-106 | every event preserves the round invariant: each history is prior + query + assistant turn showing the source's progress, pending means events left, every snapshot has that shape, and each snapshot shows for every source a progress no later than now and no earlier than any earlier snapshot's |
| Round.ArriveCounts | rag_pipeline.py:73-106 | each event of a pending source lowers the events left by one and keeps snapshots yielded plus owed constant |
| Round.RunConserves | rag_pipeline.py:73-106 | over any arrival order, snapshots yielded plus snapshots owed stay constant |
| Round.RunInv | rag_pipeline.py:73-106 | the round invariant, with the in-order progress of the snapshots, holds throughout the loop, for any arrival order |
| Round.RunValidCompletes | rag_pipeline.py:73-106 | along any possible arrival order every event is of a pending source, and the loop ends with no source pending after one step per remaining event |
| Round.RoundComplete | rag_pipeline.py:46-106 | for every interleaving, the round yields successes plus failures snapshots, all with the round's shape, and takes values plus N steps; within one source a later snapshot never shows an earlier value; each history ends with the query and the source's final answer, however the events interleave |
| Round.RoundOf | rag_pipeline.py:46-106 | for any arrival order at all, every snapshot has the round's shape, the snapshots show each source's progress in order, and there are at most successes plus failures of them |
| Round.TracksSnoc | rag_pipeline.py:76-91 | handling one more event of a source moves only that source's count on by one |
| Round.DrainStep | rag_pipeline.py:73-106 | one more event keeps the counts tracking the order and the yielded-plus-owed sum, and lowers the events left |
| Round.ThreeSourceScenario | rag_pipeline.py:73-106 | with A yielding "Hi", "Hi there", B failing and C yielding "OK", every arrival order takes 6 steps, yields 4 snapshots and ends with "Hi there", the error text and "OK" |
| Pipeline.Aggregator.Open | rag_pipeline.py:67-71 | opening the round leaves every source pending, nothing consumed and nothing yielded |
| Pipeline.Aggregator.Arrive | rag_pipeline.py:76-106 | the in-place handling of one completed task equals `Round.Arrive` and keeps the invariant |
| Pipeline.Aggregator.Drain | rag_pipeline.py:73-106 | the `while tasks:` loop ends with nothing pending and returns the arrival order it saw, which is a possible order; it yields every owed snapshot and terminates because the remaining events decrease |
| Pipeline.Prepare | rag_pipeline.py:50-57 | user turns go onto every history, then placeholders go onto every history, in place |
| Pipeline.OpenSources | rag_pipeline.py:59-63 | each stream is opened with the history minus its two new turns |
| Pipeline.RagStream | rag_pipeline.py:34-106 | the whole round: the snapshots and final histories are those of `Round` for the order seen, there are successes plus failures snapshots, and each history gains the query and its source's final answer |
| App.IsBlankQuery | app.py:63 | the wrapper's test holds exactly for a missing query or one made only of whitespace |
| App.ChatWrapper | app.py:62-67 | a blank query yields the histories once, unchanged; any other query yields only snapshots with the round's shape, at most successes plus failures of them |
| App.ChatWrapperBlank | app.py:62-65 | a blank query yields the histories unchanged exactly once, and the output does not depend on the models, the retrieval or any arrival order |
| App.ChatWrapperForwards | app.py:66-67 | any other query yields exactly the round's snapshots in order, as many as successes plus failures, each with the round's shape |
| App.TextsOf | app.py:37-39 | a single block gives its text when its type is `text` and nothing otherwise, and at most one string comes out per block; with `App.TextsOfAppend` this fixes the filter-then-map on every list |
| App.TextsOfAppend | app.py:37-39 | the filtered texts keep their blocks' order |
| App.TextsOfEmptyIff | app.py:37-39 | no text comes out exactly when no block has type `text` |
| App.SpeechText | app.py:25-43 | something is spoken only for a history whose last message is the assistant's, and never an empty text; string content is used as is, and block content is the joined texts |
| App.SpeechTextOfBlocks | app.py:36-43 | for block content, nothing is spoken exactly when there is no text block or a single empty one |
| App.SpeechAfterRound | app.py:26-43 | after a round, a column's button reads out that source's final answer, or nothing when it is empty |

## Findings

| source | as written | input that shows it | evidently intended | confidence | as-written member | corrected member |
|---|---|---|---|---|---|---|
| rag_pipeline.py:25 | `await hybrid_search(...)` awaits the list that the plain function `hybrid_search` (services/search_provider.py:30) returns. That raises `TypeError`, and the `except` replaces it with the empty context. | a search that returns one hit with properties "Term dates" | the hits' properties joined with blank lines are given to every model | not executed; high, because `hybrid_search` is declared with `def`, not `async def` | Context.GetContextAsWritten, Context.AsWrittenDropsHits | Context.GetContext |

## Left out

- Pipeline.RagStream: runs the round on the corrected retrieval `Context.GetContext`. The code as written is the instance whose search always raises (`Context.AsWrittenIsFailingSearch`), so every model then gets the empty context.
- App.ChatWrapper: calls the corrected retrieval too, and the same instance gives the code as written.
- Context.AwaitList: awaiting a list is taken to raise (`TypeError` in Python) by definition; Python's `await` protocol is not modelled.

- asyncio tasks, `asyncio.wait` and real concurrency. `Round` takes the arrival order as a parameter. `Pipeline.Aggregator.Drain` makes an arbitrary choice among the pending sources and returns the order it took.
- Several tasks done at once are handled one at a time in the `for task in done` loop. The model treats them as consecutive arrivals.
- Logging (`logger.exception`), since it has no effect on the state.
- Cancellation and timeouts. The code has none.
- Aliasing of yielded lists. Python yields the same list objects each time and keeps mutating them. The model records each snapshot as the histories' value at the moment of the `yield`, which is what a consumer sees if it reads the snapshot before the generator resumes.
- The model backends in services/model_providers.py are not part of this model. They take two arguments and return one string, which does not match the three-argument streaming calls `rag_stream` makes. Each backend is modelled as a function from query, context and prior history to a script.
- The embedding, search and voice services, the configuration and the prompt text are foreign calls or constants. Embedding and search appear only as parameters that return a value or raise.
- `str(item.properties)` formats a dictionary. Each hit carries that string already formed.
- The Gradio layout, event chaining, the lock and unlock helpers, the stylesheet read, `process_voice_input` and the browser's speech synthesis call all fall outside the logic modelled here.
- History contents coming back from the chat widget are taken to be strings in the pipeline. Block-list contents are modelled only for the speech extraction.
