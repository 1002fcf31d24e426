# Utility-rate chat assistant: a Dafny model

This project models the message and text handling of a retrieval-augmented chat application for
U.S. utility-rate data, and proves properties of the model. It covers:

- **Orchestrator** (`server/chain.js`, module `Chain`):
  - the `retrieve` tool's serialiser;
  - the three graph nodes `queryOrRespond`, `tools` and `generate`, with `generate`'s backward
    scan, history filter and prompt build;
  - the fixed, linear graph `queryOrRespond → tools → generate`.
- **Record transformation** (`server/urdb.js`, module `Urdb`): `transformToDocuments`, which turns
  a Utility Rate Database record into a document.
- **`/conversation` handler** (`server/index.js`, module `Server`):
  - payload validation;
  - one server-sent event per streamed graph step, with its `content`, `type` and `sources`;
  - the error event and the end of the response.
- **Chat panel** (`client/src/components/ChatPanel.js`, module `ChatPanel`): `handleSend`, covering
  the blank-input guard, the request body, frame splitting, parsing, source and reply
  classification, URI extraction and the shared `currentSources` array.
- **Both ends together** (module `Conversation`):
  - the client's requests pass the server's validation;
  - the client reads back exactly the events the server framed;
  - what the panel shows at the end of a turn.

The supporting modules are `Strings`, `Json`, `Messages` and `Wrappers`:

- `Strings` holds JavaScript's `startsWith`, `join`, `split` with a string separator and the
  white-space class of `trim()` and `\s`.
- `Json` is a JSON value type.
- `Messages` holds the LangChain message and document shapes.
- `Wrappers` holds `Option` and `Result`.

External calls appear in the model only as function-typed parameters:

- the chat models (`llmWithTools`, `llm`);
- the similarity search;
- tool execution (`runTool`);
- `JSON.stringify` and `JSON.parse` (partial: `Option`);
- the library's message `type`;
- the graph run as the server sees it;
- `fetch` together with the stream reader.

Library behaviour that is not visible in the source is stated as an assumption where it is used:

- the history reducer appends each node's update;
- the `values` stream emits the state after the input and after every node;
- `ToolNode` answers every tool call of the last AI message, in order, with one tool message each.

The state of the two ends is modelled as classes:

- the Express response is the class `Server.Response` (headers, status, written chunks, ended);
- the panel's React state is the class `ChatPanel.ChatPanel` (`messages`, `loading`);
- `currentSources` is the class `ChatPanel.SourceList`. It is shared by reference with the pending
  assistant message, as in the source.

## Model

| member | source | states |
|---|---|---|
| Chain.DocRecords | server/chain.js:55-59 | one `Source: <metadata.source>\nContent: <pageContent>` record per document, in retrieval order |
| Chain.Serialize | server/chain.js:55-60 | no documents give the empty text; otherwise the text starts with the first document's record |
| Chain.SerializeSmall | server/chain.js:55-60 | no documents serialise to the empty text; one document serialises to its own record |
| Chain.SerializeAppend | server/chain.js:55-60 | exactly one `\n` separates the serialisations of two consecutive runs of documents |
| Chain.SerializeStartsWithFirst | server/chain.js:55-60 | a non-empty serialisation starts with the first document's record, so with `Source: ` and that document's source |
| Chain.Retrieve | server/chain.js:52-61 | the search is asked for exactly 3 documents; the result pairs their serialisation with the unchanged document list |
| Chain.QueryOrRespond | server/chain.js:73-77 | the state update is exactly one AI message: the tool-bound model's reply to the whole history |
| Chain.ToolsNode | server/chain.js:80 | (assumed ToolNode behaviour) one tool message per tool call of the last AI message, in order, each carrying its call's id and the content and artifact that running that call returns |
| Chain.ToolRunStart | server/chain.js:85-93 | the scan stops at the start of the maximal contiguous suffix of tool messages: everything after it is a tool message and the message before it is not |
| Chain.ToolRunStartUnique | server/chain.js:85-93 | only one position satisfies that description |
| Chain.RecentToolMessages | server/chain.js:85-94 | the collected messages are a suffix of the history, all tool messages, and the message just before that suffix, if any, is not a tool message |
| Chain.RecentToolMessagesNone | server/chain.js:86-92 | when the history is empty or does not end in a tool message, nothing is collected |
| Chain.RecentToolMessagesAfter | server/chain.js:85-94 | after a non-tool message followed by a run of tool messages, exactly that run is collected, in history order |
| Chain.Reversed | server/chain.js:94 | `reverse` puts element k at position length − 1 − k |
| Chain.Contents | server/chain.js:95 | one content per collected message, in order |
| Chain.ConversationMessages | server/chain.js:105-111 | no longer than the history; every kept message is a human message, a system message, or an AI message with absent or empty `tool_calls` |
| Chain.ConversationMessagesAppend | server/chain.js:105-111 | the filter judges each message on its own: it distributes over concatenation |
| Chain.ConversationMessagesMembers | server/chain.js:105-111 | a message survives exactly when it is in the history and is a human message, a system message, or an AI message with absent or empty `tool_calls` |
| Chain.ConversationMessagesSingle | server/chain.js:105-111 | a single message passes the filter exactly when it is a human message, a system message or an AI message with absent or empty `tool_calls` |
| Chain.ConversationMessagesDropsAll | server/chain.js:105-111 | a run of messages none of which passes the test leaves nothing |
| Chain.ConversationMessagesDropsTools | server/chain.js:105-111 | a run of tool messages contributes nothing to the filtered history |
| Chain.ConversationMessagesSubsequence | server/chain.js:105-111 | the filtered history is an order-preserving subsequence of the history |
| Chain.Prompt | server/chain.js:112-115 | the prompt opens with one system message followed by at most the whole history, and holds no tool message after it |
| Chain.PromptShape | server/chain.js:95-115 | the prompt's length is 1 plus that of the filtered history; its first element is the system message holding the instructions, `\n\n`, then the trailing tool contents joined by `\n`; the rest is the filtered history, with no tool message and nothing that is not in the history |
| Chain.BuildPrompt | server/chain.js:84-115 | the backward `for` loop with `break`, the in-place reversal, the join and the filter build exactly `Prompt(h)` |
| Chain.Generate | server/chain.js:84-117 | the state update is exactly one AI message, the plain model's reply to the prompt; it equals the specification `GenerateUpdate` the graph applies |
| Chain.RouteIsLinear | server/chain.js:122-130 | every run visits `queryOrRespond`, `tools`, `generate` in this order and ends, with no branch |
| Chain.RunFrom | server/chain.js:122-130 | (assumed append behaviour) one state per node still to run, each extending the state the run started from |
| Chain.Stream | server/chain.js:122-130 | (assumed `values` stream) four states, the first the history followed by the input, every one extending it |
| Chain.StreamUnfolds | server/chain.js:122-130 | a turn's `values` stream is the four states after the input and after each node |
| Chain.TurnShape | server/chain.js:122-130 | one turn appends the input, one AI message, one tool message per call of that AI message, and one final AI message, whether or not tools were requested |
| Chain.ToolsAnswerCalls | server/chain.js:80 | (assumed ToolNode behaviour) after an AI message, each of its tool calls is answered, in order, by a tool message carrying the call's id |
| Chain.GenerateSeesThisTurnsTools | server/chain.js:84-103 | the context `generate` collects is exactly the tool messages the `tools` node appended in this turn; with no calls, the system text is the instructions plus `\n\n` |
| Chain.TurnLeavesOnlyRealTurns | server/chain.js:105-117 | over any turn whose final answer has absent or empty `tool_calls`, the filtered history gains the input's conversational messages, the first reply when it is conversational, and the final answer; a first reply that requested tools drops out with the tool messages, one that answered directly stays |
| Chain.FilteredTurn | server/chain.js:105-111 | the tool-calling AI message and its tool messages drop out of the filtered history; a final AI message with absent or empty `tool_calls` stays |
| Chain.FilteredAnyTurn | server/chain.js:105-111 | over any turn, the tool messages drop out, the first AI message stays exactly when it passes the filter, and a final AI message with absent or empty `tool_calls` stays |
| Chain.FirstReplyCases | server/chain.js:105-111 | the first reply adds nothing to the filtered history when it requested tools, and itself when it answered directly |
| Chain.ToolsRunRetrieve | server/chain.js:51-80 | when tool execution runs the `retrieve` tool, the answer to each `retrieve` call has as content the serialisation of the 3 documents the search returns for the call's query, and those documents as artifact |
| Chain.RetrieveToolMessages | server/chain.js:51-80 | in a turn, the tool message answering the i-th `retrieve` call of the AI message holds that call's serialised search results, with the documents as artifact |
| Chain.RetrievedContents | server/chain.js:51-95 | when every call is a `retrieve` call, the tool messages' contents are the serialised search results, one per call, in call order |
| Chain.GenerateContextIsRetrieved | server/chain.js:51-103 | when every call of the turn is a `retrieve` call, `generate`'s system text is the instructions, `\n\n`, and the serialised search results of those calls joined by `\n` |
| Urdb.NonEmpty | server/urdb.js:81 | `filter(Boolean)`: a string is kept exactly when it is one of the inputs and is not empty |
| Urdb.NonEmptyAppend | server/urdb.js:81 | the filter distributes over concatenation |
| Urdb.NonEmptyKeepsAll | server/urdb.js:81 | a list with no empty string is kept whole |
| Urdb.Components | server/urdb.js:64-80 | fifteen candidate lines: the four head lines with their defaults first and the URI line last |
| Urdb.Lines | server/urdb.js:64-81 | no line is empty; a candidate line is kept exactly when it is not empty; the first line is always the Utility line |
| Urdb.PageContent | server/urdb.js:64-82 | the text always starts with the Utility line |
| Urdb.TransformRecord | server/urdb.js:84-90 | `metadata.source` is `URDB`; `metadata.id` is `label` when it is truthy and `unknown_id` otherwise; `pageContent` is the record's text |
| Urdb.TransformToDocuments | server/urdb.js:35-91 | one document per record, in the same order, each the record's own document, each with source `URDB` |
| Urdb.ComponentIsOptionalLine | server/urdb.js:44-61 | each optional component is the line of the source's test, or empty when the test fails |
| Urdb.OptionalComponents | server/urdb.js:69-78 | the optional components keep exactly the lines whose tests pass, in the fixed order |
| Urdb.LinesLayout | server/urdb.js:38-82 | the lines are: Utility, Name, Sector and Description with their defaults; then exactly the optional lines whose test passes (basic info and flat-demand unit when truthy; the capacity, charge and voltage fields when not `undefined`; the flat-demand summary when the field is a non-empty array, shown through element 0); then the URI line with its default; no line is empty |
| Urdb.HeadAndUriKept | server/urdb.js:64-82 | the Utility, Name, Sector, Description and URI lines are never dropped by the filter |
| Urdb.PageContentLayout | server/urdb.js:64-82 | the text is the four head lines, the present optional lines and the URI line, each separated by one `\n` |
| Urdb.ZeroStillShown | server/urdb.js:46 | a capacity value rendered as `0` still produces its line |
| Server.RequestMessages | server/index.js:29-32 | the payload is accepted exactly when `messages` is present and is an array |
| Server.RetrieveMessages | server/index.js:42-44 | a message is kept exactly when it is one of the step's messages and its first raw tool call names the function `retrieve` |
| Server.RetrieveMessagesAppend | server/index.js:42-44 | that filter distributes over concatenation |
| Server.SourceEntry | server/index.js:47-57 | no entry exactly when the arguments are missing, unparsable or `null`; otherwise the entry's `content` is the arguments' `query` and its `result` their `result`, and it has no other key |
| Server.Entries | server/index.js:47-57 | one entry or null per retrieve-calling message |
| Server.Present | server/index.js:58 | `filter(Boolean)` keeps a value exactly when it was present, and no more values than it got |
| Server.PresentAppend | server/index.js:58 | that filter distributes over concatenation |
| Server.StepSources | server/index.js:42-58 | no more sources than retrieve-calling messages; each source is the entry of one of the step's retrieve-calling messages |
| Server.StepSourcesSingle | server/index.js:42-58 | a single message contributes its entry when it calls `retrieve` first and its arguments are read, and nothing otherwise |
| Server.StepSourcesAppend | server/index.js:42-58 | `sources` is gathered message by message, in order |
| Server.StepEventFields | server/index.js:61-67 | the event's `content` is the last message's content, its `type` that message's type or `message` when falsy, its `sources` the step's sources, and it has no `error` |
| Server.StepEvent | server/index.js:60-68 | a step with messages gives the event whose `content` is its last message's content, whose `type` is that message's type or `message` when the type is falsy, and whose `sources` are the step's sources; a step without messages throws the TypeError for reading `content` |
| Server.ErrorEvent | server/index.js:75-78 | the error event carries `error: 'Failed to process conversation.'` and the error's message as `details`, and no `content` |
| Server.FirstEmpty | server/index.js:61 | the index of the first step without messages |
| Server.FirstEmptyUnique | server/index.js:40-61 | the loop stops at the one step without messages that follows only steps with messages, or after all steps |
| Server.TailEvents | server/index.js:61-79 | one closing event exactly when a step has no messages or the stream failed |
| Server.Events | server/index.js:40-79 | at most one event more than there are steps; only the last event can carry `error` |
| Server.EventsShape | server/index.js:40-79 | exactly one event per step up to the first step without messages, each that step's own event; then, if that step exists or the stream failed, one error event carrying the TypeError's or the stream's message, and nothing after it |
| Server.EventsAtEmptyStep | server/index.js:61-79 | a step without messages ends the events with the TypeError's error event |
| Server.EventsAtStep | server/index.js:40-69 | a step with messages adds exactly its own event |
| Server.EventsAtEnd | server/index.js:69-79 | after steps that all have messages, a failing stream adds exactly one error event |
| Server.Framed | server/index.js:64-68 | each event is written as `data: <json>\n\n` |
| Server.FramedAppend | server/index.js:64-68 | frames of consecutive events are consecutive |
| Server.Response.Set | server/index.js:22-26 | the SSE headers are added and nothing else changes |
| Server.Response.Write | server/index.js:64-68 | one chunk is appended |
| Server.Response.End | server/index.js:72 | the response is ended and nothing else changes |
| Server.Response.SendJson | server/index.js:31 | the status and the one JSON body are written and the response is ended |
| Server.WriteFrame | server/index.js:64-68 | one more frame is written after the frames already written |
| Server.FramesLayout | server/index.js:40-79 | one frame per step before the first step without messages, each that step's event; then the error frame when there is one |
| Server.WriteStepFrames | server/index.js:40-69 | the `for await` loop stops at the first step without messages, having written exactly the frames of the steps before it |
| Server.StreamSteps | server/index.js:40-80 | the `for await` loop writes exactly the frames of the events of the stream, then ends the response, on the success path and on both error paths |
| Server.HandleConversation | server/index.js:21-81 | SSE headers on every path; an invalid payload writes the 400 body, runs no graph and ends the response; a valid one runs the graph with thread `conversation_1` in `values` mode, writes the events' frames and ends the response |
| ChatPanel.Role | client/src/components/ChatPanel.js:42 | the role is `user` exactly for messages sent by the user, and `assistant` otherwise |
| ChatPanel.RequestEntries | client/src/components/ChatPanel.js:41-44 | one `{role, content}` object per message, in order, with the message's text as `content` |
| ChatPanel.RequestBody | client/src/components/ChatPanel.js:40-45 | the body's `messages` are those entries |
| ChatPanel.DataFrames | client/src/components/ChatPanel.js:58 | a piece is kept exactly when it is one of the pieces and starts with `data:` |
| ChatPanel.DataFramesAppend | client/src/components/ChatPanel.js:58 | the filter distributes over concatenation: no frame is dropped or reordered |
| ChatPanel.EventsOf | client/src/components/ChatPanel.js:58 | the frames are exactly the pieces of the `\n\n` split that start with `data:` |
| ChatPanel.Payload | client/src/components/ChatPanel.js:62 | the payload is the frame without `data:` and the white space after it; it does not start with white space |
| ChatPanel.ContentOf | client/src/components/ChatPanel.js:61-64 | a frame counts only when it parses to an object whose `content` is a non-empty string; a failed parse skips that frame |
| ChatPanel.LineEnd | client/src/components/ChatPanel.js:69 | the lazy group ends at the first line terminator or at the end of the text |
| ChatPanel.ExtractUri | client/src/components/ChatPanel.js:69 | the extracted URI never contains a line terminator |
| ChatPanel.UriGroupHasNoTerminator | client/src/components/ChatPanel.js:69 | a regular-expression group never spans a line terminator |
| ChatPanel.ExtractUriOfLine | client/src/components/ChatPanel.js:69 | on the first `URI: ` line, when that line is ended by `\n` or by the end of the text, the URI is everything after the marker |
| ChatPanel.LineEndAt | client/src/components/ChatPanel.js:69 | the group stops before a `\n` or at the end |
| ChatPanel.UriMatchSkips | client/src/components/ChatPanel.js:69 | positions without `URI: ` are skipped by the search |
| ChatPanel.NoMarkerNoUri | client/src/components/ChatPanel.js:69 | content without `URI: ` gets the URI `''` |
| ChatPanel.LineEndCr | client/src/components/ChatPanel.js:69 | the group stops before a `\r` |
| ChatPanel.CrLfLineHasNoUri | client/src/components/ChatPanel.js:69 | a `URI: ` line ended by `\r\n` gets `''` whatever its URI, since `.` does not match `\r` |
| ChatPanel.NoMatchBeforeCr | client/src/components/ChatPanel.js:69 | the search finds nothing when every `URI: ` group runs into a `\r` and no marker starts after it |
| ChatPanel.Classify | client/src/components/ChatPanel.js:64-80 | content starting with `Source: URDB` becomes a source, with its extracted URI; any other non-empty string content becomes the pending reply; anything else is skipped |
| ChatPanel.ChunkActions | client/src/components/ChatPanel.js:58-62 | one action per `data:` frame of the chunk |
| ChatPanel.StreamActions | client/src/components/ChatPanel.js:53-62 | no chunk gives no actions; a single chunk gives its own actions |
| ChatPanel.StreamActionsAppend | client/src/components/ChatPanel.js:53-62 | later chunks only append their actions after those of the chunks read before |
| ChatPanel.SourcesOf | client/src/components/ChatPanel.js:66-70 | no more sources than frames |
| ChatPanel.LastReply | client/src/components/ChatPanel.js:71-79 | the reply is absent exactly when no reply frame arrived; otherwise it is the text of a reply frame that no later reply frame follows: the last one wins |
| ChatPanel.SourcesOfAppend | client/src/components/ChatPanel.js:66-70 | sources are collected frame by frame, in arrival order |
| ChatPanel.SourcesOfMembers | client/src/components/ChatPanel.js:66-70 | a source is collected exactly when one of the frames is that source |
| ChatPanel.SourcesAroundLastReply | client/src/components/ChatPanel.js:51-78 | the shared array holds the sources that arrived before the winning reply followed by those that arrived after it |
| ChatPanel.LastReplyAppend | client/src/components/ChatPanel.js:71-79 | a reply in later frames overrides the pending one; otherwise the pending one stays |
| ChatPanel.ActionEffect | client/src/components/ChatPanel.js:64-80 | one more frame adds its source to the sources, or replaces the pending reply, or leaves both as they were |
| ChatPanel.Apply | client/src/components/ChatPanel.js:64-80 | the loop body for one frame: a source is pushed into the shared array, a reply makes a new pending assistant message sharing that array |
| ChatPanel.SourceList.Push | client/src/components/ChatPanel.js:67 | one source is appended to the shared array |
| ChatPanel.ConsumeChunk | client/src/components/ChatPanel.js:60-85 | the inner `for` loop leaves the shared array holding the sources of all frames so far; the pending assistant message exists exactly when a reply frame arrived, carries the last reply and shares the array |
| ChatPanel.ChatPanel.Begin | client/src/components/ChatPanel.js:24-45 | blank input (after `trim`) changes nothing and sends nothing; otherwise the user message is appended last, `loading` is set, and the request lists every message with the new one last |
| ChatPanel.ChatPanel.Finish | client/src/components/ChatPanel.js:48-95 | at most one assistant message is appended, only when reading ended normally and a reply frame arrived; its text is the last reply; its sources are the fresh shared array holding every source of the stream; `loading` ends false on every path |
| ChatPanel.ChatPanel.HandleSend | client/src/components/ChatPanel.js:23-96 | the whole send: nothing for blank input; otherwise the prior messages, then the user message, then at most one assistant message, and `loading` false afterwards |
| Conversation.RequestAccepted | server/index.js:29-32 | every request body the panel builds passes the server's validation, with one entry per panel message |
| Conversation.PayloadOfFrame | client/src/components/ChatPanel.js:62 | stripping a server frame's prefix gives back the JSON text that was written |
| Conversation.EventsOfFrames | client/src/components/ChatPanel.js:58 | splitting concatenated server frames on `\n\n` and keeping the `data:` pieces gives exactly one piece per frame, in order |
| Conversation.EventsOfCons | client/src/components/ChatPanel.js:58 | a `data:` piece without a newline, followed by `\n\n`, is the first piece kept, before the pieces of the rest |
| Conversation.ChunkOfFrames | client/src/components/ChatPanel.js:58-62 | a chunk of whole frames gives one client action per server event, in order |
| Conversation.WholeFrameChunks | client/src/components/ChatPanel.js:53-62 | however the frames are grouped into chunks, as long as none is cut, the client acts on exactly the server's events |
| Conversation.LastEventOfFullRun | server/index.js:40-69 | with no empty step and no failure there is one event per step, and the last event is the last step's |
| Conversation.ContentAction | client/src/components/ChatPanel.js:64-80 | the action for an event holding only a content: skipped exactly when the content is empty, a source exactly when it is non-empty and starts with `Source: URDB`, otherwise that content as the reply |
| Conversation.ErrorEventIgnored | client/src/components/ChatPanel.js:64 | the server's error event touches neither the reply nor the sources |
| Conversation.StepEventAction | server/index.js:61-67 | a step's event acts on the client only through the last message's content |
| Conversation.RetrievedContentIsSource | server/chain.js:58 | tool content whose first document has source `URDB` (the source every transformed record carries, server/urdb.js line 87) is classified by the client as a source |
| Conversation.TurnReply | client/src/components/ChatPanel.js:71-80 | after a whole turn, the panel's reply is the final model answer, whenever that answer is non-empty and does not itself start with `Source: URDB` |
| Conversation.EventsOfFailedFirstStep | server/index.js:40-79 | one step with messages followed by a failing stream gives that step's event and then the error event |
| Conversation.FailureAfterInputEchoes | server/index.js:61-79 | when the run fails right after the input step, the panel's reply is the last input message, that is, the user's own question |

## Left out

- **I/O.** Express setup, `fetch`, `ReadableStream`, `TextDecoder` and logging to the console are
  left out. The server's writes and the client's chunks are sequences.
- **Frames cut across chunks.** A frame that is split across two chunks inside its JSON is lost
  as a parse error. A chunk boundary that falls between the two `\n` of a separator loses a frame
  silently instead: the earlier frame still parses, since `JSON.parse` accepts the trailing `\n`,
  but the next chunk's first piece starts with `\n`, fails the `data:` test and is dropped with no
  parse error. `Conversation.WholeFrameChunks` therefore assumes that every chunk holds whole
  frames.
- **External services.** The chat models, the embeddings, the Pinecone index and the similarity
  search are parameters.
- **LangGraph internals.** These are `StateGraph`, `ToolNode` and `MemorySaver`. Their append
  behaviour, the `values` stream, and `ToolNode`'s one message per call, in order, are assumptions
  (see `Chain.ToolsNode`, `Chain.RunFrom`).
- **Conversion of request objects into messages.** The graph receives the request's `{role,
  content}` objects, and the library inside the server's `graph` parameter turns them into
  messages.
- **The checkpointer's history.** `MemorySaver` keeps a thread's history across requests. It is
  the `prior` argument of `Chain.Stream`, arbitrary in every lemma.
- **`ToolNode`'s concurrency.** `ToolNode` runs calls concurrently.
- **Concurrent requests.** These race on the single thread `conversation_1`.
- **JSON.** `JSON.stringify` and `JSON.parse` are abstract. The end-to-end lemmas assume (in
  `Conversation.Codec`) that a value's text is one line, does not start with white space, and
  parses back to the value.
- **Message content.** The content of a message is a string. LangChain's content-part arrays are
  not modelled.
- **Error messages.** The only error text modelled is V8's message for reading `content` of
  `undefined`. Every other thrown error is the stream's `error`, with its message as text.
- **Other client code.**
  - The panel's `useEffect` path for a pending question (client/src/components/ChatPanel.js
    lines 16-21) is only a second caller of `handleSend`.
  - The `id` (`Date.now()`) and `direction` fields of panel messages are left out: clock and
    rendering.
  - React's asynchronous state updates are taken to apply in call order, with no other send in
    between.
- **Offline code.** `fetchURDBData`, the indexing script and its text splitter are left out, so
  the documents the search returns are not derived from `Urdb.TransformToDocuments`.
  `Conversation.RetrievedContentIsSource` relies only on their `metadata.source`.
- Server.Response.SendJson: the headers that Express's `res.json` adds or rewrites through
  `res.send` are not modelled: the `Content-Type` charset, `Content-Length` and `ETag`.
  `SendJson` keeps the headers unchanged as a simplification. So on the 400 path
  `Server.HandleConversation` states the SSE headers alone.
- **Urdb.Record: non-string field values.** Numeric fields hold the text a template literal makes
  of them. String fields hold strings. Truthiness of non-string values of string fields is not
  modelled.

## Observations

These are consequences of the code as written. An item that names a lemma is proved by that
lemma. An item marked as a remark is not proved. None is classed as a defect.

- **The user's question shown as the reply.**
  - The first event of every turn carries the state after the input, so its `content` is the
    user's own question (`Chain.Stream`, `Server.StepEventFields`).
  - The final answer overrides it when that answer is non-empty and does not start with
    `Source: URDB` (`Conversation.TurnReply`).
  - When the run fails after that first step, the panel shows the question as the assistant's
    reply (`Conversation.FailureAfterInputEchoes`).
- **A directly answered turn reaches later prompts twice.** The graph always runs `generate`,
  even when the first reply asked for no tools. That first reply has absent or empty
  `tool_calls`, so the history filter keeps it next to `generate`'s answer. A later prompt then
  sees two assistant replies for that one turn (`Chain.TurnLeavesOnlyRealTurns`).
- **Sources and URIs.**
  - Only the last message of each step reaches the client (`Conversation.StepEventAction`). When
    the model makes several tool calls, only the last tool message's content can become a source.
  - The URI shown for tool content with several documents is the one on the first `URI: ` line
    that ends with `\n` or with the end of the text (`ChatPanel.ExtractUriOfLine`). A remark, not
    proved: that is usually the first document's.
- **The `sources` field.**
  - The server's `sources` entries are read from the provider's raw tool-call arguments
    (`Server.SourceEntry`). A remark, not proved: the retrieve tool's schema declares only a
    `query` argument, so `result` is normally absent.
  - The client ignores `sources` entirely. The action for an event depends only on its
    `content` (`ChatPanel.ContentOf`, `ChatPanel.Classify`).
