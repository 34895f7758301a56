# Chat client and relay: a Dafny model

This project models the two pieces of logic in a small web chat client that
talks to a hosted language model:

* **The session controller of the chat page** (`app/page.tsx`). It owns the
  transcript (`messages`), the input box (`input`), the in-flight flag
  (`isLoading`), the selected model and the saved history. Four handlers
  change that state:
  * submitting a message, guarded against blank input and double
    submission, then streaming the reply into one growing assistant
    message;
  * starting a new chat, which saves a non-empty transcript with a
    50-character preview;
  * loading a saved conversation;
  * deleting saved conversations by id.
  These are the class `Session.ChatSession`.
* **The relay endpoint** (`app/api/chat/route.ts`). It prepends a system
  message, defaults the model id and forwards the provider's streamed text
  deltas to the response body. An error during the stream becomes an
  in-band line. An error before the stream exists becomes a 500 JSON error.
  The message assembly is pure functions. The forwarding loop is the method
  `Relay.Pump`, which writes to a `Relay.Sink` (the stream controller) and
  closes it on every path.

The records of `lib/types.ts` are the datatypes of module `Types`. Module
`Text` holds JavaScript's `trim` and the concatenation of streamed pieces.
Module `Pipeline` joins the page and the relay into one user turn.

Two behaviours worth stating outright:
* When a client-side turn fails, the page **appends** the fixed error
  message (`app/page.tsx:107-110`); it does not overwrite the placeholder.
  A read error in the middle of a stream therefore leaves the partial
  assistant message in place and adds the error message after it.
* The relay has no separate 400 path. Every failure before the stream
  exists is a 500.

Inputs the code gets from outside become parameters:
* the relay's reply as the page sees it (`Session.Reply`);
* the provider's behaviour (`Relay.Upstream`: a sequence of optional deltas
  plus an optional failure position);
* the parsed request body (`Relay.Parsed`);
* `process.env.SYSTEM_PROMPT`;
* the fresh id and the timestamp of a history item.

## Model

| member | source | states |
|---|---|---|
| Text.TrimStart | app/page.tsx:64 | the result is a suffix of the input; everything removed is trimmable; the result does not start with a trimmable character |
| Text.TrimEnd | app/page.tsx:64 | the result is a prefix of the input; everything removed is trimmable; the result does not end with a trimmable character |
| Text.Trim | app/page.tsx:64 | `input.trim()` is no longer than the input; it is empty (so `!input.trim()` holds) exactly when every character of the input is JavaScript white space or a line terminator; otherwise it neither starts nor ends with such a character |
| Text.ConcatAppend | app/page.tsx:94 | concatenating the pieces of `a + b` gives the text of `a` followed by the text of `b` |
| Text.ConcatSnoc | app/page.tsx:94 | reading one more chunk appends exactly that chunk to the accumulated text |
| Text.ConcatPrefix | app/page.tsx:94 | the text accumulated from the first `i` chunks is a prefix of the text of all chunks |
| Session.Received | app/page.tsx:90-92 | the chunks read are a prefix of the chunks sent; that prefix is all of them without a read error and stops at the failing read otherwise |
| Session.ReplyMessages | app/page.tsx:81-113 | a turn appends only assistant messages; on a successful stream there is exactly one, holding the concatenation of the received chunks; on a read error the partial message is followed by the fixed error message; a failed fetch, a non-ok status or a missing body append the fixed error message alone |
| Session.ShowPartial | app/page.tsx:96-103 | the list keeps its length and every message but the last; the last takes the new text only if its role is assistant, and is otherwise left as it was |
| Session.ShowPartialGrows | app/page.tsx:94-103 | showing one more chunk in the assistant placeholder is a streaming step: same length, same earlier messages, and the new content extends the old one |
| Session.ShowsPrefixesSnoc | app/page.tsx:90-104 | if the transcripts shown so far hold the text of each prefix of the chunks read, showing the text after one more chunk keeps that true |
| Session.PrefixesStream | app/page.tsx:90-104 | transcripts holding the text of ever longer prefixes of the chunks form a streaming run: each keeps the earlier messages and extends the assistant message |
| Session.Preview | app/page.tsx:42-44 | the preview is at most 53 characters long; a content of at most 50 characters is kept whole; a longer one keeps its first 50 characters followed by `...`; the result ends in the ellipsis of a 53-character preview if and only if the content was longer than 50 |
| Session.WithoutId | app/page.tsx:60 | the result holds no item with the id and is no longer than the input |
| Session.WithoutIdMembers | app/page.tsx:60 | an item is in the result if and only if it was in the history and carries another id |
| Session.WithoutIdAppend | app/page.tsx:60 | the filter works piecewise over concatenation, so the kept items stay in their original relative order |
| Session.WithoutAbsentId | app/page.tsx:60 | deleting an id no item carries leaves the history unchanged |
| Session.DeleteUniqueId | app/page.tsx:58-61 | if only the item at `k` carries the id, deleting it gives exactly the history without position `k` |
| Session.DeleteRemovesExactlyOne | app/page.tsx:58-61 | in a history with distinct ids, deleting the id of item `k` removes that item and keeps all the others in order |
| Session.DeleteKeepsDistinct | app/page.tsx:58-61 | deleting keeps the ids of the history distinct |
| Session.ChatSession.constructor | app/page.tsx:15-24 | a fresh page has an empty transcript and input, nothing in flight, the initial model and the stored history |
| Session.ChatSession.BeginSubmit | app/page.tsx:63-79 | a blank input or a turn in flight changes nothing and sends nothing; otherwise exactly one user message with the untrimmed input is appended, the input is cleared, the in-flight flag is set and the request carries the previous messages followed by the new one, with the selected model |
| Session.ChatSession.ReadBody | app/page.tsx:84-104 | one assistant message is appended and ends up holding the concatenation of the chunks read, in arrival order; the transcript shown after the `k`-th chunk is the old transcript plus an assistant message holding exactly the text of the first `k` chunks read (the empty placeholder before any); so each chunk keeps all earlier messages and extends the assistant message's content |
| Session.ChatSession.FinishSubmit | app/page.tsx:81-113 | the transcript becomes the old one followed by the turn's reply messages; the in-flight flag is cleared on every path; nothing else changes |
| Session.ChatSession.Submit | app/page.tsx:63-114 | the whole handler: rejected submits change nothing; accepted ones send the previous messages plus the user's, and leave the old transcript, the user message and the reply messages, with an empty input and nothing in flight |
| Session.ChatSession.NewChat | app/page.tsx:36-51 | an empty transcript leaves the history alone; a non-empty one is saved as one new item at the front, with the full transcript and its first message's preview; the transcript and the input are cleared; a fresh id keeps the history's ids distinct |
| Session.ChatSession.LoadHistory | app/page.tsx:53-56 | the transcript becomes the saved messages exactly; nothing else changes |
| Session.ChatSession.DeleteHistoryItem | app/page.tsx:58-61 | the history becomes the old one without the items carrying the id; distinct ids stay distinct; the transcript is not touched, so deleting never loads |
| Session.AcceptsIffTrimmed | app/page.tsx:64 | the guard `ChatSession.Accepts` lets a submission through exactly when the trimmed input is non-empty and no turn is in flight |
| Session.NewChatThenLoad | app/page.tsx:36-56 | a new chat followed by loading the item it saved restores the transcript exactly, and the rest of the history is the old history |
| Relay.ErrorText | app/api/chat/route.ts:37-39 | the text is the error's non-empty message, else a thrown string, else the fallback; it is empty only when an empty string was thrown |
| Relay.OrEmpty | app/api/chat/route.ts:14 | the fallback to `""` of an optional string (the system prompt, and a fragment's delta content at line 33): the value when present; empty exactly when it is missing or empty |
| Relay.FinalMessages | app/api/chat/route.ts:14-18 | one more message than the client sent; the first is a system message holding the system prompt, empty when the prompt is unset or empty; the rest are the client's messages in order |
| Relay.ModelId | app/api/chat/route.ts:21 | a non-empty requested model is used as is; a missing or empty one becomes `llama-3.3-70b-versatile`; the id is never empty |
| Relay.Deltas | app/api/chat/route.ts:33 | one delta text per fragment: entry `i` is the text of fragment `i`, empty when its content is missing |
| Relay.Forwarded | app/api/chat/route.ts:32-35 | the forwarded chunks are never empty and are at most as many as the fragments |
| Relay.ForwardedAppend | app/api/chat/route.ts:32-35 | forwarding works fragment by fragment: the chunks of `a + b` are those of `a` followed by those of `b` |
| Relay.ForwardedSingle | app/api/chat/route.ts:33-34 | one fragment becomes exactly one chunk, its delta text, when that text is non-empty, and no chunk otherwise |
| Relay.ForwardedEachDelta | app/api/chat/route.ts:32-35 | no batching: when every delta is non-empty, the chunks are exactly the deltas, one per fragment, in order |
| Relay.ForwardedLosesNothing | app/api/chat/route.ts:32-35 | skipping the empty deltas loses no text: the forwarded chunks concatenate to the concatenation of all deltas |
| Relay.Delivered | app/api/chat/route.ts:32 | the fragments read are a prefix of the provider's; all of them without a failure or with a failure at or past the end, exactly the first `at` of them when the failure comes at `at` |
| Relay.ErrorLine | app/api/chat/route.ts:40-42 | the in-band line starts with `Error from upstream provider: `, followed by the error's text with fallback `Unknown upstream error` |
| Relay.StreamChunks | app/api/chat/route.ts:31-45 | no enqueued chunk is empty; without a failure the chunks are the forwarded deltas; with one, the last chunk is the error line |
| Relay.BodyText | app/api/chat/route.ts:31-45 | the body text is the in-order concatenation of the deltas read before any failure, followed by the error line if the provider threw |
| Relay.FailureStopsForwarding | app/api/chat/route.ts:36-42 | after a failure at fragment `k`, the body is the clean body of the first `k` fragments plus the error line; later fragments are never forwarded |
| Relay.Response.Status | app/api/chat/route.ts:49-62 | a streamed response has status 200 and an error response 500, and there is no other status |
| Relay.Response.ContentType | app/api/chat/route.ts:49-62 | a streamed response is `text/plain; charset=utf-8`, an error response `application/json` |
| Relay.Sink.constructor | app/api/chat/route.ts:29 | a new stream controller is open and has nothing enqueued |
| Relay.Sink.Enqueue | app/api/chat/route.ts:34 | only an open stream accepts a chunk, which is appended |
| Relay.Sink.Close | app/api/chat/route.ts:44 | only an open stream can be closed; closing adds nothing |
| Relay.Pump | app/api/chat/route.ts:30-46 | on every path the controller ends closed, having received exactly the stream's chunks; the preconditions of `Enqueue` and `Close` show that it is closed once and never written after closing |
| Relay.Post | app/api/chat/route.ts:5-64 | failures before the stream are met in the handler's order (unreadable body, then a client that cannot be built, then messages that cannot be spread) and each gives a 500 with its error's text (fallback `Unknown error`) and no provider call; otherwise the provider is called with the default-filled model and the system-prefixed messages; a refused call gives a 500; a stream gives a body of the stream's chunks; the status is 200, with a plain-text body, exactly for a stream, and 500 otherwise |
| Pipeline.StreamedReplyText | app/page.tsx:86-104 | however the transport cuts the relay's body into chunks, the page's assistant message is the provider's deltas in order, then the error line if the provider threw |
| Pipeline.StreamedTurnReply | app/page.tsx:86-104 | the same for a streaming provider's whole answer: the page shows one assistant message with the text a turn leaves |
| Pipeline.HelloExample | app/page.tsx:90-104 | chunks `Hel` and `lo!` give the single assistant message `Hello!` |
| Pipeline.RateLimitedExample | app/api/chat/route.ts:36-42 | a provider stream that throws `rate limited` before any fragment gives the body `Error from upstream provider: rate limited` |
| Pipeline.TurnText | app/page.tsx:86-104 | the text a streaming provider's answer leaves on the page is the text of the relay's whole body |
| Pipeline.TurnReply | app/page.tsx:81-110 | a turn leaves one assistant message: the relay's body text for a stream, the fixed error message for a 500 |
| Pipeline.Turn | app/page.tsx:63-113 | one accepted turn through the relay: the provider gets the system message, the old transcript and the user's message; a stream leaves exactly one assistant message holding the forwarded text; a 500 leaves the fixed error message; a rejected submit changes nothing |

## Left out

- Rendering, scrolling, the "Thinking..." indicator, the history modal's open/close state, the input box's sizing and key handling, the model selector and the theme toggle. These are presentation only.
- `models/models.ts` and the `useLocalStorage` hook. The model list is static data. The hook's file is not part of this model, so the initial model id and the stored history are constructor arguments, and the history is a plain field.
- Network and foreign calls. `fetch`, the OpenAI SDK client and `chat.completions.create` are replaced by the inputs `Session.Reply` and `Relay.Upstream`. `Response` and `ReadableStream` construction are replaced by `Relay.Response` and `Relay.Sink`.
- The OpenAI client constructor failing (`app/api/chat/route.ts:9-12`, for example with no API key) is given as `Upstream.ClientFailed`, because the SDK is not part of this model.
- Byte-level UTF-8 encoding and decoding (`TextEncoder`, `TextDecoder` in stream mode). Chunks are strings.
- `Relay.Parsed`: the JSON parser and the destructuring are not modelled; a body that is not JSON or cannot be destructured is `Unparsable`, a `messages` field that cannot be spread is `NotIterable`, and the error each throws is an input.
- `crypto.randomUUID` and `Date.now`: the id and the timestamp are parameters of `NewChat`.
- Session.ChatSession.Submit: the handler runs to completion; async interleaving is modelled only at the boundary between `BeginSubmit` and `FinishSubmit`; React state batching and the in-place mutation of the shared message object (`app/page.tsx:41`, `app/page.tsx:100`) are not modelled, because messages are values here.
- Session.ChatSession.FinishSubmit: the reply is an input independent of the request that was sent; `Pipeline.Turn` is where the two are connected.
- Pipeline.Turn: the page receives the body in the chunks the relay enqueued; `Pipeline.StreamedReplyText` covers any other cutting of the same text.
- Session.ShowPartial: requires a non-empty transcript. The page can empty the transcript during a stream ("New Chat" is not disabled while a turn is in flight), and the next update then reads the role of a missing message and throws; that interleaving is not modelled.
- Session.Preview: lengths are counted in Unicode characters, whereas JavaScript's `substring` counts UTF-16 code units, so the two differ for text outside the Basic Multilingual Plane.
- `max_tokens: 2048`, `temperature: 0.7` and the `stream: true` flag of the provider call, and the response headers other than the content type: request parameters with no behaviour to check here.
- `console.error` logging in the page's failure path.
