/** The transcript session controller of the chat page (app/page.tsx): the
    conversation, the input box, the in-flight flag, the selected model and
    the saved history, changed only by the page's four handlers. */
module Session {
  import opened Types
  import opened Text

  /** The text shown when a turn fails on the client side. */
  const ErrorReplyText: string := "Error: Failed to generate response."
  const ErrorMessage: Message := Message(Assistant, ErrorReplyText)

  /** A history preview keeps this many characters of the first message. */
  const PreviewLength: nat := 50
  const Ellipsis: string := "..."

  /** The JSON body the page posts to the relay. */
  datatype ChatRequest = ChatRequest(messages: seq<Message>, model: string)

  /** How the relay's answer to one submission looks from the page: `fetch`
      rejects, the status is not ok, there is no body, or a body is read
      chunk by chunk. In `Body`, `chunks` are the decoded chunks in arrival
      order and `failsAt`, when present, is the read that throws instead of
      delivering a chunk (a position at or past the end means the read
      after the last chunk throws instead of reporting the end). */
  datatype Reply =
    | FetchFailed
    | NotOk
    | NoBody
    | Body(chunks: seq<string>, failsAt: Option<nat>)

  /** The chunks the page actually reads before the stream ends or fails. */
  function Received(chunks: seq<string>, failsAt: Option<nat>): (r: seq<string>)
    ensures r <= chunks
    ensures failsAt == None ==> r == chunks
    ensures failsAt.Some? ==> |r| == if failsAt.value < |chunks| then failsAt.value else |chunks|
  {
    if failsAt.Some? && failsAt.value < |chunks| then chunks[..failsAt.value] else chunks
  }

  /** What one turn appends to the transcript after the user's message. */
  function ReplyMessages(reply: Reply): (r: seq<Message>)
    ensures forall k | 0 <= k < |r| :: r[k].role == Assistant
    ensures |r| == if reply.Body? && reply.failsAt.None? then 1 else if reply.Body? then 2 else 1
    ensures reply.Body? ==> r[0].content == Concat(Received(reply.chunks, reply.failsAt))
    ensures (r[|r| - 1] == ErrorMessage) <== !reply.Body? || reply.failsAt.Some?
  {
    match reply
    case Body(chunks, failsAt) =>
      [Message(Assistant, Concat(Received(chunks, failsAt)))]
      + (if failsAt.Some? then [ErrorMessage] else [])
    case _ => [ErrorMessage]
  }

  /** The updater the read loop hands to `setMessages`: the last message
      takes the text received so far, but only when it is an assistant's. */
  function ShowPartial(prev: seq<Message>, text: string): (r: seq<Message>)
    requires prev != []
    ensures |r| == |prev| && r[..|r| - 1] == prev[..|prev| - 1]
    ensures r[|r| - 1] == if prev[|prev| - 1].role == Assistant then Message(Assistant, text) else prev[|prev| - 1]
  {
    var last := prev[|prev| - 1];
    if last.role == Assistant then prev[..|prev| - 1] + [Message(Assistant, text)] else prev
  }

  /** One step of streaming: the same messages except the last, which is an
      assistant message whose content grows by extension. */
  ghost predicate Grows(before: seq<Message>, after: seq<Message>)
  {
    && |before| == |after| > 0
    && before[..|before| - 1] == after[..|after| - 1]
    && before[|before| - 1].role == Assistant == after[|after| - 1].role
    && before[|before| - 1].content <= after[|after| - 1].content
  }

  /** A run of transcripts in which each one is a streaming step from the
      one before. */
  ghost predicate Streams(frames: seq<seq<Message>>)
  {
    forall k | 0 <= k < |frames| - 1 :: Grows(frames[k], frames[k + 1])
  }

  /** The transcripts shown while reading `parts`: the one after the `k`-th
      piece holds `base` and an assistant message with the text of the
      first `k` pieces. */
  ghost predicate ShowsPrefixes(frames: seq<seq<Message>>, base: seq<Message>, parts: seq<string>)
  {
    && |frames| == |parts| + 1
    && forall k | 0 <= k < |frames| :: frames[k] == base + [Message(Assistant, Concat(parts[..k]))]
  }

  /** Showing the text after one more piece keeps the run of transcripts
      in step with the pieces read. */
  lemma ShowsPrefixesSnoc(frames: seq<seq<Message>>, base: seq<Message>, parts: seq<string>, i: nat)
    requires i < |parts| && ShowsPrefixes(frames, base, parts[..i])
    ensures ShowsPrefixes(frames + [base + [Message(Assistant, Concat(parts[..i]) + parts[i])]], base, parts[..i + 1])
  {
    ConcatSnoc(parts, i);
    var next := frames + [base + [Message(Assistant, Concat(parts[..i]) + parts[i])]];
    forall k | 0 <= k < |next| ensures next[k] == base + [Message(Assistant, Concat(parts[..i + 1][..k]))] {
      if k < |frames| {
        assert parts[..i + 1][..k] == parts[..i][..k];
      } else {
        assert parts[..i + 1][..k] == parts[..i + 1];
      }
    }
  }

  /** Transcripts that show the text of ever longer prefixes of the pieces
      form a streaming run. */
  lemma PrefixesStream(frames: seq<seq<Message>>, base: seq<Message>, parts: seq<string>)
    requires ShowsPrefixes(frames, base, parts)
    ensures Streams(frames)
  {
    forall k | 0 <= k < |frames| - 1 ensures Grows(frames[k], frames[k + 1]) {
      ConcatSnoc(parts, k);
      assert frames[k][..|base|] == base == frames[k + 1][..|base|];
    }
  }

  /** Showing one more chunk in the assistant placeholder is a step of
      streaming, and leaves the placeholder holding the extended text. */
  lemma ShowPartialGrows(base: seq<Message>, text: string, chunk: string)
    ensures ShowPartial(base + [Message(Assistant, text)], text + chunk) == base + [Message(Assistant, text + chunk)]
    ensures Grows(base + [Message(Assistant, text)], base + [Message(Assistant, text + chunk)])
  {
  }

  /** The history preview of a message: its first 50 characters, followed by
      an ellipsis exactly when something was cut off. */
  function Preview(content: string): (r: string)
    ensures |r| <= PreviewLength + |Ellipsis|
    ensures |content| <= PreviewLength ==> r == content
    ensures |content| > PreviewLength <==> |r| == PreviewLength + |Ellipsis| && r[PreviewLength..] == Ellipsis
    ensures |content| > PreviewLength ==> r[..PreviewLength] == content[..PreviewLength]
  {
    if |content| > PreviewLength then content[..PreviewLength] + Ellipsis else content
  }

  /** No two history items share an id. */
  ghost predicate DistinctIds(items: seq<HistoryItem>)
  {
    forall i, j | 0 <= i < j < |items| :: items[i].id != items[j].id
  }

  /** `items.filter((item) => item.id !== id)`. */
  function WithoutId(items: seq<HistoryItem>, id: string): (r: seq<HistoryItem>)
    ensures forall k | 0 <= k < |r| :: r[k].id != id
    ensures |r| <= |items|
  {
    if items == [] then []
    else (if items[0].id == id then [] else [items[0]]) + WithoutId(items[1..], id)
  }

  /** An item survives the filter exactly when it was there and carries
      another id. */
  lemma {:induction false} WithoutIdMembers(items: seq<HistoryItem>, id: string)
    ensures forall item :: item in WithoutId(items, id) <==> item in items && item.id != id
  {
    if items != [] {
      WithoutIdMembers(items[1..], id);
      assert items == [items[0]] + items[1..];
    }
  }

  /** Filtering works piecewise, so it keeps the surviving items in order. */
  lemma {:induction false} WithoutIdAppend(a: seq<HistoryItem>, b: seq<HistoryItem>, id: string)
    ensures WithoutId(a + b, id) == WithoutId(a, id) + WithoutId(b, id)
  {
    if a == [] {
      assert a + b == b;
    } else {
      assert (a + b)[0] == a[0];
      assert (a + b)[1..] == a[1..] + b;
      WithoutIdAppend(a[1..], b, id);
    }
  }

  /** Deleting an id no item carries changes nothing. */
  lemma {:induction false} WithoutAbsentId(items: seq<HistoryItem>, id: string)
    requires forall k | 0 <= k < |items| :: items[k].id != id
    ensures WithoutId(items, id) == items
  {
    if items != [] {
      WithoutAbsentId(items[1..], id);
    }
  }

  /** Deleting an id that only the item at `k` carries removes exactly that
      item and keeps the others in their original order. */
  lemma {:induction false} DeleteUniqueId(items: seq<HistoryItem>, k: nat)
    requires k < |items|
    requires forall j | 0 <= j < |items| && j != k :: items[j].id != items[k].id
    ensures WithoutId(items, items[k].id) == items[..k] + items[k + 1..]
  {
    var id, tail := items[k].id, items[1..];
    if k == 0 {
      forall j | 0 <= j < |tail| ensures tail[j].id != id {
        assert tail[j] == items[j + 1];
      }
      WithoutAbsentId(tail, id);
    } else {
      forall j | 0 <= j < |tail| && j != k - 1 ensures tail[j].id != tail[k - 1].id {
        assert tail[j] == items[j + 1];
      }
      DeleteUniqueId(tail, k - 1);
      assert items[0].id != id;
      assert [items[0]] + (tail[..k - 1] + tail[k..]) == items[..k] + items[k + 1..];
    }
  }

  /** With distinct ids, deleting the id of the item at `k` removes exactly
      that item. */
  lemma DeleteRemovesExactlyOne(items: seq<HistoryItem>, k: nat)
    requires DistinctIds(items) && k < |items|
    ensures WithoutId(items, items[k].id) == items[..k] + items[k + 1..]
  {
    forall j | 0 <= j < |items| && j != k ensures items[j].id != items[k].id {
      if j < k { assert items[j].id != items[k].id; } else { assert items[k].id != items[j].id; }
    }
    DeleteUniqueId(items, k);
  }

  /** Deleting keeps the ids of the remaining history distinct. */
  lemma {:induction false} DeleteKeepsDistinct(items: seq<HistoryItem>, id: string)
    requires DistinctIds(items)
    ensures DistinctIds(WithoutId(items, id))
  {
    if items != [] {
      DeleteKeepsDistinct(items[1..], id);
      WithoutIdMembers(items[1..], id);
      var rest := WithoutId(items[1..], id);
      forall j | 0 <= j < |rest| ensures rest[j].id != items[0].id {
        assert rest[j] in items[1..];
      }
    }
  }

  class ChatSession {
    var messages: seq<Message>
    var input: string
    var isLoading: bool
    var model: string
    var history: seq<HistoryItem>

    /** A fresh page: empty transcript and input, nothing in flight, the
        first model selected and the history read back from storage. */
    constructor (initialModel: string, stored: seq<HistoryItem>)
      ensures messages == [] && input == "" && !isLoading
      ensures model == initialModel && history == stored
    {
      messages := [];
      input := "";
      isLoading := false;
      model := initialModel;
      history := stored;
    }

    /** Whether `handleSubmit` goes past its guard: the trimmed input is
        non-empty and no turn is in flight. */
    predicate Accepts()
      reads this
    {
      !IsBlank(input) && !isLoading
    }

    /** The synchronous start of `handleSubmit`: the guard, the user's
        message, the cleared input, the in-flight flag and the request. */
    method BeginSubmit() returns (request: Option<ChatRequest>)
      modifies this
      ensures !old(Accepts()) ==> request == None && unchanged(this)
      ensures old(Accepts()) ==>
        && messages == old(messages) + [Message(User, old(input))]
        && request == Some(ChatRequest(messages, model))
        && input == "" && isLoading
      ensures model == old(model) && history == old(history)
    {
      if Trim(input) == "" || isLoading {
        return None;
      }
      var userMessage := Message(User, input);
      var sent := messages + [userMessage];
      messages := messages + [userMessage];
      input := "";
      isLoading := true;
      request := Some(ChatRequest(sent, model));
    }

    /** The read loop of `handleSubmit`: an empty assistant placeholder is
        appended, then every chunk read extends the accumulated text and
        shows it in that message, until the body ends or a read throws.
        `frames` are the transcripts shown along the way. */
    method ReadBody(chunks: seq<string>, failsAt: Option<nat>) returns (ghost frames: seq<seq<Message>>)
      modifies this`messages
      ensures messages == old(messages) + [Message(Assistant, Concat(Received(chunks, failsAt)))]
      ensures |frames| == |Received(chunks, failsAt)| + 1
      ensures frames[0] == old(messages) + [Message(Assistant, "")]
      ensures ShowsPrefixes(frames, old(messages), Received(chunks, failsAt))
      ensures Streams(frames)
      ensures frames[|frames| - 1] == messages
    {
      var assistantMessage := "";
      messages := messages + [Message(Assistant, "")];
      frames := [messages];
      var i := 0;
      while i < |chunks| && failsAt != Some(i)
        invariant i <= |chunks|
        invariant failsAt.Some? ==> i <= failsAt.value
        invariant assistantMessage == Concat(chunks[..i])
        invariant messages == old(messages) + [Message(Assistant, assistantMessage)]
        invariant ShowsPrefixes(frames, old(messages), chunks[..i])
      {
        ConcatSnoc(chunks, i);
        ShowPartialGrows(old(messages), assistantMessage, chunks[i]);
        assistantMessage := assistantMessage + chunks[i];
        messages := ShowPartial(messages, assistantMessage);
        ShowsPrefixesSnoc(frames, old(messages), chunks, i);
        frames := frames + [messages];
        i := i + 1;
      }
      assert chunks[..i] == Received(chunks, failsAt);
      assert chunks[..i][..0] == [] && chunks[..i][..i] == chunks[..i];
      PrefixesStream(frames, old(messages), chunks[..i]);
    }

    /** The rest of `handleSubmit`, once the relay has answered: a body is
        read into one assistant message (see `ReadBody`), any failure
        appends the fixed error message, and the in-flight flag is cleared
        on every path. */
    method FinishSubmit(reply: Reply)
      modifies this`messages, this`isLoading
      ensures messages == old(messages) + ReplyMessages(reply)
      ensures !isLoading
    {
      match reply {
        case Body(chunks, failsAt) =>
          ghost var frames := ReadBody(chunks, failsAt);
          if failsAt.Some? {
            messages := messages + [ErrorMessage];
          }
        case _ =>
          messages := messages + [ErrorMessage];
      }
      isLoading := false;
    }

    /** The whole of `handleSubmit`, with the relay's answer given. */
    method Submit(reply: Reply) returns (request: Option<ChatRequest>)
      modifies this
      ensures !old(Accepts()) ==> request == None && unchanged(this)
      ensures old(Accepts()) ==>
        && request == Some(ChatRequest(old(messages) + [Message(User, old(input))], old(model)))
        && messages == old(messages) + [Message(User, old(input))] + ReplyMessages(reply)
        && input == "" && !isLoading
      ensures model == old(model) && history == old(history)
    {
      request := BeginSubmit();
      if request.Some? {
        FinishSubmit(reply);
      }
    }

    /** `handleNewChat`: a non-empty transcript is saved at the front of the
        history; then the transcript and the input are cleared. */
    method NewChat(id: string, timestamp: int)
      modifies this
      ensures old(messages) == [] ==> history == old(history)
      ensures old(messages) != [] ==>
        history == [HistoryItem(id, timestamp, old(messages), Preview(old(messages)[0].content))] + old(history)
      ensures messages == [] && input == ""
      ensures isLoading == old(isLoading) && model == old(model)
      ensures DistinctIds(old(history)) && (forall item | item in old(history) :: item.id != id)
        ==> DistinctIds(history)
    {
      if |messages| > 0 {
        var item := HistoryItem(id, timestamp, messages, Preview(messages[0].content));
        history := [item] + history;
      }
      messages := [];
      input := "";
    }

    /** `loadHistory`: the transcript becomes the saved snapshot. */
    method LoadHistory(item: HistoryItem)
      modifies this
      ensures messages == item.messages
      ensures input == old(input) && isLoading == old(isLoading)
      ensures model == old(model) && history == old(history)
    {
      messages := item.messages;
    }

    /** `deleteHistoryItem`: drops every saved item with the id, and nothing
        else; the transcript is not touched. */
    method DeleteHistoryItem(id: string)
      modifies this
      ensures history == WithoutId(old(history), id)
      ensures DistinctIds(old(history)) ==> DistinctIds(history)
      ensures messages == old(messages) && input == old(input)
      ensures isLoading == old(isLoading) && model == old(model)
    {
      if DistinctIds(history) {
        DeleteKeepsDistinct(history, id);
      }
      history := WithoutId(history, id);
    }
  }

  /** The guard of `handleSubmit` lets a submission through exactly when
      the trimmed input is non-empty and no turn is in flight. */
  lemma AcceptsIffTrimmed(session: ChatSession)
    ensures session.Accepts() <==> Trim(session.input) != "" && !session.isLoading
  {
  }

  /** Starting a new chat and then loading the item it saved restores the
      conversation exactly. */
  method NewChatThenLoad(session: ChatSession, id: string, timestamp: int)
    requires session.messages != []
    modifies session
    ensures session.messages == old(session.messages)
    ensures |session.history| == |old(session.history)| + 1
    ensures session.history[0].messages == old(session.messages)
    ensures session.history[1..] == old(session.history)
  {
    session.NewChat(id, timestamp);
    session.LoadHistory(session.history[0]);
  }
}
