/** The relay endpoint (app/api/chat/route.ts): it prepends the system
    message, picks the model, forwards the provider's streamed text as the
    response body and reports failures either in-band or as a 500. */
module Relay {
  import opened Types
  import opened Text

  const DefaultModel: string := "llama-3.3-70b-versatile"
  const UpstreamErrorPrefix: string := "Error from upstream provider: "
  const UnknownUpstreamError: string := "Unknown upstream error"
  const UnknownError: string := "Unknown error"
  const StreamContentType: string := "text/plain; charset=utf-8"
  const JsonContentType: string := "application/json"

  /** A value thrown in the handler: an error object with its `message`, a
      thrown string, or anything else (`null`, `undefined`, an object
      without a message). */
  datatype Thrown = ErrorObject(message: string) | StringValue(text: string) | OtherValue

  /** `err?.message || (typeof err === "string" ? err : fallback)`. */
  function ErrorText(err: Thrown, fallback: string): (r: string)
    ensures r == fallback || (err.ErrorObject? && r == err.message) || (err.StringValue? && r == err.text)
    ensures err.ErrorObject? && err.message != "" ==> r == err.message
    ensures err.StringValue? ==> r == err.text
    ensures fallback != "" && r == "" ==> err == StringValue("")
  {
    match err
    case ErrorObject(message) => if message != "" then message else fallback
    case StringValue(text) => text
    case OtherValue => fallback
  }

  /** The decoded JSON body of a request: the client's messages and the
      optional `model` field (`None` when absent or null). */
  datatype RequestBody = RequestBody(messages: seq<Message>, model: Option<string>)

  /** What the handler makes of the request: a body it can use; a body
      that `await req.json()` or its destructuring rejects (thrown before
      the provider client is built); or a body whose `messages` field
      cannot be spread into an array (thrown after the client is built). */
  datatype Parsed = Parsed(body: RequestBody) | Unparsable(err: Thrown) | NotIterable(err: Thrown)

  /** A provider stream that throws when asked for fragment number `at`. */
  datatype StreamError = StreamError(at: nat, err: Thrown)

  /** What the provider SDK does: its client cannot be built, the completion
      call is refused, or it streams fragments (each the text delta of its
      first choice, `None` when any part of that path is missing), possibly
      ending in an error. */
  datatype Upstream =
    | ClientFailed(err: Thrown)
    | Refused(err: Thrown)
    | Streaming(fragments: seq<Option<string>>, failure: Option<StreamError>)

  /** The arguments the relay passes to `chat.completions.create`. */
  datatype CompletionCall = CompletionCall(model: string, messages: seq<Message>)

  /** The HTTP response: a streamed text body given as its enqueued chunks,
      or a JSON error. */
  datatype Response = StreamResponse(chunks: seq<string>) | ErrorResponse(error: string)
  {
    /** The HTTP status: 200 for a stream, 500 for an error. */
    function Status(): (r: nat)
      ensures r == 200 || r == 500
      ensures r == 200 <==> StreamResponse?
    {
      if StreamResponse? then 200 else 500
    }

    /** The `Content-Type` header: plain UTF-8 text for a stream, JSON for
        an error. */
    function ContentType(): (r: string)
      ensures r == StreamContentType || r == JsonContentType
      ensures r == StreamContentType <==> StreamResponse?
    {
      if StreamResponse? then StreamContentType else JsonContentType
    }
  }

  /** `value || ""` for an optional string, as in `process.env.SYSTEM_PROMPT
      || ""` and `chunk.choices?.[0]?.delta?.content || ""`: the value when
      present, which is empty exactly when it is missing or empty. */
  function OrEmpty(value: Option<string>): (r: string)
    ensures value.Some? ==> r == value.value
    ensures r == "" <==> value == None || value == Some("")
  {
    if value.Some? then value.value else ""
  }

  /** The message list sent upstream: the system instruction, then the
      client's messages in order. */
  function FinalMessages(systemPrompt: Option<string>, messages: seq<Message>): (r: seq<Message>)
    ensures |r| == |messages| + 1
    ensures r[0].role == System
    ensures r[0].content == "" <==> systemPrompt == None || systemPrompt == Some("")
    ensures systemPrompt.Some? ==> r[0].content == systemPrompt.value
    ensures r[1..] == messages
  {
    [Message(System, OrEmpty(systemPrompt))] + messages
  }

  /** `model || "llama-3.3-70b-versatile"`: the requested model when it is
      a non-empty string, the default otherwise. */
  function ModelId(requested: Option<string>): (r: string)
    ensures r != ""
    ensures requested.Some? && requested.value != "" ==> r == requested.value
    ensures requested == None || requested == Some("") ==> r == DefaultModel
  {
    if requested.Some? && requested.value != "" then requested.value else DefaultModel
  }

  /** The text delta of every fragment, empty ones included. */
  function Deltas(fragments: seq<Option<string>>): (r: seq<string>)
    ensures |r| == |fragments|
    ensures forall i | 0 <= i < |r| :: r[i] == OrEmpty(fragments[i])
  {
    seq(|fragments|, i requires 0 <= i < |fragments| => OrEmpty(fragments[i]))
  }

  /** The chunks the forwarding loop enqueues: the non-empty deltas, in order. */
  function Forwarded(fragments: seq<Option<string>>): (r: seq<string>)
    ensures |r| <= |fragments|
    ensures forall k | 0 <= k < |r| :: r[k] != ""
  {
    if fragments == [] then []
    else
      var text := OrEmpty(fragments[|fragments| - 1]);
      Forwarded(fragments[..|fragments| - 1]) + (if text != "" then [text] else [])
  }

  /** Forwarding works fragment by fragment: the chunks of a longer
      stream are those of its first part followed by those of the rest. */
  lemma {:induction false} ForwardedAppend(a: seq<Option<string>>, b: seq<Option<string>>)
    ensures Forwarded(a + b) == Forwarded(a) + Forwarded(b)
  {
    if b == [] {
      assert a + b == a;
    } else {
      var n := |b| - 1;
      assert (a + b)[..|a + b| - 1] == a + b[..n];
      ForwardedAppend(a, b[..n]);
    }
  }

  /** One fragment is forwarded as its own chunk when its delta is
      non-empty, and not at all otherwise. */
  lemma ForwardedSingle(fragment: Option<string>)
    ensures Forwarded([fragment]) == if OrEmpty(fragment) != "" then [OrEmpty(fragment)] else []
  {
    assert [fragment][..0] == [];
  }

  /** No batching: when every delta is non-empty, each one becomes its own
      chunk, in order. */
  lemma {:induction false} ForwardedEachDelta(fragments: seq<Option<string>>)
    requires forall k | 0 <= k < |fragments| :: OrEmpty(fragments[k]) != ""
    ensures Forwarded(fragments) == Deltas(fragments)
  {
    if fragments != [] {
      var n := |fragments| - 1;
      ForwardedEachDelta(fragments[..n]);
      assert Deltas(fragments) == Deltas(fragments[..n]) + [OrEmpty(fragments[n])];
    }
  }

  /** Skipping the empty deltas loses no text. */
  lemma {:induction false} ForwardedLosesNothing(fragments: seq<Option<string>>)
    ensures Concat(Forwarded(fragments)) == Concat(Deltas(fragments))
  {
    if fragments != [] {
      var n := |fragments| - 1;
      var text := OrEmpty(fragments[n]);
      ForwardedLosesNothing(fragments[..n]);
      ConcatAppend(Forwarded(fragments[..n]), if text != "" then [text] else []);
      assert Deltas(fragments)[..n] == Deltas(fragments[..n]);
    }
  }

  /** The fragments the loop reads before the stream ends or throws. */
  function Delivered(fragments: seq<Option<string>>, failure: Option<StreamError>): (r: seq<Option<string>>)
    ensures r <= fragments
    ensures failure.Some? && failure.value.at <= |fragments| ==> |r| == failure.value.at
    ensures failure.Some? && failure.value.at >= |fragments| ==> r == fragments
    ensures failure == None ==> r == fragments
  {
    if failure.Some? && failure.value.at < |fragments| then fragments[..failure.value.at] else fragments
  }

  /** The in-band line written when the provider stream throws. */
  function ErrorLine(err: Thrown): (r: string)
    ensures UpstreamErrorPrefix <= r && r != ""
    ensures r[|UpstreamErrorPrefix|..] == ErrorText(err, UnknownUpstreamError)
  {
    UpstreamErrorPrefix + ErrorText(err, UnknownUpstreamError)
  }

  /** Every chunk the response body carries, in enqueue order. */
  function StreamChunks(fragments: seq<Option<string>>, failure: Option<StreamError>): (r: seq<string>)
    ensures forall k | 0 <= k < |r| :: r[k] != ""
    ensures failure == None ==> r == Forwarded(fragments)
    ensures failure.Some? ==> |r| > 0 && r[|r| - 1] == ErrorLine(failure.value.err)
  {
    Forwarded(Delivered(fragments, failure)) + (if failure.Some? then [ErrorLine(failure.value.err)] else [])
  }

  /** The text of the body: the deltas received before any failure, in
      order, followed by the error line if the stream failed. */
  lemma BodyText(fragments: seq<Option<string>>, failure: Option<StreamError>)
    ensures Concat(StreamChunks(fragments, failure))
      == Concat(Deltas(Delivered(fragments, failure)))
         + (if failure.Some? then ErrorLine(failure.value.err) else "")
  {
    var forwarded := Forwarded(Delivered(fragments, failure));
    var tail := if failure.Some? then [ErrorLine(failure.value.err)] else [];
    ConcatAppend(forwarded, tail);
    ForwardedLosesNothing(Delivered(fragments, failure));
    if failure.Some? {
      assert tail[..0] == [];
    }
  }

  /** After a failure at fragment `k`, the body is what a clean stream of
      the first `k` fragments would give, plus the error line: nothing
      from fragment `k` on is forwarded. */
  lemma FailureStopsForwarding(fragments: seq<Option<string>>, k: nat, err: Thrown)
    requires k <= |fragments|
    ensures StreamChunks(fragments, Some(StreamError(k, err)))
      == StreamChunks(fragments[..k], None) + [ErrorLine(err)]
  {
    assert Delivered(fragments, Some(StreamError(k, err))) == fragments[..k];
  }

  /** The stream controller the forwarding loop writes to. */
  class Sink {
    var chunks: seq<string>
    var closed: bool

    constructor ()
      ensures chunks == [] && !closed
    {
      chunks := [];
      closed := false;
    }

    /** `controller.enqueue`: only an open stream accepts a chunk. */
    method Enqueue(chunk: string)
      requires !closed
      modifies this
      ensures chunks == old(chunks) + [chunk] && !closed
    {
      chunks := chunks + [chunk];
    }

    /** `controller.close`: only an open stream can be closed. */
    method Close()
      requires !closed
      modifies this
      ensures closed && chunks == old(chunks)
    {
      closed := true;
    }
  }

  /** The stream's `start`: forward every non-empty delta, write the error
      line if the provider throws, and close the sink on both paths. The
      preconditions of `Enqueue` and `Close` make the sink closed exactly
      once and never written after closing. */
  method Pump(fragments: seq<Option<string>>, failure: Option<StreamError>, sink: Sink)
    requires sink.chunks == [] && !sink.closed
    modifies sink
    ensures sink.closed
    ensures sink.chunks == StreamChunks(fragments, failure)
  {
    var i := 0;
    while i < |fragments| && !(failure.Some? && failure.value.at == i)
      invariant i <= |fragments|
      invariant failure.Some? ==> i <= failure.value.at
      invariant !sink.closed
      invariant sink.chunks == Forwarded(fragments[..i])
    {
      assert fragments[..i + 1][..i] == fragments[..i];
      var content := OrEmpty(fragments[i]);
      if content != "" {
        sink.Enqueue(content);
      }
      i := i + 1;
    }
    assert fragments[..i] == Delivered(fragments, failure);
    if failure.Some? {
      var msg := ErrorText(failure.value.err, UnknownUpstreamError);
      sink.Enqueue(UpstreamErrorPrefix + msg);
    }
    sink.Close();
  }

  /** The `POST` handler. `call` is what it asks the provider for, if it
      gets that far; failures before the stream exists become a 500 with
      the error's text, in the order the handler meets them (reading the
      body, building the client, spreading the messages, calling the
      provider); failures inside the stream become in-band text. */
  method Post(parsed: Parsed, systemPrompt: Option<string>, upstream: Upstream)
    returns (call: Option<CompletionCall>, response: Response)
    ensures parsed.Unparsable? ==> call == None && response == ErrorResponse(ErrorText(parsed.err, UnknownError))
    ensures !parsed.Unparsable? && upstream.ClientFailed? ==>
      call == None && response == ErrorResponse(ErrorText(upstream.err, UnknownError))
    ensures parsed.NotIterable? && !upstream.ClientFailed? ==>
      call == None && response == ErrorResponse(ErrorText(parsed.err, UnknownError))
    ensures parsed.Parsed? && !upstream.ClientFailed? ==>
      call == Some(CompletionCall(ModelId(parsed.body.model), FinalMessages(systemPrompt, parsed.body.messages)))
    ensures parsed.Parsed? && upstream.Refused? ==> response == ErrorResponse(ErrorText(upstream.err, UnknownError))
    ensures parsed.Parsed? && upstream.Streaming? ==>
      response == StreamResponse(StreamChunks(upstream.fragments, upstream.failure))
    ensures response.Status() == 200 <==> parsed.Parsed? && upstream.Streaming?
    ensures response.Status() == 500 <==> !(parsed.Parsed? && upstream.Streaming?)
    ensures response.ContentType() == StreamContentType <==> parsed.Parsed? && upstream.Streaming?
  {
    call := None;
    if parsed.Unparsable? {
      response := ErrorResponse(ErrorText(parsed.err, UnknownError));
      return;
    }
    if upstream.ClientFailed? {
      response := ErrorResponse(ErrorText(upstream.err, UnknownError));
      return;
    }
    if parsed.NotIterable? {
      response := ErrorResponse(ErrorText(parsed.err, UnknownError));
      return;
    }
    var finalMessages := FinalMessages(systemPrompt, parsed.body.messages);
    call := Some(CompletionCall(ModelId(parsed.body.model), finalMessages));
    match upstream {
      case Refused(err) =>
        response := ErrorResponse(ErrorText(err, UnknownError));
      case Streaming(fragments, failure) =>
        var sink := new Sink();
        Pump(fragments, failure, sink);
        response := StreamResponse(sink.chunks);
    }
  }
}
