/** One user turn end to end: the page submits, the relay forwards the
    provider's stream, and the page rebuilds the reply from the body. */
module Pipeline {
  import opened Types
  import opened Text
  import opened Session
  import opened Relay

  /** The text the page shows for a streamed answer, however the transport
      re-cuts the body into chunks: the provider's deltas received before
      any failure, then the relay's in-band error line if there was one. */
  lemma {:induction false} StreamedReplyText(fragments: seq<Option<string>>, failure: Option<StreamError>, received: seq<string>)
    requires Concat(received) == Concat(StreamChunks(fragments, failure))
    ensures ReplyMessages(Body(received, None)) ==
      [Message(Assistant, Concat(Deltas(Delivered(fragments, failure)))
                          + (if failure.Some? then ErrorLine(failure.value.err) else ""))]
  {
    BodyText(fragments, failure);
  }

  /** Fragments "Hel" and "lo!" become the single assistant message "Hello!". */
  lemma HelloExample()
    ensures ReplyMessages(Body(["Hel", "lo!"], None)) == [Message(Assistant, "Hello!")]
  {
    var parts := ["Hel", "lo!"];
    assert parts[..1] == ["Hel"];
    assert ["Hel"][..0] == [];
    assert Concat(parts) == "Hello!";
  }

  /** A provider stream that throws "rate limited" before any fragment
      yields a body holding only the in-band error line. */
  lemma RateLimitedExample()
    ensures Concat(StreamChunks([], Some(StreamError(0, ErrorObject("rate limited")))))
      == "Error from upstream provider: rate limited"
  {
    var chunks := StreamChunks([], Some(StreamError(0, ErrorObject("rate limited"))));
    assert ErrorText(ErrorObject("rate limited"), UnknownUpstreamError) == "rate limited";
    assert UpstreamErrorPrefix + "rate limited" == "Error from upstream provider: rate limited";
    assert chunks == [] + ["Error from upstream provider: rate limited"];
    assert chunks[..0] == [];
  }

  /** The text a streaming provider's answer leaves on the page: the
      deltas read before any failure and the error line; it is the text of
      the relay's whole body. */
  function TurnText(upstream: Upstream): (r: string)
    requires upstream.Streaming?
    ensures r == Concat(StreamChunks(upstream.fragments, upstream.failure))
  {
    BodyText(upstream.fragments, upstream.failure);
    Concat(Deltas(Delivered(upstream.fragments, upstream.failure)))
    + (if upstream.failure.Some? then ErrorLine(upstream.failure.value.err) else "")
  }

  /** The same, for the answer of a streaming provider as a whole. */
  lemma StreamedTurnReply(upstream: Upstream, received: seq<string>)
    requires upstream.Streaming?
    requires Concat(received) == Concat(StreamChunks(upstream.fragments, upstream.failure))
    ensures ReplyMessages(Body(received, None)) == [Message(Assistant, TurnText(upstream))]
  {
    StreamedReplyText(upstream.fragments, upstream.failure, received);
  }

  /** The message a turn leaves after the user's: the forwarded text for a
      streaming provider, the fixed error message for a 500. */
  function TurnReply(upstream: Upstream): (r: Message)
    ensures r.role == Assistant
    ensures upstream.Streaming? ==> r.content == Concat(StreamChunks(upstream.fragments, upstream.failure))
    ensures !upstream.Streaming? ==> r == ErrorMessage
  {
    if upstream.Streaming? then Message(Assistant, TurnText(upstream)) else ErrorMessage
  }

  /** A submission carried through the relay and back, the body reaching
      the page in the chunks the relay enqueued. */
  method Turn(session: ChatSession, systemPrompt: Option<string>, upstream: Upstream)
    returns (call: Option<CompletionCall>)
    modifies session
    ensures !old(session.Accepts()) ==> call == None && unchanged(session)
    ensures old(session.Accepts()) ==>
      && session.messages == old(session.messages) + [Message(User, old(session.input)), TurnReply(upstream)]
      && session.input == "" && !session.isLoading
    ensures old(session.Accepts()) && !upstream.ClientFailed? ==>
      call == Some(CompletionCall(ModelId(Some(old(session.model))),
                                  FinalMessages(systemPrompt, old(session.messages) + [Message(User, old(session.input))])))
    ensures session.model == old(session.model) && session.history == old(session.history)
  {
    call := None;
    if !session.Accepts() {
      return;
    }
    var sent := session.messages + [Message(User, session.input)];
    var response;
    call, response := Post(Parsed(RequestBody(sent, Some(session.model))), systemPrompt, upstream);
    var reply := if response.StreamResponse? then Body(response.chunks, None) else NotOk;
    if upstream.Streaming? {
      StreamedTurnReply(upstream, response.chunks);
    }
    assert ReplyMessages(reply) == [TurnReply(upstream)];
    var request := session.Submit(reply);
    assert session.messages == sent + [TurnReply(upstream)];
  }
}
