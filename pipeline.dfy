/**
 The client adapter and the proxy composed: the client's request body is the
 proxy's request body, and the proxy's response is the client's reply.
 */
module Pipeline {
  import opened Wrappers
  import opened Js
  import opened Prompt
  import opened Relay
  import opened AiService

  /** A chat message as it arrives at the proxy once serialised to JSON. */
  function Wire(m: ChatMessage): (w: Message)
    ensures w.content == m.content
  {
    Message(RoleName(m.role), m.content)
  }

  function WireAll(ms: seq<ChatMessage>): (ws: seq<Message>)
    ensures |ws| == |ms|
    ensures forall i :: 0 <= i < |ms| ==> ws[i] == Wire(ms[i])
  {
    seq(|ms|, i requires 0 <= i < |ms| => Wire(ms[i]))
  }

  /** A proxy response as the client sees it. */
  function AsBackendReply(r: Response): BackendReply {
    BackendReply.Reply(r.status, Some(r.body))
  }

  /** What `sendMessage` returns or throws when its request goes through the proxy. */
  function EndToEnd(key: Option<string>, ms: seq<ChatMessage>, upstream: UpstreamReply): Result<Value, Exception> {
    ThroughProxy(key, WireAll(BuildRequest(ms).messages), upstream)
  }

  /** What the client makes of the proxy's response to a given forwarded history. */
  function ThroughProxy(key: Option<string>, forwarded: seq<Message>, upstream: UpstreamReply): Result<Value, Exception> {
    Interpret(AsBackendReply(HandleAi(key, Some(forwarded), upstream).response))
  }

  /** The client's roles render with the proxy's labels. */
  lemma WireRendering(m: ChatMessage)
    ensures RenderMessage(Wire(m)) == match m.role
      case System => m.content
      case User => "User: " + m.content
      case Assistant => "Assistant: " + m.content
  {
  }

  /** Wiring a list with a message in front puts that message, wired, in front. */
  lemma WireAllPrepend(m: ChatMessage, ms: seq<ChatMessage>)
    ensures WireAll([m] + ms) == [Wire(m)] + WireAll(ms)
  {
    var lhs, rhs := WireAll([m] + ms), [Wire(m)] + WireAll(ms);
    forall i | 0 <= i < |lhs|
      ensures lhs[i] == rhs[i]
    {
      if i > 0 {
        assert ([m] + ms)[i] == ms[i - 1];
      }
    }
  }

  /** Upstream sees the instruction bare, then the caller's history, a blank line apart. */
  lemma ForwardedPrompt(ms: seq<ChatMessage>)
    ensures RenderPrompt(WireAll(Outgoing(ms)))
            == if ms == [] then SystemInstruction else SystemInstruction + "\n\n" + RenderPrompt(WireAll(ms))
  {
    WireAllPrepend(Instruction, ms);
    assert Wire(Instruction) == Message("system", SystemInstruction);
    PromptAfterSystemMessage(SystemInstruction, WireAll(ms));
  }

  /** A wrapper's prompt upstream: the instruction, a blank line, and its labelled user message. */
  lemma WrapperPrompt(description: string)
    ensures RenderPrompt(WireAll(Outgoing(IdentifySpecies(description))))
            == SystemInstruction + "\n\nUser: Identify species: " + description
  {
    var ms := IdentifySpecies(description);
    ForwardedPrompt(ms);
    var user := Message("user", "Identify species: " + description);
    assert WireAll(ms) == [user];
    assert RenderPrompt(WireAll(ms)) == "User: " + ("Identify species: " + description);
  }

  /** Through the proxy, the first candidate's first part is what the caller gets. */
  lemma EndToEndAnswer(key: Option<string>, ms: seq<ChatMessage>, status: nat, statusText: string, resp: GeminiResponse)
    requires KeyPresent(key) && HttpOk(status)
    requires resp.candidates != [] && resp.candidates[0].parts != []
    ensures EndToEnd(key, ms, UpstreamReply.Reply(status, statusText, Some(ResponseJson(resp))))
            == Ok(Defined(JStr(resp.candidates[0].parts[0].text)))
  {
    var forwarded := WireAll(BuildRequest(ms).messages);
    SuccessPassesBodyThrough(key, forwarded, status, statusText, Some(ResponseJson(resp)));
    ReadsDeclaredShape(resp);
  }

  lemma Decimal500And429()
    ensures NatToDecimal(500) == "500" && NatToDecimal(429) == "429"
  {
    assert NatToDecimal(5) == "5" && NatToDecimal(50) == "50";
    assert NatToDecimal(4) == "4" && NatToDecimal(42) == "42";
  }

  /** Through the proxy, an error response `{ error: detail }` reaches the caller as a backend error. */
  lemma ClientSeesErrorBody(status: nat, detail: Json)
    requires !HttpOk(status)
    ensures Interpret(AsBackendReply(Response(status, ErrorBody(detail))))
            == Err(Error(BackendErrorPrefix + NatToDecimal(status) + " - " + ToString(Or(Defined(detail), JStr(UnknownErrorDetail)))))
  {
    NonOkReplyIsBackendError(status, ErrorBody(detail));
  }

  /** Without a key the caller sees the configuration error, and nothing goes upstream. */
  lemma MissingKeyThroughProxy(key: Option<string>, forwarded: seq<Message>, upstream: UpstreamReply)
    requires !KeyPresent(key)
    ensures HandleAi(key, Some(forwarded), upstream).request.None?
    ensures ThroughProxy(key, forwarded, upstream)
            == Err(Error(BackendErrorPrefix + "500" + " - " + ConfigErrorMessage))
  {
    ClientSeesErrorBody(500, JStr(ConfigErrorMessage));
    Decimal500And429();
  }

  /** The same, for whatever history the caller passed to `sendMessage`. */
  lemma EndToEndMissingKey(key: Option<string>, ms: seq<ChatMessage>, upstream: UpstreamReply)
    requires !KeyPresent(key)
    ensures EndToEnd(key, ms, upstream) == Err(Error(BackendErrorPrefix + "500" + " - " + ConfigErrorMessage))
  {
    MissingKeyThroughProxy(key, WireAll(BuildRequest(ms).messages), upstream);
  }

  /** A transport failure upstream surfaces as the generic message. */
  lemma RejectedThroughProxy(key: Option<string>, forwarded: seq<Message>)
    requires KeyPresent(key)
    ensures ThroughProxy(key, forwarded, UpstreamReply.Rejected)
            == Err(Error(BackendErrorPrefix + "500" + " - " + ContactFailureMessage))
  {
    RejectedIsContactFailure(key, forwarded);
    ClientSeesErrorBody(500, JStr(ContactFailureMessage));
    Decimal500And429();
  }

  /**
   The proxy relays the upstream `error` field as it is; when that field is an
   object (as the upstream service sends it) the client prints it as
   "[object Object]", not as its message.
   */
  lemma ErrorObjectThroughProxy(key: Option<string>, forwarded: seq<Message>, status: nat,
                                statusText: string, fields: map<string, Json>, detail: map<string, Json>)
    requires KeyPresent(key) && !HttpOk(status)
    ensures ThroughProxy(key, forwarded, UpstreamReply.Reply(status, statusText, Some(JObj(fields["error" := JObj(detail)]))))
            == Err(Error(BackendErrorPrefix + NatToDecimal(status) + " - " + "[object Object]"))
  {
    var errorData := JObj(fields["error" := JObj(detail)]);
    UpstreamErrorRelayed(key, forwarded, status, statusText, errorData);
    ClientSeesErrorBody(status, JObj(detail));
  }

  /** The concrete case: a 429 whose body is {"error":{"message":"rate limited"}}. */
  lemma RateLimitedExample(key: Option<string>, forwarded: seq<Message>)
    requires KeyPresent(key)
    ensures var body := JObj(map["error" := JObj(map["message" := JStr("rate limited")])]);
            HandleAi(key, Some(forwarded), UpstreamReply.Reply(429, "Too Many Requests", Some(body))).response
            == Response(429, ErrorBody(JObj(map["message" := JStr("rate limited")])))
    ensures var body := JObj(map["error" := JObj(map["message" := JStr("rate limited")])]);
            ThroughProxy(key, forwarded, UpstreamReply.Reply(429, "Too Many Requests", Some(body)))
            == Err(Error(BackendErrorPrefix + "429" + " - " + "[object Object]"))
  {
    var detail := map["message" := JStr("rate limited")];
    var body := JObj(map["error" := JObj(detail)]);
    assert body == JObj(map[]["error" := JObj(detail)]);
    UpstreamErrorRelayed(key, forwarded, 429, "Too Many Requests", body);
    ErrorObjectThroughProxy(key, forwarded, 429, "Too Many Requests", map[], detail);
    Decimal500And429();
  }

  /** A non-empty string `error` upstream reaches the caller verbatim. */
  lemma ErrorTextThroughProxy(key: Option<string>, forwarded: seq<Message>, status: nat,
                              statusText: string, fields: map<string, Json>, text: string)
    requires KeyPresent(key) && !HttpOk(status) && text != ""
    ensures ThroughProxy(key, forwarded, UpstreamReply.Reply(status, statusText, Some(JObj(fields["error" := JStr(text)]))))
            == Err(Error(BackendErrorPrefix + NatToDecimal(status) + " - " + text))
  {
    var errorData := JObj(fields["error" := JStr(text)]);
    UpstreamErrorRelayed(key, forwarded, status, statusText, errorData);
    ClientSeesErrorBody(status, JStr(text));
  }

  /** An upstream error body that is not JSON reaches the caller as the status text. */
  lemma StatusTextThroughProxy(key: Option<string>, forwarded: seq<Message>, status: nat, statusText: string)
    requires KeyPresent(key) && !HttpOk(status)
    ensures ThroughProxy(key, forwarded, UpstreamReply.Reply(status, statusText, None))
            == Err(Error(BackendErrorPrefix + NatToDecimal(status) + " - " + (UpstreamErrorPrefix + statusText)))
  {
    UnparsableErrorBodyIsEmptyObject(key, forwarded, status, statusText);
    ClientSeesErrorBody(status, JStr(UpstreamErrorPrefix + statusText));
  }
}
