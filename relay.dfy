/**
 How the proxy flattens a chat history into the single prompt string it
 sends upstream (the `messages.map(...).join('\n\n')` of the `/api/ai` route).
 */
module Prompt {
  import opened Js

  /** A chat message as the proxy receives it: any role string is accepted. */
  datatype Message = Message(role: string, content: string)

  const Separator: string := "\n\n"

  /** One message's line of the prompt: system content bare, user and assistant content labelled. */
  function RenderMessage(m: Message): (r: string)
    ensures m.role == "system" ==> r == m.content
    ensures m.role == "user" ==> r == "User: " + m.content
    ensures m.role == "assistant" ==> r == "Assistant: " + m.content
    ensures m.role !in {"system", "user", "assistant"} ==> r == m.content
  {
    if m.role == "system" then m.content
    else if m.role == "user" then "User: " + m.content
    else if m.role == "assistant" then "Assistant: " + m.content
    else m.content
  }

  /** The renderings of the messages, position for position. */
  function Renderings(ms: seq<Message>): (r: seq<string>)
    ensures |r| == |ms|
    ensures forall i :: 0 <= i < |ms| ==> r[i] == RenderMessage(ms[i])
  {
    seq(|ms|, i requires 0 <= i < |ms| => RenderMessage(ms[i]))
  }

  function RenderPrompt(ms: seq<Message>): (r: string)
    ensures ms == [] ==> r == ""
    ensures |ms| == 1 ==> r == RenderMessage(ms[0])
  {
    Join(Renderings(ms), Separator)
  }

  /** A rendering ends with the message's content, unaltered. */
  lemma RenderingEndsWithContent(m: Message)
    ensures |m.content| <= |RenderMessage(m)|
    ensures RenderMessage(m)[|RenderMessage(m)| - |m.content|..] == m.content
  {
  }

  /** Where message `i`'s rendering begins in the prompt. */
  function MessageOffset(ms: seq<Message>, i: nat): nat
    requires i <= |ms|
  {
    Offset(Renderings(ms), Separator, i)
  }

  /** The prompt is the renderings plus exactly |ms| - 1 two-character separators. */
  lemma PromptLength(ms: seq<Message>)
    requires |ms| >= 1
    ensures |RenderPrompt(ms)| == SumLengths(Renderings(ms)) + 2 * (|ms| - 1)
  {
    JoinLength(Renderings(ms), Separator);
  }

  /** Every message appears, rendered, at its own position, in input order. */
  lemma PromptMessageAt(ms: seq<Message>, i: nat)
    requires i < |ms|
    ensures MessageOffset(ms, i) + |RenderMessage(ms[i])| <= |RenderPrompt(ms)|
    ensures RenderPrompt(ms)[MessageOffset(ms, i)..MessageOffset(ms, i) + |RenderMessage(ms[i])|]
            == RenderMessage(ms[i])
    ensures MessageOffset(ms, i + 1) == MessageOffset(ms, i) + |RenderMessage(ms[i])| + 2
  {
    JoinPartAt(Renderings(ms), Separator, i);
  }

  /** Each two consecutive renderings are separated by a blank line. */
  lemma PromptSeparatorAt(ms: seq<Message>, i: nat)
    requires 0 < i < |ms|
    ensures 2 <= MessageOffset(ms, i) <= |RenderPrompt(ms)|
    ensures RenderPrompt(ms)[MessageOffset(ms, i) - 2..MessageOffset(ms, i)] == "\n\n"
  {
    JoinSeparatorAt(Renderings(ms), Separator, i);
  }

  /** Prompts of two non-empty histories compose with one separator between them. */
  lemma PromptConcat(a: seq<Message>, b: seq<Message>)
    requires |a| >= 1 && |b| >= 1
    ensures RenderPrompt(a + b) == RenderPrompt(a) + "\n\n" + RenderPrompt(b)
  {
    var ra, rb, rab := Renderings(a), Renderings(b), Renderings(a + b);
    forall i | 0 <= i < |a + b|
      ensures rab[i] == (ra + rb)[i]
    {
      if i < |a| {
        assert (a + b)[i] == a[i];
      } else {
        assert (a + b)[i] == b[i - |a|];
      }
    }
    assert rab == ra + rb;
    JoinConcat(Renderings(a), Renderings(b), Separator);
  }

  /** A leading system message contributes its content bare, then a separator if more follows. */
  lemma PromptAfterSystemMessage(content: string, ms: seq<Message>)
    ensures RenderPrompt([Message("system", content)] + ms)
            == if ms == [] then content else content + "\n\n" + RenderPrompt(ms)
  {
    if ms == [] {
      assert [Message("system", content)] + ms == [Message("system", content)];
    } else {
      PromptConcat([Message("system", content)], ms);
    }
  }

  /** Appending a message appends a separator and its rendering. */
  lemma PromptAppend(ms: seq<Message>, m: Message)
    requires |ms| >= 1
    ensures RenderPrompt(ms + [m]) == RenderPrompt(ms) + "\n\n" + RenderMessage(m)
  {
    PromptConcat(ms, [m]);
  }
}

/**
 The decision logic of the proxy's `/api/ai` route: from the configured key,
 the request's message list and what the upstream call produced, the one
 HTTP response the route sends, and the upstream request it makes, if any.
 */
module Relay {
  import opened Wrappers
  import opened Js
  import opened Prompt

  const ConfigErrorMessage: string := "Server configuration error: Missing API Key."
  const ContactFailureMessage: string :=
    "Failed to contact Gemini API. Check the server terminal for more details."
  const UpstreamErrorPrefix: string := "Gemini API Error: "
  const UpstreamEndpoint: string :=
    "https://generativelanguage.googleapis.com/v1beta/models/gemini-1.5-flash-latest:generateContent?key="

  /** The fixed generation parameters; the temperature 0.7 is kept in tenths. */
  datatype GenerationConfig = GenerationConfig(temperatureTenths: nat, topK: nat, topP: nat, maxOutputTokens: nat)

  const Generation: GenerationConfig := GenerationConfig(7, 1, 1, 1024)

  /** The one POST the route sends upstream. */
  datatype UpstreamRequest = UpstreamRequest(url: string, prompt: string, config: GenerationConfig)

  /**
   What awaiting the upstream call produced: the fetch rejected, or an HTTP
   reply whose body parsed as JSON (`Some`) or did not (`None`).
   */
  datatype UpstreamReply =
    | Rejected
    | Reply(status: nat, statusText: string, body: Option<Json>)

  /** The route's reply: a status and a JSON body. */
  datatype Response = Response(status: nat, body: Json)

  /** The upstream request, when one was made, and the response sent. */
  datatype Exchange = Exchange(request: Option<UpstreamRequest>, response: Response)

  /** `!apiKey` fails for a missing key and for the empty string. */
  predicate KeyPresent(key: Option<string>)
    ensures KeyPresent(key) <==> Truthy(if key.Some? then Defined(JStr(key.value)) else Undefined)
  {
    key.Some? && key.value != ""
  }

  /** `{ error: detail }`. */
  function ErrorBody(detail: Json): (b: Json)
    ensures b.JObj? && b.fields.Keys == {"error"} && b.fields["error"] == detail
  {
    JObj(map["error" := detail])
  }

  const ConfigErrorResponse: Response := Response(500, ErrorBody(JStr(ConfigErrorMessage)))

  /** What the `catch` block sends, whatever was thrown. */
  const ContactFailureResponse: Response := Response(500, ErrorBody(JStr(ContactFailureMessage)))

  function UpstreamCall(key: string, prompt: string): (r: UpstreamRequest)
    ensures r.url == UpstreamEndpoint + key
    ensures r.prompt == prompt && r.config == Generation
  {
    UpstreamRequest(UpstreamEndpoint + key, prompt, Generation)
  }

  /**
   The part of the `try` block that follows the upstream call, up to the
   response it sends, or the exception it throws.
   */
  function RelayReply(reply: UpstreamReply): (r: Result<Response, Exception>)
    ensures reply.Rejected? ==> r == Err(NetworkError)
    ensures reply.Reply? && !HttpOk(reply.status) && r.Ok? ==> r.value.status == reply.status
    ensures reply.Reply? && HttpOk(reply.status) ==>
              r == (if reply.body.Some? then Ok(Response(200, reply.body.value)) else Err(SyntaxError))
  {
    match reply
    case Rejected => Err(NetworkError)
    case Reply(status, statusText, body) =>
      if !HttpOk(status) then
        // `response.json().catch(() => ({}))`
        var errorData := if body.Some? then body.value else EmptyObject;
        var detail :- Prop(Defined(errorData), "error");
        Ok(Response(status, ErrorBody(Or(detail, JStr(UpstreamErrorPrefix + statusText)))))
      else if body.None? then Err(SyntaxError)
      else Ok(Response(200, body.value))
  }

  /**
   The `/api/ai` route. `messages` is `None` when the request body has no
   message array, so that `messages.map` throws before anything is sent.
   */
  function HandleAi(key: Option<string>, messages: Option<seq<Message>>, reply: UpstreamReply): (e: Exchange)
    ensures e.request.Some? <==> KeyPresent(key) && messages.Some?
    ensures e.request.Some? ==> e.request.value == UpstreamCall(key.value, RenderPrompt(messages.value))
    ensures !KeyPresent(key) ==> e.response == ConfigErrorResponse
    ensures KeyPresent(key) && messages.None? ==> e.response == ContactFailureResponse
  {
    if !KeyPresent(key) then Exchange(None, ConfigErrorResponse)
    else match messages
      case None => Exchange(None, ContactFailureResponse)
      case Some(ms) =>
        var response := match RelayReply(reply)
          case Ok(r) => r
          case Err(_) => ContactFailureResponse;
        Exchange(Some(UpstreamCall(key.value, RenderPrompt(ms))), response)
  }

  /** The detail a non-ok reply relays: the body's truthy `error` field, else the status text. */
  function UpstreamDetail(errorField: Value, statusText: string): (d: Json)
    ensures Truthy(errorField) ==> Defined(d) == errorField
    ensures !Truthy(errorField) ==> d == JStr(UpstreamErrorPrefix + statusText)
    ensures TruthyJson(d)
  {
    Or(errorField, JStr(UpstreamErrorPrefix + statusText))
  }

  /** A non-ok upstream reply keeps its status, and relays its `error` field or the status text. */
  lemma UpstreamErrorRelayed(key: Option<string>, ms: seq<Message>, status: nat, statusText: string, errorData: Json)
    requires KeyPresent(key) && !HttpOk(status) && errorData != JNull
    ensures var field := Prop(Defined(errorData), "error").value;
            HandleAi(key, Some(ms), Reply(status, statusText, Some(errorData))).response
            == Response(status, ErrorBody(UpstreamDetail(field, statusText)))
  {
  }

  /** An error body that is not JSON is read as `{}`: the status text is relayed. */
  lemma UnparsableErrorBodyIsEmptyObject(key: Option<string>, ms: seq<Message>, status: nat, statusText: string)
    requires KeyPresent(key) && !HttpOk(status)
    ensures HandleAi(key, Some(ms), Reply(status, statusText, None))
            == HandleAi(key, Some(ms), Reply(status, statusText, Some(EmptyObject)))
    ensures HandleAi(key, Some(ms), Reply(status, statusText, None)).response
            == Response(status, ErrorBody(JStr(UpstreamErrorPrefix + statusText)))
  {
  }

  /** An error body that is JSON `null` makes `errorData.error` throw: the generic 500. */
  lemma NullErrorBodyIsContactFailure(key: Option<string>, ms: seq<Message>, status: nat, statusText: string)
    requires KeyPresent(key) && !HttpOk(status)
    ensures HandleAi(key, Some(ms), Reply(status, statusText, Some(JNull))).response == ContactFailureResponse
  {
  }

  /** A transport failure always ends in the same generic 500, whatever the key or the history. */
  lemma RejectedIsContactFailure(key: Option<string>, ms: seq<Message>)
    requires KeyPresent(key)
    ensures HandleAi(key, Some(ms), Rejected).response == ContactFailureResponse
    ensures HandleAi(key, Some(ms), Rejected).request.Some?
  {
  }

  /** A successful reply's body is relayed unchanged; one that is not JSON gives the generic 500. */
  lemma SuccessPassesBodyThrough(key: Option<string>, ms: seq<Message>, status: nat, statusText: string, body: Option<Json>)
    requires KeyPresent(key) && HttpOk(status)
    ensures HandleAi(key, Some(ms), Reply(status, statusText, body)).response
            == if body.Some? then Response(200, body.value) else ContactFailureResponse
  {
  }

  /**
   The route answers 200 exactly when it called upstream and got an ok reply
   with a JSON body: every other outcome carries an error status.
   */
  lemma Status200Iff(key: Option<string>, messages: Option<seq<Message>>, reply: UpstreamReply)
    ensures HandleAi(key, messages, reply).response.status == 200
            <==> KeyPresent(key) && messages.Some? && reply.Reply? && HttpOk(reply.status) && reply.body.Some?
  {
    var e := HandleAi(key, messages, reply);
    if KeyPresent(key) && messages.Some? && reply.Reply? && !HttpOk(reply.status) {
      match RelayReply(reply)
      case Ok(r) => assert r.status == reply.status;
      case Err(_) =>
    }
  }

  /** Every response that is not the relayed success is shaped `{ error: ... }`. */
  lemma FailuresCarryErrorField(key: Option<string>, messages: Option<seq<Message>>, reply: UpstreamReply)
    requires HandleAi(key, messages, reply).response.status != 200
    ensures HandleAi(key, messages, reply).response.body.JObj?
    ensures HandleAi(key, messages, reply).response.body.fields.Keys == {"error"}
  {
    Status200Iff(key, messages, reply);
  }
}
