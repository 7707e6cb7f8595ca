/**
 The client chat adapter (`AIService`): the message list it sends to the
 proxy, how it reads the proxy's reply, and its four single-message
 convenience wrappers.
 */
module AiService {
  import opened Wrappers
  import opened Js

  datatype Role = System | User | Assistant

  /** The role as it is written into the request body. */
  function RoleName(r: Role): string {
    match r
    case System => "system"
    case User => "user"
    case Assistant => "assistant"
  }

  datatype ChatMessage = ChatMessage(role: Role, content: string)

  /** The service's two fields, set once by its constructor and never changed. */
  const BaseUrl: string := "https://ocean-main.onrender.com/api"
  const ModelName: string := "gemini-1.5-flash"

  /** The formatting instruction sent ahead of every conversation. */
  const SystemInstruction: string :=
    "You are Shark AI, a marine data assistant. Always format your answers in a clear, structured way using Markdown.\n"
    + "- Use bullet points with a hyphen (-) for lists.\n"
    + "- Use indented plus signs (  +) for sub-bullets.\n"
    + "- Use numbered lists (1., 2.) when order matters.\n"
    + "- Use bold text ('**text**') for headings or key terms.\n"
    + "- When presenting tabular data, use Markdown tables, like this:\n"
    + "| Species         | Family      | Confidence |\n"
    + "| --------------- | ----------- | ---------- |\n"
    + "| Gadus morhua    | Gadidae     | 94%        |\n"
    + "| Salmo salar     | Salmonidae  | 89%        |\n"

  const Instruction: ChatMessage := ChatMessage(System, SystemInstruction)

  const NoResponseMessage: string := "No response from Gemini API"

  /** `[{ role: 'system', content: ... }, ...messages]`. */
  function Outgoing(messages: seq<ChatMessage>): (r: seq<ChatMessage>)
    ensures |r| == |messages| + 1
    ensures r[0] == Instruction && r[0].role == System
    ensures r[1..] == messages
    ensures forall i :: 0 <= i < |messages| ==> r[i + 1] == messages[i]
  {
    [Instruction] + messages
  }

  /** The body of the POST to the proxy, with its fixed parameters (temperature 0.7 kept in tenths). */
  datatype BackendRequest = BackendRequest(
    url: string,
    model: string,
    messages: seq<ChatMessage>,
    temperatureTenths: nat,
    maxTokens: nat,
    topP: nat,
    stream: bool)

  function BuildRequest(messages: seq<ChatMessage>): (r: BackendRequest)
    ensures r.url == BaseUrl + "/ai" && r.model == ModelName
    ensures r.messages == Outgoing(messages)
    ensures r.temperatureTenths == 7 && r.maxTokens == 1024 && r.topP == 1 && !r.stream
  {
    BackendRequest(BaseUrl + "/ai", ModelName, Outgoing(messages), 7, 1024, 1, false)
  }

  /** The first element of the outgoing list is the same for every call. */
  lemma InstructionIsConstant(a: seq<ChatMessage>, b: seq<ChatMessage>)
    ensures BuildRequest(a).messages[0] == BuildRequest(b).messages[0]
    ensures BuildRequest(a).messages[0] == Instruction
  {
  }

  /**
   What awaiting the POST produced: the fetch rejected, or an HTTP reply whose
   body parsed as JSON (`Some`) or did not (`None`).
   */
  datatype BackendReply = Rejected | Reply(status: nat, body: Option<Json>)

  const BackendErrorPrefix: string := "Backend error: "
  const UnknownErrorDetail: string := "Unknown error"

  /** `Backend error: ${response.status} - ${errorData.error || 'Unknown error'}`. */
  function BackendErrorMessage(status: nat, errorField: Value): (m: string)
    ensures Truthy(errorField) ==>
              m == BackendErrorPrefix + NatToDecimal(status) + " - " + ToString(errorField.json)
    ensures !Truthy(errorField) ==>
              m == BackendErrorPrefix + NatToDecimal(status) + " - " + UnknownErrorDetail
  {
    BackendErrorPrefix + NatToDecimal(status) + " - " + ToString(Or(errorField, JStr(UnknownErrorDetail)))
  }

  /**
   `data.candidates[0].content.parts[0].text` behind the empty-answer test,
   read with JavaScript's property semantics.
   */
  function FirstCandidateText(data: Json): (r: Result<Value, Exception>)
    ensures data == JNull ==> r == Err(TypeError)
    ensures data.JObj? && ("candidates" !in data.fields || !TruthyJson(data.fields["candidates"])) ==>
              r == Err(Error(NoResponseMessage))
    ensures data.JObj? && "candidates" in data.fields && data.fields["candidates"] == JArr([]) ==>
              r == Err(Error(NoResponseMessage))
  {
    var candidates :- Prop(Defined(data), "candidates");
    if !Truthy(candidates) then Err(Error(NoResponseMessage))
    else
      // `candidates` is truthy, so neither of these two reads can throw.
      var length := Prop(candidates, "length").value;
      if length == Defined(JNum(0)) then Err(Error(NoResponseMessage))
      else
        var first := Prop(candidates, "0").value;
        var content :- Prop(first, "content");
        var parts :- Prop(content, "parts");
        var part :- Prop(parts, "0");
        Prop(part, "text")
  }

  /** How `sendMessage` turns the proxy's reply into its result or the exception it rethrows. */
  function Interpret(reply: BackendReply): (r: Result<Value, Exception>)
    ensures reply.Rejected? ==> r == Err(NetworkError)
    ensures reply.Reply? && !HttpOk(reply.status) ==> r.Err?
    ensures reply.Reply? && HttpOk(reply.status) && reply.body.None? ==> r == Err(SyntaxError)
    ensures reply.Reply? && !HttpOk(reply.status) && reply.body == Some(JNull) ==> r == Err(TypeError)
    ensures r.Ok? ==> reply.Reply? && HttpOk(reply.status) && reply.body.Some?
                      && r == FirstCandidateText(reply.body.value)
  {
    match reply
    case Rejected => Err(NetworkError)
    case Reply(status, body) =>
      if !HttpOk(status) then
        // `response.json().catch(() => ({}))`
        var errorData := if body.Some? then body.value else EmptyObject;
        var field :- Prop(Defined(errorData), "error");
        Err(Error(BackendErrorMessage(status, field)))
      else if body.None? then Err(SyntaxError)
      else FirstCandidateText(body.value)
  }

  /** One call of `sendMessage`: the request it sends and what it returns or throws. */
  datatype Call = Call(request: BackendRequest, result: Result<Value, Exception>)

  function SendMessage(messages: seq<ChatMessage>, reply: BackendReply): (c: Call)
    ensures c.request == BuildRequest(messages) && c.request.messages == Outgoing(messages)
    ensures c.result == Interpret(reply)
    ensures c.result.Ok? ==> reply.Reply? && HttpOk(reply.status)
    ensures reply.Rejected? ==> c.result == Err(NetworkError)
  {
    Call(BuildRequest(messages), Interpret(reply))
  }

  // ---------------------------------------------------------------------
  // Reading the reply

  lemma ArrayIndexZero()
    ensures ArrayIndex("0") == Some(0)
  {
    ArrayIndexOfNumeral(0);
    assert NatToDecimal(0) == "0";
  }

  /** A non-ok reply is thrown as a backend error naming the status and the detail. */
  lemma NonOkReplyIsBackendError(status: nat, errorData: Json)
    requires !HttpOk(status) && errorData != JNull
    ensures var field := Prop(Defined(errorData), "error").value;
            Interpret(Reply(status, Some(errorData))) == Err(Error(BackendErrorMessage(status, field)))
  {
  }

  /** With no truthy `error` field, or no JSON body at all, the detail reads 'Unknown error'. */
  lemma MissingErrorDetail(status: nat, fields: map<string, Json>)
    requires !HttpOk(status)
    requires "error" !in fields || !TruthyJson(fields["error"])
    ensures Interpret(Reply(status, None))
            == Err(Error(BackendErrorPrefix + NatToDecimal(status) + " - " + UnknownErrorDetail))
    ensures Interpret(Reply(status, Some(JObj(fields)))) == Interpret(Reply(status, None))
  {
  }

  /** The longest run of digits a string starts with. */
  function LeadingDigits(s: string): (d: string)
    ensures AllDigits(d) && d <= s
  {
    if s != [] && IsDigit(s[0]) then [s[0]] + LeadingDigits(s[1..]) else []
  }

  lemma {:induction false} LeadingDigitsOfNumeral(d: string, rest: string)
    requires AllDigits(d)
    requires rest == [] || !IsDigit(rest[0])
    ensures LeadingDigits(d + rest) == d
  {
    if d != [] {
      assert (d + rest)[1..] == d[1..] + rest;
      LeadingDigitsOfNumeral(d[1..], rest);
    } else {
      assert d + rest == rest;
    }
  }

  /** The status a backend-error message names, when it is one. */
  function StatusOfMessage(message: string): Option<nat> {
    if BackendErrorPrefix <= message then
      Some(DecimalValue(LeadingDigits(message[|BackendErrorPrefix|..])))
    else None
  }

  /** The thrown message names the reply's status in full: it can be read back. */
  lemma BackendErrorNamesStatus(status: nat, errorField: Value)
    ensures StatusOfMessage(BackendErrorMessage(status, errorField)) == Some(status)
  {
    var d := NatToDecimal(status);
    var rest := " - " + ToString(Or(errorField, JStr(UnknownErrorDetail)));
    var m := BackendErrorMessage(status, errorField);
    assert m == BackendErrorPrefix + (d + rest);
    assert m[|BackendErrorPrefix|..] == d + rest;
    LeadingDigitsOfNumeral(d, rest);
    DecimalRoundTrip(status);
  }

  /** Later candidates never influence the result. */
  lemma LaterCandidatesIgnored(fields: map<string, Json>, first: Json, rest: seq<Json>)
    ensures FirstCandidateText(JObj(fields["candidates" := JArr([first] + rest)]))
            == FirstCandidateText(JObj(fields["candidates" := JArr([first])]))
  {
    ArrayIndexZero();
  }

  // ---------------------------------------------------------------------
  // The declared response shape

  /** The shape the adapter declares for a successful body. */
  datatype Part = Part(text: string)
  datatype Candidate = Candidate(parts: seq<Part>)
  datatype GeminiResponse = GeminiResponse(candidates: seq<Candidate>)

  function PartJson(p: Part): Json {
    JObj(map["text" := JStr(p.text)])
  }

  function CandidateJson(c: Candidate): Json {
    JObj(map["content" := JObj(map["parts" := JArr(seq(|c.parts|, i requires 0 <= i < |c.parts| => PartJson(c.parts[i])))])])
  }

  /** The JSON value a body of the declared shape parses to. */
  function ResponseJson(resp: GeminiResponse): Json {
    JObj(map["candidates" := JArr(seq(|resp.candidates|, i requires 0 <= i < |resp.candidates| => CandidateJson(resp.candidates[i])))])
  }

  /**
   On a body of the declared shape the adapter returns the first part of the
   first candidate; with no candidates it throws 'No response from Gemini API';
   a first candidate with no parts makes the read of `.text` throw.
   */
  lemma ReadsDeclaredShape(resp: GeminiResponse)
    ensures FirstCandidateText(ResponseJson(resp))
            == if resp.candidates == [] then Err(Error(NoResponseMessage))
               else if resp.candidates[0].parts == [] then Err(TypeError)
               else Ok(Defined(JStr(resp.candidates[0].parts[0].text)))
  {
    ArrayIndexZero();
    if resp.candidates != [] {
      var items := seq(|resp.candidates|, i requires 0 <= i < |resp.candidates| => CandidateJson(resp.candidates[i]));
      assert items[0] == CandidateJson(resp.candidates[0]);
      assert JNum(|items|) != JNum(0);
    }
  }

  /**
   The success read on any body, whatever other keys it carries: the `text`
   field of the first part of the first candidate's content, or undefined.
   */
  lemma ReadsFirstText(fields: map<string, Json>, c: map<string, Json>, ct: map<string, Json>,
                       p: map<string, Json>, rest: seq<Json>, prest: seq<Json>)
    requires "candidates" in fields && fields["candidates"] == JArr([JObj(c)] + rest)
    requires "content" in c && c["content"] == JObj(ct)
    requires "parts" in ct && ct["parts"] == JArr([JObj(p)] + prest)
    ensures FirstCandidateText(JObj(fields)) == Ok(if "text" in p then Defined(p["text"]) else Undefined)
  {
    ArrayIndexZero();
  }

  // ---------------------------------------------------------------------
  // Convenience wrappers: each sends one user message built from a template

  function AnalyzeMarineData(dataType: string, query: string): (ms: seq<ChatMessage>)
    ensures |ms| == 1 && ms[0].role == User
    ensures ms[0].content == "Analyze this " + dataType + ": " + query
  {
    [ChatMessage(User, "Analyze this " + dataType + ": " + query)]
  }

  function IdentifySpecies(description: string): (ms: seq<ChatMessage>)
    ensures |ms| == 1 && ms[0].role == User
    ensures ms[0].content == "Identify species: " + description
  {
    [ChatMessage(User, "Identify species: " + description)]
  }

  function InterpretEDNA(sampleData: string): (ms: seq<ChatMessage>)
    ensures |ms| == 1 && ms[0].role == User
    ensures ms[0].content == "Interpret eDNA: " + sampleData
  {
    [ChatMessage(User, "Interpret eDNA: " + sampleData)]
  }

  function AnalyzeOceanConditions(conditions: string): (ms: seq<ChatMessage>)
    ensures |ms| == 1 && ms[0].role == User
    ensures ms[0].content == "Analyze ocean conditions: " + conditions
  {
    [ChatMessage(User, "Analyze ocean conditions: " + conditions)]
  }

  /** The text after `prefix`, when `s` starts with it. */
  function StripPrefix(prefix: string, s: string): (r: Option<string>)
    ensures r.Some? <==> prefix <= s
    ensures r.Some? ==> prefix + r.value == s
  {
    if prefix <= s then Some(s[|prefix|..]) else None
  }

  lemma StripPrefixOfConcat(prefix: string, x: string)
    ensures StripPrefix(prefix, prefix + x) == Some(x)
  {
    assert (prefix + x)[|prefix|..] == x;
  }

  /** The single-argument wrappers lose nothing: the argument can be read back from the message. */
  lemma SingleArgumentWrappersInvertible(x: string)
    ensures StripPrefix("Identify species: ", IdentifySpecies(x)[0].content) == Some(x)
    ensures StripPrefix("Interpret eDNA: ", InterpretEDNA(x)[0].content) == Some(x)
    ensures StripPrefix("Analyze ocean conditions: ", AnalyzeOceanConditions(x)[0].content) == Some(x)
  {
    StripPrefixOfConcat("Identify species: ", x);
    StripPrefixOfConcat("Interpret eDNA: ", x);
    StripPrefixOfConcat("Analyze ocean conditions: ", x);
  }

  /**
   The two-argument template keeps the query as the message's tail, but the
   split between data type and query is not recoverable in general.
   */
  lemma AnalyzeMarineDataTemplate(dataType: string, query: string)
    ensures var c := AnalyzeMarineData(dataType, query)[0].content;
            StripPrefix("Analyze this ", c) == Some(dataType + ": " + query)
    ensures AnalyzeMarineData("sonar: depth", "now") == AnalyzeMarineData("sonar", "depth: now")
  {
    StripPrefixOfConcat("Analyze this ", dataType + ": " + query);
    assert "Analyze this " + dataType + ": " + query == "Analyze this " + (dataType + ": " + query);
    assert "Analyze this " + "sonar: depth" + ": " + "now" == "Analyze this " + "sonar" + ": " + "depth: now";
  }

  /** A wrapper's request holds two messages: the instruction, then its own user message. */
  lemma WrapperRequestShape(ms: seq<ChatMessage>, reply: BackendReply)
    requires |ms| == 1
    ensures var req := SendMessage(ms, reply).request;
            |req.messages| == 2 && req.messages[0] == Instruction && req.messages[1] == ms[0]
  {
  }
}
