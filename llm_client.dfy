/** The DeepSeek chat client (agents/llm_client.py). The remote service is an
    oracle: the client holds the reply the service gives to its k-th call and
    a log of every request sent, so the number, order, sampling settings and
    contents of the calls can be stated. Prompt text is not reproduced: a
    message carries either plain text, the fixed system prompt of a role, or
    the values a role's context template interpolates. */
module LlmClient {
  import opened Text
  import opened JsonValues

  /** A sampling temperature in tenths: 7 stands for 0.7. */
  type Tenths = nat

  const DefaultTemperature: Tenths := 7
  const DefaultMaxTokens: nat := 4000

  /** Side of the bull/bear debate. */
  datatype Side = Bull | Bear

  /** The roles whose fixed system prompts the core sends. */
  datatype Role =
    | TechnicalAnalyst
    | FundamentalAnalyst
    | NewsAnalyst
    | BullResearcher
    | BearResearcher
    | Rebuttal(side: Side)
    | DebateModerator
    | Trader
    | RiskManager

  /** The text of a message: literal text, the fixed system prompt of a role,
      or a role's context template filled with `values`, in template order. */
  datatype Content =
    | Prose(text: string)
    | Instruction(role: Role)
    | Data(values: seq<Json>)

  datatype Message = Message(role: string, content: Content)

  /** One call to the chat-completions service. */
  datatype Request = Request(messages: seq<Message>, temperature: Tenths, maxTokens: nat)

  /** What the service does with one call: answer with text, or fail in transport. */
  datatype Reply = Completion(text: string) | TransportFailure(error: string)

  const ErrorPrefix := "错误: "

  /** The string `chat` returns for a reply: the completion text, or the error
      text behind a fixed prefix; never an exception. */
  function ChatText(reply: Reply): (text: string)
    ensures reply.Completion? ==> text == reply.text
    ensures reply.TransportFailure? ==>
              StartsWith(text, ErrorPrefix) && text[|ErrorPrefix|..] == reply.error
  {
    match reply
    case Completion(t) => t
    case TransportFailure(e) => ErrorPrefix + e
  }

  /** What `chat` returns for the client's call number `i`. */
  function Answer(replies: nat -> Reply, i: nat): string {
    ChatText(replies(i))
  }

  /** The system prompt `structured_analysis` builds from its arguments. */
  function StructuredPrompt(role: string, task: string, outputFormat: string): string {
    "你是一位专业的" + role + "。\n你的任务是：" + task + "\n\n请以" + outputFormat
      + "格式输出结果，确保结构清晰、逻辑严谨。\n"
  }

  class DeepSeekClient {
    const model: string
    /** The service's answer to the k-th call made through this client. */
    const replies: nat -> Reply
    /** `json.loads`: the decoded value, or `None` where it raises. */
    const decode: string -> Option<Json>
    /** Every request sent so far, oldest first. */
    var calls: seq<Request>

    constructor (model: string, replies: nat -> Reply, decode: string -> Option<Json>)
      ensures this.model == model && this.replies == replies && this.decode == decode
      ensures calls == []
    {
      this.model := model;
      this.replies := replies;
      this.decode := decode;
      calls := [];
    }

    /** `chat`: one round trip; a transport failure becomes a returned string. */
    method Chat(messages: seq<Message>, temperature: Tenths := DefaultTemperature,
                maxTokens: nat := DefaultMaxTokens) returns (text: string)
      modifies this
      ensures calls == old(calls) + [Request(messages, temperature, maxTokens)]
      ensures text == Answer(replies, |old(calls)|)
    {
      text := Answer(replies, |calls|);
      calls := calls + [Request(messages, temperature, maxTokens)];
    }

    /** `analyze_with_system_prompt`: exactly two messages, system then user,
        with the sampling settings forwarded. */
    method AnalyzeWithSystemPrompt(systemPrompt: Content, userInput: Content,
                                   temperature: Tenths := DefaultTemperature,
                                   maxTokens: nat := DefaultMaxTokens) returns (text: string)
      modifies this
      ensures calls == old(calls) + [Request([Message("system", systemPrompt),
                                              Message("user", userInput)], temperature, maxTokens)]
      ensures text == Answer(replies, |old(calls)|)
    {
      var messages := [Message("system", systemPrompt), Message("user", userInput)];
      text := Chat(messages, temperature, maxTokens);
    }

    /** `structured_analysis`: a prompt built from role, task and format, sent
        with the default output size. */
    method StructuredAnalysis(role: string, task: string, data: string,
                              outputFormat: string := "JSON",
                              temperature: Tenths := DefaultTemperature) returns (text: string)
      modifies this
      ensures calls == old(calls) + [Request([Message("system", Prose(StructuredPrompt(role, task, outputFormat))),
                                              Message("user", Prose(data))], temperature, DefaultMaxTokens)]
      ensures text == Answer(replies, |old(calls)|)
    {
      var systemPrompt := StructuredPrompt(role, task, outputFormat);
      text := AnalyzeWithSystemPrompt(Prose(systemPrompt), Prose(data), temperature);
    }

    /** `multi_round_dialogue`: the system message followed by the conversation
        unchanged, at the default output size. */
    method MultiRoundDialogue(systemPrompt: Content, conversation: seq<Message>,
                              temperature: Tenths := DefaultTemperature) returns (text: string)
      modifies this
      ensures |calls| == |old(calls)| + 1 && calls[..|old(calls)|] == old(calls)
      ensures calls[|old(calls)|].messages == [Message("system", systemPrompt)] + conversation
      ensures |calls[|old(calls)|].messages| == 1 + |conversation|
      ensures calls[|old(calls)|].temperature == temperature
      ensures calls[|old(calls)|].maxTokens == DefaultMaxTokens
      ensures text == Answer(replies, |old(calls)|)
    {
      var messages := [Message("system", systemPrompt)] + conversation;
      text := Chat(messages, temperature);
    }
  }

  /** The request a role agent sends: its fixed system prompt, then its
      context filled with `values`, at the default output size. */
  function RoleRequest(role: Role, values: seq<Json>, temperature: Tenths): Request {
    Request([Message("system", Instruction(role)), Message("user", Data(values))],
            temperature, DefaultMaxTokens)
  }

  /** The role whose fixed system prompt opens a request, if any. */
  function RoleOf(request: Request): Option<Role> {
    if |request.messages| > 0 && request.messages[0].content.Instruction? then
      Some(request.messages[0].content.role)
    else None
  }

  /** The roles of a sequence of requests, in order. */
  function Roles(calls: seq<Request>): (roles: seq<Option<Role>>)
    ensures |roles| == |calls|
    ensures forall i :: 0 <= i < |calls| ==> roles[i] == RoleOf(calls[i])
  {
    seq(|calls|, i requires 0 <= i < |calls| => RoleOf(calls[i]))
  }

  lemma RolesAppend(a: seq<Request>, b: seq<Request>)
    ensures Roles(a + b) == Roles(a) + Roles(b)
  {
  }

  /** One more request spoken as `role`. */
  lemma RoleAppended(a: seq<Request>, role: Role, values: seq<Json>, temperature: Tenths)
    ensures Roles(a + [RoleRequest(role, values, temperature)]) == Roles(a) + [Some(role)]
  {
    RolesAppend(a, [RoleRequest(role, values, temperature)]);
  }

  /** The progress line a role agent prints calls `result.get(...)`, which
      raises on a decoded reply that is not a dictionary. */
  function Announced(result: Json): (r: Result<Json>)
    ensures r.Ok? <==> result.JObj?
    ensures r.Ok? ==> r.value == result
  {
    if result.JObj? then Ok(result) else Err(AttributeError("get"))
  }

  const Fence := "```"
  const JsonFence := "```json"

  /** The text `parse_json_response` hands to the JSON decoder. */
  function JsonPayload(response: string): string {
    if Contains(response, JsonFence) then
      SecondField(response, JsonFence);
      Strip(Before(Split(response, JsonFence)[1], Fence))
    else if Contains(response, Fence) then
      SecondField(response, Fence);
      Strip(Before(Split(response, Fence)[1], Fence))
    else Strip(response)
  }

  /** The dictionary returned when decoding fails: the reply, unstripped. */
  function RawResponse(response: string): Json {
    JObj([("raw_response", JStr(response))])
  }

  /** `parse_json_response`: decode the extracted payload, or fall back to
      `{"raw_response": response}`. `decode` stands for `json.loads`, with
      `None` for the exception it raises. */
  function ParseJsonResponse(decode: string -> Option<Json>, response: string): Json {
    match decode(JsonPayload(response))
    case Some(v) => v
    case None => RawResponse(response)
  }

  /** With a ```json fence, the payload is the stripped text between the first
      ```json and the next ``` (or the end), unless a longer run of backticks
      ends right before a second ```json. */
  lemma JsonFencePayload(response: string)
    requires Contains(response, JsonFence)
    requires var rest := After(response, JsonFence);
             Contains(rest, JsonFence) ==> |Before(rest, Fence)| + |Fence| <= |Before(rest, JsonFence)|
    ensures JsonPayload(response) == Strip(Before(After(response, JsonFence), Fence))
  {
    SecondField(response, JsonFence);
    BeforePrefixPattern(After(response, JsonFence), Fence, JsonFence);
  }

  /** With only plain fences, the payload is the stripped text after the first
      fence up to the second one, or to the end when there is no second one. */
  lemma PlainFencePayload(response: string)
    requires !Contains(response, JsonFence) && Contains(response, Fence)
    ensures JsonPayload(response) == Strip(Before(After(response, Fence), Fence))
    ensures !Contains(After(response, Fence), Fence) ==>
              JsonPayload(response) == Strip(After(response, Fence))
  {
    SecondField(response, Fence);
    BeforeIdempotent(After(response, Fence), Fence);
  }

  /** Without fences the whole reply is decoded after stripping; with one, the
      payload never contains a fence; either way it is stripped. */
  lemma PayloadShape(response: string)
    ensures !Contains(response, Fence) ==> JsonPayload(response) == Strip(response)
    ensures Contains(response, Fence) ==> !Contains(JsonPayload(response), Fence)
    ensures Stripped(JsonPayload(response))
  {
    PayloadStripped(response);
    if !Contains(response, Fence) {
      if Contains(response, JsonFence) {
        ContainsPrefixPattern(response, Fence, JsonFence);
      }
    } else {
      var cut := if Contains(response, JsonFence) then Split(response, JsonFence)[1]
                 else Split(response, Fence)[1];
      SecondField(response, JsonFence);
      SecondField(response, Fence);
      StripKeepsAbsence(Before(cut, Fence), Fence);
    }
  }

  /** A string that contains a pattern contains each of its prefixes. */
  lemma ContainsPrefixPattern(s: string, p: string, q: string)
    requires |p| <= |q| && q[..|p|] == p && Contains(s, q)
    ensures Contains(s, p)
  {
    var k := IndexOf(s, q).value;
    assert s[k..k + |p|] == s[k..k + |q|][..|p|];
    assert OccursAt(s, p, k);
  }

  /** Stripping cannot create an occurrence of a pattern. */
  lemma StripKeepsAbsence(s: string, p: string)
    requires !Contains(s, p)
    ensures !Contains(Strip(s), p)
  {
    StripIsSlice(s);
    var i, j :| 0 <= i <= j <= |s| && Strip(s) == s[i..j];
    if Contains(s[i..j], p) {
      var k := IndexOf(s[i..j], p).value;
      SliceOccurs(s, p, i, j, k);
      assert false;
    }
  }

  /** An occurrence inside a slice of `s` is an occurrence in `s`. */
  lemma SliceOccurs(s: string, p: string, i: nat, j: nat, k: nat)
    requires i <= j <= |s| && OccursAt(s[i..j], p, k)
    ensures OccursAt(s, p, i + k)
  {
    var w := s[i..j];
    assert k + |p| <= |w| && w[k..k + |p|] == p;
    forall t | 0 <= t < |p|
      ensures s[i + k + t] == p[t]
    {
      assert w[k..k + |p|][t] == w[k + t] == s[i + k + t];
    }
    assert s[i + k..i + k + |p|] == p;
  }

  /** Every payload is already stripped. */
  lemma PayloadStripped(response: string)
    ensures Stripped(JsonPayload(response))
  {
    if Contains(response, JsonFence) {
      SecondField(response, JsonFence);
      StripIsSlice(Before(Split(response, JsonFence)[1], Fence));
    } else if Contains(response, Fence) {
      SecondField(response, Fence);
      StripIsSlice(Before(Split(response, Fence)[1], Fence));
    } else {
      StripIsSlice(response);
    }
  }

  /** `parse_json_response` never raises and always yields something the role
      agents can use: the decoded value, or a one-key dictionary holding the
      original reply, so a degraded result is always a dictionary. */
  lemma ParseFallback(decode: string -> Option<Json>, response: string)
    ensures var r := ParseJsonResponse(decode, response);
            Some(r) == decode(JsonPayload(response))
            || (decode(JsonPayload(response)).None? && r == RawResponse(response))
    ensures var r := ParseJsonResponse(decode, response);
            decode(JsonPayload(response)).None? ==>
              r.JObj? && Keys(r.fields) == ["raw_response"]
              && Get(r, "raw_response", JNull) == Ok(JStr(response))
    ensures !ParseJsonResponse(decode, response).JObj? ==> decode(JsonPayload(response)).Some?
  {
  }
}
