/** The inference adapter of src/lib/langchain/creativeAgent.ts: `WorkersBindingChatModel`
    (`formatMessages`, `_call`) and the response-shape tests `isChatResponse` and
    `isImageResponse`. */
module Adapter {
  import opened Js

  /** The model `WorkersBindingChatModel` uses when none is given. */
  const DefaultChatModel: string := "@cf/meta/llama-3.1-8b-instruct"
  const NoTextContent: string := "Cloudflare Workers AI binding did not return text content"

  /** A LangChain message: its `type` ("system", "human", "ai", ...) and its text. */
  datatype BaseMessage = BaseMessage(msgType: string, content: string)

  datatype Role = System | User | Assistant

  /** A message in the shape the binding expects: `{ role, content }`. */
  datatype ChatMessage = ChatMessage(role: Role, content: string)

  /** One call `binding.run(model, payload)`. */
  datatype RunRequest = Run(model: string, payload: JsValue)

  /** The hosted binding as an oracle: the outcome of a request at its n-th attempt. */
  type Binding = (RunRequest, nat) -> Outcome<JsValue>

  /** The `AI` entry of the runtime environment: missing, present without a callable
      `run`, or a usable binding. */
  datatype AiSlot = NoAi | AiWithoutRun | AiBound(run: Binding)

  /** `AI.run(model, payload)` called once: an entry without a callable `run` throws. */
  function RunOnce(ai: AiSlot, request: RunRequest): (r: Outcome<JsValue>)
    requires ai != NoAi
    ensures ai.AiBound? ==> r == ai.run(request, 1)
    ensures ai.AiWithoutRun? ==> r.Fail?
  {
    if ai.AiBound? then ai.run(request, 1) else Fail("AI.run is not a function")
  }

  /** The role chosen for a message type. */
  function RoleOf(msgType: string): (r: Role)
    ensures r == System <==> msgType == "system"
    ensures r == User <==> msgType == "human"
  {
    if msgType == "system" then System
    else if msgType == "human" then User
    else Assistant
  }

  function RoleName(r: Role): string
  {
    match r
    case System => "system"
    case User => "user"
    case Assistant => "assistant"
  }

  /** `formatMessages`: one message per input message, same order, same text,
      with the role chosen from the message type. */
  function FormatMessages(messages: seq<BaseMessage>): (r: seq<ChatMessage>)
    ensures |r| == |messages|
    ensures forall i :: 0 <= i < |r| ==>
      r[i].content == messages[i].content && r[i].role == RoleOf(messages[i].msgType)
  {
    seq(|messages|, i requires 0 <= i < |messages| =>
      ChatMessage(RoleOf(messages[i].msgType), messages[i].content))
  }

  /** The `{ messages: [...] }` payload sent for a chat call. */
  function ChatPayload(messages: seq<ChatMessage>): JsValue
  {
    Obj(map["messages" := Arr(seq(|messages|, i requires 0 <= i < |messages| =>
      Obj(map["role" := Str(RoleName(messages[i].role)), "content" := Str(messages[i].content)])))])
  }

  /** The request `_call` sends for a list of messages. */
  function ChatRequest(model: string, messages: seq<BaseMessage>): RunRequest
  {
    Run(model, ChatPayload(FormatMessages(messages)))
  }

  /** `isChatResponse` */
  predicate IsChatResponse(v: JsValue)
  {
    IsObjectWith(v, "response")
  }

  /** `isImageResponse` */
  predicate IsImageResponse(v: JsValue)
  {
    IsObjectWith(v, "image")
  }

  /** `model ?? "@cf/meta/llama-3.1-8b-instruct"` in the constructor. */
  function ModelName(model: Option<string>): (r: string)
    ensures model.Some? ==> r == model.value
    ensures model.None? ==> r == DefaultChatModel
  {
    if model.Some? then model.value else DefaultChatModel
  }

  /** One `_call`: a binding failure is rethrown unchanged; a result without a
      `response` field is an error; otherwise the `response` field, as a string. */
  function ChatModelCall(binding: Binding, model: string, messages: seq<BaseMessage>, attempt: nat): (r: Outcome<string>)
    ensures var raw := binding(ChatRequest(model, messages), attempt);
      && (r.Ok? <==> raw.Ok? && IsChatResponse(raw.value))
      && (r.Ok? ==> r.value == ToJsString(raw.value.props["response"]))
      && (raw.Fail? ==> r == Fail(raw.message))
      && (raw.Ok? && !IsChatResponse(raw.value) ==> r == Fail(NoTextContent))
  {
    match binding(ChatRequest(model, messages), attempt)
    case Fail(e) => Fail(e)
    case Ok(v) =>
      if IsChatResponse(v) then Ok(ToJsString(Get(v, "response"))) else Fail(NoTextContent)
  }
}
