/** `POST` of src/pages/api/ai-chat.ts: the Workers AI payload builder, the
    messages-over-prompt rule, typed parameter passthrough and response selection. */
module AiChat {
  import opened Js
  import opened Text
  import opened Adapter
  import opened Http

  const NoBinding: string := "AI binding not available"
  const NoInput: string := "Provide either prompt (string) or messages (array)"
  /** The TypeError of reading a property of a `null` or `undefined` body. */
  const NullBody: string := "Cannot read properties of null"

  /** The optional generation parameters the handler passes through. */
  datatype Param =
    | MaxTokens | Temperature | TopP | TopK | Seed
    | RepetitionPenalty | FrequencyPenalty | PresencePenalty
    | Raw | Stream

  function ParamName(p: Param): string
  {
    match p
    case MaxTokens => "max_tokens"
    case Temperature => "temperature"
    case TopP => "top_p"
    case TopK => "top_k"
    case Seed => "seed"
    case RepetitionPenalty => "repetition_penalty"
    case FrequencyPenalty => "frequency_penalty"
    case PresencePenalty => "presence_penalty"
    case Raw => "raw"
    case Stream => "stream"
  }

  /** `raw` and `stream` are booleans; the others are numbers. */
  predicate IsBooleanParam(p: Param)
  {
    p == Raw || p == Stream
  }

  /** The input a payload carries: the `messages` array or the `prompt` string. */
  datatype ChatInput = Messages(messages: JsValue) | Prompt(prompt: JsValue)

  /** The payload sent to the binding: one input and the copied parameters. */
  datatype Payload = Payload(input: ChatInput, params: map<Param, JsValue>)

  /** The parameter a payload field name stands for, if any. */
  function ParamOfName(s: string): Option<Param>
  {
    if s == "max_tokens" then Some(MaxTokens)
    else if s == "temperature" then Some(Temperature)
    else if s == "top_p" then Some(TopP)
    else if s == "top_k" then Some(TopK)
    else if s == "seed" then Some(Seed)
    else if s == "repetition_penalty" then Some(RepetitionPenalty)
    else if s == "frequency_penalty" then Some(FrequencyPenalty)
    else if s == "presence_penalty" then Some(PresencePenalty)
    else if s == "raw" then Some(Raw)
    else if s == "stream" then Some(Stream)
    else None
  }

  /** Distinct parameters have distinct field names. */
  lemma NameRoundTrip(p: Param)
    ensures ParamOfName(ParamName(p)) == Some(p)
  {
  }

  const ParamNames: set<string> :=
    {"max_tokens", "temperature", "top_p", "top_k", "seed", "repetition_penalty",
     "frequency_penalty", "presence_penalty", "raw", "stream"}

  /** The payload as the object the binding receives. */
  function PayloadValue(p: Payload): JsValue
  {
    Obj((map s | s in ParamNames && ParamOfName(s).Some? && ParamOfName(s).value in p.params
           :: p.params[ParamOfName(s).value]) +
        (match p.input
         case Messages(m) => map["messages" := m]
         case Prompt(t) => map["prompt" := t]))
  }

  /** `body.model && typeof body.model === "string" ? body.model : defaultModel` */
  function ChatModelName(body: JsValue): (r: string)
    ensures Get(body, "model").Str? && Get(body, "model").s != "" ==> r == Get(body, "model").s
    ensures !(Get(body, "model").Str? && Get(body, "model").s != "") ==> r == DefaultChatModel
  {
    var m := Get(body, "model");
    if Truthy(m) && m.Str? then m.s else DefaultChatModel
  }

  /** `Array.isArray(body.messages) && body.messages.length > 0` */
  predicate HasMessages(body: JsValue)
  {
    Get(body, "messages").Arr? && |Get(body, "messages").items| > 0
  }

  /** `typeof body.prompt === "string" && body.prompt.trim().length > 0` */
  predicate HasPrompt(body: JsValue)
  {
    Get(body, "prompt").Str? && |Trim(Get(body, "prompt").s)| > 0
  }

  /** `typeof body[name] === "number"` (or `"boolean"` for `raw` and `stream`). */
  predicate Passes(body: JsValue, p: Param)
  {
    if IsBooleanParam(p) then Get(body, ParamName(p)).Bool? else Get(body, ParamName(p)).Num?
  }

  /** Each optional parameter that has its expected type, with the body's value. */
  function PassedParams(body: JsValue): map<Param, JsValue>
  {
    map p: Param | Passes(body, p) :: Get(body, ParamName(p))
  }

  /** The payload the handler sends, or `None` when the body has neither input. */
  function PayloadSpec(body: JsValue): Option<Payload>
  {
    var params := PassedParams(body);
    if HasMessages(body) then Some(Payload(Messages(Get(body, "messages")), params))
    else if HasPrompt(body) then Some(Payload(Prompt(Get(body, "prompt")), params))
    else None
  }

  /** The payload rules: a non-empty `messages` array wins over `prompt`; a blank prompt
      counts as missing; each optional parameter is copied, unchanged, exactly when it has
      the expected type. */
  lemma PayloadRules(body: JsValue)
    ensures PayloadSpec(body).None? <==> !HasMessages(body) && !HasPrompt(body)
    ensures var p := PayloadSpec(body); p.Some? ==>
      && (p.value.input.Messages? <==> HasMessages(body))
      && (p.value.input.Messages? ==> p.value.input.messages == body.props["messages"])
      && (p.value.input.Prompt? ==> p.value.input.prompt == body.props["prompt"] && HasPrompt(body))
      && (forall k: Param ::
            (k in p.value.params <==> Passes(body, k))
            && (k in p.value.params ==> p.value.params[k] == body.props[ParamName(k)]))
  {
  }

  /** The payload never holds both inputs, and carries only known parameters. */
  lemma PayloadShape(p: Payload)
    ensures var v := PayloadValue(p).props;
      && !("messages" in v && "prompt" in v)
      && (forall k :: k in p.params ==> ParamName(k) in v && v[ParamName(k)] == p.params[k])
  {
    forall k | k in p.params
      ensures ParamName(k) in PayloadValue(p).props && PayloadValue(p).props[ParamName(k)] == p.params[k]
    {
      NameRoundTrip(k);
    }
  }

  /** The position of each parameter in the handler's sequence of copies. */
  function Order(p: Param): nat
  {
    match p
    case MaxTokens => 0
    case Temperature => 1
    case TopP => 2
    case TopK => 3
    case Seed => 4
    case RepetitionPenalty => 5
    case FrequencyPenalty => 6
    case PresencePenalty => 7
    case Raw => 8
    case Stream => 9
  }

  /** The parameters before position `k` have been copied exactly when well typed. */
  ghost predicate CopiedBelow(params: map<Param, JsValue>, body: JsValue, k: nat)
  {
    forall p :: (p in params <==> Order(p) < k && Passes(body, p))
      && (p in params ==> params[p] == Get(body, ParamName(p)))
  }

  /** `if (typeof body[name] === <type>) payload[name] = body[name]` for the parameter at
      position `k`: the copies so far are extended by this one. */
  method PassThrough(params: map<Param, JsValue>, body: JsValue, p: Param, ghost k: nat)
    returns (r: map<Param, JsValue>)
    requires Order(p) == k && CopiedBelow(params, body, k)
    ensures CopiedBelow(r, body, k + 1)
  {
    if Passes(body, p) {
      r := params[p := Get(body, ParamName(p))];
    } else {
      r := params;
    }
  }

  /** Once all ten copy statements have run, the copies are exactly the well-typed parameters. */
  lemma AllCopied(params: map<Param, JsValue>, body: JsValue)
    requires CopiedBelow(params, body, 10)
    ensures params == PassedParams(body)
  {
  }

  /** The copy statements for the sampling parameters. */
  method PassSampling(body: JsValue) returns (params: map<Param, JsValue>)
    ensures CopiedBelow(params, body, 5)
  {
    params := map[];
    params := PassThrough(params, body, MaxTokens, 0);
    params := PassThrough(params, body, Temperature, 1);
    params := PassThrough(params, body, TopP, 2);
    params := PassThrough(params, body, TopK, 3);
    params := PassThrough(params, body, Seed, 4);
  }

  /** The copy statements for the three penalties. */
  method PassPenalties(before: map<Param, JsValue>, body: JsValue) returns (params: map<Param, JsValue>)
    requires CopiedBelow(before, body, 5)
    ensures CopiedBelow(params, body, 8)
  {
    params := PassThrough(before, body, RepetitionPenalty, 5);
    params := PassThrough(params, body, FrequencyPenalty, 6);
    params := PassThrough(params, body, PresencePenalty, 7);
  }

  /** The copy statements for the two boolean flags. */
  method PassFlags(before: map<Param, JsValue>, body: JsValue) returns (params: map<Param, JsValue>)
    requires CopiedBelow(before, body, 8)
    ensures CopiedBelow(params, body, 10)
  {
    params := PassThrough(before, body, Raw, 8);
    params := PassThrough(params, body, Stream, 9);
  }

  /** The optional parameter passthrough: all ten copy statements in order. */
  method PassThroughAll(body: JsValue) returns (params: map<Param, JsValue>)
    ensures params == PassedParams(body)
  {
    params := PassSampling(body);
    params := PassPenalties(params, body);
    params := PassFlags(params, body);
    AllCopied(params, body);
  }

  /** Builds the payload by conditional, in-place field assignments. */
  method BuildPayload(body: JsValue) returns (payload: Option<Payload>)
    ensures payload == PayloadSpec(body)
  {
    var input: ChatInput;
    if HasMessages(body) {
      input := Messages(Get(body, "messages"));
    } else if HasPrompt(body) {
      input := Prompt(Get(body, "prompt"));
    } else {
      return None;
    }
    var params := PassThroughAll(body);
    payload := Some(Payload(input, params));
  }

  /** `isTextResult` */
  predicate IsTextResult(v: JsValue)
  {
    IsObjectWith(v, "response")
  }

  /** The specification of `POST`: `parsed` is the outcome of `request.json()`. */
  function ChatPost(ai: AiSlot, parsed: Outcome<JsValue>): Response
  {
    if ai.NoAi? then Json(ErrorBody(NoBinding), 500)
    else if parsed.Fail? then Json(ErrorBody(parsed.message), 500)
    else
    var body := parsed.value;
    if Nullish(body) then Json(ErrorBody(NullBody), 500)
    else
    var model := ChatModelName(body);
    match PayloadSpec(body)
    case None => Json(ErrorBody(NoInput), 400)
    case Some(payload) =>
      match RunOnce(ai, Run(model, PayloadValue(payload)))
      case Fail(m) => Json(ErrorBody(m), 500)
      case Ok(result) =>
        if IsTextResult(result)
        then Json(Obj(map["model" := Str(model), "response" := Get(result, "response")]))
        else Json(Obj(map["model" := Str(model), "result" := result]))
  }

  method PostChat(ai: AiSlot, parsed: Outcome<JsValue>) returns (resp: Response)
    ensures resp == ChatPost(ai, parsed)
  {
    if ai.NoAi? {
      return Json(ErrorBody(NoBinding), 500);
    }
    if parsed.Fail? {
      return Json(ErrorBody(parsed.message), 500);
    }
    var body := parsed.value;
    if Nullish(body) {
      return Json(ErrorBody(NullBody), 500);
    }
    var model := ChatModelName(body);
    var payload := BuildPayload(body);
    if payload.None? {
      return Json(ErrorBody(NoInput), 400);
    }
    var outcome := RunOnce(ai, Run(model, PayloadValue(payload.value)));
    if outcome.Fail? {
      return Json(ErrorBody(outcome.message), 500);
    }
    if IsTextResult(outcome.value) {
      resp := Json(Obj(map["model" := Str(model), "response" := Get(outcome.value, "response")]));
    } else {
      resp := Json(Obj(map["model" := Str(model), "result" := outcome.value]));
    }
  }

  /** Without an `AI` binding the answer is 500, whatever the request holds. */
  lemma NoBindingIs500(ai: AiSlot, parsed: Outcome<JsValue>)
    requires ai.NoAi?
    ensures ChatPost(ai, parsed) == Json(ErrorBody(NoBinding), 500)
  {
  }

  /** A body with neither a non-empty `messages` array nor a non-blank `prompt` is a 400,
      and the model is not called. */
  lemma MissingInputIs400(ai: AiSlot, body: JsValue)
    requires !ai.NoAi? && !Nullish(body)
    requires !HasMessages(body) && !HasPrompt(body)
    ensures ChatPost(ai, Ok(body)) == Json(ErrorBody(NoInput), 400)
  {
    PayloadRules(body);
  }

  /** With usable input the model gets one call; a failure is a 500 carrying its message,
      and a result is a 200 naming the model, with the `response` field when the result has
      one and the whole result otherwise. */
  lemma ResponseSelection(ai: AiSlot, body: JsValue)
    requires ai.AiBound? && !Nullish(body)
    requires HasMessages(body) || HasPrompt(body)
    ensures var model := ChatModelName(body);
      var run := ai.run(Run(model, PayloadValue(PayloadSpec(body).value)), 1);
      var r := ChatPost(ai, Ok(body));
      && (run.Fail? ==> r == Json(ErrorBody(run.message), 500))
      && (run.Ok? && IsTextResult(run.value) ==>
            r == Json(Obj(map["model" := Str(model), "response" := run.value.props["response"]])))
      && (run.Ok? && !IsTextResult(run.value) ==>
            r == Json(Obj(map["model" := Str(model), "result" := run.value])))
  {
    PayloadRules(body);
  }

  /** Every answer is a 200, a 400 or a 500, and only missing input gives 400. */
  lemma ChatStatuses(ai: AiSlot, parsed: Outcome<JsValue>)
    ensures ChatPost(ai, parsed).status in {200, 400, 500}
    ensures ChatPost(ai, parsed).status == 400 <==>
      !ai.NoAi? && parsed.Ok? && !Nullish(parsed.value)
      && !HasMessages(parsed.value) && !HasPrompt(parsed.value)
  {
    if parsed.Ok? {
      PayloadRules(parsed.value);
    }
  }
}
