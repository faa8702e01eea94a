/** `POST` of src/pages/api/ai-image.ts: the binding guard, the prompt check, the model
    default and the `isImageResult` test. */
module AiImage {
  import opened Js
  import opened Text
  import opened Adapter
  import opened Http

  const NoBinding: string := "AI binding not available"
  const MissingPrompt: string := "Missing prompt"
  const NoImage: string := "No image generated"
  const DefaultImageModel: string := "@cf/black-forest-labs/flux-1-schnell"

  /** `!body || typeof body.prompt !== "string" || body.prompt.trim().length === 0` */
  predicate PromptMissing(body: JsValue)
  {
    !Truthy(body) || !Get(body, "prompt").Str? || |Trim(Get(body, "prompt").s)| == 0
  }

  /** `typeof body.model === "string" && body.model.length > 0 ? body.model : defaultModel` */
  function ImageModelName(body: JsValue): (r: string)
    ensures Get(body, "model").Str? && Get(body, "model").s != "" ==> r == Get(body, "model").s
    ensures !(Get(body, "model").Str? && Get(body, "model").s != "") ==> r == DefaultImageModel
  {
    var m := Get(body, "model");
    if m.Str? && |m.s| > 0 then m.s else DefaultImageModel
  }

  /** `isImageResult` */
  predicate IsImageResult(v: JsValue)
  {
    IsObjectWith(v, "image")
  }

  /** The specification of `POST`: `parsed` is the outcome of `request.json()`. */
  function ImagePost(ai: AiSlot, parsed: Outcome<JsValue>): Response
  {
    if ai.NoAi? then Json(ErrorBody(NoBinding), 500)
    else if parsed.Fail? then Json(ErrorBody(parsed.message), 500)
    else
    var body := parsed.value;
    if PromptMissing(body) then Json(ErrorBody(MissingPrompt), 400)
    else
    var model := ImageModelName(body);
    match RunOnce(ai, Run(model, Obj(map["prompt" := Get(body, "prompt")])))
    case Fail(e) => Json(ErrorBody(e), 500)
    case Ok(result) =>
      if !IsImageResult(result) then Json(Obj(map["error" := Str(NoImage), "result" := result]), 500)
      else Json(Obj(map["model" := Str(model), "imageBase64" := Get(result, "image"),
                        "contentType" := Str("image/png")]))
  }

  /** The guards in order: no binding is a 500 before the body is read; then a missing,
      non-string or blank prompt is a 400, and the model is not called. */
  lemma ImageGuards(ai: AiSlot, parsed: Outcome<JsValue>)
    ensures ai.NoAi? ==> ImagePost(ai, parsed) == Json(ErrorBody(NoBinding), 500)
    ensures !ai.NoAi? && parsed.Ok? && PromptMissing(parsed.value) ==>
      ImagePost(ai, parsed) == Json(ErrorBody(MissingPrompt), 400)
    ensures ImagePost(ai, parsed).status == 400 <==>
      !ai.NoAi? && parsed.Ok? && PromptMissing(parsed.value)
  {
  }

  /** With a prompt, the binding is asked for the chosen model with `{ prompt }`; a result
      with an `image` is a 200 carrying it as `imageBase64` with type `image/png`, any other
      result a 500 that carries the result, and a thrown error a 500 with its message. */
  lemma ImageOutcome(bind: Binding, body: JsValue)
    requires !PromptMissing(body)
    ensures var model := ImageModelName(body);
      var run := bind(Run(model, Obj(map["prompt" := Str(body.props["prompt"].s)])), 1);
      var r := ImagePost(AiBound(bind), Ok(body));
      && (run.Fail? ==> r == Json(ErrorBody(run.message), 500))
      && (run.Ok? && IsImageResult(run.value) ==>
            r.status == 200 && Get(r.body, "imageBase64") == run.value.props["image"]
            && Get(r.body, "model") == Str(model) && Get(r.body, "contentType") == Str("image/png"))
      && (run.Ok? && !IsImageResult(run.value) ==>
            r.status == 500 && Get(r.body, "result") == run.value)
  {
  }

  /** An `AI` entry without a callable `run` throws when called: a 500, never a 200. */
  lemma UncallableBindingIs500(parsed: Outcome<JsValue>)
    requires parsed.Ok? && !PromptMissing(parsed.value)
    ensures ImagePost(AiWithoutRun, parsed).status == 500
  {
  }
}
