/** `runCreativeAgent` of src/lib/langchain/creativeAgent.ts: default resolution, the
    four prompt templates, and the five-stage pipeline plan -> story -> synopsis ->
    image prompt -> (optional) image, each stage under the retry policy. */
module Agent {
  import opened Js
  import opened Text
  import opened Adapter
  import opened RetryPolicy

  /** The text-to-image model of the last stage. */
  const ImageModel: string := "@cf/black-forest-labs/flux-1-schnell"

  const DefaultTone: string := "uplifting"
  const DefaultStyle: string := "modern cinematic"
  const DefaultArtStyle: string := "ultra-detailed digital concept art"
  const DefaultLighting: string := "volumetric rim lighting with cinematic contrast"
  const DefaultColorPalette: string := "rich complementary palette with luminous accents"
  const DefaultLens: string := "35mm anamorphic lens, wide yet intimate framing"
  const DefaultRendering: string := "hybrid octane render with subtle particle FX"
  const DefaultDetailLevel: string := "8k hyper-real microdetail"

  const PlannerSystem: string :=
    "You are a meticulous narrative planner for high-end concept art teams. Produce exactly three concise story beats that cover world-building, central conflict, and climactic resolution. Each beat must highlight vivid sensory cues and potential visual motifs suitable for cinematic illustration."
  const StorySystem: string :=
    "You are a vivid storyteller crafting treatments for award-winning animation studios. Expand the supplied beats into a 280-320 word narrative that balances pacing, emotional stakes, and striking imagery. The prose should surface concrete visual anchors that production designers could translate into key frames, all while respecting the requested tone and style."
  const SynopsisSystem: string :=
    "Summarize the story below in two sentences. The first line should anchor the protagonist, stakes, and emotional arc. The second line should emphasize the atmosphere and visual mood."
  const ImagePromptSystem: string :=
    "You are an elite concept artist and prompt engineer producing inputs for diffusion and transformer-based render models. Deliver a single, polished prompt (55-75 words) that feels bespoke, cinematic, and production-ready. Follow this structure with richly descriptive language:\n\nPrimary description: [2-3 clauses capturing subject, setting, and motion]\nCamera & lens: [reference lens or perspective that matches the brief]\nLighting: [dramatic lighting cues]\nColor & mood: [palette and emotional tone]\nDetail & rendering: [materials, texture fidelity, rendering pipeline, quality tags]\n\nAvoid mentioning 'text', 'logo', or camera metadata shorthand."

  /** An optional text field: omitted, `null`, or a string. */
  datatype OptText = Absent | NullText | Given(text: string)

  datatype CreativeAgentInput = CreativeAgentInput(
    instruction: string,
    tone: OptText,
    style: OptText,
    generateImage: Option<bool>,
    imageArtStyle: OptText,
    imageLighting: OptText,
    imageColorPalette: OptText,
    imageLens: OptText,
    imageRendering: OptText,
    detailLevel: OptText)

  datatype ImageSettings = ImageSettings(
    artStyle: string, lighting: string, colorPalette: string,
    lens: string, rendering: string, detailLevel: string)

  /** Everything the pipeline resolves before its first call. */
  datatype Settings = Settings(tone: string, style: string, image: ImageSettings)

  datatype CreativeAgentOutput = CreativeAgentOutput(
    storyPlan: string,
    story: string,
    synopsis: string,
    imagePrompt: string,
    /** `null`, or whatever the image model put in its `image` field. */
    imageBase64: JsValue,
    imageSettings: ImageSettings)

  datatype Stage = PlanStage | StoryStage | SynopsisStage | ImagePromptStage | ImageStage

  /** One call to the binding: the stage that made it, the request, and its attempt number
      within that stage's retry loop. */
  datatype Call = Call(stage: Stage, request: RunRequest, attempt: nat)

  /** A run of the pipeline: the output or the error it rethrows, and every binding call made. */
  datatype AgentRun = AgentRun(result: Outcome<CreativeAgentOutput>, calls: seq<Call>)

  /** `field?.trim().length ? field.trim() : fallback` */
  function Resolve(field: OptText, fallback: string): (r: string)
    ensures field.Given? && !IsBlank(field.text) ==> r == Trim(field.text)
    ensures !(field.Given? && !IsBlank(field.text)) ==> r == fallback
  {
    TrimEmptyIffBlank(if field.Given? then field.text else "");
    if field.Given? && |Trim(field.text)| > 0 then Trim(field.text) else fallback
  }

  /** A resolved value is never blank and never padded. */
  lemma ResolvedIsTrimmedNonBlank(field: OptText, fallback: string)
    requires IsTrimmed(fallback) && fallback != []
    ensures Resolve(field, fallback) != [] && IsTrimmed(Resolve(field, fallback))
  {
    if field.Given? && !IsBlank(field.text) {
      TrimEmptyIffBlank(field.text);
      TrimResultIsTrimmed(field.text);
    }
  }

  /** Resolving a resolved value again changes nothing. */
  lemma ResolveIdempotent(field: OptText, fallback: string)
    requires IsTrimmed(fallback) && fallback != []
    ensures Resolve(Given(Resolve(field, fallback)), fallback) == Resolve(field, fallback)
  {
    var r := Resolve(field, fallback);
    ResolvedIsTrimmedNonBlank(field, fallback);
    TrimOfTrimmed(r);
    TrimEmptyIffBlank(r);
  }

  /** Omitted, `null` and all-whitespace fields all resolve to the default. */
  lemma MissingFieldsResolveToDefault(blank: string, fallback: string)
    requires IsBlank(blank)
    ensures Resolve(Absent, fallback) == fallback
    ensures Resolve(NullText, fallback) == fallback
    ensures Resolve(Given(blank), fallback) == fallback
  {
  }

  function ResolveSettings(input: CreativeAgentInput): Settings
  {
    Settings(
      Resolve(input.tone, DefaultTone),
      Resolve(input.style, DefaultStyle),
      ImageSettings(
        Resolve(input.imageArtStyle, DefaultArtStyle),
        Resolve(input.imageLighting, DefaultLighting),
        Resolve(input.imageColorPalette, DefaultColorPalette),
        Resolve(input.imageLens, DefaultLens),
        Resolve(input.imageRendering, DefaultRendering),
        Resolve(input.detailLevel, DefaultDetailLevel)))
  }


  /** The human turn of the planner prompt. */
  function PlanHuman(instruction: string, tone: string): string
  {
    "Instruction: " + instruction + "\nPreferred tone: " + tone
  }

  function StoryHuman(instruction: string, style: string, plan: string): string
  {
    "Story beats:\n" + plan + "\n\nDesired style: " + style + "\nInstruction recap: " + instruction
  }

  function SynopsisHuman(story: string): string
  {
    "Story:\n" + story
  }

  /** The image-prompt template receives the full story, not the synopsis. */
  function ImagePromptHuman(story: string, s: Settings): string
  {
    Concat(["Story summary:\n", story,
      "\n\nTone to capture: ", s.tone,
      "\nNarrative style: ", s.style,
      "\nVisual aesthetic: ", s.image.artStyle,
      "\nLighting focus: ", s.image.lighting,
      "\nColor palette: ", s.image.colorPalette,
      "\nLens choice: ", s.image.lens,
      "\nRendering medium: ", s.image.rendering,
      "\nDesired detail level: ", s.image.detailLevel])
  }

  function PlanMessages(instruction: string, tone: string): seq<BaseMessage>
  {
    [BaseMessage("system", PlannerSystem), BaseMessage("human", PlanHuman(instruction, tone))]
  }

  function StoryMessages(instruction: string, style: string, plan: string): seq<BaseMessage>
  {
    [BaseMessage("system", StorySystem), BaseMessage("human", StoryHuman(instruction, style, plan))]
  }

  function SynopsisMessages(story: string): seq<BaseMessage>
  {
    [BaseMessage("system", SynopsisSystem), BaseMessage("human", SynopsisHuman(story))]
  }

  function ImagePromptMessages(story: string, s: Settings): seq<BaseMessage>
  {
    [BaseMessage("system", ImagePromptSystem), BaseMessage("human", ImagePromptHuman(story, s))]
  }

  function ImageRequest(prompt: string): RunRequest
  {
    Run(ImageModel, Obj(map["prompt" := Str(prompt)]))
  }

  /** The work a text stage hands to the retry policy: one chat call per attempt. */
  function ChatWork(binding: Binding, messages: seq<BaseMessage>): nat -> Outcome<string>
  {
    (a: nat) => ChatModelCall(binding, DefaultChatModel, messages, a)
  }

  function ImageWork(binding: Binding, prompt: string): nat -> Outcome<JsValue>
  {
    (a: nat) => binding(ImageRequest(prompt), a)
  }

  /** The calls of one stage's retry loop: the same request, attempts 1..n. */
  function StageCalls(stage: Stage, request: RunRequest, n: nat): (r: seq<Call>)
    ensures |r| == n
    ensures forall i :: 0 <= i < n ==> r[i] == Call(stage, request, i + 1)
  {
    seq(n, i requires 0 <= i < n => Call(stage, request, i + 1))
  }

  /** What one stage did: its settled outcome and the binding calls it made. */
  datatype StageRun<T> = StageRun(result: Outcome<T>, calls: seq<Call>)

  /** One text stage under the retry policy: between one and three calls of the same
      request, and the stage's outcome is the outcome of its last call. */
  function TextStage(binding: Binding, stage: Stage, messages: seq<BaseMessage>): (r: StageRun<string>)
    ensures 1 <= |r.calls| <= MaxAttempts
    ensures forall i :: 0 <= i < |r.calls| ==>
      r.calls[i] == Call(stage, ChatRequest(DefaultChatModel, messages), i + 1)
    ensures r.result == ChatModelCall(binding, DefaultChatModel, messages, |r.calls|)
  {
    var t := Retry(ChatWork(binding, messages));
    RetryShape(ChatWork(binding, messages));
    StageRun(t.result, StageCalls(stage, ChatRequest(DefaultChatModel, messages), t.attempts))
  }

  /** The image stage under the retry policy; its outcome is the outcome of its last call. */
  function ImageStageRun(binding: Binding, prompt: string): (r: StageRun<JsValue>)
    ensures 1 <= |r.calls| <= MaxAttempts
    ensures forall i :: 0 <= i < |r.calls| ==> r.calls[i] == Call(ImageStage, ImageRequest(prompt), i + 1)
    ensures r.result == binding(ImageRequest(prompt), |r.calls|)
  {
    var t := Retry(ImageWork(binding, prompt));
    RetryShape(ImageWork(binding, prompt));
    StageRun(t.result, StageCalls(ImageStage, ImageRequest(prompt), t.attempts))
  }

  /** The `image` field when the model returned one, `null` otherwise. */
  function ImageField(v: JsValue): (r: JsValue)
    ensures IsImageResponse(v) ==> r == v.props["image"]
    ensures !IsImageResponse(v) ==> r == Null
  {
    if IsImageResponse(v) then Get(v, "image") else Null
  }

  /** A run that first made the calls `c`. */
  function Prepend(c: seq<Call>, run: AgentRun): AgentRun
  {
    AgentRun(run.result, c + run.calls)
  }

  /** The specification of `runCreativeAgent(input, binding)`, stage by stage. */
  function RunSpec(input: CreativeAgentInput, binding: Binding): AgentRun
  {
    var s := ResolveSettings(input);
    var p := TextStage(binding, PlanStage, PlanMessages(input.instruction, s.tone));
    if p.result.Fail? then AgentRun(Fail(p.result.message), p.calls)
    else Prepend(p.calls, FromStory(input, binding, s, p.result.value))
  }

  function FromStory(input: CreativeAgentInput, binding: Binding, s: Settings, plan: string): AgentRun
  {
    var st := TextStage(binding, StoryStage, StoryMessages(input.instruction, s.style, plan));
    if st.result.Fail? then AgentRun(Fail(st.result.message), st.calls)
    else Prepend(st.calls, FromSynopsis(input, binding, s, plan, st.result.value))
  }

  function FromSynopsis(input: CreativeAgentInput, binding: Binding, s: Settings, plan: string, story: string): AgentRun
  {
    var sy := TextStage(binding, SynopsisStage, SynopsisMessages(story));
    if sy.result.Fail? then AgentRun(Fail(sy.result.message), sy.calls)
    else Prepend(sy.calls, FromImagePrompt(input, binding, s, plan, story, sy.result.value))
  }

  function FromImagePrompt(input: CreativeAgentInput, binding: Binding, s: Settings,
                           plan: string, story: string, synopsis: string): AgentRun
  {
    var ip := TextStage(binding, ImagePromptStage, ImagePromptMessages(story, s));
    if ip.result.Fail? then AgentRun(Fail(ip.result.message), ip.calls) else
    var texts := CreativeAgentOutput(plan, story, synopsis, ip.result.value, Null, s.image);
    if input.generateImage != Some(true) then AgentRun(Ok(texts), ip.calls) else
    var im := ImageStageRun(binding, ip.result.value);
    if im.result.Fail? then AgentRun(Fail(im.result.message), ip.calls + im.calls)
    else AgentRun(Ok(texts.(imageBase64 := ImageField(im.result.value))), ip.calls + im.calls)
  }

  /** `runCreativeAgent`: the stages run strictly one after another, each stage's text
      feeding the next; the first stage error is rethrown and no later stage runs. */
  method RunCreativeAgent(input: CreativeAgentInput, binding: Binding)
    returns (result: Outcome<CreativeAgentOutput>, calls: seq<Call>)
    ensures AgentRun(result, calls) == RunSpec(input, binding)
  {
    var s := ResolveSettings(input);

    var planMsgs := PlanMessages(input.instruction, s.tone);
    var plan, n1, _ := RetryWithBackoff(ChatWork(binding, planMsgs));
    calls := StageCalls(PlanStage, ChatRequest(DefaultChatModel, planMsgs), n1);
    if plan.Fail? {
      return Fail(plan.message), calls;
    }
    var storyPlan := plan.value;

    var storyMsgs := StoryMessages(input.instruction, s.style, storyPlan);
    var st, n2, _ := RetryWithBackoff(ChatWork(binding, storyMsgs));
    var c2 := StageCalls(StoryStage, ChatRequest(DefaultChatModel, storyMsgs), n2);
    if st.Fail? {
      return Fail(st.message), calls + c2;
    }
    var story := st.value;

    var synMsgs := SynopsisMessages(story);
    var sy, n3, _ := RetryWithBackoff(ChatWork(binding, synMsgs));
    var c3 := StageCalls(SynopsisStage, ChatRequest(DefaultChatModel, synMsgs), n3);
    if sy.Fail? {
      return Fail(sy.message), calls + (c2 + c3);
    }
    var synopsis := sy.value;

    var ipMsgs := ImagePromptMessages(story, s);
    var ip, n4, _ := RetryWithBackoff(ChatWork(binding, ipMsgs));
    var c4 := StageCalls(ImagePromptStage, ChatRequest(DefaultChatModel, ipMsgs), n4);
    if ip.Fail? {
      return Fail(ip.message), calls + (c2 + (c3 + c4));
    }
    var imagePrompt := ip.value;

    var imageBase64 := Null;
    if input.generateImage == Some(true) {
      var im, n5, _ := RetryWithBackoff(ImageWork(binding, imagePrompt));
      c4 := c4 + StageCalls(ImageStage, ImageRequest(imagePrompt), n5);
      if im.Fail? {
        return Fail(im.message), calls + (c2 + (c3 + c4));
      }
      if IsImageResponse(im.value) {
        imageBase64 := Get(im.value, "image");
      }
    }
    calls := calls + (c2 + (c3 + c4));
    result := Ok(CreativeAgentOutput(storyPlan, story, synopsis, imagePrompt, imageBase64, s.image));
  }

  /** The order of the stages. */
  function Rank(stage: Stage): nat
  {
    match stage
    case PlanStage => 0
    case StoryStage => 1
    case SynopsisStage => 2
    case ImagePromptStage => 3
    case ImageStage => 4
  }

  /** Calls come in stage order: no call of a stage follows a call of a later stage. */
  predicate InStageOrder(calls: seq<Call>)
  {
    forall i, j :: 0 <= i < j < |calls| ==> Rank(calls[i].stage) <= Rank(calls[j].stage)
  }

  /** Every call of `stage` sends `request`. */
  predicate StageSends(calls: seq<Call>, stage: Stage, request: RunRequest)
  {
    forall i :: 0 <= i < |calls| && calls[i].stage == stage ==> calls[i].request == request
  }

  predicate CallsStage(calls: seq<Call>, stage: Stage)
  {
    exists i :: 0 <= i < |calls| && calls[i].stage == stage
  }

  /** Every call belongs to `stage` or a later one. */
  predicate FromRank(calls: seq<Call>, rank: nat)
  {
    forall i :: 0 <= i < |calls| ==> Rank(calls[i].stage) >= rank
  }

  /** What a successful run, or its tail from the stage of rank `k` on, promises: the
      reported image settings are the resolved ones; every call is of rank `k` or later
      and the calls go in stage order; the plan request carries the instruction and the
      resolved tone, the story request the plan, the synopsis and image-prompt requests
      the story, and the image request the image prompt; each text stage's outcome is the
      text reported for it; the image model is called exactly when `generateImage` is
      true, and the image field is `null` without it. */
  predicate ChainedFrom(input: CreativeAgentInput, binding: Binding, s: Settings, run: AgentRun, k: nat)
    requires run.result.Ok?
  {
    var o := run.result.value;
    && o.imageSettings == s.image
    && FromRank(run.calls, k)
    && InStageOrder(run.calls)
    && StageSends(run.calls, PlanStage, ChatRequest(DefaultChatModel, PlanMessages(input.instruction, s.tone)))
    && StageSends(run.calls, StoryStage, ChatRequest(DefaultChatModel, StoryMessages(input.instruction, s.style, o.storyPlan)))
    && StageSends(run.calls, SynopsisStage, ChatRequest(DefaultChatModel, SynopsisMessages(o.story)))
    && StageSends(run.calls, ImagePromptStage, ChatRequest(DefaultChatModel, ImagePromptMessages(o.story, s)))
    && StageSends(run.calls, ImageStage, ImageRequest(o.imagePrompt))
    && (k <= 0 ==> TextStage(binding, PlanStage, PlanMessages(input.instruction, s.tone)).result == Ok(o.storyPlan))
    && (k <= 1 ==> TextStage(binding, StoryStage, StoryMessages(input.instruction, s.style, o.storyPlan)).result == Ok(o.story))
    && (k <= 2 ==> TextStage(binding, SynopsisStage, SynopsisMessages(o.story)).result == Ok(o.synopsis))
    && (k <= 3 ==> TextStage(binding, ImagePromptStage, ImagePromptMessages(o.story, s)).result == Ok(o.imagePrompt))
    && (CallsStage(run.calls, ImageStage) <==> input.generateImage == Some(true))
    && (input.generateImage != Some(true) ==> o.imageBase64 == Null)
  }

  /** Putting one stage's calls before a tail made of later stages keeps the order, makes
      that stage send its one request, and leaves what the tail sends unchanged. */
  lemma PrependStage(c: seq<Call>, stage: Stage, request: RunRequest, rest: seq<Call>)
    requires forall i :: 0 <= i < |c| ==> c[i].stage == stage && c[i].request == request
    requires FromRank(rest, Rank(stage) + 1) && InStageOrder(rest)
    ensures InStageOrder(c + rest) && FromRank(c + rest, Rank(stage))
    ensures StageSends(c + rest, stage, request)
    ensures forall other, req :: other != stage && StageSends(rest, other, req) ==> StageSends(c + rest, other, req)
    ensures forall other :: other != stage ==> (CallsStage(c + rest, other) <==> CallsStage(rest, other))
  {
    var all := c + rest;
    forall other, req | other != stage && StageSends(rest, other, req) ensures StageSends(all, other, req) {
      forall i | 0 <= i < |all| && all[i].stage == other ensures all[i].request == req {
        assert all[i] == rest[i - |c|];
      }
    }
    forall other | other != stage ensures CallsStage(all, other) <==> CallsStage(rest, other) {
      if CallsStage(all, other) {
        var i :| 0 <= i < |all| && all[i].stage == other;
        assert rest[i - |c|].stage == other;
      }
      if CallsStage(rest, other) {
        var i :| 0 <= i < |rest| && rest[i].stage == other;
        assert all[i + |c|].stage == other;
      }
    }
  }

  /** Calls all of rank `k` or later say nothing about the stages before `k`. */
  lemma BelowRankVacuous(calls: seq<Call>, k: nat)
    requires FromRank(calls, k)
    ensures forall stage, req :: Rank(stage) < k ==> StageSends(calls, stage, req)
  {
  }

  lemma FromImagePromptChained(input: CreativeAgentInput, binding: Binding, s: Settings,
                               plan: string, story: string, synopsis: string)
    requires FromImagePrompt(input, binding, s, plan, story, synopsis).result.Ok?
    ensures var run := FromImagePrompt(input, binding, s, plan, story, synopsis);
      && run.result.value.storyPlan == plan && run.result.value.story == story
      && run.result.value.synopsis == synopsis
      && ChainedFrom(input, binding, s, run, Rank(ImagePromptStage))
  {
    var ip := TextStage(binding, ImagePromptStage, ImagePromptMessages(story, s));
    var run := FromImagePrompt(input, binding, s, plan, story, synopsis);
    if input.generateImage == Some(true) {
      var im := ImageStageRun(binding, ip.result.value);
      PrependStage(ip.calls, ImagePromptStage, ChatRequest(DefaultChatModel, ImagePromptMessages(story, s)), im.calls);
      assert im.calls[0].stage == ImageStage;
      assert (ip.calls + im.calls)[|ip.calls|].stage == ImageStage;
    } else {
      assert !CallsStage(ip.calls, ImageStage);
    }
    BelowRankVacuous(run.calls, Rank(ImagePromptStage));
  }

  lemma FromSynopsisChained(input: CreativeAgentInput, binding: Binding, s: Settings, plan: string, story: string)
    requires FromSynopsis(input, binding, s, plan, story).result.Ok?
    ensures var run := FromSynopsis(input, binding, s, plan, story);
      && run.result.value.storyPlan == plan && run.result.value.story == story
      && ChainedFrom(input, binding, s, run, Rank(SynopsisStage))
  {
    var sy := TextStage(binding, SynopsisStage, SynopsisMessages(story));
    var tail := FromImagePrompt(input, binding, s, plan, story, sy.result.value);
    FromImagePromptChained(input, binding, s, plan, story, sy.result.value);
    PrependStage(sy.calls, SynopsisStage, ChatRequest(DefaultChatModel, SynopsisMessages(story)), tail.calls);
    BelowRankVacuous(sy.calls + tail.calls, Rank(SynopsisStage));
  }

  lemma FromStoryChained(input: CreativeAgentInput, binding: Binding, s: Settings, plan: string)
    requires FromStory(input, binding, s, plan).result.Ok?
    ensures var run := FromStory(input, binding, s, plan);
      && run.result.value.storyPlan == plan
      && ChainedFrom(input, binding, s, run, Rank(StoryStage))
  {
    var st := TextStage(binding, StoryStage, StoryMessages(input.instruction, s.style, plan));
    var tail := FromSynopsis(input, binding, s, plan, st.result.value);
    FromSynopsisChained(input, binding, s, plan, st.result.value);
    PrependStage(st.calls, StoryStage, ChatRequest(DefaultChatModel, StoryMessages(input.instruction, s.style, plan)), tail.calls);
    BelowRankVacuous(st.calls + tail.calls, Rank(StoryStage));
  }

  /** A successful run fed each stage what the previous stages produced (`ChainedFrom`
      from the first stage on). */
  lemma SuccessfulRunChaining(input: CreativeAgentInput, binding: Binding)
    requires RunSpec(input, binding).result.Ok?
    ensures ChainedFrom(input, binding, ResolveSettings(input), RunSpec(input, binding), 0)
  {
    var s := ResolveSettings(input);
    var p := TextStage(binding, PlanStage, PlanMessages(input.instruction, s.tone));
    var tail := FromStory(input, binding, s, p.result.value);
    assert RunSpec(input, binding) == Prepend(p.calls, tail);
    FromStoryChained(input, binding, s, p.result.value);
    PlanChained(input, binding, s, p, tail);
  }

  /** The plan stage's calls put before a chained tail from the story stage on. */
  lemma PlanChained(input: CreativeAgentInput, binding: Binding, s: Settings, p: StageRun<string>, tail: AgentRun)
    requires p == TextStage(binding, PlanStage, PlanMessages(input.instruction, s.tone)) && p.result.Ok?
    requires tail.result.Ok? && tail.result.value.storyPlan == p.result.value
    requires ChainedFrom(input, binding, s, tail, Rank(StoryStage))
    ensures ChainedFrom(input, binding, s, Prepend(p.calls, tail), 0)
  {
    PrependStage(p.calls, PlanStage, ChatRequest(DefaultChatModel, PlanMessages(input.instruction, s.tone)), tail.calls);
  }

  /** The outcome of a binding call, as the stage that made it sees it. */
  function CallOutcome(binding: Binding, call: Call): Outcome<string>
  {
    match binding(call.request, call.attempt)
    case Fail(m) => Fail(m)
    case Ok(v) =>
      if call.stage == ImageStage then Ok("")
      else if IsChatResponse(v) then Ok(ToJsString(v.props["response"]))
      else Fail(NoTextContent)
  }

  /** A failing text stage's error is the outcome of its last call. */
  lemma TextStageFailure(binding: Binding, stage: Stage, messages: seq<BaseMessage>)
    requires stage != ImageStage
    requires TextStage(binding, stage, messages).result.Fail?
    ensures var r := TextStage(binding, stage, messages);
      CallOutcome(binding, r.calls[|r.calls| - 1]) == Fail(r.result.message)
  {
  }

  /** What a failed run, or its tail from the stage of rank `k` on, promises: there is a
      last call and its outcome is the error rethrown; the calls go in stage order, all of
      rank `k` or later; and no call belongs to a stage after the one of the last call. */
  predicate FailedAtLast(binding: Binding, run: AgentRun, k: nat)
    requires run.result.Fail?
  {
    && run.calls != []
    && CallOutcome(binding, run.calls[|run.calls| - 1]) == Fail(run.result.message)
    && InStageOrder(run.calls)
    && FromRank(run.calls, k)
    && forall i :: 0 <= i < |run.calls| ==> Rank(run.calls[i].stage) <= Rank(run.calls[|run.calls| - 1].stage)
  }

  /** A run that fails rethrows the error of its very last binding call, as the stage
      saw it; the calls go in stage order and no stage after the failing one is called. */
  lemma FailureIsLastCallError(input: CreativeAgentInput, binding: Binding)
    requires RunSpec(input, binding).result.Fail?
    ensures FailedAtLast(binding, RunSpec(input, binding), 0)
  {
    var s := ResolveSettings(input);
    var request := ChatRequest(DefaultChatModel, PlanMessages(input.instruction, s.tone));
    var p := TextStage(binding, PlanStage, PlanMessages(input.instruction, s.tone));
    if p.result.Fail? {
      TextStageFailure(binding, PlanStage, PlanMessages(input.instruction, s.tone));
      PrependStage(p.calls, PlanStage, request, []);
      assert p.calls + [] == p.calls;
    } else {
      var tail := FromStory(input, binding, s, p.result.value);
      assert RunSpec(input, binding) == Prepend(p.calls, tail);
      FromStoryFailure(input, binding, s, p.result.value);
      PrependFailed(binding, p.calls, PlanStage, request, tail);
    }
  }

  /** One stage's calls put before a failed tail of later stages. */
  lemma PrependFailed(binding: Binding, c: seq<Call>, stage: Stage, request: RunRequest, tail: AgentRun)
    requires forall i :: 0 <= i < |c| ==> c[i].stage == stage && c[i].request == request
    requires tail.result.Fail? && FailedAtLast(binding, tail, Rank(stage) + 1)
    ensures FailedAtLast(binding, Prepend(c, tail), Rank(stage))
  {
    PrependStage(c, stage, request, tail.calls);
    LastOfPrepend(c, tail.calls);
    StageBoundOfOrder(c + tail.calls);
  }

  /** Calls in stage order have none of a stage after the last call's. */
  lemma StageBoundOfOrder(calls: seq<Call>)
    requires calls != [] && InStageOrder(calls)
    ensures forall i :: 0 <= i < |calls| ==> Rank(calls[i].stage) <= Rank(calls[|calls| - 1].stage)
  {
    forall i | 0 <= i < |calls| ensures Rank(calls[i].stage) <= Rank(calls[|calls| - 1].stage) {
      if i < |calls| - 1 {
        assert Rank(calls[i].stage) <= Rank(calls[|calls| - 1].stage);
      }
    }
  }

  lemma LastOfPrepend(c: seq<Call>, rest: seq<Call>)
    requires rest != []
    ensures (c + rest)[|c + rest| - 1] == rest[|rest| - 1]
  {
  }

  /** The failure of a text stage alone: its calls are of that one stage. */
  lemma TextStageFailedAtLast(binding: Binding, stage: Stage, messages: seq<BaseMessage>, run: AgentRun)
    requires stage != ImageStage
    requires TextStage(binding, stage, messages).result.Fail?
    requires run == AgentRun(Fail(TextStage(binding, stage, messages).result.message), TextStage(binding, stage, messages).calls)
    ensures FailedAtLast(binding, run, Rank(stage))
  {
    TextStageFailure(binding, stage, messages);
  }

  lemma FromStoryFailure(input: CreativeAgentInput, binding: Binding, s: Settings, plan: string)
    requires FromStory(input, binding, s, plan).result.Fail?
    ensures FailedAtLast(binding, FromStory(input, binding, s, plan), Rank(StoryStage))
  {
    var messages := StoryMessages(input.instruction, s.style, plan);
    var st := TextStage(binding, StoryStage, messages);
    if st.result.Fail? {
      TextStageFailedAtLast(binding, StoryStage, messages, FromStory(input, binding, s, plan));
    } else {
      var tail := FromSynopsis(input, binding, s, plan, st.result.value);
      FromSynopsisFailure(input, binding, s, plan, st.result.value);
      PrependFailed(binding, st.calls, StoryStage, ChatRequest(DefaultChatModel, messages), tail);
    }
  }

  lemma FromSynopsisFailure(input: CreativeAgentInput, binding: Binding, s: Settings, plan: string, story: string)
    requires FromSynopsis(input, binding, s, plan, story).result.Fail?
    ensures FailedAtLast(binding, FromSynopsis(input, binding, s, plan, story), Rank(SynopsisStage))
  {
    var messages := SynopsisMessages(story);
    var sy := TextStage(binding, SynopsisStage, messages);
    if sy.result.Fail? {
      TextStageFailedAtLast(binding, SynopsisStage, messages, FromSynopsis(input, binding, s, plan, story));
    } else {
      var tail := FromImagePrompt(input, binding, s, plan, story, sy.result.value);
      FromImagePromptFailure(input, binding, s, plan, story, sy.result.value);
      PrependFailed(binding, sy.calls, SynopsisStage, ChatRequest(DefaultChatModel, messages), tail);
    }
  }

  lemma FromImagePromptFailure(input: CreativeAgentInput, binding: Binding, s: Settings,
                               plan: string, story: string, synopsis: string)
    requires FromImagePrompt(input, binding, s, plan, story, synopsis).result.Fail?
    ensures FailedAtLast(binding, FromImagePrompt(input, binding, s, plan, story, synopsis), Rank(ImagePromptStage))
  {
    var messages := ImagePromptMessages(story, s);
    var ip := TextStage(binding, ImagePromptStage, messages);
    if ip.result.Fail? {
      TextStageFailedAtLast(binding, ImagePromptStage, messages, FromImagePrompt(input, binding, s, plan, story, synopsis));
    } else {
      var im := ImageStageRun(binding, ip.result.value);
      PrependStage(ip.calls, ImagePromptStage, ChatRequest(DefaultChatModel, messages), im.calls);
      LastOfPrepend(ip.calls, im.calls);
      StageBoundOfOrder(ip.calls + im.calls);
    }
  }

  /** A plan-stage error that is not tagged 1031 ends the run after one call. */
  lemma PlanFailureStopsAtOnce(input: CreativeAgentInput, binding: Binding, m: string)
    requires var s := ResolveSettings(input);
      ChatModelCall(binding, DefaultChatModel, PlanMessages(input.instruction, s.tone), 1) == Fail(m)
    requires !IsOverload(m)
    ensures var s := ResolveSettings(input);
      RunSpec(input, binding) ==
        AgentRun(Fail(m), [Call(PlanStage, ChatRequest(DefaultChatModel, PlanMessages(input.instruction, s.tone)), 1)])
  {
    var s := ResolveSettings(input);
    NonOverloadFailsFast(ChatWork(binding, PlanMessages(input.instruction, s.tone)), m);
  }

  /** Each prompt carries what it is built from: the instruction and the tone into the
      plan request, the plan and the instruction into the story request, the story into
      the synopsis request. */
  lemma TextPromptsCarryTheirInputs(instruction: string, tone: string, style: string, plan: string, story: string)
    ensures Contains(PlanHuman(instruction, tone), instruction)
    ensures Contains(PlanHuman(instruction, tone), tone)
    ensures Contains(StoryHuman(instruction, style, plan), plan)
    ensures Contains(StoryHuman(instruction, style, plan), instruction)
    ensures Contains(SynopsisHuman(story), story)
  {
    ContainsSuffix("Instruction: ", instruction);
    ContainsAppend("Instruction: " + instruction, instruction, "\nPreferred tone: ");
    ContainsAppend("Instruction: " + instruction + "\nPreferred tone: ", instruction, tone);
    ContainsSuffix("Instruction: " + instruction + "\nPreferred tone: ", tone);
    var a := "Story beats:\n" + plan;
    ContainsSuffix("Story beats:\n", plan);
    ContainsAppend(a, plan, "\n\nDesired style: ");
    ContainsAppend(a + "\n\nDesired style: ", plan, style);
    ContainsAppend(a + "\n\nDesired style: " + style, plan, "\nInstruction recap: ");
    ContainsAppend(a + "\n\nDesired style: " + style + "\nInstruction recap: ", plan, instruction);
    ContainsSuffix(a + "\n\nDesired style: " + style + "\nInstruction recap: ", instruction);
    ContainsSuffix("Story:\n", story);
  }

  /** The image-prompt request carries the story and every resolved setting. */
  lemma ImagePromptCarriesItsInputs(story: string, s: Settings)
    ensures Contains(ImagePromptHuman(story, s), story)
    ensures Contains(ImagePromptHuman(story, s), s.tone)
    ensures Contains(ImagePromptHuman(story, s), s.style)
    ensures Contains(ImagePromptHuman(story, s), s.image.artStyle)
    ensures Contains(ImagePromptHuman(story, s), s.image.lighting)
    ensures Contains(ImagePromptHuman(story, s), s.image.colorPalette)
    ensures Contains(ImagePromptHuman(story, s), s.image.lens)
    ensures Contains(ImagePromptHuman(story, s), s.image.rendering)
    ensures Contains(ImagePromptHuman(story, s), s.image.detailLevel)
  {
    var parts := ["Story summary:\n", story,
      "\n\nTone to capture: ", s.tone,
      "\nNarrative style: ", s.style,
      "\nVisual aesthetic: ", s.image.artStyle,
      "\nLighting focus: ", s.image.lighting,
      "\nColor palette: ", s.image.colorPalette,
      "\nLens choice: ", s.image.lens,
      "\nRendering medium: ", s.image.rendering,
      "\nDesired detail level: ", s.image.detailLevel];
    forall k | 0 <= k < |parts| ensures Contains(Concat(parts), parts[k]) {
      ConcatContainsPart(parts, k);
    }
    assert parts[1] == story && parts[3] == s.tone && parts[5] == s.style;
    assert parts[7] == s.image.artStyle && parts[9] == s.image.lighting;
    assert parts[11] == s.image.colorPalette && parts[13] == s.image.lens;
    assert parts[15] == s.image.rendering && parts[17] == s.image.detailLevel;
  }
}
