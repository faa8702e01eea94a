/** The server actions of src/actions/ai.ts: `hashPrompt`'s hex rendering, the
    read-through cached `generateImage` / `generateStory` handlers, and the
    `runCreativeAgent` action's argument normalisation. */
module Actions {
  import opened Js
  import opened Adapter
  import Agent

  /** 24 hours, in seconds. */
  const CacheTtlSeconds: nat := 60 * 60 * 24

  const MissingBindingError: string :=
    "Cloudflare Workers AI binding \"AI\" not found. Configure a Workers AI binding named \"AI\" in your Cloudflare Pages project (Settings → Functions → Bindings)."
  const InstructionRequired: string := "Instruction is required"

  /** A digit of base 16 in lower case: "0".."9", "a".."f". */
  predicate IsLowerHexDigit(c: char)
  {
    '0' <= c <= '9' || 'a' <= c <= 'f'
  }

  /** UTF-8 encoding followed by SHA-256, as an uninterpreted function of the prompt. */
  type Digest = string -> seq<byte>

  function HexDigit(n: int): (c: char)
    requires 0 <= n < 16
    ensures IsLowerHexDigit(c)
  {
    if n < 10 then ('0' as int + n) as char else ('a' as int + n - 10) as char
  }

  /** `n.toString(16)` for a byte. */
  function ToBase16(b: byte): string
  {
    if b < 16 then [HexDigit(b as int)] else [HexDigit(b as int / 16), HexDigit(b as int % 16)]
  }

  /** `s.padStart(2, "0")` */
  function PadStart2(s: string): (r: string)
    ensures |s| >= 2 ==> r == s
  {
    if |s| < 2 then seq(2 - |s|, _ => '0') + s else s
  }

  /** One byte as exactly two hex digits, high nibble first. */
  function ByteHex(b: byte): (r: string)
    ensures r == [HexDigit(b as int / 16), HexDigit(b as int % 16)]
  {
    PadStart2(ToBase16(b))
  }

  /** `Array.from(bytes).map(b => b.toString(16).padStart(2, "0")).join("")` */
  function ToHex(bytes: seq<byte>): (r: string)
    ensures |r| == 2 * |bytes|
  {
    if bytes == [] then "" else ByteHex(bytes[0]) + ToHex(bytes[1..])
  }

  /** Every byte contributes its two digits at positions 2i and 2i+1, in byte order. */
  lemma {:induction false} ToHexDigits(bytes: seq<byte>)
    ensures forall i :: 0 <= i < |bytes| ==>
      ToHex(bytes)[2 * i] == HexDigit(bytes[i] as int / 16)
      && ToHex(bytes)[2 * i + 1] == HexDigit(bytes[i] as int % 16)
  {
    if bytes != [] {
      ToHexDigits(bytes[1..]);
      var r := ToHex(bytes);
      assert r == ByteHex(bytes[0]) + ToHex(bytes[1..]);
      forall i | 0 <= i < |bytes|
        ensures r[2 * i] == HexDigit(bytes[i] as int / 16) && r[2 * i + 1] == HexDigit(bytes[i] as int % 16)
      {
        if i > 0 {
          assert r[2 * i] == ToHex(bytes[1..])[2 * (i - 1)];
          assert r[2 * i + 1] == ToHex(bytes[1..])[2 * (i - 1) + 1];
        }
      }
    }
  }

  /** The rendering uses only the lower-case hex alphabet. */
  lemma LowerCaseAlphabet(bytes: seq<byte>)
    ensures forall i :: 0 <= i < |ToHex(bytes)| ==> IsLowerHexDigit(ToHex(bytes)[i])
  {
    ToHexDigits(bytes);
    var r := ToHex(bytes);
    forall i | 0 <= i < |r| ensures IsLowerHexDigit(r[i]) {
      if i % 2 == 0 {
        assert r[2 * (i / 2)] == HexDigit(bytes[i / 2] as int / 16);
      } else {
        assert r[2 * (i / 2) + 1] == HexDigit(bytes[i / 2] as int % 16);
      }
    }
  }

  /** The value of a lower-case hex digit. */
  function HexValue(c: char): (n: int)
    ensures 0 <= n < 16
    ensures IsLowerHexDigit(c) ==> HexDigit(n) == c
  {
    if '0' <= c <= '9' then c as int - '0' as int
    else if 'a' <= c <= 'f' then c as int - 'a' as int + 10
    else 0
  }

  /** Reading the digits back, two at a time: the partner of `ToHex`. */
  function FromHex(s: string): seq<byte>
    decreases |s|
  {
    if |s| < 2 then [] else [(HexValue(s[0]) * 16 + HexValue(s[1])) as byte] + FromHex(s[2..])
  }

  /** Rendering loses nothing: the bytes can be read back from the hex string, so distinct
      digests give distinct keys. */
  lemma {:induction false} HexRoundTrip(bytes: seq<byte>)
    ensures FromHex(ToHex(bytes)) == bytes
  {
    if bytes != [] {
      var b := bytes[0] as int;
      var r := ToHex(bytes);
      assert r[..2] == ByteHex(bytes[0]) && r[2..] == ToHex(bytes[1..]);
      assert HexValue(r[0]) == b / 16 && HexValue(r[1]) == b % 16;
      assert FromHex(r) == [bytes[0]] + FromHex(r[2..]);
      HexRoundTrip(bytes[1..]);
    }
  }

  /** `hashPrompt(prompt)` */
  function HashPrompt(digest: Digest, prompt: string): string
  {
    ToHex(digest(prompt))
  }

  /** A SHA-256 digest (32 bytes) renders as 64 lower-case hex digits. */
  lemma HashLength(digest: Digest, prompt: string)
    requires |digest(prompt)| == 32
    ensures |HashPrompt(digest, prompt)| == 64
    ensures forall i :: 0 <= i < 64 ==> IsLowerHexDigit(HashPrompt(digest, prompt)[i])
  {
    LowerCaseAlphabet(digest(prompt));
  }

  /** The two cached handlers. */
  datatype Kind = ImageKind | StoryKind

  function KeyPrefix(kind: Kind): string
  {
    match kind
    case ImageKind => "image:"
    case StoryKind => "story:"
  }

  function KindModel(kind: Kind): string
  {
    match kind
    case ImageKind => Agent.ImageModel
    case StoryKind => DefaultChatModel
  }

  /** The field of the model result the handler returns. */
  function ResultField(kind: Kind): string
  {
    match kind
    case ImageKind => "image"
    case StoryKind => "response"
  }

  /** The field of the handler's own reply: `{ imageBase64 }` or `{ story }`. */
  function ReplyField(kind: Kind): string
  {
    match kind
    case ImageKind => "imageBase64"
    case StoryKind => "story"
  }

  /** The object a handler returns around the cached or generated value. */
  function HandlerReply(kind: Kind, value: JsValue): (r: JsValue)
    ensures IsObjectWith(r, ReplyField(kind)) && Get(r, ReplyField(kind)) == value
    ensures r.Obj? && r.props.Keys == {ReplyField(kind)}
  {
    Obj(map[ReplyField(kind) := value])
  }

  function MissingResult(kind: Kind): string
  {
    match kind
    case ImageKind => "No image generated"
    case StoryKind => "No story generated"
  }

  /** `cache ? `${prefix}${await hashPrompt(prompt)}` : null` */
  function CacheKey(kind: Kind, hasCache: bool, digest: Digest, prompt: string): (r: Option<string>)
    ensures r.Some? <==> hasCache
    ensures r.Some? ==> r.value == KeyPrefix(kind) + HashPrompt(digest, prompt)
  {
    if hasCache then Some(KeyPrefix(kind) + HashPrompt(digest, prompt)) else None
  }

  /** `AI.run(model, { prompt })` */
  function KindRequest(kind: Kind, prompt: string): RunRequest
  {
    Run(KindModel(kind), Obj(map["prompt" := Str(prompt)]))
  }

  /** `cache.get(key)`: the stored value, or `null` for a missing key. */
  function Lookup(entries: map<string, JsValue>, key: string): JsValue
  {
    if key in entries then entries[key] else Null
  }

  datatype CacheWrite = CacheWrite(key: string, value: JsValue, ttl: nat)

  /** What a handler did: its result, the model requests it made, and the cache write
      that took effect, if any. */
  datatype Generation = Generation(result: Outcome<JsValue>, calls: seq<RunRequest>, write: Option<CacheWrite>)

  /** The specification of the `generateImage` / `generateStory` handlers. `cache` is the
      bound namespace's contents (`None`: no cache bound); `getFault` is the error a
      `cache.get` throws, if it does; `putFails` says whether `cache.put` throws. */
  function GenerationSpec(kind: Kind, ai: AiSlot, cache: Option<map<string, JsValue>>, digest: Digest,
                          prompt: string, getFault: Option<string>, putFails: bool): Generation
  {
    if !ai.AiBound? then Generation(Fail(MissingBindingError), [], None)
    else
    var key := CacheKey(kind, cache.Some?, digest, prompt);
    if key.Some? && getFault.Some? && kind == ImageKind then Generation(Fail(getFault.value), [], None)
    else
    var cached := if key.Some? && getFault.None? then Lookup(cache.value, key.value) else Null;
    if Truthy(cached) then Generation(Ok(HandlerReply(kind, cached)), [], None)
    else
    var request := KindRequest(kind, prompt);
    match ai.run(request, 1)
    case Fail(e) => Generation(Fail(e), [request], None)
    case Ok(v) =>
      if !IsObjectWith(v, ResultField(kind)) then Generation(Fail(MissingResult(kind)), [request], None)
      else
        var out := Get(v, ResultField(kind));
        Generation(Ok(HandlerReply(kind, out)), [request],
          if key.Some? && !putFails then Some(CacheWrite(key.value, out, CacheTtlSeconds)) else None)
  }

  /** A Workers KV namespace: stored values and the TTL each was written with. */
  class KvNamespace {
    var entries: map<string, JsValue>
    var ttls: map<string, nat>

    constructor ()
      ensures entries == map[] && ttls == map[]
    {
      entries := map[];
      ttls := map[];
    }

    /** `put(key, value, { expirationTtl })` */
    method Put(key: string, value: JsValue, expirationTtl: nat)
      modifies this
      ensures entries == old(entries)[key := value]
      ensures ttls == old(ttls)[key := expirationTtl]
    {
      entries := entries[key := value];
      ttls := ttls[key := expirationTtl];
    }
  }

  /** A handler: binding check, key, cache read, model call on a miss, best-effort write. */
  method Generate(kind: Kind, ai: AiSlot, cache: KvNamespace?, digest: Digest,
                  prompt: string, getFault: Option<string>, putFails: bool)
    returns (result: Outcome<JsValue>, calls: seq<RunRequest>)
    modifies cache
    ensures var g := GenerationSpec(kind, ai, if cache == null then None else Some(old(cache.entries)),
                                    digest, prompt, getFault, putFails);
      && result == g.result && calls == g.calls
      && (cache != null && g.write.Some? ==>
            cache.entries == old(cache.entries)[g.write.value.key := g.write.value.value]
            && cache.ttls == old(cache.ttls)[g.write.value.key := g.write.value.ttl])
      && (cache != null && g.write.None? ==>
            cache.entries == old(cache.entries) && cache.ttls == old(cache.ttls))
  {
    calls := [];
    if !ai.AiBound? {
      return Fail(MissingBindingError), calls;
    }
    var key := CacheKey(kind, cache != null, digest, prompt);
    if key.Some? {
      if getFault.Some? {
        if kind == ImageKind {
          return Fail(getFault.value), calls;
        }
      } else {
        var cached := Lookup(cache.entries, key.value);
        if Truthy(cached) {
          return Ok(HandlerReply(kind, cached)), calls;
        }
      }
    }
    var request := KindRequest(kind, prompt);
    var outcome := ai.run(request, 1);
    calls := [request];
    if outcome.Fail? {
      return Fail(outcome.message), calls;
    }
    if !IsObjectWith(outcome.value, ResultField(kind)) {
      return Fail(MissingResult(kind)), calls;
    }
    var out := Get(outcome.value, ResultField(kind));
    if key.Some? && !putFails {
      cache.Put(key.value, out, CacheTtlSeconds);
    }
    result := Ok(HandlerReply(kind, out));
  }

  /** A missing or unusable binding fails before the cache is read or the model called. */
  lemma BindingCheckedFirst(kind: Kind, ai: AiSlot, cache: Option<map<string, JsValue>>, digest: Digest,
                            prompt: string, getFault: Option<string>, putFails: bool)
    requires !ai.AiBound?
    ensures GenerationSpec(kind, ai, cache, digest, prompt, getFault, putFails)
      == Generation(Fail(MissingBindingError), [], None)
  {
  }

  /** A hit returns the cached value, calls no model and writes nothing. */
  lemma CacheHitSkipsModel(kind: Kind, run: Binding, entries: map<string, JsValue>, digest: Digest,
                           prompt: string, putFails: bool)
    requires Truthy(Lookup(entries, KeyPrefix(kind) + HashPrompt(digest, prompt)))
    ensures var key := KeyPrefix(kind) + HashPrompt(digest, prompt);
      GenerationSpec(kind, AiBound(run), Some(entries), digest, prompt, None, putFails)
        == Generation(Ok(HandlerReply(kind, entries[key])), [], None)
  {
  }

  /** A miss makes exactly one model call; a result without the expected field is an
      error and nothing is cached; otherwise the field is returned and, when a cache is
      bound and the write succeeds, stored under the key with a 24-hour TTL. */
  lemma MissGeneratesThenCaches(kind: Kind, run: Binding, cache: Option<map<string, JsValue>>,
                                digest: Digest, prompt: string, putFails: bool)
    requires cache.Some? ==> !Truthy(Lookup(cache.value, KeyPrefix(kind) + HashPrompt(digest, prompt)))
    requires run(KindRequest(kind, prompt), 1).Ok?
    ensures var g := GenerationSpec(kind, AiBound(run), cache, digest, prompt, None, putFails);
      var v := run(KindRequest(kind, prompt), 1).value;
      && g.calls == [KindRequest(kind, prompt)]
      && (!IsObjectWith(v, ResultField(kind)) ==> g.result == Fail(MissingResult(kind)) && g.write == None)
      && (IsObjectWith(v, ResultField(kind)) ==>
            g.result == Ok(HandlerReply(kind, v.props[ResultField(kind)]))
            && g.write == (if cache.Some? && !putFails
                           then Some(CacheWrite(KeyPrefix(kind) + HashPrompt(digest, prompt), v.props[ResultField(kind)], 86400))
                           else None))
  {
  }

  /** A failed cache write never changes what the handler returns or calls. */
  lemma WriteFailureKeepsResult(kind: Kind, ai: AiSlot, cache: Option<map<string, JsValue>>, digest: Digest,
                                prompt: string, getFault: Option<string>)
    ensures var ok := GenerationSpec(kind, ai, cache, digest, prompt, getFault, false);
      var failed := GenerationSpec(kind, ai, cache, digest, prompt, getFault, true);
      failed.result == ok.result && failed.calls == ok.calls && failed.write == None
  {
  }

  /** A failed story-cache read is a miss: the handler behaves as on an empty cache. */
  lemma StoryReadFailureIsMiss(ai: AiSlot, entries: map<string, JsValue>, digest: Digest,
                               prompt: string, m: string, putFails: bool)
    ensures GenerationSpec(StoryKind, ai, Some(entries), digest, prompt, Some(m), putFails)
      == GenerationSpec(StoryKind, ai, Some(map[]), digest, prompt, None, putFails)
  {
  }

  /** A failed image-cache read is not caught: the handler fails with that error and calls
      no model. */
  lemma ImageReadFailurePropagates(run: Binding, entries: map<string, JsValue>, digest: Digest,
                                   prompt: string, m: string, putFails: bool)
    ensures GenerationSpec(ImageKind, AiBound(run), Some(entries), digest, prompt, Some(m), putFails)
      == Generation(Fail(m), [], None)
  {
  }

  /** The validated input of the `runCreativeAgent` action: optionals may be omitted. */
  datatype ActionInput = ActionInput(
    instruction: string,
    tone: Option<string>,
    style: Option<string>,
    generateImage: Option<bool>,
    imageArtStyle: Option<string>,
    imageLighting: Option<string>,
    imageColorPalette: Option<string>,
    imageLens: Option<string>,
    imageRendering: Option<string>,
    detailLevel: Option<string>)

  /** `field ?? null` */
  function OrNull(field: Option<string>): (r: Agent.OptText)
    ensures field.None? ==> r == Agent.NullText
    ensures field.Some? ==> r == Agent.Given(field.value)
  {
    if field.Some? then Agent.Given(field.value) else Agent.NullText
  }

  /** The input the action forwards: omitted optionals become `null`, an omitted
      `generateImage` becomes `false`. */
  function Normalize(a: ActionInput): Agent.CreativeAgentInput
  {
    Agent.CreativeAgentInput(a.instruction, OrNull(a.tone), OrNull(a.style),
      Some(if a.generateImage.Some? then a.generateImage.value else false),
      OrNull(a.imageArtStyle), OrNull(a.imageLighting), OrNull(a.imageColorPalette),
      OrNull(a.imageLens), OrNull(a.imageRendering), OrNull(a.detailLevel))
  }

  /** The same input with omitted fields left omitted. */
  function AsOmitted(field: Option<string>): Agent.OptText
  {
    if field.Some? then Agent.Given(field.value) else Agent.Absent
  }

  function Unnormalized(a: ActionInput): Agent.CreativeAgentInput
  {
    Agent.CreativeAgentInput(a.instruction, AsOmitted(a.tone), AsOmitted(a.style), a.generateImage,
      AsOmitted(a.imageArtStyle), AsOmitted(a.imageLighting), AsOmitted(a.imageColorPalette),
      AsOmitted(a.imageLens), AsOmitted(a.imageRendering), AsOmitted(a.detailLevel))
  }

  /** The specification of the action: the `min(1)` check on the instruction, the binding
      check, then the pipeline on the normalised input. */
  function ActionSpec(ai: AiSlot, a: ActionInput): Agent.AgentRun
  {
    if |a.instruction| < 1 then Agent.AgentRun(Fail(InstructionRequired), [])
    else if !ai.AiBound? then Agent.AgentRun(Fail(MissingBindingError), [])
    else Agent.RunSpec(Normalize(a), ai.run)
  }

  method RunCreativeAgentAction(ai: AiSlot, a: ActionInput)
    returns (result: Outcome<Agent.CreativeAgentOutput>, calls: seq<Agent.Call>)
    ensures Agent.AgentRun(result, calls) == ActionSpec(ai, a)
  {
    if |a.instruction| < 1 {
      return Fail(InstructionRequired), [];
    }
    if !ai.AiBound? {
      return Fail(MissingBindingError), [];
    }
    result, calls := Agent.RunCreativeAgent(Normalize(a), ai.run);
  }

  /** Forwarding `null` and `false` for omitted fields changes nothing: the pipeline runs
      exactly as it would on the omitted fields. */
  lemma NormalizationPreservesRun(a: ActionInput, binding: Binding)
    ensures Agent.RunSpec(Normalize(a), binding) == Agent.RunSpec(Unnormalized(a), binding)
  {
    var n := Normalize(a);
    var u := Unnormalized(a);
    assert Agent.ResolveSettings(n) == Agent.ResolveSettings(u);
    var s := Agent.ResolveSettings(n);
    var p := Agent.TextStage(binding, Agent.PlanStage, Agent.PlanMessages(a.instruction, s.tone));
    if p.result.Ok? {
      FromStoryDependsOnFlag(n, u, binding, s, p.result.value);
    }
  }

  lemma FromStoryDependsOnFlag(i1: Agent.CreativeAgentInput, i2: Agent.CreativeAgentInput,
                               binding: Binding, s: Agent.Settings, plan: string)
    requires i1.instruction == i2.instruction
    requires (i1.generateImage == Some(true)) == (i2.generateImage == Some(true))
    ensures Agent.FromStory(i1, binding, s, plan) == Agent.FromStory(i2, binding, s, plan)
  {
    var st := Agent.TextStage(binding, Agent.StoryStage, Agent.StoryMessages(i1.instruction, s.style, plan));
    if st.result.Ok? {
      var sy := Agent.TextStage(binding, Agent.SynopsisStage, Agent.SynopsisMessages(st.result.value));
      if sy.result.Ok? {
        assert Agent.FromImagePrompt(i1, binding, s, plan, st.result.value, sy.result.value)
          == Agent.FromImagePrompt(i2, binding, s, plan, st.result.value, sy.result.value);
      }
    }
  }
}
