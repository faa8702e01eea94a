/** The option and guard rules of the `useCreativeAgent` hook
    (src/components/demos/useCreativeAgent.ts): the custom option lists, their loading
    from storage, the stage status messages, the randomisation candidates and the input
    guards of the generate, speak and transcribe handlers. */
module AgentHook {
  import opened Js
  import opened Text

  /** The eight option groups a user can extend. */
  datatype OptionKey =
    | Tone | StyleKey | ImageArtStyle | ImageLighting | ImageColorPalette | ImageLens
    | ImageRendering | DetailLevel

  /** The property names of the groups, in declaration order. */
  function KeyName(k: OptionKey): string
  {
    match k
    case Tone => "tone"
    case StyleKey => "style"
    case ImageArtStyle => "imageArtStyle"
    case ImageLighting => "imageLighting"
    case ImageColorPalette => "imageColorPalette"
    case ImageLens => "imageLens"
    case ImageRendering => "imageRendering"
    case DetailLevel => "detailLevel"
  }

  const AllKeys: seq<OptionKey> :=
    [Tone, StyleKey, ImageArtStyle, ImageLighting, ImageColorPalette, ImageLens, ImageRendering, DetailLevel]

  /** `DEFAULT_OPTION_MAP`: the built-in choices of each group. */
  function Defaults(k: OptionKey): seq<string>
  {
    match k
    case Tone => ["uplifting", "wistful yet hopeful", "mythic and triumphant", "melancholic noir",
                  "playfully whimsical", "brooding heroic"]
    case StyleKey => ["modern cinematic", "retro-futurist pulp", "folk tale fable", "hard sci-fi epic",
                      "ethereal gothic", "solar punk odyssey"]
    case ImageArtStyle => ["ultra-detailed digital concept art", "hand-painted gouache concept render",
                           "photoreal cinematic still with surreal accents", "neo-noir 3D matte painting"]
    case ImageLighting => ["volumetric rim lighting with cinematic contrast",
                           "dramatic chiaroscuro with soft bounce fill",
                           "golden hour backlighting with misty scattering",
                           "bioluminescent glow with deep ambient shadows"]
    case ImageColorPalette => ["rich complementary palette with luminous accents",
                               "cool triadic palette with iridescent highlights",
                               "crimson and gold high-drama spectrum",
                               "monochrome obsidian with electric cyan accents"]
    case ImageLens => ["35mm anamorphic lens, wide yet intimate framing",
                       "50mm prime lens, shallow depth macro detail",
                       "ultra-wide 18mm lens, sweeping panoramic vista",
                       "telephoto 85mm lens, compressed hero portrait"]
    case ImageRendering => ["hybrid octane render with subtle particle FX",
                            "unreal engine cinematic render with ray-traced reflections",
                            "photobashed matte painting with overpainted highlights",
                            "stylized toon shader with volumetric ink washes"]
    case DetailLevel => ["8k hyper-real microdetail", "5k painterly brushwork with layered texture",
                         "16k ultra fidelity with nanoscopic detail",
                         "film-grain 4k with analog imperfections"]
  }

  /** `CustomOptionsState`: the custom entries of every group, newest first. */
  datatype CustomOptions = CustomOptions(
    tone: seq<string>, style: seq<string>, imageArtStyle: seq<string>, imageLighting: seq<string>,
    imageColorPalette: seq<string>, imageLens: seq<string>, imageRendering: seq<string>,
    detailLevel: seq<string>)

  /** `custom[key]` */
  function Lookup(c: CustomOptions, k: OptionKey): seq<string>
  {
    match k
    case Tone => c.tone
    case StyleKey => c.style
    case ImageArtStyle => c.imageArtStyle
    case ImageLighting => c.imageLighting
    case ImageColorPalette => c.imageColorPalette
    case ImageLens => c.imageLens
    case ImageRendering => c.imageRendering
    case DetailLevel => c.detailLevel
  }

  /** `{ ...c, [key]: list }` */
  function Update(c: CustomOptions, k: OptionKey, list: seq<string>): (r: CustomOptions)
    ensures Lookup(r, k) == list
    ensures forall other :: other != k ==> Lookup(r, other) == Lookup(c, other)
  {
    match k
    case Tone => c.(tone := list)
    case StyleKey => c.(style := list)
    case ImageArtStyle => c.(imageArtStyle := list)
    case ImageLighting => c.(imageLighting := list)
    case ImageColorPalette => c.(imageColorPalette := list)
    case ImageLens => c.(imageLens := list)
    case ImageRendering => c.(imageRendering := list)
    case DetailLevel => c.(detailLevel := list)
  }

  /** Two states with the same list in every group are the same state. */
  lemma SameLists(a: CustomOptions, b: CustomOptions)
    requires forall k :: Lookup(a, k) == Lookup(b, k)
    ensures a == b
  {
    assert Lookup(a, Tone) == Lookup(b, Tone) && Lookup(a, StyleKey) == Lookup(b, StyleKey);
    assert Lookup(a, ImageArtStyle) == Lookup(b, ImageArtStyle) && Lookup(a, ImageLighting) == Lookup(b, ImageLighting);
    assert Lookup(a, ImageColorPalette) == Lookup(b, ImageColorPalette) && Lookup(a, ImageLens) == Lookup(b, ImageLens);
    assert Lookup(a, ImageRendering) == Lookup(b, ImageRendering) && Lookup(a, DetailLevel) == Lookup(b, DetailLevel);
  }

  /** The position of a group in `AllKeys`, the order of `Object.keys`. */
  function KeyIndex(k: OptionKey): (i: nat)
    ensures i < |AllKeys| && AllKeys[i] == k
  {
    match k
    case Tone => 0
    case StyleKey => 1
    case ImageArtStyle => 2
    case ImageLighting => 3
    case ImageColorPalette => 4
    case ImageLens => 5
    case ImageRendering => 6
    case DetailLevel => 7
  }

  /** `createEmptyCustomOptions()` */
  function EmptyCustomOptions(): (r: CustomOptions)
    ensures forall k :: Lookup(r, k) == []
  {
    CustomOptions([], [], [], [], [], [], [], [])
  }

  /** `list.some((option) => option.toLowerCase() === v.toLowerCase())` */
  predicate HasIgnoringCase(list: seq<string>, v: string)
  {
    exists i :: 0 <= i < |list| && EqualsIgnoreCase(list[i], v)
  }

  /** No two entries of a list differ only in letter case. */
  predicate NoCaseDuplicates(list: seq<string>)
  {
    forall i, j :: 0 <= i < j < |list| ==> !EqualsIgnoreCase(list[i], list[j])
  }

  /** The value `addCustomOption` returns and the custom lists after its update. */
  datatype AddResult = AddResult(shown: string, custom: CustomOptions)

  /** `addCustomOption(key, value)` with the state updater it schedules, on a group whose
      built-in choices are `defaults`. */
  function AddOption(defaults: seq<string>, custom: CustomOptions, key: OptionKey, value: string): AddResult
  {
    var trimmed := Trim(value);
    if trimmed == "" then AddResult(value, custom)
    else if HasIgnoringCase(defaults, trimmed) then AddResult(trimmed, custom)
    else if HasIgnoringCase(Lookup(custom, key), trimmed) then AddResult(trimmed, custom)
    else AddResult(trimmed, Update(custom, key, [trimmed] + Lookup(custom, key)))
  }

  /** `addCustomOption(key, value)`: the defaults are `DEFAULT_OPTION_MAP[key]`. */
  function AddCustomOption(custom: CustomOptions, key: OptionKey, value: string): AddResult
  {
    AddOption(Defaults(key), custom, key, value)
  }

  /** A value that trims to nothing is handed back as it was, and nothing is added. */
  lemma AddBlankIsNoop(defaults: seq<string>, custom: CustomOptions, key: OptionKey, value: string)
    requires IsBlank(value)
    ensures AddOption(defaults, custom, key, value) == AddResult(value, custom)
  {
    TrimEmptyIffBlank(value);
  }

  /** A value matching a default or an existing custom entry, ignoring case, is handed back
      trimmed, and the lists do not change. */
  lemma AddKnownIsNoop(defaults: seq<string>, custom: CustomOptions, key: OptionKey, value: string)
    requires !IsBlank(value)
    requires HasIgnoringCase(defaults, Trim(value)) || HasIgnoringCase(Lookup(custom, key), Trim(value))
    ensures AddOption(defaults, custom, key, value) == AddResult(Trim(value), custom)
  {
    TrimEmptyIffBlank(value);
  }

  /** A new value is put, trimmed, at the front of its own group's list; every other group
      keeps its list. */
  lemma AddNewPrepends(defaults: seq<string>, custom: CustomOptions, key: OptionKey, value: string)
    requires !IsBlank(value)
    requires !HasIgnoringCase(defaults, Trim(value)) && !HasIgnoringCase(Lookup(custom, key), Trim(value))
    ensures var r := AddOption(defaults, custom, key, value);
      && r.shown == Trim(value)
      && Lookup(r.custom, key) == [Trim(value)] + Lookup(custom, key)
      && (forall k :: k != key ==> Lookup(r.custom, k) == Lookup(custom, k))
  {
    TrimEmptyIffBlank(value);
  }

  /** A custom list as `addCustomOption` keeps it: no two entries equal ignoring case, and
      none equal to a default ignoring case. */
  predicate DistinctList(defaults: seq<string>, list: seq<string>)
  {
    NoCaseDuplicates(list) && forall i :: 0 <= i < |list| ==> !HasIgnoringCase(defaults, list[i])
  }

  /** Putting a value in front of a list keeps it distinct when the value matches neither
      a default nor an entry. */
  lemma PrependKeepsDistinct(defaults: seq<string>, list: seq<string>, x: string)
    requires DistinctList(defaults, list)
    requires !HasIgnoringCase(defaults, x) && !HasIgnoringCase(list, x)
    ensures DistinctList(defaults, [x] + list)
  {
    var out := [x] + list;
    forall i, j | 0 <= i < j < |out| ensures !EqualsIgnoreCase(out[i], out[j]) {
      assert out[j] == list[j - 1];
      if i > 0 {
        assert out[i] == list[i - 1];
      } else {
        assert !EqualsIgnoreCase(list[j - 1], x);
      }
    }
    forall i | 0 <= i < |out| ensures !HasIgnoringCase(defaults, out[i]) {
      if i > 0 {
        assert out[i] == list[i - 1];
      }
    }
  }

  /** Adding never creates two entries of a group that differ only in case, and never a
      custom entry that repeats one of the group's defaults. */
  lemma AddKeepsListsDistinct(defaults: seq<string>, custom: CustomOptions, key: OptionKey, value: string)
    requires DistinctList(defaults, Lookup(custom, key))
    ensures DistinctList(defaults, Lookup(AddOption(defaults, custom, key, value).custom, key))
  {
    var trimmed := Trim(value);
    if trimmed != "" && !HasIgnoringCase(defaults, trimmed) && !HasIgnoringCase(Lookup(custom, key), trimmed) {
      PrependKeepsDistinct(defaults, Lookup(custom, key), trimmed);
    }
  }

  /** The store of custom options inside the hook: `setCustomOptions` with the updater. */
  class CustomOptionStore {
    var options: CustomOptions

    constructor (initial: CustomOptions)
      ensures options == initial
    {
      options := initial;
    }

    /** `addCustomOption` on a group whose built-in choices are `defaults`. */
    method Add(defaults: seq<string>, key: OptionKey, value: string) returns (shown: string)
      modifies this
      ensures shown == AddOption(defaults, old(options), key, value).shown
      ensures options == AddOption(defaults, old(options), key, value).custom
    {
      var trimmed := Trim(value);
      if trimmed == "" {
        return value;
      }
      if HasIgnoringCase(defaults, trimmed) {
        return trimmed;
      }
      var existing := Lookup(options, key);
      if !HasIgnoringCase(existing, trimmed) {
        options := Update(options, key, [trimmed] + existing);
      }
      shown := trimmed;
    }
  }

  /** `value.filter((item) => typeof item === "string")` */
  function StringItems(items: seq<JsValue>): seq<string>
  {
    if items == [] then []
    else (if items[0].Str? then [items[0].s] else []) + StringItems(items[1..])
  }

  /** The filter keeps exactly the strings, in their order. */
  lemma {:induction false} StringItemsAppend(items: seq<JsValue>, x: JsValue)
    ensures StringItems(items + [x]) == StringItems(items) + (if x.Str? then [x.s] else [])
  {
    if items != [] {
      assert (items + [x])[1..] == items[1..] + [x];
      StringItemsAppend(items[1..], x);
    } else {
      assert items + [x] == [x];
    }
  }

  lemma {:induction false} StringItemsMembers(items: seq<JsValue>)
    ensures forall s :: s in StringItems(items) <==> Str(s) in items
    ensures |StringItems(items)| <= |items|
  {
    if items != [] {
      StringItemsMembers(items[1..]);
      assert items == [items[0]] + items[1..];
    }
  }

  /** A stored group: the string elements of an array, anything else nothing. */
  function StoredList(value: JsValue): seq<string>
  {
    if value.Arr? then StringItems(value.items) else []
  }

  /** The lists the loop builds from a parsed, non-null storage value. */
  function LoadedOptions(parsed: JsValue): (r: CustomOptions)
    ensures forall k :: Lookup(r, k) == StoredList(Get(parsed, KeyName(k)))
  {
    CustomOptions(
      StoredList(Get(parsed, "tone")), StoredList(Get(parsed, "style")),
      StoredList(Get(parsed, "imageArtStyle")), StoredList(Get(parsed, "imageLighting")),
      StoredList(Get(parsed, "imageColorPalette")), StoredList(Get(parsed, "imageLens")),
      StoredList(Get(parsed, "imageRendering")), StoredList(Get(parsed, "detailLevel")))
  }

  /** `loadInitialCustomOptions`: `raw` is what storage holds (`None` without `window`
      or without an entry) and `parseJson` is `JSON.parse`. Every failure gives empty lists. */
  function InitialCustomOptions(raw: Option<string>, parseJson: string -> Outcome<JsValue>): CustomOptions
  {
    if raw.None? || raw.value == "" then EmptyCustomOptions()
    else
      match parseJson(raw.value)
      case Fail(_) => EmptyCustomOptions()
      case Ok(parsed) => if Nullish(parsed) then EmptyCustomOptions() else LoadedOptions(parsed)
  }

  /** A missing entry, a failed parse or a null value gives empty lists; otherwise each
      group holds the strings of its stored array and nothing else. */
  lemma InitialOptionsShape(raw: Option<string>, parseJson: string -> Outcome<JsValue>)
    ensures raw.None? || raw == Some("") ==> InitialCustomOptions(raw, parseJson) == EmptyCustomOptions()
    ensures raw.Some? && parseJson(raw.value).Fail? ==> InitialCustomOptions(raw, parseJson) == EmptyCustomOptions()
    ensures raw.Some? && raw.value != "" && parseJson(raw.value).Ok? && !Nullish(parseJson(raw.value).value) ==>
      forall k, s :: s in Lookup(InitialCustomOptions(raw, parseJson), k) <==>
        Get(parseJson(raw.value).value, KeyName(k)).Arr? && Str(s) in Get(parseJson(raw.value).value, KeyName(k)).items
  {
    forall v: JsValue | v.Arr? {
      StringItemsMembers(v.items);
    }
  }

  /** The lists after the loop has filled the first `n` groups of `AllKeys`. */
  predicate LoadedUpTo(base: CustomOptions, parsed: JsValue, n: nat)
  {
    forall k :: Lookup(base, k) == if KeyIndex(k) < n then StoredList(Get(parsed, KeyName(k))) else []
  }

  /** `AllKeys` lists each group once. */
  lemma KeyAtIndex(i: nat)
    requires i < |AllKeys|
    ensures KeyIndex(AllKeys[i]) == i
  {
  }

  /** The loop of `loadInitialCustomOptions` over the keys of the empty record. */
  method LoadParsed(parsed: JsValue) returns (base: CustomOptions)
    ensures base == LoadedOptions(parsed)
  {
    base := EmptyCustomOptions();
    for i := 0 to |AllKeys|
      invariant LoadedUpTo(base, parsed, i)
    {
      var key := AllKeys[i];
      KeyAtIndex(i);
      base := Update(base, key, StoredList(Get(parsed, KeyName(key))));
    }
    SameLists(base, LoadedOptions(parsed));
  }

  /** `loadInitialCustomOptions`, with the `try` around the parse. */
  method LoadInitialCustomOptions(raw: Option<string>, parseJson: string -> Outcome<JsValue>)
    returns (base: CustomOptions)
    ensures base == InitialCustomOptions(raw, parseJson)
  {
    if raw.None? || raw.value == "" {
      return EmptyCustomOptions();
    }
    var parsed := parseJson(raw.value);
    if parsed.Fail? || Nullish(parsed.value) {
      return EmptyCustomOptions();
    }
    base := LoadParsed(parsed.value);
  }

  /** The stage of a run, as the loading timers advance it. */
  datatype GenerationState = Idle | Planning | Writing | Summarizing | Imagining

  /** `statusMessage` */
  function StatusMessage(s: GenerationState): string
  {
    match s
    case Planning => " Charting your narrative beats..."
    case Writing => " Spinning the full story..."
    case Summarizing => " Capturing the synopsis..."
    case Imagining => " Dreaming up the illustration prompt..."
    case Idle => ""
  }

  /** The third character of each stage's message tells the stages apart. */
  function StageMark(s: GenerationState): char
  {
    match s
    case Planning => 'h'
    case Writing => 'p'
    case Summarizing => 'a'
    case Imagining => 'r'
    case Idle => ' '
  }

  lemma StatusMessageMark(s: GenerationState)
    ensures s == Idle <==> |StatusMessage(s)| == 0
    ensures s != Idle ==> |StatusMessage(s)| > 2 && StatusMessage(s)[2] == StageMark(s)
  {
    match s
    case Planning =>
    case Writing =>
    case Summarizing =>
    case Imagining =>
    case Idle =>
  }

  /** Only the idle state has no message, and each stage has its own. */
  lemma StatusMessagesDistinct(s: GenerationState, t: GenerationState)
    ensures StatusMessage(s) == "" <==> s == Idle
    ensures StatusMessage(s) == StatusMessage(t) ==> s == t
  {
    StatusMessageMark(s);
    StatusMessageMark(t);
  }

  /** `combined(key)`: the defaults, followed by the custom entries when there are any. */
  function Combined(defaults: seq<string>, custom: seq<string>): seq<string>
  {
    if |custom| > 0 then defaults + custom else defaults
  }

  /** The candidates are always the defaults followed by the custom entries. */
  lemma CombinedIsDefaultsThenCustom(defaults: seq<string>, custom: seq<string>)
    ensures Combined(defaults, custom) == defaults + custom
    ensures forall i :: 0 <= i < |defaults| ==> Combined(defaults, custom)[i] == defaults[i]
  {
    if |custom| == 0 {
      assert defaults + custom == defaults;
    }
  }

  /** `customInstruction ?? instruction`, then the blank check of `handleGenerate`: `None`
      when the handler stops before any call, else the instruction it sends, untrimmed. */
  function GenerateInstruction(customInstruction: Option<string>, instruction: string): (r: Option<string>)
  {
    var inner := if customInstruction.Some? then customInstruction.value else instruction;
    if Trim(inner) == "" then None else Some(inner)
  }

  lemma GenerateGuard(customInstruction: Option<string>, instruction: string)
    ensures var inner := if customInstruction.Some? then customInstruction.value else instruction;
      && (GenerateInstruction(customInstruction, instruction).None? <==> IsBlank(inner))
      && (GenerateInstruction(customInstruction, instruction).Some? ==>
            GenerateInstruction(customInstruction, instruction).value == inner)
  {
    var inner := if customInstruction.Some? then customInstruction.value else instruction;
    TrimEmptyIffBlank(inner);
  }

  const RunFailed: string := "Creative agent run failed"
  const NoData: string := "No data returned from creative agent"

  /** What `actions.ai.runCreativeAgent` gives back: `{ data, error }`, or a thrown error. */
  datatype ActionReply = Replied(data: JsValue, error: JsValue) | Threw(message: string)

  /** What `handleGenerate` leaves in `error` and `result` once the call settles. */
  datatype RunEffect = RunEffect(error: Option<string>, result: Option<JsValue>)

  function GenerateEffect(reply: ActionReply): RunEffect
  {
    match reply
    case Threw(m) => RunEffect(Some(if m == "" then RunFailed else m), None)
    case Replied(data, error) =>
      if Truthy(error) then RunEffect(Some(RaisedMessage(Get(error, "message"), RunFailed, RunFailed)), None)
      else if !Truthy(data) then RunEffect(Some(NoData), None)
      else RunEffect(None, Some(data))
  }

  /** A run ends with exactly one of a non-empty error and a result; the result is kept
      only when the action reports no error and returns data. */
  lemma GenerateSettles(reply: ActionReply)
    ensures GenerateEffect(reply).error.Some? <==> GenerateEffect(reply).result.None?
    ensures GenerateEffect(reply).error.Some? ==> GenerateEffect(reply).error.value != ""
    ensures GenerateEffect(reply).result.Some? <==> reply.Replied? && !Truthy(reply.error) && Truthy(reply.data)
    ensures GenerateEffect(reply).result.Some? ==> GenerateEffect(reply).result.value == reply.data
  {
  }

  const MaxTtsCharacters: nat := 2000
  const EnterText: string := "Enter text to synthesize speech."
  const TextTooLong: string := "Text is too long for text-to-speech (max 2000 characters)."

  /** The outcome of a handler's input check: refused with a message, or accepted with
      the value it goes on with. */
  datatype Check<T> = Refused(message: string) | Accepted(value: T)

  /** `(text ?? ttsText ?? instruction).trim()` and the checks of `handleSpeak`. The
      hook's `ttsText` is a string state, so the `instruction` fallback is never reached. */
  function SpeakCheck(text: Option<string>, ttsText: string): (r: Check<string>)
  {
    var trimmed := Trim(if text.Some? then text.value else ttsText);
    if trimmed == "" then Refused(EnterText)
    else if |trimmed| > MaxTtsCharacters then Refused(TextTooLong)
    else Accepted(trimmed)
  }

  /** Speech is requested only for trimmed text of 1 to 2000 characters, and that trimmed
      text is what is sent. */
  lemma SpeakGuard(text: Option<string>, ttsText: string)
    ensures var source := if text.Some? then text.value else ttsText;
      var r := SpeakCheck(text, ttsText);
      && (r == Refused(EnterText) <==> IsBlank(source))
      && (r == Refused(TextTooLong) <==> !IsBlank(source) && |Trim(source)| > MaxTtsCharacters)
      && (r.Accepted? <==> 0 < |Trim(source)| <= MaxTtsCharacters)
      && (r.Accepted? ==> r.value == Trim(source) && IsTrimmed(r.value))
  {
    var source := if text.Some? then text.value else ttsText;
    TrimEmptyIffBlank(source);
    TrimResultIsTrimmed(source);
  }

  const MaxAudioBytes: nat := 20 * 1024 * 1024
  const InvalidAudio: string := "Please upload a valid audio file."
  const AudioTooLarge: string := "Audio file exceeds the 20 MB limit."

  /** The `type` and `size` of an uploaded file. */
  datatype AudioFile = AudioFile(mimeType: string, size: nat)

  /** The checks of `handleTranscribeAudio` on a present file. */
  function AudioCheck(file: AudioFile): (r: Check<AudioFile>)
  {
    if !StartsWith(file.mimeType, "audio/") then Refused(InvalidAudio)
    else if file.size > MaxAudioBytes then Refused(AudioTooLarge)
    else Accepted(file)
  }

  /** A file is sent for transcription exactly when its type starts with `audio/` and it
      holds at most 20 MiB; the type check comes first. */
  lemma AudioGuard(file: AudioFile)
    ensures AudioCheck(file).Accepted? <==> StartsWith(file.mimeType, "audio/") && file.size <= 20971520
    ensures !StartsWith(file.mimeType, "audio/") ==> AudioCheck(file) == Refused(InvalidAudio)
  {
  }

  /** `data.text?.trim() ?? ""` and the empty check after a transcription. */
  function TranscriptOf(data: JsValue): (r: Check<string>)
  {
    var t := Get(data, "text");
    var text := if t.Str? then Trim(t.s) else "";
    if text == "" then Refused("No transcript returned from ASR") else Accepted(text)
  }

  /** A transcript is accepted only when non-blank, and it is then trimmed. */
  lemma TranscriptGuard(data: JsValue)
    ensures TranscriptOf(data).Accepted? <==> Get(data, "text").Str? && !IsBlank(Get(data, "text").s)
    ensures TranscriptOf(data).Accepted? ==> IsTrimmed(TranscriptOf(data).value)
  {
    if Get(data, "text").Str? {
      TrimEmptyIffBlank(Get(data, "text").s);
      TrimResultIsTrimmed(Get(data, "text").s);
    }
  }
}
