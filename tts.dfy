/** `POST` of src/pages/api/tts.ts: the validation ladder, the choice of the audio source
    in the binding's result, the copy of the decoded base64 string into bytes, and the
    empty-buffer check. */
module Tts {
  import opened Js
  import opened Adapter
  import opened Http

  const MaxTextLength: nat := 2000
  const TtsModel: string := "@cf/myshell-ai/melotts"
  const MethodNotAllowed: string := "Method not allowed"
  const TextRequired: string := "Text is required"
  const TooLong: string := "Text exceeds maximum length of " + DecimalString(MaxTextLength) + " characters"
  const VoiceRequired: string := "Voice is required"
  const BindingNotFound: string :=
    "Cloudflare Workers AI binding \"AI\" not found. Configure a Workers AI binding in your Cloudflare Pages project."
  const InvalidResponse: string := "Invalid response from AI service"
  const NoAudio: string := "No audio generated"
  const AiErrorPrefix: string := "AI service error: "
  const ServerErrorPrefix: string := "Server error: "
  /** The TypeError of destructuring `null` or `undefined`. */
  const NullDestructure: string := "Cannot destructure property 'text' of null"

  /** `atob` as a parameter: the decoded binary string, or the error it throws. */
  type Atob = string -> Outcome<string>

  /** An error response of this route: JSON with only a `Content-Type` header. */
  function TtsError(status: nat, message: string): (r: Response)
    ensures r.status == status && r.body == ErrorBody(message)
    ensures r.headers == map["Content-Type" := "application/json"]
  {
    Response(status, ErrorBody(message), map["Content-Type" := "application/json"])
  }

  /** The successful response: the audio bytes as an `audio/mpeg` body, not cached. */
  function AudioResponse(bytes: seq<byte>): Response
  {
    Response(200, Buffer(bytes), map["Content-Type" := "audio/mpeg", "Cache-Control" := "no-cache"])
  }

  /** Where the audio is taken from, in the order the handler looks. */
  datatype AudioSource =
    | RawBuffer
    | Base64Audio(encoded: string)
    | ArrayBufferSnake
    | ArrayBufferCamel
    | DataField
    | NoSource

  /** The first source present in the result, in priority order: the result itself when it
      is an ArrayBuffer, then a string `audio`, then the `array_buffer`, `arrayBuffer` and
      `data` buffers. */
  function SourceOf(result: JsValue): AudioSource
  {
    if result.Buffer? then RawBuffer
    else if Truthy(result) && IsObjectLike(result) then
      if Get(result, "audio").Str? then Base64Audio(Get(result, "audio").s)
      else if Get(result, "array_buffer").Buffer? then ArrayBufferSnake
      else if Get(result, "arrayBuffer").Buffer? then ArrayBufferCamel
      else if Get(result, "data").Buffer? then DataField
      else NoSource
    else NoSource
  }

  /** `new Uint8Array(n)` filled with `s.charCodeAt(i)`: each code is stored modulo 256. */
  function BinaryBytes(s: string): seq<byte>
  {
    seq(|s|, i requires 0 <= i < |s| => ((s[i] as int) % 256) as byte)
  }

  /** A binary string (every code below 256, as `atob` returns) is copied code for code:
      one byte per character, each byte the character's code. */
  lemma BinaryStringCopiedExactly(s: string)
    requires forall i :: 0 <= i < |s| ==> (s[i] as int) < 256
    ensures |BinaryBytes(s)| == |s|
    ensures forall i :: 0 <= i < |s| ==> BinaryBytes(s)[i] as int == s[i] as int
  {
  }

  /** The copy loop: a fresh buffer of the string's length, written index by index. */
  method CopyBinaryString(s: string) returns (bytes: array<byte>)
    ensures fresh(bytes)
    ensures bytes[..] == BinaryBytes(s)
  {
    bytes := new byte[|s|];
    var i := 0;
    while i < |s|
      invariant 0 <= i <= |s|
      invariant forall j :: 0 <= j < i ==> bytes[j] == ((s[j] as int) % 256) as byte
    {
      bytes[i] := ((s[i] as int) % 256) as byte;
      i := i + 1;
    }
  }

  /** The audio buffer the handler ends with, or `None` when it stays `null`. A base64
      `audio` string that fails to decode leaves it `null`: the later fields are not tried. */
  function SelectedAudio(result: JsValue, atob: Atob): Option<seq<byte>>
  {
    match SourceOf(result)
    case RawBuffer => Some(result.bytes)
    case Base64Audio(encoded) =>
      (match atob(encoded)
       case Ok(binary) => Some(BinaryBytes(binary))
       case Fail(_) => None)
    case ArrayBufferSnake => Some(Get(result, "array_buffer").bytes)
    case ArrayBufferCamel => Some(Get(result, "arrayBuffer").bytes)
    case DataField => Some(Get(result, "data").bytes)
    case NoSource => None
  }

  /** `let audioBuffer = null`, then reassigned by the first matching branch. */
  method SelectAudio(result: JsValue, atob: Atob) returns (audio: Option<seq<byte>>)
    ensures audio == SelectedAudio(result, atob)
  {
    audio := None;
    if result.Buffer? {
      audio := Some(result.bytes);
    } else if Truthy(result) && IsObjectLike(result) {
      if Get(result, "audio").Str? {
        var decoded := atob(Get(result, "audio").s);
        if decoded.Ok? {
          var bytes := CopyBinaryString(decoded.value);
          audio := Some(bytes[..]);
        }
      } else if Get(result, "array_buffer").Buffer? {
        audio := Some(Get(result, "array_buffer").bytes);
      } else if Get(result, "arrayBuffer").Buffer? {
        audio := Some(Get(result, "arrayBuffer").bytes);
      } else if Get(result, "data").Buffer? {
        audio := Some(Get(result, "data").bytes);
      }
    }
  }

  /** The priority order: each source is used exactly when it is present and no earlier
      one is. */
  lemma AudioPriority(result: JsValue, atob: Atob)
    ensures result.Buffer? ==> SelectedAudio(result, atob) == Some(result.bytes)
    ensures result.Obj? && Get(result, "audio").Str? ==>
      SelectedAudio(result, atob) ==
        (if atob(result.props["audio"].s).Ok? then Some(BinaryBytes(atob(result.props["audio"].s).value)) else None)
    ensures result.Obj? && !Get(result, "audio").Str? ==>
      SelectedAudio(result, atob) ==
        (if Get(result, "array_buffer").Buffer? then Some(result.props["array_buffer"].bytes)
         else if Get(result, "arrayBuffer").Buffer? then Some(result.props["arrayBuffer"].bytes)
         else if Get(result, "data").Buffer? then Some(result.props["data"].bytes)
         else None)
    ensures !result.Buffer? && !result.Obj? ==> SelectedAudio(result, atob) == None
  {
  }

  /** The request fields the handler reads. */
  datatype TtsRequest = TtsRequest(httpMethod: string, parsed: Outcome<JsValue>)

  /** `!text || typeof text !== "string"` */
  predicate TextMissing(text: JsValue)
  {
    !(Truthy(text) && text.Str?)
  }

  /** The answer once the binding has returned a result. */
  function AnswerAudio(result: JsValue, atob: Atob): Response
  {
    match SelectedAudio(result, atob)
    case None => TtsError(500, InvalidResponse)
    case Some(bytes) => if |bytes| == 0 then TtsError(500, NoAudio) else AudioResponse(bytes)
  }

  /** The specification of `POST`. */
  function TtsPost(req: TtsRequest, ai: AiSlot, atob: Atob): Response
  {
    if req.httpMethod != "POST" then TtsError(405, MethodNotAllowed)
    else if req.parsed.Fail? then TtsError(500, ServerErrorPrefix + req.parsed.message)
    else
    var body := req.parsed.value;
    if Nullish(body) then TtsError(500, ServerErrorPrefix + NullDestructure)
    else
    var text := Get(body, "text");
    var voice := Get(body, "voice");
    if TextMissing(text) then TtsError(400, TextRequired)
    else if |text.s| > MaxTextLength then TtsError(400, TooLong)
    else if TextMissing(voice) then TtsError(400, VoiceRequired)
    else if !ai.AiBound? then TtsError(500, BindingNotFound)
    else
      match ai.run(Run(TtsModel, Obj(map["prompt" := text, "voice" := voice])), 1)
      case Fail(m) => TtsError(500, AiErrorPrefix + m)
      case Ok(result) => AnswerAudio(result, atob)
  }

  method PostTts(req: TtsRequest, ai: AiSlot, atob: Atob) returns (resp: Response)
    ensures resp == TtsPost(req, ai, atob)
  {
    if req.httpMethod != "POST" {
      return TtsError(405, MethodNotAllowed);
    }
    if req.parsed.Fail? {
      return TtsError(500, ServerErrorPrefix + req.parsed.message);
    }
    var body := req.parsed.value;
    if Nullish(body) {
      return TtsError(500, ServerErrorPrefix + NullDestructure);
    }
    var text := Get(body, "text");
    var voice := Get(body, "voice");
    if TextMissing(text) {
      return TtsError(400, TextRequired);
    }
    if |text.s| > MaxTextLength {
      return TtsError(400, TooLong);
    }
    if TextMissing(voice) {
      return TtsError(400, VoiceRequired);
    }
    if !ai.AiBound? {
      return TtsError(500, BindingNotFound);
    }
    var outcome := ai.run(Run(TtsModel, Obj(map["prompt" := text, "voice" := voice])), 1);
    if outcome.Fail? {
      return TtsError(500, AiErrorPrefix + outcome.message);
    }
    var audio := SelectAudio(outcome.value, atob);
    if audio.None? {
      resp := TtsError(500, InvalidResponse);
    } else if |audio.value| == 0 {
      resp := TtsError(500, NoAudio);
    } else {
      resp := AudioResponse(audio.value);
    }
  }

  /** The validation ladder, in order: a non-POST method is a 405 before anything else;
      then missing text, then text over 2000 characters, then missing voice are 400s;
      then a missing binding is a 500. Text of exactly 2000 characters passes. */
  lemma ValidationLadder(req: TtsRequest, ai: AiSlot, atob: Atob)
    ensures req.httpMethod != "POST" ==> TtsPost(req, ai, atob).status == 405
    ensures req.httpMethod == "POST" && req.parsed.Ok? && !Nullish(req.parsed.value) ==>
      var text := Get(req.parsed.value, "text");
      var voice := Get(req.parsed.value, "voice");
      var r := TtsPost(req, ai, atob);
      && (TextMissing(text) ==> r == TtsError(400, TextRequired))
      && (!TextMissing(text) && |text.s| > MaxTextLength ==> r == TtsError(400, TooLong))
      && (!TextMissing(text) && |text.s| <= MaxTextLength && TextMissing(voice) ==>
            r == TtsError(400, VoiceRequired))
      && (!TextMissing(text) && |text.s| <= MaxTextLength && !TextMissing(voice) ==>
            r.status != 400 && (!ai.AiBound? ==> r == TtsError(500, BindingNotFound)))
  {
  }

  /** Once the binding has answered: no audio source is a 500, an empty buffer is a 500,
      and any other buffer is the 200 body, byte for byte, as `audio/mpeg`. */
  lemma AudioOutcome(result: JsValue, atob: Atob)
    ensures var r := AnswerAudio(result, atob);
      && (SelectedAudio(result, atob).None? ==> r == TtsError(500, InvalidResponse))
      && (SelectedAudio(result, atob).Some? && |SelectedAudio(result, atob).value| == 0 ==>
            r == TtsError(500, NoAudio))
      && (r.status == 200 <==> SelectedAudio(result, atob).Some? && |SelectedAudio(result, atob).value| > 0)
      && (r.status == 200 ==>
            r.body == Buffer(SelectedAudio(result, atob).value)
            && r.headers["Content-Type"] == "audio/mpeg" && r.headers["Cache-Control"] == "no-cache")
  {
  }

  /** A binding failure is a 500 whose message is prefixed with "AI service error: ". */
  lemma BindingFailureMessage(req: TtsRequest, bind: Binding, atob: Atob)
    requires req.httpMethod == "POST" && req.parsed.Ok? && !Nullish(req.parsed.value)
    requires var text := Get(req.parsed.value, "text"); var voice := Get(req.parsed.value, "voice");
      !TextMissing(text) && |text.s| <= MaxTextLength && !TextMissing(voice)
      && bind(Run(TtsModel, Obj(map["prompt" := text, "voice" := voice])), 1).Fail?
    ensures var text := Get(req.parsed.value, "text"); var voice := Get(req.parsed.value, "voice");
      TtsPost(req, AiBound(bind), atob) ==
        TtsError(500, AiErrorPrefix + bind(Run(TtsModel, Obj(map["prompt" := text, "voice" := voice])), 1).message)
  {
  }
}
