/** `POST` of src/pages/api/google-chat.ts: the AI Gateway configuration guard, the prompt
    check, the model default, the gateway URL, the upstream call and `extractText`. */
module GoogleChat {
  import opened Js
  import opened Text
  import opened Http

  const MissingConfig: string :=
    "Missing AI Gateway configuration. Please set AI_GATEWAY_ACCOUNT_ID, AI_GATEWAY_GATEWAY_NAME, and GOOGLE_AI_STUDIO_TOKEN in your Cloudflare Pages project settings."
  const MissingPrompt: string := "Missing prompt"
  const UpstreamFailed: string := "Google AI Studio call failed"
  const DefaultGoogleModel: string := "gemini-1.5-flash"
  const Provider: string := "google-ai-studio"
  const GatewayPrefix: string := "https://gateway.ai.cloudflare.com/v1/"
  const ModelsPath: string := "/google-ai-studio/v1/models/"
  const GenerateSuffix: string := ":generateContent"
  /** The TypeError of reading a property of a `null` or `undefined` value. */
  const NullRead: string := "Cannot read properties of null"
  const NotAnArray: string := "parts.map is not a function"

  /** The three settings of the runtime environment the handler reads. */
  datatype GatewayEnv = GatewayEnv(accountId: JsValue, gatewayName: JsValue, token: JsValue)

  /** `!accountId || !gatewayName || !googleToken` */
  predicate ConfigMissing(env: GatewayEnv)
  {
    !Truthy(env.accountId) || !Truthy(env.gatewayName) || !Truthy(env.token)
  }

  /** `!body || typeof body.prompt !== "string" || body.prompt.trim().length === 0` */
  predicate PromptMissing(body: JsValue)
  {
    !Truthy(body) || !Get(body, "prompt").Str? || |Trim(Get(body, "prompt").s)| == 0
  }

  /** `typeof body.model === "string" && body.model.length > 0 ? body.model : "gemini-1.5-flash"` */
  function GoogleModelName(body: JsValue): (r: string)
    ensures Get(body, "model").Str? && Get(body, "model").s != "" ==> r == Get(body, "model").s
    ensures !(Get(body, "model").Str? && Get(body, "model").s != "") ==> r == DefaultGoogleModel
    ensures r != ""
  {
    var m := Get(body, "model");
    if m.Str? && |m.s| > 0 then m.s else DefaultGoogleModel
  }

  /** `encodeURIComponent` as a parameter: the runtime's percent-encoder. */
  type Encoder = string -> string

  /** The gateway endpoint for an account, a gateway and a model. */
  function GatewayUrl(enc: Encoder, account: string, gateway: string, model: string): string
  {
    GatewayPrefix + enc(account) + "/" + enc(gateway) + ModelsPath + enc(model) + GenerateSuffix
  }

  /** `encodeURIComponent` escapes `/`, so an encoded component never holds one. */
  ghost predicate SlashFree(enc: Encoder)
  {
    forall s :: '/' !in enc(s)
  }

  ghost predicate Injective(enc: Encoder)
  {
    forall s, t :: enc(s) == enc(t) ==> s == t
  }

  /** The position of the first `c` in `s`, or `|s|` when there is none. */
  function IndexOf(s: string, c: char): (r: nat)
    ensures r <= |s|
  {
    if |s| == 0 then 0 else if s[0] == c then 0 else 1 + IndexOf(s[1..], c)
  }

  lemma {:induction false} IndexOfAfterPrefix(x: string, r: string, c: char)
    requires c !in x
    ensures IndexOf(x + [c] + r, c) == |x|
  {
    if |x| > 0 {
      assert (x + [c] + r)[1..] == x[1..] + [c] + r;
      IndexOfAfterPrefix(x[1..], r, c);
    }
  }

  /** A string cut at the first `c` of two prefixes that do not hold `c`: both halves agree. */
  lemma SplitAtFirst(x: string, r: string, y: string, t: string, c: char)
    requires c !in x && c !in y
    requires x + [c] + r == y + [c] + t
    ensures x == y && r == t
  {
    var whole := x + [c] + r;
    IndexOfAfterPrefix(x, r, c);
    IndexOfAfterPrefix(y, t, c);
    assert x == whole[..|x|];
    assert y == whole[..|y|];
    assert r == whole[|x| + 1..];
    assert t == whole[|y| + 1..];
  }

  /** The shape of the gateway URL, with its fixed parts left abstract. */
  lemma {:induction false} UrlSplit(p: string, mid: string, suf: string,
                                    x: string, y: string, z: string, x2: string, y2: string, z2: string)
    requires '/' !in x && '/' !in y && '/' !in x2 && '/' !in y2
    requires |mid| > 0 && mid[0] == '/'
    requires p + x + "/" + y + mid + z + suf == p + x2 + "/" + y2 + mid + z2 + suf
    ensures x == x2 && y == y2 && z == z2
  {
    var u := p + x + "/" + y + mid + z + suf;
    var u2 := p + x2 + "/" + y2 + mid + z2 + suf;
    var tail := mid[1..] + z + suf;
    var tail2 := mid[1..] + z2 + suf;
    assert u[|p|..] == x + ['/'] + (y + ['/'] + tail);
    assert u2[|p|..] == x2 + ['/'] + (y2 + ['/'] + tail2);
    SplitAtFirst(x, y + ['/'] + tail, x2, y2 + ['/'] + tail2, '/');
    SplitAtFirst(y, tail, y2, tail2, '/');
    assert z + suf == tail[|mid| - 1..];
    assert z2 + suf == tail2[|mid| - 1..];
    assert z == (z + suf)[..|z|];
    assert z2 == (z2 + suf)[..|z2|];
  }

  /** With a slash-free, injective encoder, the URL determines the account, the gateway
      and the model: two requests go to the same endpoint only when all three agree. */
  lemma GatewayUrlDeterminesParts(enc: Encoder, a: string, g: string, m: string, a2: string, g2: string, m2: string)
    requires SlashFree(enc) && Injective(enc)
    requires GatewayUrl(enc, a, g, m) == GatewayUrl(enc, a2, g2, m2)
    ensures a == a2 && g == g2 && m == m2
  {
    assert ModelsPath[0] == '/';
    UrlSplit(GatewayPrefix, ModelsPath, GenerateSuffix, enc(a), enc(g), enc(m), enc(a2), enc(g2), enc(m2));
  }

  /** The upstream request: URL, headers and JSON body. */
  datatype FetchRequest = FetchRequest(url: string, headers: map<string, string>, body: JsValue)

  /** The upstream response: its `ok` flag and status, and how `text()` and `json()` settle. */
  datatype Upstream = Upstream(ok: bool, status: nat, text: Outcome<string>, json: Outcome<JsValue>)

  /** `fetch` as a parameter. */
  type Fetch = FetchRequest -> Outcome<Upstream>

  /** The request sent for a prompt: one user turn holding the prompt as its only part. */
  function GoogleRequest(enc: Encoder, env: GatewayEnv, model: string, prompt: string): FetchRequest
  {
    FetchRequest(
      GatewayUrl(enc, ToJsString(env.accountId), ToJsString(env.gatewayName), model),
      map["content-type" := "application/json", "x-goog-api-key" := ToJsString(env.token)],
      Obj(map["contents" := Arr([Obj(map["role" := Str("user"),
                                         "parts" := Arr([Obj(map["text" := Str(prompt)])])])])]))
  }

  /** `safeText`: the body text, or `""` when reading it fails. */
  function SafeText(text: Outcome<string>): (r: string)
    ensures text.Ok? ==> r == text.value
    ensures text.Fail? ==> r == ""
  {
    match text
    case Ok(t) => t
    case Fail(_) => ""
  }

  /** `v?.[0]`: an array's first element, an object's `"0"` property, a string's first
      character. */
  function OptFirst(v: JsValue): JsValue
  {
    match v
    case Arr(items) => if |items| > 0 then items[0] else Undefined
    case Obj(props) => if "0" in props then props["0"] else Undefined
    case Str(s) => if |s| > 0 then Str([s[0]]) else Undefined
    case _ => Undefined
  }

  /** `v?.key` */
  function OptGet(v: JsValue, key: string): (r: JsValue)
    ensures Nullish(v) ==> r == Undefined
  {
    if Nullish(v) then Undefined else Get(v, key)
  }

  /** `resp.candidates?.[0]?.content?.parts` */
  function PartsOf(resp: JsValue): JsValue
  {
    OptGet(OptGet(OptFirst(Get(resp, "candidates")), "content"), "parts")
  }

  /** `p.text ?? ""` */
  function PartText(p: JsValue): JsValue
  {
    var t := Get(p, "text");
    if Nullish(t) then Str("") else t
  }

  /** `extractText`: fails when the response is null, when `parts` is present but not an
      array, or when a part is null; otherwise the `text` of each part, in order, joined
      and trimmed. */
  function ExtractText(resp: JsValue): (r: Outcome<string>)
    ensures r.Ok? ==> IsTrimmed(r.value)
  {
    if Nullish(resp) then Fail(NullRead)
    else
      var parts := PartsOf(resp);
      if Nullish(parts) then Ok("")
      else if !parts.Arr? then Fail(NotAnArray)
      else if exists i :: 0 <= i < |parts.items| && Nullish(parts.items[i]) then Fail(NullRead)
      else
        var mapped := seq(|parts.items|, i requires 0 <= i < |parts.items| => PartText(parts.items[i]));
        TrimResultIsTrimmed(JoinElements(mapped, ""));
        Ok(Trim(JoinElements(mapped, "")))
  }

  /** A response without candidates, without a first candidate, without content or without
      parts has no text. */
  lemma MissingPartsGiveEmptyText(resp: JsValue)
    requires !Nullish(resp) && Nullish(PartsOf(resp))
    ensures ExtractText(resp) == Ok("")
  {
  }

  /** The string a part contributes: its `text` when that is a string, else nothing. */
  function PartString(p: JsValue): string
  {
    if Get(p, "text").Str? then Get(p, "text").s else ""
  }

  /** When every part is an object whose `text` is a string or missing, the text is the
      trimmed concatenation of the parts' texts in order. */
  lemma {:induction false} ExtractTextConcatenates(resp: JsValue)
    requires !Nullish(resp) && PartsOf(resp).Arr?
    requires forall i :: 0 <= i < |PartsOf(resp).items| ==>
      PartsOf(resp).items[i].Obj? && (Get(PartsOf(resp).items[i], "text").Str? || Nullish(Get(PartsOf(resp).items[i], "text")))
    ensures var items := PartsOf(resp).items;
      ExtractText(resp) == Ok(Trim(Concat(seq(|items|, i requires 0 <= i < |items| => PartString(items[i])))))
  {
    var items := PartsOf(resp).items;
    var ts := seq(|items|, i requires 0 <= i < |items| => PartString(items[i]));
    var mapped := seq(|items|, i requires 0 <= i < |items| => PartText(items[i]));
    assert mapped == seq(|ts|, i requires 0 <= i < |ts| => Str(ts[i]));
    JoinStrings(ts);
  }

  /** `extractText` throws exactly for a null response, non-array `parts`, or a null part. */
  lemma ExtractTextFailures(resp: JsValue)
    ensures ExtractText(resp).Fail? <==>
      Nullish(resp)
      || (!Nullish(PartsOf(resp)) && !PartsOf(resp).Arr?)
      || (PartsOf(resp).Arr? && exists i :: 0 <= i < |PartsOf(resp).items| && Nullish(PartsOf(resp).items[i]))
  {
  }

  /** The answer once the upstream call has returned. */
  function AnswerUpstream(model: string, resp: Upstream): Response
  {
    if !resp.ok then
      Json(Obj(map["error" := Str(UpstreamFailed), "status" := Num(resp.status),
                   "body" := Str(SafeText(resp.text))]), 502)
    else
      match resp.json
      case Fail(e) => Json(ErrorBody(e), 500)
      case Ok(data) =>
        match ExtractText(data)
        case Fail(e) => Json(ErrorBody(e), 500)
        case Ok(text) =>
          Json(Obj(map["provider" := Str(Provider), "model" := Str(model),
                       "text" := Str(text), "raw" := data]))
  }

  /** The specification of `POST`: `parsed` is the outcome of `request.json()`. */
  function GoogleChatPost(env: GatewayEnv, parsed: Outcome<JsValue>, enc: Encoder, fetch: Fetch): Response
  {
    if ConfigMissing(env) then Json(ErrorBody(MissingConfig), 500)
    else if parsed.Fail? then Json(ErrorBody(parsed.message), 500)
    else
    var body := parsed.value;
    if PromptMissing(body) then Json(ErrorBody(MissingPrompt), 400)
    else
    var model := GoogleModelName(body);
    match fetch(GoogleRequest(enc, env, model, Get(body, "prompt").s))
    case Fail(e) => Json(ErrorBody(e), 500)
    case Ok(resp) => AnswerUpstream(model, resp)
  }

  /** Missing configuration is a 500 before the body is read or anything is fetched. */
  lemma MissingConfigIs500(env: GatewayEnv, parsed: Outcome<JsValue>, enc: Encoder, fetch: Fetch)
    requires ConfigMissing(env)
    ensures GoogleChatPost(env, parsed, enc, fetch) == Json(ErrorBody(MissingConfig), 500)
  {
  }

  /** With the configuration present, a missing or blank prompt is a 400; a present one is
      sent, under the chosen model, to the gateway URL with the token as the API key. */
  lemma PromptGuard(env: GatewayEnv, body: JsValue, enc: Encoder, fetch: Fetch)
    requires !ConfigMissing(env)
    ensures PromptMissing(body) ==>
      GoogleChatPost(env, Ok(body), enc, fetch) == Json(ErrorBody(MissingPrompt), 400)
    ensures !PromptMissing(body) ==>
      var req := GoogleRequest(enc, env, GoogleModelName(body), Get(body, "prompt").s);
      && StartsWith(req.url, GatewayPrefix)
      && req.headers["x-goog-api-key"] == ToJsString(env.token)
      && GoogleChatPost(env, Ok(body), enc, fetch).status != 400
  {
    if !PromptMissing(body) {
      var req := GoogleRequest(enc, env, GoogleModelName(body), Get(body, "prompt").s);
      assert req.url[..|GatewayPrefix|] == GatewayPrefix;
    }
  }

  /** A non-ok upstream answer is a 502 carrying the upstream status and body text (empty
      when the text cannot be read). */
  lemma UpstreamFailureIs502(model: string, resp: Upstream)
    requires !resp.ok
    ensures var out := AnswerUpstream(model, resp);
      && out.status == 502
      && Get(out.body, "status") == Num(resp.status)
      && (resp.text.Fail? ==> Get(out.body, "body") == Str(""))
  {
  }

  /** An ok upstream answer is a 200 carrying the model and the trimmed extracted text, or
      a 500 when its body is not JSON or its text cannot be extracted. */
  lemma UpstreamSuccess(model: string, resp: Upstream)
    requires resp.ok
    ensures var out := AnswerUpstream(model, resp);
      && (out.status == 200 <==> resp.json.Ok? && ExtractText(resp.json.value).Ok?)
      && (out.status != 200 ==> out.status == 500)
      && (out.status == 200 ==>
            Get(out.body, "model") == Str(model)
            && Get(out.body, "text") == Str(ExtractText(resp.json.value).value)
            && IsTrimmed(ExtractText(resp.json.value).value))
  {
  }

  /** Every answer is a 200, 400, 500 or 502. */
  lemma GoogleStatuses(env: GatewayEnv, parsed: Outcome<JsValue>, enc: Encoder, fetch: Fetch)
    ensures GoogleChatPost(env, parsed, enc, fetch).status in {200, 400, 500, 502}
  {
    if !ConfigMissing(env) && parsed.Ok? && !PromptMissing(parsed.value) {
      var model := GoogleModelName(parsed.value);
      var r := fetch(GoogleRequest(enc, env, model, Get(parsed.value, "prompt").s));
      if r.Ok? {
        if r.value.ok {
          UpstreamSuccess(model, r.value);
        } else {
          UpstreamFailureIs502(model, r.value);
        }
      }
    }
  }
}
