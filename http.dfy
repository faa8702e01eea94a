/** HTTP responses as the API routes build them, and the `json` helper that
    src/pages/api/ai-chat.ts, google-chat.ts and ai-image.ts each define. */
module Http {
  import opened Js

  /** A response: its status, its body (the value before `JSON.stringify`, or the raw bytes
      of a binary body) and its headers. */
  datatype Response = Response(status: nat, body: JsValue, headers: map<string, string>)

  const JsonContentType: string := "application/json; charset=utf-8"

  /** `json(data, status = 200)` */
  function Json(data: JsValue, status: nat := 200): (r: Response)
    ensures r.status == status && r.body == data
    ensures r.headers.Keys == {"Content-Type", "Cache-Control"}
    ensures r.headers["Content-Type"] == JsonContentType && r.headers["Cache-Control"] == "no-store"
  {
    Response(status, data, map["Content-Type" := JsonContentType, "Cache-Control" := "no-store"])
  }

  /** Without a status, `json` answers 200. */
  lemma JsonDefaultsToOk(data: JsValue)
    ensures Json(data).status == 200 && Json(data) == Json(data, 200)
  {
  }

  /** `{ error: message }` */
  function ErrorBody(message: string): JsValue
  {
    Obj(map["error" := Str(message)])
  }
}
